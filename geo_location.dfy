/** `LatitudeValidator` and `LongitudeValidator` (`helpers/validators/geo_location.py`,
    identical in both packages). Neither class has an `__init__`: message, code and
    bounds are fixed. Values are modelled as exact reals. */
module GeoLocation {
  import opened Validation

  datatype GeoValidator = LatitudeValidator | LongitudeValidator

  function Message(v: GeoValidator): string {
    match v
    case LatitudeValidator => "Enter a valid latitude between -90 and 90."
    case LongitudeValidator => "Enter a valid longitude between -180 and 180."
  }

  /** The largest accepted magnitude: 90 for latitude, 180 for longitude. */
  function Limit(v: GeoValidator): real {
    match v
    case LatitudeValidator => 90.0
    case LongitudeValidator => 180.0
  }

  /** `__call__`: raises iff the value lies below the lower or above the upper
      bound. */
  function Call(v: GeoValidator, value: real): (r: Check<real>)
    ensures r.Accepted? <==> -Limit(v) <= value <= Limit(v)
    ensures r.Rejected? ==> r.error == ValidationError(Message(v), "invalid", map["value" := value])
  {
    if value < -Limit(v) || value > Limit(v) then
      Rejected(ValidationError(Message(v), "invalid", map["value" := value]))
    else
      Accepted
  }

  /** Both bounds are accepted, and the accepted set is symmetric about zero. */
  lemma BoundsInclusive(v: GeoValidator, value: real)
    ensures Call(v, Limit(v)).Accepted? && Call(v, -Limit(v)).Accepted?
    ensures Call(v, value).Accepted? <==> Call(v, -value).Accepted?
  {
  }

  /** The accepted values form an interval: anything between two accepted values is
      accepted. */
  lemma AcceptedInterval(v: GeoValidator, low: real, mid: real, high: real)
    requires Call(v, low).Accepted? && Call(v, high).Accepted?
    requires low <= mid <= high
    ensures Call(v, mid).Accepted?
  {
  }
}
