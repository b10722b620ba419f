# django-sage-qrcode, modelled in Dafny

This project models the core of django-sage-qrcode, a Django application that
builds QR codes and barcodes for contact cards, Wi-Fi access, payments and
social-media profiles. The repository ships the same library twice: the current
package `sage_qrcode` and the older `django_sage_qrcode`. They mostly agree, and
a `Package` value (`Packages.SageQrcode` / `Packages.DjangoSageQrcode`) selects
the behaviour wherever they differ. The differences are:

- the host the X validator accepts;
- whether the admin draws X codes;
- how the admin calls `create_url`;
- the download policy.

What is modelled:

- **Validators.** These are the social-profile validators, the E.164 phone
  number, the Bitcoin address, the IBAN, latitude and longitude, the event time
  range, and image size and file.
  - Each regular expression is modelled as a decision procedure (`Matches`).
    It is proved equal to a declarative description of the accepted language
    (`Shape` / `E164`).
  - Python's `re` rules are included: `re.IGNORECASE` (`Regex.Fold`), and `$`
    accepting one final newline (`Regex.BeforeDollar`).
  - Each `__call__` either accepts, or rejects with the configured message,
    code and parameters.
  - The accept/reject examples of the test suites are derived from general
    lemmas.
- **Payloads.** These are the data strings encoded in a QR code: the EPC credit
  transfer block, the `bitcoin:` URI (with `urlencode`/`quote_plus`
  percent-encoding), the MECARD string and the vCard 3.0 text. Their line and
  field structure is proved.
- **Services.** `QRCodeBase` and `BarcodeProxy` are classes with the image they
  hold and the list of images they saved. Their generate, save and show methods
  update that state. The payment, contact and social service methods work on a
  `QRCodeBase`, and the social icon lookup searches the icon table in order.
- **Admin utilities.** These are `generate_qr_code` (the class dispatch over the
  stored objects, with its in-place defaults), `generate_barcode_image`, and the
  QR-code and barcode download actions of both packages, including file naming.

Some outcomes come from the libraries the code calls, and they enter as
parameters:

- Rendering is symbolic. An `Image` is a term that records which segno, PIL and
  python-barcode calls produced it. A `Backend` value says whether `segno.make`
  could fit the data into a QR code at the requested level (it raises
  `DataOverflowError` otherwise), whether segno accepted the colours, and which
  raster mode PIL produced.
- The TinyURL short link is the `shortUrl` parameter.
- The Wi-Fi payload of `helpers.make_wifi_data` is the `makeWifiData` parameter.

Where the two packages contradict each other, or the code contradicts its
documentation, the model follows the code. In particular:

- The older admin calls `create_url` for a media URL without the required `save`
  argument. The model therefore makes every media URL in `django_sage_qrcode`
  fail with a `TypeError` (`AdminUtils.GeneratedFailures`).
- The E.164 pattern ends in `$`, so `"+" + 15 digits + "\n"` (17 characters) is
  accepted, although the documentation says "at most 15 digits"
  (`ValidatorExamples.FinalNewlinePhone`).
- `add_social_media_icon` searches the icon table in order and takes the first
  key the lower-cased URL contains. A Facebook profile whose handle contains
  `t.me`, and neither `instagram.com` nor `whatsapp.com`, therefore gets the
  Telegram icon (`SocialService.FacebookHandleShadowed`),
  and an `https://x.com/` profile whose handle holds no `.` (every handle the
  older X validator accepts is such) gets no icon and raises
  (`SocialService.XProfileHasNoIcon`).

## Model

| member | source | states |
|---|---|---|
| Validation.Configure | sage_qrcode/helpers/validators/socials.py:34-37 | an explicit message or code replaces the class default, and a missing one keeps it |
| Validation.Reject | sage_qrcode/helpers/validators/socials.py:49-50 | the raised error carries exactly the configured message, the configured code and the given params |
| Validation.Guard | sage_qrcode/helpers/validators/socials.py:49-50 | a value is accepted iff the pattern matched; otherwise the error has the message, the code and `{"value": value}` |
| SocialValidators.New | sage_qrcode/helpers/validators/socials.py:9-37 | each platform validator defaults to its own message and to code `invalid` |
| SocialValidators.MatchesIffShape | sage_qrcode/helpers/validators/socials.py:22-24 | the search procedure accepts exactly the strings of the form scheme, optional `www.`, host, path prefix, handle, optional `/`, optional final newline |
| SocialValidators.Call | sage_qrcode/helpers/validators/socials.py:49-50 | a value is accepted iff its case-folded form has the profile-URL shape of the platform in that package; a rejection carries message, code and value |
| SocialValidators.CaseInsensitive | sage_qrcode/helpers/validators/socials.py:23 | upper-casing a URL never changes whether it is accepted |
| SocialValidators.TrailingNewlineAccepted | sage_qrcode/helpers/validators/socials.py:262 | an accepted URL stays accepted with one final newline added |
| SocialValidators.NoDoubleNewline | sage_qrcode/helpers/validators/socials.py:262 | no accepted URL ends in two newlines |
| SocialValidators.ExtraSegmentRejected | sage_qrcode/helpers/validators/socials.py:22-24 | a handle followed by a further path segment is rejected |
| SocialValidators.MissingHandleRejected | sage_qrcode/helpers/validators/socials.py:262 | the URL up to the handle, with or without `/`, is rejected |
| SocialValidators.WrongPathRejected | sage_qrcode/helpers/validators/socials.py:82-84 | after the host, a text not starting with the platform's path prefix (`@`, `add/`, `in/`, `/`) is rejected |
| SocialValidators.WrongHostRejected | sage_qrcode/helpers/validators/socials.py:380-382 | after the scheme, a text starting with neither `www.` nor the platform host is rejected |
| SocialValidators.SchemeRequired | sage_qrcode/helpers/validators/socials.py:22-24 | every accepted URL starts with `http` |
| SocialValidators.ShapeAfterLead | sage_qrcode/helpers/validators/socials.py:22-24 | after a fixed scheme, `www.` and host, a URL is accepted iff its rest matches the handle tail |
| SocialValidators.ShapeOnFolded | sage_qrcode/helpers/validators/socials.py:23 | case folding does not change a string already in folded form |
| SocialValidators.HandleLength | sage_qrcode/helpers/validators/socials.py:262 | the greedy handle run is maximal: every character in it is a handle character and the next one is not |
| SocialValidators.TailMatchSound | sage_qrcode/helpers/validators/socials.py:262 | a matched tail is a non-empty handle, optional `/`, optional newline |
| SocialValidators.TailMatchComplete | sage_qrcode/helpers/validators/socials.py:262 | every such tail is matched |
| SocialValidators.MatchFromSound | sage_qrcode/helpers/validators/socials.py:22-24 | a match at a fixed scheme and `www.` choice decomposes the URL into its parts |
| SocialValidators.MatchFromComplete | sage_qrcode/helpers/validators/socials.py:22-24 | every URL assembled from valid parts is matched |
| SocialValidators.HeadDetermined | sage_qrcode/helpers/validators/socials.py:22-24 | the scheme and the `www.` choice of a URL are unique |
| SocialValidators.TrailingNewlineShape | sage_qrcode/helpers/validators/socials.py:262 | a shaped URL without a final newline keeps its shape with one added |
| SocialValidators.ExtraSegmentTail | sage_qrcode/helpers/validators/socials.py:22-24 | the tail pattern rejects a handle followed by `/` and a non-empty segment other than a newline |
| SocialExamples.AcceptedAfter | sage_qrcode/helpers/validators/socials.py:22-24 | the URL up to the handle followed by a valid tail is accepted |
| SocialExamples.RejectedAfter | sage_qrcode/helpers/validators/socials.py:22-24 | a handle followed by a character that is neither a handle character nor `/` nor a final newline is rejected |
| SocialExamples.RejectedEmptyHandle | sage_qrcode/helpers/validators/socials.py:262 | the URL up to the handle alone is rejected |
| SocialExamples.RejectedPath | sage_qrcode/helpers/validators/socials.py:142-144 | a URL whose text after the host lacks the path prefix is rejected |
| SocialExamples.RejectedScheme | sage_qrcode/helpers/validators/socials.py:22-24 | a value not starting with `http` is rejected |
| SocialExamples.TikTokValid | sage_qrcode/tests/validators/test_socail_media.py:28 | `https://www.tiktok.com/@username` is accepted |
| SocialExamples.SnapchatValid | sage_qrcode/tests/validators/test_socail_media.py:31 | `https://snapchat.com/add/user123` is accepted |
| SocialExamples.InstagramValid | sage_qrcode/tests/validators/test_social_media.py:17-20 | `https://instagram.com/validuser` is accepted |
| SocialExamples.FacebookValid | sage_qrcode/tests/validators/test_socail_media.py:34 | `https://www.facebook.com/username` is accepted |
| SocialExamples.TelegramValid | sage_qrcode/tests/validators/test_socail_media.py:37 | `https://t.me/user123` is accepted |
| SocialExamples.LinkedInValid | sage_qrcode/tests/validators/test_socail_media.py:38 | `https://www.linkedin.com/in/username` is accepted |
| SocialExamples.SkypeValid | sage_qrcode/tests/validators/test_socail_media.py:41 | `https://skype.com/user123` is accepted |
| SocialExamples.TwitterValid | sage_qrcode/tests/validators/test_social_media.py:115-118 | in the current package, `https://twitter.com/validuser` is a valid X profile |
| SocialExamples.XComValid | django_sage_qrcode/helpers/validators/socials.py:165 | in the older package, `https://x.com/validuser` is a valid X profile |
| SocialExamples.UpperCaseValid | sage_qrcode/helpers/validators/socials.py:22-24 | `HTTPS://WWW.TIKTOK.COM/@BOB` is accepted |
| SocialExamples.NewlineValid | sage_qrcode/helpers/validators/socials.py:262 | `https://t.me/bob` followed by a newline is accepted |
| SocialExamples.SlashNewlineValid | sage_qrcode/helpers/validators/socials.py:142-144 | `http://www.instagram.com/bob/` followed by a newline is accepted |
| SocialExamples.ExtraSegmentInvalid | sage_qrcode/tests/validators/test_socail_media.py:53 | `https://www.tiktok.com/@user123/extra` is rejected |
| SocialExamples.TelegramNoHandle | sage_qrcode/tests/validators/test_socail_media.py:60 | `https://t.me/` is rejected |
| SocialExamples.SkypeNoHandle | sage_qrcode/tests/validators/test_socail_media.py:64 | `https://www.skype.com/` is rejected |
| SocialExamples.SpaceInvalid | sage_qrcode/tests/validators/test_social_media.py:22-26 | `https://instagram.com/invalid user` is rejected |
| SocialExamples.BangInvalid | sage_qrcode/tests/validators/test_social_media.py:64-68 | `https://t.me/invaliduser!` is rejected |
| SocialExamples.DotLinkedInInvalid | django_sage_qrcode/helpers/validators/socials.py:139-141 | a LinkedIn handle containing `.` is rejected |
| SocialExamples.TikTokNoAt | sage_qrcode/tests/validators/test_socail_media.py:52 | `https://www.tiktok.com/user123` is rejected |
| SocialExamples.SnapchatNoAdd | sage_qrcode/tests/validators/test_social_media.py:36-40 | `https://snapchat.com/invaliduser` is rejected |
| SocialExamples.LinkedInNoIn | sage_qrcode/tests/validators/test_socail_media.py:62 | `https://www.linkedin.com/` is rejected |
| SocialExamples.InstagramNoPath | sage_qrcode/tests/validators/test_socail_media.py:57 | `https://instagram.com` is rejected |
| SocialExamples.BareWordInvalid | sage_qrcode/tests/validators/test_socail_media.py:66-72 | `invalidurl` is rejected |
| SocialExamples.EmptyInvalid | sage_qrcode/tests/validators/test_socail_media.py:73-79 | the empty string is rejected |
| SocialExamples.TwitterInvalidInLegacy | django_sage_qrcode/helpers/validators/socials.py:165 | the older X validator rejects `twitter.com` profiles |
| SocialExamples.XComInvalidInSage | sage_qrcode/helpers/validators/socials.py:380-382 | the current X validator rejects `x.com` profiles |
| PhoneNumber.New | sage_qrcode/helpers/validators/phone_number.py:33-36 | the message and code default to the E.164 message and `invalid` |
| PhoneNumber.MatchesIffE164 | sage_qrcode/helpers/validators/phone_number.py:23 | the matcher accepts exactly `+`, a digit 1-9, 1 to 14 more digits, and an optional final newline |
| PhoneNumber.Call | sage_qrcode/helpers/validators/phone_number.py:49-50 | a number is accepted iff it is E.164-shaped; a rejection carries message, code and value |
| PhoneNumber.AcceptedDigits | sage_qrcode/helpers/validators/phone_number.py:23 | an accepted number, before `$`, is `+` and 2 to 15 digits, so it has at most 16 characters, or 17 ending in a newline |
| PhoneNumber.MissingPlusRejected | sage_qrcode/helpers/validators/phone_number.py:23 | a number without a leading `+` is rejected |
| PhoneNumber.LeadingZeroRejected | sage_qrcode/helpers/validators/phone_number.py:23 | a number whose first digit is 0 is rejected |
| PhoneNumber.TooManyDigitsRejected | sage_qrcode/helpers/validators/phone_number.py:23 | more than 15 digits are rejected, with or without a final newline |
| PhoneNumber.InstancesEqual | sage_qrcode/helpers/validators/phone_number.py:69-70 | the two module-level instances are equal validators with the default configuration |
| Bitcoin.New | django_sage_qrcode/helpers/validators/bitcoin.py:26-30 | the message and code default to the Bitcoin message and `invalid` |
| Bitcoin.MatchesIffShape | django_sage_qrcode/helpers/validators/bitcoin.py:24 | the matcher accepts exactly `1` or `3`, 25 to 34 Base58 characters, and an optional final newline |
| Bitcoin.Call | django_sage_qrcode/helpers/validators/bitcoin.py:42-43 | an address is accepted iff it has that shape; a rejection carries message, code and value |
| Bitcoin.AcceptedLength | django_sage_qrcode/helpers/validators/bitcoin.py:24 | an accepted address has 26 to 35 characters before `$`, and 26 to 36 in all |
| Bitcoin.ExcludedCharacterRejected | django_sage_qrcode/helpers/validators/bitcoin.py:24 | an address containing `0`, `O`, `I` or `l` in its body is rejected |
| Bitcoin.OtherVersionRejected | django_sage_qrcode/helpers/validators/bitcoin.py:24 | an address not starting with `1` or `3` (for example bech32 `bc1`) is rejected |
| Bitcoin.AnyShapedAccepted | django_sage_qrcode/helpers/validators/bitcoin.py:13 | every well-shaped address is accepted; no checksum is verified |
| Iban.New | django_sage_qrcode/helpers/validators/iban.py:25-29 | the message and code default to the IBAN message and `invalid` |
| Iban.MatchesIffShape | django_sage_qrcode/helpers/validators/iban.py:23 | the matcher accepts exactly two capitals, two digits, 1 to 30 capitals or digits, and an optional final newline |
| Iban.Call | django_sage_qrcode/helpers/validators/iban.py:31-33 | an IBAN is accepted iff it has that shape; a rejection carries message, code and value |
| Iban.AcceptedLength | django_sage_qrcode/helpers/validators/iban.py:23 | an accepted IBAN has 5 to 34 characters before `$`, and 5 to 35 in all |
| Iban.ForeignCharacterRejected | django_sage_qrcode/helpers/validators/iban.py:23 | a lower-case letter, space or other character in the account part is rejected |
| Iban.CheckDigitsIgnored | django_sage_qrcode/helpers/validators/iban.py:31-33 | any two check digits are accepted; the mod-97 check is not performed |
| GeoLocation.Call | sage_qrcode/helpers/validators/geo_location.py:19-63 | latitude is accepted iff within [-90, 90] and longitude iff within [-180, 180]; a rejection has the axis message |
| GeoLocation.BoundsInclusive | sage_qrcode/helpers/validators/geo_location.py:32-33 | both limits are accepted, and acceptance is symmetric under negation |
| GeoLocation.AcceptedInterval | sage_qrcode/helpers/validators/geo_location.py:62-63 | the accepted set is an interval |
| Event.New | django_sage_qrcode/helpers/validators/event.py:15-19 | the message and code default to the event message and `invalid_time_range` |
| Event.Call | django_sage_qrcode/helpers/validators/event.py:21-27 | a range is accepted iff the end is not at or before the start; the error names start and end |
| Event.EqualTimesRejected | django_sage_qrcode/helpers/validators/event.py:21-27 | a range whose start equals its end is rejected |
| Event.StrTrichotomy | django_sage_qrcode/helpers/validators/event.py:21-27 | lexicographic string order is trichotomous, asymmetric and irreflexive |
| Event.StrLessTransitive | django_sage_qrcode/helpers/validators/event.py:21-27 | lexicographic string order is transitive, so with trichotomy it is a strict total order |
| Event.StringTimes | django_sage_qrcode/helpers/validators/event.py:21-27 | for time strings, a range is accepted iff the start is strictly below the end |
| ImageValidators.NewSize | django_sage_qrcode/helpers/validators/image.py:62-73 | the size bounds default to 1 and 1000 |
| ImageValidators.CallSize | django_sage_qrcode/helpers/validators/image.py:75-77 | a size is accepted iff absent or within the inclusive bounds |
| ImageValidators.BoundsDistinguish | django_sage_qrcode/helpers/validators/image.py:79-86 | validators with different bounds disagree on some size |
| ImageValidators.NewImageFile | django_sage_qrcode/helpers/validators/image.py:18-26 | the file validator keeps the given maximum size and defaults message and code |
| ImageValidators.CallImageFile | django_sage_qrcode/helpers/validators/image.py:28-41 | a file is rejected when reading its dimensions fails, or when a truthy maximum is exceeded (with the size message); otherwise it is accepted |
| ImageValidators.FalsyMaxSizeNoLimit | django_sage_qrcode/helpers/validators/image.py:36-41 | with no maximum, or a maximum of 0, every readable file is accepted |
| ValidatorExamples.ValidPhoneNumbers | sage_qrcode/tests/validators/test_number_validator.py:11-18 | the test suite's valid numbers are accepted |
| ValidatorExamples.InvalidPhoneNumbers | sage_qrcode/tests/validators/test_number_validator.py:27-35 | the test suite's invalid numbers are rejected |
| ValidatorExamples.FinalNewlinePhone | sage_qrcode/helpers/validators/phone_number.py:23 | a 17-character number, 15 digits and a newline, is accepted |
| ValidatorExamples.GenesisAddress | sage_qrcode/tests/validators/test_bitcoin_validator.py:25 | the genesis-block address is accepted |
| ValidatorExamples.ScriptHashAddress | sage_qrcode/tests/validators/test_bitcoin_validator.py:26 | a pay-to-script-hash address is accepted |
| ValidatorExamples.InvalidBitcoinAddresses | sage_qrcode/tests/validators/test_bitcoin_validator.py:38-47 | the test suite's invalid addresses are rejected |
| ValidatorExamples.ValidIbans | sage_qrcode/tests/validators/test_iban_validator.py:20-24 | the test suite's valid IBANs are accepted |
| ValidatorExamples.InvalidIbans | sage_qrcode/tests/validators/test_iban_validator.py:31-36 | the test suite's invalid IBANs are rejected |
| ValidatorExamples.Latitudes | sage_qrcode/tests/validators/test_misc_validators.py:63-69 | the test suite's latitudes get their expected verdicts |
| ValidatorExamples.Longitudes | sage_qrcode/tests/validators/test_misc_validators.py:81-87 | the test suite's longitudes get their expected verdicts |
| ValidatorExamples.EventTimes | sage_qrcode/tests/validators/test_event_validator.py:12-35 | the test suite's time ranges get their expected verdicts |
| ValidatorExamples.Sizes | sage_qrcode/tests/validators/test_misc_validators.py:45-51 | the test suite's sizes get their expected verdicts |
| UrlEncoding.Utf8 | sage_qrcode/service/payment_qrcode.py:85 | every character encodes to 1 to 4 bytes, each below 256 |
| UrlEncoding.EscapeAll | sage_qrcode/service/payment_qrcode.py:85 | escaping n bytes gives 3n characters, each `%` or unreserved |
| UrlEncoding.QuotePlus | sage_qrcode/service/payment_qrcode.py:85 | the quoted text contains only unreserved characters, `+` and `%` |
| UrlEncoding.QuotePlusUnreserved | sage_qrcode/service/payment_qrcode.py:85 | text made only of unreserved characters is left unchanged |
| UrlEncoding.QuotePlusSeparators | sage_qrcode/service/payment_qrcode.py:85 | quoted text never contains `&`, `=`, `?` or `#` |
| UrlEncoding.QuotePlusEmpty | sage_qrcode/service/payment_qrcode.py:85 | the quoted text is empty iff the input is |
| UrlEncoding.Fields | sage_qrcode/service/payment_qrcode.py:85 | one `key=value` field per pair, in order |
| UrlEncoding.FieldSplit | sage_qrcode/service/payment_qrcode.py:85 | splitting a field at `=` gives back the quoted key and value |
| UrlEncoding.UrlEncodeSplit | sage_qrcode/service/payment_qrcode.py:85 | the query is empty iff there are no pairs; otherwise splitting at `&` gives the fields back |
| Payloads.Trunc | sage_qrcode/service/payment_qrcode.py:39-42 | `int()` truncates toward zero |
| Payloads.CentsExact | sage_qrcode/service/payment_qrcode.py:39-42 | an amount of k/100 euros gives exactly k cents |
| Payloads.CentsTruncates | sage_qrcode/service/payment_qrcode.py:39-42 | the cents line is within one of 100 times the amount, truncated toward zero |
| Payloads.EpcLines | sage_qrcode/service/payment_qrcode.py:39-42 | the EPC block has nine lines |
| Payloads.EpcShape | sage_qrcode/service/payment_qrcode.py:39-42 | the block is its nine lines each ended by a newline, and splitting it recovers them when no field holds a newline |
| Payloads.EpcCentsLine | sage_qrcode/service/payment_qrcode.py:39-42 | the eighth line is the cents figure and parses back to the cents |
| Payloads.EpcDefaultText | sage_qrcode/service/payment_qrcode.py:18-42 | with the default empty text, the block ends in an empty line |
| Payloads.EpcTenEuros | sage_qrcode/service/payment_qrcode.py:39-42 | ten euros give the lines `EUR10.00` and `1000` |
| Payloads.BitcoinFields | sage_qrcode/service/payment_qrcode.py:79-85 | the query fields are the present parameters, in the order amount, label, message |
| Payloads.BitcoinQuery | sage_qrcode/service/payment_qrcode.py:79-88 | with no parameter the URI is `bitcoin:` and the address; otherwise the address is followed by `?` and a non-empty query |
| Payloads.BitcoinQueryIff | sage_qrcode/service/payment_qrcode.py:79-88 | the URI is the bare address form iff no parameter is given |
| Payloads.UriOfQuery | sage_qrcode/service/payment_qrcode.py:85-88 | the URI is the address, `?`, and the query fields joined by `&` |
| Payloads.BitcoinPlain | sage_qrcode/service/payment_qrcode.py:79-88 | with no message, an amount and a label made of unreserved characters appear verbatim, as `amount=…&label=…` after `?` |
| Payloads.BitcoinMessageSpace | sage_qrcode/service/payment_qrcode.py:79-88 | an empty label is kept as `label=`, an absent amount is dropped, and the space of a two-word message is written as `+` |
| Payloads.MeCardFields | sage_qrcode/service/contact_qrcode.py:64 | the MECARD text has six `;`-separated fields |
| Payloads.MeCardShape | sage_qrcode/service/contact_qrcode.py:64 | the text is its fields joined by `;`, and splitting it recovers them when no field holds a `;` |
| Payloads.MeCardAbsent | sage_qrcode/service/contact_qrcode.py:64 | absent e-mail, phone and URL fields are written as `EMAIL:None`, `TEL:None` and `URL:None` among the six `;`-joined fields |
| Payloads.MeCardUnescaped | sage_qrcode/service/contact_qrcode.py:64 | a `;` in the name is not escaped, so splitting yields an extra field |
| Payloads.MeCardSplitName | sage_qrcode/service/contact_qrcode.py:64 | a name containing `;` is written verbatim |
| Payloads.VCardLines | sage_qrcode/service/contact_qrcode.py:95-99 | the vCard has ten lines |
| Payloads.VCardShape | sage_qrcode/service/contact_qrcode.py:95-99 | the vCard is its lines joined by newlines and ends in `END:VCARD`; splitting it recovers the lines when no field holds a newline |
| Payloads.VCardAbsent | sage_qrcode/service/contact_qrcode.py:95-99 | absent fields are written as the text `None` |
| Images.CustomizeIgnoresScale | sage_qrcode/service/base.py:110-130 | the artistic image of a custom GIF is the same whatever scale is asked for: it shows the symbol on the given background at scale 8 |
| Images.RenderSymbol | sage_qrcode/service/base.py:31-75 | a rendered, framed and captioned image still shows the QR symbol of the data at the requested error level; with colours accepted, the plain image has the given palette |
| Images.RenderPlain | sage_qrcode/service/base.py:63-72 | without a custom GIF, the image is the segno raster at the requested scale and level, in the requested colours when segno accepts them, converted to RGBA only when it is not already RGBA |
| Images.RenderCustom | sage_qrcode/service/base.py:58-61 | a truthy custom path gives the artistic image at scale 8 |
| Images.DecorateLayers | sage_qrcode/service/payment_qrcode.py:51-56 | framing and captioning keep the core image; the caption goes on top of the frame; a falsy frame draws nothing |
| Base.QRCodeBase.constructor | sage_qrcode/service/base.py:26-29 | a new service holds no image and has saved nothing |
| Base.QRCodeBase.GenerateQrCode | sage_qrcode/service/base.py:31-75 | when `segno.make` overflows it raises DataOverflowError and stores nothing; otherwise it stores the rendered image and reports whether a custom GIF was used |
| Base.QRCodeBase.SaveQrCode | sage_qrcode/service/base.py:99-107 | without an image it raises ValueError and saves nothing; otherwise it saves the held image once |
| Base.QRCodeBase.ShowQrCode | sage_qrcode/service/base.py:77-97 | without an image it raises ValueError; otherwise it returns the image and saves it iff `save` |
| Base.GenerateThenShow | django_sage_qrcode/tests/qrcode.py:17-25 | generating with the defaults then showing returns the RGBA raster when the data fits, and the overflow otherwise |
| Base.ShowWithoutGeneration | sage_qrcode/service/base.py:87-89 | showing before generating raises ValueError |
| Base.SaveWithoutGeneration | sage_qrcode/service/base.py:102-104 | saving before generating raises ValueError |
| Barcode.Encoded | sage_qrcode/service/barcode.py:70-72 | an `http` URL longer than 80 characters is replaced by its short link; any other data is kept |
| Barcode.KeptAsGiven | sage_qrcode/service/barcode.py:70-72 | data of at most 80 characters is encoded as given |
| Barcode.LongUrlShortened | sage_qrcode/service/barcode.py:70-72 | a long `https` URL is encoded as its short link |
| Barcode.BarcodeProxy.constructor | sage_qrcode/service/barcode.py:27-30 | a new proxy holds no barcode and has saved nothing |
| Barcode.BarcodeProxy.GenerateBarcode | sage_qrcode/service/barcode.py:47-92 | apart from failures inside python-barcode, it stores and returns the barcode of the (possibly shortened) data |
| Barcode.BarcodeProxy.SaveBarcode | sage_qrcode/service/barcode.py:114-124 | without a barcode it raises ValueError; otherwise it saves the held barcode once |
| Barcode.BarcodeProxy.ShowBarcode | sage_qrcode/service/barcode.py:94-112 | without a barcode it raises ValueError; otherwise it returns it and saves it iff `save` |
| Barcode.BarcodeProxy.CreateUrl | sage_qrcode/service/barcode.py:126-143 | a Code 128 barcode of the URL is held and saved iff `save` |
| Barcode.BarcodeProxy.CreateTextBarcode | sage_qrcode/service/barcode.py:145-162 | a Code 128 barcode of the text is held and saved iff `save` |
| Barcode.GenerateThenShow | django_sage_qrcode/tests/barcode.py:18-25 | with the defaults, the shown barcode is the Code 128 barcode, black on white |
| Barcode.ShowWithoutGeneration | sage_qrcode/service/barcode.py:104-106 | showing before generating raises ValueError |
| Barcode.SaveWithoutGeneration | sage_qrcode/service/barcode.py:119-121 | saving before generating raises ValueError |
| Finishing.Finish | sage_qrcode/service/payment_qrcode.py:51-57 | the held image is framed and captioned (the caption only without a custom GIF), then shown and saved iff `save` |
| Finishing.CaptionIffPlain | sage_qrcode/service/payment_qrcode.py:51-56 | the result carries the caption iff no custom GIF was used, and is framed iff the frame is truthy |
| PaymentService.GenerateEpcQrCode | sage_qrcode/service/payment_qrcode.py:18-57 | a block that does not fit raises DataOverflowError and changes nothing; otherwise the service holds the EPC block rendered at level `h`, framed and captioned, and saves it iff `save` |
| PaymentService.GenerateBitcoinQrCode | sage_qrcode/service/payment_qrcode.py:59-103 | a URI that does not fit raises DataOverflowError and changes nothing; otherwise the service holds the `bitcoin:` URI rendered at level `h`, always captioned, and saves it iff `save` |
| PaymentService.EpcOnFreshInstance | sage_qrcode/service/payment_qrcode.py:18-57 | it fails iff the block does not fit, saving nothing; otherwise the EPC image encodes the block, is captioned iff no custom GIF, is framed when the frame is truthy, and is saved iff `save` |
| PaymentService.BitcoinOnFreshInstance | sage_qrcode/service/payment_qrcode.py:59-103 | it fails iff the URI does not fit; otherwise the Bitcoin image is always captioned, framed iff the frame is truthy, and with no parameter encodes `bitcoin:` and the address |
| ContactService.GenerateWifiQrCode | sage_qrcode/service/contact_qrcode.py:19-46 | a payload that does not fit raises DataOverflowError and changes nothing; otherwise the service holds the Wi-Fi payload rendered with the default light and finder colours, and saves it iff `save` |
| ContactService.GenerateMeCardQrCode | sage_qrcode/service/contact_qrcode.py:48-74 | a text that does not fit raises DataOverflowError and changes nothing; otherwise the service holds the MECARD text rendered with the default light and finder colours, and saves it iff `save` |
| ContactService.GenerateVCardQrCode | sage_qrcode/service/contact_qrcode.py:76-114 | a card that does not fit raises DataOverflowError and changes nothing; otherwise the service holds the vCard rendered with the given colours, and saves it iff `save` |
| ContactService.WifiIgnoresExtraColors | sage_qrcode/service/contact_qrcode.py:37-39 | the second and third colours have no effect on a Wi-Fi image, nor on whether it fails; it fails iff the payload does not fit |
| ContactService.MeCardIgnoresExtraColors | sage_qrcode/service/contact_qrcode.py:65-67 | the second and third colours have no effect on a MECARD image, nor on whether it fails; it fails iff the text does not fit |
| ContactService.VCardForwardsColors | sage_qrcode/service/contact_qrcode.py:100-107 | it fails iff the card does not fit; otherwise a vCard image without a custom GIF uses all three given colours |
| SocialService.LookUp | sage_qrcode/service/social_qrcode.py:49-56 | the loop over an ordered table finds nothing iff no key occurs in the lower-cased URL; otherwise it returns the icon of the first key that occurs, the one `FirstIcon` names |
| SocialService.LookUpIcon | sage_qrcode/service/social_qrcode.py:37-56 | on the nine-entry table and `url.lower()`: no icon iff the URL contains no table key; otherwise the icon of the first key it contains |
| SocialService.AddSocialMediaIcon | sage_qrcode/service/social_qrcode.py:23-59 | a URL without a known key raises ValueError and changes nothing; with a key but no held image it raises AttributeError (reading the size of `None`) and changes nothing; otherwise the icon is pasted on the held image in place |
| SocialService.CreateSocialMediaUrl | sage_qrcode/service/social_qrcode.py:61-96 | a URL that does not fit raises DataOverflowError and changes nothing; a URL with no icon key raises ValueError, leaving the plain rendering held and nothing saved; otherwise the held image is the rendering with its icon, framed and always captioned, saved iff `save` |
| SocialService.CreateUrl | sage_qrcode/service/social_qrcode.py:98-142 | the URL rendered with the optional frame and no caption, and never saved whatever `save` says (`not self.generate_qr_code` is always false); in the older package a missing `save` raises TypeError and changes nothing; a URL that does not fit raises DataOverflowError and changes nothing |
| SocialService.SocialOnFreshInstance | sage_qrcode/tests/service/test_social_media_qrcode.py:10-15 | creation succeeds iff the URL fits and contains a key of the icon table, and the image then carries the icon and the caption; an overflow leaves no image |
| SocialService.UrlOnFreshInstance | sage_qrcode/service/social_qrcode.py:131-142 | a URL code is never saved, leaves no image iff the older package lacks `save` or the URL does not fit, and otherwise is uncaptioned, encodes the URL, and is framed iff the frame is truthy |
| SocialService.FirstIconSearch | sage_qrcode/service/social_qrcode.py:37-53 | the search from a table position fails iff no later key occurs, and never passes a key that occurs |
| SocialService.IconForChosen | sage_qrcode/service/social_qrcode.py:37-56 | the chosen icon is that of the first table key the lower-cased URL contains |
| SocialService.InstagramAnywhere | sage_qrcode/service/social_qrcode.py:37-53 | any URL containing `instagram.com` gets the Instagram icon |
| SocialService.InstagramUpperCase | sage_qrcode/service/social_qrcode.py:37-53 | the lookup ignores ASCII case |
| SocialService.TelegramShadows | sage_qrcode/service/social_qrcode.py:37-53 | a URL containing `t.me` and no earlier key gets the Telegram icon |
| SocialService.NoKeyWithoutLetters | sage_qrcode/service/social_qrcode.py:54-56 | a standalone fact about the icon table: a URL lacking a letter of every key finds no icon |
| SocialService.XProfileHasNoIcon | sage_qrcode/service/social_qrcode.py:37-56 | an `https://x.com/` profile whose handle holds no `.` (as every handle of `[A-Za-z0-9_]+` the older X validator accepts) finds no icon, so drawing it raises |
| SocialService.FacebookHandleShadowed | sage_qrcode/service/social_qrcode.py:37-53 | a Facebook profile whose handle contains `t.me` and no `i` or `w` (so neither `instagram.com` nor `whatsapp.com`) gets the Telegram icon |
| AdminUtils.RouteSocialIffMediaClass | sage_qrcode/utils/admin.py:53-63 | an object goes to the social branch iff its class is among that package's media classes |
| AdminUtils.SizeOrDefault | sage_qrcode/utils/admin.py:46-51 | a falsy size becomes 10, and a truthy size is kept |
| AdminUtils.ColorOrDefault | sage_qrcode/utils/admin.py:46-51 | a falsy colour becomes the default, and a truthy colour is kept |
| AdminUtils.QRCodeRecord.constructor | sage_qrcode/utils/admin.py:36-51 | a record holds the fields it was given |
| AdminUtils.GenerateQrCode | sage_qrcode/utils/admin.py:36-141 | a GIF object without a path raises AttributeError and changes nothing; otherwise size and colours are defaulted in place and the dispatched image is returned |
| AdminUtils.BuildAndShow | sage_qrcode/utils/admin.py:65-141 | the class dispatch and the final show compute exactly the admin's generated result |
| AdminUtils.BuildAndShowLink | sage_qrcode/utils/admin.py:95-115 | the social and media URL branches, with the proxy's final show, compute exactly the admin's generated result |
| AdminUtils.GeneratedFailures | django_sage_qrcode/admin/utils.py:31-127 | generation fails exactly for an unknown class, a WhatsApp code, a media URL in the older package, a payload that does not fit, or a social URL with no icon key, each with its error |
| AdminUtils.GeneratedSymbol | sage_qrcode/utils/admin.py:65-141 | every generated image shows the QR symbol of the object's payload at level `h` |
| AdminUtils.GeneratedCaption | sage_qrcode/utils/admin.py:65-140 | no frame is drawn; social and Bitcoin codes are always captioned, media URLs never, the others iff no custom GIF |
| AdminUtils.BitcoinIgnoresCustomColorSize | sage_qrcode/utils/admin.py:130-140 | a Bitcoin code ignores the custom GIF, colour and size, succeeds iff its URI fits, and is drawn in black with the stored second and third colours |
| AdminUtils.SocialIgnoresCustom | sage_qrcode/utils/admin.py:95-104 | a social code ignores the custom GIF |
| AdminUtils.AdminBitcoinUri | sage_qrcode/utils/admin.py:130-140 | a stored Bitcoin code's URI always carries amount, label and message, in that order |
| AdminUtils.XDispatch | sage_qrcode/utils/admin.py:53-63 | X codes on `twitter.com` are drawn in the current package whenever they fit, and raise in the older one |
| AdminUtils.RegenerateIsStable | sage_qrcode/utils/admin.py:46-51 | generating twice gives the same result, and the first run leaves size and colours truthy at their defaults |
| AdminUtils.BarcodeRecord.constructor | sage_qrcode/utils/admin.py:213-233 | a record holds the fields it was given |
| AdminUtils.GenerateBarcodeImage | sage_qrcode/utils/admin.py:213-233 | colours default in place to black on white; URL and text objects give their Code 128 barcode, and other objects raise ValueError; failures inside python-barcode are not modelled |
| AdminUtils.BarcodeDefaults | sage_qrcode/utils/admin.py:213-233 | apart from failures inside python-barcode, generation succeeds iff the object is a URL or text barcode, black on white, and keeps a short URL as given |
| AdminUtils.QrFileNameInjective | sage_qrcode/utils/admin.py:154 | distinct keys give distinct QR file names |
| AdminUtils.BarcodeFileNameInjective | sage_qrcode/utils/admin.py:246 | distinct keys give distinct barcode file names |
| AdminUtils.QrDownloadNameInjective | sage_qrcode/utils/admin.py:172-180 | distinct stored codes get distinct download names |
| AdminUtils.DistinctDownloadNames | sage_qrcode/utils/admin.py:181-203 | the entries of a download archive never clash |
| AdminUtils.HandleQrCode | sage_qrcode/utils/admin.py:158-203 | no selection gives a message, one gives that code's file, and several give `Qrcodes.zip` with one entry per code in order |
| AdminUtils.DownloadQrCode | django_sage_qrcode/admin/utils.py:138-146 | the current package adds the "exactly one" notice to every answer; the older one sends a file iff exactly one code is selected |
| AdminUtils.DownloadBarcode | sage_qrcode/utils/admin.py:250-284 | one selection gives its barcode file; the current package zips several into `Barcodes.zip` and answers none with a message; the older one answers any other count with a message |

## Left out

- Rasterising, compositing, GIF frames and PNG bytes are left out: images are symbolic terms, and the foreign libraries' choices are the `Backend` parameter.
- segno's capacity table is left out: whether a payload fits at level `h` (at most 1273 bytes in byte mode) is the `fits` flag of `Backend`, not computed from the data.
- Barcode.BarcodeProxy.GenerateBarcode: does not model failures inside python-barcode. `barcode_class(data, writer=ImageWriter())` can raise for data its symbology rejects, and the result is stated apart from such failures.
- AdminUtils.GenerateBarcodeImage: states its result apart from python-barcode failures, as GenerateBarcode does.
- AdminUtils.BarcodeDefaults: its "succeeds iff" holds apart from python-barcode failures, as for GenerateBarcode.
- Base.QRCodeBase.GenerateQrCode: does not model a custom GIF path that PIL cannot open. `customize_qr_code` then raises from `Image.open`, and the stored image is stated apart from that failure.
- SocialService.AddSocialMediaIcon: does not model an icon file that PIL cannot open. `add_icon_to_image` then raises from `Image.open`, and the result is stated apart from that failure.
- The Wi-Fi payload text of `helpers.make_wifi_data` is a parameter, because that helper is not part of this model.
- The TinyURL call and the network are the `shortUrl` parameter.
- File storage, uuid file names, `os.chdir`, `Image.show()` and logging are left out, because they are I/O. Saving is modelled as appending to a `saved` list.
- Amounts are an exact value plus the text Python prints for them. Float rounding is left out; the admin passes two-place decimals, where the value is exact.
- NaN latitudes and longitudes are left out, because the model uses exact reals.
- `\d` in the E.164 pattern is restricted to ASCII digits, whereas Python also accepts other Unicode digits.
- `str.lower()` is exact on ASCII and on the few non-ASCII code points that lower to ASCII. Other characters are kept, which cannot change whether an ASCII key occurs.
- Image objects are values, so aliasing between the proxy and the service that shares its image is not modelled.
- Django models, forms, serializers, API views, admin classes and system checks are left out. They are framework glue around the modelled functions.
- HTTP response bodies and zip bytes are left out: a response is a message, an attachment name, or an archive name with entry names.
- The API download views and the `admin/actions/download.py` actions are left out, because they only forward to the modelled admin utilities.
- HandleQrCode: the success message, which reports the count and the elapsed time after an archive is built, is left out, because it depends on the clock.
- DownloadBarcode: the success message that follows an archive is left out, because it is a side effect on the request.
- PhoneNumber.AcceptedDigits: the stated bound is 16 characters, or 17 with a final newline, not the documented 15 digits, because `$` lets one newline through.
- SocialIgnoresCustom: states only that the custom GIF is ignored. Its caption and symbol are stated in GeneratedCaption and GeneratedSymbol.
