/** The repository ships the same logic twice: the current `sage_qrcode` package and
    the older `django_sage_qrcode` copy. Where the two differ, the model takes the
    package as a parameter. */
module Packages {
  datatype Package = SageQrcode | DjangoSageQrcode
}
