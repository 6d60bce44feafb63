/** ActiveModel validation errors, identified by Rails' error keys (the
    `errors.details` view), and the built-in validators the models use. */
module Validation {
  import RubyString

  datatype ErrorKind =
    | Blank                          // presence
    | Inclusion                      // inclusion: { in: ... }
    | TooShort(minimum: nat)         // length: { minimum: ... }
    | TooLong(maximum: nat)          // length: { maximum: ... }
    | Taken                          // uniqueness
    | GreaterThan(bound: real)       // numericality: { greater_than: ... }
    | GreaterThanOrEqualTo(bound: real)
    | LessThanOrEqualTo(bound: real)
    | Custom(text: string)           // errors.add(attribute, "text")

  datatype FieldError = FieldError(attribute: string, kind: ErrorKind)

  /** `validates attribute, presence: true` */
  function Presence(attribute: string, value: string): (r: seq<FieldError>)
    ensures r == [] <==> RubyString.IsPresent(value)
  {
    if RubyString.IsBlank(value) then [FieldError(attribute, Blank)] else []
  }

  /** `validates attribute, inclusion: { in: allowed }` */
  function InclusionIn(attribute: string, value: string, allowed: seq<string>): (r: seq<FieldError>)
    ensures r == [] <==> value in allowed
  {
    if value in allowed then [] else [FieldError(attribute, Inclusion)]
  }

  /** `validates attribute, length: { minimum: lo }` */
  function MinimumLength(attribute: string, value: string, lo: nat): (r: seq<FieldError>)
    ensures r == [] <==> lo <= |value|
  {
    if |value| < lo then [FieldError(attribute, TooShort(lo))] else []
  }

  /** `validates attribute, length: { minimum: lo, maximum: hi }`; at most one
      of the two bounds can fail. */
  function LengthBetween(attribute: string, value: string, lo: nat, hi: nat): (r: seq<FieldError>)
    ensures r == [] <==> lo <= |value| <= hi
    ensures |r| <= 1 || hi < lo
  {
    MinimumLength(attribute, value, lo)
      + (if |value| > hi then [FieldError(attribute, TooLong(hi))] else [])
  }
}
