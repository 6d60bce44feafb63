/** The string operations the models rely on, over ASCII text: ActiveSupport's
    `blank?`/`present?`, and Ruby's `downcase` and `strip`. */
module RubyString {

  /** A character matched by `[[:space:]]`, which is what `blank?` tests for. */
  predicate IsSpace(c: char) {
    c == ' ' || c == '\t' || c == '\n' || c == '\U{B}' || c == '\U{C}' || c == '\r'
  }

  /** A character `strip` removes: the `[[:space:]]` characters and NUL. */
  predicate IsStrippable(c: char) {
    c == '\0' || IsSpace(c)
  }

  /** `blank?`: empty or made only of whitespace. */
  predicate IsBlank(s: string) {
    forall i :: 0 <= i < |s| ==> IsSpace(s[i])
  }

  predicate IsPresent(s: string) {
    !IsBlank(s)
  }

  function DowncaseChar(c: char): char {
    if 'A' <= c <= 'Z' then (c as int + 32) as char else c
  }

  predicate IsLowercase(s: string) {
    forall i :: 0 <= i < |s| ==> !('A' <= s[i] <= 'Z')
  }

  /** `downcase`, with ASCII case mapping. */
  function Downcase(s: string): (r: string)
    ensures |r| == |s|
    ensures forall i :: 0 <= i < |s| ==> r[i] == DowncaseChar(s[i])
    ensures IsLowercase(r)
    ensures IsBlank(r) <==> IsBlank(s)
  {
    var r := seq(|s|, i requires 0 <= i < |s| => DowncaseChar(s[i]));
    assert forall i :: 0 <= i < |s| ==> (IsSpace(r[i]) <==> IsSpace(s[i]));
    r
  }

  /** Downcasing lowercase text changes nothing. */
  lemma DowncaseLowercase(s: string)
    requires IsLowercase(s)
    ensures Downcase(s) == s
  {
  }

  /** The number of strippable characters at the front of `s`. */
  function LeadingRun(s: string): (k: nat)
    ensures k <= |s|
    ensures forall i :: 0 <= i < k ==> IsStrippable(s[i])
    ensures k == |s| || !IsStrippable(s[k])
  {
    if |s| > 0 && IsStrippable(s[0]) then 1 + LeadingRun(s[1..]) else 0
  }

  /** The number of strippable characters at the back of `s`. */
  function TrailingRun(s: string): (k: nat)
    ensures k <= |s|
    ensures forall i :: |s| - k <= i < |s| ==> IsStrippable(s[i])
    ensures k == |s| || !IsStrippable(s[|s| - 1 - k])
  {
    if |s| > 0 && IsStrippable(s[|s| - 1]) then 1 + TrailingRun(s[..|s| - 1]) else 0
  }

  /** `strip`: the text between the leading and the trailing whitespace. */
  function Strip(s: string): (r: string)
    ensures |r| <= |s|
    ensures forall i :: 0 <= i < |r| ==> r[i] in s
    ensures r == [] || (!IsStrippable(r[0]) && !IsStrippable(r[|r| - 1]))
    ensures r == [] <==> forall i :: 0 <= i < |s| ==> IsStrippable(s[i])
    ensures var k := LeadingRun(s);
      && k + |r| <= |s| && r == s[k..k + |r|]
      && forall i :: k + |r| <= i < |s| ==> IsStrippable(s[i])
  {
    var t := s[LeadingRun(s)..];
    t[..|t| - TrailingRun(t)]
  }

  /** Stripping twice is stripping once. */
  lemma StripIdempotent(s: string)
    ensures Strip(Strip(s)) == Strip(s)
  {
    var r := Strip(s);
    assert LeadingRun(r) == 0;
    assert TrailingRun(r[LeadingRun(r)..]) == 0;
  }

  /** The `before_validation` normalisation of Tenant#subdomain and User#email:
      a present value is downcased then stripped, a blank one is left as it is. */
  function Normalize(s: string): (r: string)
    ensures IsBlank(s) ==> r == s
    ensures IsPresent(s) ==> r == Strip(Downcase(s))
    ensures IsPresent(s) ==> IsLowercase(r) && r == Strip(r)
  {
    if IsPresent(s) then
      var d := Downcase(s);
      StripIdempotent(d);
      Strip(d)
    else s
  }

  /** Normalising a normalised value changes nothing. */
  lemma NormalizeIdempotent(s: string)
    ensures Normalize(Normalize(s)) == Normalize(s)
  {
    var r := Normalize(s);
    if IsPresent(s) && IsPresent(r) {
      DowncaseLowercase(r);
    }
  }
}
