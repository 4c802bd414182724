/** Small value-level helpers shared by every module: optional values, the
    JavaScript truthiness rules the handlers rely on (`x || d`, `x || undefined`),
    `slice`, `startsWith`, and the decimal rendering of record ids. */
module Common {

  datatype Option<+T> = None | Some(value: T)

  /** A field of a JSON request body as a schema sees it: absent, `null`, a
      value of the expected type, or a value of some other type. */
  datatype BodyField<+T> = NotSent | SentNull | Sent(v: T) | SentOther

  /** `!!x` for an optional string field: present and not the empty string. */
  predicate Truthy(o: Option<string>) {
    o.Some? && o.value != ""
  }

  /** `x || d` for an optional string field. */
  function OrElse(o: Option<string>, d: string): string {
    if Truthy(o) then o.value else d
  }

  /** `x || undefined`: an empty string is dropped like a missing field. */
  function OrUndefined(o: Option<string>): Option<string> {
    if Truthy(o) then o else None
  }

  /** `s.slice(0, n)`: at most the first n characters. */
  function Prefix(s: string, n: nat): string {
    if |s| <= n then s else s[..n]
  }

  /** `s.startsWith(p)`. */
  predicate StartsWith(s: string, p: string) {
    |p| <= |s| && s[..|p|] == p
  }

  function DigitChar(d: nat): char
    requires d < 10
  {
    (d + '0' as int) as char
  }

  /** Decimal rendering of a record id, as it appears inside derived thread ids. */
  function NatToString(n: nat): string
    decreases n
  {
    if n < 10 then [DigitChar(n)] else NatToString(n / 10) + [DigitChar(n % 10)]
  }

  predicate AllDigits(s: string) {
    forall i :: 0 <= i < |s| ==> '0' <= s[i] <= '9'
  }

  /** A rendered id is non-empty, made of digits only, and so holds no '-'. */
  lemma {:induction false} NatToStringDigits(n: nat)
    ensures 1 <= |NatToString(n)|
    ensures n >= 10 ==> 2 <= |NatToString(n)|
    ensures AllDigits(NatToString(n))
    decreases n
  {
    if n >= 10 {
      NatToStringDigits(n / 10);
    }
  }

  /** Distinct ids render as distinct strings. */
  lemma {:induction false} NatToStringInjective(a: nat, b: nat)
    requires NatToString(a) == NatToString(b)
    ensures a == b
    decreases a
  {
    NatToStringDigits(a);
    NatToStringDigits(b);
    var s := NatToString(a);
    if a < 10 && b < 10 {
      assert DigitChar(a) == s[0] == DigitChar(b);
    } else if a >= 10 && b >= 10 {
      var sa, sb := NatToString(a / 10), NatToString(b / 10);
      assert s == sa + [DigitChar(a % 10)] == sb + [DigitChar(b % 10)];
      assert |sa| == |sb|;
      assert sa == s[..|s| - 1] == sb;
      assert DigitChar(a % 10) == s[|s| - 1] == DigitChar(b % 10);
      NatToStringInjective(a / 10, b / 10);
    }
  }

  /** `a + "-" + d` with d all digits splits uniquely at its last '-'. */
  lemma SplitAtLastDash(a1: string, d1: string, a2: string, d2: string)
    requires a1 + "-" + d1 == a2 + "-" + d2
    requires AllDigits(d1) && AllDigits(d2)
    ensures a1 == a2 && d1 == d2
  {
    var s := a1 + "-" + d1;
    assert forall j :: |s| - |d1| <= j < |s| ==> s[j] == d1[j - (|s| - |d1|)];
    assert forall j :: |s| - |d2| <= j < |s| ==> s[j] == d2[j - (|s| - |d2|)];
    assert s[|s| - |d1| - 1] == '-' == s[|s| - |d2| - 1];
    assert |d1| == |d2|;
    assert d1 == s[|s| - |d1|..] == d2;
    assert a1 == s[..|a1|] == a2;
  }
}
