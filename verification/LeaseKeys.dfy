/** The keys under which a provider's leases are stored: requester, colon, decimal index. */
module LeaseKeys {
  function Digit(d: nat): char
    requires d < 10
  {
    '0' + d as char
  }

  function Decimal(n: nat): (s: string)
    ensures |s| > 0
    ensures forall k :: 0 <= k < |s| ==> '0' <= s[k] <= '9'
  {
    if n < 10 then [Digit(n)] else Decimal(n / 10) + [Digit(n % 10)]
  }

  /** strconv.FormatInt(i, 10) */
  function FormatInt(i: int): string {
    if i < 0 then "-" + Decimal(-i) else Decimal(i)
  }

  function LeaseKey(requester: string, index: int): string {
    requester + ":" + FormatInt(index)
  }

  function DecimalValue(s: string): int {
    if s == "" then 0 else 10 * DecimalValue(s[..|s| - 1]) + (s[|s| - 1] as int - '0' as int)
  }

  lemma {:induction false} DecimalRoundTrip(n: nat)
    ensures DecimalValue(Decimal(n)) == n
  {
    var s := Decimal(n);
    if n < 10 {
      assert s[..|s| - 1] == "";
    } else {
      DecimalRoundTrip(n / 10);
      assert s[..|s| - 1] == Decimal(n / 10);
    }
  }

  function ParseInt(s: string): int {
    if s != "" && s[0] == '-' then -DecimalValue(s[1..]) else DecimalValue(s)
  }

  lemma FormatIntRoundTrip(i: int)
    ensures ParseInt(FormatInt(i)) == i
  {
    DecimalRoundTrip(if i < 0 then -i else i);
    if i < 0 {
      assert FormatInt(i)[1..] == Decimal(-i);
    }
  }

  lemma NoColonInFormatInt(i: int)
    ensures ':' !in FormatInt(i)
  {
  }

  lemma LastColonSplits(a: string, x: string, b: string, y: string)
    requires ':' !in x && ':' !in y && a + ":" + x == b + ":" + y
    ensures a == b && x == y
  {
    var s := a + ":" + x;
    assert s[|a|] == ':' && s[|b|] == ':';
    assert forall k :: |a| < k < |s| ==> s[k] == x[k - |a| - 1];
    assert forall k :: |b| < k < |s| ==> s[k] == y[k - |b| - 1];
    assert |a| == |b|;
    assert a == s[..|a|] && b == s[..|b|];
    assert x == s[|a| + 1..] && y == s[|b| + 1..];
  }

  /** Distinct (requester, chunk) pairs never share a key, even if requesters contain colons
      or digits. */
  lemma LeaseKeyInjective(r1: string, i1: int, r2: string, i2: int)
    requires LeaseKey(r1, i1) == LeaseKey(r2, i2)
    ensures r1 == r2 && i1 == i2
  {
    NoColonInFormatInt(i1);
    NoColonInFormatInt(i2);
    LastColonSplits(r1, FormatInt(i1), r2, FormatInt(i2));
    FormatIntRoundTrip(i1);
    FormatIntRoundTrip(i2);
  }
}
