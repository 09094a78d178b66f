/** Connection ids: the listener key, the tag ":conn:" and a decimal sequence number. */
module ConnIds {

  const TAG := ":conn:"

  function Digit(d: nat): (c: char)
    requires d < 10
  {
    '0' + d as char
  }

  predicate IsDigit(c: char) {
    '0' <= c <= '9'
  }

  function Decimal(n: nat): (s: string)
    ensures |s| > 0
    ensures forall i :: 0 <= i < |s| ==> IsDigit(s[i])
  {
    if n < 10 then [Digit(n)] else Decimal(n / 10) + [Digit(n % 10)]
  }

  function ConnId(key: string, n: nat): string {
    key + TAG + Decimal(n)
  }

  lemma {:induction false} DecimalInjective(n: nat, m: nat)
    requires Decimal(n) == Decimal(m)
    ensures n == m
  {
    var s := Decimal(n);
    if n >= 10 && m >= 10 {
      assert Decimal(n / 10) == s[..|s| - 1] == Decimal(m / 10);
      assert Digit(n % 10) == s[|s| - 1] == Digit(m % 10);
      DecimalInjective(n / 10, m / 10);
    } else {
      assert s[|s| - 1] == Digit(n % 10) == Digit(m % 10);
    }
  }

  // The number is the longest run of digits at the end: the tag's ':' stands before it.
  lemma NumberIsDigitTail(key: string, n: nat)
    ensures var s := ConnId(key, n);
            var at := |s| - |Decimal(n)|;
            && 0 < at
            && s[at - 1] == ':'
            && s[at..] == Decimal(n)
            && s[..at] == key + ":conn:"
            && forall i :: at <= i < |s| ==> IsDigit(s[i])
  {
    var s := ConnId(key, n);
    var at := |s| - |Decimal(n)|;
    assert s[at..] == Decimal(n);
    forall i | at <= i < |s| ensures IsDigit(s[i]) {
      assert s[i] == Decimal(n)[i - at];
    }
  }

  // Two ids are equal only when both the key and the sequence number are, even when
  // the keys themselves contain ':' or end in something that looks like an id.
  lemma ConnIdInjective(k1: string, n1: nat, k2: string, n2: nat)
    requires ConnId(k1, n1) == ConnId(k2, n2)
    ensures k1 == k2 && n1 == n2
  {
    NumberIsDigitTail(k1, n1);
    NumberIsDigitTail(k2, n2);
    assert |Decimal(n1)| == |Decimal(n2)|;
    DecimalInjective(n1, n2);
    assert (k1 + TAG)[..|k1|] == k1 && (k2 + TAG)[..|k2|] == k2;
  }
}
