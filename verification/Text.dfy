/** Trimming, splitting and numerals, as the standard library does them. */
module Text {
  import opened Prelude
  import opened HostNames
  import opened ConnIds

  // ---------- white space ----------

  predicate IsSpace(c: char) {
    var n := c as int;
    9 <= n <= 13 || n == 0x20 || n == 0x85 || n == 0xA0 || n == 0x1680 || 0x2000 <= n <= 0x200A
    || n == 0x2028 || n == 0x2029 || n == 0x202F || n == 0x205F || n == 0x3000
  }

  lemma CommonSpaces()
    ensures Blank(" \t\r\n") && !IsSpace('0') && !IsSpace('-') && !IsSpace(',') && !IsSpace(':') && !IsSpace('+')
  {
  }

  predicate Blank(s: string) {
    forall i :: 0 <= i < |s| ==> IsSpace(s[i])
  }

  function TrimStart(s: string): string {
    if s != "" && IsSpace(s[0]) then TrimStart(s[1..]) else s
  }

  function TrimEnd(s: string): string {
    if s != "" && IsSpace(s[|s| - 1]) then TrimEnd(s[..|s| - 1]) else s
  }

  function Trim(s: string): string {
    TrimEnd(TrimStart(s))
  }

  // Not even one space at either end.
  predicate Tight(s: string) {
    s != "" ==> !IsSpace(s[0]) && !IsSpace(s[|s| - 1])
  }

  lemma {:induction false} TrimStartDrops(l: string, x: string)
    requires Blank(l)
    ensures TrimStart(l + x) == TrimStart(x)
  {
    if l == "" {
      assert l + x == x;
    } else {
      assert (l + x)[1..] == l[1..] + x;
      TrimStartDrops(l[1..], x);
    }
  }

  lemma {:induction false} TrimEndDrops(x: string, r: string)
    requires Blank(r)
    ensures TrimEnd(x + r) == TrimEnd(x)
  {
    if r == "" {
      assert x + r == x;
    } else {
      assert (x + r)[..|x + r| - 1] == x + r[..|r| - 1];
      TrimEndDrops(x, r[..|r| - 1]);
    }
  }

  // What trimming leaves is the one tight middle between two blanks.
  lemma TrimIs(l: string, x: string, r: string)
    requires Blank(l) && Blank(r) && Tight(x)
    ensures Trim(l + x + r) == x
  {
    assert l + x + r == l + (x + r);
    TrimStartDrops(l, x + r);
    if x == "" {
      assert x + r == r == r + "" && r == "" + r;
      TrimStartDrops(r, "");
    } else {
      assert TrimStart(x + r) == x + r;
      TrimEndDrops(x, r);
    }
  }

  lemma {:induction false} TrimStartSplits(s: string) returns (l: string)
    ensures Blank(l) && s == l + TrimStart(s) && (TrimStart(s) != "" ==> !IsSpace(TrimStart(s)[0]))
  {
    if s != "" && IsSpace(s[0]) {
      var k := TrimStartSplits(s[1..]);
      l := [s[0]] + k;
    } else {
      l := "";
    }
  }

  lemma {:induction false} TrimEndSplits(s: string) returns (r: string)
    ensures Blank(r) && s == TrimEnd(s) + r && (TrimEnd(s) != "" ==> !IsSpace(TrimEnd(s)[|TrimEnd(s)| - 1]))
  {
    if s != "" && IsSpace(s[|s| - 1]) {
      var k := TrimEndSplits(s[..|s| - 1]);
      r := k + [s[|s| - 1]];
    } else {
      r := "";
    }
  }

  lemma TrimSplits(s: string) returns (l: string, r: string)
    ensures Blank(l) && Blank(r) && s == l + Trim(s) + r && Tight(Trim(s))
  {
    l := TrimStartSplits(s);
    r := TrimEndSplits(TrimStart(s));
  }

  lemma TrimIgnoresPadding(l: string, s: string, r: string)
    requires Blank(l) && Blank(r)
    ensures Trim(l + s + r) == Trim(s)
  {
    var a, b := TrimSplits(s);
    assert l + s + r == (l + a) + Trim(s) + (b + r);
    TrimIs(l + a, Trim(s), b + r);
  }

  lemma TrimEmptyIffBlank(s: string)
    ensures Trim(s) == "" <==> Blank(s)
  {
    var l, r := TrimSplits(s);
    if Blank(s) {
      TrimIs(s, "", "");
      assert s + "" + "" == s;
    }
  }

  // ---------- splitting and joining ----------

  function Split(s: string, sep: char): (r: seq<string>)
    ensures |r| > 0
    decreases |s|
  {
    match SplitOnce(s, sep)
    case None => [s]
    case Some((first, rest)) => [first] + Split(rest, sep)
  }

  function Join(parts: seq<string>, sep: char): string {
    if parts == [] then ""
    else if |parts| == 1 then parts[0]
    else parts[0] + [sep] + Join(parts[1..], sep)
  }

  // Splitting and joining are inverse wherever no part holds the separator.
  lemma {:induction false} SplitJoin(parts: seq<string>, sep: char)
    requires parts != [] && forall i :: 0 <= i < |parts| ==> sep !in parts[i]
    ensures Split(Join(parts, sep), sep) == parts
  {
    if |parts| > 1 {
      SplitJoin(parts[1..], sep);
      SplitOnceUnique(parts[0], Join(parts[1..], sep), sep);
    } else {
      assert SplitOnce(parts[0], sep).None?;
    }
  }

  lemma {:induction false} JoinSplit(s: string, sep: char)
    ensures Join(Split(s, sep), sep) == s
    ensures forall i :: 0 <= i < |Split(s, sep)| ==> sep !in Split(s, sep)[i]
    decreases |s|
  {
    match SplitOnce(s, sep)
    case None =>
    case Some((first, rest)) => JoinSplit(rest, sep);
  }

  // ---------- numerals ----------

  predicate Digits(s: string) {
    s != "" && forall i :: 0 <= i < |s| ==> IsDigit(s[i])
  }

  function Value(s: string): nat
    requires forall i :: 0 <= i < |s| ==> IsDigit(s[i])
  {
    if s == "" then 0 else assert IsDigit(s[|s| - 1]); 10 * Value(s[..|s| - 1]) + (s[|s| - 1] as int - '0' as int)
  }

  // u16::from_str: an optional '+', then digits, within sixteen bits.
  function ParseU16(s: string): Option<nat> {
    var d := if s != "" && s[0] == '+' then s[1..] else s;
    if Digits(d) && Value(d) <= 0xFFFF then Some(Value(d)) else None
  }

  predicate Zeros(s: string) {
    forall i :: 0 <= i < |s| ==> s[i] == '0'
  }

  ghost predicate Plain(s: string, n: nat) {
    exists zeros :: Zeros(zeros) && s == zeros + Decimal(n)
  }

  // The numerals of n: its decimal form behind any number of zeros and an optional '+'.
  ghost predicate Spells(s: string, n: nat) {
    n <= 0xFFFF && (Plain(s, n) || (s != "" && s[0] == '+' && Plain(s[1..], n)))
  }

  lemma {:induction false} ValueOfDecimal(zeros: string, n: nat)
    requires Zeros(zeros)
    ensures Digits(zeros + Decimal(n)) && Value(zeros + Decimal(n)) == n
  {
    var s := zeros + Decimal(n);
    if n >= 10 {
      ValueOfDecimal(zeros, n / 10);
      assert s[..|s| - 1] == zeros + Decimal(n / 10);
    } else {
      assert s[..|s| - 1] == zeros;
      ValueOfZeros(zeros);
    }
  }

  lemma {:induction false} ValueOfZeros(zeros: string)
    requires Zeros(zeros)
    ensures Value(zeros) == 0
  {
    if zeros != "" {
      ValueOfZeros(zeros[..|zeros| - 1]);
    }
  }

  lemma {:induction false} DigitsSpell(s: string) returns (zeros: string)
    requires Digits(s)
    ensures Zeros(zeros) && s == zeros + Decimal(Value(s))
  {
    var k := |s| - 1;
    var d := s[k] as int - '0' as int;
    assert s == s[..k] + [s[k]] && Digit(d) == s[k];
    if k == 0 {
      assert s[..k] == "" && Value(s) == d;
      zeros := "";
    } else {
      zeros := DigitsSpell(s[..k]);
      if Value(s[..k]) == 0 {
        assert Value(s) == d;
        zeros := zeros + "0";
      }
    }
  }

  lemma PlainIff(s: string, n: nat)
    ensures Plain(s, n) <==> Digits(s) && Value(s) == n
  {
    if Digits(s) {
      var zeros := DigitsSpell(s);
    }
    forall zeros | Zeros(zeros) && s == zeros + Decimal(n) ensures Digits(s) && Value(s) == n {
      ValueOfDecimal(zeros, n);
    }
  }

  // The parser accepts exactly the numerals.
  lemma ParsesExactlyNumerals(s: string, n: nat)
    ensures ParseU16(s) == Some(n) <==> Spells(s, n)
  {
    PlainIff(s, n);
    if s != "" {
      PlainIff(s[1..], n);
      assert Digits(s) ==> IsDigit(s[0]);
    }
  }
}
