/** The status spec of an error page: comma-separated codes and ranges within 400..599. */
module StatusSpec {
  import opened Prelude
  import opened HostNames
  import opened ConnIds
  import opened Text
  import opened FirstOccurrence

  datatype SpecError = EmptySegment | BadRange | BadCode(text: string) | Reversed | OutOfRange(code: nat)

  datatype Outcome = Accepted(codes: seq<nat>) | Refused(error: SpecError)

  datatype Parsed = Span(a: nat, b: nat) | Fault(error: SpecError)

  const LOWEST := 400
  const HIGHEST := 599

  // ---------- one segment ----------

  function SpanOf(seg: string): Parsed {
    var token := Trim(seg);
    if token == "" then Fault(EmptySegment)
    else match SplitOnce(token, '-')
      case Some((left, right)) =>
        var a, b := Trim(left), Trim(right);
        if a == "" || b == "" then Fault(BadRange)
        else if ParseU16(a).None? then Fault(BadCode(a))
        else if ParseU16(b).None? then Fault(BadCode(b))
        else if ParseU16(a).value > ParseU16(b).value then Fault(Reversed)
        else Span(ParseU16(a).value, ParseU16(b).value)
      case None =>
        match ParseU16(token)
        case Some(code) => Span(code, code)
        case None => Fault(BadCode(token))
  }

  // The first code of the range that is not an error status is the one complained of.
  function Checked(seg: string): Parsed {
    match SpanOf(seg)
    case Span(a, b) =>
      if a < LOWEST || a > HIGHEST then Fault(OutOfRange(a))
      else if b > HIGHEST then Fault(OutOfRange(HIGHEST + 1))
      else Span(a, b)
    case Fault(e) => Fault(e)
  }

  // ---------- the grammar ----------

  // A numeral of n with blanks around it.
  ghost predicate Padded(t: string, n: nat) {
    exists l, x, r :: Blank(l) && Blank(r) && Spells(x, n) && t == l + x + r
  }

  // A segment is one padded numeral, or two with a hyphen between them, not reversed.
  ghost predicate Denotes(seg: string, a: nat, b: nat) {
    || (Padded(seg, a) && a == b)
    || (a <= b && exists left: string, right: string ::
          seg == left + "-" + right && Padded(left, a) && Padded(right, b))
  }

  ghost predicate Admissible(seg: string) {
    exists a: nat, b: nat :: 400 <= a <= b <= 599 && Denotes(seg, a, b)
  }

  lemma NumeralIsTight(x: string)
    requires ParseU16(x).Some?
    ensures x != "" && Tight(x) && '-' !in x
  {
    assert forall i :: 0 <= i < |x| ==> IsDigit(x[i]) || x[i] == '+' by {
      assert x[0] == '+' ==> x == ['+'] + x[1..];
    }
  }

  lemma PaddedIff(t: string, n: nat)
    ensures Padded(t, n) <==> ParseU16(Trim(t)) == Some(n)
  {
    var l, r := TrimSplits(t);
    ParsesExactlyNumerals(Trim(t), n);
    forall l, x, r | Blank(l) && Blank(r) && Spells(x, n) && t == l + x + r ensures Trim(t) == x {
      ParsesExactlyNumerals(x, n);
      NumeralIsTight(x);
      TrimIs(l, x, r);
    }
  }

  lemma PaddedHasNoHyphen(t: string, n: nat)
    requires Padded(t, n)
    ensures '-' !in t
  {
    var l, x, r :| Blank(l) && Blank(r) && Spells(x, n) && t == l + x + r;
    ParsesExactlyNumerals(x, n);
    NumeralIsTight(x);
  }

  // Trimming first does not move the hyphen nor what stands, trimmed, around it.
  lemma SplitTrimmed(seg: string)
    ensures SplitOnce(seg, '-').None? <==> SplitOnce(Trim(seg), '-').None?
    ensures SplitOnce(seg, '-').Some? ==>
              && Trim(SplitOnce(seg, '-').value.0) == Trim(SplitOnce(Trim(seg), '-').value.0)
              && Trim(SplitOnce(seg, '-').value.1) == Trim(SplitOnce(Trim(seg), '-').value.1)
  {
    var l, r := TrimSplits(seg);
    assert '-' !in l && '-' !in r;
    match SplitOnce(Trim(seg), '-')
    case None =>
      assert '-' !in seg;
    case Some((a, b)) => SplitPadded(l, a, b, r, seg);
  }

  lemma SplitPadded(l: string, a: string, b: string, r: string, seg: string)
    requires Blank(l) && Blank(r) && '-' !in l + a && seg == l + (a + ['-'] + b) + r
    ensures SplitOnce(seg, '-') == Some((l + a, b + r)) && Trim(l + a) == Trim(a) && Trim(b + r) == Trim(b)
  {
    assert seg == (l + a) + ['-'] + (b + r);
    SplitOnceUnique(l + a, b + r, '-');
    TrimIgnoresPadding(l, a, "");
    TrimIgnoresPadding("", b, r);
    assert l + a + "" == l + a && "" + b + r == b + r;
  }

  lemma SingleMeans(seg: string, a: nat, b: nat)
    requires '-' !in seg
    ensures SpanOf(seg) == Span(a, b) <==> Denotes(seg, a, b)
  {
    SplitTrimmed(seg);
    PaddedIff(seg, a);
  }

  lemma RangeMeans(seg: string, left: string, right: string, a: nat, b: nat)
    requires '-' !in left && seg == left + "-" + right
    ensures SpanOf(seg) == Span(a, b) <==> Denotes(seg, a, b)
  {
    SplitTrimmed(seg);
    SplitOnceUnique(left, right, '-');
    PaddedIff(left, a);
    PaddedIff(right, b);
    assert '-' in seg;
    if Padded(seg, a) {
      PaddedHasNoHyphen(seg, a);
    }
    forall p: string, q: string | seg == p + "-" + q && Padded(p, a) && Padded(q, b) ensures p == left && q == right {
      PaddedHasNoHyphen(p, a);
      SplitOnceUnique(p, q, '-');
    }
  }

  // The parser reads a segment exactly as the grammar does.
  lemma SpanMeans(seg: string, a: nat, b: nat)
    ensures SpanOf(seg) == Span(a, b) <==> Denotes(seg, a, b)
  {
    match SplitOnce(seg, '-')
    case None => SingleMeans(seg, a, b);
    case Some((left, right)) => RangeMeans(seg, left, right, a, b);
  }

  lemma AdmissibleIff(seg: string)
    ensures Admissible(seg) <==> Checked(seg).Span?
  {
    forall a: nat, b: nat ensures SpanOf(seg) == Span(a, b) <==> Denotes(seg, a, b) {
      SpanMeans(seg, a, b);
    }
    if Checked(seg).Span? {
      var a, b := SpanOf(seg).a, SpanOf(seg).b;
      assert Denotes(seg, a, b);
      SpanIsOrdered(seg);
    }
  }

  lemma SpanIsOrdered(seg: string)
    ensures SpanOf(seg).Span? ==> SpanOf(seg).a <= SpanOf(seg).b
  {
  }

  // ---------- the whole spec ----------

  // The codes from a on, below n.
  function Codes(a: nat, n: nat): seq<nat>
    decreases n
  {
    if n <= a then [] else Codes(a, n - 1) + [n - 1]
  }

  lemma {:induction false} CodesHold(a: nat, n: nat, c: nat)
    ensures c in Codes(a, n) <==> a <= c < n
    decreases n
  {
    if a < n {
      CodesHold(a, n - 1, c);
    }
  }

  function CodesOf(seg: string): seq<nat> {
    match SpanOf(seg)
    case Span(a, b) => Codes(a, b + 1)
    case Fault(_) => []
  }

  // What the segments name under `named`, one after the other, repetitions included.
  function Gather(named: string -> seq<nat>, segs: seq<string>): seq<nat> {
    if segs == [] then [] else Gather(named, segs[..|segs| - 1]) + named(segs[|segs| - 1])
  }

  lemma GatherStep(named: string -> seq<nat>, segs: seq<string>, k: nat)
    requires k < |segs|
    ensures Gather(named, segs[..k + 1]) == Gather(named, segs[..k]) + named(segs[k])
  {
    assert segs[..k + 1][..k] == segs[..k];
  }

  lemma {:induction false} GatherHolds(named: string -> seq<nat>, segs: seq<string>, c: nat)
    ensures c in Gather(named, segs) <==> exists seg :: seg in segs && c in named(seg)
  {
    if segs != [] {
      var n := |segs| - 1;
      assert segs == segs[..n] + [segs[n]];
      GatherHolds(named, segs[..n], c);
    }
  }

  lemma {:induction false} GatherOneEach(named: string -> seq<nat>, segs: seq<string>, codes: seq<nat>)
    requires |segs| == |codes| && forall i :: 0 <= i < |segs| ==> named(segs[i]) == [codes[i]]
    ensures Gather(named, segs) == codes
  {
    if codes != [] {
      var n := |codes| - 1;
      GatherOneEach(named, segs[..n], codes[..n]);
      assert codes == codes[..n] + [codes[n]];
    }
  }

  function AllCodes(segs: seq<string>): seq<nat> {
    Gather(CodesOf, segs)
  }

  ghost predicate Mentions(seg: string, c: nat) {
    exists a: nat, b: nat :: Denotes(seg, a, b) && a <= c <= b
  }

  lemma CodesOfHold(seg: string, c: nat)
    ensures c in CodesOf(seg) <==> Mentions(seg, c)
  {
    forall a: nat, b: nat ensures SpanOf(seg) == Span(a, b) <==> Denotes(seg, a, b) {
      SpanMeans(seg, a, b);
    }
    if SpanOf(seg).Span? {
      CodesHold(SpanOf(seg).a, SpanOf(seg).b + 1, c);
    }
  }

  lemma AllCodesHold(segs: seq<string>, c: nat)
    ensures c in AllCodes(segs) <==> exists seg :: seg in segs && Mentions(seg, c)
  {
    GatherHolds(CodesOf, segs, c);
    forall seg ensures c in CodesOf(seg) <==> Mentions(seg, c) {
      CodesOfHold(seg, c);
    }
  }

  // No segment has a fault.
  predicate Clean(segs: seq<string>) {
    segs == [] || (Clean(segs[..|segs| - 1]) && Checked(segs[|segs| - 1]).Span?)
  }

  lemma {:induction false} CleanAt(segs: seq<string>, i: nat)
    requires Clean(segs) && i < |segs|
    ensures Checked(segs[i]).Span?
  {
    if i < |segs| - 1 {
      CleanAt(segs[..|segs| - 1], i);
    }
  }

  lemma CleanStep(segs: seq<string>, k: nat)
    requires k < |segs| && Clean(segs[..k]) && Checked(segs[k]).Span?
    ensures Clean(segs[..k + 1])
  {
    assert segs[..k + 1][..k] == segs[..k];
  }

  lemma {:induction false} CleanIff(segs: seq<string>)
    ensures Clean(segs) <==> AllAdmissible(segs)
  {
    if segs != [] {
      var n := |segs| - 1;
      CleanIff(segs[..n]);
      AdmissibleIff(segs[n]);
      assert AllAdmissible(segs) <==> AllAdmissible(segs[..n]) && Admissible(segs[n]) by {
        assert segs == segs[..n] + [segs[n]];
      }
    }
  }

  ghost predicate RefusedAt(segs: seq<string>, k: nat, error: SpecError) {
    && k < |segs|
    && Checked(segs[k]) == Fault(error)
    && Clean(segs[..k])
  }

  // What the parser answers: a blank spec names no code; otherwise the codes of all
  // segments, each once in order of first mention, or the fault of the first bad segment.
  ghost predicate Parses(spec: string, r: Outcome) {
    if Blank(spec) then r == Accepted([])
    else
      var segs := Split(spec, ',');
      match r
      case Accepted(codes) => AllAdmissible(segs) && codes == Once(AllCodes(segs))
      case Refused(error) => exists k: nat :: RefusedAt(segs, k, error)
  }

  lemma PushCode(src: seq<nat>, start: nat, code: nat)
    requires start <= code
    ensures Once(src + Codes(start, code + 1)) == PushUnique(Once(src + Codes(start, code)), code)
  {
    OncePush<nat>(src + Codes(start, code), code);
    assert src + Codes(start, code) + [code] == src + Codes(start, code + 1);
  }

  // The inner loop: push each code of a range that is not there yet; stop at the first
  // that is not an error status.
  method PushRange(statuses: seq<nat>, start: nat, end: nat, ghost src: seq<nat>)
    returns (out: seq<nat>, bad: Option<nat>)
    requires start <= end && statuses == Once(src)
    ensures bad.None? ==> LOWEST <= start && end <= HIGHEST && out == Once(src + Codes(start, end + 1))
    ensures bad.Some? ==> bad.value == if LOWEST <= start <= HIGHEST then HIGHEST + 1 else start
    ensures bad.Some? ==> bad.value <= end
  {
    out := statuses;
    assert src + Codes(start, start) == src;
    var code: nat := start;
    while code <= end
      invariant start <= code <= end + 1
      invariant code > start ==> LOWEST <= start && code <= HIGHEST + 1
      invariant out == Once(src + Codes(start, code))
    {
      if !(LOWEST <= code <= HIGHEST) {
        return out, Some(code);
      }
      PushCode(src, start, code);
      out := PushUnique<nat>(out, code);
      code := code + 1;
    }
    bad := None;
  }

  // One turn of the outer loop: read the segment, then push its range.
  method PushSegment(statuses: seq<nat>, seg: string, ghost src: seq<nat>)
    returns (out: seq<nat>, fault: Option<SpecError>)
    requires statuses == Once(src)
    ensures fault.None? ==> Checked(seg).Span? && out == Once(src + CodesOf(seg))
    ensures fault.Some? ==> Checked(seg) == Fault(fault.value)
  {
    SpanIsOrdered(seg);
    match SpanOf(seg) {
      case Fault(error) =>
        return statuses, Some(error);
      case Span(start, end) =>
        var bad: Option<nat>;
        out, bad := PushRange(statuses, start, end, src);
        fault := if bad.Some? then Some(OutOfRange(bad.value)) else None;
    }
  }

  method ParseStatusSpec(spec: string) returns (r: Outcome)
    ensures Parses(spec, r)
  {
    TrimEmptyIffBlank(spec);
    if Trim(spec) == "" {
      return Accepted([]);
    }
    var statuses: seq<nat> := [];
    var segs := Split(spec, ',');
    assert segs[..|segs|] == segs;
    for k := 0 to |segs|
      invariant Clean(segs[..k])
      invariant statuses == Once(AllCodes(segs[..k]))
    {
      GatherStep(CodesOf, segs, k);
      var out, fault := PushSegment(statuses, segs[k], AllCodes(segs[..k]));
      if fault.Some? {
        assert RefusedAt(segs, k, fault.value);
        return Refused(fault.value);
      }
      statuses := out;
      CleanStep(segs, k);
    }
    CleanIff(segs);
    r := Accepted(statuses);
  }

  ghost predicate AllAdmissible(segs: seq<string>) {
    forall i :: 0 <= i < |segs| ==> Admissible(segs[i])
  }

  // A non-blank spec is accepted exactly when every segment is a code or a range of error
  // statuses ...
  lemma AcceptedIff(spec: string, r: Outcome)
    requires Parses(spec, r) && !Blank(spec)
    ensures r.Accepted? <==> AllAdmissible(Split(spec, ','))
    ensures r.Accepted? ==> r.codes == Once(AllCodes(Split(spec, ',')))
  {
    var segs := Split(spec, ',');
    CleanIff(segs);
    if r.Refused? {
      var k: nat :| RefusedAt(segs, k, r.error);
      if Clean(segs) {
        CleanAt(segs, k);
      }
    }
  }

  // ... and then its codes are the union of the ranges, none twice.
  lemma AcceptedCodes(spec: string, codes: seq<nat>)
    requires Parses(spec, Accepted(codes)) && !Blank(spec)
    ensures forall i, j :: 0 <= i < j < |codes| ==> codes[i] != codes[j]
    ensures forall c :: c in codes <==> exists seg :: seg in Split(spec, ',') && Mentions(seg, c)
  {
    var segs := Split(spec, ',');
    OnceLists(AllCodes(segs));
    ListsOnceIsDistinct(codes, AllCodes(segs));
    forall c: nat ensures c in codes <==> exists seg :: seg in segs && Mentions(seg, c) {
      AllCodesHold(segs, c);
    }
  }

  lemma FirstFaultIsOne(segs: seq<string>, k: nat, e: SpecError, j: nat, f: SpecError)
    requires RefusedAt(segs, k, e) && RefusedAt(segs, j, f)
    ensures e == f
  {
    if k < j {
      CleanAt(segs[..j], k);
    } else if j < k {
      CleanAt(segs[..k], j);
    }
  }

  // The answer is determined.
  lemma ParsesOnce(spec: string, r: Outcome, q: Outcome)
    requires Parses(spec, r) && Parses(spec, q)
    ensures r == q
  {
    if !Blank(spec) {
      var segs := Split(spec, ',');
      AcceptedIff(spec, r);
      AcceptedIff(spec, q);
      if r.Refused? {
        var k: nat :| RefusedAt(segs, k, r.error);
        var j: nat :| RefusedAt(segs, j, q.error);
        FirstFaultIsOne(segs, k, r.error, j, q.error);
      }
    }
  }

  // ---------- the round trip ----------

  function Shown(codes: seq<nat>): (r: seq<string>)
    ensures |r| == |codes| && forall i :: 0 <= i < |r| ==> r[i] == Decimal(codes[i])
  {
    if codes == [] then [] else Shown(codes[..|codes| - 1]) + [Decimal(codes[|codes| - 1])]
  }

  function Render(codes: seq<nat>): string {
    Join(Shown(codes), ',')
  }

  lemma NumeralSpan(s: string, n: nat)
    requires ParseU16(s) == Some(n)
    ensures SpanOf(s) == Span(n, n)
  {
    NumeralIsTight(s);
    TrimIs("", s, "");
    assert "" + s + "" == s;
    assert SplitOnce(s, '-').None?;
  }

  lemma DecimalIsItself(n: nat)
    requires n <= 0xFFFF
    ensures SpanOf(Decimal(n)) == Span(n, n)
  {
    var s := Decimal(n);
    assert Zeros("") && s == "" + s;
    assert Plain(s, n);
    ParsesExactlyNumerals(s, n);
    NumeralSpan(s, n);
  }

  lemma DecimalNamesOne(n: nat)
    requires n <= 0xFFFF
    ensures CodesOf(Decimal(n)) == [n]
  {
    DecimalIsItself(n);
    assert Codes(n, n) == [] && Codes(n, n + 1) == Codes(n, n) + [n];
  }

  lemma AllCodesShown(codes: seq<nat>)
    requires forall i :: 0 <= i < |codes| ==> codes[i] <= 0xFFFF
    ensures AllCodes(Shown(codes)) == codes
  {
    forall i | 0 <= i < |codes| ensures CodesOf(Shown(codes)[i]) == [codes[i]] {
      DecimalNamesOne(codes[i]);
    }
    GatherOneEach(CodesOf, Shown(codes), codes);
  }

  lemma RenderIsNotBlank(codes: seq<nat>)
    requires codes != []
    ensures !Blank(Render(codes))
  {
    var segs := Shown(codes);
    assert IsDigit(Decimal(codes[0])[0]);
    assert Render(codes)[0] == segs[0][0];
  }

  lemma DecimalIsAdmissible(n: nat)
    requires LOWEST <= n <= HIGHEST
    ensures Admissible(Decimal(n))
  {
    DecimalIsItself(n);
    SpanMeans(Decimal(n), n, n);
  }

  lemma ShownIsAdmissible(codes: seq<nat>)
    requires forall i :: 0 <= i < |codes| ==> LOWEST <= codes[i] <= HIGHEST
    ensures AllAdmissible(Shown(codes))
  {
    forall i | 0 <= i < |codes| ensures Admissible(Shown(codes)[i]) {
      DecimalIsAdmissible(codes[i]);
    }
  }

  // Parsing the comma-joined rendering of a list of distinct error statuses gives the list.
  lemma RoundTrip(codes: seq<nat>, r: Outcome)
    requires codes != [] && forall i :: 0 <= i < |codes| ==> 400 <= codes[i] <= 599
    requires forall i, j :: 0 <= i < j < |codes| ==> codes[i] != codes[j]
    requires Parses(Render(codes), r)
    ensures r == Accepted(codes)
  {
    RenderSplits(codes);
    RenderIsNotBlank(codes);
    ShownIsAdmissible(codes);
    AcceptedWhen(Render(codes), Shown(codes), r);
    AllCodesShown(codes);
    OnceOfDistinct(codes);
  }

  lemma RenderSplits(codes: seq<nat>)
    requires codes != []
    ensures Split(Render(codes), ',') == Shown(codes)
  {
    SplitJoin(Shown(codes), ',');
  }

  lemma AcceptedWhen(spec: string, segs: seq<string>, r: Outcome)
    requires Parses(spec, r) && !Blank(spec) && Split(spec, ',') == segs && AllAdmissible(segs)
    ensures r == Accepted(Once(AllCodes(segs)))
  {
    AcceptedIff(spec, r);
  }

  // ---------- single codes and ranges ----------

  lemma DecimalIsPadded(n: nat, l: string, r: string)
    requires n <= 0xFFFF && Blank(l) && Blank(r)
    ensures Padded(l + Decimal(n) + r, n)
  {
    var s := Decimal(n);
    assert Zeros("") && s == "" + s;
    assert Plain(s, n);
  }

  // A code between blanks names itself.
  lemma PaddedCode(n: nat, l: string, r: string)
    requires n <= 0xFFFF && Blank(l) && Blank(r)
    ensures SpanOf(l + Decimal(n) + r) == Span(n, n)
  {
    DecimalIsPadded(n, l, r);
    SpanMeans(l + Decimal(n) + r, n, n);
  }

  // Two codes with a hyphen between them name all from the first to the second.
  lemma HyphenRange(a: nat, b: nat)
    requires a <= b <= 0xFFFF
    ensures SpanOf(Decimal(a) + "-" + Decimal(b)) == Span(a, b)
  {
    DecimalIsPadded(a, "", "");
    DecimalIsPadded(b, "", "");
    assert "" + Decimal(a) + "" == Decimal(a) && "" + Decimal(b) + "" == Decimal(b);
    assert Denotes(Decimal(a) + "-" + Decimal(b), a, b);
    SpanMeans(Decimal(a) + "-" + Decimal(b), a, b);
  }
}
