/** The three-valued pre-check tree, its evaluation and its leaves. */
module Precheck {
  import opened HostNames

  datatype Tri = True | False | Unknown

  function FromBool(v: bool): Tri {
    if v then True else False
  }

  function TriAnd(a: Tri, b: Tri): Tri {
    if a.False? || b.False? then False else if a.Unknown? || b.Unknown? then Unknown else True
  }

  function TriOr(a: Tri, b: Tri): Tri {
    if a.True? || b.True? then True else if a.Unknown? || b.Unknown? then Unknown else False
  }

  function TriNot(a: Tri): Tri {
    match a
    case True => False
    case False => True
    case Unknown => Unknown
  }

  function TriCond(cond: Tri, then': Tri, els: Tri): Tri {
    match cond
    case True => then'
    case False => els
    case Unknown => if then' == els then then' else Unknown
  }

  datatype CheckMeta = Host(value: string) | Path(value: string) | PathPrefix(value: string)

  datatype Request = Request(host: string, path: string)

  predicate Passes(req: Request, meta: CheckMeta) {
    match meta
    case Host(value) => HostMatches(req.host, value)
    case Path(value) => req.path == value
    case PathPrefix(value) => StartsWith(req.path, value)
  }

  datatype CheapExpr =
    | And(a: CheapExpr, b: CheapExpr)
    | Or(a: CheapExpr, b: CheapExpr)
    | Not(a: CheapExpr)
    | Cond(c: CheapExpr, a: CheapExpr, b: CheapExpr)
    | Check(meta: CheckMeta)
    | Lit(v: bool)
    | Gap                       // the source's `Unknown` leaf

  function Eval(e: CheapExpr, req: Request): Tri {
    match e
    case And(a, b) => TriAnd(Eval(a, req), Eval(b, req))
    case Or(a, b) => TriOr(Eval(a, req), Eval(b, req))
    case Not(a) => TriNot(Eval(a, req))
    case Cond(c, a, b) => TriCond(Eval(c, req), Eval(a, req), Eval(b, req))
    case Check(meta) => FromBool(Passes(req, meta))
    case Lit(v) => FromBool(v)
    case Gap => Unknown
  }

  predicate IsComplete(e: CheapExpr) {
    match e
    case And(a, b) => IsComplete(a) && IsComplete(b)
    case Or(a, b) => IsComplete(a) && IsComplete(b)
    case Not(a) => IsComplete(a)
    case Cond(c, a, b) => IsComplete(c) && IsComplete(a) && IsComplete(b)
    case Check(_) => true
    case Lit(_) => true
    case Gap => false
  }

  // for_each_leaf: the metadata of the check leaves, left to right.
  function Leaves(e: CheapExpr): seq<CheckMeta> {
    match e
    case And(a, b) => Leaves(a) + Leaves(b)
    case Or(a, b) => Leaves(a) + Leaves(b)
    case Not(a) => Leaves(a)
    case Cond(c, a, b) => Leaves(c) + Leaves(a) + Leaves(b)
    case Check(meta) => [meta]
    case Lit(_) => []
    case Gap => []
  }

  // ---------- exactness ----------

  // The number of unknown leaves, each of which may turn out true or false on its own.
  function Gaps(e: CheapExpr): nat {
    match e
    case And(a, b) => Gaps(a) + Gaps(b)
    case Or(a, b) => Gaps(a) + Gaps(b)
    case Not(a) => Gaps(a)
    case Cond(c, a, b) => Gaps(c) + Gaps(a) + Gaps(b)
    case Check(_) => 0
    case Lit(_) => 0
    case Gap => 1
  }

  // Two-valued meaning under a completion: the values of the unknown leaves in order.
  predicate Truth(e: CheapExpr, req: Request, fill: seq<bool>)
    requires |fill| == Gaps(e)
  {
    match e
    case And(a, b) => Truth(a, req, fill[..Gaps(a)]) && Truth(b, req, fill[Gaps(a)..])
    case Or(a, b) => Truth(a, req, fill[..Gaps(a)]) || Truth(b, req, fill[Gaps(a)..])
    case Not(a) => !Truth(a, req, fill)
    case Cond(c, a, b) =>
      var n := Gaps(c) + Gaps(a);
      if Truth(c, req, fill[..Gaps(c)]) then Truth(a, req, fill[Gaps(c)..n]) else Truth(b, req, fill[n..])
    case Check(meta) => Passes(req, meta)
    case Lit(v) => v
    case Gap => fill[0]
  }

  lemma {:induction false} DecidedForAll(e: CheapExpr, req: Request, fill: seq<bool>)
    requires |fill| == Gaps(e) && !Eval(e, req).Unknown?
    ensures FromBool(Truth(e, req, fill)) == Eval(e, req)
  {
    match e
    case And(a, b) =>
      if !Eval(a, req).Unknown? { DecidedForAll(a, req, fill[..Gaps(a)]); }
      if !Eval(b, req).Unknown? { DecidedForAll(b, req, fill[Gaps(a)..]); }
    case Or(a, b) =>
      if !Eval(a, req).Unknown? { DecidedForAll(a, req, fill[..Gaps(a)]); }
      if !Eval(b, req).Unknown? { DecidedForAll(b, req, fill[Gaps(a)..]); }
    case Not(a) => DecidedForAll(a, req, fill);
    case Cond(c, a, b) =>
      var n := Gaps(c) + Gaps(a);
      if !Eval(c, req).Unknown? { DecidedForAll(c, req, fill[..Gaps(c)]); }
      if !Eval(a, req).Unknown? { DecidedForAll(a, req, fill[Gaps(c)..n]); }
      if !Eval(b, req).Unknown? { DecidedForAll(b, req, fill[n..]); }
    case _ =>
  }

  // A completion reaching the wanted value, whenever evaluation does not rule it out.
  ghost function Completion(e: CheapExpr, req: Request, want: bool): (fill: seq<bool>)
    requires Eval(e, req) != FromBool(!want)
    ensures |fill| == Gaps(e) && Truth(e, req, fill) == want
  {
    match e
    case And(a, b) =>
      var va := want || Eval(a, req) == True;
      var fa := Completion(a, req, va);
      var fb := Completion(b, req, if va then want else Eval(b, req) != False);
      assert (fa + fb)[..Gaps(a)] == fa && (fa + fb)[Gaps(a)..] == fb;
      fa + fb
    case Or(a, b) =>
      var va := want && Eval(a, req) != False;
      var fa := Completion(a, req, va);
      var fb := Completion(b, req, if va then Eval(b, req) != False else want);
      assert (fa + fb)[..Gaps(a)] == fa && (fa + fb)[Gaps(a)..] == fb;
      fa + fb
    case Not(a) => Completion(a, req, !want)
    case Cond(c, a, b) =>
      var va := Eval(a, req) != FromBool(!want);
      var vc := Eval(c, req) != False && (Eval(c, req) == True || va);
      var fc := Completion(c, req, vc);
      var fa := Completion(a, req, if va then want else !want);
      var fb := Completion(b, req, if Eval(b, req) != FromBool(!want) then want else !want);
      var n := Gaps(c) + Gaps(a);
      assert (fc + fa + fb)[..Gaps(c)] == fc && (fc + fa + fb)[Gaps(c)..n] == fa && (fc + fa + fb)[n..] == fb;
      fc + fa + fb
    case Gap => [want]
    case _ => []
  }

  // Evaluation is exact: true or false when every completion agrees, unknown when two
  // completions differ.
  lemma EvalIsExact(e: CheapExpr, req: Request)
    ensures Eval(e, req).True? <==> forall fill: seq<bool> :: |fill| == Gaps(e) ==> Truth(e, req, fill)
    ensures Eval(e, req).False? <==> forall fill: seq<bool> :: |fill| == Gaps(e) ==> !Truth(e, req, fill)
    ensures Eval(e, req).Unknown? <==>
            && (exists fill: seq<bool> :: |fill| == Gaps(e) && Truth(e, req, fill))
            && (exists fill: seq<bool> :: |fill| == Gaps(e) && !Truth(e, req, fill))
  {
    forall fill: seq<bool> | |fill| == Gaps(e) && !Eval(e, req).Unknown?
      ensures FromBool(Truth(e, req, fill)) == Eval(e, req)
    {
      DecidedForAll(e, req, fill);
    }
    if !Eval(e, req).False? {
      var fill := Completion(e, req, true);
      assert |fill| == Gaps(e) && Truth(e, req, fill);
    }
    if !Eval(e, req).True? {
      var fill := Completion(e, req, false);
      assert |fill| == Gaps(e) && !Truth(e, req, fill);
    }
  }

  // A tree without unknown leaves is decided for every request.
  lemma {:induction false} CompleteIsDecided(e: CheapExpr, req: Request)
    requires IsComplete(e)
    ensures !Eval(e, req).Unknown?
  {
    match e
    case And(a, b) => CompleteIsDecided(a, req); CompleteIsDecided(b, req);
    case Or(a, b) => CompleteIsDecided(a, req); CompleteIsDecided(b, req);
    case Not(a) => CompleteIsDecided(a, req);
    case Cond(c, a, b) => CompleteIsDecided(c, req); CompleteIsDecided(a, req); CompleteIsDecided(b, req);
    case _ =>
  }

  // The verdict depends on the request only through the listed checks.
  lemma {:induction false} VerdictFollowsLeaves(e: CheapExpr, r1: Request, r2: Request)
    requires forall m :: m in Leaves(e) ==> Passes(r1, m) == Passes(r2, m)
    ensures Eval(e, r1) == Eval(e, r2)
  {
    match e
    case And(a, b) => VerdictFollowsLeaves(a, r1, r2); VerdictFollowsLeaves(b, r1, r2);
    case Or(a, b) => VerdictFollowsLeaves(a, r1, r2); VerdictFollowsLeaves(b, r1, r2);
    case Not(a) => VerdictFollowsLeaves(a, r1, r2);
    case Cond(c, a, b) =>
      VerdictFollowsLeaves(c, r1, r2); VerdictFollowsLeaves(a, r1, r2); VerdictFollowsLeaves(b, r1, r2);
    case Check(m) => assert m in Leaves(e);
    case _ =>
  }
}
