/**
 Route rules: the CEL expressions a rule is made of, the pre-check tree built from
 them, and the value the full program gives. The parts the pre-check does not analyse
 get their value from an oracle, and what `&&`, `||`, `!` and `?:` do with errors and
 non-booleans is a parameter, bounded only by `Lawful`.
 */
module CelRules {
  import opened Prelude
  import opened Precheck

  // Function names; the operators carry their names from the CEL standard.
  datatype Func =
    | FnHost | FnPath | FnPathPrefix
    | LogicalAnd | LogicalOr | LogicalNot | Conditional
    | Named(name: string)

  datatype Expr =
    | Call(func: Func, target: Option<Expr>, args: seq<Expr>)
    | BoolLit(v: bool)
    | StringLit(s: string)
    | Other(tag: nat)      // identifiers, comprehensions, maps, other literals

  // ---------- building the tree ----------

  // A check applied to exactly one string literal.
  function CheckOf(func: Func, args: seq<Expr>): Option<CheckMeta> {
    if |args| != 1 || !args[0].StringLit? then None
    else if func == FnHost then Some(Host(args[0].s))
    else if func == FnPath then Some(Path(args[0].s))
    else if func == FnPathPrefix then Some(PathPrefix(args[0].s))
    else None
  }

  function Build(e: Expr): Option<CheapExpr>
    decreases e, 0
  {
    match e
    case Call(func, target, args) =>
      if target.Some? then None
      else if CheckOf(func, args).Some? then Some(Check(CheckOf(func, args).value))
      else if func == LogicalAnd && |args| == 2 then Some(And(BuildOpt(args[0]), BuildOpt(args[1])))
      else if func == LogicalOr && |args| == 2 then Some(Or(BuildOpt(args[0]), BuildOpt(args[1])))
      else if func == LogicalNot && |args| == 1 then Some(Not(BuildOpt(args[0])))
      else if func == Conditional && |args| == 3
      then Some(Cond(BuildOpt(args[0]), BuildOpt(args[1]), BuildOpt(args[2])))
      else None
    case BoolLit(v) => Some(Lit(v))
    case _ => None
  }

  function BuildOpt(e: Expr): CheapExpr
    decreases e, 1
  {
    var b := Build(e);
    if b.Some? then b.value else Gap
  }

  // ---------- the full program ----------

  datatype Val = Bool(v: bool) | NonBool(tag: nat) | Error

  datatype Ops = Ops(and: (Val, Val) -> Val, or: (Val, Val) -> Val, not: Val -> Val, cond: (Val, Val, Val) -> Val)

  function Cel(e: Expr, req: Request, ops: Ops, oracle: Expr -> Val): Val {
    match e
    case Call(func, target, args) =>
      if target.Some? then oracle(e)
      else if CheckOf(func, args).Some? then Bool(Passes(req, CheckOf(func, args).value))
      else if func == LogicalAnd && |args| == 2 then
        (ops.and)(Cel(args[0], req, ops, oracle), Cel(args[1], req, ops, oracle))
      else if func == LogicalOr && |args| == 2 then
        (ops.or)(Cel(args[0], req, ops, oracle), Cel(args[1], req, ops, oracle))
      else if func == LogicalNot && |args| == 1 then
        (ops.not)(Cel(args[0], req, ops, oracle))
      else if func == Conditional && |args| == 3 then
        (ops.cond)(Cel(args[0], req, ops, oracle), Cel(args[1], req, ops, oracle), Cel(args[2], req, ops, oracle))
      else oracle(e)
    case BoolLit(v) => Bool(v)
    case _ => oracle(e)
  }

  // Booleans behave as usual. A deciding operand is never overruled, an error never
  // becomes a decision by itself, and a conditional yields a branch or an error.
  // Nothing is said about non-booleans meeting undecided operands.
  ghost predicate LawfulAnd(and: (Val, Val) -> Val) {
    && (forall x, y :: and(Bool(x), Bool(y)) == Bool(x && y))
    && (forall x, y :: x == Bool(false) || y == Bool(false) ==> and(x, y) == Bool(false) || and(x, y) == Error)
    && (forall x, y :: x == Error || y == Error ==>
          and(x, y) == Error || (and(x, y) == Bool(false) && (x == Bool(false) || y == Bool(false))))
  }

  ghost predicate LawfulOr(or: (Val, Val) -> Val) {
    && (forall x, y :: or(Bool(x), Bool(y)) == Bool(x || y))
    && (forall x, y :: x == Bool(true) || y == Bool(true) ==> or(x, y) == Bool(true) || or(x, y) == Error)
    && (forall x, y :: x == Error || y == Error ==>
          or(x, y) == Error || (or(x, y) == Bool(true) && (x == Bool(true) || y == Bool(true))))
  }

  ghost predicate LawfulCond(cond: (Val, Val, Val) -> Val) {
    && (forall c, x, y :: cond(Bool(c), x, y) == if c then x else y)
    && (forall c, x, y :: cond(c, x, y) == x || cond(c, x, y) == y || cond(c, x, y) == Error)
    && (forall x, y :: cond(Error, x, y) == Error)
  }

  ghost predicate LawfulNot(not: Val -> Val) {
    (forall x :: not(Bool(x)) == Bool(!x)) && not(Error) == Error
  }

  ghost predicate Lawful(ops: Ops) {
    LawfulAnd(ops.and) && LawfulOr(ops.or) && LawfulNot(ops.not) && LawfulCond(ops.cond)
  }

  // ---------- the fast path ----------

  function Verdict(e: Expr, req: Request): Tri {
    Eval(BuildOpt(e), req)
  }

  // Matcher::matches: the verdict when there is one, else the program; errors and
  // non-booleans count as no match.
  predicate Matches(e: Expr, req: Request, ops: Ops, oracle: Expr -> Val) {
    match Verdict(e, req)
    case False => false
    case True => true
    case Unknown => FullMatch(e, req, ops, oracle)
  }

  predicate FullMatch(e: Expr, req: Request, ops: Ops, oracle: Expr -> Val) {
    Cel(e, req, ops, oracle) == Bool(true)
  }

  // ---------- one node at a time ----------

  // A node whose operands the pre-check looks into.
  predicate Analysed(e: Expr) {
    e.Call? && Build(e).Some? && CheckOf(e.func, e.args).None?
  }

  lemma OtherNodes(e: Expr, req: Request, ops: Ops, oracle: Expr -> Val)
    requires !Analysed(e)
    ensures Build(e).None? ==> Verdict(e, req).Unknown? && Cel(e, req, ops, oracle) == oracle(e)
    ensures Build(e).Some? ==>
              Cel(e, req, ops, oracle).Bool? && Verdict(e, req) == FromBool(Cel(e, req, ops, oracle).v)
  {
    if Build(e).Some? {
      assert BuildOpt(e) == Build(e).value;
      if e.Call? {
        assert BuildOpt(e) == Check(CheckOf(e.func, e.args).value);
      }
    } else {
      assert BuildOpt(e) == Gap;
    }
  }

  lemma AndNode(e: Expr, req: Request, ops: Ops, oracle: Expr -> Val)
    requires Analysed(e) && e.func.LogicalAnd?
    ensures |e.args| == 2
    ensures Verdict(e, req) == TriAnd(Verdict(e.args[0], req), Verdict(e.args[1], req))
    ensures Cel(e, req, ops, oracle) == (ops.and)(Cel(e.args[0], req, ops, oracle), Cel(e.args[1], req, ops, oracle))
  {
    assert BuildOpt(e) == And(BuildOpt(e.args[0]), BuildOpt(e.args[1]));
  }

  lemma OrNode(e: Expr, req: Request, ops: Ops, oracle: Expr -> Val)
    requires Analysed(e) && e.func.LogicalOr?
    ensures |e.args| == 2
    ensures Verdict(e, req) == TriOr(Verdict(e.args[0], req), Verdict(e.args[1], req))
    ensures Cel(e, req, ops, oracle) == (ops.or)(Cel(e.args[0], req, ops, oracle), Cel(e.args[1], req, ops, oracle))
  {
    assert BuildOpt(e) == Or(BuildOpt(e.args[0]), BuildOpt(e.args[1]));
  }

  lemma NotNode(e: Expr, req: Request, ops: Ops, oracle: Expr -> Val)
    requires Analysed(e) && e.func.LogicalNot?
    ensures |e.args| == 1
    ensures Verdict(e, req) == TriNot(Verdict(e.args[0], req))
    ensures Cel(e, req, ops, oracle) == (ops.not)(Cel(e.args[0], req, ops, oracle))
  {
    assert BuildOpt(e) == Not(BuildOpt(e.args[0]));
  }

  lemma CondNode(e: Expr, req: Request, ops: Ops, oracle: Expr -> Val)
    requires Analysed(e) && !e.func.LogicalAnd? && !e.func.LogicalOr? && !e.func.LogicalNot?
    ensures |e.args| == 3
    ensures Verdict(e, req) == TriCond(Verdict(e.args[0], req), Verdict(e.args[1], req), Verdict(e.args[2], req))
    ensures Cel(e, req, ops, oracle) ==
            (ops.cond)(Cel(e.args[0], req, ops, oracle), Cel(e.args[1], req, ops, oracle),
                       Cel(e.args[2], req, ops, oracle))
  {
    assert BuildOpt(e) == Cond(BuildOpt(e.args[0]), BuildOpt(e.args[1]), BuildOpt(e.args[2]));
  }

  // ---------- early answers are right ----------

  // A verdict is not contradicted by a value: the program agrees or fails with an error.
  predicate Tolerates(t: Tri, v: Val) {
    (t.True? ==> v == Bool(true) || v == Error) && (t.False? ==> v == Bool(false) || v == Error)
  }

  lemma OperatorsTolerate(ops: Ops, t1: Tri, v1: Val, t2: Tri, v2: Val)
    requires Lawful(ops) && Tolerates(t1, v1) && Tolerates(t2, v2)
    ensures Tolerates(TriAnd(t1, t2), (ops.and)(v1, v2))
    ensures Tolerates(TriOr(t1, t2), (ops.or)(v1, v2))
    ensures Tolerates(TriNot(t1), (ops.not)(v1))
  {
  }

  lemma CondTolerates(ops: Ops, tc: Tri, vc: Val, t1: Tri, v1: Val, t2: Tri, v2: Val)
    requires Lawful(ops) && Tolerates(tc, vc) && Tolerates(t1, v1) && Tolerates(t2, v2)
    ensures Tolerates(TriCond(tc, t1, t2), (ops.cond)(vc, v1, v2))
  {
    var v := (ops.cond)(vc, v1, v2);
    assert v == v1 || v == v2 || v == Error;
  }

  lemma {:induction false} VerdictIsNeverContradicted(e: Expr, req: Request, ops: Ops, oracle: Expr -> Val)
    requires Lawful(ops)
    ensures Tolerates(Verdict(e, req), Cel(e, req, ops, oracle))
  {
    if !Analysed(e) {
      OtherNodes(e, req, ops, oracle);
      return;
    }
    var args := e.args;
    VerdictIsNeverContradicted(args[0], req, ops, oracle);
    var t0, v0 := Verdict(args[0], req), Cel(args[0], req, ops, oracle);
    if e.func.LogicalNot? {
      NotNode(e, req, ops, oracle);
      OperatorsTolerate(ops, t0, v0, t0, v0);
      return;
    }
    VerdictIsNeverContradicted(args[1], req, ops, oracle);
    var t1, v1 := Verdict(args[1], req), Cel(args[1], req, ops, oracle);
    if e.func.LogicalAnd? {
      AndNode(e, req, ops, oracle);
      OperatorsTolerate(ops, t0, v0, t1, v1);
    } else if e.func.LogicalOr? {
      OrNode(e, req, ops, oracle);
      OperatorsTolerate(ops, t0, v0, t1, v1);
    } else {
      CondNode(e, req, ops, oracle);
      VerdictIsNeverContradicted(args[2], req, ops, oracle);
      CondTolerates(ops, t0, v0, t1, v1, Verdict(args[2], req), Cel(args[2], req, ops, oracle));
    }
  }

  // Rejecting early is always right, whatever the unanalysed parts do.
  lemma FalseVerdictIsFaithful(e: Expr, req: Request, ops: Ops, oracle: Expr -> Val)
    requires Lawful(ops) && Verdict(e, req).False?
    ensures !FullMatch(e, req, ops, oracle)
  {
    VerdictIsNeverContradicted(e, req, ops, oracle);
  }

  // Every part the pre-check left out evaluates to a boolean.
  predicate GapsAreBoolean(e: Expr, oracle: Expr -> Val) {
    if Analysed(e) then forall i :: 0 <= i < |e.args| ==> GapsAreBoolean(e.args[i], oracle)
    else Build(e).None? ==> oracle(e).Bool?
  }

  predicate Decides(t: Tri, v: Val) {
    v.Bool? && (!t.Unknown? ==> FromBool(v.v) == t)
  }

  lemma OperatorsDecide(ops: Ops, t1: Tri, v1: Val, t2: Tri, v2: Val)
    requires Lawful(ops) && Decides(t1, v1) && Decides(t2, v2)
    ensures Decides(TriAnd(t1, t2), (ops.and)(v1, v2))
    ensures Decides(TriOr(t1, t2), (ops.or)(v1, v2))
    ensures Decides(TriNot(t1), (ops.not)(v1))
  {
    assert v1 == Bool(v1.v) && v2 == Bool(v2.v);
  }

  lemma CondDecides(ops: Ops, tc: Tri, vc: Val, t1: Tri, v1: Val, t2: Tri, v2: Val)
    requires Lawful(ops) && Decides(tc, vc) && Decides(t1, v1) && Decides(t2, v2)
    ensures Decides(TriCond(tc, t1, t2), (ops.cond)(vc, v1, v2))
  {
    assert vc == Bool(vc.v);
  }

  lemma {:induction false} BooleanGapsGiveVerdict(e: Expr, req: Request, ops: Ops, oracle: Expr -> Val)
    requires Lawful(ops) && GapsAreBoolean(e, oracle)
    ensures Decides(Verdict(e, req), Cel(e, req, ops, oracle))
  {
    if !Analysed(e) {
      OtherNodes(e, req, ops, oracle);
      return;
    }
    var args := e.args;
    BooleanGapsGiveVerdict(args[0], req, ops, oracle);
    var t0, v0 := Verdict(args[0], req), Cel(args[0], req, ops, oracle);
    if e.func.LogicalNot? {
      NotNode(e, req, ops, oracle);
      OperatorsDecide(ops, t0, v0, t0, v0);
      return;
    }
    BooleanGapsGiveVerdict(args[1], req, ops, oracle);
    var t1, v1 := Verdict(args[1], req), Cel(args[1], req, ops, oracle);
    if e.func.LogicalAnd? {
      AndNode(e, req, ops, oracle);
      OperatorsDecide(ops, t0, v0, t1, v1);
    } else if e.func.LogicalOr? {
      OrNode(e, req, ops, oracle);
      OperatorsDecide(ops, t0, v0, t1, v1);
    } else {
      CondNode(e, req, ops, oracle);
      BooleanGapsGiveVerdict(args[2], req, ops, oracle);
      CondDecides(ops, t0, v0, t1, v1, Verdict(args[2], req), Cel(args[2], req, ops, oracle));
    }
  }

  // With boolean gaps the fast path matches exactly what the program matches.
  lemma FastPathPreservesMatching(e: Expr, req: Request, ops: Ops, oracle: Expr -> Val)
    requires Lawful(ops) && GapsAreBoolean(e, oracle)
    ensures Matches(e, req, ops, oracle) == FullMatch(e, req, ops, oracle)
  {
    BooleanGapsGiveVerdict(e, req, ops, oracle);
  }
}
