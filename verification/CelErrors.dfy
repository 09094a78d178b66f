/**
 When the early answer survives errors. Under the operators of the CEL standard (a
 deciding operand absorbs an error on the other side) an early "no" is always right;
 an early "yes" is right for every behaviour of the unanalysed parts exactly when the
 verdict does not rest on a conditional whose condition is unknown.
 */
module CelErrors {
  import opened Prelude
  import opened Precheck
  import opened CelRules

  function StandardAnd(x: Val, y: Val): Val {
    if x == Bool(false) || y == Bool(false) then Bool(false)
    else if x == Bool(true) && y == Bool(true) then Bool(true) else Error
  }

  function StandardOr(x: Val, y: Val): Val {
    if x == Bool(true) || y == Bool(true) then Bool(true)
    else if x == Bool(false) && y == Bool(false) then Bool(false) else Error
  }

  function StandardNot(x: Val): Val {
    if x.Bool? then Bool(!x.v) else Error
  }

  function StandardCond(c: Val, x: Val, y: Val): Val {
    if c.Bool? then (if c.v then x else y) else Error
  }

  const STANDARD := Ops(StandardAnd, StandardOr, StandardNot, StandardCond)

  // Operators that look at the left operand first and give up on its error.
  function EagerAnd(x: Val, y: Val): Val {
    if !x.Bool? then Error else if !x.v then x else if y.Bool? then y else Error
  }

  function EagerOr(x: Val, y: Val): Val {
    if !x.Bool? then Error else if x.v then x else if y.Bool? then y else Error
  }

  const EAGER := Ops(EagerAnd, EagerOr, StandardNot, StandardCond)

  lemma StandardAndIsLawful()
    ensures LawfulAnd(STANDARD.and)
  {
  }

  lemma StandardOrIsLawful()
    ensures LawfulOr(STANDARD.or)
  {
  }

  lemma StandardNotIsLawful()
    ensures LawfulNot(STANDARD.not)
  {
  }

  lemma StandardCondIsLawful()
    ensures LawfulCond(STANDARD.cond)
  {
  }

  lemma EagerAndIsLawful()
    ensures LawfulAnd(EAGER.and)
  {
  }

  lemma EagerOrIsLawful()
    ensures LawfulOr(EAGER.or)
  {
  }

  // The verdict a caller may trust even when conditions can fail.
  function StrictEval(e: CheapExpr, req: Request): Tri {
    match e
    case And(a, b) => TriAnd(StrictEval(a, req), StrictEval(b, req))
    case Or(a, b) => TriOr(StrictEval(a, req), StrictEval(b, req))
    case Not(a) => TriNot(StrictEval(a, req))
    case Cond(c, a, b) =>
      if StrictEval(c, req).Unknown? then Unknown
      else TriCond(StrictEval(c, req), StrictEval(a, req), StrictEval(b, req))
    case Check(meta) => FromBool(Passes(req, meta))
    case Lit(v) => FromBool(v)
    case Gap => Unknown
  }

  function StrictVerdict(e: Expr, req: Request): Tri {
    StrictEval(BuildOpt(e), req)
  }

  lemma {:induction false} StrictImpliesEval(e: CheapExpr, req: Request)
    requires !StrictEval(e, req).Unknown?
    ensures Eval(e, req) == StrictEval(e, req)
  {
    match e
    case And(a, b) =>
      if !StrictEval(a, req).Unknown? { StrictImpliesEval(a, req); }
      if !StrictEval(b, req).Unknown? { StrictImpliesEval(b, req); }
    case Or(a, b) =>
      if !StrictEval(a, req).Unknown? { StrictImpliesEval(a, req); }
      if !StrictEval(b, req).Unknown? { StrictImpliesEval(b, req); }
    case Not(a) => StrictImpliesEval(a, req);
    case Cond(c, a, b) =>
      StrictImpliesEval(c, req);
      if !StrictEval(a, req).Unknown? { StrictImpliesEval(a, req); }
      if !StrictEval(b, req).Unknown? { StrictImpliesEval(b, req); }
    case _ =>
  }

  // The oracle under which every unanalysed part fails.
  function Failing(e: Expr): Val {
    Error
  }

  // A strict verdict holds under every oracle; an unknown one is an error when all
  // unanalysed parts fail.
  predicate Certain(t: Tri, v: Val, failing: Val) {
    match t
    case True => v == Bool(true) && failing == Bool(true)
    case False => v == Bool(false) && failing == Bool(false)
    case Unknown => failing == Error
  }

  lemma {:induction false} StrictIsCertain(e: Expr, req: Request, oracle: Expr -> Val)
    ensures Certain(StrictVerdict(e, req), Cel(e, req, STANDARD, oracle), Cel(e, req, STANDARD, Failing))
  {
    if !Analysed(e) {
      OtherNodes(e, req, STANDARD, oracle);
      OtherNodes(e, req, STANDARD, Failing);
      assert BuildOpt(e) == if Build(e).Some? then Build(e).value else Gap;
      return;
    }
    var args := e.args;
    StrictIsCertain(args[0], req, oracle);
    if e.func.LogicalNot? {
      NotNode(e, req, STANDARD, oracle);
      NotNode(e, req, STANDARD, Failing);
      assert BuildOpt(e) == Not(BuildOpt(args[0]));
      return;
    }
    StrictIsCertain(args[1], req, oracle);
    if e.func.LogicalAnd? {
      AndNode(e, req, STANDARD, oracle);
      AndNode(e, req, STANDARD, Failing);
      assert BuildOpt(e) == And(BuildOpt(args[0]), BuildOpt(args[1]));
    } else if e.func.LogicalOr? {
      OrNode(e, req, STANDARD, oracle);
      OrNode(e, req, STANDARD, Failing);
      assert BuildOpt(e) == Or(BuildOpt(args[0]), BuildOpt(args[1]));
    } else {
      CondNode(e, req, STANDARD, oracle);
      CondNode(e, req, STANDARD, Failing);
      StrictIsCertain(args[2], req, oracle);
      assert BuildOpt(e) == Cond(BuildOpt(args[0]), BuildOpt(args[1]), BuildOpt(args[2]));
    }
  }

  lemma StandardTolerates(e: Expr, req: Request, oracle: Expr -> Val)
    ensures Tolerates(Verdict(e, req), Cel(e, req, STANDARD, oracle))
  {
    StandardAndIsLawful();
    StandardOrIsLawful();
    StandardNotIsLawful();
    StandardCondIsLawful();
    VerdictIsNeverContradicted(e, req, STANDARD, oracle);
  }

  // The same with operators that give up on an error of the left operand.
  lemma EagerTolerates(e: Expr, req: Request, oracle: Expr -> Val)
    ensures Tolerates(Verdict(e, req), Cel(e, req, EAGER, oracle))
  {
    EagerAndIsLawful();
    EagerOrIsLawful();
    StandardNotIsLawful();
    StandardCondIsLawful();
    VerdictIsNeverContradicted(e, req, EAGER, oracle);
  }

  // The fast path agrees with the program whatever the unanalysed parts do, if and
  // only if a "yes" is also a strict "yes".
  lemma FastPathExactIff(e: Expr, req: Request)
    ensures (forall oracle: Expr -> Val :: Matches(e, req, STANDARD, oracle) == FullMatch(e, req, STANDARD, oracle))
            <==> (Verdict(e, req).True? ==> StrictVerdict(e, req).True?)
  {
    forall oracle: Expr -> Val | Verdict(e, req).True? ==> StrictVerdict(e, req).True?
      ensures Matches(e, req, STANDARD, oracle) == FullMatch(e, req, STANDARD, oracle)
    {
      StrictIsCertain(e, req, oracle);
      StandardTolerates(e, req, oracle);
    }
    if Verdict(e, req).True? && !StrictVerdict(e, req).True? {
      if StrictVerdict(e, req).False? { StrictImpliesEval(BuildOpt(e), req); }
      StrictIsCertain(e, req, Failing);
      assert Matches(e, req, STANDARD, Failing) != FullMatch(e, req, STANDARD, Failing);
    }
  }

  // `x ? true : true` with a failing x: the fast path matches, the program does not.
  lemma UnknownConditionCanMislead(req: Request)
    ensures var e := Call(Conditional, None, [Other(0), BoolLit(true), BoolLit(true)]);
            Matches(e, req, STANDARD, Failing) && !FullMatch(e, req, STANDARD, Failing)
  {
    var e := Call(Conditional, None, [Other(0), BoolLit(true), BoolLit(true)]);
    CondNode(e, req, STANDARD, Failing);
    assert Build(e.args[0]).None? && BuildOpt(e.args[0]) == Gap;
    assert BuildOpt(e.args[1]) == Lit(true) && BuildOpt(e.args[2]) == Lit(true);
  }
}
