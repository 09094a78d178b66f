/**
 What a rule says, read off its expression: an independent meaning for the rules made only
 of checks, boolean literals and operators, which the matcher is proved to follow.
 */
module RuleMeaning {
  import opened Prelude
  import opened Precheck
  import opened CelRules
  import opened HostNames

  // ---------- one check ----------

  function Path1(v: string): Expr { Call(FnPath, None, [StringLit(v)]) }
  function PathPrefix1(v: string): Expr { Call(FnPathPrefix, None, [StringLit(v)]) }
  function Host1(v: string): Expr { Call(FnHost, None, [StringLit(v)]) }

  lemma PathRule(v: string, req: Request, ops: Ops, oracle: Expr -> Val)
    ensures Matches(Path1(v), req, ops, oracle) <==> req.path == v
  {
    assert BuildOpt(Path1(v)) == Check(Path(v));
  }

  lemma PathPrefixRule(v: string, req: Request, ops: Ops, oracle: Expr -> Val)
    ensures Matches(PathPrefix1(v), req, ops, oracle) <==> exists rest: string :: req.path == v + rest
  {
    assert BuildOpt(PathPrefix1(v)) == Check(PathPrefix(v));
    if v <= req.path {
      assert req.path == v + req.path[|v|..];
    }
  }

  lemma HostRule(v: string, req: Request, ops: Ops, oracle: Expr -> Val)
    requires !("*." <= v)
    ensures Matches(Host1(v), req, ops, oracle) <==> req.host == v
  {
    assert BuildOpt(Host1(v)) == Check(Host(v));
  }

  lemma WildcardHostRule(base: string, req: Request, ops: Ops, oracle: Expr -> Val)
    ensures Matches(Host1("*." + base), req, ops, oracle) <==>
            exists first: string :: first != "" && '.' !in first && req.host == first + "." + base
  {
    assert BuildOpt(Host1("*." + base)) == Check(Host("*." + base));
    WildcardMeaning(req.host, base);
  }

  // ---------- whole rules ----------

  predicate IsCheck(e: Expr) {
    e.Call? && e.target.None? && (e.func.FnHost? || e.func.FnPath? || e.func.FnPathPrefix?)
    && |e.args| == 1 && e.args[0].StringLit?
  }

  predicate IsOperator(e: Expr) {
    && e.Call? && e.target.None?
    && match e.func
       case LogicalAnd => |e.args| == 2
       case LogicalOr => |e.args| == 2
       case LogicalNot => |e.args| == 1
       case Conditional => |e.args| == 3
       case _ => false
  }

  // Made of nothing but checks on literals, boolean literals and the four operators.
  predicate Checkable(e: Expr) {
    || IsCheck(e) || e.BoolLit?
    || (IsOperator(e) && forall i :: 0 <= i < |e.args| ==> Checkable(e.args[i]))
  }

  // What such a rule says of a request.
  ghost predicate Says(e: Expr, req: Request)
    requires Checkable(e)
  {
    if e.BoolLit? then e.v
    else if IsCheck(e) then
      var v := e.args[0].s;
      if e.func.FnPath? then req.path == v
      else if e.func.FnPathPrefix? then exists rest: string :: req.path == v + rest
      else if "*." <= v then exists first: string :: first != "" && '.' !in first && req.host == first + "." + v[2..]
      else req.host == v
    else if e.func.LogicalAnd? then Says(e.args[0], req) && Says(e.args[1], req)
    else if e.func.LogicalOr? then Says(e.args[0], req) || Says(e.args[1], req)
    else if e.func.LogicalNot? then !Says(e.args[0], req)
    else if Says(e.args[0], req) then Says(e.args[1], req)
    else Says(e.args[2], req)
  }

  lemma CheckSays(e: Expr, req: Request)
    requires IsCheck(e)
    ensures Verdict(e, req) == FromBool(Says(e, req))
  {
    var v := e.args[0].s;
    assert e.args == [StringLit(v)];
    var ops, oracle := Ops((x, y) => Error, (x, y) => Error, x => Error, (c, x, y) => Error), (x: Expr) => Error;
    if e.func.FnPath? {
      PathRule(v, req, ops, oracle);
    } else if e.func.FnPathPrefix? {
      PathPrefixRule(v, req, ops, oracle);
    } else if "*." <= v {
      assert v == "*." + v[2..];
      WildcardHostRule(v[2..], req, ops, oracle);
    } else {
      HostRule(v, req, ops, oracle);
    }
    assert BuildOpt(e).Check?;
  }

  lemma OperatorVerdict(e: Expr, req: Request)
    requires IsOperator(e)
    ensures Build(e).Some?
    ensures Verdict(e, req) ==
            if e.func.LogicalAnd? then TriAnd(Verdict(e.args[0], req), Verdict(e.args[1], req))
            else if e.func.LogicalOr? then TriOr(Verdict(e.args[0], req), Verdict(e.args[1], req))
            else if e.func.LogicalNot? then TriNot(Verdict(e.args[0], req))
            else TriCond(Verdict(e.args[0], req), Verdict(e.args[1], req), Verdict(e.args[2], req))
  {
  }

  lemma {:induction false} VerdictSays(e: Expr, req: Request)
    requires Checkable(e)
    ensures Verdict(e, req) == FromBool(Says(e, req))
  {
    if IsCheck(e) {
      CheckSays(e, req);
    } else if IsOperator(e) {
      OperatorVerdict(e, req);
      forall i | 0 <= i < |e.args| ensures Verdict(e.args[i], req) == FromBool(Says(e.args[i], req)) {
        VerdictSays(e.args[i], req);
      }
    } else {
      assert BuildOpt(e) == Lit(e.v);
    }
  }

  // The matcher does what such a rule says, whatever the operators would do with errors: the
  // program is not even run.
  lemma MatcherFollowsRule(e: Expr, req: Request, ops: Ops, oracle: Expr -> Val)
    requires Checkable(e)
    ensures Matches(e, req, ops, oracle) <==> Says(e, req)
  {
    VerdictSays(e, req);
  }

  // And these are exactly the rules whose tree is complete.
  lemma {:induction false} CompleteIffCheckable(e: Expr)
    ensures IsComplete(BuildOpt(e)) <==> Checkable(e)
    ensures Checkable(e) ==> Build(e).Some?
  {
    if IsOperator(e) {
      assert Build(e).Some?;
      forall i | 0 <= i < |e.args| ensures IsComplete(BuildOpt(e.args[i])) <==> Checkable(e.args[i]) {
        CompleteIffCheckable(e.args[i]);
      }
    }
  }

  // ---------- the checks of a rule ----------

  function MetaOf(e: Expr): CheckMeta
    requires IsCheck(e)
  {
    if e.func.FnPath? then Path(e.args[0].s)
    else if e.func.FnPathPrefix? then PathPrefix(e.args[0].s)
    else Host(e.args[0].s)
  }

  // The checks in the order in which the rule is written, operators looked into, everything
  // else passed over.
  function Written(e: Expr): seq<CheckMeta> {
    if IsCheck(e) then [MetaOf(e)]
    else if !IsOperator(e) then []
    else if |e.args| == 1 then Written(e.args[0])
    else if |e.args| == 2 then Written(e.args[0]) + Written(e.args[1])
    else Written(e.args[0]) + Written(e.args[1]) + Written(e.args[2])
  }

  lemma {:induction false} LeavesAreWritten(e: Expr)
    ensures Leaves(BuildOpt(e)) == Written(e)
  {
    if IsOperator(e) {
      assert Build(e).Some?;
      forall i | 0 <= i < |e.args| ensures Leaves(BuildOpt(e.args[i])) == Written(e.args[i]) {
        LeavesAreWritten(e.args[i]);
      }
    } else if IsCheck(e) {
      assert BuildOpt(e) == Check(MetaOf(e));
    }
  }
}
