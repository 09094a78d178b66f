/** `analyze`: the literals a rule refers to, for certificate automation. */
module RuleAnalysis {
  import opened Precheck
  import opened CelRules
  import opened RuleMeaning
  import opened HostNames
  import opened FirstOccurrence

  datatype Kind = KHost | KPath | KPrefix

  function KindOf(m: CheckMeta): Kind {
    match m
    case Host(_) => KHost
    case Path(_) => KPath
    case PathPrefix(_) => KPrefix
  }

  function Literals(metas: seq<CheckMeta>, k: Kind): seq<string> {
    if metas == [] then []
    else
      var rest := Literals(metas[..|metas| - 1], k);
      var last := metas[|metas| - 1];
      if KindOf(last) == k then rest + [last.value] else rest
  }

  lemma {:induction false} LiteralsHold(metas: seq<CheckMeta>, m: CheckMeta)
    requires m in metas
    ensures m.value in Literals(metas, KindOf(m))
  {
    if m != metas[|metas| - 1] {
      LiteralsHold(metas[..|metas| - 1], m);
    }
  }

  // ---------- the report ----------

  datatype RuleConstraints =
    RuleConstraints(hosts: seq<string>, paths: seq<string>, pathPrefixes: seq<string>, fullyPrecheckable: bool)

  function LeavesOf(e: Expr): seq<CheckMeta> {
    if Build(e).Some? then Leaves(Build(e).value) else []
  }

  // The literals of the checks as the rule is written, each once; and whether the rule is
  // made of nothing else.
  ghost predicate Reports(c: RuleConstraints, e: Expr) {
    && ListsOnce(c.hosts, Literals(Written(e), KHost))
    && ListsOnce(c.paths, Literals(Written(e), KPath))
    && ListsOnce(c.pathPrefixes, Literals(Written(e), KPrefix))
    && c.fullyPrecheckable == Checkable(e)
  }

  lemma LeavesOfIsWritten(e: Expr)
    ensures LeavesOf(e) == Written(e)
    ensures Build(e).Some? && IsComplete(Build(e).value) <==> Checkable(e)
  {
    LeavesAreWritten(e);
    CompleteIffCheckable(e);
  }

  method Analyze(e: Expr) returns (c: RuleConstraints)
    ensures Reports(c, e)
  {
    var hosts, paths, prefixes: seq<string> := [], [], [];
    var cheap := Build(e);
    var full := cheap.Some? && IsComplete(cheap.value);
    var leaves := LeavesOf(e);
    LeavesOfIsWritten(e);
    assert leaves[..|leaves|] == leaves;
    for i := 0 to |leaves|
      invariant ListsOnce(hosts, Literals(leaves[..i], KHost))
      invariant ListsOnce(paths, Literals(leaves[..i], KPath))
      invariant ListsOnce(prefixes, Literals(leaves[..i], KPrefix))
    {
      var m := leaves[i];
      assert leaves[..i + 1][..i] == leaves[..i];
      match m {
        case Host(value) =>
          PushUniqueLists(hosts, Literals(leaves[..i], KHost), value);
          hosts := PushUnique(hosts, value);
        case Path(value) =>
          PushUniqueLists(paths, Literals(leaves[..i], KPath), value);
          paths := PushUnique(paths, value);
        case PathPrefix(value) =>
          PushUniqueLists(prefixes, Literals(leaves[..i], KPrefix), value);
          prefixes := PushUnique(prefixes, value);
      }
    }
    c := RuleConstraints(hosts, paths, prefixes, full);
  }

  // There is exactly one such report.
  lemma ReportIsUnique(c: RuleConstraints, d: RuleConstraints, e: Expr)
    requires Reports(c, e) && Reports(d, e)
    ensures c == d
  {
    ListsOnceIsUnique(c.hosts, d.hosts, Literals(Written(e), KHost));
    ListsOnceIsUnique(c.paths, d.paths, Literals(Written(e), KPath));
    ListsOnceIsUnique(c.pathPrefixes, d.pathPrefixes, Literals(Written(e), KPrefix));
  }

  // Two requests on which every reported check comes out alike get the same verdict.
  lemma ReportedChecksDecide(c: RuleConstraints, e: Expr, r1: Request, r2: Request)
    requires Reports(c, e)
    requires forall v :: v in c.hosts ==> HostMatches(r1.host, v) == HostMatches(r2.host, v)
    requires forall v :: v in c.paths ==> (r1.path == v) == (r2.path == v)
    requires forall v :: v in c.pathPrefixes ==> (v <= r1.path) == (v <= r2.path)
    ensures Verdict(e, r1) == Verdict(e, r2)
  {
    LeavesOfIsWritten(e);
    if Build(e).Some? {
      forall m | m in LeavesOf(e) ensures Passes(r1, m) == Passes(r2, m) {
        LiteralsHold(LeavesOf(e), m);
      }
      VerdictFollowsLeaves(Build(e).value, r1, r2);
    }
  }

  // A fully pre-checkable rule is decided for every request: the verdict is what it says.
  lemma FullyPrecheckableIsDecided(c: RuleConstraints, e: Expr, req: Request)
    requires Reports(c, e) && c.fullyPrecheckable
    ensures Verdict(e, req) == FromBool(Says(e, req))
  {
    VerdictSays(e, req);
  }
}
