/**
 Stopping and starting again: a stop whose signal arrives always completes, and the one
 thing that keeps a server from ever being restarted is a signal that does not arrive.
 */
module Restart {
  import opened Prelude
  import opened Lifecycle

  type Schedule = seq<(nat, Action)>

  lemma RunSnoc(schedule: Schedule, last: (nat, Action))
    ensures Run(schedule + [last]) == Step(Run(schedule), last.0, last.1)
  {
    assert (schedule + [last])[..|schedule|] == schedule;
  }

  // ---------- when the flag stays up ----------

  // Step i of the schedule is a stop's send, and its server thread no longer listens.
  predicate SendFails(schedule: Schedule, i: nat)
    requires i < |schedule|
  {
    var s := Run(schedule[..i]);
    var pc := PcAt(s, schedule[i].0);
    schedule[i].1.Advance? && pc.StopSend? && !Has(s.sh, pc.th, Serving)
  }

  predicate SomeSendFails(schedule: Schedule) {
    exists i :: 0 <= i < |schedule| && SendFails(schedule, i)
  }

  lemma WedgesOnlySo(s: Sys, t: nat, a: Action)
    requires CallsOk(s)
    ensures Step(s, t, a).sh.wedged <==>
            s.sh.wedged || (a.Advance? && PcAt(s, t).StopSend? && !Has(s.sh, PcAt(s, t).th, Serving))
  {
  }

  lemma {:induction false} FailureIsRemembered(schedule: Schedule)
    ensures Run(schedule).sh.wedged <==> SomeSendFails(schedule)
    decreases |schedule|
  {
    if schedule != [] {
      var n := |schedule| - 1;
      var init := schedule[..n];
      FailureIsRemembered(init);
      RunKeeps(init);
      WedgesOnlySo(Run(init), schedule[n].0, schedule[n].1);
      assert Run(schedule).sh.wedged <==> Run(init).sh.wedged || SendFails(schedule, n);
      forall i | 0 <= i < n ensures SendFails(init, i) == SendFails(schedule, i) {
        assert init[..i] == schedule[..i];
      }
      if SomeSendFails(init) {
        var i: nat :| i < n && SendFails(init, i);
        assert SendFails(schedule, i);
      }
    }
  }

  predicate Quiet(s: Sys) {
    forall t :: t in s.ops ==> s.ops[t].Idle?
  }

  // With no call in progress the flag is up exactly when some send of the run failed, and
  // the lock is free.
  lemma FlagStaysUpIff(schedule: Schedule)
    requires Quiet(Run(schedule))
    ensures Run(schedule).sh.stopping <==> SomeSendFails(schedule)
    ensures !Run(schedule).sh.locked
  {
    RunKeeps(schedule);
    FailureIsRemembered(schedule);
  }

  // A whole start call with nothing in its way; `ok` is whether the thread can be spawned.
  function StartAlone(s: Sys, t: nat, ok: bool): Sys {
    var a := Step(s, t, Begin(Start));
    var b := Step(Step(a, t, Advance(true)), t, Advance(true));
    Step(Step(Step(b, t, Advance(ok)), t, Advance(true)), t, Advance(true))
  }

  // Between calls, a start puts a new thread in the slot exactly when none is there, no send
  // ever failed and the thread can be spawned; otherwise it changes nothing. It returns.
  lemma StartSucceedsIff(schedule: Schedule, t: nat, ok: bool)
    requires Quiet(Run(schedule))
    ensures var sh := Run(schedule).sh; var sh' := StartAlone(Run(schedule), t, ok).sh;
            if sh.runtime.None? && !SomeSendFails(schedule) && ok
            then sh' == sh.(runtime := Some(|sh.servers|), started := true, servers := sh.servers + [Serving])
            else sh' == sh
    ensures PcAt(StartAlone(Run(schedule), t, ok), t).Idle?
  {
    var s := Run(schedule);
    FlagStaysUpIff(schedule);
    var a := Step(s, t, Begin(Start));
    assert PcAt(a, t) == StartCheck;
    StartChecks(a, t);
    var b := Step(Step(a, t, Advance(true)), t, Advance(true));
    if s.sh.runtime.None? && !s.sh.stopping {
      StartSpawns(b, t, ok);
    } else {
      IdleTurn(b, t, ok);
      IdleTurn(b, t, true);
    }
  }

  lemma StartChecks(a: Sys, t: nat)
    requires PcAt(a, t) == StartCheck
    ensures var b := Step(Step(a, t, Advance(true)), t, Advance(true));
            if a.sh.runtime.None? && !a.sh.stopping then PcAt(b, t) == StartSpawn && b.sh == a.sh
            else PcAt(b, t).Idle? && b.sh == a.sh.(locked := false)
  {
  }

  lemma StartSpawns(b: Sys, t: nat, ok: bool)
    requires PcAt(b, t) == StartSpawn
    ensures var c := Step(Step(Step(b, t, Advance(ok)), t, Advance(true)), t, Advance(true));
            && PcAt(c, t).Idle?
            && c.sh == if ok then b.sh.(runtime := Some(|b.sh.servers|), started := true, locked := false,
                                        servers := b.sh.servers + [Serving])
                       else b.sh.(locked := false)
  {
    if !ok {
      assert PcAt(Step(b, t, Advance(ok)), t).Idle?;
    }
  }

  // A caller with no call in progress ignores its turns.
  lemma IdleTurn(s: Sys, t: nat, ok: bool)
    requires t in s.ops && s.ops[t].Idle?
    ensures Step(s, t, Advance(ok)) == s
  {
    assert s.ops[t := Idle] == s.ops;
  }

  lemma WedgedStep(s: Sys, t: nat, a: Action)
    requires CallsOk(s) && s.sh.wedged
    ensures Step(s, t, a).sh.wedged && |Step(s, t, a).sh.servers| == |s.sh.servers|
  {
    assert t in s.ops ==> PcOk(s.sh, s.ops[t]);
  }

  // After a failed send the flag is up, the slot is empty and no thread is spawned, for ever.
  lemma {:induction false} FailedSendIsFinal(schedule: Schedule, later: Schedule)
    requires SomeSendFails(schedule)
    ensures var sh := Run(schedule + later).sh;
            sh.wedged && sh.stopping && sh.runtime.None? && |sh.servers| == |Run(schedule).sh.servers|
    decreases |later|
  {
    if later == [] {
      assert schedule + later == schedule;
      FailureIsRemembered(schedule);
    } else {
      var init, last := later[..|later| - 1], later[|later| - 1];
      FailedSendIsFinal(schedule, init);
      WedgedRunStep(schedule + init, last);
      assert schedule + later == schedule + init + [last];
    }
    WedgedIsStopping(schedule + later);
  }

  lemma WedgedRunStep(schedule: Schedule, last: (nat, Action))
    requires Run(schedule).sh.wedged
    ensures Run(schedule + [last]).sh.wedged
    ensures |Run(schedule + [last]).sh.servers| == |Run(schedule).sh.servers|
  {
    RunKeeps(schedule);
    WedgedStep(Run(schedule), last.0, last.1);
    RunSnoc(schedule, last);
  }

  lemma WedgedIsStopping(schedule: Schedule)
    ensures Run(schedule).sh.wedged ==> Run(schedule).sh.stopping && Run(schedule).sh.runtime.None?
  {
    RunKeeps(schedule);
  }

  // ---------- a run in which it happens ----------

  const NEXT := (0, Advance(true))

  // One caller starts the server; its thread lets go of the channel on its own; the caller
  // stops it; the thread ends.
  const BROKEN: Schedule :=
    [(0, Begin(Start)), NEXT, NEXT, NEXT, NEXT, NEXT, (1, ServerStep(0)),
     (0, Begin(Stop)), NEXT, NEXT, NEXT, NEXT, (1, ServerStep(0)), NEXT]

  lemma Prefix(schedule: Schedule, i: nat)
    requires i < |schedule|
    ensures Run(schedule[..i + 1]) == Step(Run(schedule[..i]), schedule[i].0, schedule[i].1)
  {
    assert schedule[..i + 1] == schedule[..i] + [schedule[i]];
    RunSnoc(schedule[..i], schedule[i]);
  }

  lemma BrokenStarts()
    ensures Run(BROKEN[..6]) == Sys(Shared(Some(0), true, false, false, [Serving], {}, false), map[0 := Idle])
  {
    assert BROKEN[..0] == [];
    Prefix(BROKEN, 0);
    Prefix(BROKEN, 1);
    Prefix(BROKEN, 2);
    Prefix(BROKEN, 3);
    Prefix(BROKEN, 4);
    Prefix(BROKEN, 5);
  }

  lemma BrokenStops()
    ensures Run(BROKEN[..8]) == Sys(Shared(Some(0), true, false, true, [Unhooked], {}, false), map[0 := StopTake])
  {
    BrokenStarts();
    Prefix(BROKEN, 6);
    Prefix(BROKEN, 7);
  }

  lemma BrokenMarks()
    ensures Run(BROKEN[..9]) == Sys(Shared(None, true, false, true, [Unhooked], {}, false), map[0 := StopMark(0)])
  {
    BrokenStops();
    Prefix(BROKEN, 8);
  }

  lemma BrokenSends()
    ensures Run(BROKEN[..11]) == Sys(Shared(None, true, true, false, [Unhooked], {}, false), map[0 := StopSend(0)])
  {
    BrokenMarks();
    Prefix(BROKEN, 9);
    Prefix(BROKEN, 10);
  }

  // Every call has returned, the thread is joined, and yet the flag is up.
  lemma SendCanFail()
    ensures Quiet(Run(BROKEN)) && SomeSendFails(BROKEN)
    ensures Run(BROKEN).sh == Shared(None, true, true, false, [Exited], {0}, true)
  {
    BrokenSends();
    assert SendFails(BROKEN, 11);
    Prefix(BROKEN, 11);
    Prefix(BROKEN, 12);
    Prefix(BROKEN, 13);
    assert BROKEN[..14] == BROKEN;
  }

  // ---------- a stop past its send ----------

  function Continue(s: Sys, later: Schedule): Sys
    decreases |later|
  {
    if later == [] then s
    else
      var (t, a) := later[|later| - 1];
      Step(Continue(s, later[..|later| - 1]), t, a)
  }

  lemma ContinueSnoc(s: Sys, later: Schedule, i: nat)
    requires i < |later|
    ensures Continue(s, later[..i + 1]) == Step(Continue(s, later[..i]), later[i].0, later[i].1)
  {
    assert later[..i + 1][..i] == later[..i];
  }

  lemma {:induction false} ContinueRun(schedule: Schedule, later: Schedule)
    ensures Continue(Run(schedule), later) == Run(schedule + later)
    decreases |later|
  {
    if later == [] {
      assert schedule + later == schedule;
    } else {
      var init, last := later[..|later| - 1], later[|later| - 1];
      ContinueRun(schedule, init);
      assert schedule + later == (schedule + init) + [last];
      RunSnoc(schedule + init, last);
    }
  }

  lemma {:induction false} ContinueTwice(s: Sys, a: Schedule, b: Schedule)
    ensures Continue(s, a + b) == Continue(Continue(s, a), b)
    decreases |b|
  {
    if b == [] {
      assert a + b == a;
    } else {
      var n := |b| - 1;
      assert (a + b)[..|a + b| - 1] == a + b[..n];
      ContinueTwice(s, a, b[..n]);
    }
  }

  lemma {:induction false} ContinueKeeps(s: Sys, later: Schedule)
    requires Inv(s)
    ensures Inv(Continue(s, later))
    decreases |later|
  {
    if later != [] {
      var (t, a) := later[|later| - 1];
      ContinueKeeps(s, later[..|later| - 1]);
      StepKeeps(Continue(s, later[..|later| - 1]), t, a);
    }
  }

  // A stop whose send succeeded waits for its thread, or has joined it; one whose send failed
  // waits for its thread while it drops the runtime.
  predicate Waiting(s: Sys, t: nat, th: nat, sent: bool) {
    if sent then PcAt(s, t) == StopJoin(th) || (PcAt(s, t) == StopClear && th in s.sh.joined)
    else PcAt(s, t) == DropJoin(th)
  }

  // The stop has just returned, its thread joined. If the send succeeded the flag is down and
  // the server is free to start, if it failed the flag is up.
  predicate Returned(s: Sys, t: nat, th: nat, sent: bool) {
    && PcAt(s, t).Idle? && th in s.sh.joined && s.sh.runtime.None?
    && s.sh.stopping == !sent && s.sh.wedged == !sent && (sent ==> PhaseOf(s) == Stopped)
  }

  // While it waits nothing wedges, whatever the others do.
  lemma WaitingIsSound(s: Sys, t: nat, th: nat, sent: bool)
    requires Inv(s) && Waiting(s, t, th, sent)
    ensures s.sh.stopping && s.sh.wedged == !sent && s.sh.runtime.None? && th < |s.sh.servers|
    ensures forall u :: u in s.ops && u != t ==> !Token(s.ops[u])
  {
    assert PcOk(s.sh, s.ops[t]);
  }

  lemma WaitingAdvances(s: Sys, t: nat, th: nat, sent: bool, ok: bool)
    requires Inv(s) && Waiting(s, t, th, sent)
    ensures var s' := Step(s, t, Advance(ok)); Waiting(s', t, th, sent) || Returned(s', t, th, sent)
  {
    WaitingIsSound(s, t, th, sent);
    var s' := Step(s, t, Advance(ok));
    assert forall u :: u in s'.ops && u != t ==> s'.ops[u] == s.ops[u];
  }

  lemma WaitingStep(s: Sys, u: nat, a: Action, t: nat, th: nat, sent: bool)
    requires Inv(s) && Waiting(s, t, th, sent)
    ensures Waiting(Step(s, u, a), t, th, sent) || Returned(Step(s, u, a), t, th, sent)
  {
    if u == t && a.Advance? {
      WaitingAdvances(s, t, th, sent, a.ok);
    }
  }

  // It waits from beginning to end of the schedule.
  predicate WaitsThrough(s: Sys, later: Schedule, t: nat, th: nat, sent: bool)
    decreases |later|
  {
    Waiting(Continue(s, later), t, th, sent) && (later != [] ==> WaitsThrough(s, later[..|later| - 1], t, th, sent))
  }

  // It waits for j steps of the schedule, and the j-th makes it return.
  predicate ReturnsAt(s: Sys, later: Schedule, j: nat, t: nat, th: nat, sent: bool) {
    && 0 < j <= |later|
    && WaitsThrough(s, later[..j - 1], t, th, sent) && Returned(Continue(s, later[..j]), t, th, sent)
  }

  predicate Returns(s: Sys, later: Schedule, t: nat, th: nat, sent: bool) {
    exists j :: 0 < j <= |later| && ReturnsAt(s, later, j, t, th, sent)
  }

  lemma ReturnsLonger(s: Sys, later: Schedule, n: nat, t: nat, th: nat, sent: bool)
    requires n <= |later| && Returns(s, later[..n], t, th, sent)
    ensures Returns(s, later, t, th, sent)
  {
    var j :| 0 < j <= n && ReturnsAt(s, later[..n], j, t, th, sent);
    assert later[..n][..j - 1] == later[..j - 1] && later[..n][..j] == later[..j];
    assert ReturnsAt(s, later, j, t, th, sent);
  }

  // Whatever the others do for however long, a stop past its send waits soundly or returns
  // with everything done.
  lemma {:induction false} StopWaitsOrReturns(s: Sys, later: Schedule, t: nat, th: nat, sent: bool)
    requires Inv(s) && Waiting(s, t, th, sent)
    ensures WaitsThrough(s, later, t, th, sent) || Returns(s, later, t, th, sent)
    decreases |later|
  {
    if later != [] {
      var n := |later| - 1;
      StopWaitsOrReturns(s, later[..n], t, th, sent);
      if Returns(s, later[..n], t, th, sent) {
        ReturnsLonger(s, later, n, t, th, sent);
      } else {
        ContinueKeeps(s, later[..n]);
        WaitingStep(Continue(s, later[..n]), later[n].0, later[n].1, t, th, sent);
        assert later[..|later|] == later;
        assert Waiting(Continue(s, later), t, th, sent) || ReturnsAt(s, later, |later|, t, th, sent);
      }
    }
  }

  // ---------- and it does return ----------

  // Steps of its own thread and of itself still missing.
  function Rank(s: Sys, t: nat, th: nat): nat {
    if PcAt(s, t).StopClear? then 1
    else if Has(s.sh, th, Exited) then 2
    else if Has(s.sh, th, Unhooked) then 3
    else 4
  }

  // The step the stop is waiting for.
  predicate Helps(s: Sys, u: nat, a: Action, t: nat, th: nat) {
    if Rank(s, t, th) >= 3 then a == ServerStep(th) else u == t && a.Advance?
  }

  lemma RankStep(s: Sys, u: nat, a: Action, t: nat, th: nat, sent: bool)
    requires Inv(s) && Waiting(s, t, th, sent) && Waiting(Step(s, u, a), t, th, sent)
    ensures Rank(Step(s, u, a), t, th) <= Rank(s, t, th)
    ensures Helps(s, u, a, t, th) ==> Rank(Step(s, u, a), t, th) < Rank(s, t, th)
  {
    WaitingIsSound(s, t, th, sent);
  }

  lemma {:induction false} WaitsPrefix(s: Sys, later: Schedule, n: nat, t: nat, th: nat, sent: bool)
    requires n <= |later| && WaitsThrough(s, later, t, th, sent)
    ensures WaitsThrough(s, later[..n], t, th, sent)
    decreases |later|
  {
    if n == |later| {
      assert later[..n] == later;
    } else {
      var init := later[..|later| - 1];
      assert init[..n] == later[..n];
      WaitsPrefix(s, init, n, t, th, sent);
    }
  }

  lemma {:induction false} WaitsSuffix(s: Sys, a: Schedule, b: Schedule, t: nat, th: nat, sent: bool)
    requires WaitsThrough(s, a + b, t, th, sent)
    ensures WaitsThrough(Continue(s, a), b, t, th, sent)
    decreases |b|
  {
    ContinueTwice(s, a, b);
    if b != [] {
      var n := |b| - 1;
      assert (a + b)[..|a + b| - 1] == a + b[..n];
      WaitsSuffix(s, a, b[..n], t, th, sent);
    }
  }

  lemma RankAt(s: Sys, later: Schedule, n: nat, t: nat, th: nat, sent: bool)
    requires Inv(s) && WaitsThrough(s, later, t, th, sent) && n < |later|
    ensures Rank(Continue(s, later[..n + 1]), t, th) <= Rank(Continue(s, later[..n]), t, th)
    ensures Helps(Continue(s, later[..n]), later[n].0, later[n].1, t, th) ==>
              Rank(Continue(s, later[..n + 1]), t, th) < Rank(Continue(s, later[..n]), t, th)
  {
    ContinueKeeps(s, later[..n]);
    ContinueSnoc(s, later, n);
    WaitsPrefix(s, later, n, t, th, sent);
    WaitsPrefix(s, later, n + 1, t, th, sent);
    RankStep(Continue(s, later[..n]), later[n].0, later[n].1, t, th, sent);
  }

  lemma {:induction false} RankNeverRises(s: Sys, later: Schedule, m: nat, n: nat, t: nat, th: nat, sent: bool)
    requires Inv(s) && WaitsThrough(s, later, t, th, sent) && m <= n <= |later|
    ensures Rank(Continue(s, later[..n]), t, th) <= Rank(Continue(s, later[..m]), t, th)
    decreases n - m
  {
    if m < n {
      RankNeverRises(s, later, m, n - 1, t, th, sent);
      RankAt(s, later, n - 1, t, th, sent);
    }
  }

  // A stretch of the schedule in which the server thread and the stop both get a turn.
  predicate Round(r: Schedule, t: nat, th: nat) {
    && (exists i :: 0 <= i < |r| && r[i].1 == ServerStep(th))
    && (exists i :: 0 <= i < |r| && r[i].0 == t && r[i].1.Advance?)
  }

  lemma HelpLowers(s: Sys, later: Schedule, i: nat, t: nat, th: nat, sent: bool)
    requires Inv(s) && WaitsThrough(s, later, t, th, sent) && i < |later|
    requires if Rank(s, t, th) >= 3 then later[i].1 == ServerStep(th) else later[i].0 == t && later[i].1.Advance?
    ensures Rank(Continue(s, later), t, th) < Rank(s, t, th)
  {
    RankNeverRises(s, later, 0, i, t, th, sent);
    RankAt(s, later, i, t, th, sent);
    RankNeverRises(s, later, i + 1, |later|, t, th, sent);
    assert later[..0] == [] && later[..|later|] == later;
  }

  lemma RoundLowers(s: Sys, r: Schedule, t: nat, th: nat, sent: bool)
    requires Inv(s) && WaitsThrough(s, r, t, th, sent) && Round(r, t, th)
    ensures Rank(Continue(s, r), t, th) < Rank(s, t, th)
  {
    if Rank(s, t, th) >= 3 {
      var i: nat :| i < |r| && r[i].1 == ServerStep(th);
      HelpLowers(s, r, i, t, th, sent);
    } else {
      var i: nat :| i < |r| && r[i].0 == t && r[i].1.Advance?;
      HelpLowers(s, r, i, t, th, sent);
    }
  }

  predicate AllRounds(rounds: seq<Schedule>, t: nat, th: nat) {
    rounds == [] || (AllRounds(rounds[..|rounds| - 1], t, th) && Round(rounds[|rounds| - 1], t, th))
  }

  function Flat(rounds: seq<Schedule>): Schedule {
    if rounds == [] then [] else Flat(rounds[..|rounds| - 1]) + rounds[|rounds| - 1]
  }

  lemma {:induction false} RoundsLower(s: Sys, rounds: seq<Schedule>, t: nat, th: nat, sent: bool)
    requires Inv(s) && WaitsThrough(s, Flat(rounds), t, th, sent)
    requires AllRounds(rounds, t, th)
    ensures Rank(Continue(s, Flat(rounds)), t, th) + |rounds| <= Rank(s, t, th)
  {
    if rounds != [] {
      var n := |rounds| - 1;
      var init, last := Flat(rounds[..n]), rounds[n];
      assert (init + last)[..|init|] == init;
      WaitsPrefix(s, init + last, |init|, t, th, sent);
      WaitsSuffix(s, init, last, t, th, sent);
      RoundsLower(s, rounds[..n], t, th, sent);
      ContinueKeeps(s, init);
      RoundLowers(Continue(s, init), last, t, th, sent);
      ContinueTwice(s, init, last);
    }
  }

  // From the moment of its send a stop returns within any four rounds, however many other
  // calls are mixed in.
  lemma StopReturns(schedule: Schedule, rounds: seq<Schedule>, t: nat, th: nat, sent: bool)
    requires Waiting(Run(schedule), t, th, sent)
    requires |rounds| >= 4 && AllRounds(rounds, t, th)
    ensures Returns(Run(schedule), Flat(rounds), t, th, sent)
    ensures exists j :: 0 < j <= |Flat(rounds)| && Returned(Run(schedule + Flat(rounds)[..j]), t, th, sent)
  {
    var s, later := Run(schedule), Flat(rounds);
    RunKeeps(schedule);
    StopWaitsOrReturns(s, later, t, th, sent);
    assert !WaitsThrough(s, later, t, th, sent) by {
      if WaitsThrough(s, later, t, th, sent) {
        RoundsLower(s, rounds, t, th, sent);
      }
    }
    var j :| 0 < j <= |later| && ReturnsAt(s, later, j, t, th, sent);
    ContinueRun(schedule, later[..j]);
    assert Returned(Run(schedule + later[..j]), t, th, sent);
  }
}
