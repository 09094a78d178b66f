/**
 Whole calls from their beginning: no call keeps the lock, a stop whose thread listens gets
 its signal out and returns, and a server can be started, stopped and started again.
 */
module StopCalls {
  import opened Prelude
  import opened Lifecycle
  import opened Restart

  // How often thread t gets a turn in its own call.
  function Turns(later: Schedule, t: nat): nat {
    if later == [] then 0
    else
      var last := later[|later| - 1];
      Turns(later[..|later| - 1], t) + (if last.0 == t && last.1.Advance? then 1 else 0)
  }

  // ---------- the lock is always given back ----------

  // Turns a call inside the lock takes at most until it leaves.
  function LockRank(pc: Pc): nat {
    match pc
    case StartCheck => 5
    case StartFlag => 4
    case StartSpawn => 3
    case StartStore(_) => 2
    case StartMark => 1
    case StopTake => 3
    case StopMark(_) => 2
    case StopUnlock(_) => 1
    case StatusRunning => 3
    case StatusStarted(_) => 2
    case StatusStopping(_) => 1
    case _ => 0
  }

  lemma OwnTurn(sh: Shared, pc: Pc, ok: bool)
    requires HoldsLock(pc)
    ensures var m := Decide(sh, pc, ok);
            if HoldsLock(m.next) then LockRank(m.next) < LockRank(pc) else !m.sh.locked
  {
  }

  // Thread t is inside the lock from beginning to end of the schedule.
  predicate HeldThrough(s: Sys, later: Schedule, t: nat)
    decreases |later|
  {
    HoldsLock(PcAt(Continue(s, later), t)) && (later != [] ==> HeldThrough(s, later[..|later| - 1], t))
  }

  lemma LockRankStep(s: Sys, u: nat, a: Action, t: nat)
    requires HoldsLock(PcAt(s, t)) && HoldsLock(PcAt(Step(s, u, a), t))
    ensures LockRank(PcAt(Step(s, u, a), t)) + (if u == t && a.Advance? then 1 else 0) <= LockRank(PcAt(s, t))
  {
    if u == t && a.Advance? {
      OwnTurn(s.sh, PcAt(s, t), a.ok);
    }
  }

  lemma {:induction false} LockRankFalls(s: Sys, later: Schedule, t: nat)
    requires HeldThrough(s, later, t)
    ensures LockRank(PcAt(Continue(s, later), t)) + Turns(later, t) <= LockRank(PcAt(s, t))
    decreases |later|
  {
    if later != [] {
      var init, last := later[..|later| - 1], later[|later| - 1];
      LockRankFalls(s, init, t);
      LockRankStep(Continue(s, init), last.0, last.1, t);
    }
  }

  lemma InsideHasRank(pc: Pc)
    requires HoldsLock(pc)
    ensures 1 <= LockRank(pc) <= 5
  {
  }

  // Whatever the others do, nobody is inside the lock for five turns of its own.
  lemma LockIsGivenBack(s: Sys, later: Schedule, t: nat)
    requires Turns(later, t) >= 5
    ensures !HeldThrough(s, later, t)
  {
    if HeldThrough(s, later, t) {
      LockRankFalls(s, later, t);
      InsideHasRank(PcAt(Continue(s, later), t));
      HeldAtFirst(s, later, t);
      InsideHasRank(PcAt(s, t));
    }
  }

  lemma {:induction false} HeldAtFirst(s: Sys, later: Schedule, t: nat)
    requires HeldThrough(s, later, t)
    ensures HoldsLock(PcAt(s, t))
    decreases |later|
  {
    if later != [] {
      HeldAtFirst(s, later[..|later| - 1], t);
    }
  }

  // ---------- status ----------

  predicate InStatus(pc: Pc) {
    pc.StatusRunning? || pc.StatusStarted? || pc.StatusStopping?
  }

  // A status call answers exactly at the turn at which it returns, and changes nothing but
  // the lock it took.
  lemma StatusAnswersOnReturn(sh: Shared, pc: Pc, ok: bool)
    ensures Report(sh, pc).Some? <==> InStatus(pc) && Decide(sh, pc, ok).next.Idle?
    ensures InStatus(pc) ==> Decide(sh, pc, ok).sh == sh.(locked := Decide(sh, pc, ok).sh.locked)
    ensures InStatus(pc) ==> InStatus(Decide(sh, pc, ok).next) || Decide(sh, pc, ok).next.Idle?
  {
  }

  // Between calls a status call answers the phase, at its second turn if the server was never
  // started, else at its third, and leaves everything as it was.
  lemma StatusAlone(schedule: Schedule, t: nat)
    requires Quiet(Run(schedule))
    ensures var s := Run(schedule);
            var a := Step(Step(s, t, Begin(Status)), t, Advance(true));
            var b := Step(a, t, Advance(true));
            var c := Step(b, t, Advance(true));
            && (!s.sh.started ==> Report(a.sh, PcAt(a, t)) == Some(NeverStarted) && PcAt(b, t).Idle? && b.sh == s.sh)
            && (s.sh.started ==> Report(b.sh, PcAt(b, t)) == Some(PhaseOf(s)) && PcAt(c, t).Idle? && c.sh == s.sh)
  {
    FlagStaysUpIff(schedule);
  }

  // ---------- a stop from its beginning ----------

  // How far a stop is on its way to its send, with its thread still listening.
  predicate Sending(s: Sys, t: nat, th: nat, k: nat) {
    && Has(s.sh, th, Serving)
    && match k
       case 0 => PcAt(s, t) == StopTake && s.sh.runtime == Some(th)
       case 1 => PcAt(s, t) == StopMark(th)
       case 2 => PcAt(s, t) == StopUnlock(th)
       case 3 => PcAt(s, t) == StopSend(th)
       case _ => k == 4 && PcAt(s, t) == StopJoin(th)
  }

  lemma SendingOwnTurn(s: Sys, t: nat, th: nat, k: nat, ok: bool)
    requires Sending(s, t, th, k)
    ensures Sending(Step(s, t, Advance(ok)), t, th, if k < 4 then k + 1 else 4)
  {
  }

  // While the stop is inside the lock nobody else touches the slot.
  lemma SlotStays(s: Sys, u: nat, a: Action, t: nat)
    requires CallsOk(s) && HoldsLock(PcAt(s, t)) && u != t
    ensures Step(s, u, a).sh.runtime == s.sh.runtime
  {
    assert u in s.ops ==> Compatible(s.ops[u], s.ops[t]);
  }

  lemma SendingOther(s: Sys, u: nat, a: Action, t: nat, th: nat, k: nat)
    requires CallsOk(s) && Sending(s, t, th, k) && a != ServerStep(th) && !(u == t && a.Advance?)
    ensures Sending(Step(s, u, a), t, th, k)
  {
    if u != t && k == 0 {
      SlotStays(s, u, a, t);
    }
  }

  predicate LetsListen(later: Schedule, th: nat) {
    forall i :: 0 <= i < |later| ==> later[i].1 != ServerStep(th)
  }

  lemma {:induction false} SendingGoesOn(s: Sys, later: Schedule, t: nat, th: nat)
    requires Inv(s) && Sending(s, t, th, 0) && LetsListen(later, th)
    ensures Sending(Continue(s, later), t, th, if Turns(later, t) < 4 then Turns(later, t) else 4)
    decreases |later|
  {
    if later != [] {
      var init, last := later[..|later| - 1], later[|later| - 1];
      SendingGoesOn(s, init, t, th);
      ContinueKeeps(s, init);
      var k := if Turns(init, t) < 4 then Turns(init, t) else 4;
      if last.0 == t && last.1.Advance? {
        SendingOwnTurn(Continue(s, init), t, th, k, last.1.ok);
      } else {
        assert last.1 != ServerStep(th);
        SendingOther(Continue(s, init), last.0, last.1, t, th, k);
      }
    }
  }

  // With no call in progress and a listening thread in the slot, a stop gets its signal out in
  // four turns, whatever else happens, if its thread listens that long.
  lemma StopGetsItsSignalOut(schedule: Schedule, early: Schedule, t: nat, th: nat)
    requires Quiet(Run(schedule)) && Run(schedule).sh.runtime == Some(th) && Has(Run(schedule).sh, th, Serving)
    requires LetsListen(early, th) && Turns(early, t) >= 4
    ensures PcAt(Run(schedule + [(t, Begin(Stop))] + early), t) == StopJoin(th)
  {
    var begun := schedule + [(t, Begin(Stop))];
    FlagStaysUpIff(schedule);
    RunSnoc(schedule, (t, Begin(Stop)));
    RunKeeps(begun);
    SendingGoesOn(Run(begun), early, t, th);
    ContinueRun(begun, early);
  }

  // And within four rounds more it returns: thread joined, flag down, free to start.
  lemma StopCompletes(schedule: Schedule, early: Schedule, rounds: seq<Schedule>, t: nat, th: nat)
    requires Quiet(Run(schedule)) && Run(schedule).sh.runtime == Some(th) && Has(Run(schedule).sh, th, Serving)
    requires LetsListen(early, th) && Turns(early, t) >= 4
    requires |rounds| >= 4 && AllRounds(rounds, t, th)
    ensures var sent := schedule + [(t, Begin(Stop))] + early;
            exists j :: 0 < j <= |Flat(rounds)| && Returned(Run(sent + Flat(rounds)[..j]), t, th, true)
  {
    var sent := schedule + [(t, Begin(Stop))] + early;
    StopGetsItsSignalOut(schedule, early, t, th);
    StopReturns(sent, rounds, t, th, true);
  }

  // With nothing in the slot a stop returns at its first turn and changes nothing.
  lemma StopOfNothing(schedule: Schedule, t: nat)
    requires Quiet(Run(schedule)) && Run(schedule).sh.runtime.None?
    ensures var s' := Step(Step(Run(schedule), t, Begin(Stop)), t, Advance(true));
            s'.sh == Run(schedule).sh && PcAt(s', t).Idle?
  {
    FlagStaysUpIff(schedule);
  }

  // ---------- a run in which it works ----------

  // Start, stop, start again.
  const WORKING: Schedule :=
    [(0, Begin(Start)), NEXT, NEXT, NEXT, NEXT, NEXT,
     (0, Begin(Stop)), NEXT, NEXT, NEXT, NEXT, (1, ServerStep(0)), (1, ServerStep(0)), NEXT, NEXT,
     (0, Begin(Start)), NEXT, NEXT, NEXT, NEXT, NEXT]

  lemma WorkingStarts()
    ensures Run(WORKING[..6]) == Sys(Shared(Some(0), true, false, false, [Serving], {}, false), map[0 := Idle])
  {
    assert WORKING[..0] == [];
    Prefix(WORKING, 0);
    Prefix(WORKING, 1);
    Prefix(WORKING, 2);
    Prefix(WORKING, 3);
    Prefix(WORKING, 4);
    Prefix(WORKING, 5);
  }

  lemma WorkingTakes()
    ensures Run(WORKING[..8]) == Sys(Shared(None, true, false, true, [Serving], {}, false), map[0 := StopMark(0)])
  {
    WorkingStarts();
    Prefix(WORKING, 6);
    Prefix(WORKING, 7);
  }

  lemma WorkingUnlocks()
    ensures Run(WORKING[..10]) == Sys(Shared(None, true, true, false, [Serving], {}, false), map[0 := StopSend(0)])
  {
    WorkingTakes();
    Prefix(WORKING, 8);
    Prefix(WORKING, 9);
  }

  lemma WorkingSends()
    ensures Run(WORKING[..11]) == Sys(Shared(None, true, true, false, [Serving], {}, false), map[0 := StopJoin(0)])
  {
    WorkingUnlocks();
    Prefix(WORKING, 10);
  }

  lemma WorkingEnds()
    ensures Run(WORKING[..13]) == Sys(Shared(None, true, true, false, [Exited], {}, false), map[0 := StopJoin(0)])
  {
    WorkingSends();
    Prefix(WORKING, 11);
    Prefix(WORKING, 12);
  }

  lemma WorkingJoins()
    ensures Run(WORKING[..14]) == Sys(Shared(None, true, true, false, [Exited], {0}, false), map[0 := StopClear])
  {
    WorkingEnds();
    Prefix(WORKING, 13);
  }

  lemma WorkingStops()
    ensures Run(WORKING[..15]) == Sys(Shared(None, true, false, false, [Exited], {0}, false), map[0 := Idle])
  {
    WorkingJoins();
    Prefix(WORKING, 14);
  }

  lemma WorkingStartsAgain()
    ensures Run(WORKING) == StartAlone(Run(WORKING[..15]), 0, true)
  {
    assert WORKING[..21] == WORKING;
    Prefix(WORKING, 15);
    Prefix(WORKING, 16);
    Prefix(WORKING, 17);
    Prefix(WORKING, 18);
    Prefix(WORKING, 19);
    Prefix(WORKING, 20);
  }

  // A second thread in the slot, the first joined, the flag down.
  lemma RestartWorks()
    ensures Run(WORKING).sh == Shared(Some(1), true, false, false, [Exited, Serving], {0}, false)
    ensures PcAt(Run(WORKING), 0).Idle? && !SomeSendFails(WORKING)
  {
    WorkingStops();
    WorkingStartsAgain();
    FailureIsRemembered(WORKING[..15]);
    StartSucceedsIff(WORKING[..15], 0, true);
    FailureIsRemembered(WORKING);
  }
}
