/**
 The server lifecycle: any number of concurrent start, stop and status calls over one
 mutex, two atomic flags and a server thread that must be joined. Each step is one
 acquisition, load, store, send or join.
 */
module Lifecycle {
  import opened Prelude

  // A server thread: its end of the shutdown channel is alive, is gone, or the thread has ended.
  datatype Server = Serving | Unhooked | Exited

  datatype Pc =
    | Idle
    // start: the checks under the lock, the spawn, the two stores
    | StartCheck | StartFlag | StartSpawn | StartStore(th: nat) | StartMark
    // stop: take the runtime, raise the flag, unlock, send, join, lower the flag
    | StopTake | StopMark(th: nat) | StopUnlock(th: nat) | StopSend(th: nat) | StopJoin(th: nat) | StopClear
    // a failed send returns early; dropping the runtime still joins its thread
    | DropJoin(th: nat)
    // status: is_running under the lock, then the two loads
    | StatusRunning | StatusStarted(running: bool) | StatusStopping(running: bool)

  // What the calls share: the runtime slot (a server thread), the flags, the lock, the
  // threads spawned so far and those joined. `wedged` remembers, for the proofs only, that a
  // send has failed; no step reads it (`Restart.FailureIsRemembered` says what it means).
  datatype Shared = Shared(
    runtime: Option<nat>, started: bool, stopping: bool, locked: bool,
    servers: seq<Server>, joined: set<nat>, wedged: bool)

  datatype Sys = Sys(sh: Shared, ops: map<nat, Pc>)

  const INIT := Sys(Shared(None, false, false, false, [], {}, false), map[])

  datatype Call = Start | Stop | Status

  datatype Action =
    | Begin(call: Call)              // waits for the lock
    | Advance(ok: bool)              // next step; `ok` is whether a spawn succeeds
    | ServerStep(th: nat)            // the server thread lets go of the channel, then ends

  function PcAt(s: Sys, t: nat): Pc {
    if t in s.ops then s.ops[t] else Idle
  }

  datatype Move = Move(sh: Shared, next: Pc)

  // Leave the call and release the lock.
  function Leave(sh: Shared): Move {
    Move(sh.(locked := false), Idle)
  }

  predicate Has(sh: Shared, th: nat, state: Server) {
    th < |sh.servers| && sh.servers[th] == state
  }

  function Entry(call: Call): Pc {
    match call
    case Start => StartCheck
    case Stop => StopTake
    case Status => StatusRunning
  }

  function Decide(sh: Shared, pc: Pc, ok: bool): Move {
    match pc
    case Idle => Move(sh, Idle)
    case StartCheck => if sh.runtime.Some? then Leave(sh) else Move(sh, StartFlag)
    case StartFlag => if sh.stopping then Leave(sh) else Move(sh, StartSpawn)
    case StartSpawn =>
      if ok then Move(sh.(servers := sh.servers + [Serving]), StartStore(|sh.servers|)) else Leave(sh)
    case StartStore(th) => Move(sh.(runtime := Some(th)), StartMark)
    case StartMark => Leave(sh.(started := true))
    case StopTake =>
      if sh.runtime.Some? then Move(sh.(runtime := None), StopMark(sh.runtime.value)) else Leave(sh)
    case StopMark(th) => Move(sh.(stopping := true), StopUnlock(th))
    case StopUnlock(th) => Move(sh.(locked := false), StopSend(th))
    case StopSend(th) =>
      if Has(sh, th, Serving) then Move(sh, StopJoin(th)) else Move(sh.(wedged := true), DropJoin(th))
    case StopJoin(th) => if Has(sh, th, Exited) then Move(sh.(joined := sh.joined + {th}), StopClear) else Move(sh, pc)
    case StopClear => Move(sh.(stopping := false), Idle)
    case DropJoin(th) => if Has(sh, th, Exited) then Move(sh.(joined := sh.joined + {th}), Idle) else Move(sh, pc)
    case StatusRunning => Move(sh, StatusStarted(sh.runtime.Some?))
    case StatusStarted(running) => if !sh.started then Leave(sh) else Move(sh, StatusStopping(running))
    case StatusStopping(_) => Leave(sh)
  }

  function After(s: Sys, t: nat, m: Move): Sys {
    Sys(m.sh, s.ops[t := m.next])
  }

  function Step(s: Sys, t: nat, a: Action): Sys {
    match a
    case Begin(call) =>
      if PcAt(s, t).Idle? && !s.sh.locked then After(s, t, Move(s.sh.(locked := true), Entry(call))) else s
    case Advance(ok) => After(s, t, Decide(s.sh, PcAt(s, t), ok))
    case ServerStep(th) =>
      if th < |s.sh.servers| then
        var next := if s.sh.servers[th].Serving? then Unhooked else Exited;
        s.(sh := s.sh.(servers := s.sh.servers[th := next]))
      else s
  }

  function Run(schedule: seq<(nat, Action)>): Sys
    decreases |schedule|
  {
    if schedule == [] then INIT
    else
      var (t, a) := schedule[|schedule| - 1];
      Step(Run(schedule[..|schedule| - 1]), t, a)
  }

  // ---------- what a program counter knows ----------

  predicate HoldsLock(pc: Pc) {
    !(pc.Idle? || pc.StopSend? || pc.StopJoin? || pc.StopClear? || pc.DropJoin?)
  }

  // Holds a server thread that is neither in the runtime slot nor joined.
  predicate Claims(pc: Pc, th: nat) {
    (pc.StartStore? || pc.StopMark? || pc.StopUnlock? || pc.StopSend? || pc.StopJoin? || pc.DropJoin?) && pc.th == th
  }

  // Calls that have a thread in hand or are past the stopping flag: at most one at a time.
  predicate Token(pc: Pc) {
    pc.StartStore? || pc.StopMark? || pc.StopClear? || pc.DropJoin? || Signalling(pc)
  }

  // A stop between its flag and its join.
  predicate Signalling(pc: Pc) {
    pc.StopUnlock? || pc.StopSend? || pc.StopJoin?
  }

  // A stop that will lower the flag, unless its send fails.
  predicate Lowers(pc: Pc) {
    Signalling(pc) || pc.StopClear?
  }

  predicate Live(sh: Shared, th: nat) {
    th < |sh.servers| && th !in sh.joined
  }

  predicate PcOk(sh: Shared, pc: Pc) {
    && (HoldsLock(pc) ==> sh.locked)
    && match pc
       case StartFlag => sh.runtime.None?
       case StartSpawn => sh.runtime.None? && !sh.stopping
       case StartStore(th) => sh.runtime.None? && !sh.stopping && Live(sh, th)
       case StartMark => sh.runtime.Some?
       case StopMark(th) => sh.runtime.None? && !sh.stopping && sh.started && Live(sh, th)
       case StopUnlock(th) => sh.stopping && !sh.wedged && Live(sh, th)
       case StopSend(th) => sh.stopping && !sh.wedged && Live(sh, th)
       case StopJoin(th) => sh.stopping && !sh.wedged && Live(sh, th)
       case StopClear => sh.stopping && !sh.wedged
       case DropJoin(th) => sh.stopping && sh.wedged && Live(sh, th)
       case StatusStarted(running) => running == sh.runtime.Some?
       case StatusStopping(running) => running == sh.runtime.Some? && sh.started
       case _ => true
  }

  predicate SharedOk(sh: Shared) {
    && !(sh.runtime.Some? && sh.stopping)
    && (sh.runtime.Some? ==> Live(sh, sh.runtime.value))
    && (sh.wedged ==> sh.stopping)
    && (sh.stopping ==> sh.started)
    && (forall th :: th in sh.joined ==> th < |sh.servers|)
  }

  // Two calls in progress at once: never two inside the lock, never two with a thread.
  predicate Compatible(p: Pc, q: Pc) {
    !(HoldsLock(p) && HoldsLock(q)) && !(Token(p) && Token(q))
  }

  lemma OwnStep(sh: Shared, pc: Pc, ok: bool)
    requires SharedOk(sh) && PcOk(sh, pc) && (pc.StopTake? && sh.runtime.Some? ==> sh.started)
    ensures SharedOk(Decide(sh, pc, ok).sh) && PcOk(Decide(sh, pc, ok).sh, Decide(sh, pc, ok).next)
  {
  }

  lemma OthersStep(sh: Shared, pc: Pc, ok: bool, other: Pc)
    requires SharedOk(sh) && PcOk(sh, pc) && PcOk(sh, other) && Compatible(pc, other)
    requires pc.StopTake? && sh.runtime.Some? ==> sh.started
    ensures PcOk(Decide(sh, pc, ok).sh, other) && Compatible(Decide(sh, pc, ok).next, other)
  {
  }

  // ---------- the invariant ----------

  predicate CallsOk(s: Sys) {
    && SharedOk(s.sh)
    && (forall t :: t in s.ops ==> PcOk(s.sh, s.ops[t]))
    && (forall t, u :: t in s.ops && u in s.ops && t != u ==> Compatible(s.ops[t], s.ops[u]))
  }

  predicate SomeLowers(s: Sys) { exists t :: t in s.ops && Lowers(s.ops[t]) }
  predicate SomeMarks(s: Sys) { exists t :: t in s.ops && s.ops[t].StartMark? }
  predicate SomeTakes(s: Sys) { exists t :: t in s.ops && s.ops[t].StopMark? }
  predicate SomeHolds(s: Sys) { exists t :: t in s.ops && HoldsLock(s.ops[t]) }
  predicate SomeClaims(s: Sys, th: nat) { exists t :: t in s.ops && Claims(s.ops[t], th) }

  // Every flag that is up, and every thread that is not joined, is some call's duty.
  predicate DutiesOk(s: Sys) {
    && (s.sh.stopping ==> s.sh.wedged || SomeLowers(s))
    && (s.sh.runtime.Some? && !s.sh.started ==> SomeMarks(s))
    && (s.sh.locked ==> SomeHolds(s))
  }

  ghost predicate ThreadsOk(s: Sys) {
    forall th: nat :: Live(s.sh, th) ==> s.sh.runtime == Some(th) || SomeClaims(s, th)
  }

  ghost predicate Inv(s: Sys) {
    CallsOk(s) && DutiesOk(s) && ThreadsOk(s)
  }

  // Only a marked runtime can be taken: whoever would still mark it holds the lock.
  lemma TakenIsMarked(s: Sys, t: nat)
    requires CallsOk(s) && DutiesOk(s)
    ensures PcAt(s, t).StopTake? && s.sh.runtime.Some? ==> s.sh.started
  {
    forall u | u in s.ops && s.ops[u].StartMark? ensures !PcAt(s, t).StopTake? {
      assert t in s.ops && t != u ==> Compatible(s.ops[t], s.ops[u]);
    }
  }

  lemma CallsAdvance(s: Sys, t: nat, ok: bool)
    requires CallsOk(s) && DutiesOk(s)
    ensures CallsOk(After(s, t, Decide(s.sh, PcAt(s, t), ok)))
  {
    var pc := PcAt(s, t);
    var m := Decide(s.sh, pc, ok);
    var s' := After(s, t, m);
    TakenIsMarked(s, t);
    OwnStep(s.sh, pc, ok);
    forall u | u in s'.ops && u != t ensures PcOk(s'.sh, s'.ops[u]) && Compatible(m.next, s'.ops[u]) {
      OthersStep(s.sh, pc, ok, s.ops[u]);
    }
  }

  // A duty held elsewhere stays; one's own stays if the next program counter still has it.
  lemma StoppingAdvance(s: Sys, t: nat, ok: bool)
    requires CallsOk(s) && (s.sh.stopping ==> s.sh.wedged || SomeLowers(s))
    ensures var s' := After(s, t, Decide(s.sh, PcAt(s, t), ok));
            s'.sh.stopping ==> s'.sh.wedged || SomeLowers(s')
  {
    var m := Decide(s.sh, PcAt(s, t), ok);
    var s' := After(s, t, m);
    assert s'.ops[t] == m.next;
    if s.sh.stopping && !s.sh.wedged && !m.sh.wedged {
      var u :| u in s.ops && Lowers(s.ops[u]);
      assert m.sh.stopping ==> Lowers(s'.ops[u]);
    } else {
      assert m.sh.stopping && !m.sh.wedged ==> Lowers(s'.ops[t]);
    }
  }

  lemma MarkAdvance(s: Sys, t: nat, ok: bool)
    requires CallsOk(s) && (s.sh.runtime.Some? && !s.sh.started ==> SomeMarks(s))
    ensures var s' := After(s, t, Decide(s.sh, PcAt(s, t), ok));
            s'.sh.runtime.Some? && !s'.sh.started ==> SomeMarks(s')
  {
    var m := Decide(s.sh, PcAt(s, t), ok);
    var s' := After(s, t, m);
    assert s'.ops[t] == m.next;
    if s.sh.runtime.Some? && !s.sh.started {
      var u :| u in s.ops && s.ops[u].StartMark?;
      assert !m.sh.started ==> s'.ops[u].StartMark?;
    } else {
      assert m.sh.runtime.Some? && !m.sh.started ==> s'.ops[t].StartMark?;
    }
  }

  lemma LockAdvance(s: Sys, t: nat, ok: bool)
    requires CallsOk(s) && (s.sh.locked ==> SomeHolds(s))
    ensures var s' := After(s, t, Decide(s.sh, PcAt(s, t), ok));
            s'.sh.locked ==> SomeHolds(s')
  {
    var m := Decide(s.sh, PcAt(s, t), ok);
    var s' := After(s, t, m);
    assert s'.ops[t] == m.next;
    if s.sh.locked {
      var u :| u in s.ops && HoldsLock(s.ops[u]);
      assert m.sh.locked ==> HoldsLock(s'.ops[u]);
    }
  }

  lemma ThreadsAdvance(s: Sys, t: nat, ok: bool)
    requires CallsOk(s) && ThreadsOk(s)
    ensures ThreadsOk(After(s, t, Decide(s.sh, PcAt(s, t), ok)))
  {
    var m := Decide(s.sh, PcAt(s, t), ok);
    var s' := After(s, t, m);
    assert s'.ops == s.ops[t := m.next];
    forall th: nat | Live(m.sh, th) && m.sh.runtime != Some(th) ensures SomeClaims(s', th) {
      ClaimMoves(s.sh, PcAt(s, t), ok, th);
      if Claims(m.next, th) {
        assert Claims(s'.ops[t], th);
      } else {
        var u :| u in s.ops && Claims(s.ops[u], th);
        assert Claims(s'.ops[u], th);
      }
    }
  }

  // A thread that is neither joined nor in the slot after a step is claimed by the stepping
  // call, or was already claimed by another.
  lemma ClaimMoves(sh: Shared, pc: Pc, ok: bool, th: nat)
    requires PcOk(sh, pc)
    requires var m := Decide(sh, pc, ok); Live(m.sh, th) && m.sh.runtime != Some(th)
    ensures var m := Decide(sh, pc, ok);
            Claims(m.next, th) || (Live(sh, th) && sh.runtime != Some(th) && !Claims(pc, th))
  {
  }

  lemma InvAfterBegin(s: Sys, t: nat, call: Call)
    requires Inv(s)
    ensures Inv(Step(s, t, Begin(call)))
  {
    var s' := Step(s, t, Begin(call));
    if s' != s {
      assert s'.ops[t] == Entry(call) && HoldsLock(s'.ops[t]);
      forall u | u in s'.ops && u != t ensures PcOk(s'.sh, s'.ops[u]) && Compatible(s'.ops[t], s'.ops[u]) {
        assert PcOk(s.sh, s.ops[u]);
      }
      if s.sh.stopping && !s.sh.wedged {
        var u :| u in s.ops && Lowers(s.ops[u]);
        assert Lowers(s'.ops[u]);
      }
      forall u | u in s.ops ensures !s.ops[u].StartMark? {
        assert PcOk(s.sh, s.ops[u]);
      }
      forall th: nat | Live(s'.sh, th) && s.sh.runtime != Some(th) ensures SomeClaims(s', th) {
        assert Live(s.sh, th);
        var u :| u in s.ops && Claims(s.ops[u], th);
        assert Claims(s'.ops[u], th);
      }
    }
  }

  lemma InvAfterServer(s: Sys, t: nat, th: nat)
    requires Inv(s)
    ensures Inv(Step(s, t, ServerStep(th)))
  {
    var s' := Step(s, t, ServerStep(th));
    assert s'.ops == s.ops && |s'.sh.servers| == |s.sh.servers|;
    forall u | u in s'.ops ensures PcOk(s'.sh, s'.ops[u]) {
      assert PcOk(s.sh, s.ops[u]);
    }
    assert SomeLowers(s) == SomeLowers(s') && SomeMarks(s) == SomeMarks(s') && SomeHolds(s) == SomeHolds(s');
    forall k: nat | Live(s'.sh, k) ensures s'.sh.runtime == Some(k) || SomeClaims(s', k) {
      assert Live(s.sh, k) && SomeClaims(s, k) == SomeClaims(s', k);
    }
  }

  lemma StepKeeps(s: Sys, t: nat, a: Action)
    requires Inv(s)
    ensures Inv(Step(s, t, a))
  {
    match a
    case Begin(call) => InvAfterBegin(s, t, call);
    case Advance(ok) =>
      CallsAdvance(s, t, ok);
      StoppingAdvance(s, t, ok);
      MarkAdvance(s, t, ok);
      LockAdvance(s, t, ok);
      ThreadsAdvance(s, t, ok);
    case ServerStep(th) => InvAfterServer(s, t, th);
  }

  lemma {:induction false} RunKeeps(schedule: seq<(nat, Action)>)
    ensures Inv(Run(schedule))
    decreases |schedule|
  {
    if schedule != [] {
      var (t, a) := schedule[|schedule| - 1];
      RunKeeps(schedule[..|schedule| - 1]);
      StepKeeps(Run(schedule[..|schedule| - 1]), t, a);
    }
  }

  // ---------- what every run gives ----------

  lemma ClaimsAreOne(s: Sys, t: nat, u: nat, a: nat, b: nat)
    requires CallsOk(s) && t in s.ops && u in s.ops && Claims(s.ops[t], a) && Claims(s.ops[u], b)
    ensures a == b && s.sh.runtime.None?
  {
    assert PcOk(s.sh, s.ops[t]);
  }

  // However many calls race, at most one server thread is not joined.
  lemma OneServerThread(schedule: seq<(nat, Action)>, a: nat, b: nat)
    requires Live(Run(schedule).sh, a) && Live(Run(schedule).sh, b)
    ensures a == b
  {
    var s := Run(schedule);
    RunKeeps(schedule);
    forall t, u | t in s.ops && u in s.ops && Claims(s.ops[t], a) && Claims(s.ops[u], b) ensures a == b {
      ClaimsAreOne(s, t, u, a, b);
    }
    forall t, th | t in s.ops && Claims(s.ops[t], th) ensures s.sh.runtime.None? {
      ClaimsAreOne(s, t, t, th, th);
    }
  }

  // A runtime in the slot is a thread that is not joined, and never meets a stop in progress.
  lemma RuntimeExcludesStopping(schedule: seq<(nat, Action)>)
    ensures var sh := Run(schedule).sh;
            sh.runtime.Some? ==> !sh.stopping && Live(sh, sh.runtime.value)
  {
    RunKeeps(schedule);
  }

  datatype Phase = NeverStarted | Running | Stopping | Stopped

  // A runtime taken by a stop that has not raised its flag yet is still running.
  function PhaseOf(s: Sys): Phase {
    if !s.sh.started then NeverStarted
    else if s.sh.stopping then Stopping
    else if s.sh.runtime.Some? || SomeTakes(s) then Running
    else Stopped
  }

  predicate Follows(p: Phase, q: Phase) {
    || p == q
    || (p.NeverStarted? && q.Running?)
    || (p.Running? && q.Stopping?)
    || (p.Stopping? && q.Stopped?)
    || (p.Stopped? && q.Running?)
  }

  // Someone else's step does not touch a call that is about to raise the flag.
  lemma TakesMove(s: Sys, t: nat, a: Action)
    requires Inv(s)
    ensures SomeTakes(s) && !SomeTakes(Step(s, t, a)) ==> a.Advance? && PcAt(s, t).StopMark?
    ensures SomeTakes(Step(s, t, a)) && !SomeTakes(s) ==> a.Advance? && PcAt(s, t).StopTake? && s.sh.runtime.Some?
    ensures a.Advance? && PcAt(s, t).StopTake? && s.sh.runtime.Some? ==> SomeTakes(Step(s, t, a))
  {
    var s' := Step(s, t, a);
    assert t in s'.ops && s'.ops[t].StopMark? ==> SomeTakes(s');
    if SomeTakes(s) {
      var u :| u in s.ops && s.ops[u].StopMark?;
      if u != t {
        assert s'.ops[u].StopMark?;
      } else if !a.Advance? {
        assert s'.ops[u].StopMark?;
      }
    }
    if SomeTakes(s') {
      var u :| u in s'.ops && s'.ops[u].StopMark?;
      if u != t {
        assert s.ops[u].StopMark?;
      } else if !a.Advance? {
        assert s.ops[u].StopMark?;
      }
    }
  }

  // The phases go round one cycle: never started, running, stopping, stopped, running, ...
  lemma PhaseFollows(schedule: seq<(nat, Action)>, t: nat, a: Action)
    ensures Follows(PhaseOf(Run(schedule)), PhaseOf(Step(Run(schedule), t, a)))
  {
    var s := Run(schedule);
    RunKeeps(schedule);
    TakenIsMarked(s, t);
    TakesMove(s, t, a);
    if a.Advance? {
      var pc := PcAt(s, t);
      assert PcOk(s.sh, pc);
      if SomeTakes(s) {
        var u :| u in s.ops && s.ops[u].StopMark?;
        assert PcOk(s.sh, s.ops[u]);
        if u != t {
          assert Compatible(pc, s.ops[u]) || pc.Idle?;
        }
      }
    }
  }

  // What a status call answers at its step, if it answers there.
  function Report(sh: Shared, pc: Pc): Option<Phase> {
    match pc
    case StatusStarted(_) => if !sh.started then Some(NeverStarted) else None
    case StatusStopping(running) => Some(if sh.stopping then Stopping else if running then Running else Stopped)
    case _ => None
  }

  // A status call reads three things at three moments, and still answers the phase of the
  // moment it answers.
  lemma ReportIsPhase(schedule: seq<(nat, Action)>, t: nat)
    ensures var s := Run(schedule);
            Report(s.sh, PcAt(s, t)).Some? ==> Report(s.sh, PcAt(s, t)).value == PhaseOf(s)
  {
    var s := Run(schedule);
    RunKeeps(schedule);
    if Report(s.sh, PcAt(s, t)).Some? {
      assert PcOk(s.sh, s.ops[t]);
      if SomeTakes(s) {
        var u :| u in s.ops && s.ops[u].StopMark?;
        assert Compatible(s.ops[t], s.ops[u]);
      }
    }
  }
}
