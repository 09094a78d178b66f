/** Passive health: two counters that summarise everything ever observed of a backend. */
module PassiveHealth {
  import opened Prelude

  // What is observed: a success with the failures it allows, or a failure at a time with
  // the window it opens.
  datatype Obs = Success(allowed: int) | Failure(now: int, window: int)

  // Sixty-four-bit two's complement.
  const HALF := 0x8000_0000_0000_0000

  predicate Fits(x: int) {
    -HALF <= x < HALF
  }

  function Wrap(x: int): (r: int)
    ensures Fits(r) && (Fits(x) ==> r == x)
  {
    (x + HALF) % (2 * HALF) - HALF
  }

  datatype Health = Health(tolerance: int, nextWindow: int, tracked: bool)

  const FRESH := Health(0, 0, false)

  function Observed(h: Health, o: Obs): Health {
    match o
    case Success(allowed) => h.(tolerance := allowed, tracked := true)
    case Failure(now, window) => Health(Wrap(h.tolerance - 1), Wrap(now + window), true)
  }

  function After(history: seq<Obs>): Health {
    if history == [] then FRESH else Observed(After(history[..|history| - 1]), history[|history| - 1])
  }

  predicate IsHealthy(h: Health, t: int) {
    h.tolerance >= 0 || h.nextWindow <= t
  }

  // ---------- what the history says ----------

  // Failures since the last success.
  function Strikes(history: seq<Obs>): nat {
    if history == [] || history[|history| - 1].Success? then 0 else 1 + Strikes(history[..|history| - 1])
  }

  // What the last success allows; nothing before the first.
  function Allowance(history: seq<Obs>): int {
    if history == [] then 0
    else match history[|history| - 1]
      case Success(allowed) => allowed
      case Failure(_, _) => Allowance(history[..|history| - 1])
  }

  // When the window of the last failure ends.
  function LastWindowEnd(history: seq<Obs>): Option<int> {
    if history == [] then None
    else match history[|history| - 1]
      case Failure(now, window) => Some(now + window)
      case Success(_) => LastWindowEnd(history[..|history| - 1])
  }

  // Allowances are not negative, and no sum leaves sixty-four bits.
  predicate Sane(history: seq<Obs>) {
    && |history| < HALF
    && forall i :: 0 <= i < |history| ==>
         match history[i]
         case Success(allowed) => 0 <= allowed < HALF
         case Failure(now, window) => Fits(now + window)
  }

  lemma {:induction false} CountersSummarise(history: seq<Obs>)
    requires Sane(history)
    ensures Strikes(history) <= |history|
    ensures 0 <= Allowance(history) < HALF
    ensures After(history).tolerance == Allowance(history) - Strikes(history)
    ensures After(history).nextWindow == if LastWindowEnd(history).Some? then LastWindowEnd(history).value else 0
    ensures LastWindowEnd(history).None? ==> Strikes(history) == 0
    ensures After(history).tracked <==> history != []
  {
    if history != [] {
      CountersSummarise(history[..|history| - 1]);
    }
  }

  // The failures since the last success are no more than that success allowed, or the window
  // of the last failure has ended.
  predicate FitAt(history: seq<Obs>, t: int) {
    || Strikes(history) <= Allowance(history)
    || (LastWindowEnd(history).Some? && LastWindowEnd(history).value <= t)
  }

  // The counters say so exactly.
  lemma HealthyIff(history: seq<Obs>, t: int)
    requires Sane(history)
    ensures IsHealthy(After(history), t) <==> FitAt(history, t)
  {
    CountersSummarise(history);
  }

  // ---------- the shared state ----------

  class PassiveHealthState {
    var tolerance: int
    var nextWindow: int
    var tracked: bool
    ghost var history: seq<Obs>

    ghost predicate Valid() reads this {
      Health(tolerance, nextWindow, tracked) == After(history)
    }

    constructor ()
      ensures Valid() && history == []
    {
      tolerance, nextWindow, tracked, history := 0, 0, false, [];
    }

    method ObserveFailure(until: int)
      modifies this
      ensures tolerance == Wrap(old(tolerance) - 1) && nextWindow == until
      ensures tracked == old(tracked) && history == old(history)
    {
      tolerance := Wrap(tolerance - 1);
      nextWindow := until;
    }

    method ObserveSuccess(allowed: int)
      modifies this
      ensures tolerance == allowed && nextWindow == old(nextWindow)
      ensures tracked == old(tracked) && history == old(history)
    {
      tolerance := allowed;
    }

    method MarkTracked()
      modifies this
      ensures tracked && tolerance == old(tolerance) && nextWindow == old(nextWindow) && history == old(history)
    {
      tracked := true;
    }

    predicate Healthy(now: int) reads this {
      tolerance >= 0 || nextWindow <= now
    }

    // One observation by the health check.
    method ObserveBackendHealth(success: bool, now: int, window: int, maxAttempts: int)
      requires Valid()
      modifies this
      ensures Valid()
      ensures history == old(history) + [if success then Success(maxAttempts) else Failure(now, window)]
    {
      ghost var o := if success then Success(maxAttempts) else Failure(now, window);
      assert (history + [o])[..|history|] == history;
      MarkTracked();
      if success {
        ObserveSuccess(maxAttempts);
      } else {
        ObserveFailure(Wrap(now + window));
      }
      history := history + [o];
    }
  }
}
