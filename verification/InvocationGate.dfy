// The console's invocation gate.

module InvocationGates {
  // A sliding 60-second rate limit combined with a bounded semaphore, used by
  // handler threads that race for one lock and may raise at any point. Time is a
  // real number of seconds.

  const WINDOW: real := 60.0

  datatype Limits = Limits(concurrent: nat, perMinute: nat)

  // ---- The gate itself -------------------------------------------------

  // The pop loop only ever looks at the front of the deque.
  function Evict(history: seq<real>, now: real): seq<real> {
    if history != [] && history[0] <= now - WINDOW then Evict(history[1..], now) else history
  }

  // What survives is a suffix; everything dropped had left the window.
  lemma {:induction false} EvictLeavesSuffix(history: seq<real>, now: real)
    ensures var kept := Evict(history, now);
            && |kept| <= |history|
            && (forall i :: 0 <= i < |kept| ==> kept[i] == history[|history| - |kept| + i])
            && (forall i :: 0 <= i < |history| - |kept| ==> history[i] <= now - WINDOW)
            && (kept != [] ==> kept[0] > now - WINDOW)
  {
    if history != [] && history[0] <= now - WINDOW {
      EvictLeavesSuffix(history[1..], now);
    }
  }

  // The readings of a history that the window still covers, wherever they sit.
  function Fresh(history: seq<real>, now: real): (recent: seq<real>)
    ensures |recent| <= |history|
    ensures forall r :: r in recent <==> r in history && r > now - WINDOW
  {
    if history == [] then []
    else (if history[0] > now - WINDOW then [history[0]] else []) + Fresh(history[1..], now)
  }

  ghost predicate Ordered(history: seq<real>) {
    forall i, j :: 0 <= i < j < |history| ==> history[i] <= history[j]
  }

  datatype GateState = GateState(history: seq<real>, inUse: nat)

  function Admit(lim: Limits, g: GateState, now: real): (r: (GateState, bool)) {
    var kept := Evict(g.history, now);
    if |kept| < lim.perMinute && g.inUse < lim.concurrent
    then (GateState(kept + [now], g.inUse + 1), true)
    else (GateState(kept, g.inUse), false)
  }

  // Where an exception strikes inside acquire(), if one does: after some of the
  // pops, or when the slot is taken and the reading not yet appended. Striking
  // after the append is striking a handler that was admitted.
  datatype Strike = Never | AfterPops(n: nat) | WithSlot

  datatype Answer = Granted | Refused | Raised

  function PopSome(history: seq<real>, now: real, n: nat): seq<real> {
    if n > 0 && history != [] && history[0] <= now - WINDOW then PopSome(history[1..], now, n - 1) else history
  }

  // One call of acquire() inside the lock, which `with` releases however it ends.
  function Attempt(lim: Limits, g: GateState, now: real, strike: Strike): (GateState, Answer) {
    var (after, ok) := Admit(lim, g, now);
    match strike
    case AfterPops(n) => (g.(history := PopSome(g.history, now, n)), Raised)
    case WithSlot => if ok then (GateState(Evict(g.history, now), g.inUse + 1), Raised) else (after, Refused)
    case Never => (after, if ok then Granted else Refused)
  }

  class InvocationGate {
    const limits: Limits
    var slots: nat          // permits left in the bounded semaphore
    var history: seq<real>

    ghost predicate Valid()
      reads this
    {
      slots <= limits.concurrent
    }

    ghost function State(): GateState
      requires Valid()
      reads this
    {
      GateState(history, limits.concurrent - slots)
    }

    constructor (concurrent: nat, perMinute: nat)
      ensures Valid() && limits == Limits(concurrent, perMinute)
      ensures State() == GateState([], 0)
    {
      limits := Limits(concurrent, perMinute);
      slots := concurrent;
      history := [];
    }

    // The critical section of acquire(); `now` was read before the lock was taken.
    method Acquire(now: real, strike: Strike) returns (answer: Answer)
      requires Valid()
      modifies this`slots, this`history
      ensures Valid()
      ensures (State(), answer) == Attempt(limits, old(State()), now, strike)
    {
      var popped: nat := 0;
      while history != [] && history[0] <= now - WINDOW && strike != AfterPops(popped)
        invariant Valid() && slots == old(slots)
        invariant Evict(history, now) == Evict(old(history), now)
        invariant strike.AfterPops? ==> popped <= strike.n
        invariant strike.AfterPops? ==> PopSome(history, now, strike.n - popped) == PopSome(old(history), now, strike.n)
        decreases |history|
      {
        history := history[1..];
        popped := popped + 1;
      }
      if strike.AfterPops? {
        return Raised;
      }
      if |history| >= limits.perMinute {
        return Refused;
      }
      if slots == 0 {
        return Refused;
      }
      slots := slots - 1;
      if strike == WithSlot {
        return Raised;
      }
      history := history + [now];
      answer := Granted;
    }

    // BoundedSemaphore.release raises when every permit is already back.
    method Release() returns (raised: bool)
      requires Valid()
      modifies this`slots
      ensures Valid()
      ensures raised <==> old(State()).inUse == 0
      ensures State() == if raised then old(State()) else old(State()).(inUse := old(State()).inUse - 1)
    {
      if slots < limits.concurrent {
        slots := slots + 1;
        raised := false;
      } else {
        raised := true;
      }
    }
  }

  datatype Outcome = Returned | Rejected | Failed

  // Where exceptions strike one POST: in the checks, inside acquire(), between its
  // return and the setting of the flag, in the work, in the finally block before
  // the release.
  datatype Fate = Fate(checks: Outcome, strike: Strike, beforeFlag: bool, work: Outcome, beforeRelease: bool)

  // The acquire/release skeleton of one POST, run without interference. The slots
  // in use afterwards are the slots in use before, unless the slot was taken and
  // either the flag does not say so or the release is not reached; only a request
  // that reached the gate touches its history.
  method DoPost(gate: InvocationGate, now: real, f: Fate) returns (status: nat)
    requires gate.Valid()
    modifies gate
    ensures gate.Valid()
    ensures var lost := && f.checks == Returned && Admit(gate.limits, old(gate.State()), now).1
                        && (f.strike == WithSlot || (f.strike == Never && (f.beforeFlag || f.beforeRelease)));
            gate.State().inUse == old(gate.State()).inUse + (if lost then 1 else 0)
    ensures gate.history == if f.checks != Returned then old(gate.history)
                            else Attempt(gate.limits, old(gate.State()), now, f.strike).0.history
    ensures status == 200 <==>
            && f.checks == Returned && Attempt(gate.limits, old(gate.State()), now, f.strike).1 == Granted
            && !f.beforeFlag && f.work == Returned
    ensures status == 429 <==>
            f.checks == Returned && Attempt(gate.limits, old(gate.State()), now, f.strike).1 == Refused
  {
    var acquired := false;
    status := 502;
    if f.checks == Rejected {
      status := 403;
    } else if f.checks == Returned {
      var answer := gate.Acquire(now, f.strike);
      if answer == Refused {
        status := 429;
      } else if answer == Granted && !f.beforeFlag {
        acquired := true;
        status := if f.work == Returned then 200 else 502;
      }
    }
    if acquired && !f.beforeRelease {
      var raised := gate.Release();
      assert !raised;
    }
  }

  // When readings arrive in order, popping the front is the same as dropping
  // every reading outside the window.
  lemma {:induction false} OrderedEvictionIsExact(history: seq<real>, now: real)
    requires Ordered(history)
    ensures Evict(history, now) == Fresh(history, now)
  {
    if history != [] {
      OrderedEvictionIsExact(history[1..], now);
      if history[0] > now - WINDOW {
        OrderedFreshKeepsAll(history[1..], history[0], now);
      }
    }
  }

  lemma {:induction false} OrderedFreshKeepsAll(rest: seq<real>, first: real, now: real)
    requires Ordered(rest) && first > now - WINDOW
    requires forall i :: 0 <= i < |rest| ==> first <= rest[i]
    ensures Fresh(rest, now) == rest
  {
    if rest != [] {
      OrderedFreshKeepsAll(rest[1..], first, now);
    }
  }

  // Out of order, the gate can only refuse more: it never forgets a reading the
  // window still covers. It may remember one the window has left behind.
  lemma {:induction false} EvictionNeverForgetsFreshReadings(history: seq<real>, now: real)
    ensures Fresh(Evict(history, now), now) == Fresh(history, now)
  {
    if history != [] && history[0] <= now - WINDOW {
      EvictionNeverForgetsFreshReadings(history[1..], now);
    }
  }

  // No reading that the window has left behind stands behind one that it covers.
  ghost predicate FreshLast(history: seq<real>, now: real) {
    forall i, j :: 0 <= i < j < |history| && history[i] > now - WINDOW ==> history[j] > now - WINDOW
  }

  // Popping the front is dropping every reading outside the window exactly when
  // no stale reading stands behind a fresh one.
  lemma {:induction false} EvictionIsExactIff(history: seq<real>, now: real)
    ensures Evict(history, now) == Fresh(history, now) <==> FreshLast(history, now)
  {
    if history != [] {
      var rest := history[1..];
      EvictionIsExactIff(rest, now);
      assert forall k :: 0 <= k < |rest| ==> rest[k] == history[k + 1];
      if history[0] > now - WINDOW {
        if FreshLast(history, now) {
          AllFresh(history, now);
        }
      } else {
        assert FreshLast(rest, now) ==> FreshLast(history, now);
      }
    }
  }

  lemma {:induction false} AllFresh(history: seq<real>, now: real)
    requires forall i :: 0 <= i < |history| ==> history[i] > now - WINDOW
    ensures Fresh(history, now) == history
  {
    if history != [] {
      AllFresh(history[1..], now);
    }
  }

  // The readings a caller at `now` finds in its way although the window has left
  // them behind: the stale ones behind a fresh one.
  ghost function StaleBehind(history: seq<real>, now: real): set<int> {
    set j | 0 <= j < |history| && history[j] <= now - WINDOW && exists i :: 0 <= i < j && history[i] > now - WINDOW
  }

  // The length the limiter compares is the true count plus those.
  lemma {:induction false} EvictionCounts(history: seq<real>, now: real)
    ensures |Evict(history, now)| == |Fresh(history, now)| + |StaleBehind(history, now)|
  {
    var n := |history| - 1;
    if n < 0 {
      assert StaleBehind(history, now) == {};
    } else {
      var front, last := history[..n], history[n];
      EvictionCounts(front, now);
      assert history == front + [last];
      FreshConcat(front, [last], now);
      assert [last][1..] == [];
      EvictSnoc(front, last, now);
      BehindSnoc(front, last, now);
    }
  }

  lemma {:induction false} EvictSnoc(front: seq<real>, last: real, now: real)
    ensures Evict(front + [last], now)
            == if Evict(front, now) != [] then Evict(front, now) + [last]
               else if last > now - WINDOW then [last] else []
  {
    if front == [] {
      assert (front + [last])[1..] == [];
    } else {
      assert (front + [last])[1..] == front[1..] + [last];
      if front[0] <= now - WINDOW {
        EvictSnoc(front[1..], last, now);
      }
    }
  }

  lemma BehindSnoc(front: seq<real>, last: real, now: real)
    ensures StaleBehind(front + [last], now)
            == StaleBehind(front, now) + (if Evict(front, now) != [] && last <= now - WINDOW then {|front|} else {})
  {
    var h := front + [last];
    EvictLeavesSuffix(front, now);
    assert forall i :: 0 <= i < |front| ==> h[i] == front[i];
    if Evict(front, now) != [] {
      assert front[|front| - |Evict(front, now)|] > now - WINDOW;
    }
    assert forall j :: j in StaleBehind(h, now) && j < |front| ==> j in StaleBehind(front, now);
  }

  // A caller is wrongly refused when a slot is free and fewer than `perMinute`
  // readings are in the window.
  predicate WronglyRefused(lim: Limits, g: GateState, now: real) {
    g.inUse < lim.concurrent && |Fresh(g.history, now)| < lim.perMinute && !Admit(lim, g, now).1
  }

  // That happens exactly when the stale readings behind fresh ones fill what is
  // left of the rate; admitting is never wrong.
  lemma WronglyRefusedIff(lim: Limits, g: GateState, now: real)
    ensures WronglyRefused(lim, g, now) <==>
            && g.inUse < lim.concurrent
            && |Fresh(g.history, now)| < lim.perMinute <= |Fresh(g.history, now)| + |StaleBehind(g.history, now)|
    ensures WronglyRefused(lim, g, now) ==> !FreshLast(g.history, now) && lim.perMinute >= 2
    ensures Admit(lim, g, now).1 ==> g.inUse < lim.concurrent && |Fresh(g.history, now)| < lim.perMinute
  {
    EvictionCounts(g.history, now);
    EvictionIsExactIff(g.history, now);
    if WronglyRefused(lim, g, now) {
      var kept := Evict(g.history, now);
      EvictLeavesSuffix(g.history, now);
      EvictionNeverForgetsFreshReadings(g.history, now);
      assert kept[0] in Fresh(kept, now);
    }
  }

  // ---- Handler threads ---------------------------------------------------

  // Where one do_POST call stands. An `acquired` argument is the handler's local
  // flag, which the `finally` block consults.
  datatype Phase =
    | Checking                      // validating the request
    | Timed(now: real)              // clock read, lock not yet held
    | Admitted                      // acquire() returned True, flag not yet set
    | Working                       // flag set, invoking the runtime and replying
    | Recovering(acquired: bool)    // inside one of the except blocks
    | Finalising(acquired: bool)    // about to run the finally block
    | Done

  datatype Acceptance = Acceptance(lockTime: real, reading: real)

  datatype System = System(
    clock: real,
    gate: GateState,
    handlers: map<nat, Phase>,
    log: seq<Acceptance>,           // every admission so far
    overReleased: bool)             // a release that BoundedSemaphore refused

  datatype Step =
    | Tick(dt: real)
    | Arrive(h: nat)
    | ReadClock(h: nat)
    | EnterLock(h: nat, strike: Strike)
    | SetFlag(h: nat)
    | Finish(h: nat)
    | Raise(h: nat)                 // an exception that an except clause takes
    | Escape(h: nat)                // an exception that none takes, or one in an except block
    | Recovered(h: nat)             // the except block ends
    | RunFinally(h: nat)
    | Abandon(h: nat)               // an exception in the finally block, before the release

  ghost predicate Enabled(s: System, step: Step, delta: real) {
    match step
    case Tick(dt) => dt >= 0.0
    case Arrive(h) => h !in s.handlers
    case ReadClock(h) => h in s.handlers && s.handlers[h] == Checking
    case EnterLock(h, _) => h in s.handlers && s.handlers[h].Timed? && s.clock - s.handlers[h].now <= delta
    case SetFlag(h) => h in s.handlers && s.handlers[h] == Admitted
    case Finish(h) => h in s.handlers && s.handlers[h] == Working
    case Raise(h) => h in s.handlers && InBody(s.handlers[h])
    case Escape(h) => h in s.handlers && (InBody(s.handlers[h]) || s.handlers[h].Recovering?)
    case Recovered(h) => h in s.handlers && s.handlers[h].Recovering?
    case RunFinally(h) => h in s.handlers && s.handlers[h].Finalising?
    case Abandon(h) => h in s.handlers && s.handlers[h].Finalising?
  }

  // Inside the try block, from the first check to the end of the reply.
  ghost predicate InBody(p: Phase) { p == Checking || p.Timed? || p == Admitted || p == Working }

  ghost predicate FlagSet(p: Phase) {
    p == Working || (p.Recovering? && p.acquired) || (p.Finalising? && p.acquired)
  }

  ghost function Apply(lim: Limits, s: System, step: Step, delta: real): System
    requires Enabled(s, step, delta)
  {
    match step
    case Tick(dt) => s.(clock := s.clock + dt)
    case Arrive(h) => s.(handlers := s.handlers[h := Checking])
    case ReadClock(h) => s.(handlers := s.handlers[h := Timed(s.clock)])
    case EnterLock(h, strike) =>
      var now := s.handlers[h].now;
      var (gate, answer) := Attempt(lim, s.gate, now, strike);
      if answer == Granted
      then s.(gate := gate, handlers := s.handlers[h := Admitted],
              log := s.log + [Acceptance(s.clock, now)])
      else s.(gate := gate, handlers := s.handlers[h := Recovering(false)])
    case SetFlag(h) => s.(handlers := s.handlers[h := Working])
    case Finish(h) => s.(handlers := s.handlers[h := Finalising(true)])
    case Raise(h) => s.(handlers := s.handlers[h := Recovering(FlagSet(s.handlers[h]))])
    case Escape(h) => s.(handlers := s.handlers[h := Finalising(FlagSet(s.handlers[h]))])
    case Recovered(h) => s.(handlers := s.handlers[h := Finalising(s.handlers[h].acquired)])
    case RunFinally(h) =>
      var after := s.handlers[h := Done];
      if !s.handlers[h].acquired then s.(handlers := after)
      else if s.gate.inUse == 0 then s.(handlers := after, overReleased := true)
      else s.(handlers := after, gate := s.gate.(inUse := s.gate.inUse - 1))
    case Abandon(h) => s.(handlers := s.handlers[h := Done])
  }

  // An exception may strike anywhere before the finally block, and one that no clause
  // takes in the except blocks too; and a handler is done only by its finally block.
  lemma ExceptionsStrikeAnywhere(lim: Limits, s: System, h: nat, delta: real)
    requires h in s.handlers
    ensures Enabled(s, Raise(h), delta)
            <==> s.handlers[h] != Done && !s.handlers[h].Recovering? && !s.handlers[h].Finalising?
    ensures Enabled(s, Escape(h), delta) <==> s.handlers[h] != Done && !s.handlers[h].Finalising?
    ensures forall step :: Enabled(s, step, delta) && h in Apply(lim, s, step, delta).handlers
                           && s.handlers[h] != Done && Apply(lim, s, step, delta).handlers[h] == Done
                           ==> s.handlers[h].Finalising? && step in {RunFinally(h), Abandon(h)}
  {
  }

  // The steps at which a slot is lost: an exception that strikes between the slot
  // being taken and the flag being set, or between the flag and the release.
  ghost predicate Leaks(lim: Limits, s: System, step: Step, delta: real)
    requires Enabled(s, step, delta)
  {
    match step
    case EnterLock(h, strike) => strike == WithSlot && Admit(lim, s.gate, s.handlers[h].now).1
    case Raise(h) => s.handlers[h] == Admitted
    case Escape(h) => s.handlers[h] == Admitted
    case Abandon(h) => s.handlers[h].acquired
    case _ => false
  }

  ghost const Initial: System := System(0.0, GateState([], 0), map[], [], false)

  // A run is a schedule: any interleaving of enabled steps.
  ghost predicate Runs(lim: Limits, s: System, steps: seq<Step>, delta: real, t: System)
    decreases |steps|
  {
    if steps == [] then s == t
    else Enabled(s, steps[0], delta) && Runs(lim, Apply(lim, s, steps[0], delta), steps[1..], delta, t)
  }

  // The state the k-th step of a run is taken from.
  ghost function StateAt(lim: Limits, s: System, steps: seq<Step>, delta: real, k: nat): System
    decreases k
  {
    if k == 0 || steps == [] || !Enabled(s, steps[0], delta) then s
    else StateAt(lim, Apply(lim, s, steps[0], delta), steps[1..], delta, k - 1)
  }

  // How often the steps of a run lose a slot.
  ghost function Losses(lim: Limits, s: System, steps: seq<Step>, delta: real): nat
    decreases |steps|
  {
    if steps == [] || !Enabled(s, steps[0], delta) then 0
    else (if Leaks(lim, s, steps[0], delta) then 1 else 0)
         + Losses(lim, Apply(lim, s, steps[0], delta), steps[1..], delta)
  }

  // A handler owns a slot from the moment acquire() succeeds until its finally.
  ghost predicate Holds(p: Phase) { p == Admitted || FlagSet(p) }

  ghost function Holders(s: System): set<nat> { set h | h in s.handlers && Holds(s.handlers[h]) }

  // ---- What every step keeps ---------------------------------------------

  ghost predicate SlotInv(lim: Limits, s: System, lost: nat) {
    s.gate.inUse == |Holders(s)| + lost && s.gate.inUse <= lim.concurrent && !s.overReleased
  }

  // The deque is a suffix of the admissions, and what has left it was already
  // outside the window.
  ghost predicate SuffixInv(history: seq<real>, log: seq<Acceptance>, clock: real) {
    var gone := |log| - |history|;
    && gone >= 0
    && (forall i :: gone <= i < |log| ==> log[i].reading == history[i - gone])
    && (forall i :: 0 <= i < gone ==> log[i].reading <= clock - WINDOW)
  }

  ghost predicate LogInv(log: seq<Acceptance>, clock: real, delta: real) {
    && (forall i :: 0 <= i < |log| ==> log[i].reading <= log[i].lockTime <= clock)
    && (forall i :: 0 <= i < |log| ==> log[i].lockTime - log[i].reading <= delta)
    && (forall i, j :: 0 <= i < j < |log| ==> log[i].lockTime <= log[j].lockTime)
  }

  // An admission is granted only once the one `perMinute` places back has left
  // the window.
  ghost predicate Spaced(log: seq<Acceptance>, perMinute: nat) {
    && (perMinute == 0 ==> log == [])
    && forall i :: 0 <= i < |log| - perMinute ==> log[i].reading <= log[i + perMinute].lockTime - WINDOW
  }

  ghost predicate TimedInv(s: System) {
    forall h :: h in s.handlers && s.handlers[h].Timed? ==> s.handlers[h].now <= s.clock
  }

  ghost predicate RateInv(lim: Limits, s: System, delta: real) {
    && SuffixInv(s.gate.history, s.log, s.clock) && LogInv(s.log, s.clock, delta)
    && Spaced(s.log, lim.perMinute) && TimedInv(s)
  }

  lemma StepKeepsSlots(lim: Limits, s: System, step: Step, delta: real, lost: nat)
    requires SlotInv(lim, s, lost) && Enabled(s, step, delta)
    ensures SlotInv(lim, Apply(lim, s, step, delta), lost + (if Leaks(lim, s, step, delta) then 1 else 0))
  {
    var t := Apply(lim, s, step, delta);
    if step.Tick? {
      assert Holders(t) == Holders(s);
    } else {
      HolderCount(s, t, step.h);
    }
  }

  // Changing one handler's phase changes the number of holders by that handler.
  lemma HolderCount(s: System, t: System, h: nat)
    requires h in t.handlers && t.handlers == s.handlers[h := t.handlers[h]]
    ensures |Holders(t)| == |Holders(s)|
                            - (if h in s.handlers && Holds(s.handlers[h]) then 1 else 0)
                            + (if Holds(t.handlers[h]) then 1 else 0)
    ensures h in s.handlers && Holds(s.handlers[h]) ==> |Holders(s)| > 0
  {
    assert Holders(t) - {h} == Holders(s) - {h};
    OneElement(Holders(s), Holders(t), h);
  }

  lemma OneElement(a: set<nat>, b: set<nat>, h: nat)
    requires a - {h} == b - {h}
    ensures |b| == |a| - (if h in a then 1 else 0) + (if h in b then 1 else 0)
    ensures h in a ==> |a| > 0
  {
    var others := a - {h};
    assert h in a ==> a == others + {h};
    assert h !in a ==> a == others;
    assert h in b ==> b == others + {h};
    assert h !in b ==> b == others;
  }

  lemma StepKeepsRate(lim: Limits, s: System, step: Step, delta: real)
    requires RateInv(lim, s, delta) && Enabled(s, step, delta)
    ensures RateInv(lim, Apply(lim, s, step, delta), delta)
  {
    if step.EnterLock? {
      EnterLockKeepsRate(lim, s, step.h, step.strike, delta);
    } else {
      OtherStepsKeepRate(lim, s, step, delta);
    }
  }

  lemma OtherStepsKeepRate(lim: Limits, s: System, step: Step, delta: real)
    requires RateInv(lim, s, delta) && Enabled(s, step, delta) && !step.EnterLock?
    ensures RateInv(lim, Apply(lim, s, step, delta), delta)
  {
    var t := Apply(lim, s, step, delta);
    OtherStepsKeepHistory(lim, s, step, delta);
    assert LogInv(t.log, t.clock, delta);
    forall h | h in t.handlers && t.handlers[h].Timed?
      ensures t.handlers[h].now <= t.clock
    {
    }
  }

  lemma OtherStepsKeepHistory(lim: Limits, s: System, step: Step, delta: real)
    requires Enabled(s, step, delta) && !step.EnterLock?
    ensures var t := Apply(lim, s, step, delta);
            && t.log == s.log && t.gate.history == s.gate.history && t.clock >= s.clock
            && forall h :: h in t.handlers && t.handlers[h].Timed? ==>
                 t.handlers[h] == Timed(s.clock) || (h in s.handlers && t.handlers[h] == s.handlers[h])
  {
  }

  lemma EnterLockKeepsRate(lim: Limits, s: System, h: nat, strike: Strike, delta: real)
    requires RateInv(lim, s, delta) && Enabled(s, EnterLock(h, strike), delta)
    ensures RateInv(lim, Apply(lim, s, EnterLock(h, strike), delta), delta)
  {
    var now := s.handlers[h].now;
    var t := Apply(lim, s, EnterLock(h, strike), delta);
    AttemptKeepsSuffix(lim, s.gate, s.log, s.clock, now, strike);
    if Attempt(lim, s.gate, now, strike).1 == Granted {
      AdmissionKeepsLog(s.log, s.clock, now, delta);
      EvictKeepsSuffix(s.gate.history, s.log, s.clock, now);
      AdmissionKeepsSpacing(Evict(s.gate.history, now), s.log, s.clock, now, lim.perMinute);
    }
    assert TimedInv(t);
  }

  lemma AttemptKeepsSuffix(lim: Limits, g: GateState, log: seq<Acceptance>, clock: real, now: real, strike: Strike)
    requires SuffixInv(g.history, log, clock) && now <= clock
    ensures var (after, answer) := Attempt(lim, g, now, strike);
            SuffixInv(after.history, if answer == Granted then log + [Acceptance(clock, now)] else log, clock)
  {
    EvictKeepsSuffix(g.history, log, clock, now);
    if strike.AfterPops? {
      PopsKeepSuffix(g.history, log, clock, now, strike.n);
    }
  }

  lemma {:induction false} EvictIsPops(history: seq<real>, now: real)
    ensures Evict(history, now) == PopSome(history, now, |history|)
  {
    if history != [] && history[0] <= now - WINDOW {
      EvictIsPops(history[1..], now);
    }
  }

  lemma EvictKeepsSuffix(history: seq<real>, log: seq<Acceptance>, clock: real, now: real)
    requires SuffixInv(history, log, clock) && now <= clock
    ensures SuffixInv(Evict(history, now), log, clock)
  {
    EvictIsPops(history, now);
    PopsKeepSuffix(history, log, clock, now, |history|);
  }

  // Popping any number of stale readings.
  lemma {:induction false} PopsKeepSuffix(history: seq<real>, log: seq<Acceptance>, clock: real, now: real, n: nat)
    requires SuffixInv(history, log, clock) && now <= clock
    ensures SuffixInv(PopSome(history, now, n), log, clock)
    decreases n
  {
    if n > 0 && history != [] && history[0] <= now - WINDOW {
      assert log[|log| - |history|].reading == history[0];
      PopsKeepSuffix(history[1..], log, clock, now, n - 1);
    }
  }

  lemma AdmissionKeepsLog(log: seq<Acceptance>, clock: real, now: real, delta: real)
    requires LogInv(log, clock, delta) && now <= clock <= now + delta
    ensures LogInv(log + [Acceptance(clock, now)], clock, delta)
  {
  }

  lemma AdmissionKeepsSpacing(history: seq<real>, log: seq<Acceptance>, clock: real, now: real, perMinute: nat)
    requires SuffixInv(history, log, clock) && Spaced(log, perMinute) && |history| < perMinute
    ensures Spaced(log + [Acceptance(clock, now)], perMinute)
  {
  }

  lemma {:induction false} RunKeeps(lim: Limits, s: System, steps: seq<Step>, delta: real, t: System, lost: nat)
    requires Runs(lim, s, steps, delta, t)
    requires SlotInv(lim, s, lost) && RateInv(lim, s, delta)
    ensures SlotInv(lim, t, lost + Losses(lim, s, steps, delta)) && RateInv(lim, t, delta)
    decreases |steps|
  {
    if steps != [] {
      StepKeepsSlots(lim, s, steps[0], delta, lost);
      StepKeepsRate(lim, s, steps[0], delta);
      var more := if Leaks(lim, s, steps[0], delta) then 1 else 0;
      RunKeeps(lim, Apply(lim, s, steps[0], delta), steps[1..], delta, t, lost + more);
    }
  }

  lemma InitialRunKeeps(lim: Limits, steps: seq<Step>, delta: real, t: System)
    requires Runs(lim, Initial, steps, delta, t)
    ensures SlotInv(lim, t, Losses(lim, Initial, steps, delta)) && RateInv(lim, t, delta)
  {
    assert Holders(Initial) == {};
    RunKeeps(lim, Initial, steps, delta, t, 0);
  }

  // ---- Main results ------------------------------------------------------

  ghost function Within(log: seq<Acceptance>, from: real, to: real): set<nat> {
    set i: nat | 0 <= i < |log| && from <= log[i].lockTime < to
  }

  // Rate bound: with clock readings at most `delta` old when their lock is
  // entered, no half-open window of 60 - delta seconds ever holds more than
  // `perMinute` admissions, in any interleaving.
  lemma RateBound(lim: Limits, steps: seq<Step>, delta: real, t: System, from: real)
    requires Runs(lim, Initial, steps, delta, t)
    ensures |Within(t.log, from, from + 60.0 - delta)| <= lim.perMinute
  {
    InitialRunKeeps(lim, steps, delta, t);
    var hits := Within(t.log, from, from + WINDOW - delta);
    var first: nat := 0;
    while first < |t.log| && first !in hits
      invariant 0 <= first <= |t.log|
      invariant forall i :: i in hits ==> first <= i
    {
      first := first + 1;
    }
    forall i | i in hits
      ensures first <= i < first + lim.perMinute
    {
      if i >= first + lim.perMinute {
        SpacedApart(lim, t, delta, first, i);
      }
    }
    RangeBound(hits, first, lim.perMinute);
  }

  lemma SpacedApart(lim: Limits, s: System, delta: real, i: int, j: int)
    requires RateInv(lim, s, delta) && lim.perMinute > 0
    requires 0 <= i && i + lim.perMinute <= j < |s.log|
    ensures s.log[i].lockTime + WINDOW - delta <= s.log[j].lockTime
  {
    var k := i + lim.perMinute;
    assert s.log[i].reading <= s.log[k].lockTime - WINDOW;
    assert k < j ==> s.log[k].lockTime <= s.log[j].lockTime;
  }

  lemma {:induction false} RangeBound(s: set<nat>, lo: nat, n: nat)
    requires forall x :: x in s ==> lo <= x < lo + n
    ensures |s| <= n
  {
    if n == 0 {
      forall x | x in s ensures false { }
      assert s == {};
    } else {
      RangeBound(s - {lo + n - 1}, lo, n - 1);
    }
  }

  // Slot conservation: slots in use are exactly the handlers between a successful
  // acquire and their finally and the slots lost so far, never above the limit, and
  // no release is ever refused.
  lemma SlotConservation(lim: Limits, steps: seq<Step>, delta: real, t: System)
    requires Runs(lim, Initial, steps, delta, t)
    ensures t.gate.inUse == |Holders(t)| + Losses(lim, Initial, steps, delta) <= lim.concurrent
    ensures !t.overReleased
  {
    InitialRunKeeps(lim, steps, delta, t);
  }

  // Once every handler is done all slots are back, if and only if no step of the
  // run was one of those that lose a slot.
  lemma SlotsComeBackIff(lim: Limits, steps: seq<Step>, delta: real, t: System)
    requires Runs(lim, Initial, steps, delta, t)
    requires forall h :: h in t.handlers ==> t.handlers[h] == Done
    ensures t.gate.inUse == 0 <==> forall k: nat :: k < |steps| ==> Kept(lim, Initial, steps, delta, k)
  {
    SlotConservation(lim, steps, delta, t);
    assert Holders(t) == {};
    NoLossMeans(lim, Initial, steps, delta, t);
  }

  ghost predicate Kept(lim: Limits, s: System, steps: seq<Step>, delta: real, k: nat)
    requires k < |steps|
  {
    var m := StateAt(lim, s, steps, delta, k);
    Enabled(m, steps[k], delta) && !Leaks(lim, m, steps[k], delta)
  }

  lemma {:induction false} NoLossMeans(lim: Limits, s: System, steps: seq<Step>, delta: real, t: System)
    requires Runs(lim, s, steps, delta, t)
    ensures Losses(lim, s, steps, delta) == 0 <==> forall k: nat :: k < |steps| ==> Kept(lim, s, steps, delta, k)
    decreases |steps|
  {
    if steps != [] {
      var m := Apply(lim, s, steps[0], delta);
      NoLossMeans(lim, m, steps[1..], delta, t);
      assert Kept(lim, s, steps, delta, 0) <==> !Leaks(lim, s, steps[0], delta);
      assert forall k: nat :: k < |steps| - 1 ==>
        (Kept(lim, m, steps[1..], delta, k) <==> Kept(lim, s, steps, delta, k + 1));
      assert forall k: nat :: 0 < k < |steps| ==>
        (Kept(lim, s, steps, delta, k) <==> Kept(lim, m, steps[1..], delta, k - 1));
    }
  }

  // A lost slot never comes back: when all of them are lost the gate refuses
  // every later caller.
  lemma AllSlotsLost(lim: Limits, steps: seq<Step>, delta: real, t: System, now: real)
    requires Runs(lim, Initial, steps, delta, t) && Losses(lim, Initial, steps, delta) >= lim.concurrent
    ensures !Admit(lim, t.gate, now).1
  {
    SlotConservation(lim, steps, delta, t);
  }

  // A free slot after 60 quiet seconds always admits the next caller.
  lemma QuietGateAdmits(lim: Limits, steps: seq<Step>, delta: real, t: System, now: real)
    requires Runs(lim, Initial, steps, delta, t)
    requires forall i :: 0 <= i < |t.log| ==> t.log[i].lockTime <= now - 60.0
    requires lim.perMinute > 0 && |Holders(t)| + Losses(lim, Initial, steps, delta) < lim.concurrent
    ensures Admit(lim, t.gate, now) == (GateState([now], t.gate.inUse + 1), true)
  {
    InitialRunKeeps(lim, steps, delta, t);
    var gone := |t.log| - |t.gate.history|;
    var kept := Evict(t.gate.history, now);
    EvictLeavesSuffix(t.gate.history, now);
    forall i | 0 <= i < |t.gate.history|
      ensures t.gate.history[i] <= now - WINDOW
    {
      assert t.log[gone + i].lockTime <= now - WINDOW;
    }
    assert kept == [];
    assert kept + [now] == [now];
  }

  // For a caller who reads the clock and enters at once: the gate admits if and
  // only if a slot is free and the admissions of the last 60 seconds, with the
  // stale readings that stand behind fresh ones, are fewer than `perMinute`.
  lemma GateAdmitsIff(lim: Limits, steps: seq<Step>, delta: real, t: System)
    requires Runs(lim, Initial, steps, delta, t)
    ensures Admit(lim, t.gate, t.clock).1 <==>
            && |Fresh(Readings(t.log), t.clock)| + |StaleBehind(t.gate.history, t.clock)| < lim.perMinute
            && |Holders(t)| + Losses(lim, Initial, steps, delta) < lim.concurrent
  {
    InitialRunKeeps(lim, steps, delta, t);
    HistoryHoldsTheFresh(t.gate.history, t.log, t.clock);
    EvictionCounts(t.gate.history, t.clock);
  }

  // With prompt locks the limiter is exact: it admits if and only if fewer than
  // `perMinute` admissions fall in the last 60 seconds and a slot is free.
  lemma PromptGateIsExact(lim: Limits, steps: seq<Step>, delta: real, t: System)
    requires Runs(lim, Initial, steps, delta, t) && delta <= 0.0
    ensures Admit(lim, t.gate, t.clock).1 <==>
            && |Fresh(Readings(t.log), t.clock)| < lim.perMinute
            && |Holders(t)| + Losses(lim, Initial, steps, delta) < lim.concurrent
  {
    InitialRunKeeps(lim, steps, delta, t);
    HistoryHoldsTheFresh(t.gate.history, t.log, t.clock);
    HistoryIsOrdered(lim, t, delta);
    OrderedEvictionIsExact(t.gate.history, t.clock);
  }

  lemma HistoryIsOrdered(lim: Limits, t: System, delta: real)
    requires RateInv(lim, t, delta) && delta <= 0.0
    ensures Ordered(t.gate.history)
  {
    var gone := |t.log| - |t.gate.history|;
    assert forall i :: 0 <= i < |t.gate.history| ==> t.log[gone + i].reading == t.gate.history[i];
  }

  lemma HistoryHoldsTheFresh(history: seq<real>, log: seq<Acceptance>, clock: real)
    requires SuffixInv(history, log, clock)
    ensures Fresh(Readings(log), clock) == Fresh(history, clock)
  {
    var gone := |log| - |history|;
    var all := Readings(log);
    assert all == all[..gone] + history;
    FreshConcat(all[..gone], history, clock);
    StaleIsNotFresh(all[..gone], clock);
  }

  ghost function Readings(log: seq<Acceptance>): (r: seq<real>)
    ensures |r| == |log| && forall i :: 0 <= i < |log| ==> r[i] == log[i].reading
  {
    seq(|log|, i requires 0 <= i < |log| => log[i].reading)
  }

  lemma {:induction false} FreshConcat(a: seq<real>, b: seq<real>, now: real)
    ensures Fresh(a + b, now) == Fresh(a, now) + Fresh(b, now)
  {
    if a == [] {
      assert a + b == b;
    } else {
      assert (a + b)[1..] == a[1..] + b;
      FreshConcat(a[1..], b, now);
    }
  }

  lemma {:induction false} StaleIsNotFresh(a: seq<real>, now: real)
    requires forall i :: 0 <= i < |a| ==> a[i] <= now - WINDOW
    ensures Fresh(a, now) == []
  {
    if a != [] {
      StaleIsNotFresh(a[1..], now);
    }
  }

  // ---- The bound cannot be improved --------------------------------------

  lemma {:induction false} RunsAppend(lim: Limits, s: System, a: seq<Step>, b: seq<Step>, delta: real,
                                      m: System, t: System)
    requires Runs(lim, s, a, delta, m) && Runs(lim, m, b, delta, t)
    ensures Runs(lim, s, a + b, delta, t)
    decreases |a|
  {
    if a == [] {
      assert a + b == b;
    } else {
      RunsAppend(lim, Apply(lim, s, a[0], delta), a[1..], b, delta, m, t);
      assert (a + b)[1..] == a[1..] + b;
    }
  }

  ghost predicate Reaches(lim: Limits, s: System, delta: real, t: System) {
    exists steps :: Runs(lim, s, steps, delta, t)
  }

  lemma Stay(lim: Limits, s: System, delta: real)
    ensures Reaches(lim, s, delta, s)
  {
    assert Runs(lim, s, [], delta, s);
  }

  lemma Then(lim: Limits, s: System, m: System, t: System, delta: real)
    requires Reaches(lim, s, delta, m) && Reaches(lim, m, delta, t)
    ensures Reaches(lim, s, delta, t)
  {
    var a :| Runs(lim, s, a, delta, m);
    var b :| Runs(lim, m, b, delta, t);
    RunsAppend(lim, s, a, b, delta, m, t);
  }

  lemma Take(lim: Limits, s: System, step: Step, delta: real)
    requires Enabled(s, step, delta)
    ensures Reaches(lim, s, delta, Apply(lim, s, step, delta))
  {
    var t := Apply(lim, s, step, delta);
    assert [step][1..] == [];
    assert Runs(lim, t, [], delta, t);
    assert Runs(lim, s, [step], delta, t);
  }

  ghost function Upto(n: nat): (ids: set<nat>)
    ensures |ids| == n && forall x: nat :: x in ids <==> x < n
  {
    if n == 0 then {} else Upto(n - 1) + {n - 1}
  }

  ghost function Zeros(n: nat): (z: seq<real>)
    ensures |z| == n && forall i :: 0 <= i < n ==> z[i] == 0.0
  {
    seq(n, _ => 0.0)
  }

  // `total` callers have all read the clock at time zero, `served` of them have
  // since passed through the gate at time d. If `led`, one more caller, who read
  // the clock at d, was there before them.
  ghost function Crowd(clock: real, d: real, led: bool, served: nat, total: nat): System {
    System(clock, GateState((if led then [d] else []) + Zeros(served), 0),
           (map h | h in Upto(total) :: if h < served then Done else Timed(0.0))
             + (if led then map[total := Done] else map[]),
           (if led then [Acceptance(d, d)] else []) + seq(served, _ => Acceptance(d, 0.0)), false)
  }

  // A caller who arrives and reads the clock now.
  lemma Newcomer(lim: Limits, s: System, h: nat, delta: real)
    requires h !in s.handlers
    ensures Reaches(lim, s, delta, s.(handlers := s.handlers[h := Timed(s.clock)]))
  {
    var s1 := Apply(lim, s, Arrive(h), delta);
    Take(lim, s, Arrive(h), delta);
    Take(lim, s1, ReadClock(h), delta);
    assert s1.handlers[h := Timed(s.clock)] == s.handlers[h := Timed(s.clock)];
    Then(lim, s, s1, Apply(lim, s1, ReadClock(h), delta), delta);
  }

  // A caller who is admitted goes through without incident.
  lemma PassThrough(lim: Limits, s: System, h: nat, delta: real)
    requires Enabled(s, EnterLock(h, Never), delta) && Admit(lim, s.gate, s.handlers[h].now).1
    ensures Reaches(lim, s, delta, Passed(s, h))
  {
    var s1 := Apply(lim, s, EnterLock(h, Never), delta);
    var s2 := Apply(lim, s1, SetFlag(h), delta);
    var s3 := Apply(lim, s2, Finish(h), delta);
    Take(lim, s, EnterLock(h, Never), delta);
    Take(lim, s1, SetFlag(h), delta);
    Take(lim, s2, Finish(h), delta);
    Take(lim, s3, RunFinally(h), delta);
    Then(lim, s, s1, s2, delta);
    Then(lim, s, s2, s3, delta);
    assert s3.handlers[h := Done] == s.handlers[h := Done];
    assert Apply(lim, s3, RunFinally(h), delta) == Passed(s, h);
    Then(lim, s, s3, Passed(s, h), delta);
  }

  ghost function Passed(s: System, h: nat): System
    requires h in s.handlers && s.handlers[h].Timed?
  {
    var now := s.handlers[h].now;
    s.(gate := GateState(Evict(s.gate.history, now) + [now], s.gate.inUse),
       handlers := s.handlers[h := Done], log := s.log + [Acceptance(s.clock, now)])
  }

  lemma {:induction false} GatherCrowd(lim: Limits, d: real, delta: real, n: nat)
    ensures Reaches(lim, Initial, delta, Crowd(0.0, d, false, 0, n))
  {
    if n == 0 {
      assert Crowd(0.0, d, false, 0, 0).handlers == map[];
      assert Crowd(0.0, d, false, 0, 0) == Initial;
      Stay(lim, Initial, delta);
    } else {
      GatherCrowd(lim, d, delta, n - 1);
      OneMoreWaits(lim, d, delta, n - 1);
      Then(lim, Initial, Crowd(0.0, d, false, 0, n - 1), Crowd(0.0, d, false, 0, n), delta);
    }
  }

  lemma OneMoreWaits(lim: Limits, d: real, delta: real, n: nat)
    ensures Reaches(lim, Crowd(0.0, d, false, 0, n), delta, Crowd(0.0, d, false, 0, n + 1))
  {
    var s, t := Crowd(0.0, d, false, 0, n), Crowd(0.0, d, false, 0, n + 1);
    Newcomer(lim, s, n, delta);
    assert s.handlers[n := Timed(0.0)] == t.handlers;
  }

  lemma ServeOne(lim: Limits, d: real, delta: real, led: bool, served: nat, total: nat)
    requires 0.0 <= d <= delta && lim.concurrent > 0 && served < total && d <= WINDOW
    requires (if led then 1 else 0) + total <= lim.perMinute
    ensures Reaches(lim, Crowd(d, d, led, served, total), delta, Crowd(d, d, led, served + 1, total))
  {
    var s, t := Crowd(d, d, led, served, total), Crowd(d, d, led, served + 1, total);
    assert s.handlers[served] == Timed(0.0);
    assert Evict(s.gate.history, 0.0) == s.gate.history;
    PassThrough(lim, s, served, delta);
    assert s.gate.history + [0.0] == t.gate.history;
    assert s.log + [Acceptance(d, 0.0)] == t.log;
    assert s.handlers[served := Done] == t.handlers;
  }

  lemma {:induction false} ServeCrowd(lim: Limits, d: real, delta: real, led: bool, served: nat, total: nat)
    requires 0.0 <= d <= delta && lim.concurrent > 0 && served <= total && d <= WINDOW
    requires (if led then 1 else 0) + total <= lim.perMinute
    ensures Reaches(lim, Crowd(d, d, led, 0, total), delta, Crowd(d, d, led, served, total))
  {
    if served == 0 {
      Stay(lim, Crowd(d, d, led, 0, total), delta);
    } else {
      ServeCrowd(lim, d, delta, led, served - 1, total);
      ServeOne(lim, d, delta, led, served - 1, total);
      Then(lim, Crowd(d, d, led, 0, total), Crowd(d, d, led, served - 1, total),
           Crowd(d, d, led, served, total), delta);
    }
  }

  lemma {:induction false} StaleCrowdIsEvicted(n: nat)
    ensures Evict(Zeros(n), WINDOW) == []
  {
    if n > 0 {
      assert Zeros(n)[1..] == Zeros(n - 1);
      StaleCrowdIsEvicted(n - 1);
    }
  }

  // One more caller, prompt this time, at time 60.
  lemma ServeLateComer(lim: Limits, delta: real, n: nat) returns (t: System)
    requires 0.0 <= delta <= WINDOW && lim.concurrent > 0 && n <= lim.perMinute && lim.perMinute > 0
    ensures Reaches(lim, Crowd(delta, delta, false, n, n), delta, t)
    ensures t.log == Crowd(delta, delta, false, n, n).log + [Acceptance(WINDOW, WINDOW)]
  {
    var s0 := Crowd(delta, delta, false, n, n);
    var s1 := s0.(clock := WINDOW);
    var s2 := s1.(handlers := s1.handlers[n := Timed(WINDOW)]);
    Take(lim, s0, Tick(WINDOW - delta), delta);
    Newcomer(lim, s1, n, delta);
    Then(lim, s0, s1, s2, delta);
    assert s2.gate.history == Zeros(n);
    StaleCrowdIsEvicted(n);
    PassThrough(lim, s2, n, delta);
    t := Passed(s2, n);
    Then(lim, s0, s2, t, delta);
  }

  // The crowd, waiting for the lock at time d.
  lemma CrowdWaits(lim: Limits, d: real, delta: real, n: nat)
    requires 0.0 <= d
    ensures Reaches(lim, Initial, delta, Crowd(d, d, false, 0, n))
  {
    GatherCrowd(lim, d, delta, n);
    Take(lim, Crowd(0.0, d, false, 0, n), Tick(d), delta);
    assert Apply(lim, Crowd(0.0, d, false, 0, n), Tick(d), delta) == Crowd(d, d, false, 0, n);
    Then(lim, Initial, Crowd(0.0, d, false, 0, n), Crowd(d, d, false, 0, n), delta);
  }

  // Any window longer than 60 - delta can hold one admission too many.
  lemma RateBoundIsTight(lim: Limits, delta: real, span: real) returns (t: System)
    requires 0.0 <= delta <= 60.0 && span > 60.0 - delta
    requires lim.concurrent > 0 && lim.perMinute > 0
    ensures Reaches(lim, Initial, delta, t)
    ensures |Within(t.log, delta, delta + span)| == lim.perMinute + 1
  {
    var n := lim.perMinute;
    var s := Crowd(delta, delta, false, n, n);
    CrowdWaits(lim, delta, delta, n);
    ServeCrowd(lim, delta, delta, false, n, n);
    Then(lim, Initial, Crowd(delta, delta, false, 0, n), s, delta);
    t := ServeLateComer(lim, delta, n);
    Then(lim, Initial, s, t, delta);
    assert Within(t.log, delta, delta + span) == Upto(n + 1);
  }

  // ---- Raced readings make the gate refuse too much ------------------------

  // A caller with a later reading wins the lock from a waiting crowd.
  lemma Overtake(lim: Limits, d: real, delta: real, n: nat)
    requires 0.0 <= d <= delta && lim.concurrent > 0 && lim.perMinute > 0
    ensures Reaches(lim, Crowd(d, d, false, 0, n), delta, Crowd(d, d, true, 0, n))
  {
    var s, t := Crowd(d, d, false, 0, n), Crowd(d, d, true, 0, n);
    var m := s.(handlers := s.handlers[n := Timed(d)]);
    Newcomer(lim, s, n, delta);
    assert s.gate.history == [] && s.log == [];
    PassThrough(lim, m, n, delta);
    assert m.handlers[n := Done] == t.handlers;
    assert Passed(m, n) == t;
    Then(lim, s, m, t, delta);
  }

  // perMinute - 1 callers read the clock at zero and are overtaken by one who read
  // it at d. At time 60 their readings are stale but stand behind the fresh one.
  lemma RacedHistoryRefusesTooMuch(lim: Limits, delta: real) returns (t: System)
    requires delta > 0.0 && lim.perMinute >= 2 && lim.concurrent > 0
    ensures Reaches(lim, Initial, delta, t) && WronglyRefused(lim, t.gate, t.clock)
  {
    var d := if delta < WINDOW then delta else WINDOW;
    var n := lim.perMinute - 1;
    var s := Crowd(d, d, true, n, n);
    CrowdWaits(lim, d, delta, n);
    Overtake(lim, d, delta, n);
    Then(lim, Initial, Crowd(d, d, false, 0, n), Crowd(d, d, true, 0, n), delta);
    ServeCrowd(lim, d, delta, true, n, n);
    Then(lim, Initial, Crowd(d, d, true, 0, n), s, delta);
    t := s.(clock := WINDOW);
    Take(lim, s, Tick(WINDOW - d), delta);
    Then(lim, Initial, s, t, delta);
    var h := t.gate.history;
    assert h == [d] + Zeros(n) && h[1..] == Zeros(n);
    StaleIsNotFresh(Zeros(n), WINDOW);
  }

  ghost predicate CanErr(lim: Limits, delta: real) {
    exists t :: Reaches(lim, Initial, delta, t) && WronglyRefused(lim, t.gate, t.clock)
  }

  // Some run leaves a gate that refuses a caller who is within the rate exactly
  // when a reading can be older than its lock, two requests a minute are allowed,
  // and there is a slot at all.
  lemma GateCanErrIff(lim: Limits, delta: real)
    ensures CanErr(lim, delta) <==> delta > 0.0 && lim.perMinute >= 2 && lim.concurrent > 0
  {
    if delta > 0.0 && lim.perMinute >= 2 && lim.concurrent > 0 {
      var t := RacedHistoryRefusesTooMuch(lim, delta);
    }
    if t :| Reaches(lim, Initial, delta, t) && WronglyRefused(lim, t.gate, t.clock) {
      WronglyRefusedIff(lim, t.gate, t.clock);
      if delta <= 0.0 {
        var steps :| Runs(lim, Initial, steps, delta, t);
        InitialRunKeeps(lim, steps, delta, t);
        HistoryIsOrdered(lim, t, delta);
        OrderedEvictionIsExact(t.gate.history, t.clock);
      }
    }
  }

  // ---- Slots can be lost ------------------------------------------------------

  // `lost` handlers are done and each has left its slot taken.
  ghost function Leaked(lost: nat): System {
    System(0.0, GateState([], lost), map h | h in Upto(lost) :: Done, [], false)
  }

  // One more handler: an exception strikes it with the slot taken.
  lemma LoseOne(lim: Limits, delta: real, lost: nat)
    requires delta >= 0.0 && lost < lim.concurrent && lim.perMinute > 0
    ensures Reaches(lim, Leaked(lost), delta, Leaked(lost + 1))
  {
    var s, t := Leaked(lost), Leaked(lost + 1);
    var s1 := s.(handlers := s.handlers[lost := Timed(0.0)]);
    var s2 := Apply(lim, s1, EnterLock(lost, WithSlot), delta);
    var s3 := Apply(lim, s2, Recovered(lost), delta);
    Newcomer(lim, s, lost, delta);
    Take(lim, s1, EnterLock(lost, WithSlot), delta);
    Take(lim, s2, Recovered(lost), delta);
    Take(lim, s3, RunFinally(lost), delta);
    assert s3.handlers[lost := Done] == t.handlers;
    assert Apply(lim, s3, RunFinally(lost), delta) == t;
    Then(lim, s, s1, s2, delta);
    Then(lim, s, s2, s3, delta);
    Then(lim, s, s3, t, delta);
  }

  lemma {:induction false} LoseMany(lim: Limits, delta: real, lost: nat)
    requires delta >= 0.0 && lost <= lim.concurrent && lim.perMinute > 0
    ensures Reaches(lim, Initial, delta, Leaked(lost))
  {
    if lost == 0 {
      assert Leaked(0).handlers == map[];
      Stay(lim, Initial, delta);
    } else {
      LoseMany(lim, delta, lost - 1);
      LoseOne(lim, delta, lost - 1);
      Then(lim, Initial, Leaked(lost - 1), Leaked(lost), delta);
    }
  }

  // Every number of slots, up to all of them, can be lost: some run ends with all
  // its handlers done and that many slots gone.
  lemma AnySlotsCanBeLost(lim: Limits, delta: real, lost: nat) returns (steps: seq<Step>, t: System)
    requires delta >= 0.0 && lost <= lim.concurrent && lim.perMinute > 0
    ensures Runs(lim, Initial, steps, delta, t) && Losses(lim, Initial, steps, delta) == lost
    ensures t.gate.inUse == lost && forall h :: h in t.handlers ==> t.handlers[h] == Done
  {
    t := Leaked(lost);
    LoseMany(lim, delta, lost);
    steps :| Runs(lim, Initial, steps, delta, t);
    SlotConservation(lim, steps, delta, t);
    assert Holders(t) == {};
  }
}
