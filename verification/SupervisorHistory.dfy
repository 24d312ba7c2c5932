// The supervisor's machine read off its history: what has happened fixes the
// state, what may happen next and what each call is told.

module SupervisorHistory {
  import opened Text
  import opened ChildSupervisor

  // How often this has happened.
  function Times(steps: seq<Step>, step: Step): nat { multiset(steps)[step] }

  predicate IsCalls(step: Step, c: nat) {
    (step.Enter? || step.ReadUnhealthy? || step.ReadProc? || step.Poll? || step.Probe? || step.Send?) && step.call == c
  }

  // The steps of one call.
  function Own(steps: seq<Step>, c: nat): seq<Step> {
    if steps == [] then []
    else Own(steps[..|steps| - 1], c) + (if IsCalls(steps[|steps| - 1], c) then [steps[|steps| - 1]] else [])
  }

  // The way of a call to where it is; it leaves this way only by being refused.
  ghost predicate Went(own: seq<Step>, c: nat, pc: Call) {
    match pc
    case Entered => own == [Enter(c)]
    case HealthyRead => own == [Enter(c), ReadUnhealthy(c)]
    case ProcRead => own == [Enter(c), ReadUnhealthy(c), ReadProc(c)]
    case AliveSeen => exists busy :: own == [Enter(c), ReadUnhealthy(c), ReadProc(c), Poll(c, busy)]
    case ProbePassed => exists busy :: own == [Enter(c), ReadUnhealthy(c), ReadProc(c), Poll(c, busy), Probe(c, true)]
    case Forwarded =>
      exists busy :: own == [Enter(c), ReadUnhealthy(c), ReadProc(c), Poll(c, busy), Probe(c, true), Send(c)]
    case Refused =>
      || own == [Enter(c), ReadUnhealthy(c)]
      || own == [Enter(c), ReadUnhealthy(c), ReadProc(c)]
      || own == [Enter(c), ReadUnhealthy(c), ReadProc(c), Poll(c, false)]
      || exists busy :: own == [Enter(c), ReadUnhealthy(c), ReadProc(c), Poll(c, busy), Probe(c, false)]
  }

  ghost predicate CallsWent(steps: seq<Step>, s: State) {
    forall c :: if c in s.calls then Went(Own(steps, c), c, s.calls[c]) else Own(steps, c) == []
  }

  // Where the supervisor is, from how often it has done what.
  function SupervisorAfter(steps: seq<Step>): Supervisor {
    if Times(steps, SpawnSupervisor) == 0 then NotRunning
    else if Times(steps, RestartRaises) > 0 then Crashed
    else if Times(steps, Decide) == 2 then Quit
    else if Times(steps, WaitReturns) > Times(steps, Decide) then Observed
    else if Times(steps, Decide) > Times(steps, Restart) then Restarting
    else Waiting(Times(steps, Restart))
  }

  ghost predicate ProcessesWere(steps: seq<Step>, s: State) {
    && |s.running| == Times(steps, StartChild) + Times(steps, Restart)
    && Times(steps, Restart) <= Times(steps, StartChild) <= 1
    && (forall p: nat :: ProcessExits(p) in steps ==> p < |s.running|)
    && forall p: nat :: p < |s.running| ==> (s.running[p] <==> ProcessExits(p) !in steps)
  }

  ghost predicate SupervisorWas(steps: seq<Step>, s: State) {
    && s.exitsObserved == Times(steps, WaitReturns)
    && s.restartsUsed == (if Times(steps, Decide) == 0 then 0 else 1)
    && (s.unhealthy <==> Times(steps, Decide) == 2)
    && Times(steps, SpawnSupervisor) <= 1 && Times(steps, RestartRaises) <= 1
    && (Times(steps, SpawnSupervisor) == 0 ==> Times(steps, WaitReturns) == 0)
    && Times(steps, Restart) + Times(steps, RestartRaises) <= Times(steps, Decide) <= Times(steps, WaitReturns) <= 2
    && s.supervisor == SupervisorAfter(steps)
  }

  lemma OneMore(steps: seq<Step>, step: Step, x: Step)
    ensures Times(steps + [step], x) == Times(steps, x) + (if x == step then 1 else 0)
  {
  }

  lemma ProcessesGoOn(steps: seq<Step>, s: State, step: Step)
    requires LifeInv(s) && ProcessesWere(steps, s) && Enabled(s, step)
    requires step == Restart ==> Times(steps, Restart) == 0
    ensures ProcessesWere(steps + [step], Apply(s, step))
  {
    var more := steps + [step];
    OneMore(steps, step, StartChild);
    OneMore(steps, step, Restart);
    assert forall x :: x in more <==> x in steps || x == step;
  }

  lemma SupervisorGoesOn(steps: seq<Step>, s: State, step: Step)
    requires LifeInv(s) && SupervisorWas(steps, s) && Enabled(s, step)
    ensures SupervisorWas(steps + [step], Apply(s, step))
    ensures step == Restart ==> Times(steps, Restart) == 0
  {
    OneMore(steps, step, SpawnSupervisor);
    OneMore(steps, step, WaitReturns);
    OneMore(steps, step, Decide);
    OneMore(steps, step, Restart);
    OneMore(steps, step, RestartRaises);
  }

  // One more step of the call itself.
  lemma CallSteps(own: seq<Step>, s: State, step: Step, c: nat)
    requires Enabled(s, step) && IsCalls(step, c)
    requires if c in s.calls then Went(own, c, s.calls[c]) else own == []
    ensures c in Apply(s, step).calls && Went(own + [step], c, Apply(s, step).calls[c])
  {
    match step
    case Enter(_) => assert own + [step] == [Enter(c)];
    case ReadUnhealthy(_) =>
    case ReadProc(_) =>
    case Poll(_, busy) =>
      assert own + [step] == [Enter(c), ReadUnhealthy(c), ReadProc(c), Poll(c, busy)];
    case Probe(_, passes) =>
      var busy :| own == [Enter(c), ReadUnhealthy(c), ReadProc(c), Poll(c, busy)];
      assert own + [step] == [Enter(c), ReadUnhealthy(c), ReadProc(c), Poll(c, busy), Probe(c, passes)];
    case Send(_) =>
      var busy :| own == [Enter(c), ReadUnhealthy(c), ReadProc(c), Poll(c, busy), Probe(c, true)];
      assert own + [step] == [Enter(c), ReadUnhealthy(c), ReadProc(c), Poll(c, busy), Probe(c, true), Send(c)];
  }

  lemma CallWaits(s: State, step: Step, c: nat)
    requires Enabled(s, step) && !IsCalls(step, c)
    ensures (c in Apply(s, step).calls <==> c in s.calls) && (c in s.calls ==> Apply(s, step).calls[c] == s.calls[c])
  {
  }

  lemma CallsGoOn(steps: seq<Step>, s: State, step: Step)
    requires CallsWent(steps, s) && Enabled(s, step)
    ensures CallsWent(steps + [step], Apply(s, step))
  {
    var more, t := steps + [step], Apply(s, step);
    assert more[..|more| - 1] == steps && more[|more| - 1] == step;
    forall c
      ensures if c in t.calls then Went(Own(more, c), c, t.calls[c]) else Own(more, c) == []
    {
      if IsCalls(step, c) {
        CallSteps(Own(steps, c), s, step, c);
      } else {
        CallWaits(s, step, c);
        assert Own(more, c) == Own(steps, c);
      }
    }
  }

  // A call that is about to poll has seen that there is a process.
  ghost predicate PollsSomething(s: State) {
    forall c :: c in s.calls && s.calls[c] == ProcRead ==> s.current.Some?
  }

  lemma PollsOn(s: State, step: Step)
    requires PollsSomething(s) && Enabled(s, step)
    ensures PollsSomething(Apply(s, step))
  {
  }

  ghost predicate Happened(steps: seq<Step>, s: State) {
    ProcessesWere(steps, s) && SupervisorWas(steps, s) && CallsWent(steps, s) && PollsSomething(s)
  }

  lemma NothingHappened()
    ensures Happened([], Boot)
  {
  }

  // What holds of no steps, and goes on holding with each more, holds of every run.
  ghost predicate GoesOn(holds: (seq<Step>, State) -> bool) {
    forall steps, s, step :: LifeInv(s) && Enabled(s, step) && holds(steps, s) ==> holds(steps + [step], Apply(s, step))
  }

  lemma {:induction false} ByHistory(holds: (seq<Step>, State) -> bool, past: seq<Step>, s: State, steps: seq<Step>,
                                     t: State)
    requires GoesOn(holds) && LifeInv(s) && holds(past, s) && Runs(s, steps, t)
    ensures holds(past + steps, t)
    decreases |steps|
  {
    if steps == [] {
      assert past + steps == past;
    } else {
      StepKeepsLife(s, steps[0]);
      ByHistory(holds, past + [steps[0]], Apply(s, steps[0]), steps[1..], t);
      assert past + steps == past + [steps[0]] + steps[1..];
    }
  }

  // The history of a run fixes its state.
  lemma HistoryFixesState(steps: seq<Step>, s: State)
    requires Runs(Boot, steps, s)
    ensures Happened(steps, s)
  {
    var holds := (past, u) => Happened(past, u);
    forall past, u, step | LifeInv(u) && Enabled(u, step) && holds(past, u)
      ensures holds(past + [step], Apply(u, step))
    {
      OneStepMore(past, u, step);
    }
    BootInv();
    NothingHappened();
    ByHistory(holds, [], Boot, steps, s);
    assert [] + steps == steps;
  }

  lemma LifeInvariant(steps: seq<Step>, s: State)
    requires Runs(Boot, steps, s)
    ensures LifeInv(s)
  {
    BootInv();
    RunKeeps(Boot, steps, s);
  }

  lemma OneStepMore(steps: seq<Step>, s: State, step: Step)
    requires LifeInv(s) && Happened(steps, s) && Enabled(s, step)
    ensures Happened(steps + [step], Apply(s, step))
  {
    SupervisorGoesOn(steps, s, step);
    ProcessesGoOn(steps, s, step);
    CallsGoOn(steps, s, step);
    PollsOn(s, step);
  }

  // ---- Main results ---------------------------------------------------------------------------

  // The current process, by number: the first, or the one it was replaced by.
  function CurrentAfter(steps: seq<Step>): nat { Times(steps, Restart) }

  // What a call is told when it asks: whether the child has been given up,
  lemma HealthIsTold(steps: seq<Step>, s: State, c: nat)
    requires Runs(Boot, steps, s) && Enabled(s, ReadUnhealthy(c))
    ensures At(Apply(s, ReadUnhealthy(c)), c, if Times(steps, Decide) < 2 then HealthyRead else Refused)
  {
    HistoryFixesState(steps, s);
  }

  // whether there is a process,
  lemma ProcessIsTold(steps: seq<Step>, s: State, c: nat)
    requires Runs(Boot, steps, s) && Enabled(s, ReadProc(c))
    ensures At(Apply(s, ReadProc(c)), c, if StartChild in steps then ProcRead else Refused)
  {
    HistoryFixesState(steps, s);
    LifeInvariant(steps, s);
  }

  // whether the current one has exited, unless the supervisor is inside wait(), and
  // whether the probe passed.
  lemma LifeIsTold(steps: seq<Step>, s: State, c: nat, busy: bool)
    requires Runs(Boot, steps, s) && Enabled(s, Poll(c, busy))
    ensures At(Apply(s, Poll(c, busy)), c,
               if busy || ProcessExits(CurrentAfter(steps)) !in steps then AliveSeen else Refused)
  {
    HistoryFixesState(steps, s);
    LifeInvariant(steps, s);
  }

  lemma ProbeIsTold(s: State, c: nat, passes: bool)
    requires Enabled(s, Probe(c, passes))
    ensures At(Apply(s, Probe(c, passes)), c, if passes then ProbePassed else Refused)
  {
  }

  // The supervisor is inside wait() for the current process.
  ghost predicate InsideWait(steps: seq<Step>) {
    SpawnSupervisor in steps && Times(steps, WaitReturns) == Times(steps, Restart)
  }

  // Which step may come next: nothing is held back.
  ghost predicate MayCome(steps: seq<Step>, s: State, step: Step) {
    match step
    case StartChild => StartChild !in steps
    case SpawnSupervisor => StartChild in steps && SpawnSupervisor !in steps
    case ProcessExits(p) => p < Times(steps, StartChild) + Times(steps, Restart) && ProcessExits(p) !in steps
    case WaitReturns => InsideWait(steps) && ProcessExits(CurrentAfter(steps)) in steps
    case Decide => Times(steps, WaitReturns) == Times(steps, Decide) + 1
    case Restart | RestartRaises => Times(steps, Decide) == 1 && Restart !in steps && RestartRaises !in steps
    case Enter(c) => Own(steps, c) == []
    case ReadUnhealthy(c) => At(s, c, Entered)
    case ReadProc(c) => At(s, c, HealthyRead)
    case Poll(c, busy) => At(s, c, ProcRead) && (busy ==> InsideWait(steps))
    case Probe(c, _) => At(s, c, AliveSeen)
    case Send(c) => At(s, c, ProbePassed)
  }

  lemma InsideWaitMeans(steps: seq<Step>, s: State)
    requires LifeInv(s) && ProcessesWere(steps, s) && SupervisorWas(steps, s) && s.current.Some?
    ensures s.supervisor == Waiting(s.current.value) <==> InsideWait(steps)
  {
    assert SpawnSupervisor in steps <==> Times(steps, SpawnSupervisor) > 0;
  }

  lemma EnteredHasSteps(own: seq<Step>, c: nat, pc: Call)
    requires Went(own, c, pc)
    ensures own != []
  {
  }

  lemma CallMayCome(steps: seq<Step>, s: State, step: Step, c: nat)
    requires LifeInv(s) && Happened(steps, s) && IsCalls(step, c)
    ensures Enabled(s, step) <==> MayCome(steps, s, step)
  {
    match step
    case Enter(_) =>
      if c in s.calls {
        EnteredHasSteps(Own(steps, c), c, s.calls[c]);
      }
    case Poll(_, _) =>
      if At(s, c, ProcRead) {
        InsideWaitMeans(steps, s);
      }
    case ReadUnhealthy(_) =>
    case ReadProc(_) =>
    case Probe(_, _) =>
    case Send(_) =>
  }

  lemma LifeMayCome(steps: seq<Step>, s: State, step: Step)
    requires LifeInv(s) && ProcessesWere(steps, s) && SupervisorWas(steps, s) && forall c :: !IsCalls(step, c)
    ensures Enabled(s, step) <==> MayCome(steps, s, step)
  {
    assert forall x :: x in steps <==> Times(steps, x) > 0;
    match step
    case StartChild =>
    case SpawnSupervisor =>
    case ProcessExits(p) =>
    case WaitReturns =>
    case Decide =>
    case Restart =>
    case RestartRaises =>
    case _ => assert IsCalls(step, step.call);
  }

  lemma EnabledInHistory(steps: seq<Step>, s: State, step: Step)
    requires Runs(Boot, steps, s)
    ensures Enabled(s, step) <==> MayCome(steps, s, step)
  {
    HistoryFixesState(steps, s);
    LifeInvariant(steps, s);
    if c :| IsCalls(step, c) {
      CallMayCome(steps, s, step, c);
    } else {
      LifeMayCome(steps, s, step);
    }
  }

  lemma {:induction false} OwnTimes(steps: seq<Step>, c: nat, step: Step)
    requires IsCalls(step, c)
    ensures Times(steps, step) == Times(Own(steps, c), step)
  {
    if steps != [] {
      var n := |steps| - 1;
      OwnTimes(steps[..n], c, step);
      assert steps == steps[..n] + [steps[n]];
    }
  }

  // A payload is forwarded only at the end of one way: the call read that the child
  // was healthy, then that there was a process, polled it once, and saw one passing
  // probe.
  lemma ForwardNeedsEvidence(steps: seq<Step>, s: State, c: nat)
    requires Runs(Boot, steps, s) && Enabled(s, Send(c))
    ensures exists busy :: Own(steps, c) == [Enter(c), ReadUnhealthy(c), ReadProc(c), Poll(c, busy), Probe(c, true)]
  {
    HistoryFixesState(steps, s);
  }

  lemma SentAtTheEnd(own: seq<Step>, c: nat, pc: Call)
    requires Went(own, c, pc)
    ensures Times(own, Send(c)) == if pc == Forwarded then 1 else 0
  {
    match pc
    case Entered =>
    case HealthyRead =>
    case ProcRead =>
    case AliveSeen =>
    case ProbePassed =>
    case Forwarded =>
    case Refused =>
  }

  // No call is forwarded twice.
  lemma ForwardedOnce(steps: seq<Step>, s: State, c: nat)
    requires Runs(Boot, steps, s)
    ensures Times(steps, Send(c)) == if At(s, c, Forwarded) then 1 else 0
  {
    HistoryFixesState(steps, s);
    OwnTimes(steps, c, Send(c));
    if c in s.calls {
      SentAtTheEnd(Own(steps, c), c, s.calls[c]);
    }
  }
}
