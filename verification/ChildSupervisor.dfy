// The migration adapter's child process.

module ChildSupervisor {
  // It is started once and restarted at most once, watched by one thread while
  // invocation threads look at it without its lock.

  import opened Text

  const STDERR_TAIL_LINES: nat := 50

  // deque(maxlen=n)
  function LastLines(lines: seq<string>, n: nat): seq<string> {
    if |lines| <= n then lines else lines[|lines| - n..]
  }

  lemma LastLinesAppend(a: seq<string>, x: string, n: nat)
    ensures LastLines(LastLines(a, n) + [x], n) == LastLines(a + [x], n)
  {
  }

  // One restart is all there is.
  predicate GivesUp(restartsUsed: nat) { restartsUsed >= 1 }

  // What one return of wait() is followed by, should a restart be attempted.
  datatype Exit = Exit(code: int, popenRaises: bool)

  datatype Verdict = StillWaiting | GaveUp | ThreadDied

  datatype Watched = Watched(verdict: Verdict, restartsUsed: nat, spawned: nat)

  // Watching the child through the exits that the waits return. When they run out
  // the supervisor is blocked in the next wait.
  function Watch(used: nat, spawned: nat, exits: seq<Exit>): Watched
    decreases |exits|
  {
    if exits == [] then Watched(StillWaiting, used, spawned)
    else if GivesUp(used) then Watched(GaveUp, used, spawned)
    else if exits[0].popenRaises then Watched(ThreadDied, used + 1, spawned)
    else Watch(used + 1, spawned + 1, exits[1..])
  }

  // One restart on the first exit, and no more: what becomes of a child watched
  // from its start.
  lemma WatchMeans(exits: seq<Exit>)
    ensures Watch(0, 1, exits)
            == if exits == [] then Watched(StillWaiting, 0, 1)
               else if exits[0].popenRaises then Watched(ThreadDied, 1, 1)
               else if |exits| == 1 then Watched(StillWaiting, 1, 2)
               else Watched(GaveUp, 1, 2)
  {
    if exits != [] && !exits[0].popenRaises {
      assert Watch(0, 1, exits) == Watch(1, 2, exits[1..]);
    }
  }

  class Child {
    var proc: Option<nat>        // the process the field points at
    var spawned: nat             // processes ever created
    var restartsUsed: nat
    var unhealthy: bool
    var stderrTail: seq<string>

    ghost predicate Valid()
      reads this
    {
      && restartsUsed <= 1 && spawned <= restartsUsed + 1
      && (proc.Some? ==> proc.value < spawned) && (proc.None? ==> spawned == 0)
      && |stderrTail| <= STDERR_TAIL_LINES
    }

    constructor ()
      ensures Valid() && proc == None && spawned == 0 && restartsUsed == 0 && !unhealthy && stderrTail == []
    {
      proc, spawned, restartsUsed, unhealthy, stderrTail := None, 0, 0, false, [];
    }

    method Start(raises: bool) returns (ok: bool)
      modifies this`proc, this`spawned
      ensures ok == !raises
      ensures ok ==> spawned == old(spawned) + 1 && proc == Some(old(spawned))
      ensures !ok ==> spawned == old(spawned) && proc == old(proc)
    {
      if raises {
        return false;
      }
      proc := Some(spawned);
      spawned := spawned + 1;
      ok := true;
    }

    method PumpStderr(lines: seq<string>)
      modifies this`stderrTail
      requires |stderrTail| <= STDERR_TAIL_LINES
      ensures var read := old(stderrTail) + lines;
              && |stderrTail| == (if |read| < 50 then |read| else 50)
              && read[|read| - |stderrTail|..] == stderrTail
    {
      var i := 0;
      assert old(stderrTail) + lines[..0] == old(stderrTail);
      while i < |lines|
        invariant 0 <= i <= |lines|
        invariant stderrTail == LastLines(old(stderrTail) + lines[..i], STDERR_TAIL_LINES)
      {
        LastLinesAppend(old(stderrTail) + lines[..i], lines[i], STDERR_TAIL_LINES);
        assert old(stderrTail) + lines[..i + 1] == old(stderrTail) + lines[..i] + [lines[i]];
        stderrTail := LastLines(stderrTail + [lines[i]], STDERR_TAIL_LINES);
        i := i + 1;
      }
      assert lines[..|lines|] == lines;
    }

    // The supervisor loop, given the exits its waits return.
    method Supervise(exits: seq<Exit>) returns (verdict: Verdict)
      requires Valid() && proc.Some? && spawned == restartsUsed + 1 && !unhealthy
      modifies this
      ensures Valid() && stderrTail == old(stderrTail)
      ensures Watched(verdict, restartsUsed, spawned) == Watch(old(restartsUsed), old(spawned), exits)
      ensures unhealthy <==> verdict == GaveUp
      ensures old(restartsUsed) == 0 ==>
                && (verdict == GaveUp <==> |exits| >= 2 && !exits[0].popenRaises)
                && (verdict == ThreadDied <==> exits != [] && exits[0].popenRaises)
                && (spawned == 2 <==> exits != [] && !exits[0].popenRaises)
      ensures proc == if spawned == old(spawned) then old(proc) else Some(spawned - 1)
    {
      WatchMeans(exits);
      var i := 0;
      while true
        invariant Valid() && proc.Some? && !unhealthy && spawned == restartsUsed + 1
        invariant stderrTail == old(stderrTail)
        invariant 0 <= i <= |exits|
        invariant Watch(restartsUsed, spawned, exits[i..]) == Watch(old(restartsUsed), old(spawned), exits)
        invariant spawned >= old(spawned) && proc == if spawned == old(spawned) then old(proc) else Some(spawned - 1)
        decreases |exits| - i
      {
        if i == |exits| {
          return StillWaiting;
        }
        var exit := exits[i];
        assert exits[i..][0] == exit && exits[i..][1..] == exits[i + 1..];
        if GivesUp(restartsUsed) {
          unhealthy := true;
          return GaveUp;
        }
        restartsUsed := restartsUsed + 1;
        var ok := Start(exit.popenRaises);
        if !ok {
          return ThreadDied;
        }
        i := i + 1;
      }
    }
  }

  // ---- All interleavings ------------------------------------------------------

  datatype Supervisor =
    | NotRunning
    | Waiting(p: nat)        // blocked in proc.wait()
    | Observed               // wait() returned, the lock not yet taken
    | Restarting             // the restart is counted, Popen not yet called
    | Quit                   // gave up after a second exit
    | Crashed                // Popen raised in the supervisor thread

  // One invocation, from entry to its reply. alive() is three separate reads.
  datatype Call =
    | Entered
    | HealthyRead            // `not self.unhealthy` held
    | ProcRead               // `self.proc is not None` held
    | AliveSeen              // poll() returned None: alive() is true
    | ProbePassed
    | Forwarded
    | Refused                // ends without forwarding: an error reply, or a probe that raised

  datatype State = State(
    running: seq<bool>,      // one entry per process ever started
    current: Option<nat>,
    restartsUsed: nat,
    unhealthy: bool,
    supervisor: Supervisor,
    exitsObserved: nat,
    calls: map<nat, Call>)

  ghost const Boot: State := State([], None, 0, false, NotRunning, 0, map[])

  datatype Step =
    | StartChild
    | SpawnSupervisor
    | ProcessExits(p: nat)
    | WaitReturns
    | Decide
    | Restart
    | RestartRaises
    | Enter(call: nat)
    | ReadUnhealthy(call: nat)
    | ReadProc(call: nat)
    | Poll(call: nat, busy: bool)
    | Probe(call: nat, passes: bool)
    | Send(call: nat)

  ghost predicate At(s: State, call: nat, pc: Call) { call in s.calls && s.calls[call] == pc }

  ghost predicate Enabled(s: State, step: Step) {
    match step
    case StartChild => s.current == None && s.running == []
    case SpawnSupervisor => s.supervisor == NotRunning && s.current.Some?
    case ProcessExits(p) => p < |s.running| && s.running[p]
    case WaitReturns => s.supervisor.Waiting? && s.supervisor.p < |s.running| && !s.running[s.supervisor.p]
    case Decide => s.supervisor == Observed
    case Restart => s.supervisor == Restarting
    case RestartRaises => s.supervisor == Restarting
    case Enter(c) => c !in s.calls
    case ReadUnhealthy(c) => At(s, c, Entered)
    case ReadProc(c) => At(s, c, HealthyRead)
    case Poll(c, busy) =>
      && At(s, c, ProcRead) && s.current.Some? && s.current.value < |s.running|
      && (busy ==> s.supervisor == Waiting(s.current.value))
    case Probe(c, _) => At(s, c, AliveSeen)
    case Send(c) => At(s, c, ProbePassed)
  }

  ghost function Apply(s: State, step: Step): State
    requires Enabled(s, step)
  {
    match step
    case StartChild => s.(running := [true], current := Some(0))
    case SpawnSupervisor => s.(supervisor := Waiting(s.current.value))
    case ProcessExits(p) => s.(running := s.running[p := false])
    case WaitReturns => s.(supervisor := Observed, exitsObserved := s.exitsObserved + 1)
    case Decide =>
      if GivesUp(s.restartsUsed)
      then s.(unhealthy := true, supervisor := Quit)
      else s.(restartsUsed := s.restartsUsed + 1, supervisor := Restarting)
    case Restart =>
      s.(running := s.running + [true], current := Some(|s.running|), supervisor := Waiting(|s.running|))
    case RestartRaises => s.(supervisor := Crashed)
    case Enter(c) => s.(calls := s.calls[c := Entered])
    case ReadUnhealthy(c) => s.(calls := s.calls[c := if s.unhealthy then Refused else HealthyRead])
    case ReadProc(c) => s.(calls := s.calls[c := if s.current.None? then Refused else ProcRead])
    case Poll(c, busy) =>
      // poll() knows nothing while another thread is inside wait(), and says None.
      s.(calls := s.calls[c := if s.running[s.current.value] || busy then AliveSeen else Refused])
    case Probe(c, passes) => s.(calls := s.calls[c := if passes then ProbePassed else Refused])
    case Send(c) => s.(calls := s.calls[c := Forwarded])
  }

  ghost predicate Runs(s: State, steps: seq<Step>, t: State)
    decreases |steps|
  {
    if steps == [] then s == t
    else Enabled(s, steps[0]) && Runs(Apply(s, steps[0]), steps[1..], t)
  }

  // ---- Invariants --------------------------------------------------------------

  ghost predicate NoneRunning(s: State) { forall p :: 0 <= p < |s.running| ==> !s.running[p] }

  // The supervisor's position fixes how many starts, restarts and exits there
  // have been; only the current process can be running.
  ghost predicate LifeInv(s: State) {
    && s.restartsUsed <= 1
    && (s.current == if s.running == [] then None else Some(|s.running| - 1))
    && (forall p :: 0 <= p < |s.running| - 1 ==> !s.running[p])
    && (s.unhealthy <==> s.supervisor == Quit)
    && (match s.supervisor
        case NotRunning => s.restartsUsed == 0 && |s.running| <= 1 && s.exitsObserved == 0
        case Waiting(p) =>
          s.current == Some(p) && |s.running| == s.restartsUsed + 1 && s.exitsObserved == s.restartsUsed
        case Observed => |s.running| == s.restartsUsed + 1 == s.exitsObserved && NoneRunning(s)
        case Restarting => s.restartsUsed == |s.running| == s.exitsObserved == 1 && NoneRunning(s)
        case Quit => s.restartsUsed == 1 && |s.running| == s.exitsObserved == 2 && NoneRunning(s)
        case Crashed => s.restartsUsed == |s.running| == s.exitsObserved == 1 && NoneRunning(s))
  }

  lemma StepKeepsLife(s: State, step: Step)
    requires LifeInv(s) && Enabled(s, step)
    ensures LifeInv(Apply(s, step))
  {
  }

  lemma {:induction false} RunKeeps(s: State, steps: seq<Step>, t: State)
    requires Runs(s, steps, t) && LifeInv(s)
    ensures LifeInv(t)
    decreases |steps|
  {
    if steps != [] {
      StepKeepsLife(s, steps[0]);
      RunKeeps(Apply(s, steps[0]), steps[1..], t);
    }
  }

  ghost predicate Grows(s: State, t: State) {
    (s.unhealthy ==> t.unhealthy) && |s.running| <= |t.running|
  }

  lemma StepGrows(s: State, step: Step)
    requires Enabled(s, step)
    ensures Grows(s, Apply(s, step))
  {
  }

  // Nothing is taken back: processes started, the verdict.
  lemma {:induction false} RunGrows(s: State, steps: seq<Step>, t: State)
    requires Runs(s, steps, t)
    ensures Grows(s, t)
    decreases |steps|
  {
    if steps != [] {
      StepGrows(s, steps[0]);
      RunGrows(Apply(s, steps[0]), steps[1..], t);
    }
  }

  lemma BootInv()
    ensures LifeInv(Boot)
  {
  }

  // ---- Main results --------------------------------------------------------------

  // Restart once, then give up: at most two processes ever, and unhealthy exactly
  // when the supervisor observed a second exit.
  lemma AtMostTwoStarts(steps: seq<Step>, t: State)
    requires Runs(Boot, steps, t)
    ensures |t.running| <= 2 && t.restartsUsed <= 1 && t.exitsObserved <= 2
    ensures t.unhealthy ==> t.exitsObserved == 2 && |t.running| == 2 && NoneRunning(t)
  {
    BootInv();
    RunKeeps(Boot, steps, t);
  }

  // Giving up is final: nothing runs again, and no call that asks is told yes.
  lemma GivingUpIsFinal(before: seq<Step>, s: State, after: seq<Step>, t: State)
    requires Runs(Boot, before, s) && s.unhealthy && Runs(s, after, t)
    ensures t.unhealthy && NoneRunning(t) && |t.running| == |s.running|
    ensures forall c :: Enabled(t, ReadUnhealthy(c)) ==> At(Apply(t, ReadUnhealthy(c)), c, Refused)
    ensures forall c, busy :: Enabled(t, Poll(c, busy)) ==> At(Apply(t, Poll(c, busy)), c, Refused)
  {
    BootInv();
    RunKeeps(Boot, before, s);
    RunKeeps(s, after, t);
    RunGrows(s, after, t);
  }

  // alive() reads three things at three moments, yet when it answers yes the
  // process it polled is the current one, the only one that can be running, and
  // the child had not been given up. It is running, unless the supervisor is still
  // waiting for that very process and has not yet been told of its exit.
  lemma AliveMeansRunning(steps: seq<Step>, s: State, call: nat, busy: bool)
    requires Runs(Boot, steps, s) && Enabled(s, Poll(call, busy))
    ensures At(Apply(s, Poll(call, busy)), call, AliveSeen) <==> !NoneRunning(s) || busy
    ensures !NoneRunning(s) || busy ==>
              && s.current == Some(|s.running| - 1) && !s.unhealthy
              && (s.running[|s.running| - 1] || s.supervisor == Waiting(|s.running| - 1))
              && forall p :: 0 <= p < |s.running| && s.running[p] ==> p == s.current.value
  {
    BootInv();
    RunKeeps(Boot, steps, s);
    if !NoneRunning(s) {
      var p :| 0 <= p < |s.running| && s.running[p];
      assert p == |s.running| - 1;
    }
  }

  // A first exit is followed by a second start as soon as the supervisor gets to
  // run and Popen succeeds.
  lemma FirstExitIsRepaired(steps: seq<Step>, s: State) returns (t: State)
    requires Runs(Boot, steps, s) && s.supervisor.Waiting? && s.restartsUsed == 0 && NoneRunning(s)
    ensures Runs(s, [WaitReturns, Decide, Restart], t)
    ensures t.current == Some(1) && t.running == [false, true] && !t.unhealthy
  {
    BootInv();
    RunKeeps(Boot, steps, s);
    var s1 := Apply(s, WaitReturns);
    var s2 := Apply(s1, Decide);
    t := Apply(s2, Restart);
    assert [WaitReturns, Decide, Restart][1..] == [Decide, Restart];
    assert [Decide, Restart][1..] == [Restart];
    assert [Restart][1..] == [];
    assert Runs(s2, [Restart], t) && Runs(s1, [Decide, Restart], t);
  }

  // ---- When a forward comes too late ---------------------------------------------

  // The evidence of a call is the process its alive() polled; afterwards only that
  // process's own exit can make it void.
  lemma {:induction false} RunningUnlessExited(s: State, steps: seq<Step>, t: State, p: nat)
    requires Runs(s, steps, t) && p < |s.running|
    ensures p < |t.running| && (t.running[p] <==> s.running[p] && ProcessExits(p) !in steps)
    decreases |steps|
  {
    if steps != [] {
      var u := Apply(s, steps[0]);
      assert u.running[p] <==> s.running[p] && steps[0] != ProcessExits(p);
      RunningUnlessExited(u, steps[1..], t, p);
      assert steps == [steps[0]] + steps[1..];
    }
  }

  function Decisions(steps: seq<Step>): nat { multiset(steps)[Decide] }

  // The first decision is the restart, the second is giving up.
  lemma {:induction false} DecisionsCount(s: State, steps: seq<Step>, t: State)
    requires Runs(s, steps, t) && LifeInv(s)
    ensures LifeInv(t)
    ensures t.restartsUsed + (if t.unhealthy then 1 else 0)
            == s.restartsUsed + (if s.unhealthy then 1 else 0) + Decisions(steps)
    decreases |steps|
  {
    if steps != [] {
      StepKeepsLife(s, steps[0]);
      DecisionsCount(Apply(s, steps[0]), steps[1..], t);
      assert steps == [steps[0]] + steps[1..];
    }
  }

  // A second process exists exactly if there was a restart, and runs until its
  // own exit.
  lemma {:induction false} SecondProcess(s: State, steps: seq<Step>, t: State)
    requires Runs(s, steps, t) && LifeInv(s) && |s.running| == 1
    ensures |t.running| == (if Restart in steps then 2 else 1)
    ensures Restart in steps ==> (t.running[1] <==> ProcessExits(1) !in steps)
    decreases |steps|
  {
    if steps != [] {
      var u := Apply(s, steps[0]);
      StepKeepsLife(s, steps[0]);
      assert steps == [steps[0]] + steps[1..];
      if steps[0] == Restart {
        RunningUnlessExited(u, steps[1..], t, 1);
        DecisionsCount(u, steps[1..], t);
        RunGrows(u, steps[1..], t);
      } else {
        SecondProcess(u, steps[1..], t);
      }
    }
  }

  // A run up to the forwarding of call c: `before` leads to the state `polled`
  // in which alive() polled and said yes, `after` is what came since.
  ghost predicate Evidence(steps: seq<Step>, c: nat, before: seq<Step>, polled: State, busy: bool, after: seq<Step>,
                           t: State) {
    && steps == before + [Poll(c, busy)] + after
    && NoPoll(before, c) && NoPoll(after, c)
    && Runs(Boot, before, polled) && Enabled(polled, Poll(c, busy)) && SeenAlive(Apply(polled, Poll(c, busy)), c)
    && Runs(Apply(polled, Poll(c, busy)), after, t)
  }

  ghost predicate NoPoll(steps: seq<Step>, c: nat) {
    forall i :: 0 <= i < |steps| ==> !(steps[i].Poll? && steps[i].call == c)
  }

  ghost predicate SeenAlive(s: State, c: nat) { At(s, c, AliveSeen) || At(s, c, ProbePassed) || At(s, c, Forwarded) }

  lemma NoPollCons(step: Step, rest: seq<Step>, c: nat)
    requires !(step.Poll? && step.call == c) && NoPoll(rest, c)
    ensures NoPoll([step] + rest, c)
  {
  }

  lemma {:induction false} OnePoll(s: State, steps: seq<Step>, t: State, c: nat)
    requires Runs(s, steps, t) && (SeenAlive(s, c) || At(s, c, Refused))
    ensures NoPoll(steps, c) && (At(s, c, Refused) ==> At(t, c, Refused))
    decreases |steps|
  {
    if steps != [] {
      OnePoll(Apply(s, steps[0]), steps[1..], t, c);
      assert steps == [steps[0]] + steps[1..];
      NoPollCons(steps[0], steps[1..], c);
    }
  }

  lemma FirstSight(s: State, step: Step, c: nat)
    requires Enabled(s, step) && !SeenAlive(s, c)
    ensures SeenAlive(Apply(s, step), c) ==> step.Poll? && step.call == c
    ensures step.Poll? && step.call == c && !SeenAlive(Apply(s, step), c) ==> At(Apply(s, step), c, Refused)
  {
  }

  // Every call that is about to be forwarded polled once, and was told yes.
  lemma {:induction false} FindPoll(s: State, steps: seq<Step>, t: State, c: nat)
    returns (before: seq<Step>, polled: State, busy: bool, after: seq<Step>)
    requires Runs(s, steps, t) && !SeenAlive(s, c) && SeenAlive(t, c)
    ensures steps == before + [Poll(c, busy)] + after && NoPoll(before, c) && NoPoll(after, c)
    ensures Runs(s, before, polled) && Enabled(polled, Poll(c, busy))
    ensures SeenAlive(Apply(polled, Poll(c, busy)), c) && Runs(Apply(polled, Poll(c, busy)), after, t)
    decreases |steps|
  {
    var u := Apply(s, steps[0]);
    FirstSight(s, steps[0], c);
    assert steps == [steps[0]] + steps[1..];
    if SeenAlive(u, c) {
      before, polled, busy, after := [], s, steps[0].busy, steps[1..];
      OnePoll(u, after, t, c);
    } else {
      if At(u, c, Refused) {
        OnePoll(u, steps[1..], t, c);
      }
      before, polled, busy, after := FindPoll(u, steps[1..], t, c);
      Prepend(s, steps[0], before, polled);
      NoPollCons(steps[0], before, c);
      Regroup(steps[0], before, [Poll(c, busy)], after);
      before := [steps[0]] + before;
    }
  }

  lemma Regroup<T>(x: T, a: seq<T>, b: seq<T>, c: seq<T>)
    ensures [x] + (a + b + c) == ([x] + a) + b + c
  {
  }

  // In every run, when a call is forwarded: the process it asked about is running
  // if and only if it was when polled and has not exited since; the child has been
  // given up if and only if the supervisor has decided twice.
  lemma ForwardIsLateIff(steps: seq<Step>, t: State, c: nat)
    returns (before: seq<Step>, polled: State, busy: bool, after: seq<Step>)
    requires Runs(Boot, steps, t) && Enabled(t, Send(c))
    ensures Evidence(steps, c, before, polled, busy, after, t)
    ensures var p := polled.current.value;
            p < |t.running| && (t.running[p] <==> polled.running[p] && ProcessExits(p) !in after)
    ensures t.unhealthy <==> Decisions(steps) == 2
    ensures Decisions(before) < 2
  {
    before, polled, busy, after := FindPoll(Boot, steps, t, c);
    BootInv();
    RunKeeps(Boot, before, polled);
    RunningUnlessExited(Apply(polled, Poll(c, busy)), after, t, polled.current.value);
    DecisionsCount(Boot, steps, t);
    DecisionsCount(Boot, before, polled);
    NotYetGivenUp(polled, c, busy);
  }

  lemma NotYetGivenUp(s: State, c: nat, busy: bool)
    requires LifeInv(s) && Enabled(s, Poll(c, busy)) && SeenAlive(Apply(s, Poll(c, busy)), c)
    ensures !s.unhealthy
  {
  }

  // And some process is there to take the call exactly if that one is, or it was
  // replaced and its replacement has not exited.
  lemma SomeoneAnswersIff(steps: seq<Step>, t: State, c: nat)
    returns (before: seq<Step>, polled: State, busy: bool, after: seq<Step>)
    requires Runs(Boot, steps, t) && Enabled(t, Send(c))
    ensures Evidence(steps, c, before, polled, busy, after, t)
    ensures var p := polled.current.value;
            !NoneRunning(t) <==>
            || (polled.running[p] && ProcessExits(p) !in after)
            || (Restart in after && ProcessExits(p + 1) !in after)
  {
    before, polled, busy, after := FindPoll(Boot, steps, t, c);
    SinceThePoll(before, polled, c, busy, after, t);
  }

  lemma SinceThePoll(before: seq<Step>, polled: State, c: nat, busy: bool, after: seq<Step>, t: State)
    requires Runs(Boot, before, polled) && Enabled(polled, Poll(c, busy))
    requires Runs(Apply(polled, Poll(c, busy)), after, t)
    ensures var p := polled.current.value;
            && p < |polled.running|
            && (!NoneRunning(t) <==>
                || (polled.running[p] && ProcessExits(p) !in after)
                || (Restart in after && ProcessExits(p + 1) !in after))
  {
    var s := Apply(polled, Poll(c, busy));
    DecisionsCount(Boot, before, polled);
    PollChangesNoProcess(polled, c, busy);
    DecisionsCount(s, after, t);
    SomeoneRuns(s, after, t);
  }

  lemma PollChangesNoProcess(s: State, c: nat, busy: bool)
    requires LifeInv(s) && Enabled(s, Poll(c, busy))
    ensures var u := Apply(s, Poll(c, busy));
            LifeInv(u) && u.running == s.running && u.current == s.current
  {
  }

  lemma SomeoneRuns(s: State, steps: seq<Step>, t: State)
    requires Runs(s, steps, t) && LifeInv(s) && LifeInv(t) && s.current.Some?
    ensures var p := s.current.value;
            && p < |s.running|
            && (!NoneRunning(t) <==>
                || (s.running[p] && ProcessExits(p) !in steps)
                || (Restart in steps && ProcessExits(p + 1) !in steps))
  {
    var p := s.current.value;
    CurrentIsLast(s);
    RunningUnlessExited(s, steps, t, p);
    if |s.running| == 1 {
      SecondProcess(s, steps, t);
    } else {
      NoRestartLeft(s, steps, t);
    }
  }

  lemma CurrentIsLast(s: State)
    requires LifeInv(s) && s.current.Some?
    ensures s.current == Some(|s.running| - 1) && 1 <= |s.running| <= 2
  {
  }

  lemma {:induction false} NoRestartLeft(s: State, steps: seq<Step>, t: State)
    requires Runs(s, steps, t) && LifeInv(s) && |s.running| == 2
    ensures Restart !in steps && |t.running| == 2
    decreases |steps|
  {
    if steps != [] {
      StepKeepsLife(s, steps[0]);
      NoRestartLeft(Apply(s, steps[0]), steps[1..], t);
      assert steps == [steps[0]] + steps[1..];
    }
  }

  // Both happen: a call is forwarded after both processes are gone and the child
  // has been given up.
  lemma ForwardMayComeTooLate() returns (steps: seq<Step>, t: State)
    ensures Runs(Boot, steps, t) && Enabled(t, Send(0)) && t.unhealthy && NoneRunning(t)
  {
    var first := GatherEvidence();
    var rest: seq<Step>;
    rest, t := GiveUp();
    RunsCompose(Boot, first, EVIDENCE, rest, t);
    steps := first + rest;
  }

  // A call is about to poll process 0.
  ghost const ASKING: State := State([true], Some(0), 0, false, Waiting(0), 0, map[0 := ProcRead])

  // It has seen process 0 alive and probed it.
  ghost const EVIDENCE: State :=
    State([true], Some(0), 0, false, Waiting(0), 0, map[0 := ProbePassed])

  lemma StartAsking() returns (steps: seq<Step>)
    ensures Runs(Boot, steps, ASKING)
  {
    var s1 := Apply(Boot, StartChild);
    var s2 := Apply(s1, SpawnSupervisor);
    var s3 := Apply(s2, Enter(0));
    var s4 := Apply(s3, ReadUnhealthy(0));
    assert Apply(s4, ReadProc(0)) == ASKING;
    steps := [];
    Prepend(s4, ReadProc(0), steps, ASKING);
    steps := [ReadProc(0)] + steps;
    Prepend(s3, ReadUnhealthy(0), steps, ASKING);
    steps := [ReadUnhealthy(0)] + steps;
    Prepend(s2, Enter(0), steps, ASKING);
    steps := [Enter(0)] + steps;
    Prepend(s1, SpawnSupervisor, steps, ASKING);
    steps := [SpawnSupervisor] + steps;
    Prepend(Boot, StartChild, steps, ASKING);
    steps := [StartChild] + steps;
  }

  lemma GatherEvidence() returns (steps: seq<Step>)
    ensures Runs(Boot, steps, EVIDENCE)
  {
    var asking := StartAsking();
    var s6 := Apply(ASKING, Poll(0, false));
    assert Apply(s6, Probe(0, true)) == EVIDENCE;
    steps := [];
    Prepend(s6, Probe(0, true), steps, EVIDENCE);
    steps := [Probe(0, true)] + steps;
    Prepend(ASKING, Poll(0, false), steps, EVIDENCE);
    steps := [Poll(0, false)] + steps;
    RunsCompose(Boot, asking, ASKING, steps, EVIDENCE);
    steps := asking + steps;
  }

  // An exit that the supervisor has not been told of yet goes unnoticed: in some
  // run alive() says yes when no process is left.
  lemma AliveMayBeStale() returns (steps: seq<Step>, s: State)
    ensures Runs(Boot, steps, s) && NoneRunning(s) && Enabled(s, Poll(0, true))
    ensures At(Apply(s, Poll(0, true)), 0, AliveSeen)
  {
    var asking := StartAsking();
    s := Apply(ASKING, ProcessExits(0));
    steps := [];
    Prepend(ASKING, ProcessExits(0), steps, s);
    steps := [ProcessExits(0)] + steps;
    RunsCompose(Boot, asking, ASKING, steps, s);
    steps := asking + steps;
  }

  lemma GiveUp() returns (steps: seq<Step>, t: State)
    ensures Runs(EVIDENCE, steps, t)
    ensures t.unhealthy && NoneRunning(t) && At(t, 0, ProbePassed)
  {
    var first := WatchedExit(EVIDENCE, false);
    var s := AfterExit(EVIDENCE, false);
    var second := WatchedExit(s, false);
    t := AfterExit(s, false);
    RunsCompose(EVIDENCE, first, s, second, t);
    steps := first + second;
  }

  // ---- The class and the machine ---------------------------------------------------

  // The supervisor waits for the running current process.
  ghost predicate Watching(s: State) {
    LifeInv(s) && s.supervisor.Waiting? && s.running[s.supervisor.p]
  }

  // Where the machine is once the watched process has exited and the supervisor
  // has dealt with that.
  ghost function AfterExit(s: State, popenRaises: bool): State
    requires Watching(s)
  {
    var s1 := Apply(s, ProcessExits(s.supervisor.p));
    var s2 := Apply(s1, WaitReturns);
    var s3 := Apply(s2, Decide);
    if GivesUp(s.restartsUsed) then s3 else Apply(s3, if popenRaises then RestartRaises else Restart)
  }

  lemma WatchedExit(s: State, popenRaises: bool) returns (steps: seq<Step>)
    requires Watching(s)
    ensures Runs(s, steps, AfterExit(s, popenRaises))
  {
    var p := s.supervisor.p;
    var s1 := Apply(s, ProcessExits(p));
    var s2 := Apply(s1, WaitReturns);
    var s3 := Apply(s2, Decide);
    var t := AfterExit(s, popenRaises);
    steps := [];
    if !GivesUp(s.restartsUsed) {
      var last := if popenRaises then RestartRaises else Restart;
      Prepend(s3, last, steps, t);
      steps := [last] + steps;
    }
    Prepend(s2, Decide, steps, t);
    steps := [Decide] + steps;
    Prepend(s1, WaitReturns, steps, t);
    steps := [WaitReturns] + steps;
    Prepend(s, ProcessExits(p), steps, t);
    steps := [ProcessExits(p)] + steps;
  }

  // Whatever exits the supervisor loop is given, the machine has a run in which
  // the supervisor comes to the same verdict with the same restarts and processes.
  lemma {:induction false} LoopIsTheMachine(s: State, exits: seq<Exit>) returns (steps: seq<Step>, t: State)
    requires Watching(s)
    ensures Runs(s, steps, t)
    ensures var w := Watch(s.restartsUsed, |s.running|, exits);
            && t.restartsUsed == w.restartsUsed && |t.running| == w.spawned
            && (t.unhealthy <==> w.verdict == GaveUp)
            && (match w.verdict
                case StillWaiting => Watching(t)
                case GaveUp => t.supervisor == Quit
                case ThreadDied => t.supervisor == Crashed)
    decreases |exits|
  {
    if exits == [] {
      steps, t := [], s;
    } else {
      var raises := exits[0].popenRaises;
      steps := WatchedExit(s, raises);
      t := AfterExit(s, raises);
      if !GivesUp(s.restartsUsed) && !raises {
        var more: seq<Step>, u := LoopIsTheMachine(t, exits[1..]);
        RunsCompose(s, steps, t, more, u);
        steps, t := steps + more, u;
      }
    }
  }

  lemma {:induction false} RunsCompose(s: State, first: seq<Step>, u: State, rest: seq<Step>, t: State)
    requires Runs(s, first, u) && Runs(u, rest, t)
    ensures Runs(s, first + rest, t)
    decreases |first|
  {
    if first == [] {
      assert first + rest == rest;
    } else {
      RunsCompose(Apply(s, first[0]), first[1..], u, rest, t);
      assert (first + rest)[1..] == first[1..] + rest;
    }
  }

  lemma Prepend(s: State, step: Step, rest: seq<Step>, t: State)
    requires Enabled(s, step) && Runs(Apply(s, step), rest, t)
    ensures Runs(s, [step] + rest, t)
  {
    assert ([step] + rest)[1..] == rest;
  }
}
