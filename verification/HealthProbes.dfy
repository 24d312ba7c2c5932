// The adapter's two uses of the child's health URL.

module HealthProbes {
  // The bounded wait at start-up and the single probe before each live invocation.
  // Time is in seconds; the environment decides how long each step takes and what
  // each request answers.

  import opened Text

  // What one urlopen of the health URL can come to.
  datatype Answer =
    | Response(status: int)
    | HttpError(code: int)
    | OsError            // refused, reset, timed out
    | BadUrl             // ValueError
    | BadReply           // any other exception, such as http.client.BadStatusLine

  // The health rule both probes apply: 2xx or 3xx, or any HTTP error when no
  // health path was declared.
  predicate Accepts(answer: Answer, declared: bool) {
    match answer
    case Response(status) => 200 <= status < 400
    case HttpError(_) => !declared
    case OsError => false
    case BadUrl => false
    case BadReply => false
  }

  // What the wait at start-up does not catch. The live probe catches BadUrl.
  predicate EscapesTheWait(answer: Answer) { answer == BadUrl || answer == BadReply }

  // Which answers end the wait, and how.
  lemma AnswersMean(answer: Answer, declared: bool)
    ensures Accepts(answer, declared)
            <==> (answer.Response? && 200 <= answer.status <= 399) || (answer.HttpError? && !declared)
    ensures EscapesTheWait(answer) <==> !answer.Response? && !answer.HttpError? && answer != OsError
  {
  }

  function Min(a: real, b: real): real { if a <= b then a else b }

  function Max(a: real, b: real): real { if a <= b then b else a }

  // ---- The live probe ----------------------------------------------------------

  const LIVE_DEFAULT: real := 2.0
  const LIVE_MAX: real := 5.0
  const FLOOR: real := 0.05

  // What float(raw) makes of the environment variable.
  datatype Reading = NotANumber | Infinite(negative: bool) | NotFinite | Finite(value: real)

  method LiveHealthTimeout(raw: Reading) returns (t: real)
    ensures 0.0 < t <= 5.0
    ensures raw.Finite? && 0.0 < raw.value <= 5.0 ==> t == raw.value
    ensures raw.Finite? && raw.value > 5.0 ==> t == 5.0
    ensures !raw.Finite? || raw.value <= 0.0 ==> t == 2.0
  {
    var timeout := if raw.Finite? then raw.value else LIVE_DEFAULT;
    if timeout <= 0.0 {
      timeout := LIVE_DEFAULT;
    }
    t := Min(timeout, LIVE_MAX);
  }

  datatype Health = Healthy | Unhealthy | Escaped

  method CheckChildHealth(answer: Answer, timeout: real, declared: bool) returns (health: Health, urlTimeout: real)
    ensures health == Healthy <==> (answer.Response? && 200 <= answer.status <= 399) || (answer.HttpError? && !declared)
    ensures health == Escaped <==> answer == BadReply
    ensures 0.05 <= urlTimeout <= 5.0
    ensures 0.05 <= timeout <= 5.0 ==> urlTimeout == timeout
  {
    urlTimeout := Min(Max(timeout, FLOOR), LIVE_MAX);
    match answer
    case Response(status) => health := if 200 <= status < 400 then Healthy else Unhealthy;
    case HttpError(_) => health := if declared then Unhealthy else Healthy;
    case OsError => health := Unhealthy;
    case BadUrl => health := Unhealthy;
    case BadReply => health := Escaped;
  }

  // ---- The wait at start-up -------------------------------------------------------

  // One turn of the polling loop: the time from its clock reading to the second
  // reading, what the child and the request said, how long the request took and
  // how far the sleep overran.
  datatype Turn = Turn(lag: real, gaveUp: bool, answer: Answer, took: real, overrun: real)

  type World = nat -> Turn

  datatype Wait = Wait(start: real, timeout: real, interval: real, declared: bool)

  datatype Outcome = Ready | TimedOut | Raised

  function Deadline(w: Wait): real { w.start + w.timeout }

  // The timeout handed to urlopen, from the clock reading just before it.
  function ProbeTimeout(w: Wait, now: real): (t: real)
    ensures FLOOR <= t <= 2.0 && (t == FLOOR || now + t <= Deadline(w))
  {
    Min(2.0, Max(Deadline(w) - now, FLOOR))
  }

  // The clock when turn k begins.
  function Clock(world: World, w: Wait, k: nat): real {
    if k == 0 then w.start
    else
      var t := world(k - 1);
      Clock(world, w, k - 1) + t.lag + t.took + w.interval + t.overrun
  }

  // A turn takes what its steps take, and the sleep in full.
  lemma TurnTakes(world: World, w: Wait, k: nat)
    ensures Clock(world, w, k + 1) - Clock(world, w, k) - w.interval
            == world(k).lag + world(k).took + world(k).overrun
  {
  }

  // A request may take what is left until the deadline, but at least 0.05 and at
  // most 2 seconds.
  lemma ProbeTimeoutMeans(w: Wait, now: real)
    ensures var left := Deadline(w) - now;
            ProbeTimeout(w, now) == if left > 2.0 then 2.0 else if left < 0.05 then 0.05 else left
  {
  }

  ghost predicate Forward(world: World) {
    forall k :: world(k).lag >= 0.0 && world(k).took >= 0.0 && world(k).overrun >= 0.0
  }

  // No request outlives the timeout it was given, and the steps around it lose at
  // most `slack` in a turn.
  ghost predicate Punctual(world: World, w: Wait, slack: real) { forall k: nat :: PunctualAt(world, w, slack, k) }

  ghost predicate PunctualAt(world: World, w: Wait, slack: real, k: nat) {
    && world(k).took <= ProbeTimeout(w, Clock(world, w, k) + world(k).lag)
    && world(k).lag + world(k).overrun <= slack
  }

  // Turn k neither ends the wait nor is the first past the deadline.
  predicate Fruitless(world: World, w: Wait, k: nat) {
    && Clock(world, w, k) < Deadline(w) && !world(k).gaveUp
    && !Accepts(world(k).answer, w.declared) && !EscapesTheWait(world(k).answer)
  }

  predicate Ends(world: World, w: Wait, k: nat, outcome: Outcome) {
    if Clock(world, w, k) >= Deadline(w) || world(k).gaveUp then outcome == TimedOut
    else if Accepts(world(k).answer, w.declared) then outcome == Ready
    else EscapesTheWait(world(k).answer) && outcome == Raised
  }

  // More turns than this cannot begin.
  function MaxTurns(w: Wait): nat
    requires w.interval > 0.0
  {
    if w.timeout <= 0.0 then 0 else (w.timeout / w.interval).Floor + 1
  }

  lemma PastTheDeadline(w: Wait, n: nat)
    requires w.interval > 0.0 && n >= MaxTurns(w)
    ensures n as real * w.interval >= w.timeout
  {
    if w.timeout > 0.0 {
      var q := w.timeout / w.interval;
      assert n as real >= q;
      Scale(q, n as real, w.interval);
      assert q * w.interval == w.timeout;
    }
  }

  lemma Scale(a: real, b: real, c: real)
    requires a <= b && c > 0.0
    ensures a * c <= b * c
  {
  }

  lemma {:induction false} ClockAdvances(world: World, w: Wait, k: nat)
    requires Forward(world)
    ensures Clock(world, w, k) >= w.start + k as real * w.interval
  {
    if k > 0 {
      ClockAdvances(world, w, k - 1);
      assert k as real * w.interval == (k - 1) as real * w.interval + w.interval;
    }
  }

  // The loop ends at the first turn that is past the deadline, finds the child
  // given up, is accepted, or raises what it does not catch.
  method WaitForChild(world: World, w: Wait) returns (outcome: Outcome, turns: nat, now: real)
    requires w.interval > 0.0 && Forward(world)
    ensures turns <= MaxTurns(w)
    ensures Ends(world, w, turns, outcome)
    ensures forall k :: 0 <= k < turns ==> Fruitless(world, w, k)
    ensures now == Clock(world, w, turns)
                   + (if outcome == TimedOut then 0.0 else world(turns).lag + world(turns).took)
  {
    var deadline := w.start + w.timeout;
    turns, now := 0, w.start;
    while now < deadline
      invariant now == Clock(world, w, turns) && turns <= MaxTurns(w)
      invariant forall k :: 0 <= k < turns ==> Fruitless(world, w, k)
      decreases MaxTurns(w) - turns
    {
      if turns >= MaxTurns(w) {
        PastTheDeadline(w, turns);
        ClockAdvances(world, w, turns);
        assert false;
      }
      var turn := world(turns);
      if turn.gaveUp {
        break;
      }
      now := now + turn.lag;
      now := now + turn.took;
      match turn.answer {
        case Response(status) =>
          if 200 <= status < 400 {
            return Ready, turns, now;
          }
        case HttpError(_) =>
          if !w.declared {
            return Ready, turns, now;
          }
        case OsError =>
        case BadUrl =>
          return Raised, turns, now;
        case BadReply =>
          return Raised, turns, now;
      }
      now := now + w.interval + turn.overrun;
      turns := turns + 1;
    }
    outcome := TimedOut;
  }

  // ---- Main results ------------------------------------------------------------------

  // Each turn that begins is over within the floor, the interval and the slack of
  // the deadline.
  lemma TurnIsBounded(world: World, w: Wait, slack: real, k: nat)
    requires Forward(world) && Punctual(world, w, slack) && w.interval > 0.0
    requires Clock(world, w, k) < Deadline(w)
    ensures Clock(world, w, k) + world(k).lag + world(k).took < Deadline(w) + FLOOR + slack
    ensures Clock(world, w, k + 1) < Deadline(w) + FLOOR + w.interval + slack
  {
    var t := world(k);
    var asked := Clock(world, w, k) + t.lag;
    assert PunctualAt(world, w, slack, k);
    assert t.took <= ProbeTimeout(w, asked);
  }

  lemma SlackIsNotNegative(world: World, w: Wait, slack: real)
    requires Forward(world) && Punctual(world, w, slack)
    ensures slack >= 0.0
  {
    assert PunctualAt(world, w, slack, 0);
  }

  // The first clock reading past the deadline is not far past it.
  lemma OverrunIsBounded(world: World, w: Wait, slack: real, turns: nat)
    requires Forward(world) && Punctual(world, w, slack) && w.interval > 0.0 && w.timeout >= 0.0
    requires turns > 0 ==> Fruitless(world, w, turns - 1)
    ensures Clock(world, w, turns) < Deadline(w) + FLOOR + w.interval + slack
  {
    SlackIsNotNegative(world, w, slack);
    if turns > 0 {
      TurnIsBounded(world, w, slack, turns - 1);
    }
  }

  // However the environment behaves, the wait is over, in a turn that is the
  // only one that can end it, before deadline + 0.05 + interval (and whatever
  // the scheduler lost in one turn).
  lemma WaitIsBounded(world: World, w: Wait, slack: real, outcome: Outcome, turns: nat, now: real)
    requires Forward(world) && Punctual(world, w, slack) && w.interval > 0.0 && w.timeout >= 0.0
    requires Ends(world, w, turns, outcome) && forall k :: 0 <= k < turns ==> Fruitless(world, w, k)
    requires now == Clock(world, w, turns)
                    + (if outcome == TimedOut then 0.0 else world(turns).lag + world(turns).took)
    ensures now < Deadline(w) + 0.05 + w.interval + slack
    ensures outcome != TimedOut ==> now < Deadline(w) + 0.05 + slack
  {
    SlackIsNotNegative(world, w, slack);
    if Clock(world, w, turns) < Deadline(w) {
      TurnIsBounded(world, w, slack, turns);
    } else {
      OverrunIsBounded(world, w, slack, turns);
    }
  }

  // The outcome is determined: two waits in one environment end alike.
  lemma WaitIsDetermined(world: World, w: Wait, o1: Outcome, n1: nat, o2: Outcome, n2: nat)
    requires Ends(world, w, n1, o1) && forall k :: 0 <= k < n1 ==> Fruitless(world, w, k)
    requires Ends(world, w, n2, o2) && forall k :: 0 <= k < n2 ==> Fruitless(world, w, k)
    ensures n1 == n2 && o1 == o2
  {
    EndsIsNotFruitless(world, w, n1, o1);
    EndsIsNotFruitless(world, w, n2, o2);
  }

  lemma EndsIsNotFruitless(world: World, w: Wait, k: nat, outcome: Outcome)
    requires Ends(world, w, k, outcome)
    ensures !Fruitless(world, w, k)
  {
  }

  // Turn k begins in time, and nothing before its request has ended the wait.
  ghost predicate Reaches(world: World, w: Wait, k: nat) {
    && Clock(world, w, k) < Deadline(w) && !world(k).gaveUp
    && forall j: nat :: j < k ==> !world(j).gaveUp && !EscapesTheWait(world(j).answer)
  }

  lemma {:induction false} ClockMonotone(world: World, w: Wait, j: nat, k: nat)
    requires Forward(world) && w.interval > 0.0 && j <= k
    ensures Clock(world, w, j) <= Clock(world, w, k)
    decreases k
  {
    if j < k {
      ClockMonotone(world, w, j, k - 1);
    }
  }

  // A wait succeeds exactly when some request is accepted that is made in time,
  // before the child is given up or another request raises what is not caught.
  lemma ReadyMeansAccepted(world: World, w: Wait, outcome: Outcome, turns: nat)
    requires Forward(world) && w.interval > 0.0
    requires Ends(world, w, turns, outcome) && forall k :: 0 <= k < turns ==> Fruitless(world, w, k)
    ensures outcome == Ready <==> exists k: nat :: Reaches(world, w, k) && Accepts(world(k).answer, w.declared)
  {
    if outcome == Ready {
      forall j: nat | j < turns
        ensures !world(j).gaveUp && !EscapesTheWait(world(j).answer)
      {
        assert Fruitless(world, w, j);
      }
      assert Reaches(world, w, turns);
    } else {
      forall k: nat | Reaches(world, w, k)
        ensures !Accepts(world(k).answer, w.declared)
      {
        if k < turns {
          assert Fruitless(world, w, k);
        } else {
          ClockMonotone(world, w, turns, k);
          assert k == turns || (!world(turns).gaveUp && !EscapesTheWait(world(turns).answer));
        }
      }
    }
  }

  // A last request made just before the deadline still gets the floor, and the
  // sleep after it is never cut short: the bound cannot be lowered.
  lemma BoundIsTight(w: Wait, n: nat, early: real) returns (world: World)
    requires 0.0 < early < 0.05 && w.interval > 0.0 && w.timeout == n as real * w.interval + early
    ensures Forward(world) && Punctual(world, w, 0.0)
    ensures Ends(world, w, n + 1, TimedOut) && forall k :: 0 <= k <= n ==> Fruitless(world, w, k)
    ensures Clock(world, w, n + 1) == Deadline(w) + 0.05 + w.interval - early
  {
    world := k => Turn(0.0, false, OsError, if k == n then FLOOR else 0.0, 0.0);
    forall k: nat | k <= n
      ensures Fruitless(world, w, k)
    {
      SteadyClock(world, w, n, k);
      OnTime(w, n, early, k);
    }
    SteadyClock(world, w, n, n);
  }

  lemma OnTime(w: Wait, n: nat, early: real, k: nat)
    requires 0.0 < early && w.interval > 0.0 && w.timeout == n as real * w.interval + early && k <= n
    ensures w.start + k as real * w.interval < Deadline(w)
  {
    assert k as real <= n as real;
    Scale(k as real, n as real, w.interval);
  }

  lemma {:induction false} SteadyClock(world: World, w: Wait, n: nat, k: nat)
    requires k <= n && forall j: nat :: j < n ==> world(j) == Turn(0.0, false, OsError, 0.0, 0.0)
    ensures Clock(world, w, k) == w.start + k as real * w.interval
  {
    if k > 0 {
      SteadyClock(world, w, n, k - 1);
      assert k as real * w.interval == (k - 1) as real * w.interval + w.interval;
    }
  }
}
