/** The idle timeout of one upstream attempt and the budget it shares with the attempts before it.

The timer's goroutine and the request's goroutine interleave at every step that the source does not
do under one lock: the runtime fires the timer, the watcher receives the tick, captures the generation,
starts handling, reads the first-token flag, and concludes; Reset, Stop, the first token and outside
cancellation can come in between wherever no lock forbids it. */
module IdleTimer {

  datatype Reason = PerIdle | Total

  datatype Watcher =
    | Absent                  // no goroutine was started
    | Waiting                 // in select
    | Received                // a tick was taken from the channel
    | Captured(gen: nat)      // the generation was read
    | Charged                 // handling, lock held, budget consumed
    | Deciding(flag: bool)    // handling, lock held, first-token flag read
    | Exited

  datatype State = State(
    initial: int, remaining: int,            // the shared budget
    perIdle: int,
    armed: bool, tick: bool,                 // the runtime timer runs; its channel holds a tick
    generation: nat, resets: nat,
    stopped: bool, timedOut: bool, reason: Reason, firstToken: bool,
    cancelled: bool,                         // the attempt's context
    watcher: Watcher,
    effective: nat,                          // timeouts of this timer that consumed budget
    charges: nat)                            // the same, on the budget, since it was last full

  datatype Step =
    | Fire | Receive | Capture | Charge | ReadFlag | Conclude | Exit
    | Reset | Stop(dropsTick: bool) | FirstToken | CancelOutside

  function AfterConsuming(remaining: int, d: int): int {
    if remaining - d < 0 then 0 else remaining - d
  }

  // ---------- The transition system ----------

  function NewTimer(initial: int, remaining: int, perIdle: int, charges: nat): State {
    if remaining <= 0
    then State(initial, remaining, perIdle, false, false, 0, 0, false, false, Total, false, true, Absent, 0, charges)
    else State(initial, remaining, perIdle, true, false, 0, 0, false, false, PerIdle, false, false, Waiting, 0, charges)
  }

  predicate LockHeld(s: State) {
    s.watcher.Charged? || s.watcher.Deciding?
  }

  predicate Enabled(s: State, step: Step) {
    match step
    case Fire => s.armed
    case Receive => s.watcher.Waiting? && s.tick
    case Capture => s.watcher.Received?
    case Charge => s.watcher.Captured?
    case ReadFlag => s.watcher.Charged?
    case Conclude => s.watcher.Deciding?
    case Exit => s.watcher.Waiting? && s.cancelled
    case Reset => !LockHeld(s)
    case Stop(_) => !LockHeld(s)
    case FirstToken => true
    case CancelOutside => true
  }

  function Apply(s: State, step: Step): State
    requires Enabled(s, step)
  {
    match step
    case Fire => s.(armed := false, tick := true)
    case Receive => s.(tick := false, watcher := Received)
    case Capture => s.(watcher := if s.stopped then Exited else Captured(s.generation))
    case Charge =>
      if s.stopped || s.generation != s.watcher.gen then s.(watcher := Waiting)
      else
        var left := AfterConsuming(s.remaining, s.perIdle);
        s.(remaining := left, reason := if left <= 0 then Total else PerIdle, watcher := Charged,
           effective := s.effective + 1, charges := s.charges + 1)
    case ReadFlag => s.(watcher := Deciding(s.firstToken))
    case Conclude =>
      if s.watcher.flag then s.(watcher := Waiting) else s.(timedOut := true, cancelled := true, watcher := Waiting)
    case Exit => s.(armed := false, tick := false, watcher := Exited)
    case Reset =>
      if s.stopped then s
      else s.(generation := s.generation + 1, remaining := s.initial, charges := 0,
              armed := if s.watcher.Absent? then s.armed else true,
              tick := if s.watcher.Absent? then s.tick else false,
              resets := s.resets + 1, timedOut := false)
    case Stop(dropsTick) =>
      if s.stopped then s else s.(stopped := true, armed := false, tick := s.tick && !dropsTick)
    case FirstToken => s.(firstToken := true)
    case CancelOutside => s.(cancelled := true)
  }

  ghost predicate IsRun(s: State, steps: seq<Step>)
    decreases |steps|
  {
    steps == [] || (Enabled(s, steps[0]) && IsRun(Apply(s, steps[0]), steps[1..]))
  }

  ghost function RunTo(s: State, steps: seq<Step>): State
    requires IsRun(s, steps)
    decreases |steps|
  {
    if steps == [] then s else RunTo(Apply(s, steps[0]), steps[1..])
  }

  // ---------- The same as objects ----------

  class IdleTracker {
    const initialBudget: int
    var remainingBudget: int
    ghost var charges: nat

    constructor (totalBudget: int)
      ensures initialBudget == totalBudget && remainingBudget == totalBudget && charges == 0
    {
      initialBudget := totalBudget;
      remainingBudget, charges := totalBudget, 0;
    }

    method Remaining() returns (r: int)
      ensures r == remainingBudget
    {
      r := remainingBudget;
    }

    method Consume(d: int)
      modifies this
      ensures remainingBudget == AfterConsuming(old(remainingBudget), d) && charges == old(charges) + 1
    {
      remainingBudget := remainingBudget - d;
      if remainingBudget < 0 {
        remainingBudget := 0;
      }
      charges := charges + 1;
    }

    method Reset()
      modifies this
      ensures remainingBudget == initialBudget && charges == 0
    {
      remainingBudget, charges := initialBudget, 0;
    }
  }

  class AttemptTimer {
    const perIdle: int
    const tracker: IdleTracker
    var armed: bool
    var tick: bool
    var generation: nat
    var resetCount: nat
    var stopped: bool
    var timedOut: bool
    var reason: Reason
    var firstTokenReceived: bool
    var cancelled: bool
    var watcher: Watcher
    ghost var effective: nat

    ghost function Now(): State
      reads this, tracker
    {
      State(tracker.initialBudget, tracker.remainingBudget, perIdle, armed, tick, generation, resetCount,
            stopped, timedOut, reason, firstTokenReceived, cancelled, watcher, effective, tracker.charges)
    }

    ghost predicate Valid()
      reads this, tracker
    {
      Inv(Now())
    }

    constructor (perIdle: int, tracker: IdleTracker)
      ensures this.tracker == tracker
      ensures InOrder(tracker.initialBudget, tracker.remainingBudget, perIdle, tracker.charges) ==> Valid()
      ensures Now() == NewTimer(tracker.initialBudget, tracker.remainingBudget, perIdle, tracker.charges)
    {
      this.perIdle, this.tracker := perIdle, tracker;
      generation, resetCount, effective := 0, 0, 0;
      stopped, timedOut, firstTokenReceived, tick := false, false, false, false;
      var exhausted := tracker.remainingBudget <= 0;
      reason := if exhausted then Total else PerIdle;
      cancelled := exhausted;
      armed := !exhausted;
      watcher := if exhausted then Absent else Waiting;
      new;
      if InOrder(tracker.initialBudget, tracker.remainingBudget, perIdle, tracker.charges) {
        NewTimerInv(tracker.initialBudget, perIdle, tracker.charges);
      }
    }

    // watch: the tick is taken from the channel.
    method ReceiveTick()
      requires Enabled(Now(), Receive)
      modifies this
      ensures Now() == Apply(old(Now()), Receive)
      ensures old(Valid()) ==> Valid()
    {
      ghost var was := Now();
      if Inv(was) {
        StepInv(was, Receive);
      }
      tick := false;
      watcher := Received;
    }

    // watch: generation and stopped flag are read under the lock.
    method CaptureGeneration()
      requires Enabled(Now(), Capture)
      modifies this
      ensures Now() == Apply(old(Now()), Capture)
      ensures old(Valid()) ==> Valid()
    {
      ghost var was := Now();
      if Inv(was) {
        StepInv(was, Capture);
      }
      watcher := if stopped then Exited else Captured(generation);
    }

    // handleTimeout up to the first-token flag.
    method BeginTimeout()
      requires Enabled(Now(), Charge)
      modifies this, tracker
      ensures Now() == Apply(old(Now()), Charge)
      ensures old(Valid()) ==> Valid()
    {
      ghost var was := Now();
      ChargeTracker();
      if Inv(was) {
        ChargeInv(was);
      }
    }

    method ChargeTracker()
      requires Enabled(Now(), Charge)
      modifies this, tracker
      ensures Now() == Apply(old(Now()), Charge)
    {
      if stopped || generation != watcher.gen {
        watcher := Waiting;
        return;
      }
      tracker.Consume(perIdle);
      effective := effective + 1;
      var remaining := tracker.Remaining();
      reason := if remaining <= 0 then Total else PerIdle;
      watcher := Charged;
    }

    // handleTimeout: the flag is read under its own lock.
    method ReadFirstTokenFlag()
      requires Enabled(Now(), ReadFlag)
      modifies this
      ensures Now() == Apply(old(Now()), ReadFlag)
      ensures old(Valid()) ==> Valid()
    {
      ghost var was := Now();
      if Inv(was) {
        StepInv(was, ReadFlag);
      }
      watcher := Deciding(firstTokenReceived);
    }

    // handleTimeout: log only, or cancel the attempt.
    method ConcludeTimeout()
      requires Enabled(Now(), Conclude)
      modifies this
      ensures Now() == Apply(old(Now()), Conclude)
      ensures old(Valid()) ==> Valid()
    {
      ghost var was := Now();
      if Inv(was) {
        StepInv(was, Conclude);
      }
      if !watcher.flag {
        timedOut := true;
        cancelled := true;
      }
      watcher := Waiting;
    }

    method ResetTimer()
      requires Enabled(Now(), Reset)
      modifies this, tracker
      ensures Now() == Apply(old(Now()), Reset)
      ensures !old(stopped) && !old(watcher).Absent? ==>
                armed && !tick && tracker.remainingBudget == tracker.initialBudget
      ensures old(Valid()) ==> Valid()
    {
      ghost var was := Now();
      if Inv(was) {
        ResetInv(was);
      }
      if stopped {
        return;
      }
      generation := generation + 1;
      tracker.Reset();
      if !watcher.Absent? {
        tick := false;
        armed := true;
      }
      resetCount := resetCount + 1;
      timedOut := false;
    }

    method StopTimer(dropsTick: bool)
      requires Enabled(Now(), Stop(dropsTick))
      modifies this
      ensures Now() == Apply(old(Now()), Stop(dropsTick))
      ensures old(Valid()) ==> Valid()
    {
      ghost var was := Now();
      if Inv(was) {
        StepInv(was, Stop(dropsTick));
      }
      if stopped {
        return;
      }
      stopped := true;
      armed := false;
      tick := tick && !dropsTick;
    }

    method SetFirstTokenReceived()
      modifies this
      ensures Now() == Apply(old(Now()), FirstToken)
      ensures old(Valid()) ==> Valid()
    {
      ghost var was := Now();
      if Inv(was) {
        StepInv(was, FirstToken);
      }
      firstTokenReceived := true;
    }
  }

  // ---------- Invariant ----------

  function Pending(s: State): nat {
    (if s.armed then 1 else 0) + (if s.tick then 1 else 0)
    + (if s.watcher.Received? || s.watcher.Captured? then 1 else 0)
  }

  function Left(initial: int, perIdle: int, charges: nat): int {
    if initial - charges * perIdle < 0 then 0 else initial - charges * perIdle
  }

  // The budget is what the timeouts since it was last full leave of it.
  predicate InOrder(initial: int, remaining: int, perIdle: int, charges: nat) {
    initial >= 0 && perIdle >= 0 && remaining == Left(initial, perIdle, charges)
  }

  ghost predicate Inv(s: State) {
    InOrder(s.initial, s.remaining, s.perIdle, s.charges) && Sound(s)
  }

  // All but the arithmetic of the budget.
  ghost predicate Sound(s: State) {
    && 0 <= s.remaining <= s.initial
    && (s.timedOut ==> s.cancelled)
    && (s.watcher.Captured? ==> s.watcher.gen <= s.generation)
    && (s.stopped ==> !LockHeld(s))
    && (s.watcher.Absent? ==> !s.armed && !s.tick)
    && s.effective + Pending(s) <= 1 + s.resets
  }

  lemma NewTimerInv(initial: int, perIdle: int, charges: nat)
    requires initial >= 0 && perIdle >= 0
    ensures Inv(NewTimer(initial, Left(initial, perIdle, charges), perIdle, charges))
  {
  }

  lemma OneMoreCharge(initial: int, perIdle: int, charges: nat)
    requires initial >= 0 && perIdle >= 0
    ensures AfterConsuming(Left(initial, perIdle, charges), perIdle) == Left(initial, perIdle, charges + 1)
  {
  }

  lemma ChargeInv(s: State)
    requires Inv(s) && Enabled(s, Charge)
    ensures Inv(Apply(s, Charge))
  {
    OneMoreCharge(s.initial, s.perIdle, s.charges);
    assert Sound(Apply(s, Charge));
  }

  lemma ResetInv(s: State)
    requires Inv(s) && Enabled(s, Reset)
    ensures Inv(Apply(s, Reset))
  {
    assert 0 * s.perIdle == 0;
  }

  // No other step touches the budget.
  lemma BudgetUntouched(s: State, step: Step)
    requires Enabled(s, step) && !step.Charge? && !step.Reset?
    ensures var t := Apply(s, step);
            t.remaining == s.remaining && t.initial == s.initial && t.perIdle == s.perIdle && t.charges == s.charges
  {
    match step
    case Fire => case Receive => case Capture => case ReadFlag => case Conclude => case Exit =>
    case Stop(_) => case FirstToken => case CancelOutside =>
  }

  lemma OtherSound(s: State, step: Step)
    requires Sound(s) && Enabled(s, step) && !step.Charge? && !step.Reset?
    ensures Sound(Apply(s, step))
  {
    match step
    case Fire => case Receive => case Capture => case ReadFlag => case Conclude => case Exit =>
    case Stop(_) => case FirstToken => case CancelOutside =>
  }

  lemma OtherInv(s: State, step: Step)
    requires Inv(s) && Enabled(s, step) && !step.Charge? && !step.Reset?
    ensures Inv(Apply(s, step))
  {
    BudgetUntouched(s, step);
    OtherSound(s, step);
  }

  lemma StepInv(s: State, step: Step)
    requires Inv(s) && Enabled(s, step)
    ensures Inv(Apply(s, step))
  {
    match step
    case Charge => ChargeInv(s);
    case Reset => ResetInv(s);
    case _ => OtherInv(s, step);
  }

  /** In every interleaving: a timed-out attempt is cancelled, the budget stays between zero and its
  initial value and is exactly what the timeouts since the last data leave of it, and at most one
  timeout takes effect for each time the timer was armed. */
  lemma {:induction false} RunInv(s: State, steps: seq<Step>)
    requires Inv(s) && IsRun(s, steps)
    ensures var r := RunTo(s, steps);
            && Inv(r)
            && (r.timedOut ==> r.cancelled)
            && 0 <= r.remaining <= r.initial
            && r.remaining == Left(r.initial, r.perIdle, r.charges)
            && r.effective <= 1 + r.resets
    decreases |steps|
  {
    if steps != [] {
      StepInv(s, steps[0]);
      RunInv(Apply(s, steps[0]), steps[1..]);
    }
  }

  // ---------- Stop ----------

  // Everything but the watcher's position and the runtime timer.
  datatype Visible = Visible(
    remaining: int, generation: nat, resets: nat, stopped: bool, timedOut: bool, reason: Reason,
    firstToken: bool, cancelled: bool, effective: nat, charges: nat)

  function See(s: State): Visible {
    Visible(s.remaining, s.generation, s.resets, s.stopped, s.timedOut, s.reason, s.firstToken, s.cancelled,
            s.effective, s.charges)
  }

  /** After Stop no tick, timeout, Reset or further Stop changes anything anyone can see. */
  lemma {:induction false} StoppedIsInert(s: State, steps: seq<Step>)
    requires Inv(s) && s.stopped && IsRun(s, steps)
    requires FirstToken !in steps && CancelOutside !in steps
    ensures See(RunTo(s, steps)) == See(s)
    decreases |steps|
  {
    if steps != [] {
      StepInv(s, steps[0]);
      StoppedIsInert(Apply(s, steps[0]), steps[1..]);
    }
  }

  // ---------- Stale ticks ----------

  // After the capture the tick counts exactly if the timer runs on and no Reset has come since.
  lemma {:induction false} CapturedCounts(s: State, steps: seq<Step>)
    requires Inv(s) && s.watcher.Captured? && IsRun(s, steps) && Charge !in steps
    ensures var r := RunTo(s, steps);
            && r.watcher == s.watcher && r.generation >= s.generation
            && (!r.stopped ==> !s.stopped && (Reset in steps <==> r.generation > s.generation))
    decreases |steps|
  {
    if steps != [] {
      StepInv(s, steps[0]);
      CapturedCounts(Apply(s, steps[0]), steps[1..]);
      assert steps == [steps[0]] + steps[1..];
    }
  }

  /** A Reset after the generation was captured makes the pending timeout a no-op, whatever else
  happens in between. */
  lemma StaleTimeoutIgnored(s: State, steps: seq<Step>)
    requires Inv(s) && s.watcher.Captured? && IsRun(s, steps)
    requires Reset in steps && Charge !in steps
    ensures var r := RunTo(s, steps);
            Enabled(r, Charge) && See(Apply(r, Charge)) == See(r) && Apply(r, Charge).watcher == Waiting
  {
    CapturedCounts(s, steps);
  }

  // What happens after the first capture in these steps.
  function AfterCapture(steps: seq<Step>): seq<Step> {
    if steps == [] then [] else if steps[0] == Capture then steps[1..] else AfterCapture(steps[1..])
  }

  // Until the generation is captured a taken tick stays taken, whatever Resets come.
  lemma {:induction false} ReceivedPersists(s: State, steps: seq<Step>)
    requires Inv(s) && s.watcher == Received && IsRun(s, steps) && Capture !in steps
    ensures RunTo(s, steps).watcher == Received
    decreases |steps|
  {
    if steps != [] {
      StepInv(s, steps[0]);
      ReceivedPersists(Apply(s, steps[0]), steps[1..]);
    }
  }

  lemma {:induction false} TakenTick(s: State, steps: seq<Step>)
    requires Inv(s) && s.watcher == Received && IsRun(s, steps) && Charge !in steps
    ensures var r := RunTo(s, steps);
            r.watcher.Captured? && !r.stopped ==> (r.watcher.gen == r.generation <==> Reset !in AfterCapture(steps))
    decreases |steps|
  {
    if Capture !in steps {
      ReceivedPersists(s, steps);
    } else {
      StepInv(s, steps[0]);
      var t := Apply(s, steps[0]);
      if steps[0] != Capture {
        TakenTick(t, steps[1..]);
      } else if t.watcher.Captured? {
        CapturedCounts(t, steps[1..]);
      } else {
        ExitedStays(t, steps[1..]);
      }
    }
  }

  lemma ChargeCounts(s: State)
    requires Inv(s) && s.watcher.Captured?
    ensures Enabled(s, Charge)
    ensures var counts := !s.stopped && s.watcher.gen == s.generation;
            && Apply(s, Charge).effective == (if counts then s.effective + 1 else s.effective)
            && (!counts ==> See(Apply(s, Charge)) == See(s))
  {
  }

  /** Exactly which taken ticks take effect: with any steps in between, the timeout charges the budget if
  and only if the timer has not been stopped and no Reset came after the generation was captured, and
  otherwise nothing changes. Resets between taking the tick and the capture, however many, do not count. */
  lemma TakenTickExactly(s: State, steps: seq<Step>)
    requires Inv(s) && s.watcher == Received && IsRun(s, steps) && Charge !in steps
    requires RunTo(s, steps).watcher.Captured?
    ensures var r := RunTo(s, steps);
            var counts := !r.stopped && Reset !in AfterCapture(steps);
            && Enabled(r, Charge)
            && Apply(r, Charge).effective == (if counts then r.effective + 1 else r.effective)
            && (!counts ==> See(Apply(r, Charge)) == See(r))
  {
    RunInv(s, steps);
    TakenTick(s, steps);
    ChargeCounts(RunTo(s, steps));
  }

  lemma {:induction false} ExitedStays(s: State, steps: seq<Step>)
    requires s.watcher == Exited && IsRun(s, steps)
    ensures RunTo(s, steps).watcher == Exited
    decreases |steps|
  {
    if steps != [] {
      ExitedStays(Apply(s, steps[0]), steps[1..]);
    }
  }

  // One such run: data arrives after the tick was taken, and the old tick still cancels the attempt.
  lemma ResetBeforeCaptureIsMissed(initial: int, perIdle: int)
    requires 0 < perIdle < initial
    ensures var s := NewTimer(initial, initial, perIdle, 0);
            var steps := [Fire, Receive, Reset, Capture, Charge, ReadFlag, Conclude];
            && IsRun(s, steps)
            && RunTo(s, steps).cancelled && RunTo(s, steps).timedOut && RunTo(s, steps).remaining == initial - perIdle
  {
  }

  // ---------- After the first token ----------

  /** Once the first-token flag is set and no timeout has read it as unset, timeouts only log: nothing
  but outside cancellation cancels the attempt any more. */
  lemma {:induction false} FirstTokenProtects(s: State, steps: seq<Step>)
    requires Inv(s) && s.firstToken && s.watcher != Deciding(false) && IsRun(s, steps) && CancelOutside !in steps
    ensures RunTo(s, steps).cancelled == s.cancelled
    ensures RunTo(s, steps).timedOut ==> s.timedOut
    decreases |steps|
  {
    if steps != [] {
      StepInv(s, steps[0]);
      FirstTokenProtects(Apply(s, steps[0]), steps[1..]);
    }
  }

  // ---------- The budget across attempts ----------

  // The next attempt's timer on the same budget; the old timer has been stopped, so by
  // StoppedIsInert whatever its watcher still does can be left out.
  function NextAttempt(s: State): State {
    NewTimer(s.initial, s.remaining, s.perIdle, s.charges)
  }

  // Attempts one after the other, each a run of its own timer.
  ghost predicate AreAttempts(s: State, attempts: seq<seq<Step>>)
    decreases |attempts|
  {
    attempts == []
    || (IsRun(s, attempts[0]) && RunTo(s, attempts[0]).stopped
        && AreAttempts(NextAttempt(RunTo(s, attempts[0])), attempts[1..]))
  }

  ghost function AfterAttempts(s: State, attempts: seq<seq<Step>>): State
    requires AreAttempts(s, attempts)
    decreases |attempts|
  {
    if attempts == [] then s else AfterAttempts(NextAttempt(RunTo(s, attempts[0])), attempts[1..])
  }

  // Effective timeouts over all attempts; each ends one attempt's turn on the budget.
  ghost function Effective(s: State, attempts: seq<seq<Step>>): nat
    requires AreAttempts(s, attempts)
    decreases |attempts|
  {
    if attempts == [] then 0
    else
      var r := RunTo(s, attempts[0]);
      (if r.effective >= s.effective then r.effective - s.effective else 0)
      + Effective(NextAttempt(r), attempts[1..])
  }

  lemma StepCharges(s: State, step: Step)
    requires Enabled(s, step) && !step.Reset?
    ensures var r := Apply(s, step);
            && r.charges - s.charges == r.effective - s.effective
            && r.effective >= s.effective && r.initial == s.initial && r.perIdle == s.perIdle
  {
    if step.Charge? {
    } else if step.Stop? {
    } else {
      assert Apply(s, step).effective == s.effective;
    }
  }

  lemma {:induction false} ChargesWithoutData(s: State, steps: seq<Step>)
    requires Inv(s) && IsRun(s, steps) && Reset !in steps
    ensures RunTo(s, steps).charges - s.charges == RunTo(s, steps).effective - s.effective >= 0
    ensures RunTo(s, steps).initial == s.initial && RunTo(s, steps).perIdle == s.perIdle
    decreases |steps|
  {
    if steps != [] {
      StepInv(s, steps[0]);
      StepCharges(s, steps[0]);
      assert steps[0] in steps && forall x :: x in steps[1..] ==> x in steps;
      ChargesWithoutData(Apply(s, steps[0]), steps[1..]);
    }
  }

  /** Attempts that never receive data: k effective timeouts in all leave max(0, total - k*perIdle). */
  lemma {:induction false} BudgetWithoutData(s: State, attempts: seq<seq<Step>>)
    requires Inv(s) && AreAttempts(s, attempts)
    requires forall a :: a in attempts ==> Reset !in a
    ensures var r := AfterAttempts(s, attempts);
            && Inv(r) && r.initial == s.initial && r.perIdle == s.perIdle
            && r.charges == s.charges + Effective(s, attempts)
            && r.remaining == Left(s.initial, s.perIdle, s.charges + Effective(s, attempts))
    decreases |attempts|
  {
    if attempts != [] {
      var r := RunTo(s, attempts[0]);
      assert attempts[0] in attempts;
      RunInv(s, attempts[0]);
      ChargesWithoutData(s, attempts[0]);
      NewTimerInv(r.initial, r.perIdle, r.charges);
      BudgetWithoutData(NextAttempt(r), attempts[1..]);
    }
  }

  function CeilDiv(a: int, b: int): int
    requires b > 0
  {
    (a + b - 1) / b
  }

  lemma EnoughCharges(total: int, perIdle: int, k: nat)
    requires total >= 0 && perIdle > 0
    ensures k * perIdle >= total <==> k >= CeilDiv(total, perIdle)
  {
    var c := CeilDiv(total, perIdle);
    assert total + perIdle - 1 == perIdle * c + (total + perIdle - 1) % perIdle;
    if k >= c {
      assert perIdle * (k - c) >= 0;
      assert k * perIdle == perIdle * c + perIdle * (k - c);
    } else {
      assert perIdle * (c - 1 - k) >= 0;
      assert k * perIdle == perIdle * c - perIdle - perIdle * (c - 1 - k);
    }
  }

  /** Starting from a full budget, the next attempt is born cancelled with reason total exactly when
  at least ceil(total / perIdle) timeouts took effect without any data; it is not marked timed out. */
  lemma BornCancelled(total: int, perIdle: int, attempts: seq<seq<Step>>)
    requires total > 0 && perIdle > 0
    requires AreAttempts(NewTimer(total, total, perIdle, 0), attempts)
    requires forall a :: a in attempts ==> Reset !in a
    ensures var s := NewTimer(total, total, perIdle, 0);
            var next := NextAttempt(AfterAttempts(s, attempts));
            && (next.cancelled <==> Effective(s, attempts) >= CeilDiv(total, perIdle))
            && (next.cancelled ==> next.reason == Total && next.watcher == Absent)
            && !next.timedOut
  {
    var s := NewTimer(total, total, perIdle, 0);
    assert 0 * perIdle == 0;
    BudgetWithoutData(s, attempts);
    EnoughCharges(total, perIdle, Effective(s, attempts));
  }

  // ---------- What the client makes of a failed call ----------

  datatype ConnectError = TotalIdleTimeout | StreamIdleTimeout | ContextCanceled | ServiceUnavailable

  // The client's reading of a failed connection under this timer.
  function Classify(s: State, errIsCanceled: bool): ConnectError {
    if s.cancelled && s.timedOut then if s.reason.Total? then TotalIdleTimeout else StreamIdleTimeout
    else if errIsCanceled || s.cancelled then ContextCanceled
    else ServiceUnavailable
  }

  // Some timeout cancels the attempt.
  ghost predicate Cancels(s: State, steps: seq<Step>)
    requires IsRun(s, steps)
    decreases |steps|
  {
    steps != []
    && ((steps[0] == Conclude && s.watcher == Deciding(false)) || Cancels(Apply(s, steps[0]), steps[1..]))
  }

  // Data resets the timer while it is not stopped.
  ghost predicate Clears(s: State, steps: seq<Step>)
    requires IsRun(s, steps)
    decreases |steps|
  {
    steps != [] && ((steps[0] == Reset && !s.stopped) || Clears(Apply(s, steps[0]), steps[1..]))
  }

  // Some timeout cancels the attempt and no such Reset follows it.
  ghost predicate CancelsLast(s: State, steps: seq<Step>)
    requires IsRun(s, steps)
    decreases |steps|
  {
    steps != []
    && ((steps[0] == Conclude && s.watcher == Deciding(false) && !Clears(Apply(s, steps[0]), steps[1..]))
        || CancelsLast(Apply(s, steps[0]), steps[1..]))
  }

  /** Over every run: an attempt is cancelled by a timeout or from outside, and by nothing else. */
  lemma {:induction false} CancelledExactly(s: State, steps: seq<Step>)
    requires IsRun(s, steps)
    ensures RunTo(s, steps).cancelled <==> s.cancelled || CancelOutside in steps || Cancels(s, steps)
    decreases |steps|
  {
    if steps != [] {
      CancelledExactly(Apply(s, steps[0]), steps[1..]);
      assert steps == [steps[0]] + steps[1..];
    }
  }

  lemma MarkStep(s: State, step: Step)
    requires Enabled(s, step)
    ensures Apply(s, step).timedOut
            <==> (step == Conclude && s.watcher == Deciding(false)) || (s.timedOut && !(step == Reset && !s.stopped))
  {
  }

  /** Over every run: the mark of a timeout is there exactly if a timeout cancelled the attempt and no data
  came after that. */
  lemma {:induction false} TimedOutExactly(s: State, steps: seq<Step>)
    requires IsRun(s, steps)
    ensures RunTo(s, steps).timedOut <==> CancelsLast(s, steps) || (s.timedOut && !Clears(s, steps))
    decreases |steps|
  {
    if steps != [] {
      MarkStep(s, steps[0]);
      TimedOutExactly(Apply(s, steps[0]), steps[1..]);
    }
  }

  // A timer born with a spent budget has no watcher, so no timeout ever cancels it.
  lemma {:induction false} AbsentNeverCancels(s: State, steps: seq<Step>)
    requires s.watcher == Absent && IsRun(s, steps)
    ensures !Cancels(s, steps) && !CancelsLast(s, steps)
    decreases |steps|
  {
    if steps != [] {
      AbsentNeverCancels(Apply(s, steps[0]), steps[1..]);
    }
  }

  /** Without cancellation from outside, an attempt that its own timer cancelled is reported as an idle
  timeout exactly when some timeout cancelled it and no data came after that; in all other cases, that is
  when the budget was spent from the start or when data followed the last cancelling timeout, it is
  reported as a cancelled context. */
  lemma ReportedExactly(initial: int, perIdle: int, charges: nat, steps: seq<Step>, errIsCanceled: bool)
    requires initial >= 0 && perIdle >= 0
    requires IsRun(NewTimer(initial, Left(initial, perIdle, charges), perIdle, charges), steps)
             && CancelOutside !in steps
    ensures var s := NewTimer(initial, Left(initial, perIdle, charges), perIdle, charges);
            var r := RunTo(s, steps);
            && (r.cancelled <==> s.remaining <= 0 || Cancels(s, steps))
            && (r.cancelled ==>
                  (Classify(r, errIsCanceled) == ContextCanceled <==> s.remaining <= 0 || !CancelsLast(s, steps)))
            && (!r.cancelled ==>
                  Classify(r, errIsCanceled) == if errIsCanceled then ContextCanceled else ServiceUnavailable)
  {
    var s := NewTimer(initial, Left(initial, perIdle, charges), perIdle, charges);
    NewTimerInv(initial, perIdle, charges);
    CancelledExactly(s, steps);
    TimedOutExactly(s, steps);
    if s.remaining <= 0 {
      AbsentNeverCancels(s, steps);
    }
  }

  /** The first input: a timer born with the budget already spent is reported as a cancelled context,
  never as a total idle timeout; one that runs out is reported with its reason. */
  lemma SpentBudgetLooksCancelled(s: State, errIsCanceled: bool)
    requires Inv(s)
    ensures s.remaining <= 0 ==> Classify(NextAttempt(s), errIsCanceled) == ContextCanceled
    ensures s.watcher == Deciding(false) ==>
              Classify(Apply(s, Conclude), errIsCanceled)
              == if s.reason.Total? then TotalIdleTimeout else StreamIdleTimeout
  {
  }

  /** The second input: with budget left, a line that is still read after the timeout cancelled the
  attempt clears the mark, and the timeout is reported as a cancelled context. */
  lemma LateDataLooksCancelled(initial: int, perIdle: int, errIsCanceled: bool)
    requires 0 < perIdle < initial
    ensures var s := NewTimer(initial, initial, perIdle, 0);
            var steps := [Fire, Receive, Capture, Charge, ReadFlag, Conclude, Reset];
            && IsRun(s, steps)
            && RunTo(s, steps).cancelled && RunTo(s, steps).remaining == initial
            && Classify(RunTo(s, steps), errIsCanceled) == ContextCanceled
  {
  }
}
