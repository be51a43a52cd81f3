/** Silence is noticed: before the first token a running timer always leads to the cancellation of the attempt,
unless data comes, and data starts it afresh. */
module IdleProgress {
  import opened IdleTimer

  // Nothing has ended the attempt yet.
  ghost predicate Open(s: State) {
    !s.stopped && !s.cancelled && !s.firstToken
  }

  // Of a timeout that is not over yet: the timer runs, its tick waits, the tick was taken and still counts, or
  // the watcher is handling it.
  ghost predicate Live(s: State) {
    && !s.watcher.Absent? && !s.watcher.Exited?
    && (s.watcher.Waiting? ==> s.armed || s.tick)
    && (s.watcher.Captured? ==> s.watcher.gen == s.generation || s.armed || s.tick)
    && s.watcher != Deciding(true)
  }

  lemma LiveStep(s: State, step: Step)
    requires Inv(s) && Enabled(s, step) && Open(s) && Live(s)
    ensures Open(Apply(s, step)) ==> Live(Apply(s, step))
  {
  }

  lemma ClosedStays(s: State, step: Step)
    requires Enabled(s, step) && !Open(s)
    ensures !Open(Apply(s, step))
  {
  }

  lemma {:induction false} LiveRun(s: State, steps: seq<Step>)
    requires Inv(s) && (Open(s) ==> Live(s)) && IsRun(s, steps)
    ensures Inv(RunTo(s, steps)) && (Open(RunTo(s, steps)) ==> Live(RunTo(s, steps)))
    decreases |steps|
  {
    if steps != [] {
      StepInv(s, steps[0]);
      if Open(s) {
        LiveStep(s, steps[0]);
      } else {
        ClosedStays(s, steps[0]);
      }
      LiveRun(Apply(s, steps[0]), steps[1..]);
    }
  }

  // ---------- What the timer and its watcher do by themselves ----------

  predicate Own(step: Step) {
    step.Fire? || step.Receive? || step.Capture? || step.Charge? || step.ReadFlag? || step.Conclude?
  }

  function StepsLeft(s: State): nat {
    (if s.armed then 7 else 0) + (if s.tick then 6 else 0)
    + match s.watcher
      case Received => 5
      case Captured(_) => 4
      case Charged => 3
      case Deciding(_) => 2
      case _ => 1
  }

  lemma OwnStep(s: State, step: Step)
    requires Inv(s) && Enabled(s, step) && Own(step) && Open(s) && Live(s)
    ensures var t := Apply(s, step);
            && StepsLeft(t) < StepsLeft(s)
            && (if t.cancelled then t.timedOut && step == Conclude else Open(t) && Live(t))
            && t.remaining == (if step == Charge && s.watcher.gen == s.generation
                               then AfterConsuming(s.remaining, s.perIdle) else s.remaining)
            && t.initial == s.initial && t.perIdle == s.perIdle
  {
  }

  ghost predicate CanMove(s: State) {
    exists step :: Own(step) && Enabled(s, step)
  }

  lemma NeverStuck(s: State)
    requires Open(s) && Live(s)
    ensures CanMove(s)
  {
    var step := match s.watcher
      case Received => Capture
      case Captured(_) => Charge
      case Charged => ReadFlag
      case Deciding(_) => Conclude
      case _ => if s.tick then Receive else Fire;
    assert Own(step) && Enabled(s, step);
  }

  lemma {:induction false} OwnSteps(s: State, steps: seq<Step>)
    requires Inv(s) && Open(s) && Live(s) && IsRun(s, steps) && forall step :: step in steps ==> Own(step)
    ensures var r := RunTo(s, steps);
            (r.cancelled && r.timedOut) || (|steps| < StepsLeft(s) && Open(r) && CanMove(r))
    decreases |steps|
  {
    if steps == [] {
      NeverStuck(s);
    } else {
      var t := Apply(s, steps[0]);
      StepInv(s, steps[0]);
      assert steps[0] in steps && forall step :: step in steps[1..] ==> step in steps;
      OwnStep(s, steps[0]);
      if t.cancelled {
        StaysTimedOut(t, steps[1..]);
      } else {
        OwnSteps(t, steps[1..]);
      }
    }
  }

  lemma {:induction false} StaysTimedOut(s: State, steps: seq<Step>)
    requires s.cancelled && s.timedOut && IsRun(s, steps) && forall step :: step in steps ==> Own(step)
    ensures RunTo(s, steps).cancelled && RunTo(s, steps).timedOut
    decreases |steps|
  {
    if steps != [] {
      assert steps[0] in steps && forall step :: step in steps[1..] ==> step in steps;
      StaysTimedOut(Apply(s, steps[0]), steps[1..]);
    }
  }

  /** In every run, at every moment before the first token at which the attempt is neither stopped nor cancelled: if
  from then on only the timer and its watcher move, in whatever order they can, they never get stuck before
  they have cancelled the attempt, and a bounded number of their steps does it. */
  lemma SilenceCancels(initial: int, perIdle: int, charges: nat, steps: seq<Step>, silence: seq<Step>)
    requires initial >= 0 && perIdle >= 0
    requires IsRun(NewTimer(initial, Left(initial, perIdle, charges), perIdle, charges), steps)
    requires var s := RunTo(NewTimer(initial, Left(initial, perIdle, charges), perIdle, charges), steps);
             Open(s) && IsRun(s, silence) && forall step :: step in silence ==> Own(step)
    ensures var s := RunTo(NewTimer(initial, Left(initial, perIdle, charges), perIdle, charges), steps);
            var r := RunTo(s, silence);
            if |silence| < StepsLeft(s) then (r.cancelled && r.timedOut) || CanMove(r)
            else r.cancelled && r.timedOut
  {
    var start := NewTimer(initial, Left(initial, perIdle, charges), perIdle, charges);
    NewTimerInv(initial, perIdle, charges);
    LiveRun(start, steps);
    OwnSteps(RunTo(start, steps), silence);
  }

  // ---------- What data does ----------

  // A whole timeout.
  const TIMEOUT: seq<Step> := [Fire, Receive, Capture, Charge, ReadFlag, Conclude]

  lemma RunOfTwo(s: State, step: Step, steps: seq<Step>)
    requires Enabled(s, step) && IsRun(Apply(s, step), steps)
    ensures IsRun(s, [step] + steps) && RunTo(s, [step] + steps) == RunTo(Apply(s, step), steps)
  {
    assert ([step] + steps)[1..] == steps;
  }

  lemma TimeoutCancels(s: State)
    requires s.armed && !s.tick && s.watcher.Waiting? && !s.stopped && !s.firstToken
    ensures IsRun(s, TIMEOUT)
    ensures var r := RunTo(s, TIMEOUT);
            && r.timedOut && r.cancelled && r.remaining == AfterConsuming(s.remaining, s.perIdle)
            && (r.reason == Total <==> r.remaining <= 0)
  {
  }

  /** Data starts the timer afresh: from every state with a waiting watcher before the first token, silence after
  it runs the full idle time, cancels the attempt, leaves the full budget less one idle time, and is reported
  as an idle timeout, a total one exactly if nothing is left. */
  lemma DataRearms(s: State, errIsCanceled: bool)
    requires Inv(s) && !s.stopped && !s.firstToken && s.watcher.Waiting?
    ensures IsRun(s, [Reset] + TIMEOUT)
    ensures var r := RunTo(s, [Reset] + TIMEOUT);
            var left := if s.initial > s.perIdle then s.initial - s.perIdle else 0;
            && r.timedOut && r.cancelled && r.remaining == left
            && Classify(r, errIsCanceled) == if left == 0 then TotalIdleTimeout else StreamIdleTimeout
  {
    TimeoutCancels(Apply(s, Reset));
    RunOfTwo(s, Reset, TIMEOUT);
  }

  /** From the moment the first token is flagged, unless a timeout has already read the flag as unset, only
  outside cancellation ends the attempt. */
  lemma FlagProtects(s: State, steps: seq<Step>)
    requires Inv(s) && s.watcher != Deciding(false) && CancelOutside !in steps
    requires IsRun(s, [FirstToken] + steps)
    ensures RunTo(s, [FirstToken] + steps).cancelled == s.cancelled
  {
    StepInv(s, FirstToken);
    assert ([FirstToken] + steps)[1..] == steps;
    FirstTokenProtects(Apply(s, FirstToken), steps);
  }

  /** From Stop on nothing that the timer or data do shows any more. */
  lemma StopEnds(s: State, dropsTick: bool, steps: seq<Step>)
    requires Inv(s) && FirstToken !in steps && CancelOutside !in steps
    requires IsRun(s, [Stop(dropsTick)] + steps)
    ensures See(RunTo(s, [Stop(dropsTick)] + steps)) == See(s).(stopped := true)
  {
    StepInv(s, Stop(dropsTick));
    assert ([Stop(dropsTick)] + steps)[1..] == steps;
    StoppedIsInert(Apply(s, Stop(dropsTick)), steps);
  }
}
