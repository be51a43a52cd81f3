/** The idle budget that all attempts of a request share, inside the retry and degradation loops: once it
is spent, one more call is made at most, it is cancelled before it begins, and that ends the request. */
module SharedBudget {
  import opened Options
  import opened Failures
  import opened Degradation
  import Idle = IdleTimer

  // What one attempt does: for each of its upstream calls, the first and one more after every tool, the steps
  // of that call's timer; how the attempt ends; and the context checks after it.
  datatype Behaviour = Behaviour(
    rounds: seq<seq<Idle.Step>>, failure: Option<Failure>, committed: bool,
    ctxAtRetry: bool, ctxAtStop: bool, ctxAtSwitch: bool)

  // The failures the client makes of a connection that fails.
  function AsFailure(e: Idle.ConnectError): Failure {
    match e
    case TotalIdleTimeout => Failure("total idle timeout", false, IdleTimeout)
    case StreamIdleTimeout => Failure("stream idle timeout", false, IdleTimeout)
    case ContextCanceled => Failure("context canceled", true, Plain)
    case ServiceUnavailable => Failure("service unavailable", false, Api(SERVICE_UNAVAILABLE, 503))
  }

  // The timer of the attempt's last upstream call. Each call has a timer of its own on what the one before left
  // of the budget; a call whose context is cancelled from the start is the last one.
  ghost function Through(t: Idle.State, rounds: seq<seq<Idle.Step>>): Idle.State
    decreases |rounds|
  {
    if t.cancelled || rounds == [] || !Idle.IsRun(t, rounds[0]) then t
    else
      var r := Idle.RunTo(t, rounds[0]);
      if |rounds| == 1 then r else Through(Idle.NextAttempt(r), rounds[1..])
  }

  // A call whose context is cancelled from the start fails at once, any other does as it likes. The state is
  // the timer of the call made last.
  ghost function AttemptOn(t: Idle.State, b: Behaviour): (Idle.State, Outcome) {
    var r := Through(t, b.rounds);
    var failure := if r.watcher == Idle.Absent then Some(AsFailure(Idle.Classify(r, true))) else b.failure;
    (r, Outcome(failure, !t.cancelled && b.committed, r.remaining, b.ctxAtRetry, b.ctxAtStop, b.ctxAtSwitch))
  }

  ghost function Attempt(world: (Idle.State, string, nat) -> Behaviour)
    : (Idle.State, string, nat) -> (Idle.State, Outcome)
  {
    (s: Idle.State, model: string, attempt: nat) =>
      AttemptOn(Idle.NextAttempt(s), world(Idle.NextAttempt(s), model, attempt))
  }

  predicate Spent(s: Idle.State) {
    s.remaining <= 0
  }

  predicate Canceled(o: Outcome) {
    o.failure.Some? && o.failure.value.wrapsCanceled && !o.committed
  }

  lemma BornCancelledFails(world: (Idle.State, string, nat) -> Behaviour, s: Idle.State, model: string, attempt: nat)
    ensures Spent(s) ==> Canceled(Attempt(world)(s, model, attempt).1)
  {
    var t := Idle.NextAttempt(s);
    assert Attempt(world)(s, model, attempt) == AttemptOn(t, world(t, model, attempt));
    assert Spent(s) ==> Through(t, world(t, model, attempt).rounds) == t;
  }

  lemma {:induction false} ThroughKeepsBudget(t: Idle.State, rounds: seq<seq<Idle.Step>>)
    requires Idle.Inv(t)
    ensures Idle.Inv(Through(t, rounds))
    decreases |rounds|
  {
    if !t.cancelled && rounds != [] && Idle.IsRun(t, rounds[0]) {
      Idle.RunInv(t, rounds[0]);
      var r := Idle.RunTo(t, rounds[0]);
      Idle.NewTimerInv(r.initial, r.perIdle, r.charges);
      if |rounds| > 1 {
        ThroughKeepsBudget(Idle.NextAttempt(r), rounds[1..]);
      }
    }
  }

  /** Through every attempt, with any number of upstream calls and tools, the budget stays what the timeouts
  since it was last full leave of it, and what the loops see as remaining is that budget. */
  lemma AttemptKeepsBudget(world: (Idle.State, string, nat) -> Behaviour, s: Idle.State, model: string, attempt: nat)
    requires Idle.Inv(s)
    ensures var (r, o) := Attempt(world)(s, model, attempt);
            Idle.Inv(r) && o.remaining == r.remaining && 0 <= o.remaining <= r.initial
  {
    var t := Idle.NextAttempt(s);
    Idle.NewTimerInv(s.initial, s.perIdle, s.charges);
    ThroughKeepsBudget(t, world(t, model, attempt).rounds);
  }

  // ---------- The loops ----------

  // A call made on a spent budget is the last one, and it was cancelled.
  ghost predicate SpentIsLast(calls: seq<Call<Idle.State>>) {
    forall i :: 0 <= i < |calls| && Spent(calls[i].before) ==> i == |calls| - 1 && Canceled(calls[i].outcome)
  }

  ghost predicate EndsSpent(calls: seq<Call<Idle.State>>) {
    calls != [] && Spent(calls[|calls| - 1].before)
  }

  lemma {:induction false} TurnEndsSpent(world: (Idle.State, string, nat) -> Behaviour, s: Idle.State, model: string,
                                         index: nat, attempt: nat, lim: Limits)
    ensures var t := StreamTurn(Attempt(world), s, model, index, attempt, lim);
            && SpentIsLast(t.calls)
            && (EndsSpent(t.calls) ==> t.end == GaveUp)
            && (attempt <= lim.maxRetry ==> t.calls != [] && t.calls[0].before == s)
    decreases lim.maxRetry + 1 - attempt
  {
    if attempt <= lim.maxRetry {
      var y := StreamTry(Attempt(world), s, model, index, attempt, lim);
      BornCancelledFails(world, s, model, attempt + 1);
      TryOnSpent(world, s, model, index, attempt, lim);
      if y.end.None? {
        TurnEndsSpent(world, y.state, model, index, attempt + 1, lim);
      }
    }
  }

  lemma TryOnSpent(world: (Idle.State, string, nat) -> Behaviour, s: Idle.State, model: string, index: nat,
                   attempt: nat, lim: Limits)
    ensures var y := StreamTry(Attempt(world), s, model, index, attempt, lim);
            && y.call.before == s
            && (Spent(s) ==> y.end == Some(GaveUp) && Canceled(y.call.outcome))
  {
    BornCancelledFails(world, s, model, attempt + 1);
  }

  lemma JoinSpent(a: seq<Call<Idle.State>>, b: seq<Call<Idle.State>>)
    requires SpentIsLast(a) && SpentIsLast(b) && !EndsSpent(a)
    ensures SpentIsLast(a + b) && (b != [] ==> (EndsSpent(a + b) <==> EndsSpent(b)))
  {
    forall i | 0 <= i < |a + b| && Spent((a + b)[i].before)
      ensures i == |a + b| - 1 && Canceled((a + b)[i].outcome)
    {
      if i >= |a| {
        assert (a + b)[i] == b[i - |a|];
      }
    }
  }

  predicate FailedCanceled(v: Verdict) {
    v.Failed? && v.error.Some? && v.error.value.wrapsCanceled
  }

  lemma {:induction false} LoopEndsSpent(world: (Idle.State, string, nat) -> Behaviour, s: Idle.State,
                                         models: seq<string>, index: nat, lim: Limits, lastErr: Option<Failure>)
    requires lim.maxRetry >= 0
    ensures var r := StreamLoop(Attempt(world), s, models, index, lim, lastErr);
            && SpentIsLast(r.calls)
            && (EndsSpent(r.calls) ==> FailedCanceled(r.verdict))
            && (index < |models| ==> r.calls != [] && r.calls[0].before == s)
    decreases |models| - index
  {
    if index < |models| {
      var t := StreamTurn(Attempt(world), s, models[index], index, 0, lim);
      var err := LastError(t.calls, lastErr);
      TurnEndsSpent(world, s, models[index], index, 0, lim);
      if GoesOn(t, err) {
        LoopEndsSpent(world, t.state, models, index + 1, lim, err);
        JoinSpent(t.calls, StreamLoop(Attempt(world), t.state, models, index + 1, lim, err).calls);
      }
    }
  }

  // What holds of a run on either path.
  ghost predicate EndsWhenSpent(s: Idle.State, r: Run<Idle.State>) {
    && SpentIsLast(r.calls)
    && (EndsSpent(r.calls) ==> FailedCanceled(r.verdict))
    && (Spent(s) ==> |r.calls| == 1 && FailedCanceled(r.verdict))
  }

  lemma FirstCallDecides(s: Idle.State, calls: seq<Call<Idle.State>>)
    requires SpentIsLast(calls) && calls != [] && calls[0].before == s
    ensures Spent(s) ==> |calls| == 1 && EndsSpent(calls)
  {
  }

  lemma RetryOnSpent(world: (Idle.State, string, nat) -> Behaviour, s: Idle.State, listed: seq<string>, model: string,
                     index: nat, attempt: nat, lim: Limits)
    ensures var y := RetryTry(Attempt(world), s, listed, model, index, attempt, lim);
            && y.call.before == s
            && (Spent(s) ==> y.end == Some(y.call.outcome.failure) && Canceled(y.call.outcome))
  {
    BornCancelledFails(world, s, model, attempt + 1);
  }

  lemma {:induction false} RetriesEndSpent(world: (Idle.State, string, nat) -> Behaviour, s: Idle.State,
                                           listed: seq<string>, model: string, index: nat, attempt: nat,
                                           lim: Limits, lastErr: Option<Failure>)
    requires attempt <= lim.maxRetry
    ensures var r := RetryModel(Attempt(world), s, listed, model, index, attempt, lim, lastErr);
            && SpentIsLast(r.calls) && r.calls != [] && r.calls[0].before == s
            && (EndsSpent(r.calls) ==> r.error.Some? && r.error.value.wrapsCanceled)
    decreases lim.maxRetry - attempt
  {
    var y := RetryTry(Attempt(world), s, listed, model, index, attempt, lim);
    RetryOnSpent(world, s, listed, model, index, attempt, lim);
    if y.end.None? {
      RetriesEndSpent(world, y.state, listed, model, index, attempt + 1, lim, y.call.outcome.failure);
      JoinSpent([y.call], RetryModel(Attempt(world), y.state, listed, model, index, attempt + 1, lim,
                                     y.call.outcome.failure).calls);
    }
  }

  lemma {:induction false} DegradeEndsSpent(world: (Idle.State, string, nat) -> Behaviour, s: Idle.State,
                                            listed: seq<string>, ordered: seq<string>, index: nat, lim: Limits,
                                            lastErr: Option<Failure>)
    requires lim.maxRetry >= 0
    ensures var r := DegradeLoop(Attempt(world), s, listed, ordered, index, lim, lastErr);
            && SpentIsLast(r.calls)
            && (EndsSpent(r.calls) ==> FailedCanceled(r.verdict))
            && (index < |ordered| ==> r.calls != [] && r.calls[0].before == s)
    decreases |ordered| - index
  {
    if index < |ordered| {
      var r := RetryModel(Attempt(world), s, listed, ordered[index], index, 0, lim, None);
      RetriesEndSpent(world, s, listed, ordered[index], index, 0, lim, None);
      if r.error.Some? && !CanceledAfter(r.calls, r.error) && SwitchableAfter(r.calls, r.error) {
        DegradeEndsSpent(world, r.state, listed, ordered, index + 1, lim, r.error);
        JoinSpent(r.calls, DegradeLoop(Attempt(world), r.state, listed, ordered, index + 1, lim, r.error).calls);
      }
    }
  }

  /** Whatever the models do, on both paths: a call made when the budget is spent is the last of the request, it
  is cancelled before it begins, and the request ends with a cancelled context, not with an idle timeout. A
  request that starts with a spent budget makes exactly that one call. */
  lemma SpentBudgetEndsTheRun(world: (Idle.State, string, nat) -> Behaviour, s: Idle.State, models: seq<string>,
                              lim: Limits)
    requires lim.maxRetry >= 0 && models != []
    ensures EndsWhenSpent(s, StreamRun(Attempt(world), s, models, lim))
    ensures Clean(models) != [] ==> EndsWhenSpent(s, DegradeRun(Attempt(world), s, models, lim))
  {
    LoopEndsSpent(world, s, models, 0, lim, None);
    FirstCallDecides(s, StreamLoop(Attempt(world), s, models, 0, lim, None).calls);
    if Clean(models) != [] {
      DegradeEndsSpent(world, s, models, Clean(models), 0, lim, None);
      FirstCallDecides(s, DegradeLoop(Attempt(world), s, models, Clean(models), 0, lim, None).calls);
    }
  }
}
