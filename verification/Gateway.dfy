/** The two retry loops as the gateway runs them, updating the request's state and trace in place. */
module Gateway {
  import opened Options
  import opened Failures
  import opened DegradationTrace
  import opened Degradation
  import opened NextCalls

  class RequestLogic<S(!new)> {
    const step: (S, string, nat) -> (S, Outcome)
    const orderedModels: seq<string>
    const limits: Limits
    var state: S
    var trace: Trace
    ghost var offered: seq<Event>
    ghost var calls: seq<Call<S>>

    ghost predicate Valid()
      reads this
    {
      trace == OfferAll(offered)
    }

    constructor (step: (S, string, nat) -> (S, Outcome), state: S, orderedModels: seq<string>, limits: Limits)
      ensures Valid() && offered == [] && calls == [] && this.state == state
      ensures this.step == step && this.orderedModels == orderedModels && this.limits == limits
    {
      this.step, this.orderedModels, this.limits := step, orderedModels, limits;
      this.state := state;
      trace := EMPTY_TRACE;
      offered, calls := [], [];
    }

    method AppendDegradationEvent(e: Event)
      requires Valid()
      modifies this`trace, this`offered
      ensures Valid() && offered == old(offered) + [e]
    {
      if |trace.entries| >= MAX_EVENTS - 1 {
        if !trace.full {
          trace := Trace(trace.entries + [Entry(trace.sequence + 1, TRUNCATION)], trace.sequence + 1, true);
        }
      } else {
        trace := Trace(trace.entries + [Entry(trace.sequence + 1, e)], trace.sequence + 1, trace.full);
      }
      offered := offered + [e];
      assert offered[..|offered| - 1] == old(offered);
    }

    // One upstream attempt.
    method Attempt(ghost index: nat, model: string, attempt: nat) returns (o: Outcome)
      requires Valid()
      modifies this`state, this`calls
      ensures Valid()
      ensures (state, o) == step(old(state), model, attempt)
      ensures calls == old(calls) + [Call(index, model, attempt, old(state), o)]
    {
      calls := calls + [Call(index, model, attempt, state, step(state, model, attempt).1)];
      var next := step(state, model, attempt);
      state, o := next.0, next.1;
    }

    // One attempt on the streaming path, with its trace events and the decision after it.
    method TryStream(model: string, index: nat, attempt: nat) returns (end: Option<End>, o: Outcome)
      requires Valid()
      modifies this
      ensures Valid()
      ensures var y := StreamTry(step, old(state), model, index, attempt, limits);
              && state == y.state && calls == old(calls) + [y.call] && offered == old(offered) + y.events
              && end == y.end && o == y.call.outcome
    {
      ghost var y := StreamTry(step, state, model, index, attempt, limits);
      AppendDegradationEvent(Note(AttemptStarted, model, index, attempt + 1, NoReason));
      o := Attempt(index, model, attempt + 1);
      assert o == y.call.outcome && state == y.state;
      if o.failure.None? {
        AppendDegradationEvent(Note(ModelSucceeded, model, index, attempt + 1, ModelCallSucceeded));
        return Some(Success), o;
      }
      if o.committed {
        AppendDegradationEvent(Note(Stopped, model, index, attempt + 1, StreamCommitted));
        return Some(Committed), o;
      }
      var retryable := IsSameModelRetryable(o.failure.value, o.ctxAtRetry);
      AppendDegradationEvent(Note(AttemptFailed, model, index, attempt + 1, StreamFailedBeforeFirstToken));
      if retryable && attempt < limits.maxRetry {
        if o.remaining < limits.interval {
          AppendDegradationEvent(Note(RetrySkipped, model, index, attempt + 1, InsufficientIdleBudget));
          return Some(GaveUp), o;
        }
        AppendDegradationEvent(Note(RetryScheduled, model, index, attempt + 1, RetryableError));
        return None, o;
      }
      return Some(GaveUp), o;
    }

    // The attempts on one model, until one decides.
    method StreamAttempts(model: string, index: nat) returns (end: End, last: Option<Outcome>)
      requires Valid()
      modifies this
      ensures Valid()
      ensures Prepend(old(calls), old(offered), StreamTurn(step, old(state), model, index, 0, limits))
           == Turn(state, calls, offered, end)
      ensures |old(calls)| <= |calls| && last == LastOutcome(calls[|old(calls)|..])
    {
      var attempt: nat := 0;
      end, last := GaveUp, None;
      ghost var whole := Prepend(calls, offered, StreamTurn(step, state, model, index, 0, limits));
      while attempt <= limits.maxRetry
        invariant Valid() && end == GaveUp
        invariant whole == Prepend(calls, offered, StreamTurn(step, state, model, index, attempt, limits))
        invariant |old(calls)| <= |calls| && last == LastOutcome(calls[|old(calls)|..])
        decreases limits.maxRetry + 1 - attempt
      {
        PrependTurn(step, state, model, index, attempt, limits, calls, offered);
        var decided, o := TryStream(model, index, attempt);
        last := Some(o);
        if decided.Some? {
          end := decided.value;
          return;
        }
        attempt := attempt + 1;
      }
    }

    // All attempts on one model and the decision whether to go on with the next.
    method StreamModel(index: nat, before: Option<Failure>) returns (stop: Option<Verdict>, lastErr: Option<Failure>)
      requires Valid() && index < |orderedModels|
      modifies this
      ensures Valid()
      ensures PrependRun(old(calls), old(offered), StreamLoop(step, old(state), orderedModels, index, limits, before))
           == if stop.Some? then Run(state, calls, offered, stop.value)
              else PrependRun(calls, offered, StreamLoop(step, state, orderedModels, index + 1, limits, lastErr))
    {
      var modelName := orderedModels[index];
      PrependLoop(step, state, orderedModels, index, limits, before, calls, offered);
      var end, last := StreamAttempts(modelName, index);
      ghost var t := StreamTurn(step, old(state), modelName, index, 0, limits);
      assert calls[|old(calls)|..] == t.calls;
      lastErr := if last.Some? then last.value.failure else before;
      assert lastErr == LastError(t.calls, before);
      if end == Success {
        return Some(Served), lastErr;
      }
      if end == Committed {
        return Some(Failed(lastErr)), lastErr;
      }
      if (lastErr.Some? && lastErr.value.wrapsCanceled) || (last.Some? && last.value.ctxAtStop) {
        AppendDegradationEvent(Note(Stopped, modelName, index, 0, ContextCanceled));
        return Some(Failed(lastErr)), lastErr;
      }
      if !(lastErr.Some? && IsSwitchable(lastErr.value, last.Some? && last.value.ctxAtSwitch)) {
        AppendDegradationEvent(Note(Stopped, modelName, index, 0, NonSwitchableError));
        return Some(Failed(lastErr)), lastErr;
      }
      if index + 1 < |orderedModels| {
        AppendDegradationEvent(Event(ModelSwitch, orderedModels[index + 1], modelName, index + 1, 0,
                                     PreviousModelFailed));
      }
      stop := None;
    }

    // The models in order, until one decides.
    method StreamModels() returns (verdict: Verdict)
      requires Valid()
      modifies this
      ensures Valid()
      ensures PrependRun(old(calls), old(offered), StreamLoop(step, old(state), orderedModels, 0, limits, None))
           == Run(state, calls, offered, verdict)
    {
      ghost var whole := PrependRun(calls, offered, StreamLoop(step, state, orderedModels, 0, limits, None));
      var lastErr: Option<Failure> := None;
      var index := 0;
      while index < |orderedModels|
        invariant Valid() && 0 <= index <= |orderedModels|
        invariant whole == PrependRun(calls, offered, StreamLoop(step, state, orderedModels, index, limits, lastErr))
      {
        var stop;
        stop, lastErr := StreamModel(index, lastErr);
        if stop.Some? {
          return stop.value;
        }
        index := index + 1;
      }
      return Failed(lastErr);
    }

    /** The streaming path of a request in automatic mode. */
    method ChatCompletionStream() returns (verdict: Verdict)
      requires Valid()
      modifies this
      ensures Valid()
      ensures PrependRun(old(calls), old(offered), StreamRun(step, old(state), orderedModels, limits))
           == Run(state, calls, offered, verdict)
      ensures limits.maxRetry >= 0 ==> RightCalls(old(calls), calls, true, |orderedModels|, limits)
    {
      ghost var before := calls;
      if limits.maxRetry >= 0 {
        CallsAreExactly(step, state, orderedModels, limits);
        CallsSince(before, StreamRun(step, state, orderedModels, limits).calls);
      }
      ghost var r := StreamLoop(step, state, orderedModels, 0, limits, None);
      if |orderedModels| > 0 {
        var started := Note(Started, orderedModels[0], 0, 0, AutoModeStream);
        StartFirst(calls, offered, started, r);
        AppendDegradationEvent(started);
      }
      verdict := StreamModels();
    }

    // ---------- The single-response path ----------

    method DegradationModelIndex(model: string) returns (r: int)
      ensures r == ModelIndexFrom(orderedModels, model, 0)
    {
      for i := 0 to |orderedModels|
        invariant ModelIndexFrom(orderedModels, model, 0) == ModelIndexFrom(orderedModels, model, i)
      {
        if orderedModels[i] == model {
          return i;
        }
      }
      return -1;
    }

    // One attempt, with its trace events; end is None when the model is to be tried again.
    method TryOnce(model: string, ghost index: nat, attempt: nat) returns (end: Option<Option<Failure>>, o: Outcome)
      requires Valid()
      modifies this
      ensures Valid()
      ensures var y := RetryTry(step, old(state), orderedModels, model, index, attempt, limits);
              && state == y.state && calls == old(calls) + [y.call] && offered == old(offered) + y.events
              && end == y.end && o == y.call.outcome
    {
      var modelIndex := DegradationModelIndex(model);
      AppendDegradationEvent(Note(AttemptStarted, model, modelIndex, attempt + 1, NoReason));
      o := Attempt(index, model, attempt + 1);
      end := DecideOnce(model, modelIndex, attempt, o);
    }

    // What is noted after an attempt, and whether the model is to be tried again.
    method DecideOnce(model: string, modelIndex: int, attempt: nat, o: Outcome) returns (end: Option<Option<Failure>>)
      requires Valid()
      modifies this`trace, this`offered
      ensures Valid()
      ensures var d := RetryDecision(model, modelIndex, attempt, limits, o);
              offered == old(offered) + d.0 && end == d.1
    {
      if o.failure.None? {
        AppendDegradationEvent(Note(ModelSucceeded, model, modelIndex, attempt + 1, ModelCallSucceeded));
        return Some(None);
      }
      var retryable := IsSameModelRetryable(o.failure.value, o.ctxAtRetry);
      AppendDegradationEvent(Note(AttemptFailed, model, modelIndex, attempt + 1, ModelCallFailed));
      if retryable && attempt < limits.maxRetry {
        if o.remaining < limits.interval {
          AppendDegradationEvent(Note(RetrySkipped, model, modelIndex, attempt + 1, InsufficientIdleBudget));
          return Some(o.failure);
        }
        AppendDegradationEvent(Note(RetryScheduled, model, modelIndex, attempt + 1, RetryableError));
        return None;
      }
      return Some(o.failure);
    }

    method CallModelWithRetry(model: string, ghost index: nat) returns (error: Option<Failure>, last: Option<Outcome>)
      requires Valid()
      modifies this
      ensures Valid()
      ensures PrependRetried(old(calls), old(offered),
                             RetryModel(step, old(state), orderedModels, model, index, 0, limits, None))
           == Retried(state, calls, offered, error)
      ensures |old(calls)| <= |calls| && last == LastOutcome(calls[|old(calls)|..])
    {
      error, last := None, None;
      var attempt: nat := 0;
      ghost var whole := PrependRetried(calls, offered,
                                        RetryModel(step, state, orderedModels, model, index, 0, limits, None));
      while attempt <= limits.maxRetry
        invariant Valid()
        invariant whole == PrependRetried(calls, offered,
                                          RetryModel(step, state, orderedModels, model, index, attempt, limits, error))
        invariant |old(calls)| <= |calls| && last == LastOutcome(calls[|old(calls)|..])
        decreases limits.maxRetry + 1 - attempt
      {
        PrependTries(step, state, orderedModels, model, index, attempt, limits, error, calls, offered);
        var decided, o := TryOnce(model, index, attempt);
        error, last := o.failure, Some(o);
        if decided.Some? {
          error := decided.value;
          return;
        }
        attempt := attempt + 1;
      }
    }

    // All attempts on one model of the cleaned list and the decision whether to go on with the next.
    method CallModel(ordered: seq<string>, index: nat, ghost before: Option<Failure>)
      returns (stop: Option<Verdict>, lastErr: Option<Failure>)
      requires Valid() && index < |ordered|
      modifies this
      ensures Valid()
      ensures PrependRun(old(calls), old(offered),
                         DegradeLoop(step, old(state), orderedModels, ordered, index, limits, before))
           == if stop.Some? then Run(state, calls, offered, stop.value)
              else PrependRun(calls, offered,
                              DegradeLoop(step, state, orderedModels, ordered, index + 1, limits, lastErr))
    {
      var modelName := ordered[index];
      PrependDegrade(step, state, orderedModels, ordered, index, limits, before, calls, offered);
      ghost var r := RetryModel(step, state, orderedModels, modelName, index, 0, limits, None);
      var last;
      lastErr, last := CallModelWithRetry(modelName, index);
      assert calls[|old(calls)|..] == r.calls;
      if lastErr.None? {
        return Some(Served), lastErr;
      }
      if lastErr.value.wrapsCanceled || (last.Some? && last.value.ctxAtStop) {
        AppendDegradationEvent(Note(Stopped, modelName, index, 0, ContextCanceled));
        return Some(Failed(lastErr)), lastErr;
      }
      if !IsSwitchable(lastErr.value, last.Some? && last.value.ctxAtSwitch) {
        AppendDegradationEvent(Note(Stopped, modelName, index, 0, NonSwitchableError));
        return Some(Failed(lastErr)), lastErr;
      }
      if index + 1 < |ordered| {
        AppendDegradationEvent(Event(ModelSwitch, ordered[index + 1], modelName, index + 1, 0, PreviousModelFailed));
      }
      stop := None;
    }

    // The list of models to try: no empty names, no repetitions.
    method UniqueModels() returns (ordered: seq<string>)
      ensures ordered == Clean(orderedModels)
    {
      ordered := [];
      var seen: set<string> := {};
      for i := 0 to |orderedModels|
        invariant ordered == Clean(orderedModels[..i])
        invariant forall m :: m in seen <==> m in orderedModels[..i] && m != ""
      {
        var m := orderedModels[i];
        assert orderedModels[..i + 1] == orderedModels[..i] + [m];
        if m != "" && m !in seen {
          ordered := ordered + [m];
          seen := seen + {m};
        }
      }
      assert orderedModels[..|orderedModels|] == orderedModels;
    }

    method CallModels(ordered: seq<string>) returns (verdict: Verdict)
      requires Valid()
      modifies this
      ensures Valid()
      ensures PrependRun(old(calls), old(offered),
                         DegradeLoop(step, old(state), orderedModels, ordered, 0, limits, None))
           == Run(state, calls, offered, verdict)
    {
      ghost var whole := PrependRun(calls, offered, DegradeLoop(step, state, orderedModels, ordered, 0, limits, None));
      var lastErr: Option<Failure> := None;
      var index := 0;
      while index < |ordered|
        invariant Valid() && 0 <= index <= |ordered|
        invariant whole == PrependRun(calls, offered,
                                      DegradeLoop(step, state, orderedModels, ordered, index, limits, lastErr))
      {
        var stop;
        stop, lastErr := CallModel(ordered, index, lastErr);
        if stop.Some? {
          return stop.value;
        }
        index := index + 1;
      }
      return Failed(lastErr);
    }

    /** The single-response path of a request in automatic mode. */
    method CallWithDegradation() returns (verdict: Verdict)
      requires Valid()
      modifies this
      ensures Valid()
      ensures PrependRun(old(calls), old(offered), DegradeRun(step, old(state), orderedModels, limits))
           == Run(state, calls, offered, verdict)
      ensures limits.maxRetry >= 0 ==> RightCalls(old(calls), calls, false, |Clean(orderedModels)|, limits)
    {
      ghost var before := calls;
      if limits.maxRetry >= 0 {
        CallsAreExactly(step, state, orderedModels, limits);
        CallsSince(before, DegradeRun(step, state, orderedModels, limits).calls);
      }
      if |orderedModels| == 0 {
        return Failed(Some(NO_LIST));
      }
      var ordered := UniqueModels();
      if |ordered| == 0 {
        return Failed(Some(NOTHING_TO_TRY));
      }
      var started := Note(Started, ordered[0], 0, 0, AutoMode);
      StartFirst(calls, offered, started, DegradeLoop(step, state, orderedModels, ordered, 0, limits, None));
      AppendDegradationEvent(started);
      verdict := CallModels(ordered);
    }
  }

  // The calls made since: the first attempt on the first of so many models, and then each time the call that the
  // one before it calls for.
  ghost predicate RightCalls<S>(before: seq<Call<S>>, now: seq<Call<S>>, streaming: bool, count: nat, lim: Limits) {
    && before <= now
    && Chained(now[|before|..], streaming, count, lim)
    && PlaceOf(now[|before|..], 0) == if count == 0 then None else Some((0, 1))
  }

  lemma CallsSince<S>(before: seq<Call<S>>, made: seq<Call<S>>)
    ensures before <= before + made && (before + made)[|before|..] == made
  {
  }

  lemma StartFirst<S>(calls: seq<Call<S>>, events: seq<Event>, started: Event, r: Run<S>)
    ensures PrependRun(calls, events + [started], r) == PrependRun(calls, events, r.(events := [started] + r.events))
  {
  }

  function PrependRun<S>(calls: seq<Call<S>>, events: seq<Event>, r: Run<S>): Run<S> {
    Run(r.state, calls + r.calls, events + r.events, r.verdict)
  }

  lemma ThreeParts<S>(calls: seq<Call<S>>, events: seq<Event>, made: seq<Call<S>>, noted: seq<Event>, note: seq<Event>,
                      rest: Run<S>)
    ensures calls + (made + rest.calls) == calls + made + rest.calls
    ensures events + (noted + note) == events + noted + note
    ensures events + (noted + note + rest.events) == events + noted + note + rest.events
  {
  }

  lemma PrependLoop<S>(step: (S, string, nat) -> (S, Outcome), s: S, models: seq<string>, index: nat, lim: Limits,
                       lastErr: Option<Failure>, calls: seq<Call<S>>, events: seq<Event>)
    requires index < |models|
    ensures var t := StreamTurn(step, s, models[index], index, 0, lim);
            var err := LastError(t.calls, lastErr);
            PrependRun(calls, events, StreamLoop(step, s, models, index, lim, lastErr))
            == if t.end == Success then Run(t.state, calls + t.calls, events + t.events, Served)
               else if t.end == Committed then Run(t.state, calls + t.calls, events + t.events, Failed(err))
               else if CanceledAfter(t.calls, err) then
                 Run(t.state, calls + t.calls,
                     events + t.events + [Note(Stopped, models[index], index, 0, ContextCanceled)], Failed(err))
               else if !SwitchableAfter(t.calls, err) then
                 Run(t.state, calls + t.calls,
                     events + t.events + [Note(Stopped, models[index], index, 0, NonSwitchableError)], Failed(err))
               else
                 PrependRun(calls + t.calls, events + t.events + SwitchNote(models, index),
                            StreamLoop(step, t.state, models, index + 1, lim, err))
  {
    var t := StreamTurn(step, s, models[index], index, 0, lim);
    var err := LastError(t.calls, lastErr);
    var rest := StreamLoop(step, t.state, models, index + 1, lim, err);
    LoopUnfolds(step, s, models, index, lim, lastErr);
    ThreeParts(calls, events, t.calls, t.events, SwitchNote(models, index), rest);
    ThreeParts(calls, events, t.calls, t.events, EndNote(t, err, models[index], index), rest);
  }

  function LastOutcome<S>(calls: seq<Call<S>>): Option<Outcome> {
    if calls == [] then None else Some(calls[|calls| - 1].outcome)
  }

  function Prepend<S>(calls: seq<Call<S>>, events: seq<Event>, t: Turn<S>): Turn<S> {
    Turn(t.state, calls + t.calls, events + t.events, t.end)
  }

  lemma PrependTurn<S>(step: (S, string, nat) -> (S, Outcome), s: S, model: string, index: nat, attempt: nat,
                       lim: Limits, calls: seq<Call<S>>, events: seq<Event>)
    requires attempt <= lim.maxRetry
    ensures var y := StreamTry(step, s, model, index, attempt, lim);
            Prepend(calls, events, StreamTurn(step, s, model, index, attempt, lim))
            == if y.end.Some? then Turn(y.state, calls + [y.call], events + y.events, y.end.value)
               else Prepend(calls + [y.call], events + y.events,
                            StreamTurn(step, y.state, model, index, attempt + 1, lim))
  {
    var y := StreamTry(step, s, model, index, attempt, lim);
    if y.end.None? {
      var rest := StreamTurn(step, y.state, model, index, attempt + 1, lim);
      assert calls + ([y.call] + rest.calls) == calls + [y.call] + rest.calls;
      assert events + (y.events + rest.events) == events + y.events + rest.events;
    }
  }

  function PrependRetried<S>(calls: seq<Call<S>>, events: seq<Event>, r: Retried<S>): Retried<S> {
    Retried(r.state, calls + r.calls, events + r.events, r.error)
  }

  lemma PrependTries<S>(step: (S, string, nat) -> (S, Outcome), s: S, listed: seq<string>, model: string, index: nat,
                        attempt: nat, lim: Limits, lastErr: Option<Failure>, calls: seq<Call<S>>, events: seq<Event>)
    requires attempt <= lim.maxRetry
    ensures var y := RetryTry(step, s, listed, model, index, attempt, lim);
            PrependRetried(calls, events, RetryModel(step, s, listed, model, index, attempt, lim, lastErr))
            == if y.end.Some? then Retried(y.state, calls + [y.call], events + y.events, y.end.value)
               else PrependRetried(calls + [y.call], events + y.events,
                                   RetryModel(step, y.state, listed, model, index, attempt + 1, lim,
                                              y.call.outcome.failure))
  {
    var y := RetryTry(step, s, listed, model, index, attempt, lim);
    if y.end.None? {
      var rest := RetryModel(step, y.state, listed, model, index, attempt + 1, lim, y.call.outcome.failure);
      assert calls + ([y.call] + rest.calls) == calls + [y.call] + rest.calls;
      assert events + (y.events + rest.events) == events + y.events + rest.events;
    }
  }

  lemma PrependDegrade<S>(step: (S, string, nat) -> (S, Outcome), s: S, listed: seq<string>, ordered: seq<string>,
                          index: nat, lim: Limits, lastErr: Option<Failure>, calls: seq<Call<S>>, events: seq<Event>)
    requires index < |ordered|
    ensures var t := RetryModel(step, s, listed, ordered[index], index, 0, lim, None);
            PrependRun(calls, events, DegradeLoop(step, s, listed, ordered, index, lim, lastErr))
            == if t.error.None? then Run(t.state, calls + t.calls, events + t.events, Served)
               else if CanceledAfter(t.calls, t.error) then
                 Run(t.state, calls + t.calls,
                     events + t.events + [Note(Stopped, ordered[index], index, 0, ContextCanceled)],
                     Failed(t.error))
               else if !SwitchableAfter(t.calls, t.error) then
                 Run(t.state, calls + t.calls,
                     events + t.events + [Note(Stopped, ordered[index], index, 0, NonSwitchableError)],
                     Failed(t.error))
               else
                 PrependRun(calls + t.calls, events + t.events + SwitchNote(ordered, index),
                            DegradeLoop(step, t.state, listed, ordered, index + 1, lim, t.error))
  {
    var t := RetryModel(step, s, listed, ordered[index], index, 0, lim, None);
    var rest := DegradeLoop(step, t.state, listed, ordered, index + 1, lim, t.error);
    ThreeParts(calls, events, t.calls, t.events, SwitchNote(ordered, index), rest);
    ThreeParts(calls, events, t.calls, t.events, [Note(Stopped, ordered[index], index, 0, ContextCanceled)], rest);
    ThreeParts(calls, events, t.calls, t.events, [Note(Stopped, ordered[index], index, 0, NonSwitchableError)], rest);
  }
}
