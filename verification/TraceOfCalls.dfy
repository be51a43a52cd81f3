/** The trace of a request is determined by its calls: what is noted after a call follows from that call. */
module TraceOfCalls {
  import opened Options
  import opened Failures
  import opened DegradationTrace
  import opened Degradation
  import opened NextCalls

  // The failure is worth a retry and attempts are left, whatever the budget.
  ghost predicate WantsRetry<S>(c: Call<S>, streaming: bool, lim: Limits) {
    && Unfinished(c.outcome, streaming) && c.attempt <= lim.maxRetry
    && !c.outcome.ctxAtRetry && !TellsOfLength(c.outcome.failure.value) && WorthRetry(c.outcome.failure.value)
  }

  // What is noted of an attempt; `at` is the model's place in the list that came with the request.
  ghost function AttemptNotes<S>(c: Call<S>, streaming: bool, at: int, lim: Limits): seq<Event> {
    [Note(AttemptStarted, c.model, at, c.attempt, NoReason)]
    + (if c.outcome.failure.None? then [Note(ModelSucceeded, c.model, at, c.attempt, ModelCallSucceeded)]
       else if streaming && c.outcome.committed then [Note(Stopped, c.model, at, c.attempt, StreamCommitted)]
       else [Note(AttemptFailed, c.model, at, c.attempt,
                  if streaming then StreamFailedBeforeFirstToken else ModelCallFailed)]
            + (if !WantsRetry(c, streaming, lim) then []
               else if c.outcome.remaining < lim.interval
               then [Note(RetrySkipped, c.model, at, c.attempt, InsufficientIdleBudget)]
               else [Note(RetryScheduled, c.model, at, c.attempt, RetryableError)]))
  }

  // What is noted when the attempts on a model are over: why the request ends, or the switch.
  ghost function EndNotes<S>(c: Call<S>, streaming: bool, models: seq<string>, lim: Limits): seq<Event> {
    if !Unfinished(c.outcome, streaming) || TriedAgain(c, streaming, lim) then []
    else if c.outcome.failure.value.wrapsCanceled || c.outcome.ctxAtStop
    then [Note(Stopped, c.model, c.index, 0, ContextCanceled)]
    else if !Switches(c, streaming) then [Note(Stopped, c.model, c.index, 0, NonSwitchableError)]
    else if c.index + 1 < |models|
    then [Event(ModelSwitch, models[c.index + 1], c.model, c.index + 1, 0, PreviousModelFailed)]
    else []
  }

  // `listed` is the list that came with the request, `models` the one that is gone through.
  ghost function NotesOn<S>(c: Call<S>, streaming: bool, listed: seq<string>, models: seq<string>, lim: Limits)
    : seq<Event>
  {
    AttemptNotes(c, streaming, if streaming then c.index else ModelIndexFrom(listed, c.model, 0), lim)
    + EndNotes(c, streaming, models, lim)
  }

  ghost function Noting<S>(streaming: bool, listed: seq<string>, models: seq<string>, lim: Limits)
    : Call<S> -> seq<Event>
  {
    (c: Call<S>) => NotesOn(c, streaming, listed, models, lim)
  }

  // What is noted of each call, one after the other.
  function Flat<S>(calls: seq<Call<S>>, note: Call<S> -> seq<Event>): seq<Event> {
    if calls == [] then [] else note(calls[0]) + Flat(calls[1..], note)
  }

  lemma {:induction false} FlatAppend<S>(a: seq<Call<S>>, b: seq<Call<S>>, note: Call<S> -> seq<Event>)
    ensures Flat(a + b, note) == Flat(a, note) + Flat(b, note)
  {
    if a == [] {
      assert a + b == b;
    } else {
      assert (a + b)[1..] == a[1..] + b;
      FlatAppend(a[1..], b, note);
    }
  }

  lemma FlatOne<S>(c: Call<S>, rest: seq<Call<S>>, note: Call<S> -> seq<Event>)
    ensures Flat([c] + rest, note) == note(c) + Flat(rest, note)
    ensures Flat([c], note) == note(c)
  {
    assert ([c] + rest)[1..] == rest && [c][1..] == [];
  }

  // The attempts' notes, and after the last one what ends them.
  lemma LastNotes(events: seq<Event>, end: seq<Event>, first: seq<Event>, rest: seq<Event>)
    requires rest == events + end
    ensures first + rest == (first + events) + end
  {
  }

  // ---------- The streaming path ----------

  lemma StreamTryNotes<S>(step: (S, string, nat) -> (S, Outcome), s: S, model: string, index: nat, attempt: nat,
                          lim: Limits)
    ensures var y := StreamTry(step, s, model, index, attempt, lim);
            y.events == AttemptNotes(y.call, true, index, lim)
  {
    var o := step(s, model, attempt + 1).1;
    if o.failure.Some? {
      RetryableExactly(o.failure.value, o.ctxAtRetry);
    }
  }

  lemma {:induction false} TurnNotes<S>(step: (S, string, nat) -> (S, Outcome), s: S, models: seq<string>, index: nat,
                                        attempt: nat, lim: Limits)
    requires index < |models| && attempt <= lim.maxRetry
    ensures var t := StreamTurn(step, s, models[index], index, attempt, lim);
            && t.calls != []
            && Flat(t.calls, Noting(true, models, models, lim))
               == t.events + EndNotes(t.calls[|t.calls| - 1], true, models, lim)
    decreases lim.maxRetry - attempt
  {
    var y := StreamTry(step, s, models[index], index, attempt, lim);
    StreamTryDecides(step, s, models[index], index, attempt, lim);
    StreamTryNotes(step, s, models[index], index, attempt, lim);
    if y.end.Some? {
      FlatOne(y.call, [], Noting(true, models, models, lim));
    } else {
      TurnNotes(step, y.state, models, index, attempt + 1, lim);
      var rest := StreamTurn(step, y.state, models[index], index, attempt + 1, lim);
      FlatOne(y.call, rest.calls, Noting(true, models, models, lim));
      LastNotes(rest.events, EndNotes(rest.calls[|rest.calls| - 1], true, models, lim), y.events,
                Flat(rest.calls, Noting(true, models, models, lim)));
    }
  }

  lemma EndNoteExactly<S>(t: Turn<S>, models: seq<string>, index: nat, lim: Limits)
    requires index < |models| && OneModel(t.calls, index, 1, true, lim)
    requires t.calls[|t.calls| - 1].model == models[index]
    requires t.end == GaveUp <==> Unfinished(t.calls[|t.calls| - 1].outcome, true)
    ensures var c := t.calls[|t.calls| - 1];
            EndNotes(c, true, models, lim)
            == if GoesOn(t, c.outcome.failure) then SwitchNote(models, index)
               else EndNote(t, c.outcome.failure, models[index], index)
  {
    var c := t.calls[|t.calls| - 1];
    assert c in t.calls;
    GoesOnExactly(t);
  }

  lemma {:induction false} TurnModel<S>(step: (S, string, nat) -> (S, Outcome), s: S, model: string, index: nat,
                                        attempt: nat, lim: Limits)
    ensures forall c :: c in StreamTurn(step, s, model, index, attempt, lim).calls ==> c.model == model
    decreases lim.maxRetry + 1 - attempt
  {
    if attempt <= lim.maxRetry {
      var y := StreamTry(step, s, model, index, attempt, lim);
      TurnModel(step, y.state, model, index, attempt + 1, lim);
    }
  }

  lemma {:induction false} LoopNotes<S>(step: (S, string, nat) -> (S, Outcome), s: S, models: seq<string>, index: nat,
                                        lim: Limits, lastErr: Option<Failure>)
    requires lim.maxRetry >= 0
    ensures var r := StreamLoop(step, s, models, index, lim, lastErr);
            r.events == Flat(r.calls, Noting(true, models, models, lim))
    decreases |models| - index
  {
    if index < |models| {
      TurnOnOneModel(step, s, models[index], index, 0, lim);
      TurnModel(step, s, models[index], index, 0, lim);
      TurnNotes(step, s, models, index, 0, lim);
      LoopUnfolds(step, s, models, index, lim, lastErr);
      var t := StreamTurn(step, s, models[index], index, 0, lim);
      var err := LastError(t.calls, lastErr);
      EndNoteExactly(t, models, index, lim);
      if GoesOn(t, err) {
        LoopNotes(step, t.state, models, index + 1, lim, err);
        FlatAppend(t.calls, StreamLoop(step, t.state, models, index + 1, lim, err).calls,
                   Noting(true, models, models, lim));
      }
    }
  }

  // ---------- The single-response path ----------

  lemma RetryTryNotes<S>(step: (S, string, nat) -> (S, Outcome), s: S, listed: seq<string>, ordered: seq<string>,
                         index: nat, attempt: nat, lim: Limits)
    requires index < |ordered|
    ensures var y := RetryTry(step, s, listed, ordered[index], index, attempt, lim);
            && y.call.model == ordered[index]
            && Noting(false, listed, ordered, lim)(y.call)
               == y.events + (if y.end.None? then [] else EndNotes(y.call, false, ordered, lim))
  {
    var o := step(s, ordered[index], attempt + 1).1;
    var y := RetryTry(step, s, listed, ordered[index], index, attempt, lim);
    if o.failure.Some? {
      RetryableExactly(o.failure.value, o.ctxAtRetry);
    }
    assert y.events == AttemptNotes(y.call, false, ModelIndexFrom(listed, ordered[index], 0), lim);
  }

  lemma RetriesUnfold<S>(step: (S, string, nat) -> (S, Outcome), s: S, listed: seq<string>, model: string, index: nat,
                         attempt: nat, lim: Limits, lastErr: Option<Failure>)
    requires attempt <= lim.maxRetry
    ensures var y := RetryTry(step, s, listed, model, index, attempt, lim);
            var rest := RetryModel(step, y.state, listed, model, index, attempt + 1, lim, y.call.outcome.failure);
            var r := RetryModel(step, s, listed, model, index, attempt, lim, lastErr);
            && r.calls == [y.call] + (if y.end.Some? then [] else rest.calls)
            && r.events == y.events + (if y.end.Some? then [] else rest.events)
  {
  }

  // The notes on an attempt that is followed by others on the same model.
  lemma NotesAfter<S>(c: Call<S>, calls: seq<Call<S>>, first: seq<Event>, events: seq<Event>, end: seq<Event>,
                      note: Call<S> -> seq<Event>)
    requires note(c) == first && Flat(calls, note) == events + end
    ensures Flat([c] + calls, note) == (first + events) + end
  {
    FlatOne(c, calls, note);
    LastNotes(events, end, first, Flat(calls, note));
  }

  lemma {:induction false} RetriesNotes<S>(step: (S, string, nat) -> (S, Outcome), s: S, listed: seq<string>,
                                           ordered: seq<string>, index: nat, attempt: nat, lim: Limits,
                                           lastErr: Option<Failure>)
    requires index < |ordered| && attempt <= lim.maxRetry
    ensures var r := RetryModel(step, s, listed, ordered[index], index, attempt, lim, lastErr);
            && r.calls != [] && r.calls[|r.calls| - 1].model == ordered[index]
            && Flat(r.calls, Noting(false, listed, ordered, lim))
               == r.events + EndNotes(r.calls[|r.calls| - 1], false, ordered, lim)
    decreases lim.maxRetry - attempt
  {
    var note, y := Noting(false, listed, ordered, lim), RetryTry(step, s, listed, ordered[index], index, attempt, lim);
    RetriesUnfold(step, s, listed, ordered[index], index, attempt, lim, lastErr);
    RetryTryDecides(step, s, listed, ordered[index], index, attempt, lim);
    RetryTryNotes(step, s, listed, ordered, index, attempt, lim);
    if y.end.Some? {
      FlatOne(y.call, [], note);
    } else {
      var err := y.call.outcome.failure;
      RetriesNotes(step, y.state, listed, ordered, index, attempt + 1, lim, err);
      var rest := RetryModel(step, y.state, listed, ordered[index], index, attempt + 1, lim, err);
      NotesAfter(y.call, rest.calls, y.events, rest.events,
                 EndNotes(rest.calls[|rest.calls| - 1], false, ordered, lim), note);
    }
  }

  // What the loop notes after one model's attempts.
  ghost function LoopNote<S>(calls: seq<Call<S>>, err: Option<Failure>, ordered: seq<string>, index: nat): seq<Event>
    requires index < |ordered|
  {
    if err.None? then []
    else if CanceledAfter(calls, err) then [Note(Stopped, ordered[index], index, 0, ContextCanceled)]
    else if !SwitchableAfter(calls, err) then [Note(Stopped, ordered[index], index, 0, NonSwitchableError)]
    else SwitchNote(ordered, index)
  }

  lemma LoopNoteExactly<S>(calls: seq<Call<S>>, ordered: seq<string>, index: nat, lim: Limits)
    requires index < |ordered| && OneModel(calls, index, 1, false, lim)
    requires calls[|calls| - 1].model == ordered[index]
    ensures var c := calls[|calls| - 1];
            EndNotes(c, false, ordered, lim) == LoopNote(calls, c.outcome.failure, ordered, index)
  {
    assert calls[|calls| - 1] in calls;
    SwitchesExactly(calls);
  }

  lemma DegradeEvents<S>(step: (S, string, nat) -> (S, Outcome), s: S, listed: seq<string>, ordered: seq<string>,
                         index: nat, lim: Limits, lastErr: Option<Failure>)
    requires index < |ordered|
    ensures var r := RetryModel(step, s, listed, ordered[index], index, 0, lim, None);
            var goesOn := r.error.Some? && !CanceledAfter(r.calls, r.error) && SwitchableAfter(r.calls, r.error);
            DegradeLoop(step, s, listed, ordered, index, lim, lastErr).events
            == r.events + LoopNote(r.calls, r.error, ordered, index)
               + (if goesOn then DegradeLoop(step, r.state, listed, ordered, index + 1, lim, r.error).events else [])
  {
  }

  lemma {:induction false} DegradeNotes<S>(step: (S, string, nat) -> (S, Outcome), s: S, listed: seq<string>,
                                           ordered: seq<string>, index: nat, lim: Limits, lastErr: Option<Failure>)
    requires lim.maxRetry >= 0
    ensures var r := DegradeLoop(step, s, listed, ordered, index, lim, lastErr);
            r.events == Flat(r.calls, Noting(false, listed, ordered, lim))
    decreases |ordered| - index
  {
    if index < |ordered| {
      RetriesOnOneModel(step, s, listed, ordered[index], index, 0, lim, None);
      RetriesNotes(step, s, listed, ordered, index, 0, lim, None);
      DegradeUnfolds(step, s, listed, ordered, index, lim, lastErr);
      DegradeEvents(step, s, listed, ordered, index, lim, lastErr);
      var r := RetryModel(step, s, listed, ordered[index], index, 0, lim, None);
      LoopNoteExactly(r.calls, ordered, index, lim);
      if r.error.Some? && !CanceledAfter(r.calls, r.error) && SwitchableAfter(r.calls, r.error) {
        DegradeNotes(step, r.state, listed, ordered, index + 1, lim, r.error);
        FlatAppend(r.calls, DegradeLoop(step, r.state, listed, ordered, index + 1, lim, r.error).calls,
                   Noting(false, listed, ordered, lim));
      }
    }
  }

  /** On both paths all events but the opening one are those of the calls, one call after the other. */
  lemma EventsAreExactly<S>(step: (S, string, nat) -> (S, Outcome), s: S, models: seq<string>, lim: Limits)
    requires lim.maxRetry >= 0
    ensures var r := StreamRun(step, s, models, lim);
            r.events == (if models == [] then [] else [Note(Started, models[0], 0, 0, AutoModeStream)])
                        + Flat(r.calls, Noting(true, models, models, lim))
    ensures var r, ordered := DegradeRun(step, s, models, lim), Clean(models);
            r.events == (if ordered == [] then [] else [Note(Started, ordered[0], 0, 0, AutoMode)])
                        + Flat(r.calls, Noting(false, models, ordered, lim))
  {
    LoopNotes(step, s, models, 0, lim, None);
    if Clean(models) != [] {
      DegradeNotes(step, s, models, Clean(models), 0, lim, None);
    }
  }
}
