/** Which call follows which, in both retry loops: from what one call brought alone it follows whether the same
model is tried again, the next one is tried, or the request ends. */
module NextCalls {
  import opened Options
  import opened Strings
  import opened Failures
  import opened Degradation

  // ---------- The two questions, read off the failure ----------

  ghost predicate TellsOfLength(f: Failure) {
    || (exists i :: OccursAt(f.text, "This model's maximum context length", i))
    || (exists i :: OccursAt(f.text, "Input text is too long", i))
  }

  // An idle timeout or an error of no known type; a busy or network code; status 408 or from 500 up, unless the
  // code is one of four.
  predicate WorthRetry(f: Failure) {
    && !f.wrapsCanceled
    && (f.kind.Api? ==>
          || f.kind.code in {SERVER_BUSY, NETWORK_ERROR}
          || ((f.kind.status == 408 || f.kind.status >= 500)
              && f.kind.code !in {CONTEXT_EXCEEDED, UNAUTHORIZED, EMPTY_CONTENT, MODEL_UNAVAILABLE}))
  }

  // The same for the next model: never with one of three codes or with status 401 or 403; else with one of six
  // codes, with status 400, 408 or 429, or from 500 up.
  predicate WorthSwitch(f: Failure) {
    && !f.wrapsCanceled
    && (f.kind.Api? ==>
          && f.kind.code !in {CONTEXT_EXCEEDED, UNAUTHORIZED, EMPTY_CONTENT}
          && f.kind.status !in {401, 403}
          && (|| f.kind.status in {400, 408, 429}
              || f.kind.status >= 500
              || f.kind.code in {SERVICE_UNAVAILABLE, MODEL_UNAVAILABLE, TOO_MANY_REQUESTS, SERVER_BUSY,
                                 NETWORK_ERROR, INVALID_RESPONSE}))
  }

  lemma LengthExactly(f: Failure)
    ensures IsContextLength(f) <==> TellsOfLength(f)
  {
    if IsContextLength(f) {
      var i, j := Index(f.text, "This model's maximum context length"), Index(f.text, "Input text is too long");
      assert i >= 0 ==> OccursAt(f.text, "This model's maximum context length", i);
      assert j >= 0 ==> OccursAt(f.text, "Input text is too long", j);
    }
  }

  lemma CodesDiffer()
    ensures {SERVER_BUSY, NETWORK_ERROR} !! {CONTEXT_EXCEEDED, UNAUTHORIZED, EMPTY_CONTENT, MODEL_UNAVAILABLE}
  {
    assert |SERVER_BUSY| == 20 && |NETWORK_ERROR| == 26 && |CONTEXT_EXCEEDED| == 32 && |UNAUTHORIZED| == 36;
    assert |EMPTY_CONTENT| == 30 && NETWORK_ERROR[9] == 'n' && MODEL_UNAVAILABLE[9] == 'm';
    assert SERVER_BUSY[9] == 's';
  }

  lemma RetryableExactly(f: Failure, contextCanceled: bool)
    ensures IsSameModelRetryable(f, contextCanceled) <==> !contextCanceled && !TellsOfLength(f) && WorthRetry(f)
  {
    LengthExactly(f);
    CodesDiffer();
  }

  lemma SwitchableExactly(f: Failure, contextCanceled: bool)
    ensures IsSwitchable(f, contextCanceled) <==> !contextCanceled && !TellsOfLength(f) && WorthSwitch(f)
  {
    LengthExactly(f);
  }

  // ---------- What follows a call ----------

  // Only the streaming path asks whether content was sent.
  predicate Unfinished(o: Outcome, streaming: bool) {
    o.failure.Some? && !(streaming && o.committed)
  }

  ghost predicate TriedAgain<S>(c: Call<S>, streaming: bool, lim: Limits) {
    && Unfinished(c.outcome, streaming)
    && c.attempt <= lim.maxRetry && c.outcome.remaining >= lim.interval
    && !c.outcome.ctxAtRetry && !TellsOfLength(c.outcome.failure.value) && WorthRetry(c.outcome.failure.value)
  }

  ghost predicate Switches<S>(c: Call<S>, streaming: bool) {
    && Unfinished(c.outcome, streaming)
    && !c.outcome.ctxAtStop && !c.outcome.ctxAtSwitch
    && !TellsOfLength(c.outcome.failure.value) && WorthSwitch(c.outcome.failure.value)
  }

  // Index and attempt number of the call that follows c in a list of `count` models, if any does.
  ghost function Following<S>(c: Call<S>, streaming: bool, count: nat, lim: Limits): Option<(nat, nat)> {
    if TriedAgain(c, streaming, lim) then Some((c.index, c.attempt + 1))
    else if Switches(c, streaming) && c.index + 1 < count then Some((c.index + 1, 1))
    else None
  }

  function PlaceOf<S>(calls: seq<Call<S>>, j: nat): Option<(nat, nat)> {
    if j < |calls| then Some((calls[j].index, calls[j].attempt)) else None
  }

  // Every call is followed by just the one that it calls for.
  ghost predicate Chained<S>(calls: seq<Call<S>>, streaming: bool, count: nat, lim: Limits) {
    forall j {:trigger calls[j]} :: 0 <= j < |calls| ==>
      PlaceOf(calls, j + 1) == Following(calls[j], streaming, count, lim)
  }

  ghost predicate AgainAt<S>(calls: seq<Call<S>>, j: nat, index: nat, streaming: bool, lim: Limits)
    requires j < |calls|
  {
    TriedAgain(calls[j], streaming, lim) && PlaceOf(calls, j + 1) == Some((index, calls[j].attempt + 1))
  }

  // The attempts on one model: all but the last call for another one.
  ghost predicate OneModel<S>(calls: seq<Call<S>>, index: nat, attempt: nat, streaming: bool, lim: Limits) {
    && calls != [] && calls[0].index == index && calls[0].attempt == attempt
    && (forall j :: 0 <= j < |calls| - 1 ==> AgainAt(calls, j, index, streaming, lim))
    && (forall c :: c in calls ==> c.index == index)
    && !TriedAgain(calls[|calls| - 1], streaming, lim)
  }

  lemma AgainLater<S>(c: Call<S>, rest: seq<Call<S>>, j: nat, index: nat, streaming: bool, lim: Limits)
    requires j < |rest| && AgainAt(rest, j, index, streaming, lim)
    ensures AgainAt([c] + rest, j + 1, index, streaming, lim)
  {
    assert ([c] + rest)[j + 1] == rest[j] && PlaceOf([c] + rest, j + 2) == PlaceOf(rest, j + 1);
  }

  lemma OneMore<S>(c: Call<S>, rest: seq<Call<S>>, streaming: bool, lim: Limits)
    requires TriedAgain(c, streaming, lim) && OneModel(rest, c.index, c.attempt + 1, streaming, lim)
    ensures OneModel([c] + rest, c.index, c.attempt, streaming, lim)
  {
    var calls := [c] + rest;
    assert AgainAt(calls, 0, c.index, streaming, lim);
    forall j | 0 <= j < |calls| - 1 ensures AgainAt(calls, j, c.index, streaming, lim) {
      if j > 0 {
        AgainLater(c, rest, j - 1, c.index, streaming, lim);
      }
    }
    assert calls[|calls| - 1] == rest[|rest| - 1];
  }

  lemma JoinedPlaces<S>(a: seq<Call<S>>, b: seq<Call<S>>, j: nat)
    ensures PlaceOf(a + b, j) == if j < |a| then PlaceOf(a, j) else PlaceOf(b, j - |a|)
  {
  }

  lemma NextInside<S>(calls: seq<Call<S>>, index: nat, j: nat, streaming: bool, count: nat, lim: Limits)
    requires OneModel(calls, index, 1, streaming, lim) && j < |calls| - 1
    ensures PlaceOf(calls, j + 1) == Following(calls[j], streaming, count, lim)
  {
    assert AgainAt(calls, j, index, streaming, lim) && calls[j] in calls;
  }

  lemma NextAtEnd<S>(calls: seq<Call<S>>, index: nat, streaming: bool, count: nat, lim: Limits)
    requires OneModel(calls, index, 1, streaming, lim)
    ensures var last := calls[|calls| - 1];
            Following(last, streaming, count, lim)
            == if Switches(last, streaming) && index + 1 < count then Some((index + 1, 1)) else None
  {
    assert calls[|calls| - 1] in calls;
  }

  lemma ThenNext<S>(calls: seq<Call<S>>, rest: seq<Call<S>>, index: nat, streaming: bool, count: nat, lim: Limits)
    requires index < count && OneModel(calls, index, 1, streaming, lim) && Chained(rest, streaming, count, lim)
    requires PlaceOf(rest, 0)
          == if Switches(calls[|calls| - 1], streaming) && index + 1 < count then Some((index + 1, 1)) else None
    ensures Chained(calls + rest, streaming, count, lim) && PlaceOf(calls + rest, 0) == Some((index, 1))
  {
    var all, n := calls + rest, |calls| - 1;
    forall j | 0 <= j < |all| ensures PlaceOf(all, j + 1) == Following(all[j], streaming, count, lim) {
      JoinedPlaces(calls, rest, j + 1);
      if j < n {
        NextInside(calls, index, j, streaming, count, lim);
      } else if j == n {
        NextAtEnd(calls, index, streaming, count, lim);
      } else {
        assert all[j] == rest[j - n - 1];
      }
    }
  }

  // ---------- The streaming path ----------

  lemma StreamTryDecides<S>(step: (S, string, nat) -> (S, Outcome), s: S, model: string, index: nat, attempt: nat,
                            lim: Limits)
    ensures var y := StreamTry(step, s, model, index, attempt, lim);
            && y.call.index == index && y.call.attempt == attempt + 1
            && (y.end.None? <==> TriedAgain(y.call, true, lim))
            && (y.end == Some(GaveUp) <==> Unfinished(y.call.outcome, true) && !TriedAgain(y.call, true, lim))
  {
    var o := step(s, model, attempt + 1).1;
    if o.failure.Some? {
      RetryableExactly(o.failure.value, o.ctxAtRetry);
    }
  }

  lemma {:induction false} TurnOnOneModel<S>(step: (S, string, nat) -> (S, Outcome), s: S, model: string, index: nat,
                                             attempt: nat, lim: Limits)
    requires attempt <= lim.maxRetry
    ensures var t := StreamTurn(step, s, model, index, attempt, lim);
            && OneModel(t.calls, index, attempt + 1, true, lim)
            && (t.end == GaveUp <==> Unfinished(t.calls[|t.calls| - 1].outcome, true))
    decreases lim.maxRetry - attempt
  {
    StreamTryDecides(step, s, model, index, attempt, lim);
    var y := StreamTry(step, s, model, index, attempt, lim);
    if y.end.None? {
      TurnOnOneModel(step, y.state, model, index, attempt + 1, lim);
      OneMore(y.call, StreamTurn(step, y.state, model, index, attempt + 1, lim).calls, true, lim);
    }
  }

  lemma GoesOnExactly<S>(t: Turn<S>)
    requires t.calls != [] && (t.end == GaveUp <==> Unfinished(t.calls[|t.calls| - 1].outcome, true))
    ensures GoesOn(t, t.calls[|t.calls| - 1].outcome.failure) <==> Switches(t.calls[|t.calls| - 1], true)
  {
    var o := t.calls[|t.calls| - 1].outcome;
    if o.failure.Some? {
      SwitchableExactly(o.failure.value, o.ctxAtSwitch);
    }
  }

  lemma {:induction false} LoopChained<S>(step: (S, string, nat) -> (S, Outcome), s: S, models: seq<string>,
                                          index: nat, lim: Limits, lastErr: Option<Failure>)
    requires lim.maxRetry >= 0
    ensures var calls := StreamLoop(step, s, models, index, lim, lastErr).calls;
            && Chained(calls, true, |models|, lim)
            && PlaceOf(calls, 0) == if index < |models| then Some((index, 1)) else None
    decreases |models| - index
  {
    if index < |models| {
      TurnOnOneModel(step, s, models[index], index, 0, lim);
      LoopUnfolds(step, s, models, index, lim, lastErr);
      var t := StreamTurn(step, s, models[index], index, 0, lim);
      var err := LastError(t.calls, lastErr);
      GoesOnExactly(t);
      if GoesOn(t, err) {
        LoopChained(step, t.state, models, index + 1, lim, err);
        ThenNext(t.calls, StreamLoop(step, t.state, models, index + 1, lim, err).calls, index, true, |models|, lim);
      } else {
        assert t.calls + [] == t.calls;
        ThenNext(t.calls, [], index, true, |models|, lim);
      }
    }
  }

  // ---------- The single-response path ----------

  lemma RetryTryDecides<S>(step: (S, string, nat) -> (S, Outcome), s: S, listed: seq<string>, model: string,
                           index: nat, attempt: nat, lim: Limits)
    ensures var y := RetryTry(step, s, listed, model, index, attempt, lim);
            && y.call.index == index && y.call.attempt == attempt + 1
            && (y.end.None? <==> TriedAgain(y.call, false, lim))
            && (y.end.Some? ==> y.end.value == y.call.outcome.failure)
  {
    var o := step(s, model, attempt + 1).1;
    if o.failure.Some? {
      RetryableExactly(o.failure.value, o.ctxAtRetry);
    }
  }

  lemma {:induction false} RetriesOnOneModel<S>(step: (S, string, nat) -> (S, Outcome), s: S, listed: seq<string>,
                                                model: string, index: nat, attempt: nat, lim: Limits,
                                                lastErr: Option<Failure>)
    requires attempt <= lim.maxRetry
    ensures var r := RetryModel(step, s, listed, model, index, attempt, lim, lastErr);
            && OneModel(r.calls, index, attempt + 1, false, lim)
            && r.error == r.calls[|r.calls| - 1].outcome.failure
    decreases lim.maxRetry - attempt
  {
    RetryTryDecides(step, s, listed, model, index, attempt, lim);
    var y := RetryTry(step, s, listed, model, index, attempt, lim);
    if y.end.None? {
      var err := y.call.outcome.failure;
      RetriesOnOneModel(step, y.state, listed, model, index, attempt + 1, lim, err);
      OneMore(y.call, RetryModel(step, y.state, listed, model, index, attempt + 1, lim, err).calls, false, lim);
    }
  }

  lemma SwitchesExactly<S>(calls: seq<Call<S>>)
    requires calls != []
    ensures var err := calls[|calls| - 1].outcome.failure;
            Switches(calls[|calls| - 1], false)
            <==> err.Some? && !CanceledAfter(calls, err) && SwitchableAfter(calls, err)
  {
    var o := calls[|calls| - 1].outcome;
    if o.failure.Some? {
      SwitchableExactly(o.failure.value, o.ctxAtSwitch);
    }
  }

  lemma DegradeUnfolds<S>(step: (S, string, nat) -> (S, Outcome), s: S, listed: seq<string>, ordered: seq<string>,
                          index: nat, lim: Limits, lastErr: Option<Failure>)
    requires index < |ordered|
    ensures var r := RetryModel(step, s, listed, ordered[index], index, 0, lim, None);
            var goesOn := r.error.Some? && !CanceledAfter(r.calls, r.error) && SwitchableAfter(r.calls, r.error);
            DegradeLoop(step, s, listed, ordered, index, lim, lastErr).calls
            == r.calls + (if goesOn then DegradeLoop(step, r.state, listed, ordered, index + 1, lim, r.error).calls
                          else [])
  {
    var r := RetryModel(step, s, listed, ordered[index], index, 0, lim, None);
    assert r.calls + [] == r.calls;
  }

  lemma {:induction false} DegradeChained<S>(step: (S, string, nat) -> (S, Outcome), s: S, listed: seq<string>,
                                             ordered: seq<string>, index: nat, lim: Limits, lastErr: Option<Failure>)
    requires lim.maxRetry >= 0
    ensures var calls := DegradeLoop(step, s, listed, ordered, index, lim, lastErr).calls;
            && Chained(calls, false, |ordered|, lim)
            && PlaceOf(calls, 0) == if index < |ordered| then Some((index, 1)) else None
    decreases |ordered| - index
  {
    if index < |ordered| {
      RetriesOnOneModel(step, s, listed, ordered[index], index, 0, lim, None);
      DegradeUnfolds(step, s, listed, ordered, index, lim, lastErr);
      var r := RetryModel(step, s, listed, ordered[index], index, 0, lim, None);
      SwitchesExactly(r.calls);
      var goesOn := Switches(r.calls[|r.calls| - 1], false);
      var rest := if goesOn then DegradeLoop(step, r.state, listed, ordered, index + 1, lim, r.error).calls else [];
      assert DegradeLoop(step, s, listed, ordered, index, lim, lastErr).calls == r.calls + rest;
      if goesOn {
        DegradeChained(step, r.state, listed, ordered, index + 1, lim, r.error);
      }
      ThenNext(r.calls, rest, index, false, |ordered|, lim);
    }
  }

  // ---------- What each call starts from ----------

  // The calls were made one after the other from s on, each on the model it names, and left end.
  ghost predicate Threaded<S>(step: (S, string, nat) -> (S, Outcome), s: S, calls: seq<Call<S>>, end: S,
                              models: seq<string>)
  {
    if calls == [] then end == s
    else
      var c := calls[0];
      && c.before == s && c.index < |models| && c.model == models[c.index]
      && step(s, c.model, c.attempt).1 == c.outcome
      && Threaded(step, step(s, c.model, c.attempt).0, calls[1..], end, models)
  }

  lemma {:induction false} ThreadedAppend<S>(step: (S, string, nat) -> (S, Outcome), s: S, a: seq<Call<S>>, mid: S,
                                             b: seq<Call<S>>, end: S, models: seq<string>)
    requires Threaded(step, s, a, mid, models) && Threaded(step, mid, b, end, models)
    ensures Threaded(step, s, a + b, end, models)
  {
    if a == [] {
      assert a + b == b;
    } else {
      assert (a + b)[1..] == a[1..] + b;
      ThreadedAppend(step, step(s, a[0].model, a[0].attempt).0, a[1..], mid, b, end, models);
    }
  }

  lemma {:induction false} TurnThreaded<S>(step: (S, string, nat) -> (S, Outcome), s: S, models: seq<string>,
                                           index: nat, attempt: nat, lim: Limits)
    requires index < |models|
    ensures var t := StreamTurn(step, s, models[index], index, attempt, lim);
            Threaded(step, s, t.calls, t.state, models)
    decreases lim.maxRetry + 1 - attempt
  {
    if attempt <= lim.maxRetry {
      var y := StreamTry(step, s, models[index], index, attempt, lim);
      assert Threaded(step, s, [y.call], y.state, models);
      if y.end.None? {
        TurnThreaded(step, y.state, models, index, attempt + 1, lim);
        var rest := StreamTurn(step, y.state, models[index], index, attempt + 1, lim);
        ThreadedAppend(step, s, [y.call], y.state, rest.calls, rest.state, models);
      }
    }
  }

  lemma {:induction false} LoopThreaded<S>(step: (S, string, nat) -> (S, Outcome), s: S, models: seq<string>,
                                           index: nat, lim: Limits, lastErr: Option<Failure>)
    ensures var r := StreamLoop(step, s, models, index, lim, lastErr);
            Threaded(step, s, r.calls, r.state, models)
    decreases |models| - index
  {
    if index < |models| {
      TurnThreaded(step, s, models, index, 0, lim);
      LoopUnfolds(step, s, models, index, lim, lastErr);
      var t := StreamTurn(step, s, models[index], index, 0, lim);
      var err := LastError(t.calls, lastErr);
      if GoesOn(t, err) {
        LoopThreaded(step, t.state, models, index + 1, lim, err);
        var rest := StreamLoop(step, t.state, models, index + 1, lim, err);
        ThreadedAppend(step, s, t.calls, t.state, rest.calls, rest.state, models);
      }
    }
  }

  lemma {:induction false} RetriesThreaded<S>(step: (S, string, nat) -> (S, Outcome), s: S, listed: seq<string>,
                                              ordered: seq<string>, index: nat, attempt: nat, lim: Limits,
                                              lastErr: Option<Failure>)
    requires index < |ordered|
    ensures var r := RetryModel(step, s, listed, ordered[index], index, attempt, lim, lastErr);
            Threaded(step, s, r.calls, r.state, ordered)
    decreases lim.maxRetry + 1 - attempt
  {
    if attempt <= lim.maxRetry {
      var y := RetryTry(step, s, listed, ordered[index], index, attempt, lim);
      assert Threaded(step, s, [y.call], y.state, ordered);
      if y.end.None? {
        var err := y.call.outcome.failure;
        RetriesThreaded(step, y.state, listed, ordered, index, attempt + 1, lim, err);
        var rest := RetryModel(step, y.state, listed, ordered[index], index, attempt + 1, lim, err);
        ThreadedAppend(step, s, [y.call], y.state, rest.calls, rest.state, ordered);
      }
    }
  }

  lemma {:induction false} DegradeThreaded<S>(step: (S, string, nat) -> (S, Outcome), s: S, listed: seq<string>,
                                              ordered: seq<string>, index: nat, lim: Limits, lastErr: Option<Failure>)
    ensures var r := DegradeLoop(step, s, listed, ordered, index, lim, lastErr);
            Threaded(step, s, r.calls, r.state, ordered)
    decreases |ordered| - index
  {
    if index < |ordered| {
      RetriesThreaded(step, s, listed, ordered, index, 0, lim, None);
      var r := RetryModel(step, s, listed, ordered[index], index, 0, lim, None);
      if r.error.Some? && !CanceledAfter(r.calls, r.error) && SwitchableAfter(r.calls, r.error) {
        DegradeThreaded(step, r.state, listed, ordered, index + 1, lim, r.error);
        var rest := DegradeLoop(step, r.state, listed, ordered, index + 1, lim, r.error);
        ThreadedAppend(step, s, r.calls, r.state, rest.calls, rest.state, ordered);
      }
    }
  }

  // ---------- Whole runs ----------

  /** Whatever the environment does, on both paths: the first call is the first attempt on the first model, and
  each call is followed by another attempt on the same model, by the first attempt on the next one, or by
  nothing, as it calls for, and starts from what the one before it left. In particular a retry is made exactly when
  the failure is worth one, attempts and budget are left and the context is live. */
  lemma CallsAreExactly<S>(step: (S, string, nat) -> (S, Outcome), s: S, models: seq<string>, lim: Limits)
    requires lim.maxRetry >= 0
    ensures var calls := StreamRun(step, s, models, lim).calls;
            && Chained(calls, true, |models|, lim)
            && PlaceOf(calls, 0) == (if models == [] then None else Some((0, 1)))
            && Threaded(step, s, calls, StreamRun(step, s, models, lim).state, models)
    ensures var calls := DegradeRun(step, s, models, lim).calls;
            && Chained(calls, false, |Clean(models)|, lim)
            && PlaceOf(calls, 0) == (if Clean(models) == [] then None else Some((0, 1)))
            && Threaded(step, s, calls, DegradeRun(step, s, models, lim).state, Clean(models))
  {
    LoopChained(step, s, models, 0, lim, None);
    LoopThreaded(step, s, models, 0, lim, None);
    if Clean(models) != [] {
      DegradeThreaded(step, s, models, Clean(models), 0, lim, None);
      DegradeChained(step, s, models, Clean(models), 0, lim, None);
    }
  }

  lemma DegradeVerdict<S>(step: (S, string, nat) -> (S, Outcome), s: S, listed: seq<string>, ordered: seq<string>,
                          index: nat, lim: Limits, lastErr: Option<Failure>)
    requires index < |ordered|
    ensures var r := RetryModel(step, s, listed, ordered[index], index, 0, lim, None);
            var goesOn := r.error.Some? && !CanceledAfter(r.calls, r.error) && SwitchableAfter(r.calls, r.error);
            var rest := DegradeLoop(step, r.state, listed, ordered, index + 1, lim, r.error);
            && DegradeLoop(step, s, listed, ordered, index, lim, lastErr).verdict
               == (if r.error.None? then Served
                   else if goesOn && index + 1 < |ordered| then rest.verdict
                   else Failed(r.error))
            && (index + 1 >= |ordered| ==> rest.calls == [])
  {
  }

  // The verdict is that of the last call.
  predicate EndsAs<S>(calls: seq<Call<S>>, verdict: Verdict) {
    && calls != []
    && var failure := calls[|calls| - 1].outcome.failure;
       verdict == if failure.None? then Served else Failed(failure)
  }

  lemma EndsLater<S>(a: seq<Call<S>>, b: seq<Call<S>>, verdict: Verdict)
    ensures EndsAs(b, verdict) ==> EndsAs(a + b, verdict)
    ensures a + [] == a
  {
  }

  /** The single-response path, too, ends as its last call does. */
  lemma {:induction false} SingleServedByLast<S>(step: (S, string, nat) -> (S, Outcome), s: S, listed: seq<string>,
                                                 ordered: seq<string>, index: nat, lim: Limits,
                                                 lastErr: Option<Failure>)
    requires lim.maxRetry >= 0 && index < |ordered|
    ensures var r := DegradeLoop(step, s, listed, ordered, index, lim, lastErr); EndsAs(r.calls, r.verdict)
    decreases |ordered| - index
  {
    RetriesOnOneModel(step, s, listed, ordered[index], index, 0, lim, None);
    DegradeUnfolds(step, s, listed, ordered, index, lim, lastErr);
    DegradeVerdict(step, s, listed, ordered, index, lim, lastErr);
    var r := RetryModel(step, s, listed, ordered[index], index, 0, lim, None);
    var rest := DegradeLoop(step, r.state, listed, ordered, index + 1, lim, r.error);
    EndsLater(r.calls, rest.calls, rest.verdict);
    if index + 1 < |ordered| {
      SingleServedByLast(step, r.state, listed, ordered, index + 1, lim, r.error);
    }
  }

  /** What the client is told when streaming ends, in terms of the last call alone: nothing more after a success or
  when it has gone, that its input is too long if the failure says so, and else the failure. */
  lemma ToldExactly<S>(step: (S, string, nat) -> (S, Outcome), s: S, models: seq<string>, lim: Limits,
                       contextCanceled: bool)
    requires lim.maxRetry >= 0 && models != []
    ensures var r := StreamRun(step, s, models, lim);
            && r.calls != []
            && var failure := r.calls[|r.calls| - 1].outcome.failure;
               Report(r.verdict, contextCanceled)
               == if failure.None? then Done
                  else if failure.value.wrapsCanceled || contextCanceled then ClientGone
                  else if TellsOfLength(failure.value) then ContextTooLong
                  else ErrorEvent(failure.value)
  {
    ServedByLast(step, s, models, 0, lim, None);
    var calls := StreamRun(step, s, models, lim).calls;
    var failure := calls[|calls| - 1].outcome.failure;
    if failure.Some? {
      LengthExactly(failure.value);
    }
  }
}
