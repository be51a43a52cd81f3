/** Trying the models of an ordered list, each with retries, in the two ways the gateway does it:
while streaming, and for a single response. What one attempt does is left open: `step` takes the
state of the world, the model and the attempt number to the next state and the attempt's outcome, so
every statement here holds for every environment. */
module Degradation {
  import opened Options
  import opened Failures
  import opened DegradationTrace

  // ctxAt...: whether the request's context is found cancelled at that check.
  datatype Outcome = Outcome(
    failure: Option<Failure>, committed: bool, remaining: int,
    ctxAtRetry: bool, ctxAtStop: bool, ctxAtSwitch: bool)

  datatype Call<S> = Call(index: nat, model: string, attempt: nat, before: S, outcome: Outcome)

  datatype Verdict = Served | Failed(error: Option<Failure>)

  datatype End = Success | Committed | GaveUp
  datatype Turn<S> = Turn(state: S, calls: seq<Call<S>>, events: seq<Event>, end: End)
  datatype Run<S> = Run(state: S, calls: seq<Call<S>>, events: seq<Event>, verdict: Verdict)

  datatype Limits = Limits(maxRetry: int, interval: int)

  function Note(kind: EventKind, model: string, index: int, attempt: nat, reason: Reason): Event {
    Event(kind, model, "", index, attempt, reason)
  }

  function SwitchNote(models: seq<string>, index: nat): seq<Event>
    requires index < |models|
  {
    if index + 1 < |models|
    then [Event(ModelSwitch, models[index + 1], models[index], index + 1, 0, PreviousModelFailed)] else []
  }

  function LastError<S>(calls: seq<Call<S>>, before: Option<Failure>): Option<Failure> {
    if calls == [] then before else calls[|calls| - 1].outcome.failure
  }

  predicate CanceledAfter<S>(calls: seq<Call<S>>, err: Option<Failure>) {
    (err.Some? && err.value.wrapsCanceled) || (calls != [] && calls[|calls| - 1].outcome.ctxAtStop)
  }

  predicate SwitchableAfter<S>(calls: seq<Call<S>>, err: Option<Failure>) {
    err.Some? && IsSwitchable(err.value, calls != [] && calls[|calls| - 1].outcome.ctxAtSwitch)
  }

  // ---------- The streaming path ----------

  // One attempt and what is decided after it; end is None when the same model is to be tried again.
  datatype Try<S> = Try(state: S, call: Call<S>, events: seq<Event>, end: Option<End>)

  function StreamTry<S>(step: (S, string, nat) -> (S, Outcome), s: S, model: string, index: nat, attempt: nat,
                        lim: Limits)
    : Try<S>
  {
    var (s1, o) := step(s, model, attempt + 1);
    var call := Call(index, model, attempt + 1, s, o);
    var started := Note(AttemptStarted, model, index, attempt + 1, NoReason);
    if o.failure.None? then
      Try(s1, call, [started, Note(ModelSucceeded, model, index, attempt + 1, ModelCallSucceeded)], Some(Success))
    else if o.committed then
      Try(s1, call, [started, Note(Stopped, model, index, attempt + 1, StreamCommitted)], Some(Committed))
    else
      var failed := Note(AttemptFailed, model, index, attempt + 1, StreamFailedBeforeFirstToken);
      if !(IsSameModelRetryable(o.failure.value, o.ctxAtRetry) && attempt < lim.maxRetry) then
        Try(s1, call, [started, failed], Some(GaveUp))
      else if o.remaining < lim.interval then
        Try(s1, call, [started, failed, Note(RetrySkipped, model, index, attempt + 1, InsufficientIdleBudget)],
            Some(GaveUp))
      else
        Try(s1, call, [started, failed, Note(RetryScheduled, model, index, attempt + 1, RetryableError)], None)
  }

  // The attempts on one model, from attempt number `attempt` (counting from 0) on.
  function StreamTurn<S>(step: (S, string, nat) -> (S, Outcome), s: S, model: string, index: nat, attempt: nat,
                         lim: Limits)
    : Turn<S>
    decreases lim.maxRetry + 1 - attempt
  {
    if attempt > lim.maxRetry then Turn(s, [], [], GaveUp)
    else
      var y := StreamTry(step, s, model, index, attempt, lim);
      if y.end.Some? then Turn(y.state, [y.call], y.events, y.end.value)
      else
        var rest := StreamTurn(step, y.state, model, index, attempt + 1, lim);
        Turn(rest.state, [y.call] + rest.calls, y.events + rest.events, rest.end)
  }

  function StreamLoop<S>(step: (S, string, nat) -> (S, Outcome), s: S, models: seq<string>, index: nat, lim: Limits,
                         lastErr: Option<Failure>): Run<S>
    decreases |models| - index
  {
    if index >= |models| then Run(s, [], [], Failed(lastErr))
    else
      var t := StreamTurn(step, s, models[index], index, 0, lim);
      var err := LastError(t.calls, lastErr);
      if t.end == Success then Run(t.state, t.calls, t.events, Served)
      else if t.end == Committed then Run(t.state, t.calls, t.events, Failed(err))
      else if CanceledAfter(t.calls, err) then
        Run(t.state, t.calls, t.events + [Note(Stopped, models[index], index, 0, ContextCanceled)], Failed(err))
      else if !SwitchableAfter(t.calls, err) then
        Run(t.state, t.calls, t.events + [Note(Stopped, models[index], index, 0, NonSwitchableError)], Failed(err))
      else
        var rest := StreamLoop(step, t.state, models, index + 1, lim, err);
        Run(rest.state, t.calls + rest.calls, t.events + SwitchNote(models, index) + rest.events, rest.verdict)
  }

  function StreamRun<S>(step: (S, string, nat) -> (S, Outcome), s: S, models: seq<string>, lim: Limits): Run<S> {
    var r := StreamLoop(step, s, models, 0, lim, None);
    if models == [] then r else r.(events := [Note(Started, models[0], 0, 0, AutoModeStream)] + r.events)
  }

  // ---------- The single-response path ----------

  function ModelIndexFrom(models: seq<string>, name: string, i: nat): (r: int)
    requires i <= |models|
    ensures r == -1 || (i <= r < |models| && models[r] == name)
    ensures forall j :: i <= j < |models| && models[j] == name ==> 0 <= r <= j
    decreases |models| - i
  {
    if i == |models| then -1 else if models[i] == name then i else ModelIndexFrom(models, name, i + 1)
  }

  // callModelWithRetry: the error it returns is None on success, and also when no attempt was made.
  datatype Retried<S> = Retried(state: S, calls: seq<Call<S>>, events: seq<Event>, error: Option<Failure>)

  // One attempt; end is None when the model is to be tried again, and otherwise holds the returned error.
  datatype RetryStep<S> = RetryStep(state: S, call: Call<S>, events: seq<Event>, end: Option<Option<Failure>>)

  function RetryTry<S>(step: (S, string, nat) -> (S, Outcome), s: S, listed: seq<string>, model: string, index: nat,
                       attempt: nat, lim: Limits): RetryStep<S>
  {
    var (s1, o) := step(s, model, attempt + 1);
    var call := Call(index, model, attempt + 1, s, o);
    var modelIndex := ModelIndexFrom(listed, model, 0);
    var (events, end) := RetryDecision(model, modelIndex, attempt, lim, o);
    RetryStep(s1, call, [Note(AttemptStarted, model, modelIndex, attempt + 1, NoReason)] + events, end)
  }

  // The events after an attempt, and what is decided.
  function RetryDecision(model: string, modelIndex: int, attempt: nat, lim: Limits, o: Outcome)
    : (seq<Event>, Option<Option<Failure>>)
  {
    match o.failure
    case None => ([Note(ModelSucceeded, model, modelIndex, attempt + 1, ModelCallSucceeded)], Some(None))
    case Some(f) =>
      var failed := Note(AttemptFailed, model, modelIndex, attempt + 1, ModelCallFailed);
      if !(IsSameModelRetryable(f, o.ctxAtRetry) && attempt < lim.maxRetry) then ([failed], Some(Some(f)))
      else if o.remaining < lim.interval then
        ([failed, Note(RetrySkipped, model, modelIndex, attempt + 1, InsufficientIdleBudget)], Some(Some(f)))
      else ([failed, Note(RetryScheduled, model, modelIndex, attempt + 1, RetryableError)], None)
  }

  function RetryModel<S>(step: (S, string, nat) -> (S, Outcome), s: S, listed: seq<string>, model: string, index: nat,
                         attempt: nat, lim: Limits, lastErr: Option<Failure>): Retried<S>
    decreases lim.maxRetry + 1 - attempt
  {
    if attempt > lim.maxRetry then Retried(s, [], [], lastErr)
    else
      var y := RetryTry(step, s, listed, model, index, attempt, lim);
      if y.end.Some? then Retried(y.state, [y.call], y.events, y.end.value)
      else
        var rest := RetryModel(step, y.state, listed, model, index, attempt + 1, lim, y.call.outcome.failure);
        Retried(rest.state, [y.call] + rest.calls, y.events + rest.events, rest.error)
  }

  function DegradeLoop<S>(step: (S, string, nat) -> (S, Outcome), s: S, listed: seq<string>, ordered: seq<string>,
                          index: nat, lim: Limits, lastErr: Option<Failure>): Run<S>
    decreases |ordered| - index
  {
    if index >= |ordered| then Run(s, [], [], Failed(lastErr))
    else
      var r := RetryModel(step, s, listed, ordered[index], index, 0, lim, None);
      if r.error.None? then Run(r.state, r.calls, r.events, Served)
      else if CanceledAfter(r.calls, r.error) then
        Run(r.state, r.calls, r.events + [Note(Stopped, ordered[index], index, 0, ContextCanceled)], Failed(r.error))
      else if !SwitchableAfter(r.calls, r.error) then
        Run(r.state, r.calls, r.events + [Note(Stopped, ordered[index], index, 0, NonSwitchableError)], Failed(r.error))
      else
        var rest := DegradeLoop(step, r.state, listed, ordered, index + 1, lim, r.error);
        Run(rest.state, r.calls + rest.calls, r.events + SwitchNote(ordered, index) + rest.events, rest.verdict)
  }

  // The list without empty names and repetitions.
  function Clean(models: seq<string>): (r: seq<string>)
    ensures forall m :: m in r <==> m in models && m != ""
  {
    if models == [] then []
    else
      var front, last := models[..|models| - 1], models[|models| - 1];
      assert models == front + [last];
      if last == "" || last in front then Clean(front) else Clean(front) + [last]
  }

  const NO_LIST := Failure("degradation: ordered models is empty", false, Plain)
  const NOTHING_TO_TRY := Failure("degradation: no valid model in order list", false, Plain)

  function DegradeRun<S>(step: (S, string, nat) -> (S, Outcome), s: S, models: seq<string>, lim: Limits): Run<S> {
    var ordered := Clean(models);
    if models == [] then Run(s, [], [], Failed(Some(NO_LIST)))
    else if ordered == [] then Run(s, [], [], Failed(Some(NOTHING_TO_TRY)))
    else
      var r := DegradeLoop(step, s, models, ordered, 0, lim, None);
      r.(events := [Note(Started, ordered[0], 0, 0, AutoMode)] + r.events)
  }

  // ---------- The list without repetitions ----------

  ghost predicate Distinct(models: seq<string>) {
    forall i, j :: 0 <= i < j < |models| ==> models[i] != models[j]
  }

  lemma {:induction false} CleanUnchanged(models: seq<string>)
    ensures Clean(models) == models <==> Distinct(models) && "" !in models
    ensures |Clean(models)| <= |models|
  {
    if models != [] {
      var front, last := models[..|models| - 1], models[|models| - 1];
      assert models == front + [last];
      CleanUnchanged(front);
      if Distinct(models) {
        assert last !in front;
      }
      if Clean(models) == models {
        assert |Clean(models)| == |front| + 1;
        assert Clean(models)[..|front|] == Clean(front);
      }
    }
  }

  /** Cleaning leaves no empty name and no repetition, so cleaning again changes nothing. */
  lemma {:induction false} CleanIsDistinct(models: seq<string>)
    ensures Distinct(Clean(models)) && Clean(Clean(models)) == Clean(models)
  {
    if models != [] {
      var front := models[..|models| - 1];
      CleanIsDistinct(front);
      CleanUnchanged(Clean(models));
    }
  }

  // ---------- The shape of the calls ----------

  // Call d follows call c: a retry of the same model, or the first attempt on the next one.
  ghost predicate Follows<S>(c: Call<S>, d: Call<S>, lim: Limits) {
    && c.outcome.failure.Some? && !c.outcome.committed
    && ((d.index == c.index && d.attempt == c.attempt + 1
         && IsSameModelRetryable(c.outcome.failure.value, c.outcome.ctxAtRetry) && c.outcome.remaining >= lim.interval)
        || (d.index == c.index + 1 && d.attempt == 1
            && IsSwitchable(c.outcome.failure.value, c.outcome.ctxAtSwitch) && !c.outcome.ctxAtStop))
  }

  ghost predicate Legal<S>(calls: seq<Call<S>>, models: seq<string>, lim: Limits) {
    && (forall c :: c in calls ==>
          c.index < |models| && c.model == models[c.index] && 1 <= c.attempt <= lim.maxRetry + 1)
    && (forall j :: 0 <= j < |calls| - 1 ==> Follows(calls[j], calls[j + 1], lim))
  }

  lemma LegalJoin<S>(a: seq<Call<S>>, b: seq<Call<S>>, models: seq<string>, lim: Limits)
    requires Legal(a, models, lim) && Legal(b, models, lim)
    requires a != [] && b != [] ==> Follows(a[|a| - 1], b[0], lim)
    ensures Legal(a + b, models, lim)
  {
  }

  lemma {:induction false} TurnLegal<S>(step: (S, string, nat) -> (S, Outcome), s: S, models: seq<string>, index: nat,
                                        attempt: nat, lim: Limits)
    requires index < |models| && attempt <= lim.maxRetry
    ensures var t := StreamTurn(step, s, models[index], index, attempt, lim);
            && Legal(t.calls, models, lim)
            && t.calls != [] && t.calls[0].index == index && t.calls[0].attempt == attempt + 1 && t.calls[0].before == s
            && t.calls[|t.calls| - 1].index == index
            && (t.end == GaveUp ==>
                  t.calls[|t.calls| - 1].outcome.failure.Some? && !t.calls[|t.calls| - 1].outcome.committed)
    decreases lim.maxRetry - attempt
  {
    var y := StreamTry(step, s, models[index], index, attempt, lim);
    if y.end.None? {
      TurnLegal(step, y.state, models, index, attempt + 1, lim);
      LegalJoin([y.call], StreamTurn(step, y.state, models[index], index, attempt + 1, lim).calls, models, lim);
    }
  }

  // The calls begin with the first attempt on the model at this index.
  ghost predicate Opens<S>(calls: seq<Call<S>>, index: nat) {
    calls != [] && calls[0].index == index && calls[0].attempt == 1
  }

  // Legal calls for the models from this index on.
  ghost predicate LegalFrom<S>(calls: seq<Call<S>>, models: seq<string>, index: nat, lim: Limits) {
    Legal(calls, models, lim) && (if index < |models| then Opens(calls, index) else calls == [])
  }

  lemma LegalSwitch<S>(calls: seq<Call<S>>, rest: seq<Call<S>>, models: seq<string>, index: nat, lim: Limits)
    requires index < |models| && LegalFrom(calls, models, index, lim) && LegalFrom(rest, models, index + 1, lim)
    requires var l := calls[|calls| - 1];
             && l.index == index && l.outcome.failure.Some? && !l.outcome.committed
             && !CanceledAfter(calls, l.outcome.failure) && SwitchableAfter(calls, l.outcome.failure)
    ensures LegalFrom(calls + rest, models, index, lim)
  {
  }

  lemma OneTurnLegal<S>(step: (S, string, nat) -> (S, Outcome), s: S, models: seq<string>, index: nat, lim: Limits)
    requires index < |models| && lim.maxRetry >= 0
    ensures var t := StreamTurn(step, s, models[index], index, 0, lim);
            && LegalFrom(t.calls, models, index, lim)
            && t.calls != []
            && var l := t.calls[|t.calls| - 1];
               l.index == index && (t.end == GaveUp ==> l.outcome.failure.Some? && !l.outcome.committed)
  {
    TurnLegal(step, s, models, index, 0, lim);
  }

  // What the loop does with one model's turn.
  predicate GoesOn<S>(t: Turn<S>, err: Option<Failure>) {
    t.end == GaveUp && !CanceledAfter(t.calls, err) && SwitchableAfter(t.calls, err)
  }

  // What is noted when it does not go on to the next model.
  function EndNote<S>(t: Turn<S>, err: Option<Failure>, model: string, index: nat): seq<Event> {
    if t.end != GaveUp then []
    else if CanceledAfter(t.calls, err) then [Note(Stopped, model, index, 0, ContextCanceled)]
    else if !SwitchableAfter(t.calls, err) then [Note(Stopped, model, index, 0, NonSwitchableError)]
    else []
  }

  lemma LoopUnfolds<S>(step: (S, string, nat) -> (S, Outcome), s: S, models: seq<string>, index: nat, lim: Limits,
                       lastErr: Option<Failure>)
    requires index < |models|
    ensures var t := StreamTurn(step, s, models[index], index, 0, lim);
            var err := LastError(t.calls, lastErr);
            var rest := StreamLoop(step, t.state, models, index + 1, lim, err);
            StreamLoop(step, s, models, index, lim, lastErr)
            == if GoesOn(t, err)
               then Run(rest.state, t.calls + rest.calls, t.events + SwitchNote(models, index) + rest.events,
                        rest.verdict)
               else Run(t.state, t.calls, t.events + EndNote(t, err, models[index], index),
                        if t.end == Success then Served else Failed(err))
  {
    var t := StreamTurn(step, s, models[index], index, 0, lim);
    assert t.events + [] == t.events;
  }

  lemma TurnThenRest<S>(t: Turn<S>, rest: seq<Call<S>>, models: seq<string>, index: nat, lim: Limits,
                        err: Option<Failure>)
    requires index < |models| && LegalFrom(t.calls, models, index, lim) && t.calls != []
             && err == LastError(t.calls, None)
    requires var l := t.calls[|t.calls| - 1];
             l.index == index && (t.end == GaveUp ==> l.outcome.failure.Some? && !l.outcome.committed)
    requires GoesOn(t, err) ==> LegalFrom(rest, models, index + 1, lim)
    ensures LegalFrom(if GoesOn(t, err) then t.calls + rest else t.calls, models, index, lim)
  {
    if GoesOn(t, err) {
      LegalSwitch(t.calls, rest, models, index, lim);
    }
  }

  lemma {:induction false} LoopLegal<S>(step: (S, string, nat) -> (S, Outcome), s: S, models: seq<string>, index: nat,
                                        lim: Limits, lastErr: Option<Failure>)
    requires lim.maxRetry >= 0
    ensures LegalFrom(StreamLoop(step, s, models, index, lim, lastErr).calls, models, index, lim)
    decreases |models| - index
  {
    if index < |models| {
      var t := StreamTurn(step, s, models[index], index, 0, lim);
      var err := LastError(t.calls, lastErr);
      OneTurnLegal(step, s, models, index, lim);
      LoopLegal(step, t.state, models, index + 1, lim, err);
      TurnThenRest(t, StreamLoop(step, t.state, models, index + 1, lim, err).calls, models, index, lim, err);
      LoopUnfolds(step, s, models, index, lim, lastErr);
    }
  }

  /** Models are tried in list order from the first, never revisited, each at most maxRetry + 1 times;
  a retry needs a retryable failure and enough idle budget, a switch a switchable failure. */
  lemma CallsAreLegal<S>(step: (S, string, nat) -> (S, Outcome), s: S, models: seq<string>, lim: Limits)
    requires lim.maxRetry >= 0 && models != []
    ensures var r := StreamRun(step, s, models, lim);
            Legal(r.calls, models, lim) && Opens(r.calls, 0)
  {
    LoopLegal(step, s, models, 0, lim, None);
  }

  // ---------- The two paths agree ----------

  // The run broke off after content had already been sent.
  ghost predicate BreaksOff<S>(calls: seq<Call<S>>) {
    calls != [] && calls[|calls| - 1].outcome.failure.Some? && calls[|calls| - 1].outcome.committed
  }

  // Nothing had been sent to the client when one of these calls failed.
  ghost predicate FailUncommitted<S>(calls: seq<Call<S>>) {
    forall c :: c in calls && c.outcome.failure.Some? ==> !c.outcome.committed
  }

  // Only the last call of a run can fail after content was sent.
  lemma LastDecides<S>(calls: seq<Call<S>>, models: seq<string>, lim: Limits)
    requires Legal(calls, models, lim)
    ensures FailUncommitted(calls) <==> !BreaksOff(calls)
  {
    if calls != [] {
      assert calls[|calls| - 1] in calls;
    }
    forall c | c in calls && c.outcome.failure.Some? && c.outcome.committed ensures BreaksOff(calls) {
      var j :| 0 <= j < |calls| && calls[j] == c;
      assert j < |calls| - 1 ==> Follows(calls[j], calls[j + 1], lim);
    }
  }

  lemma TriesAgree<S>(step: (S, string, nat) -> (S, Outcome), s: S, listed: seq<string>, model: string, index: nat,
                      attempt: nat, lim: Limits)
    ensures var y := StreamTry(step, s, model, index, attempt, lim);
            var z := RetryTry(step, s, listed, model, index, attempt, lim);
            && y.call == z.call && y.state == z.state
            && (!(y.call.outcome.failure.Some? && y.call.outcome.committed) ==>
                  && (y.end.None? <==> z.end.None?) && y.end != Some(Committed)
                  && (y.end == Some(Success) <==> y.call.outcome.failure.None?)
                  && (z.end.Some? ==> z.end.value == y.call.outcome.failure))
  {
  }

  ghost predicate SameTurn<S>(t: Turn<S>, r: Retried<S>) {
    && t.state == r.state && t.calls == r.calls != [] && t.end != Committed
    && (t.end == Success <==> r.error.None?)
    && r.error == LastError(t.calls, None)
  }

  lemma SameLater<S>(call: Call<S>, t: Turn<S>, r: Retried<S>, early: seq<Event>, late: seq<Event>)
    requires SameTurn(t, r)
    ensures SameTurn(Turn(t.state, [call] + t.calls, early + t.events, t.end),
                     Retried(r.state, [call] + r.calls, late + r.events, r.error))
  {
  }

  lemma {:induction false} TurnsAgree<S>(step: (S, string, nat) -> (S, Outcome), s: S, listed: seq<string>,
                                         model: string, index: nat, attempt: nat, lim: Limits, lastErr: Option<Failure>)
    requires attempt <= lim.maxRetry && FailUncommitted(StreamTurn(step, s, model, index, attempt, lim).calls)
    ensures SameTurn(StreamTurn(step, s, model, index, attempt, lim),
                     RetryModel(step, s, listed, model, index, attempt, lim, lastErr))
    decreases lim.maxRetry - attempt
  {
    var y, z := StreamTry(step, s, model, index, attempt, lim), RetryTry(step, s, listed, model, index, attempt, lim);
    var t := StreamTurn(step, s, model, index, attempt, lim);
    assert t.calls[0] == y.call && y.call in t.calls;
    TriesAgree(step, s, listed, model, index, attempt, lim);
    if y.end.None? {
      var err := y.call.outcome.failure;
      var rest := StreamTurn(step, y.state, model, index, attempt + 1, lim);
      LaterCalls(y.call, rest.calls);
      TurnsAgree(step, y.state, listed, model, index, attempt + 1, lim, err);
      SameLater(y.call, rest, RetryModel(step, y.state, listed, model, index, attempt + 1, lim, err), y.events,
                z.events);
    }
  }

  lemma LaterCalls<S>(call: Call<S>, rest: seq<Call<S>>)
    ensures FailUncommitted([call] + rest) ==> FailUncommitted(rest)
  {
    assert forall c :: c in rest ==> c in [call] + rest;
  }

  lemma {:induction false} LoopsAgree<S>(step: (S, string, nat) -> (S, Outcome), s: S, listed: seq<string>,
                                         models: seq<string>, index: nat, lim: Limits, lastErr: Option<Failure>)
    requires lim.maxRetry >= 0 && FailUncommitted(StreamLoop(step, s, models, index, lim, lastErr).calls)
    ensures var t := StreamLoop(step, s, models, index, lim, lastErr);
            var r := DegradeLoop(step, s, listed, models, index, lim, lastErr);
            t.state == r.state && t.calls == r.calls && t.verdict == r.verdict
    decreases |models| - index
  {
    if index < |models| {
      var t := StreamTurn(step, s, models[index], index, 0, lim);
      var whole := StreamLoop(step, s, models, index, lim, lastErr);
      var err := LastError(t.calls, lastErr);
      assert forall c :: c in t.calls ==> c in whole.calls;
      TurnsAgree(step, s, listed, models[index], index, 0, lim, None);
      if t.end == GaveUp && !CanceledAfter(t.calls, err) && SwitchableAfter(t.calls, err) {
        var rest := StreamLoop(step, t.state, models, index + 1, lim, err);
        assert forall c :: c in rest.calls ==> c in whole.calls;
        LoopsAgree(step, t.state, listed, models, index + 1, lim, err);
      }
    }
  }

  /** Whatever the environment does: unless the streaming run breaks off after content was sent, the two
  paths make the same calls in the same order, end in the same state and reach the same verdict, on every
  list of distinct, non-empty names. */
  lemma PathsAgree<S>(step: (S, string, nat) -> (S, Outcome), s: S, models: seq<string>, lim: Limits)
    requires lim.maxRetry >= 0 && !BreaksOff(StreamRun(step, s, models, lim).calls)
    requires models != [] && Distinct(models) && "" !in models
    ensures var t, r := StreamRun(step, s, models, lim), DegradeRun(step, s, models, lim);
            t.state == r.state && t.calls == r.calls && t.verdict == r.verdict
  {
    CleanUnchanged(models);
    LoopLegal(step, s, models, 0, lim, None);
    LastDecides(StreamLoop(step, s, models, 0, lim, None).calls, models, lim);
    LoopsAgree(step, s, models, models, 0, lim, None);
  }

  // Every call is answered with status 429: the next model is worth trying but not the same one.
  const DOWN := Outcome(Some(HttpStatusError(429, "")), false, 0, false, false, false)

  lemma DownSwitches()
    ensures !IsSameModelRetryable(HttpStatusError(429, ""), false) && IsSwitchable(HttpStatusError(429, ""), false)
  {
    HttpErrorsByStatus(429, "", false);
  }

  function AlwaysDown<S>(): (S, string, nat) -> (S, Outcome) {
    (s: S, model: string, attempt: nat) => (s, DOWN)
  }

  lemma DownOnce<S>(s: S, listed: seq<string>, model: string, index: nat, lim: Limits)
    requires lim.maxRetry >= 0
    ensures var t := StreamTurn(AlwaysDown<S>(), s, model, index, 0, lim);
            |t.calls| == 1 && t.end == GaveUp && t.state == s && t.calls[0].outcome == DOWN
    ensures RetryModel(AlwaysDown<S>(), s, listed, model, index, 0, lim, None).calls
         == StreamTurn(AlwaysDown<S>(), s, model, index, 0, lim).calls
  {
    DownSwitches();
    var r := RetryTry(AlwaysDown<S>(), s, listed, model, index, 0, lim);
    assert r.end.Some?;
  }

  lemma {:induction false} DownEverywhere<S>(s: S, models: seq<string>, index: nat, lim: Limits,
                                             lastErr: Option<Failure>)
    requires lim.maxRetry >= 0 && index <= |models|
    ensures var calls := StreamLoop(AlwaysDown<S>(), s, models, index, lim, lastErr).calls;
            |calls| == |models| - index && forall c :: c in calls ==> c.outcome == DOWN
    decreases |models| - index
  {
    if index < |models| {
      DownOnce(s, models, models[index], index, lim);
      var t := StreamTurn(AlwaysDown<S>(), s, models[index], index, 0, lim);
      var err := LastError(t.calls, lastErr);
      DownSwitches();
      DownEverywhere(s, models, index + 1, lim, err);
    }
  }

  /** On a list with an empty name or a repetition the two paths do part ways: streaming tries every
  entry, the single-response path skips those, so when all models are down they make different calls.
  Together with PathsAgree: the paths agree in every environment exactly on the clean lists. */
  lemma RepetitionTellsThemApart<S>(s: S, models: seq<string>, lim: Limits)
    requires lim.maxRetry >= 0 && models != []
    requires !Distinct(models) || "" in models
    ensures !BreaksOff(StreamRun(AlwaysDown<S>(), s, models, lim).calls)
    ensures StreamRun(AlwaysDown<S>(), s, models, lim).calls != DegradeRun(AlwaysDown<S>(), s, models, lim).calls
  {
    var ordered := Clean(models);
    CleanUnchanged(models);
    CleanIsShorter(models);
    DownEverywhere(s, models, 0, lim, None);
    if ordered != [] {
      DownEverywhere(s, ordered, 0, lim, None);
      LoopsAgree(AlwaysDown<S>(), s, models, ordered, 0, lim, None);
    }
  }

  lemma {:induction false} CleanIsShorter(models: seq<string>)
    ensures |Clean(models)| == |models| ==> Clean(models) == models
  {
    if models != [] {
      var front := models[..|models| - 1];
      CleanIsShorter(front);
      CleanUnchanged(front);
    }
  }

  // What the streaming path makes of a verdict. A failure without an error is no failure to report: the
  // handler asks it for its text and panics, unless it finds the request's context cancelled first.
  datatype Reported = Done | ClientGone | Panics | ContextTooLong | ErrorEvent(error: Failure)

  function Report(v: Verdict, contextCanceled: bool): Reported {
    match v
    case Served => Done
    case Failed(error) =>
      if (error.Some? && error.value.wrapsCanceled) || contextCanceled then ClientGone
      else if error.None? then Panics
      else if IsContextLength(error.value) then ContextTooLong
      else ErrorEvent(error.value)
  }

  /** The streaming path panics exactly if no attempt was allowed at all, which takes a negative retry limit. */
  lemma PanicsExactly<S>(step: (S, string, nat) -> (S, Outcome), s: S, models: seq<string>, lim: Limits,
                         contextCanceled: bool)
    requires models != []
    ensures Report(StreamRun(step, s, models, lim).verdict, contextCanceled) == Panics
            <==> lim.maxRetry < 0 && !contextCanceled
  {
    if lim.maxRetry >= 0 {
      ServedByLast(step, s, models, 0, lim, None);
    } else {
      NothingTried(step, s, models, lim);
    }
  }

  /** The retry limit decides it: with a negative one nothing is tried, and then the single-response path
  reports success, while streaming panics. */
  lemma AgreeExactlyWithRetryLimit<S>(step: (S, string, nat) -> (S, Outcome), s: S, models: seq<string>, lim: Limits)
    requires !BreaksOff(StreamRun(step, s, models, lim).calls)
    requires models != [] && Distinct(models) && "" !in models
    ensures StreamRun(step, s, models, lim).verdict == DegradeRun(step, s, models, lim).verdict <==> lim.maxRetry >= 0
    ensures lim.maxRetry < 0 ==> DegradeRun(step, s, models, lim).verdict == Served
                                 && Report(StreamRun(step, s, models, lim).verdict, false) == Panics
  {
    if lim.maxRetry >= 0 {
      PathsAgree(step, s, models, lim);
    } else {
      CleanUnchanged(models);
      NothingTried(step, s, models, lim);
    }
  }

  lemma NothingTried<S>(step: (S, string, nat) -> (S, Outcome), s: S, models: seq<string>, lim: Limits)
    requires models != [] && lim.maxRetry < 0
    ensures StreamLoop(step, s, models, 0, lim, None).verdict == Failed(None)
    ensures DegradeLoop(step, s, models, models, 0, lim, None).verdict == Served
  {
  }

  // Position of a call in list order.
  function Place<S>(c: Call<S>, lim: Limits): int {
    c.index * (lim.maxRetry + 1) + c.attempt
  }

  lemma {:induction false} PlacesGrow<S>(calls: seq<Call<S>>, models: seq<string>, lim: Limits, i: nat, j: nat)
    requires Legal(calls, models, lim) && i < j < |calls| && lim.maxRetry >= 0
    ensures Place(calls[i], lim) + (j - i) <= Place(calls[j], lim)
    decreases j
  {
    assert calls[j - 1] in calls && calls[j] in calls && Follows(calls[j - 1], calls[j], lim);
    var c, d, n := calls[j - 1], calls[j], lim.maxRetry + 1;
    assert (c.index + 1) * n == c.index * n + n;
    if i < j - 1 {
      PlacesGrow(calls, models, lim, i, j - 1);
    }
  }

  lemma PlacesFit(first: int, last: int, size: int, n: int)
    requires 0 <= first && last < size && n > 0
    ensures first * n + 1 >= 1 && last * n + n <= size * n
  {
    assert first * n >= 0;
    assert (size - 1 - last) * n >= 0;
    assert size * n == (size - 1 - last) * n + last * n + n;
  }

  /** There are at most |models| * (maxRetry + 1) calls. */
  lemma CallsAreBounded<S>(calls: seq<Call<S>>, models: seq<string>, lim: Limits)
    requires Legal(calls, models, lim) && lim.maxRetry >= 0
    ensures |calls| <= |models| * (lim.maxRetry + 1)
  {
    if calls != [] {
      var first, last := calls[0], calls[|calls| - 1];
      assert first in calls && last in calls;
      PlacesFit(first.index, last.index, |models|, lim.maxRetry + 1);
      if |calls| > 1 {
        PlacesGrow(calls, models, lim, 0, |calls| - 1);
      }
    }
  }

  /** No attempt on an entry of the list is made twice, and if no model is listed twice, no attempt on a
  model is. */
  lemma CallsAreDistinct<S>(calls: seq<Call<S>>, models: seq<string>, lim: Limits, i: nat, j: nat)
    requires Legal(calls, models, lim) && lim.maxRetry >= 0 && i < j < |calls|
    ensures (calls[i].index, calls[i].attempt) != (calls[j].index, calls[j].attempt)
    ensures Distinct(models) ==> (calls[i].model, calls[i].attempt) != (calls[j].model, calls[j].attempt)
  {
    PlacesGrow(calls, models, lim, i, j);
    assert calls[i] in calls && calls[j] in calls;
  }

  // ---------- What attempts keep ----------

  // Every failing, uncommitted attempt keeps this property of the world.
  ghost predicate Kept<S(!new)>(step: (S, string, nat) -> (S, Outcome), keeps: S -> bool) {
    forall x, m, a :: keeps(x) && step(x, m, a).1.failure.Some? && !step(x, m, a).1.committed ==> keeps(step(x, m, a).0)
  }

  // It held before each of these calls, which led from s to end.
  ghost predicate HeldBefore<S>(step: (S, string, nat) -> (S, Outcome), s: S, calls: seq<Call<S>>, end: S,
                                keeps: S -> bool)
  {
    && (forall c :: c in calls ==> keeps(c.before))
    && (calls == [] ==> end == s)
    && (calls != [] ==> var l := calls[|calls| - 1]; end == step(l.before, l.model, l.attempt).0)
  }

  lemma HeldThrough<S>(step: (S, string, nat) -> (S, Outcome), s: S, calls: seq<Call<S>>, mid: S, rest: seq<Call<S>>,
                       end: S, keeps: S -> bool)
    requires HeldBefore(step, s, calls, mid, keeps) && HeldBefore(step, mid, rest, end, keeps)
    ensures HeldBefore(step, s, calls + rest, end, keeps)
  {
    if rest == [] {
      assert calls + rest == calls;
    } else {
      assert (calls + rest)[|calls + rest| - 1] == rest[|rest| - 1];
    }
  }

  lemma TryKeeps<S(!new)>(step: (S, string, nat) -> (S, Outcome), s: S, model: string, index: nat, attempt: nat,
                          lim: Limits, keeps: S -> bool)
    requires keeps(s) && Kept(step, keeps)
    ensures var y := StreamTry(step, s, model, index, attempt, lim);
            && HeldBefore(step, s, [y.call], y.state, keeps)
            && (y.end.None? || y.end == Some(GaveUp) ==> keeps(y.state))
  {
  }

  lemma {:induction false} TurnKeeps<S(!new)>(step: (S, string, nat) -> (S, Outcome), s: S, model: string, index: nat,
                                              attempt: nat, lim: Limits, keeps: S -> bool)
    requires keeps(s) && Kept(step, keeps)
    ensures var t := StreamTurn(step, s, model, index, attempt, lim);
            HeldBefore(step, s, t.calls, t.state, keeps) && (t.end == GaveUp ==> keeps(t.state))
    decreases lim.maxRetry + 1 - attempt
  {
    if attempt <= lim.maxRetry {
      var y := StreamTry(step, s, model, index, attempt, lim);
      TryKeeps(step, s, model, index, attempt, lim, keeps);
      if y.end.None? {
        TurnKeeps(step, y.state, model, index, attempt + 1, lim, keeps);
        var rest := StreamTurn(step, y.state, model, index, attempt + 1, lim);
        HeldThrough(step, s, [y.call], y.state, rest.calls, rest.state, keeps);
      }
    }
  }

  /** A property of the world that every failing, uncommitted attempt keeps holds before every call, and the
  last call leaves the final state. */
  lemma {:induction false} LoopKeeps<S(!new)>(step: (S, string, nat) -> (S, Outcome), s: S, models: seq<string>,
                                              index: nat, lim: Limits, lastErr: Option<Failure>, keeps: S -> bool)
    requires keeps(s) && Kept(step, keeps)
    ensures var r := StreamLoop(step, s, models, index, lim, lastErr); HeldBefore(step, s, r.calls, r.state, keeps)
    decreases |models| - index
  {
    if index < |models| {
      var t := StreamTurn(step, s, models[index], index, 0, lim);
      var err := LastError(t.calls, lastErr);
      TurnKeeps(step, s, models[index], index, 0, lim, keeps);
      LoopUnfolds(step, s, models, index, lim, lastErr);
      if GoesOn(t, err) {
        LoopKeeps(step, t.state, models, index + 1, lim, err, keeps);
        var rest := StreamLoop(step, t.state, models, index + 1, lim, err);
        HeldThrough(step, s, t.calls, t.state, rest.calls, rest.state, keeps);
      }
    }
  }

  // ---------- The last call ----------

  lemma {:induction false} TurnByLast<S>(step: (S, string, nat) -> (S, Outcome), s: S, model: string, index: nat,
                                         attempt: nat, lim: Limits)
    requires attempt <= lim.maxRetry
    ensures var t := StreamTurn(step, s, model, index, attempt, lim);
            && t.calls != []
            && var l := t.calls[|t.calls| - 1];
               && (l.outcome.failure.None? <==> t.end == Success)
               && step(l.before, l.model, l.attempt) == (t.state, l.outcome)
    decreases lim.maxRetry - attempt
  {
    var y := StreamTry(step, s, model, index, attempt, lim);
    if y.end.None? {
      TurnByLast(step, y.state, model, index, attempt + 1, lim);
    }
  }

  // The last of these calls left this state and decided this verdict.
  ghost predicate DecidedByLast<S>(step: (S, string, nat) -> (S, Outcome), calls: seq<Call<S>>, end: S,
                                   verdict: Verdict)
  {
    calls != []
    && var l := calls[|calls| - 1];
       && step(l.before, l.model, l.attempt) == (end, l.outcome)
       && verdict == if l.outcome.failure.None? then Served else Failed(l.outcome.failure)
  }

  lemma DecidedLater<S>(step: (S, string, nat) -> (S, Outcome), calls: seq<Call<S>>, rest: seq<Call<S>>, end: S,
                        verdict: Verdict)
    requires DecidedByLast(step, rest, end, verdict)
    ensures DecidedByLast(step, calls + rest, end, verdict)
  {
    assert (calls + rest)[|calls + rest| - 1] == rest[|rest| - 1];
  }

  lemma DecidedHere<S>(step: (S, string, nat) -> (S, Outcome), s: S, models: seq<string>, index: nat, lim: Limits,
                       lastErr: Option<Failure>)
    requires lim.maxRetry >= 0 && index < |models|
    requires var t := StreamTurn(step, s, models[index], index, 0, lim);
             !GoesOn(t, LastError(t.calls, lastErr)) || index + 1 == |models|
    ensures var r := StreamLoop(step, s, models, index, lim, lastErr); DecidedByLast(step, r.calls, r.state, r.verdict)
  {
    TurnByLast(step, s, models[index], index, 0, lim);
    var t := StreamTurn(step, s, models[index], index, 0, lim);
    assert t.calls + [] == t.calls;
  }

  /** A run's last call decides it: it left the final state, and the run is served exactly if that call did not
  fail; else the run's error is that of the call. */
  lemma {:induction false} ServedByLast<S>(step: (S, string, nat) -> (S, Outcome), s: S, models: seq<string>,
                                           index: nat, lim: Limits, lastErr: Option<Failure>)
    requires lim.maxRetry >= 0 && index < |models|
    ensures var r := StreamLoop(step, s, models, index, lim, lastErr); DecidedByLast(step, r.calls, r.state, r.verdict)
    decreases |models| - index
  {
    var t := StreamTurn(step, s, models[index], index, 0, lim);
    var err := LastError(t.calls, lastErr);
    if GoesOn(t, err) && index + 1 < |models| {
      ServedByLast(step, t.state, models, index + 1, lim, err);
      var rest := StreamLoop(step, t.state, models, index + 1, lim, err);
      DecidedLater(step, t.calls, rest.calls, rest.state, rest.verdict);
    } else {
      DecidedHere(step, s, models, index, lim, lastErr);
    }
  }

  // ---------- Events and calls ----------

  function CallsMade<S>(calls: seq<Call<S>>): (r: seq<(string, nat)>)
    ensures |r| == |calls|
  {
    if calls == [] then []
    else
      var last := calls[|calls| - 1];
      CallsMade(calls[..|calls| - 1]) + [(last.model, last.attempt)]
  }

  lemma {:induction false} CallsMadeAppend<S>(a: seq<Call<S>>, b: seq<Call<S>>)
    ensures CallsMade(a + b) == CallsMade(a) + CallsMade(b)
  {
    if b == [] {
      assert a + b == a;
    } else {
      CallsMadeAppend(a, b[..|b| - 1]);
      assert (a + b)[..|a + b| - 1] == a + b[..|b| - 1];
    }
  }

  lemma AttemptsOfOne(e: Event)
    ensures AttemptsOf([e]) == if e.kind == AttemptStarted then [(e.model, e.attempt)] else []
  {
  }

  lemma AttemptsFront(e: Event, rest: seq<Event>)
    ensures AttemptsOf([e] + rest) == AttemptsOf([e]) + AttemptsOf(rest)
  {
    AttemptsAppend([e], rest);
  }

  lemma {:induction false} NoAttempts(events: seq<Event>)
    requires forall e :: e in events ==> e.kind != AttemptStarted
    ensures AttemptsOf(events) == []
  {
    if events != [] {
      NoAttempts(events[..|events| - 1]);
      assert events[|events| - 1] in events;
    }
  }

  lemma NoAttemptsAfter(started: Event, tail: seq<Event>)
    requires started.kind == AttemptStarted
    requires forall e :: e in tail ==> e.kind != AttemptStarted
    ensures AttemptsOf([started] + tail) == [(started.model, started.attempt)]
  {
    AttemptsFront(started, tail);
    AttemptsOfOne(started);
    NoAttempts(tail);
  }

  lemma TryEvents<S>(step: (S, string, nat) -> (S, Outcome), s: S, model: string, index: nat, attempt: nat, lim: Limits)
    ensures var y := StreamTry(step, s, model, index, attempt, lim);
            AttemptsOf(y.events) == [(model, attempt + 1)] == CallsMade([y.call])
  {
    var y := StreamTry(step, s, model, index, attempt, lim);
    assert y.events == [y.events[0]] + y.events[1..];
    NoAttemptsAfter(y.events[0], y.events[1..]);
    assert [y.call][..0] == [];
  }

  lemma {:induction false} TurnEvents<S>(step: (S, string, nat) -> (S, Outcome), s: S, model: string, index: nat,
                                         attempt: nat, lim: Limits)
    ensures var t := StreamTurn(step, s, model, index, attempt, lim); AttemptsOf(t.events) == CallsMade(t.calls)
    decreases lim.maxRetry + 1 - attempt
  {
    if attempt <= lim.maxRetry {
      var y := StreamTry(step, s, model, index, attempt, lim);
      TryEvents(step, s, model, index, attempt, lim);
      if y.end.None? {
        var rest := StreamTurn(step, y.state, model, index, attempt + 1, lim);
        TurnEvents(step, y.state, model, index, attempt + 1, lim);
        AttemptsAppend(y.events, rest.events);
        CallsMadeAppend([y.call], rest.calls);
      }
    }
  }

  lemma JoinNote<S>(events: seq<Event>, calls: seq<Call<S>>, note: seq<Event>)
    requires AttemptsOf(events) == CallsMade(calls)
    requires forall e :: e in note ==> e.kind != AttemptStarted
    ensures AttemptsOf(events + note) == CallsMade(calls)
  {
    NoAttempts(note);
    AttemptsAppend(events, note);
  }

  lemma JoinEvents<S>(events: seq<Event>, calls: seq<Call<S>>, more: seq<Event>, rest: seq<Call<S>>)
    requires AttemptsOf(events) == CallsMade(calls) && AttemptsOf(more) == CallsMade(rest)
    ensures AttemptsOf(events + more) == CallsMade(calls + rest)
  {
    AttemptsAppend(events, more);
    CallsMadeAppend(calls, rest);
  }

  lemma {:induction false} LoopEvents<S>(step: (S, string, nat) -> (S, Outcome), s: S, models: seq<string>, index: nat,
                                         lim: Limits, lastErr: Option<Failure>)
    ensures var r := StreamLoop(step, s, models, index, lim, lastErr); AttemptsOf(r.events) == CallsMade(r.calls)
    decreases |models| - index
  {
    if index < |models| {
      var t := StreamTurn(step, s, models[index], index, 0, lim);
      var err := LastError(t.calls, lastErr);
      TurnEvents(step, s, models[index], index, 0, lim);
      LoopUnfolds(step, s, models, index, lim, lastErr);
      if GoesOn(t, err) {
        var rest := StreamLoop(step, t.state, models, index + 1, lim, err);
        LoopEvents(step, t.state, models, index + 1, lim, err);
        JoinNote(t.events, t.calls, SwitchNote(models, index));
        JoinEvents(t.events + SwitchNote(models, index), t.calls, rest.events, rest.calls);
      } else {
        JoinNote(t.events, t.calls, EndNote(t, err, models[index], index));
      }
    }
  }

  lemma RetryTryEvents<S>(step: (S, string, nat) -> (S, Outcome), s: S, listed: seq<string>, model: string, index: nat,
                          attempt: nat, lim: Limits)
    ensures var y := RetryTry(step, s, listed, model, index, attempt, lim);
            AttemptsOf(y.events) == [(model, attempt + 1)] == CallsMade([y.call])
  {
    var y := RetryTry(step, s, listed, model, index, attempt, lim);
    assert y.events == [y.events[0]] + y.events[1..];
    NoAttemptsAfter(y.events[0], y.events[1..]);
    assert [y.call][..0] == [];
  }

  lemma {:induction false} RetryEvents<S>(step: (S, string, nat) -> (S, Outcome), s: S, listed: seq<string>,
                                          model: string,
                                          index: nat, attempt: nat, lim: Limits, lastErr: Option<Failure>)
    ensures var t := RetryModel(step, s, listed, model, index, attempt, lim, lastErr);
            AttemptsOf(t.events) == CallsMade(t.calls)
    decreases lim.maxRetry + 1 - attempt
  {
    if attempt <= lim.maxRetry {
      var y := RetryTry(step, s, listed, model, index, attempt, lim);
      RetryTryEvents(step, s, listed, model, index, attempt, lim);
      if y.end.None? {
        var rest := RetryModel(step, y.state, listed, model, index, attempt + 1, lim, y.call.outcome.failure);
        RetryEvents(step, y.state, listed, model, index, attempt + 1, lim, y.call.outcome.failure);
        AttemptsAppend(y.events, rest.events);
        CallsMadeAppend([y.call], rest.calls);
      }
    }
  }

  lemma {:induction false} DegradeEvents<S>(step: (S, string, nat) -> (S, Outcome), s: S, listed: seq<string>,
                                            ordered: seq<string>, index: nat, lim: Limits, lastErr: Option<Failure>)
    ensures var r := DegradeLoop(step, s, listed, ordered, index, lim, lastErr);
            AttemptsOf(r.events) == CallsMade(r.calls)
    decreases |ordered| - index
  {
    if index < |ordered| {
      var t := RetryModel(step, s, listed, ordered[index], index, 0, lim, None);
      RetryEvents(step, s, listed, ordered[index], index, 0, lim, None);
      if t.error.Some? {
        if CanceledAfter(t.calls, t.error) {
          JoinNote(t.events, t.calls, [Note(Stopped, ordered[index], index, 0, ContextCanceled)]);
        } else if !SwitchableAfter(t.calls, t.error) {
          JoinNote(t.events, t.calls, [Note(Stopped, ordered[index], index, 0, NonSwitchableError)]);
        } else {
          var rest := DegradeLoop(step, t.state, listed, ordered, index + 1, lim, t.error);
          DegradeEvents(step, t.state, listed, ordered, index + 1, lim, t.error);
          JoinNote(t.events, t.calls, SwitchNote(ordered, index));
          JoinEvents(t.events + SwitchNote(ordered, index), t.calls, rest.events, rest.calls);
        }
      }
    }
  }

  /** The recorded trace of an untruncated run tells exactly the calls made, in order. */
  lemma TraceTellsTheCalls<S>(step: (S, string, nat) -> (S, Outcome), s: S, models: seq<string>, lim: Limits)
    requires models != [] && !OfferAll(StreamRun(step, s, models, lim).events).full
    ensures var r := StreamRun(step, s, models, lim);
            AttemptsOf(EventsOf(OfferAll(r.events).entries)) == CallsMade(r.calls)
  {
    var r := StreamRun(step, s, models, lim);
    var first := Note(Started, models[0], 0, 0, AutoModeStream);
    LoopEvents(step, s, models, 0, lim, None);
    AttemptsFront(first, StreamLoop(step, s, models, 0, lim, None).events);
    AttemptsOfOne(first);
    UntruncatedIsComplete(r.events);
  }

  /** The same on the single-response path. */
  lemma TraceTellsTheSingleCalls<S>(step: (S, string, nat) -> (S, Outcome), s: S, models: seq<string>, lim: Limits)
    requires Clean(models) != [] && !OfferAll(DegradeRun(step, s, models, lim).events).full
    ensures var r := DegradeRun(step, s, models, lim);
            AttemptsOf(EventsOf(OfferAll(r.events).entries)) == CallsMade(r.calls)
  {
    var r := DegradeRun(step, s, models, lim);
    var ordered := Clean(models);
    var first := Note(Started, ordered[0], 0, 0, AutoMode);
    DegradeEvents(step, s, models, ordered, 0, lim, None);
    AttemptsFront(first, DegradeLoop(step, s, models, ordered, 0, lim, None).events);
    AttemptsOfOne(first);
    UntruncatedIsComplete(r.events);
  }
}
