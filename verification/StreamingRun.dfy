/** A whole streaming request: the retry and degradation loops around the attempts that read answers
and run tools. */
module StreamingRun {
  import opened Options
  import opened Degradation
  import opened Failures
  import opened StreamWindow
  import Loop = ToolLoop

  // What the loops see of the world after an attempt, by the number of upstream calls made so far.
  datatype Checks = Checks(remaining: int, ctxAtRetry: bool, ctxAtStop: bool, ctxAtSwitch: bool)

  function AttemptStep(setup: Loop.Setup, world: nat -> Checks): (Loop.Chat, string, nat) -> (Loop.Chat, Outcome) {
    (c: Loop.Chat, model: string, attempt: nat) =>
      var e := Loop.Attempt(setup, c, model);
      var w := world(e.chat.asked);
      (e.chat, Outcome(e.failure, e.chat.committed, w.remaining, w.ctxAtRetry, w.ctxAtStop, w.ctxAtSwitch))
  }

  // x looks to an attempt just like c.
  predicate StartsLike(setup: Loop.Setup, c: Loop.Chat, x: Loop.Chat) {
    && x.messages == c.messages && x.ran == c.ran
    && c.out <= x.out && Loop.Delivered(x.out) == Loop.Delivered(c.out)
    && (setup.raw ==> x.out == c.out)
  }

  function LikeFirst(setup: Loop.Setup, c: Loop.Chat): Loop.Chat -> bool {
    (x: Loop.Chat) => StartsLike(setup, c, x)
  }

  lemma FailedAttemptKeeps(setup: Loop.Setup, world: nat -> Checks, c: Loop.Chat, x: Loop.Chat, model: string,
                           attempt: nat)
    requires StartsLike(setup, c, x)
    ensures var (y, o) := AttemptStep(setup, world)(x, model, attempt); !o.committed ==> StartsLike(setup, c, y)
  {
    Loop.UncommittedLeavesNoTrace(setup, x, model);
  }

  lemma LastAttempt(setup: Loop.Setup, c: Loop.Chat, x: Loop.Chat, model: string)
    requires StartsLike(setup, c, x)
    ensures var r := Loop.Attempt(setup, x, model).chat;
            && x.out <= r.out
            && Loop.Delivered(r.out) == Loop.Delivered(c.out) + Loop.Delivered(r.out[|x.out|..])
            && Loop.Extends(setup, x.(committed := false), r, Loop.MAX_TOOL_CALL_DEPTH)
            && r.messages == c.messages + Loop.Transcript(Loop.Since(c, r), setup.advice)
            && |Loop.Since(c, r)| <= 6
  {
    var r := Loop.Attempt(setup, x, model).chat;
    Loop.OnlyToolsWriteMessages(setup, x.(committed := false), model, Loop.MAX_TOOL_CALL_DEPTH);
    Loop.DeliveredAppend(x.out, r.out[|x.out|..]);
    assert r.out == x.out + r.out[|x.out|..];
  }

  // The shape of a run: all its calls start alike, and its final state is what the last call left.
  ghost predicate Shaped(setup: Loop.Setup, world: nat -> Checks, c: Loop.Chat, calls: seq<Call<Loop.Chat>>,
                         end: Loop.Chat)
  {
    && (forall call :: call in calls ==> StartsLike(setup, c, call.before))
    && (calls == [] ==> end == c)
    && (calls != [] ==>
          var l := calls[|calls| - 1];
          StartsLike(setup, c, l.before) && end == AttemptStep(setup, world)(l.before, l.model, l.attempt).0)
  }

  lemma StepKeeps(setup: Loop.Setup, world: nat -> Checks, c: Loop.Chat)
    ensures Kept(AttemptStep(setup, world), LikeFirst(setup, c))
  {
    var step, keeps := AttemptStep(setup, world), LikeFirst(setup, c);
    forall x, m, a | keeps(x) && step(x, m, a).1.failure.Some? && !step(x, m, a).1.committed
      ensures keeps(step(x, m, a).0)
    {
      FailedAttemptKeeps(setup, world, c, x, m, a);
    }
  }

  lemma LoopShape(setup: Loop.Setup, world: nat -> Checks, c: Loop.Chat, models: seq<string>, lim: Limits)
    ensures var r := StreamLoop(AttemptStep(setup, world), c, models, 0, lim, None);
            Shaped(setup, world, c, r.calls, r.state)
  {
    var step, keeps := AttemptStep(setup, world), LikeFirst(setup, c);
    StepKeeps(setup, world, c);
    assert keeps(c);
    LoopKeeps(step, c, models, 0, lim, None, keeps);
    var r := StreamLoop(step, c, models, 0, lim, None);
    if r.calls != [] {
      assert r.calls[|r.calls| - 1] in r.calls;
    }
    assert forall x :: keeps(x) <==> StartsLike(setup, c, x);
  }

  lemma RunIsLoop<S>(step: (S, string, nat) -> (S, Outcome), s: S, models: seq<string>, lim: Limits)
    ensures StreamRun(step, s, models, lim).calls == StreamLoop(step, s, models, 0, lim, None).calls
    ensures StreamRun(step, s, models, lim).state == StreamLoop(step, s, models, 0, lim, None).state
    ensures StreamRun(step, s, models, lim).verdict == StreamLoop(step, s, models, 0, lim, None).verdict
  {
  }

  lemma RunShape(setup: Loop.Setup, world: nat -> Checks, c: Loop.Chat, models: seq<string>, lim: Limits)
    ensures var r := StreamRun(AttemptStep(setup, world), c, models, lim);
            Shaped(setup, world, c, r.calls, r.state)
  {
    LoopShape(setup, world, c, models, lim);
    RunIsLoop(AttemptStep(setup, world), c, models, lim);
  }

  // x is where the attempt that ended in r began; c is where the whole run began.
  ghost predicate EndsFrom(setup: Loop.Setup, c: Loop.Chat, x: Loop.Chat, r: Loop.Chat) {
    && x.out <= r.out
    && Loop.Delivered(r.out) == Loop.Delivered(c.out) + Loop.Delivered(r.out[|x.out|..])
    && c.ran <= r.ran
    && r.messages == c.messages + Loop.Transcript(Loop.Since(c, r), setup.advice)
    && |Loop.Since(c, r)| <= 6
  }

  /** In a whole run, with any number of retries and model switches, every attempt starts with the same
  messages and the same record of tool calls as the first. All content text the client receives comes
  from the last attempt, and so do all tool calls: at most six, each adding two messages. In raw mode the
  client receives nothing at all from an attempt that is given up. */
  lemma AttemptsStartAlike(setup: Loop.Setup, world: nat -> Checks, c: Loop.Chat, models: seq<string>, lim: Limits)
    ensures var r := StreamRun(AttemptStep(setup, world), c, models, lim);
            && (forall call :: call in r.calls ==> StartsLike(setup, c, call.before))
            && (r.calls == [] ==> r.state == c)
            && (r.calls != [] ==> EndsFrom(setup, c, r.calls[|r.calls| - 1].before, r.state))
  {
    RunShape(setup, world, c, models, lim);
    EndOfRun(setup, world, c, StreamRun(AttemptStep(setup, world), c, models, lim));
  }

  lemma EndOfRun(setup: Loop.Setup, world: nat -> Checks, c: Loop.Chat, r: Run<Loop.Chat>)
    requires Shaped(setup, world, c, r.calls, r.state)
    ensures r.calls != [] ==> EndsFrom(setup, c, r.calls[|r.calls| - 1].before, r.state)
    ensures r.calls != [] && !r.state.committed ==> StartsLike(setup, c, r.state)
  {
    if r.calls != [] {
      var last := r.calls[|r.calls| - 1];
      EndOfAttempt(setup, world, c, last.before, last.model, last.attempt);
      QuietEnd(setup, world, c, last.before, last.model, last.attempt);
    }
  }

  lemma EndOfAttempt(setup: Loop.Setup, world: nat -> Checks, c: Loop.Chat, x: Loop.Chat, model: string, attempt: nat)
    requires StartsLike(setup, c, x)
    ensures EndsFrom(setup, c, x, AttemptStep(setup, world)(x, model, attempt).0)
  {
    LastAttempt(setup, c, x, model);
  }

  lemma QuietEnd(setup: Loop.Setup, world: nat -> Checks, c: Loop.Chat, x: Loop.Chat, model: string, attempt: nat)
    requires StartsLike(setup, c, x)
    ensures var y := AttemptStep(setup, world)(x, model, attempt).0; !y.committed ==> StartsLike(setup, c, y)
  {
    FailedAttemptKeeps(setup, world, c, x, model, attempt);
  }

  /** A request that ends uncommitted leaves its messages as they were, whatever was tried, and has
  delivered no content text. */
  lemma FailureLeavesMessages(setup: Loop.Setup, world: nat -> Checks, c: Loop.Chat, models: seq<string>, lim: Limits)
    ensures var r := StreamRun(AttemptStep(setup, world), c, models, lim);
            r.calls != [] && !r.state.committed ==> StartsLike(setup, c, r.state)
  {
    RunShape(setup, world, c, models, lim);
    EndOfRun(setup, world, c, StreamRun(AttemptStep(setup, world), c, models, lim));
  }

  // ---------- A given-up attempt that leaves something behind ----------

  // The stream breaks after a comment line: the client reports a network error.
  const BROKEN_STREAM := Failure("", false, Api(NETWORK_ERROR, 500))

  function Babbling(n: nat, model: string, messages: seq<Loop.Message>): Loop.Reply {
    Loop.Reply([Loop.Received(": x", Blank(": x", false))], Some(BROKEN_STREAM))
  }

  lemma BrokenStreamIsTriedAgain()
    ensures IsSameModelRetryable(BROKEN_STREAM, false) && IsSwitchable(BROKEN_STREAM, false)
  {
    assert |NETWORK_ERROR| == 26 && |CONTEXT_EXCEEDED| == 32 && |UNAUTHORIZED| == 36 && |EMPTY_CONTENT| == 30;
    assert NETWORK_ERROR[9] == 'n' && MODEL_UNAVAILABLE[9] == 'm';
  }

  lemma BabblingAttempt(setup: Loop.Setup, c: Loop.Chat, model: string)
    requires !setup.raw && setup.upstream == Babbling
    ensures var e := Loop.Attempt(setup, c, model);
            && e.failure == Some(BROKEN_STREAM) && !e.chat.committed && e.chat.asked == c.asked + 1
            && e.chat.out == c.out + [RawLine(": x")]
  {
    var line := Blank(": x", false);
    var enabled := setup.detecting && Loop.MAX_TOOL_CALL_DEPTH > 0;
    Loop.LinesSnoc([], Loop.Received(": x", line));
    FeedSnoc(setup.tools, enabled, Start(false), [], line);
    var s := Feed(setup.tools, enabled, Start(false), [line]);
    assert [] + [line] == [line] && [] + [Loop.Received(": x", line)] == [Loop.Received(": x", line)];
    assert s.out == [RawLine(": x")] && !s.committed;
    assert Loop.Read(setup, c.(committed := false), model, Loop.MAX_TOOL_CALL_DEPTH) == s;
  }

  ghost predicate NeverCanceled(world: nat -> Checks) {
    forall n :: !world(n).ctxAtRetry && !world(n).ctxAtStop && !world(n).ctxAtSwitch
  }

  // The first attempt on a model, and whether another one on the same model follows.
  lemma BabblingTry(setup: Loop.Setup, world: nat -> Checks, c: Loop.Chat, model: string, index: nat, attempt: nat,
                    lim: Limits)
    requires !setup.raw && setup.upstream == Babbling && NeverCanceled(world) && attempt <= lim.maxRetry
    ensures var y := StreamTry(AttemptStep(setup, world), c, model, index, attempt, lim);
            && y.call.before == c && y.call.index == index && y.call.attempt == attempt + 1
            && y.call.outcome.failure == Some(BROKEN_STREAM) && !y.call.outcome.ctxAtStop && !y.call.outcome.ctxAtSwitch
            && y.state.out == c.out + [RawLine(": x")]
            && y.end == if attempt < lim.maxRetry && world(c.asked + 1).remaining >= lim.interval then None
                        else Some(GaveUp)
  {
    BabblingAttempt(setup, c, model);
    BrokenStreamIsTriedAgain();
  }

  // The second call of a run, wherever it goes, begins with the line of the first one already sent.
  ghost predicate SecondCallSeesLine(calls: seq<Call<Loop.Chat>>, c: Loop.Chat, index: nat) {
    |calls| >= 2 && calls[1].index == index && calls[1].before.out == c.out + [RawLine(": x")]
  }

  lemma RetrySeesLine(setup: Loop.Setup, world: nat -> Checks, c: Loop.Chat, model: string, lim: Limits)
    requires !setup.raw && setup.upstream == Babbling && NeverCanceled(world)
    requires 0 < lim.maxRetry && world(c.asked + 1).remaining >= lim.interval
    ensures SecondCallSeesLine(StreamTurn(AttemptStep(setup, world), c, model, 0, 0, lim).calls, c, 0)
  {
    var step := AttemptStep(setup, world);
    BabblingTry(setup, world, c, model, 0, 0, lim);
    var y := StreamTry(step, c, model, 0, 0, lim);
    BabblingTry(setup, world, y.state, model, 0, 1, lim);
    var rest := StreamTurn(step, y.state, model, 0, 1, lim);
    assert rest.calls[0] == StreamTry(step, y.state, model, 0, 1, lim).call;
    assert StreamTurn(step, c, model, 0, 0, lim).calls == [y.call] + rest.calls;
  }

  lemma TurnBegins(setup: Loop.Setup, world: nat -> Checks, c: Loop.Chat, model: string, index: nat, lim: Limits)
    requires lim.maxRetry >= 0
    ensures var calls := StreamTurn(AttemptStep(setup, world), c, model, index, 0, lim).calls;
            calls != [] && calls[0].before == c && calls[0].index == index
  {
    var y := StreamTry(AttemptStep(setup, world), c, model, index, 0, lim);
    assert y.call.before == c && y.call.index == index;
  }

  lemma BrokenStreamGoesOn(t: Turn<Loop.Chat>)
    requires |t.calls| == 1 && t.end == GaveUp
    requires var o := t.calls[0].outcome; o.failure == Some(BROKEN_STREAM) && !o.ctxAtStop && !o.ctxAtSwitch
    ensures GoesOn(t, LastError(t.calls, None))
  {
    BrokenStreamIsTriedAgain();
  }

  lemma OneTry<S>(step: (S, string, nat) -> (S, Outcome), s: S, model: string, lim: Limits)
    requires lim.maxRetry >= 0 && StreamTry(step, s, model, 0, 0, lim).end == Some(GaveUp)
    ensures var y, t := StreamTry(step, s, model, 0, 0, lim), StreamTurn(step, s, model, 0, 0, lim);
            t.end == GaveUp && t.calls == [y.call] && t.state == y.state
  {
  }

  lemma BabblingTurn(setup: Loop.Setup, world: nat -> Checks, c: Loop.Chat, model: string, lim: Limits)
    requires !setup.raw && setup.upstream == Babbling && NeverCanceled(world)
    requires 0 == lim.maxRetry || (0 < lim.maxRetry && world(c.asked + 1).remaining < lim.interval)
    ensures var t := StreamTurn(AttemptStep(setup, world), c, model, 0, 0, lim);
            |t.calls| == 1 && GoesOn(t, LastError(t.calls, None)) && t.state.out == c.out + [RawLine(": x")]
  {
    var step := AttemptStep(setup, world);
    BabblingTry(setup, world, c, model, 0, 0, lim);
    OneTry(step, c, model, lim);
    BrokenStreamGoesOn(StreamTurn(step, c, model, 0, 0, lim));
  }

  lemma SwitchSeesLine(setup: Loop.Setup, world: nat -> Checks, c: Loop.Chat, a: string, b: string, lim: Limits)
    requires !setup.raw && setup.upstream == Babbling && NeverCanceled(world)
    requires 0 == lim.maxRetry || (0 < lim.maxRetry && world(c.asked + 1).remaining < lim.interval)
    ensures SecondCallSeesLine(StreamLoop(AttemptStep(setup, world), c, [a, b], 0, lim, None).calls, c, 1)
  {
    var step := AttemptStep(setup, world);
    BabblingTurn(setup, world, c, a, lim);
    LoopUnfolds(step, c, [a, b], 0, lim, None);
    var t := StreamTurn(step, c, a, 0, 0, lim);
    TurnBegins(setup, world, t.state, b, 1, lim);
    LoopUnfolds(step, t.state, [a, b], 1, lim, LastError(t.calls, None));
  }

  /** Outside raw mode the client can see lines of attempts that were given up: the stream breaks after a line
  without content, and the next attempt, on the same model if retries and budget allow it and else on the
  next one, begins with that line already sent. */
  lemma GivenUpAttemptLeavesALine(setup: Loop.Setup, world: nat -> Checks, c: Loop.Chat, a: string, b: string,
                                  lim: Limits)
    requires !setup.raw && setup.upstream == Babbling && NeverCanceled(world) && lim.maxRetry >= 0
    ensures var retried := lim.maxRetry > 0 && world(c.asked + 1).remaining >= lim.interval;
            SecondCallSeesLine(StreamLoop(AttemptStep(setup, world), c, [a, b], 0, lim, None).calls, c,
                               if retried then 0 else 1)
  {
    if lim.maxRetry > 0 && world(c.asked + 1).remaining >= lim.interval {
      RetrySeesLine(setup, world, c, a, lim);
      LoopUnfolds(AttemptStep(setup, world), c, [a, b], 0, lim, None);
    } else {
      SwitchSeesLine(setup, world, c, a, b, lim);
    }
  }
}
