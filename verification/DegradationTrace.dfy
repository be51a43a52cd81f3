/** The bounded record of what happened while a request went through its models. */
module DegradationTrace {

  datatype EventKind =
    | Started | AttemptStarted | AttemptFailed | RetryScheduled | RetrySkipped
    | ModelSwitch | Stopped | ModelSucceeded | TraceTruncated

  // The texts of the reason field, by name.
  datatype Reason =
    | NoReason | AutoMode | AutoModeStream | ModelCallSucceeded | ModelCallFailed | StreamCommitted
    | StreamFailedBeforeFirstToken | InsufficientIdleBudget | RetryableError | PreviousModelFailed
    | ContextCanceled | NonSwitchableError | TraceEventLimitReached

  datatype Event = Event(kind: EventKind, model: string, previousModel: string, modelIndex: int, attempt: nat,
                         reason: Reason)
  datatype Entry = Entry(sequence: nat, event: Event)
  datatype Trace = Trace(entries: seq<Entry>, sequence: nat, full: bool)

  const MAX_EVENTS := 64
  const EMPTY_TRACE := Trace([], 0, false)
  const TRUNCATION := Event(TraceTruncated, "", "", -1, 0, TraceEventLimitReached)

  // Recording one event.
  function Offer(t: Trace, e: Event): Trace {
    if |t.entries| >= MAX_EVENTS - 1 then
      if t.full then t
      else Trace(t.entries + [Entry(t.sequence + 1, TRUNCATION)], t.sequence + 1, true)
    else Trace(t.entries + [Entry(t.sequence + 1, e)], t.sequence + 1, t.full)
  }

  function OfferAll(events: seq<Event>): Trace {
    if events == [] then EMPTY_TRACE else Offer(OfferAll(events[..|events| - 1]), events[|events| - 1])
  }

  function Numbered(events: seq<Event>): (r: seq<Entry>)
    ensures |r| == |events|
    ensures forall i :: 0 <= i < |r| ==> r[i] == Entry(i + 1, events[i])
  {
    if events == [] then []
    else Numbered(events[..|events| - 1]) + [Entry(|events|, events[|events| - 1])]
  }

  /** After n offered events the trace holds the first min(n, 63) of them in order, numbered from 1,
  followed by one truncation marker with number 64 exactly when n > 63. */
  lemma {:induction false} BoundedTrace(events: seq<Event>)
    ensures OfferAll(events).entries
         == if |events| <= 63 then Numbered(events)
            else Numbered(events[..63]) + [Entry(64, TRUNCATION)]
    ensures OfferAll(events).sequence == |OfferAll(events).entries| <= 64
    ensures OfferAll(events).full <==> |events| > 63
  {
    if events != [] {
      var n := |events| - 1;
      BoundedTrace(events[..n]);
      if n >= MAX_EVENTS {
        assert events[..n][..MAX_EVENTS - 1] == events[..MAX_EVENTS - 1];
      }
    }
  }

  // ---------- The calls a trace tells of ----------

  function AttemptsOf(events: seq<Event>): seq<(string, nat)> {
    if events == [] then []
    else
      var last := events[|events| - 1];
      AttemptsOf(events[..|events| - 1]) + (if last.kind == AttemptStarted then [(last.model, last.attempt)] else [])
  }

  function EventsOf(entries: seq<Entry>): (r: seq<Event>)
    ensures |r| == |entries| && forall i :: 0 <= i < |r| ==> r[i] == entries[i].event
  {
    if entries == [] then [] else EventsOf(entries[..|entries| - 1]) + [entries[|entries| - 1].event]
  }

  lemma {:induction false} AttemptsAppend(a: seq<Event>, b: seq<Event>)
    ensures AttemptsOf(a + b) == AttemptsOf(a) + AttemptsOf(b)
  {
    if b == [] {
      assert a + b == a;
    } else {
      AttemptsAppend(a, b[..|b| - 1]);
      assert (a + b)[..|a + b| - 1] == a + b[..|b| - 1];
    }
  }

  /** An untruncated trace loses nothing: its events are the offered ones. */
  lemma UntruncatedIsComplete(events: seq<Event>)
    requires !OfferAll(events).full
    ensures EventsOf(OfferAll(events).entries) == events
  {
    BoundedTrace(events);
  }
}
