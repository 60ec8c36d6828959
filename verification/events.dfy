/** What a watcher delivers to its event sink, and the previous/current chain
    that a delivered trace is meant to form. */
module Events {
  import opened Wrappers

  /** The two failure codes the Bluetooth watcher reports. */
  datatype ErrorCode = PermissionDenied | PermissionError {

    /** The code string passed to `EventSink.error`. */
    function Name(): string
    {
      match this
      case PermissionDenied => "PERMISSION_DENIED"
      case PermissionError => "PERMISSION_ERROR"
    }
  }

  /** One item delivered to a sink: a state-change record (the
      `previousState`/`currentState` map) or a failure notice. The failure's
      human-readable message is fixed by its code; `details` is the platform's
      own message, when there is one. */
  datatype Event =
    | Success(previous: Option<int>, current: int)
    | Error(code: ErrorCode, details: Option<string>)

  /** Event `i` is linked: if it carries a previous state, it is not the first
      event and the event just before it is a state change whose current
      state is that previous state. */
  predicate LinkedAt(t: seq<Event>, i: int)
    requires 0 <= i < |t|
  {
    t[i].Success? && t[i].previous.Some? ==>
      0 < i && t[i - 1].Success? && t[i - 1].current == t[i].previous.value
  }

  /** The previous/current chain: every event with a previous state follows
      a state change whose current state it repeats; so the first event of a
      trace never carries a previous state. */
  predicate Chained(t: seq<Event>)
  {
    forall i :: 0 <= i < |t| ==> LinkedAt(t, i)
  }

  /** Like `LinkedAt`, but a previous state equal to `sentinel` is also
      accepted in place of the preceding current state. */
  predicate LinkedOrSentinelAt(t: seq<Event>, i: int, sentinel: int)
    requires 0 <= i < |t|
  {
    t[i].Success? && t[i].previous.Some? ==>
      0 < i && t[i - 1].Success? &&
      (t[i - 1].current == t[i].previous.value || t[i].previous.value == sentinel)
  }

  /** The chain with `sentinel` tolerated as a previous state. */
  predicate ChainedOrSentinel(t: seq<Event>, sentinel: int)
  {
    forall i :: 0 <= i < |t| ==> LinkedOrSentinelAt(t, i, sentinel)
  }

  /** Event `i` continues its session: it and the event before it are state
      changes, and its previous state is that event's current state. */
  predicate ContinuesAt(t: seq<Event>, i: int)
    requires 0 < i < |t|
  {
    t[i].Success? && t[i - 1].Success? && t[i].previous == Some(t[i - 1].current)
  }

  /** A session trace: every event after the first continues the one before
      it. Unlike `Chained`, this excludes a second snapshot or a failure
      anywhere after the first event. */
  predicate Continuous(t: seq<Event>)
  {
    forall i :: 0 < i < |t| ==> ContinuesAt(t, i)
  }

  /** Like `ContinuesAt`, but a previous state equal to `sentinel` is also
      accepted in place of the preceding current state. */
  predicate ContinuesOrSentinelAt(t: seq<Event>, i: int, sentinel: int)
    requires 0 < i < |t|
  {
    && t[i].Success? && t[i - 1].Success?
    && (t[i].previous == Some(t[i - 1].current) || t[i].previous == Some(sentinel))
  }

  predicate ContinuousOrSentinel(t: seq<Event>, sentinel: int)
  {
    forall i :: 0 < i < |t| ==> ContinuesOrSentinelAt(t, i, sentinel)
  }

  /** Appending a state change that continues the last event keeps a
      session trace continuous. */
  lemma ContinuousSnoc(t: seq<Event>, e: Event)
    requires Continuous(t) && |t| > 0 && t[|t| - 1].Success?
    requires e.Success? && e.previous == Some(t[|t| - 1].current)
    ensures Continuous(t + [e])
  {
    var u := t + [e];
    assert forall i :: 0 < i < |t| ==> (ContinuesAt(u, i) <==> ContinuesAt(t, i));
    assert ContinuesAt(u, |t|);
  }

  /** The sentinel-tolerant version of `ContinuousSnoc`. */
  lemma ContinuousOrSentinelSnoc(t: seq<Event>, e: Event, sentinel: int)
    requires ContinuousOrSentinel(t, sentinel) && |t| > 0 && t[|t| - 1].Success?
    requires e.Success?
    requires e.previous == Some(t[|t| - 1].current) || e.previous == Some(sentinel)
    ensures ContinuousOrSentinel(t + [e], sentinel)
  {
    var u := t + [e];
    assert forall i :: 0 < i < |t| ==>
      (ContinuesOrSentinelAt(u, i, sentinel) <==> ContinuesOrSentinelAt(t, i, sentinel));
    assert ContinuesOrSentinelAt(u, |t|, sentinel);
  }

  /** Number of state-change records in a trace. */
  function Successes(t: seq<Event>): (n: nat)
    ensures n <= |t|
  {
    if |t| == 0 then 0 else (if t[0].Success? then 1 else 0) + Successes(t[1..])
  }

  /** Appending an event keeps a chain intact exactly when the new event is
      linked to the old trace's last event. */
  lemma ChainedSnoc(t: seq<Event>, e: Event)
    requires Chained(t)
    ensures Chained(t + [e]) <==>
      (e.Success? && e.previous.Some? ==>
        |t| > 0 && t[|t| - 1].Success? && t[|t| - 1].current == e.previous.value)
  {
    var u := t + [e];
    assert forall i :: 0 <= i < |t| ==> (LinkedAt(u, i) <==> LinkedAt(t, i));
    assert LinkedAt(u, |t|) <==>
      (e.Success? && e.previous.Some? ==>
        |t| > 0 && t[|t| - 1].Success? && t[|t| - 1].current == e.previous.value);
  }

  /** The sentinel-tolerant version of `ChainedSnoc` (one direction). */
  lemma ChainedOrSentinelSnoc(t: seq<Event>, e: Event, sentinel: int)
    requires ChainedOrSentinel(t, sentinel)
    requires e.Success? && e.previous.Some? ==>
      |t| > 0 && t[|t| - 1].Success? &&
      (t[|t| - 1].current == e.previous.value || e.previous.value == sentinel)
    ensures ChainedOrSentinel(t + [e], sentinel)
  {
    var u := t + [e];
    assert forall i :: 0 <= i < |t| ==> (LinkedOrSentinelAt(u, i, sentinel) <==> LinkedOrSentinelAt(t, i, sentinel));
    assert LinkedOrSentinelAt(u, |t|, sentinel);
  }

  /** Counting state-change records distributes over concatenation. */
  lemma {:induction false} SuccessesAppend(a: seq<Event>, b: seq<Event>)
    ensures Successes(a + b) == Successes(a) + Successes(b)
    decreases |a|
  {
    if |a| == 0 {
      assert a + b == b;
    } else {
      assert (a + b)[1..] == a[1..] + b;
      SuccessesAppend(a[1..], b);
    }
  }
}
