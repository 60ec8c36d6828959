/** The Bluetooth watcher: `registerBluetoothReceiver` with its receiver's
    `onReceive`, and `unregisterBluetoothReceiver`, as a step function over
    `Watcher.State`. It differs from the Wi-Fi watcher in its permission gate,
    its failure path for a refused initial query, and its rule that drops
    broadcasts reporting the ERROR sentinel. */
module BluetoothWatcher {
  import opened Wrappers
  import opened Android
  import opened Events
  import opened Watcher

  /** The oracle answer of the initial `bluetoothAdapter?.state` query: no
      adapter, a state, or a `SecurityException` with its (nullable) message. */
  datatype Query = NoAdapter | Reports(state: int) | Throws(message: Option<string>)

  /** What can happen to the Bluetooth watcher. `Listen` carries the oracle
      answers of the permission check and of the initial query. */
  datatype Input =
    | Listen(permitted: bool, query: Query)
    | Cancel
    | Receive(intent: Intent)

  /** The plugin's initial Bluetooth fields: no receiver, state ERROR. */
  const Initial: State := State(false, BLUETOOTH_ERROR)

  /** The state a Bluetooth broadcast reports, ERROR when the extra is missing. */
  function Reported(intent: Intent): (r: int)
  {
    GetIntExtra(intent, BLUETOOTH_EXTRA_STATE, BLUETOOTH_ERROR)
  }

  /** `registerBluetoothReceiver`. With a receiver already set it does
      nothing. Otherwise: without permission it delivers one
      PERMISSION_DENIED failure; if the initial query throws it delivers one
      PERMISSION_ERROR failure carrying the exception's message; in both
      cases nothing is stored and no receiver is set. Else it stores the
      queried state (ERROR when there is no adapter), delivers it as a
      snapshot, unfiltered even when it is ERROR, and sets the receiver. */
  function Register(b: State, permitted: bool, query: Query): (r: Transition)
    ensures b.registered ==> r == Transition(b, [])
    ensures !b.registered && !permitted ==>
      r == Transition(b, [Error(PermissionDenied, None)])
    ensures !b.registered && permitted && query.Throws? ==>
      r == Transition(b, [Error(PermissionError, query.message)])
    ensures !b.registered && permitted && !query.Throws? ==>
      var s := if query.Reports? then query.state else BLUETOOTH_ERROR;
      && r.next == State(true, s)
      && r.out == [Success(None, s)]
    ensures r.next.registered <==> b.registered || (permitted && !query.Throws?)
  {
    if b.registered then Transition(b, [])
    else if !permitted then Transition(b, [Error(PermissionDenied, None)])
    else
      match query
      case Throws(m) => Transition(b, [Error(PermissionError, m)])
      case NoAdapter => Transition(State(true, BLUETOOTH_ERROR), [Success(None, BLUETOOTH_ERROR)])
      case Reports(s) => Transition(State(true, s), [Success(None, s)])
  }

  /** The receiver's `onReceive`. Only a registered receiver is invoked; it
      ignores other actions. For a state-change broadcast it stores the
      reported state first, and then delivers the old and new states only
      when the new state is not ERROR. A dropped broadcast therefore still
      leaves ERROR as the stored state. */
  function OnReceive(b: State, intent: Intent): (r: Transition)
    ensures b.registered && intent.action == BLUETOOTH_ACTION_STATE_CHANGED ==>
      && r.next == State(true, Reported(intent))
      && (Reported(intent) != BLUETOOTH_ERROR ==> r.out == [Success(Some(b.stored), Reported(intent))])
      && (Reported(intent) == BLUETOOTH_ERROR ==> r.out == [])
    ensures !b.registered || intent.action != BLUETOOTH_ACTION_STATE_CHANGED ==>
      r == Transition(b, [])
  {
    if b.registered && intent.action == BLUETOOTH_ACTION_STATE_CHANGED then
      var s := Reported(intent);
      var next := b.(stored := s);
      if s != BLUETOOTH_ERROR then Transition(next, [Success(Some(b.stored), s)])
      else Transition(next, [])
    else
      Transition(b, [])
  }

  function Step(b: State, x: Input): (r: Transition)
  {
    match x
    case Listen(p, q) => Register(b, p, q)
    case Cancel => Transition(Unregister(b), [])
    case Receive(i) => OnReceive(b, i)
  }

  /** Feeds the inputs to the watcher in order and concatenates what it
      delivers. */
  function Run(b: State, xs: seq<Input>): (r: Transition)
    decreases |xs|
  {
    if |xs| == 0 then Transition(b, [])
    else
      var t := Step(b, xs[0]);
      var rest := Run(t.next, xs[1..]);
      Transition(rest.next, t.out + rest.out)
  }

  predicate IsStateChange(x: Input)
  {
    x.Receive? && x.intent.action == BLUETOOTH_ACTION_STATE_CHANGED
  }

  /** A state-change broadcast reporting ERROR, which a registered receiver
      drops. */
  predicate IsErrorStateChange(x: Input)
  {
    IsStateChange(x) && Reported(x.intent) == BLUETOOTH_ERROR
  }

  function StateChanges(xs: seq<Input>): (n: nat)
  {
    if |xs| == 0 then 0 else (if IsStateChange(xs[0]) then 1 else 0) + StateChanges(xs[1..])
  }

  function ErrorStateChanges(xs: seq<Input>): (n: nat)
  {
    if |xs| == 0 then 0 else (if IsErrorStateChange(xs[0]) then 1 else 0) + ErrorStateChanges(xs[1..])
  }

  predicate AllReceives(xs: seq<Input>)
  {
    forall i :: 0 <= i < |xs| ==> xs[i].Receive?
  }

  predicate NoErrorStateChanges(xs: seq<Input>)
  {
    forall i :: 0 <= i < |xs| ==> !IsErrorStateChange(xs[i])
  }

  /** What the Bluetooth watcher keeps true of its trace whatever it
      receives: every previous state repeats the preceding current state or
      is ERROR, and a registered watcher's stored state is the last delivered
      current state or ERROR. */
  predicate LooselyConsistent(b: State, t: seq<Event>)
  {
    && ChainedOrSentinel(t, BLUETOOTH_ERROR)
    && (b.registered ==>
          |t| > 0 && t[|t| - 1].Success? &&
          (t[|t| - 1].current == b.stored || b.stored == BLUETOOTH_ERROR))
  }

  /** What it keeps true when no ERROR broadcast arrives: the exact chain. */
  predicate Consistent(b: State, t: seq<Event>)
  {
    && Chained(t)
    && (b.registered ==> |t| > 0 && t[|t| - 1].Success? && t[|t| - 1].current == b.stored)
  }

  lemma StepLooselyConsistent(b: State, t: seq<Event>, x: Input)
    requires LooselyConsistent(b, t)
    ensures LooselyConsistent(Step(b, x).next, t + Step(b, x).out)
  {
    var r := Step(b, x);
    if r.out == [] {
      assert t + r.out == t;
    } else {
      ChainedOrSentinelSnoc(t, r.out[0], BLUETOOTH_ERROR);
    }
  }

  lemma StepConsistent(b: State, t: seq<Event>, x: Input)
    requires Consistent(b, t)
    requires !IsErrorStateChange(x)
    ensures Consistent(Step(b, x).next, t + Step(b, x).out)
  {
    var r := Step(b, x);
    if r.out == [] {
      assert t + r.out == t;
    } else {
      ChainedSnoc(t, r.out[0]);
    }
  }

  lemma {:induction false} RunLooselyConsistent(b: State, t: seq<Event>, xs: seq<Input>)
    requires LooselyConsistent(b, t)
    ensures LooselyConsistent(Run(b, xs).next, t + Run(b, xs).out)
    decreases |xs|
  {
    if |xs| == 0 {
      assert t + [] == t;
    } else {
      var s := Step(b, xs[0]);
      StepLooselyConsistent(b, t, xs[0]);
      RunLooselyConsistent(s.next, t + s.out, xs[1..]);
      assert (t + s.out) + Run(s.next, xs[1..]).out == t + (s.out + Run(s.next, xs[1..]).out);
    }
  }

  lemma {:induction false} RunConsistent(b: State, t: seq<Event>, xs: seq<Input>)
    requires Consistent(b, t)
    requires NoErrorStateChanges(xs)
    ensures Consistent(Run(b, xs).next, t + Run(b, xs).out)
    decreases |xs|
  {
    if |xs| == 0 {
      assert t + [] == t;
    } else {
      var s := Step(b, xs[0]);
      assert !IsErrorStateChange(xs[0]);
      StepConsistent(b, t, xs[0]);
      assert NoErrorStateChanges(xs[1..]) by {
        forall i | 0 <= i < |xs[1..]| ensures !IsErrorStateChange(xs[1..][i]) {
          assert xs[1..][i] == xs[i + 1];
        }
      }
      RunConsistent(s.next, t + s.out, xs[1..]);
      assert (t + s.out) + Run(s.next, xs[1..]).out == t + (s.out + Run(s.next, xs[1..]).out);
    }
  }

  /** With no ERROR state-change broadcast among the inputs, the Bluetooth
      trace forms the same unbroken chain as the Wi-Fi one. */
  lemma ChainHoldsWithoutErrorBroadcasts(xs: seq<Input>)
    requires NoErrorStateChanges(xs)
    ensures Chained(Run(Initial, xs).out)
  {
    RunConsistent(Initial, [], xs);
    assert [] + Run(Initial, xs).out == Run(Initial, xs).out;
  }

  /** Whatever the inputs, a Bluetooth event's previous state is either the
      preceding event's current state or ERROR. */
  lemma ChainHoldsUpToError(xs: seq<Input>)
    ensures ChainedOrSentinel(Run(Initial, xs).out, BLUETOOTH_ERROR)
  {
    RunLooselyConsistent(Initial, [], xs);
    assert [] + Run(Initial, xs).out == Run(Initial, xs).out;
  }

  /** The chain really breaks: after a dropped ERROR broadcast the next
      delivered event reports ERROR as its previous state, not the state
      delivered before. */
  lemma ChainBreaksAfterDroppedError(s: int, u: int)
    requires s != BLUETOOTH_ERROR && u != BLUETOOTH_ERROR
    ensures
      var xs := [Listen(true, Reports(s)),
                 Receive(Intent(BLUETOOTH_ACTION_STATE_CHANGED, map[BLUETOOTH_EXTRA_STATE := BLUETOOTH_ERROR])),
                 Receive(Intent(BLUETOOTH_ACTION_STATE_CHANGED, map[BLUETOOTH_EXTRA_STATE := u]))];
      && Run(Initial, xs).out == [Success(None, s), Success(Some(BLUETOOTH_ERROR), u)]
      && !Chained(Run(Initial, xs).out)
  {
    var e := Receive(Intent(BLUETOOTH_ACTION_STATE_CHANGED, map[BLUETOOTH_EXTRA_STATE := BLUETOOTH_ERROR]));
    var v := Receive(Intent(BLUETOOTH_ACTION_STATE_CHANGED, map[BLUETOOTH_EXTRA_STATE := u]));
    var xs := [Listen(true, Reports(s)), e, v];
    assert xs[1..] == [e, v];
    assert [e, v][1..] == [v];
    assert [v][1..] == [];
    var b1 := State(true, s);
    var b2 := State(true, BLUETOOTH_ERROR);
    assert Run(b2, [v]).out == [Success(Some(BLUETOOTH_ERROR), u)];
    assert Run(b1, [e, v]).out == [Success(Some(BLUETOOTH_ERROR), u)];
    var t := Run(Initial, xs).out;
    assert t == [Success(None, s), Success(Some(BLUETOOTH_ERROR), u)];
    assert !LinkedAt(t, 1);
  }

  /** While registered, each state-change broadcast not reporting ERROR
      delivers exactly one event, ERROR ones and other actions deliver none,
      and the receiver stays set. */
  lemma {:induction false} RegisteredReceivesCount(b: State, xs: seq<Input>)
    requires b.registered
    requires AllReceives(xs)
    ensures |Run(b, xs).out| + ErrorStateChanges(xs) == StateChanges(xs)
    ensures Successes(Run(b, xs).out) == |Run(b, xs).out|
    ensures Run(b, xs).next.registered
    decreases |xs|
  {
    if |xs| > 0 {
      var s := Step(b, xs[0]);
      assert AllReceives(xs[1..]) by {
        forall i | 0 <= i < |xs[1..]| ensures xs[1..][i].Receive? { assert xs[1..][i] == xs[i + 1]; }
      }
      RegisteredReceivesCount(s.next, xs[1..]);
      SuccessesAppend(s.out, Run(s.next, xs[1..]).out);
    }
  }

  /** While registered, broadcasts extend a session trace ending in the
      stored state (or with ERROR stored): each delivered record's previous
      state is the record before it's current state, or ERROR. */
  lemma {:induction false} RegisteredContinuousOrError(b: State, t: seq<Event>, xs: seq<Input>)
    requires b.registered
    requires AllReceives(xs)
    requires |t| > 0 && t[|t| - 1].Success?
    requires t[|t| - 1].current == b.stored || b.stored == BLUETOOTH_ERROR
    requires ContinuousOrSentinel(t, BLUETOOTH_ERROR)
    ensures ContinuousOrSentinel(t + Run(b, xs).out, BLUETOOTH_ERROR)
    decreases |xs|
  {
    if |xs| == 0 {
      assert t + Run(b, xs).out == t;
    } else {
      var s := Step(b, xs[0]);
      assert AllReceives(xs[1..]) by {
        forall i | 0 <= i < |xs[1..]| ensures xs[1..][i].Receive? { assert xs[1..][i] == xs[i + 1]; }
      }
      var t2 := t + s.out;
      if s.out == [] {
        assert t2 == t;
      } else {
        ContinuousOrSentinelSnoc(t, s.out[0], BLUETOOTH_ERROR);
      }
      RegisteredContinuousOrError(s.next, t2, xs[1..]);
      assert t2 + Run(s.next, xs[1..]).out == t + Run(b, xs).out;
    }
  }

  /** With no ERROR broadcast, broadcasts to a registered receiver extend a
      session trace exactly as on Wi-Fi. */
  lemma {:induction false} RegisteredContinuous(b: State, t: seq<Event>, xs: seq<Input>)
    requires b.registered
    requires AllReceives(xs) && NoErrorStateChanges(xs)
    requires |t| > 0 && t[|t| - 1].Success? && t[|t| - 1].current == b.stored
    requires Continuous(t)
    ensures Continuous(t + Run(b, xs).out)
    decreases |xs|
  {
    if |xs| == 0 {
      assert t + Run(b, xs).out == t;
    } else {
      var s := Step(b, xs[0]);
      assert !IsErrorStateChange(xs[0]);
      assert AllReceives(xs[1..]) && NoErrorStateChanges(xs[1..]) by {
        forall i | 0 <= i < |xs[1..]| ensures xs[1..][i].Receive? && !IsErrorStateChange(xs[1..][i]) {
          assert xs[1..][i] == xs[i + 1];
        }
      }
      var t2 := t + s.out;
      if s.out == [] {
        assert t2 == t;
      } else {
        ContinuousSnoc(t, s.out[0]);
      }
      RegisteredContinuous(s.next, t2, xs[1..]);
      assert t2 + Run(s.next, xs[1..]).out == t + Run(b, xs).out;
    }
  }

  /** A successful listen followed by N broadcasts, M of them state changes
      and D of those reporting ERROR, delivers 1 + M - D state-change
      records: first a snapshot of the queried state, then records whose
      previous state is the record before it's current state, or ERROR;
      without ERROR broadcasts it is always the former. */
  lemma SessionCount(b: State, q: Query, xs: seq<Input>)
    requires !b.registered && !q.Throws?
    requires AllReceives(xs)
    ensures |Run(b, [Listen(true, q)] + xs).out| == 1 + StateChanges(xs) - ErrorStateChanges(xs)
    ensures Successes(Run(b, [Listen(true, q)] + xs).out) == 1 + StateChanges(xs) - ErrorStateChanges(xs)
    ensures Run(b, [Listen(true, q)] + xs).out[0] ==
      Success(None, if q.Reports? then q.state else BLUETOOTH_ERROR)
    ensures ContinuousOrSentinel(Run(b, [Listen(true, q)] + xs).out, BLUETOOTH_ERROR)
    ensures NoErrorStateChanges(xs) ==> Continuous(Run(b, [Listen(true, q)] + xs).out)
  {
    var ys := [Listen(true, q)] + xs;
    assert ys[0] == Listen(true, q);
    assert ys[1..] == xs;
    var s := Register(b, true, q);
    RegisteredReceivesCount(s.next, xs);
    SuccessesAppend(s.out, Run(s.next, xs).out);
    RegisteredContinuousOrError(s.next, s.out, xs);
    if NoErrorStateChanges(xs) {
      RegisteredContinuous(s.next, s.out, xs);
    }
  }

  /** An unregistered watcher ignores broadcasts: nothing is delivered and
      nothing changes. */
  lemma {:induction false} UnregisteredIgnoresReceives(b: State, xs: seq<Input>)
    requires !b.registered
    requires AllReceives(xs)
    ensures Run(b, xs) == Transition(b, [])
    decreases |xs|
  {
    if |xs| > 0 {
      assert AllReceives(xs[1..]) by {
        forall i | 0 <= i < |xs[1..]| ensures xs[1..][i].Receive? { assert xs[1..][i] == xs[i + 1]; }
      }
      UnregisteredIgnoresReceives(b, xs[1..]);
    }
  }

  /** A failed listen (permission denied, or the initial query throwing)
      delivers exactly one failure and no state change, registers nothing,
      stores nothing, and so no later broadcast reaches the sink. */
  lemma FailedListenRegistersNothing(b: State, permitted: bool, q: Query, xs: seq<Input>)
    requires !b.registered
    requires !permitted || q.Throws?
    requires AllReceives(xs)
    ensures Run(b, [Listen(permitted, q)] + xs) ==
      Transition(b, [if !permitted then Error(PermissionDenied, None) else Error(PermissionError, q.message)])
  {
    var ys := [Listen(permitted, q)] + xs;
    assert ys[0] == Listen(permitted, q);
    assert ys[1..] == xs;
    UnregisteredIgnoresReceives(b, xs);
  }

  /** A failed listen leaves the stream attachable: a later listen retries
      the whole sequence and, once permitted, delivers a fresh snapshot. */
  lemma RetryAfterDenial(b: State, q1: Query, s: int)
    requires !b.registered
    ensures Run(b, [Listen(false, q1), Listen(true, Reports(s))]).out ==
      [Error(PermissionDenied, None), Success(None, s)]
    ensures Run(b, [Listen(false, q1), Listen(true, Reports(s))]).next == State(true, s)
  {
    var xs := [Listen(false, q1), Listen(true, Reports(s))];
    assert xs[1..] == [Listen(true, Reports(s))];
    assert [Listen(true, Reports(s))][1..] == [];
    assert Run(b, [Listen(true, Reports(s))]) == Transition(State(true, s), [Success(None, s)]);
  }

  /** Once a listen has set the receiver, a second listen changes nothing
      and delivers nothing, whatever the permission and query oracles say. */
  lemma ListenIdempotent(b: State, p1: bool, q1: Query, p2: bool, q2: Query)
    ensures Register(b, p1, q1).next.registered ==>
      Run(b, [Listen(p1, q1), Listen(p2, q2)]) == Run(b, [Listen(p1, q1)])
  {
    assert [Listen(p1, q1), Listen(p2, q2)][1..] == [Listen(p2, q2)];
    assert [Listen(p2, q2)][1..] == [];
  }
}
