/** The Wi-Fi watcher: `registerWifiReceiver` with its receiver's `onReceive`,
    and `unregisterWifiReceiver`, as a step function over `Watcher.State`. */
module WifiWatcher {
  import opened Wrappers
  import opened Android
  import opened Events
  import opened Watcher

  /** What can happen to the Wi-Fi watcher. `Listen` carries the oracle
      answer of `WifiManager.wifiState`, `None` when there is no manager;
      `Receive` is a broadcast reaching the receiver. */
  datatype Input =
    | Listen(query: Option<int>)
    | Cancel
    | Receive(intent: Intent)

  /** The plugin's initial Wi-Fi fields: no receiver, state UNKNOWN. */
  const Initial: State := State(false, WIFI_STATE_UNKNOWN)

  /** The state a Wi-Fi broadcast reports, UNKNOWN when the extra is missing. */
  function Reported(intent: Intent): (r: int)
  {
    GetIntExtra(intent, EXTRA_WIFI_STATE, WIFI_STATE_UNKNOWN)
  }

  /** `registerWifiReceiver`: with no receiver set, stores the queried state,
      delivers it as a snapshot without a previous state, and sets the
      receiver; with one already set, does nothing at all. */
  function Register(w: State, query: Option<int>): (r: Transition)
    ensures w.registered ==> r == Transition(w, [])
    ensures !w.registered ==>
      var s := query.GetOr(WIFI_STATE_UNKNOWN);
      && r.next == State(true, s)
      && r.out == [Success(None, s)]
  {
    if w.registered then Transition(w, [])
    else
      var s := query.GetOr(WIFI_STATE_UNKNOWN);
      Transition(State(true, s), [Success(None, s)])
  }

  /** The receiver's `onReceive`. Only a registered receiver is invoked; it
      ignores other actions, and for a state-change broadcast it stores the
      reported state and delivers the old and new states, even when the two
      are equal. */
  function OnReceive(w: State, intent: Intent): (r: Transition)
    ensures w.registered && intent.action == WIFI_STATE_CHANGED_ACTION ==>
      && r.next == State(true, Reported(intent))
      && r.out == [Success(Some(w.stored), Reported(intent))]
    ensures !w.registered || intent.action != WIFI_STATE_CHANGED_ACTION ==>
      r == Transition(w, [])
  {
    if w.registered && intent.action == WIFI_STATE_CHANGED_ACTION then
      var s := Reported(intent);
      Transition(w.(stored := s), [Success(Some(w.stored), s)])
    else
      Transition(w, [])
  }

  function Step(w: State, x: Input): (r: Transition)
  {
    match x
    case Listen(q) => Register(w, q)
    case Cancel => Transition(Unregister(w), [])
    case Receive(i) => OnReceive(w, i)
  }

  /** Feeds the inputs to the watcher in order and concatenates what it
      delivers. */
  function Run(w: State, xs: seq<Input>): (r: Transition)
    decreases |xs|
  {
    if |xs| == 0 then Transition(w, [])
    else
      var t := Step(w, xs[0]);
      var rest := Run(t.next, xs[1..]);
      Transition(rest.next, t.out + rest.out)
  }

  predicate IsStateChange(x: Input)
  {
    x.Receive? && x.intent.action == WIFI_STATE_CHANGED_ACTION
  }

  /** The number of Wi-Fi state-change broadcasts among the inputs. */
  function StateChanges(xs: seq<Input>): (n: nat)
  {
    if |xs| == 0 then 0 else (if IsStateChange(xs[0]) then 1 else 0) + StateChanges(xs[1..])
  }

  predicate AllReceives(xs: seq<Input>)
  {
    forall i :: 0 <= i < |xs| ==> xs[i].Receive?
  }

  /** What the Wi-Fi watcher keeps true of a trace it has produced: the
      chain holds, and a registered watcher's stored state is the current
      state of the last event delivered. */
  predicate Consistent(w: State, t: seq<Event>)
  {
    && Chained(t)
    && (w.registered ==> |t| > 0 && t[|t| - 1].Success? && t[|t| - 1].current == w.stored)
  }

  lemma StepConsistent(w: State, t: seq<Event>, x: Input)
    requires Consistent(w, t)
    ensures Consistent(Step(w, x).next, t + Step(w, x).out)
  {
    var r := Step(w, x);
    if r.out == [] {
      assert t + r.out == t;
    } else {
      ChainedSnoc(t, r.out[0]);
    }
  }

  lemma {:induction false} RunConsistent(w: State, t: seq<Event>, xs: seq<Input>)
    requires Consistent(w, t)
    ensures Consistent(Run(w, xs).next, t + Run(w, xs).out)
    decreases |xs|
  {
    if |xs| == 0 {
      assert t + [] == t;
    } else {
      var s := Step(w, xs[0]);
      StepConsistent(w, t, xs[0]);
      RunConsistent(s.next, t + s.out, xs[1..]);
      assert (t + s.out) + Run(s.next, xs[1..]).out == t + (s.out + Run(s.next, xs[1..]).out);
    }
  }

  /** Every Wi-Fi trace, whatever the inputs, forms an unbroken chain: each
      event with a previous state repeats the preceding event's current
      state, and the first event is a snapshot. */
  lemma ChainAlwaysHolds(xs: seq<Input>)
    ensures Chained(Run(Initial, xs).out)
  {
    RunConsistent(Initial, [], xs);
    assert [] + Run(Initial, xs).out == Run(Initial, xs).out;
  }

  /** While registered, each state-change broadcast delivers exactly one
      event and every other broadcast none, and the receiver stays set. */
  lemma {:induction false} RegisteredReceivesCount(w: State, xs: seq<Input>)
    requires w.registered
    requires AllReceives(xs)
    ensures |Run(w, xs).out| == StateChanges(xs)
    ensures Successes(Run(w, xs).out) == StateChanges(xs)
    ensures Run(w, xs).next.registered
    decreases |xs|
  {
    if |xs| > 0 {
      var s := Step(w, xs[0]);
      assert AllReceives(xs[1..]) by {
        forall i | 0 <= i < |xs[1..]| ensures xs[1..][i].Receive? { assert xs[1..][i] == xs[i + 1]; }
      }
      RegisteredReceivesCount(s.next, xs[1..]);
      SuccessesAppend(s.out, Run(s.next, xs[1..]).out);
    }
  }

  /** While registered, broadcasts extend a session trace ending in the
      stored state: each delivered record continues the one before it. */
  lemma {:induction false} RegisteredContinuous(w: State, t: seq<Event>, xs: seq<Input>)
    requires w.registered
    requires AllReceives(xs)
    requires |t| > 0 && t[|t| - 1].Success? && t[|t| - 1].current == w.stored
    requires Continuous(t)
    ensures Continuous(t + Run(w, xs).out)
    decreases |xs|
  {
    if |xs| == 0 {
      assert t + Run(w, xs).out == t;
    } else {
      var s := Step(w, xs[0]);
      assert AllReceives(xs[1..]) by {
        forall i | 0 <= i < |xs[1..]| ensures xs[1..][i].Receive? { assert xs[1..][i] == xs[i + 1]; }
      }
      var t2 := t + s.out;
      if s.out == [] {
        assert t2 == t;
      } else {
        ContinuousSnoc(t, s.out[0]);
      }
      RegisteredContinuous(s.next, t2, xs[1..]);
      assert t2 + Run(s.next, xs[1..]).out == t + Run(w, xs).out;
    }
  }

  /** A listen from unregistered followed by N broadcasts of which M are
      state changes delivers M + 1 state-change records: first a snapshot of
      the queried state, then records each of whose previous state is the
      current state of the record before it. */
  lemma SessionCount(w: State, q: Option<int>, xs: seq<Input>)
    requires !w.registered
    requires AllReceives(xs)
    ensures |Run(w, [Listen(q)] + xs).out| == 1 + StateChanges(xs)
    ensures Successes(Run(w, [Listen(q)] + xs).out) == 1 + StateChanges(xs)
    ensures Run(w, [Listen(q)] + xs).out[0] == Success(None, q.GetOr(WIFI_STATE_UNKNOWN))
    ensures Continuous(Run(w, [Listen(q)] + xs).out)
  {
    var ys := [Listen(q)] + xs;
    assert ys[0] == Listen(q);
    assert ys[1..] == xs;
    var s := Register(w, q);
    RegisteredReceivesCount(s.next, xs);
    SuccessesAppend(s.out, Run(s.next, xs).out);
    RegisteredContinuous(s.next, s.out, xs);
  }

  /** An unregistered watcher ignores broadcasts: nothing is delivered and
      nothing changes. */
  lemma {:induction false} UnregisteredIgnoresReceives(w: State, xs: seq<Input>)
    requires !w.registered
    requires AllReceives(xs)
    ensures Run(w, xs) == Transition(w, [])
    decreases |xs|
  {
    if |xs| > 0 {
      assert AllReceives(xs[1..]) by {
        forall i | 0 <= i < |xs[1..]| ensures xs[1..][i].Receive? { assert xs[1..][i] == xs[i + 1]; }
      }
      UnregisteredIgnoresReceives(w, xs[1..]);
    }
  }

  /** A second listen while registered changes nothing and delivers nothing,
      so listening twice is the same as listening once. */
  lemma ListenIdempotent(w: State, q1: Option<int>, q2: Option<int>)
    ensures Run(w, [Listen(q1), Listen(q2)]) == Run(w, [Listen(q1)])
  {
    assert [Listen(q1), Listen(q2)][1..] == [Listen(q2)];
    assert [Listen(q2)][1..] == [];
  }

  /** Cancelling twice is the same as cancelling once, and after a cancel a
      listen starts over with a fresh snapshot. */
  lemma CancelThenListen(w: State, q: Option<int>)
    ensures Run(w, [Cancel, Cancel]) == Run(w, [Cancel]) == Transition(Unregister(w), [])
    ensures Run(w, [Cancel, Listen(q)]).out == [Success(None, q.GetOr(WIFI_STATE_UNKNOWN))]
  {
    assert [Cancel, Cancel][1..] == [Cancel];
    assert [Cancel, Listen(q)][1..] == [Listen(q)];
    assert [Listen(q)][1..] == [];
    assert Run(Unregister(w), [Listen(q)]).out == [Success(None, q.GetOr(WIFI_STATE_UNKNOWN))];
  }

  /** A listen seeing state `a`, then broadcasts reporting `b` and `c`,
      delivers `(None, a)`, `(a, b)`, `(b, c)` in that order, whether or not
      the states repeat. */
  lemma ThreeStateScenario(a: int, b: int, c: int)
    ensures
      var xs := [Listen(Some(a)),
                 Receive(Intent(WIFI_STATE_CHANGED_ACTION, map[EXTRA_WIFI_STATE := b])),
                 Receive(Intent(WIFI_STATE_CHANGED_ACTION, map[EXTRA_WIFI_STATE := c]))];
      && Run(Initial, xs).out == [Success(None, a), Success(Some(a), b), Success(Some(b), c)]
      && Run(Initial, xs).next == State(true, c)
  {
    var rb := Receive(Intent(WIFI_STATE_CHANGED_ACTION, map[EXTRA_WIFI_STATE := b]));
    var rc := Receive(Intent(WIFI_STATE_CHANGED_ACTION, map[EXTRA_WIFI_STATE := c]));
    var xs := [Listen(Some(a)), rb, rc];
    assert xs[1..] == [rb, rc];
    assert [rb, rc][1..] == [rc];
    assert [rc][1..] == [];
    assert Run(State(true, b), [rc]) == Transition(State(true, c), [Success(Some(b), c)]);
    assert Run(State(true, a), [rb, rc]) == Transition(State(true, c), [Success(Some(a), b), Success(Some(b), c)]);
  }
}
