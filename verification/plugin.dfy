/** The plugin as a whole: both watchers side by side, driven by the stream
    handlers' listen/cancel calls, by broadcasts, and by detachment from the
    engine. Each stream has its own sink, so the output is one trace per
    stream. */
module ConnectivityPlugin {
  import opened Wrappers
  import opened Android
  import opened Events
  import opened Watcher
  import Wifi = WifiWatcher
  import Bluetooth = BluetoothWatcher

  datatype Plugin = Plugin(wifi: State, bluetooth: State)

  /** Fields as the plugin is constructed: both receivers unset, Wi-Fi state
      UNKNOWN, Bluetooth state ERROR. */
  const Initial: Plugin := Plugin(Wifi.Initial, Bluetooth.Initial)

  /** The inputs: `onListen`/`onCancel` on either event channel (with the
      oracle answers the watcher needs), a system broadcast, and
      `onDetachedFromEngine`. */
  datatype Input =
    | WifiListen(query: Option<int>)
    | WifiCancel
    | BluetoothListen(permitted: bool, btQuery: Bluetooth.Query)
    | BluetoothCancel
    | Broadcast(intent: Intent)
    | Detach

  /** The next plugin state and what each stream's sink received. */
  datatype Output = Output(next: Plugin, wifi: seq<Event>, bluetooth: seq<Event>)

  /** `onDetachedFromEngine`'s teardown as evidently intended: both
      receivers are unregistered from the host, which is harmless for one
      that is not set; stored states are kept. The source's own order of
      statements leaves the receivers registered with the host instead; that
      behaviour is `DetachAsWritten` below. */
  function Teardown(p: Plugin): (r: Plugin)
    ensures !r.wifi.registered && !r.bluetooth.registered
    ensures r.wifi.stored == p.wifi.stored && r.bluetooth.stored == p.bluetooth.stored
    ensures !p.wifi.registered && !p.bluetooth.registered ==> r == p
  {
    Plugin(Unregister(p.wifi), Unregister(p.bluetooth))
  }

  /** The input as the Wi-Fi watcher sees it, if at all. */
  function WifiInput(x: Input): (r: seq<Wifi.Input>)
  {
    match x
    case WifiListen(q) => [Wifi.Listen(q)]
    case WifiCancel => [Wifi.Cancel]
    case Broadcast(i) => [Wifi.Receive(i)]
    case Detach => [Wifi.Cancel]
    case _ => []
  }

  /** The input as the Bluetooth watcher sees it, if at all. */
  function BluetoothInput(x: Input): (r: seq<Bluetooth.Input>)
  {
    match x
    case BluetoothListen(p, q) => [Bluetooth.Listen(p, q)]
    case BluetoothCancel => [Bluetooth.Cancel]
    case Broadcast(i) => [Bluetooth.Receive(i)]
    case Detach => [Bluetooth.Cancel]
    case _ => []
  }

  /** One input: channel calls go to their own watcher only, a broadcast is
      offered to both receivers, and detaching tears both down. */
  function Step(p: Plugin, x: Input): (r: Output)
    ensures x.Detach? ==> r == Output(Teardown(p), [], [])
    ensures x.WifiListen? || x.WifiCancel? ==> r.next.bluetooth == p.bluetooth && r.bluetooth == []
    ensures x.BluetoothListen? || x.BluetoothCancel? ==> r.next.wifi == p.wifi && r.wifi == []
  {
    match x
    case WifiListen(q) =>
      var t := Wifi.Register(p.wifi, q);
      Output(p.(wifi := t.next), t.out, [])
    case WifiCancel =>
      Output(p.(wifi := Unregister(p.wifi)), [], [])
    case BluetoothListen(permitted, q) =>
      var t := Bluetooth.Register(p.bluetooth, permitted, q);
      Output(p.(bluetooth := t.next), [], t.out)
    case BluetoothCancel =>
      Output(p.(bluetooth := Unregister(p.bluetooth)), [], [])
    case Broadcast(i) =>
      var w := Wifi.OnReceive(p.wifi, i);
      var b := Bluetooth.OnReceive(p.bluetooth, i);
      Output(Plugin(w.next, b.next), w.out, b.out)
    case Detach =>
      Output(Teardown(p), [], [])
  }

  function Run(p: Plugin, xs: seq<Input>): (r: Output)
    decreases |xs|
  {
    if |xs| == 0 then Output(p, [], [])
    else
      var o := Step(p, xs[0]);
      var rest := Run(o.next, xs[1..]);
      Output(rest.next, o.wifi + rest.wifi, o.bluetooth + rest.bluetooth)
  }

  function WifiInputs(xs: seq<Input>): (r: seq<Wifi.Input>)
  {
    if |xs| == 0 then [] else WifiInput(xs[0]) + WifiInputs(xs[1..])
  }

  function BluetoothInputs(xs: seq<Input>): (r: seq<Bluetooth.Input>)
  {
    if |xs| == 0 then [] else BluetoothInput(xs[0]) + BluetoothInputs(xs[1..])
  }

  lemma WifiRunCons(w: State, y: Wifi.Input, ys: seq<Wifi.Input>)
    ensures Wifi.Run(w, [y] + ys) ==
      Transition(Wifi.Run(Wifi.Step(w, y).next, ys).next,
                 Wifi.Step(w, y).out + Wifi.Run(Wifi.Step(w, y).next, ys).out)
  {
  }

  lemma BluetoothRunCons(b: State, y: Bluetooth.Input, ys: seq<Bluetooth.Input>)
    ensures Bluetooth.Run(b, [y] + ys) ==
      Transition(Bluetooth.Run(Bluetooth.Step(b, y).next, ys).next,
                 Bluetooth.Step(b, y).out + Bluetooth.Run(Bluetooth.Step(b, y).next, ys).out)
  {
  }

  /** The two watchers are independent: what the plugin delivers on each
      stream, and the state it leaves each watcher in, is exactly what that
      watcher alone produces from the inputs that concern it. */
  lemma {:induction false} RunProjects(p: Plugin, xs: seq<Input>)
    ensures Run(p, xs).wifi == Wifi.Run(p.wifi, WifiInputs(xs)).out
    ensures Run(p, xs).next.wifi == Wifi.Run(p.wifi, WifiInputs(xs)).next
    ensures Run(p, xs).bluetooth == Bluetooth.Run(p.bluetooth, BluetoothInputs(xs)).out
    ensures Run(p, xs).next.bluetooth == Bluetooth.Run(p.bluetooth, BluetoothInputs(xs)).next
    decreases |xs|
  {
    if |xs| > 0 {
      var o := Step(p, xs[0]);
      RunProjects(o.next, xs[1..]);
      var wy := WifiInput(xs[0]);
      var bys := BluetoothInput(xs[0]);
      if wy == [] {
        assert wy + WifiInputs(xs[1..]) == WifiInputs(xs[1..]);
        assert o.next.wifi == p.wifi && o.wifi == [];
      } else {
        WifiRunCons(p.wifi, wy[0], WifiInputs(xs[1..]));
        assert Wifi.Step(p.wifi, wy[0]) == Transition(o.next.wifi, o.wifi);
      }
      if bys == [] {
        assert bys + BluetoothInputs(xs[1..]) == BluetoothInputs(xs[1..]);
        assert o.next.bluetooth == p.bluetooth && o.bluetooth == [];
      } else {
        BluetoothRunCons(p.bluetooth, bys[0], BluetoothInputs(xs[1..]));
        assert Bluetooth.Step(p.bluetooth, bys[0]) == Transition(o.next.bluetooth, o.bluetooth);
      }
    }
  }

  /** The Wi-Fi stream always forms an unbroken previous/current chain. */
  lemma WifiStreamChained(xs: seq<Input>)
    ensures Chained(Run(Initial, xs).wifi)
  {
    RunProjects(Initial, xs);
    Wifi.ChainAlwaysHolds(WifiInputs(xs));
  }

  /** A broadcast that the Bluetooth receiver would drop. */
  predicate IsBluetoothErrorBroadcast(x: Input)
  {
    && x.Broadcast?
    && x.intent.action == BLUETOOTH_ACTION_STATE_CHANGED
    && Bluetooth.Reported(x.intent) == BLUETOOTH_ERROR
  }

  predicate NoBluetoothErrorBroadcasts(xs: seq<Input>)
  {
    forall i :: 0 <= i < |xs| ==> !IsBluetoothErrorBroadcast(xs[i])
  }

  lemma {:induction false} NoErrorBroadcastsProject(xs: seq<Input>)
    requires NoBluetoothErrorBroadcasts(xs)
    ensures Bluetooth.NoErrorStateChanges(BluetoothInputs(xs))
    decreases |xs|
  {
    if |xs| > 0 {
      assert NoBluetoothErrorBroadcasts(xs[1..]) by {
        forall i | 0 <= i < |xs[1..]| ensures !IsBluetoothErrorBroadcast(xs[1..][i]) {
          assert xs[1..][i] == xs[i + 1];
        }
      }
      NoErrorBroadcastsProject(xs[1..]);
      assert !IsBluetoothErrorBroadcast(xs[0]);
      var h := BluetoothInput(xs[0]);
      var ys := h + BluetoothInputs(xs[1..]);
      forall i | 0 <= i < |ys| ensures !Bluetooth.IsErrorStateChange(ys[i]) {
        if i >= |h| {
          assert ys[i] == BluetoothInputs(xs[1..])[i - |h|];
        }
      }
    }
  }

  /** The Bluetooth stream forms the same chain as long as no broadcast
      reports the ERROR sentinel. */
  lemma BluetoothStreamChained(xs: seq<Input>)
    requires NoBluetoothErrorBroadcasts(xs)
    ensures Chained(Run(Initial, xs).bluetooth)
  {
    RunProjects(Initial, xs);
    NoErrorBroadcastsProject(xs);
    Bluetooth.ChainHoldsWithoutErrorBroadcasts(BluetoothInputs(xs));
  }

  /** With the intended teardown, tearing down twice is tearing down once,
      and after a teardown no broadcast reaches either sink. */
  lemma DetachSilencesBroadcasts(p: Plugin, intents: seq<Intent>)
    ensures Run(p, [Detach, Detach]) == Run(p, [Detach])
    ensures var xs := [Detach] + seq(|intents|, i requires 0 <= i < |intents| => Broadcast(intents[i]));
      Run(p, xs) == Output(Teardown(p), [], [])
  {
    assert [Detach, Detach][1..] == [Detach];
    assert [Detach][1..] == [];
    var bs := seq(|intents|, i requires 0 <= i < |intents| => Broadcast(intents[i]));
    var xs := [Detach] + bs;
    assert xs[0] == Detach && xs[1..] == bs;
    SilentWhileDetached(Teardown(p), bs);
  }

  lemma {:induction false} SilentWhileDetached(p: Plugin, xs: seq<Input>)
    requires !p.wifi.registered && !p.bluetooth.registered
    requires forall i :: 0 <= i < |xs| ==> xs[i].Broadcast?
    ensures Run(p, xs) == Output(p, [], [])
    decreases |xs|
  {
    if |xs| > 0 {
      assert forall i :: 0 <= i < |xs[1..]| ==> xs[1..][i].Broadcast? by {
        forall i | 0 <= i < |xs[1..]| ensures xs[1..][i].Broadcast? { assert xs[1..][i] == xs[i + 1]; }
      }
      SilentWhileDetached(p, xs[1..]);
    }
  }

  /** The plugin between `onDetachedFromEngine` as written and any later
      re-attach. Line 89 clears the application context before lines 93-94
      run the unregister functions, so their `applicationContext?.` calls to
      `unregisterReceiver` are skipped. The receiver fields are cleared, but
      each receiver that was set stays registered with the host (`wifiLive`,
      `bluetoothLive`), and its `onReceive` still writes the stored state and
      calls the sink it captured. */
  datatype Orphaned = Orphaned(wifiLive: bool, wifiStored: int, bluetoothLive: bool, bluetoothStored: int)

  /** What one broadcast does after the as-written detach. */
  datatype OrphanedOutput = OrphanedOutput(next: Orphaned, wifi: seq<Event>, bluetooth: seq<Event>)

  /** `onDetachedFromEngine` as written: the receivers that were set stay
      live with the host, with the stored states they share. */
  function DetachAsWritten(p: Plugin): (r: Orphaned)
    ensures r.wifiLive == p.wifi.registered && r.bluetoothLive == p.bluetooth.registered
    ensures r.wifiStored == p.wifi.stored && r.bluetoothStored == p.bluetooth.stored
  {
    Orphaned(p.wifi.registered, p.wifi.stored, p.bluetooth.registered, p.bluetooth.stored)
  }

  /** The plugin's receiver fields after the as-written detach: both
      cleared, whatever is still live with the host. */
  function Fields(o: Orphaned): (r: Plugin)
    ensures !r.wifi.registered && !r.bluetooth.registered
    ensures r.wifi.stored == o.wifiStored && r.bluetooth.stored == o.bluetoothStored
  {
    Plugin(State(false, o.wifiStored), State(false, o.bluetoothStored))
  }

  /** A broadcast after the as-written detach: each live orphaned receiver
      runs the same `onReceive` it ran before. */
  function OrphanedBroadcast(o: Orphaned, i: Intent): (r: OrphanedOutput)
  {
    var w := Wifi.OnReceive(State(o.wifiLive, o.wifiStored), i);
    var b := Bluetooth.OnReceive(State(o.bluetoothLive, o.bluetoothStored), i);
    OrphanedOutput(Orphaned(o.wifiLive, w.next.stored, o.bluetoothLive, b.next.stored), w.out, b.out)
  }

  function RunOrphaned(o: Orphaned, intents: seq<Intent>): (r: OrphanedOutput)
    decreases |intents|
  {
    if |intents| == 0 then OrphanedOutput(o, [], [])
    else
      var h := OrphanedBroadcast(o, intents[0]);
      var rest := RunOrphaned(h.next, intents[1..]);
      OrphanedOutput(rest.next, h.wifi + rest.wifi, h.bluetooth + rest.bluetooth)
  }

  function WifiReceives(intents: seq<Intent>): (r: seq<Wifi.Input>)
  {
    if |intents| == 0 then [] else [Wifi.Receive(intents[0])] + WifiReceives(intents[1..])
  }

  function BluetoothReceives(intents: seq<Intent>): (r: seq<Bluetooth.Input>)
  {
    if |intents| == 0 then [] else [Bluetooth.Receive(intents[0])] + BluetoothReceives(intents[1..])
  }

  /** Orphaned receivers behave exactly like registered watchers: what the
      broadcasts deliver, and the stored states they leave, are what each
      watcher with its receiver still set would produce. */
  lemma {:induction false} OrphansActAsRegistered(o: Orphaned, intents: seq<Intent>)
    ensures
      var r := RunOrphaned(o, intents);
      var w := Wifi.Run(State(o.wifiLive, o.wifiStored), WifiReceives(intents));
      var b := Bluetooth.Run(State(o.bluetoothLive, o.bluetoothStored), BluetoothReceives(intents));
      && r.wifi == w.out && r.bluetooth == b.out
      && r.next == Orphaned(o.wifiLive, w.next.stored, o.bluetoothLive, b.next.stored)
    decreases |intents|
  {
    if |intents| > 0 {
      var h := OrphanedBroadcast(o, intents[0]);
      OrphansActAsRegistered(h.next, intents[1..]);
      WifiRunCons(State(o.wifiLive, o.wifiStored), Wifi.Receive(intents[0]), WifiReceives(intents[1..]));
      BluetoothRunCons(State(o.bluetoothLive, o.bluetoothStored), Bluetooth.Receive(intents[0]), BluetoothReceives(intents[1..]));
    }
  }

  /** The as-written detach silences nothing: after it, broadcasts deliver to
      the captured sinks and update the stored states exactly as if the
      plugin had never been detached, although both receiver fields read as
      cleared. */
  lemma DetachAsWrittenSilencesNothing(p: Plugin, intents: seq<Intent>)
    ensures RunOrphaned(DetachAsWritten(p), intents).wifi == Wifi.Run(p.wifi, WifiReceives(intents)).out
    ensures RunOrphaned(DetachAsWritten(p), intents).bluetooth == Bluetooth.Run(p.bluetooth, BluetoothReceives(intents)).out
    ensures !Fields(RunOrphaned(DetachAsWritten(p), intents).next).wifi.registered
  {
    OrphansActAsRegistered(DetachAsWritten(p), intents);
  }

  /** The leak on one input: listen on Wi-Fi seeing state `a`, detach, then
      a Wi-Fi broadcast reporting `b`. As written, the detached plugin still
      delivers `(a, b)` and stores `b`; the intended teardown delivers
      nothing and keeps `a`. */
  lemma DetachLeaksReceivers(a: int, b: int)
    ensures
      var p := Run(Initial, [WifiListen(Some(a))]).next;
      var i := Intent(WIFI_STATE_CHANGED_ACTION, map[EXTRA_WIFI_STATE := b]);
      && RunOrphaned(DetachAsWritten(p), [i]).wifi == [Success(Some(a), b)]
      && RunOrphaned(DetachAsWritten(p), [i]).next.wifiStored == b
      && Run(p, [Detach, Broadcast(i)]).wifi == []
      && Run(p, [Detach, Broadcast(i)]).next.wifi.stored == a
  {
    assert [WifiListen(Some(a))][1..] == [];
    var p0 := Step(Initial, WifiListen(Some(a))).next;
    assert p0.wifi == State(true, a);
    assert Run(p0, []) == Output(p0, [], []);
    var p := Run(Initial, [WifiListen(Some(a))]).next;
    assert p == p0;
    var i := Intent(WIFI_STATE_CHANGED_ACTION, map[EXTRA_WIFI_STATE := b]);
    assert [i][1..] == [];
    var d := Teardown(p);
    assert [Detach, Broadcast(i)][1..] == [Broadcast(i)];
    assert [Broadcast(i)][1..] == [];
    assert Run(d, [Broadcast(i)]) == Output(d, [], []);
  }
}
