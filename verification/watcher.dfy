/** The state both adapter watchers keep, and the teardown they share. */
module Watcher {
  import opened Events

  /** One watcher's mutable fields: whether its broadcast receiver field is
      set (`wifiStateReceiver != null` / `bluetoothStateReceiver != null`), and
      the last state it stored (`currentWifiState` / `currentBluetoothState`). */
  datatype State = State(registered: bool, stored: int)

  /** The result of handling one input: the watcher's next state and the
      items delivered to its sink, in order. */
  datatype Transition = Transition(next: State, out: seq<Event>)

  /** `unregisterWifiReceiver` / `unregisterBluetoothReceiver`: clears the
      receiver when one is set and does nothing otherwise. The stored state
      is kept. */
  function Unregister(w: State): (r: State)
    ensures !r.registered
    ensures r.stored == w.stored
    ensures !w.registered ==> r == w
  {
    w.(registered := false)
  }
}
