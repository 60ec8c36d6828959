/** The slice of the Android host that the plugin reads: the two sentinel
    state codes, the broadcast action names, the extra keys, and the broadcast
    intent itself. */
module Android {

  /** `WifiManager.WIFI_STATE_UNKNOWN`. Its concrete value plays no part in
      the plugin's logic, so it is left unspecified. */
  const WIFI_STATE_UNKNOWN: int

  /** `BluetoothAdapter.ERROR`, the sentinel returned for an unreadable
      Bluetooth state. Left unspecified for the same reason. */
  const BLUETOOTH_ERROR: int

  const WIFI_STATE_CHANGED_ACTION: string := "android.net.wifi.WIFI_STATE_CHANGED"
  const EXTRA_WIFI_STATE: string := "wifi_state"

  const BLUETOOTH_ACTION_STATE_CHANGED: string := "android.bluetooth.adapter.action.STATE_CHANGED"
  const BLUETOOTH_EXTRA_STATE: string := "android.bluetooth.adapter.extra.STATE"

  /** A broadcast as a receiver sees it: its action and its integer extras. */
  datatype Intent = Intent(action: string, extras: map<string, int>)

  /** `Intent.getIntExtra`: the extra stored under `name`, or `default` when
      the intent carries none. */
  function GetIntExtra(intent: Intent, name: string, default: int): (r: int)
    ensures name in intent.extras ==> r == intent.extras[name]
    ensures name !in intent.extras ==> r == default
  {
    if name in intent.extras then intent.extras[name] else default
  }
}
