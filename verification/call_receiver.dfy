/**
 * Turning an incoming phone call into a record for the server (android/.../helpers/CallReceiver.kt):
 * which broadcasts are kept, and the record built for a ringing call. The intent, the device's
 * SIM information, the clock and the time zone are inputs.
 */
module CallReceiver {
  import opened Basics
  import Preferences
  import ClientSms

  /** `TelephonyManager.ACTION_PHONE_STATE_CHANGED`. */
  const ActionPhoneStateChanged := "android.intent.action.PHONE_STATE"
  /** `TelephonyManager.EXTRA_STATE_RINGING`. */
  const StateRinging := "RINGING"
  /** `Build.VERSION_CODES.LOLLIPOP_MR1`. */
  const LollipopMr1 := 22

  /** The broadcast: its action and the state and number extras, either of which may be missing. */
  datatype Intent = Intent(action: string, state: Option<string>, number: Option<string>)

  /** A `SubscriptionInfo`; its display and carrier names may be null. */
  datatype SimInfo = SimInfo(displayName: Option<string>, carrierName: Option<string>)

  /** What the device reports when asked. */
  datatype Device = Device(
    sdk: int,
    phoneStateGranted: bool,
    activeSubscriptions: Option<seq<SimInfo>>,   // activeSubscriptionInfoList, possibly null
    nowMillis: ClientSms.Int64,                  // System.currentTimeMillis()
    zoneOffsetMillis: Preferences.Int32)         // the default time zone's offset at that instant

  /**
   * Milliseconds to seconds by Java's `/ 1000`, which truncates toward zero (Dafny's `/` rounds
   * down): `sec * 1000` is the multiple of 1000 nearest to `millis` on zero's side.
   */
  function Seconds(millis: int): (sec: int)
    ensures millis >= 0 ==> 0 <= sec * 1000 <= millis < sec * 1000 + 1000
    ensures millis < 0 ==> sec * 1000 - 1000 < millis <= sec * 1000 <= 0
  {
    if millis >= 0 then millis / 1000 else -((-millis) / 1000)
  }

  /** `getDefaultSimInfo`: the first active subscription, given permission and API level 22. */
  function DefaultSimInfo(d: Device): (r: Option<SimInfo>)
    ensures r.Some? ==> d.phoneStateGranted && d.sdk >= LollipopMr1 && d.activeSubscriptions.Some?
                        && |d.activeSubscriptions.value| > 0 && r.value == d.activeSubscriptions.value[0]
  {
    if !d.phoneStateGranted then None
    else if d.sdk >= LollipopMr1 then
      match d.activeSubscriptions
      case None => None
      case Some(subs) => if |subs| == 0 then None else Some(subs[0])
    else None
  }

  /** The SIM display name and carrier name to report: empty unless asked for and available. */
  function SimNames(prefs: Preferences.Store, d: Device): (names: (string, string))
    requires Preferences.WellTyped(prefs)
  {
    if Preferences.GetBool(prefs, Preferences.ShowCarrier) && d.sdk >= LollipopMr1 then
      match DefaultSimInfo(d)
      case None => ("", "")
      case Some(info) => (info.displayName.GetOr(""), info.carrierName.GetOr(""))
    else ("", "")
  }

  /** `processIncomingCall`: the record stored for a call from `number`. */
  function IncomingCall(prefs: Preferences.Store, d: Device, number: string): (s: ClientSms.Sms)
    requires Preferences.WellTyped(prefs)
    ensures s.kind == ClientSms.TypeIncomingCall && s.id == -1 && s.text == "" && s.sender == number
    ensures (s.sim != "" || s.carrier != "") ==> Preferences.GetBool(prefs, Preferences.ShowCarrier)
    ensures d.nowMillis >= 0 ==> 0 <= s.timestamp * 1000 <= d.nowMillis < s.timestamp * 1000 + 1000
    ensures d.nowMillis < 0 ==> s.timestamp * 1000 - 1000 < d.nowMillis <= s.timestamp * 1000 <= 0
  {
    var names := SimNames(prefs, d);
    ClientSms.Fresh().(
      kind := ClientSms.TypeIncomingCall,
      sim := names.0,
      carrier := names.1,
      text := "",
      sender := number,
      timestamp := Seconds(d.nowMillis),
      offset := Seconds(d.zoneOffsetMillis))
  }

  /** `onReceive`: the record stored for this broadcast, if any. */
  function OnReceive(intent: Intent, prefs: Preferences.Store, d: Device): (r: Option<ClientSms.Sms>)
    requires Preferences.WellTyped(prefs)
    ensures r.Some? <==>
              && intent.action == ActionPhoneStateChanged
              && Preferences.GetBool(prefs, Preferences.On)
              && intent.state == Some(StateRinging)
              && intent.number.Some?
  {
    if intent.action != ActionPhoneStateChanged then None
    else if !Preferences.GetBool(prefs, Preferences.On) then None
    else match intent.state
      case None => None
      case Some(state) =>
        if state == StateRinging && intent.number.Some? then Some(IncomingCall(prefs, d, intent.number.value))
        else None
  }

  /**
   * The record of a ringing call: an incoming call without an id or text, from the caller's
   * number, stamped with the clock and the zone offset in whole seconds, each rounded toward zero.
   */
  lemma IncomingCallRecord(intent: Intent, prefs: Preferences.Store, d: Device)
    requires Preferences.WellTyped(prefs)
    requires OnReceive(intent, prefs, d).Some?
    ensures var s := OnReceive(intent, prefs, d).value;
            && s.kind == ClientSms.TypeIncomingCall && s.id == -1 && s.text == ""
            && s.sender == intent.number.value
            && (d.nowMillis >= 0 ==> s.timestamp * 1000 <= d.nowMillis < s.timestamp * 1000 + 1000)
            && (d.nowMillis < 0 ==> s.timestamp * 1000 - 1000 < d.nowMillis <= s.timestamp * 1000)
            && (d.zoneOffsetMillis >= 0 ==> s.offset * 1000 <= d.zoneOffsetMillis < s.offset * 1000 + 1000)
            && (d.zoneOffsetMillis < 0 ==> s.offset * 1000 - 1000 < d.zoneOffsetMillis <= s.offset * 1000)
  {
  }

  /**
   * SIM and carrier names are reported only when the user asked for them, the API level is at
   * least 22 and the phone-state permission is granted; a null name is reported as empty.
   */
  lemma SimNamesOnlyWhenAllowed(intent: Intent, prefs: Preferences.Store, d: Device)
    requires Preferences.WellTyped(prefs)
    requires OnReceive(intent, prefs, d).Some?
    ensures var s := OnReceive(intent, prefs, d).value;
            && ((s.sim != "" || s.carrier != "") ==>
                  Preferences.GetBool(prefs, Preferences.ShowCarrier) && d.sdk >= LollipopMr1 && d.phoneStateGranted)
            && (Preferences.GetBool(prefs, Preferences.ShowCarrier) && DefaultSimInfo(d).Some? ==>
                  s.sim == DefaultSimInfo(d).value.displayName.GetOr("")
                  && s.carrier == DefaultSimInfo(d).value.carrierName.GetOr(""))
  {
  }
}
