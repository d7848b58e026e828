/**
 * The app's SMS record (android/.../entities/Sms.kt): the fields sent to the server, their
 * defaults, the two record types and the copy constructor.
 */
module ClientSms {
  import Preferences

  /** Kotlin's `Long`. */
  type Int64 = x: int | -0x8000_0000_0000_0000 <= x < 0x8000_0000_0000_0000

  const TypeSms := "sms"
  const TypeIncomingCall := "incoming_call"

  /** The record; `kind` is the Kotlin property `type`. */
  datatype Sms = Sms(
    id: Preferences.Int32,
    kind: string,
    text: string,
    sim: string,
    carrier: string,
    sender: string,
    timestamp: Int64,
    offset: Preferences.Int32)

  /** `Sms()`: no id yet, an SMS, every text empty, time zero. */
  function Fresh(): (s: Sms)
    ensures s.id == -1 && s.kind == TypeSms && s.kind != TypeIncomingCall
    ensures s.text == "" && s.sim == "" && s.carrier == "" && s.sender == ""
    ensures s.timestamp == 0 && s.offset == 0
  {
    Sms(-1, TypeSms, "", "", "", "", 0, 0)
  }

  /** `Sms(sms)`: a fresh record whose eight fields are assigned from `source`. */
  function Copy(source: Sms): (s: Sms)
    ensures s == source
  {
    Fresh().(id := source.id, kind := source.kind, text := source.text, sim := source.sim,
             carrier := source.carrier, sender := source.sender, timestamp := source.timestamp,
             offset := source.offset)
  }
}
