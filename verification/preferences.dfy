/**
 * The app's typed settings over Android's `SharedPreferences` (android/.../Preferences.kt):
 * a string-keyed store of strings, booleans and ints, each property read with a default and
 * written under its own key. Writing a null string removes the key, as `putString` does.
 */
module Preferences {
  import opened Basics
  import ClientConstants

  /** Kotlin's `Int`. */
  type Int32 = x: int | -0x8000_0000 <= x < 0x8000_0000

  /** A stored preference value. */
  datatype Value = StringValue(s: string) | BoolValue(b: bool) | IntValue(i: Int32)

  type Store = map<string, Value>

  /** The settings the app keeps. */
  datatype Property = Key | DomainName | On | ShowCarrier | Consent | Retired | VersionCode | Delivered | BotName

  datatype Kind = StringKind | BoolKind | IntKind

  function KindOf(p: Property): Kind {
    match p
    case Key | DomainName | BotName => StringKind
    case On | ShowCarrier | Consent | Retired => BoolKind
    case VersionCode | Delivered => IntKind
  }

  /** The storage key of each property. */
  function StorageKey(p: Property): string {
    match p
    case Key => ClientConstants.PrefKey
    case DomainName => ClientConstants.PrefDomainName
    case On => ClientConstants.PrefOn
    case ShowCarrier => ClientConstants.PrefCarrier
    case Consent => ClientConstants.PrefConsent
    case Retired => ClientConstants.PrefRetired
    case VersionCode => ClientConstants.PrefVersionCode
    case Delivered => ClientConstants.PrefDelivered
    case BotName => ClientConstants.PrefBotName
  }

  /** Distinct properties live under distinct keys. */
  lemma StorageKeyInjective(p: Property, q: Property)
    ensures StorageKey(p) == StorageKey(q) <==> p == q
  {
  }

  predicate HasKind(v: Value, k: Kind) {
    match k
    case StringKind => v.StringValue?
    case BoolKind => v.BoolValue?
    case IntKind => v.IntValue?
  }

  /**
   * Every property's key holds a value of the property's type (a value of another type makes
   * the Android getter throw, which the app never provokes).
   */
  predicate WellTyped(st: Store) {
    forall p: Property :: StorageKey(p) in st ==> HasKind(st[StorageKey(p)], KindOf(p))
  }

  /** The default of a string property; `None` is Kotlin's `null`. */
  function StringDefault(p: Property, buildType: string): Option<string>
    requires KindOf(p) == StringKind
  {
    match p
    case Key => None
    case DomainName => Some(ClientConstants.DefaultDomainName)
    case BotName => Some(ClientConstants.BotName(buildType))
  }

  /** `getString(key, default)` for a string property. */
  function GetString(st: Store, p: Property, buildType: string): (r: Option<string>)
    requires WellTyped(st) && KindOf(p) == StringKind
    ensures StorageKey(p) !in st ==> r == StringDefault(p, buildType)
    ensures p != Key ==> r.Some?
  {
    if StorageKey(p) in st then Some(st[StorageKey(p)].s) else StringDefault(p, buildType)
  }

  /** `getBoolean(key, false)`. */
  function GetBool(st: Store, p: Property): (r: bool)
    requires WellTyped(st) && KindOf(p) == BoolKind
    ensures StorageKey(p) !in st ==> !r
  {
    StorageKey(p) in st && st[StorageKey(p)].b
  }

  /** `getInt(key, 0)`. */
  function GetInt(st: Store, p: Property): (r: Int32)
    requires WellTyped(st) && KindOf(p) == IntKind
    ensures StorageKey(p) !in st ==> r == 0
  {
    if StorageKey(p) in st then st[StorageKey(p)].i else 0
  }

  /** `putString(key, value)`: a null value removes the key. */
  function PutString(st: Store, p: Property, v: Option<string>): (r: Store)
    requires WellTyped(st) && KindOf(p) == StringKind
    ensures WellTyped(r)
    ensures forall k :: k != StorageKey(p) ==> (k in r <==> k in st) && (k in r ==> r[k] == st[k])
  {
    match v
    case None => st - {StorageKey(p)}
    case Some(s) => st[StorageKey(p) := StringValue(s)]
  }

  /** `putBoolean(key, value)`. */
  function PutBool(st: Store, p: Property, b: bool): (r: Store)
    requires WellTyped(st) && KindOf(p) == BoolKind
    ensures WellTyped(r)
    ensures forall k :: k != StorageKey(p) ==> (k in r <==> k in st) && (k in r ==> r[k] == st[k])
  {
    st[StorageKey(p) := BoolValue(b)]
  }

  /** `putInt(key, value)`. */
  function PutInt(st: Store, p: Property, i: Int32): (r: Store)
    requires WellTyped(st) && KindOf(p) == IntKind
    ensures WellTyped(r)
    ensures forall k :: k != StorageKey(p) ==> (k in r <==> k in st) && (k in r ==> r[k] == st[k])
  {
    st[StorageKey(p) := IntValue(i)]
  }

  /** A property's value, whatever its type: what a reader of the settings observes. */
  datatype Reading = StringReading(s: Option<string>) | BoolReading(b: bool) | IntReading(i: Int32)

  function Read(st: Store, p: Property, buildType: string): Reading
    requires WellTyped(st)
  {
    match KindOf(p)
    case StringKind => StringReading(GetString(st, p, buildType))
    case BoolKind => BoolReading(GetBool(st, p))
    case IntKind => IntReading(GetInt(st, p))
  }

  /** The defaults on a fresh install. */
  lemma EmptyStoreDefaults(buildType: string)
    ensures Read(map[], Key, buildType) == StringReading(None)
    ensures Read(map[], DomainName, buildType) == StringReading(Some(ClientConstants.DefaultDomainName))
    ensures Read(map[], BotName, buildType) == StringReading(Some(ClientConstants.BotName(buildType)))
    ensures forall p :: KindOf(p) == BoolKind ==> Read(map[], p, buildType) == BoolReading(false)
    ensures forall p :: KindOf(p) == IntKind ==> Read(map[], p, buildType) == IntReading(0)
  {
  }

  /** Reading a property after writing it gives the value written; a null key reads as null again. */
  lemma ReadAfterWrite(st: Store, p: Property, buildType: string, s: Option<string>, b: bool, i: Int32)
    requires WellTyped(st)
    ensures KindOf(p) == StringKind && p == Key ==> Read(PutString(st, p, s), p, buildType) == StringReading(s)
    ensures KindOf(p) == StringKind && s.Some? ==> Read(PutString(st, p, s), p, buildType) == StringReading(s)
    ensures KindOf(p) == BoolKind ==> Read(PutBool(st, p, b), p, buildType) == BoolReading(b)
    ensures KindOf(p) == IntKind ==> Read(PutInt(st, p, i), p, buildType) == IntReading(i)
  {
  }

  /** Writing one property leaves every other property's reading as it was. */
  lemma WriteLeavesOthers(st: Store, p: Property, q: Property, buildType: string, s: Option<string>, b: bool, i: Int32)
    requires WellTyped(st) && p != q
    ensures KindOf(p) == StringKind ==> Read(PutString(st, p, s), q, buildType) == Read(st, q, buildType)
    ensures KindOf(p) == BoolKind ==> Read(PutBool(st, p, b), q, buildType) == Read(st, q, buildType)
    ensures KindOf(p) == IntKind ==> Read(PutInt(st, p, i), q, buildType) == Read(st, q, buildType)
  {
    StorageKeyInjective(p, q);
  }
}
