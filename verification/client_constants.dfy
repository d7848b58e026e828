/**
 * The Android app's constants (android/.../Constants.kt): the bot name, the preference key
 * names, the network timeouts, the resend back-off table and the server's public key.
 */
module ClientConstants {

  /** `BOT_NAME`, which tests the build type and yields the same name either way. */
  function BotName(buildType: string): string {
    if buildType == "staging" then "DietarySupplements_VN_bot" else "DietarySupplements_VN_bot"
  }

  /** The bot name does not depend on the build type. */
  lemma BotNameIgnoresBuildType(a: string, b: string)
    ensures BotName(a) == BotName(b) == "DietarySupplements_VN_bot"
  {
  }

  const LogHalvingSize := 100000
  const LogFileName := "log"
  const DefaultDomainName := "wasp-alive-basically.ngrok-free.app"
  const PreferencesName := "com.github.igrmk.smsq.preferences"

  const PrefDomainName := "domain_name"
  const PrefKey := "key"
  const PrefOn := "on"
  const PrefCarrier := "show_carrier"
  const PrefConsent := "consent"
  const PrefRetired := "retired"
  const PrefVersionCode := "version_code"
  const PrefDelivered := "delivered"
  /** The bot name is stored under this literal key rather than a named constant. */
  const PrefBotName := "BOT_NAME"

  /** Every storage key the preferences use. */
  const PrefKeys: seq<string> :=
    [PrefDomainName, PrefKey, PrefOn, PrefCarrier, PrefConsent, PrefRetired, PrefVersionCode, PrefDelivered, PrefBotName]

  /** No two preferences share a storage key. */
  lemma PrefKeysDistinct()
    ensures forall i, j :: 0 <= i < j < |PrefKeys| ==> PrefKeys[i] != PrefKeys[j]
  {
  }

  const SocketTimeoutMs := 10000
  const KeyLength := 64
  const PermissionsSms := 1
  const PermissionsState := 2

  /** `RESEND_PERIOD_MS`: 5, 15 and 45 minutes, in milliseconds. */
  const ResendPeriodMs: seq<int> := [5 * 60 * 1000, 15 * 60 * 1000, 45 * 60 * 1000]

  /** The back-off table: three tiers, starting at five minutes, each three times the one before. */
  lemma ResendPeriods()
    ensures ResendPeriodMs == [300000, 900000, 2700000]
    ensures |ResendPeriodMs| == 3 && ResendPeriodMs[0] == 5 * 60 * 1000
    ensures forall i :: 0 < i < |ResendPeriodMs| ==> ResendPeriodMs[i] == 3 * ResendPeriodMs[i - 1]
    ensures forall i, j :: 0 <= i < j < |ResendPeriodMs| ==> ResendPeriodMs[i] < ResendPeriodMs[j]
  {
  }

  const ReleasePublicKeyString := "\n        {\n  \"primaryKeyId\": 486731450,\n  \"key\": [\n    {\n      \"keyData\": {\n        \"typeUrl\": \"type.googleapis.com/google.crypto.tink.EciesAeadHkdfPublicKey\",\n        \"value\": \"ElwKBAgCEAMSUhJQCjh0eXBlLmdvb2dsZWFwaXMuY29tL2dvb2dsZS5jcnlwdG8udGluay5BZXNDdHJIbWFjQWVhZEtleRISCgYKAggQEBASCAoECAMQEBAgGAEYARogg8+t42l4OlrYJ11hx85GoMYhPuuvJXRoDWn8Srcag3wiIMKkd2vULG5BCuF7XEQhDomnGcC+l33/QrzIOi1R7MJ/\",\n        \"keyMaterialType\": \"ASYMMETRIC_PUBLIC\"\n      },\n      \"status\": \"ENABLED\",\n      \"keyId\": 486731450,\n      \"outputPrefixType\": \"TINK\"\n    }\n  ]\n}\n    "

  const StagingPublicKeyString := "\n        {\n  \"primaryKeyId\": 486731450,\n  \"key\": [\n    {\n      \"keyData\": {\n        \"typeUrl\": \"type.googleapis.com/google.crypto.tink.EciesAeadHkdfPublicKey\",\n        \"value\": \"ElwKBAgCEAMSUhJQCjh0eXBlLmdvb2dsZWFwaXMuY29tL2dvb2dsZS5jcnlwdG8udGluay5BZXNDdHJIbWFjQWVhZEtleRISCgYKAggQEBASCAoECAMQEBAgGAEYARogg8+t42l4OlrYJ11hx85GoMYhPuuvJXRoDWn8Srcag3wiIMKkd2vULG5BCuF7XEQhDomnGcC+l33/QrzIOi1R7MJ/\",\n        \"keyMaterialType\": \"ASYMMETRIC_PUBLIC\"\n      },\n      \"status\": \"ENABLED\",\n      \"keyId\": 486731450,\n      \"outputPrefixType\": \"TINK\"\n    }\n  ]\n}\n    "

  /** The key set `PUBLIC_KEY` is read from, chosen by build type. */
  function PublicKeyString(buildType: string): string {
    if buildType == "staging" then StagingPublicKeyString else ReleasePublicKeyString
  }

  /** Both build types ship the same public key. */
  lemma PublicKeyIgnoresBuildType(a: string, b: string)
    ensures PublicKeyString(a) == PublicKeyString(b)
  {
  }
}
