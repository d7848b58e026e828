/**
 * The bot's configuration (go/smsq/config.go): a JSON file, then three environment
 * overrides, then an ordered check of the required fields, then the private key.
 */
module ServerConfig {
  import opened Basics
  import opened Strconv

  datatype Config = Config(
    listenAddress: string,
    apiDomain: string,
    webhookDomain: string,
    botToken: string,
    timeoutSeconds: int,
    adminId: int,
    dbPath: string,
    debug: bool,
    privateKey: string,
    receivedLimit: int,
    deliveredLimit: int,
    challenges: map<string, string>)

  /** The process environment, as seen by `os.LookupEnv`. */
  type Env = map<string, string>

  /** `parseEnv`: `DOMAIN` sets both domains, `BOT_TOKEN` the token, `ADMIN_ID` the admin. */
  function ParseEnv(cfg: Config, env: Env): (r: Config)
    ensures "DOMAIN" in env ==> r.webhookDomain == env["DOMAIN"] && r.apiDomain == env["DOMAIN"]
    ensures "DOMAIN" !in env ==> r.webhookDomain == cfg.webhookDomain && r.apiDomain == cfg.apiDomain
    ensures r.botToken == if "BOT_TOKEN" in env then env["BOT_TOKEN"] else cfg.botToken
    ensures "ADMIN_ID" in env ==> r.adminId == ParseInt(env["ADMIN_ID"]).GoValue()
    ensures "ADMIN_ID" !in env ==> r.adminId == cfg.adminId
    ensures r.(apiDomain := cfg.apiDomain, webhookDomain := cfg.webhookDomain,
               botToken := cfg.botToken, adminId := cfg.adminId) == cfg
  {
    var c1 := if "DOMAIN" in env then cfg.(webhookDomain := env["DOMAIN"], apiDomain := env["DOMAIN"]) else cfg;
    var c2 := if "BOT_TOKEN" in env then c1.(botToken := env["BOT_TOKEN"]) else c1;
    if "ADMIN_ID" in env then c2.(adminId := ParseInt(env["ADMIN_ID"]).GoValue()) else c2
  }

  /** The ten required settings. */
  datatype Field =
    | ListenAddress | BotToken | TimeoutSeconds | AdminId | DbPath
    | ApiDomain | WebhookDomain | PrivateKey | ReceivedLimit | DeliveredLimit

  /** The setting's name in the JSON file, as quoted by the error message. */
  function JsonName(f: Field): string {
    match f
    case ListenAddress => "listen_address"
    case BotToken => "bot_token"
    case TimeoutSeconds => "timeout_seconds"
    case AdminId => "admin_id"
    case DbPath => "db_path"
    case ApiDomain => "api_domain"
    case WebhookDomain => "webhook_domain"
    case PrivateKey => "private_key"
    case ReceivedLimit => "received_limit"
    case DeliveredLimit => "delivered_limit"
  }

  /** The required fields, in the order `checkConfig` tests them. */
  const CheckOrder: seq<Field> := [
    ListenAddress, BotToken, TimeoutSeconds, AdminId, DbPath,
    ApiDomain, WebhookDomain, PrivateKey, ReceivedLimit, DeliveredLimit]

  /** Whether a required field is unset: an empty string, or zero for a number. */
  predicate IsUnset(cfg: Config, f: Field) {
    match f
    case ListenAddress => cfg.listenAddress == ""
    case BotToken => cfg.botToken == ""
    case TimeoutSeconds => cfg.timeoutSeconds == 0
    case AdminId => cfg.adminId == 0
    case DbPath => cfg.dbPath == ""
    case ApiDomain => cfg.apiDomain == ""
    case WebhookDomain => cfg.webhookDomain == ""
    case PrivateKey => cfg.privateKey == ""
    case ReceivedLimit => cfg.receivedLimit == 0
    case DeliveredLimit => cfg.deliveredLimit == 0
  }

  /** Reference definition: the first field of `fields` at or after position `i` that is unset. */
  function FirstUnset(cfg: Config, fields: seq<Field>, i: nat): (r: Option<Field>)
    requires i <= |fields|
    decreases |fields| - i
  {
    if i == |fields| then None
    else if IsUnset(cfg, fields[i]) then Some(fields[i])
    else FirstUnset(cfg, fields, i + 1)
  }

  /** FirstUnset finds an unset field with every field before it set, or reports that all are set. */
  lemma {:induction false} FirstUnsetMeaning(cfg: Config, fields: seq<Field>, i: nat)
    requires i <= |fields|
    ensures FirstUnset(cfg, fields, i).None? <==> forall j :: i <= j < |fields| ==> !IsUnset(cfg, fields[j])
    ensures FirstUnset(cfg, fields, i).Some? ==>
              exists j :: i <= j < |fields| && fields[j] == FirstUnset(cfg, fields, i).value
                          && IsUnset(cfg, fields[j])
                          && forall k :: i <= k < j ==> !IsUnset(cfg, fields[k])
    decreases |fields| - i
  {
    if i < |fields| && !IsUnset(cfg, fields[i]) {
      FirstUnsetMeaning(cfg, fields, i + 1);
    }
  }

  /** The error text for an unset field: "configure " followed by its JSON name. */
  function Message(f: Field): string {
    "configure " + JsonName(f)
  }

  /** `checkConfig`: None for "no error", otherwise the message of the first failing check. */
  function CheckConfig(cfg: Config): (err: Option<string>)
    ensures err.None? ==> forall f :: !IsUnset(cfg, f)
    ensures err.Some? ==> exists f :: IsUnset(cfg, f) && err.value == Message(f)
  {
    if cfg.listenAddress == "" then Some(Message(ListenAddress))
    else if cfg.botToken == "" then Some(Message(BotToken))
    else if cfg.timeoutSeconds == 0 then Some(Message(TimeoutSeconds))
    else if cfg.adminId == 0 then Some(Message(AdminId))
    else if cfg.dbPath == "" then Some(Message(DbPath))
    else if cfg.apiDomain == "" then Some(Message(ApiDomain))
    else if cfg.webhookDomain == "" then Some(Message(WebhookDomain))
    else if cfg.privateKey == "" then Some(Message(PrivateKey))
    else if cfg.receivedLimit == 0 then Some(Message(ReceivedLimit))
    else if cfg.deliveredLimit == 0 then Some(Message(DeliveredLimit))
    else None
  }

  /**
   * `checkConfig` agrees with the reference: no error iff every required field is set,
   * and otherwise the message names the first unset field in check order.
   */
  lemma CheckConfigNamesFirstUnset(cfg: Config)
    ensures CheckConfig(cfg) == match FirstUnset(cfg, CheckOrder, 0)
                                case None => None
                                case Some(f) => Some(Message(f))
  {
    // Each position of the check order is one step of the search; the ten steps chain.
    assert CheckOrder[0] == ListenAddress && CheckOrder[1] == BotToken && CheckOrder[2] == TimeoutSeconds;
    assert CheckOrder[3] == AdminId && CheckOrder[4] == DbPath && CheckOrder[5] == ApiDomain;
    assert CheckOrder[6] == WebhookDomain && CheckOrder[7] == PrivateKey && CheckOrder[8] == ReceivedLimit;
    assert CheckOrder[9] == DeliveredLimit && |CheckOrder| == 10;
    forall i | 0 <= i < |CheckOrder|
      ensures FirstUnset(cfg, CheckOrder, i)
              == if IsUnset(cfg, CheckOrder[i]) then Some(CheckOrder[i]) else FirstUnset(cfg, CheckOrder, i + 1)
    {
      FirstUnsetStep(cfg, CheckOrder, i);
    }
  }

  /** The configuration is accepted exactly when none of the ten required fields is unset. */
  lemma CheckConfigAcceptsIffAllSet(cfg: Config)
    ensures CheckConfig(cfg).None? <==> forall f: Field :: !IsUnset(cfg, f)
  {
    CheckConfigNamesFirstUnset(cfg);
    FirstUnsetMeaning(cfg, CheckOrder, 0);
    forall f: Field ensures f in CheckOrder {
      match f
      case ListenAddress => assert CheckOrder[0] == f;
      case BotToken => assert CheckOrder[1] == f;
      case TimeoutSeconds => assert CheckOrder[2] == f;
      case AdminId => assert CheckOrder[3] == f;
      case DbPath => assert CheckOrder[4] == f;
      case ApiDomain => assert CheckOrder[5] == f;
      case WebhookDomain => assert CheckOrder[6] == f;
      case PrivateKey => assert CheckOrder[7] == f;
      case ReceivedLimit => assert CheckOrder[8] == f;
      case DeliveredLimit => assert CheckOrder[9] == f;
    }
  }

  lemma FirstUnsetStep(cfg: Config, fields: seq<Field>, i: nat)
    requires i < |fields|
    ensures FirstUnset(cfg, fields, i) == if IsUnset(cfg, fields[i]) then Some(fields[i]) else FirstUnset(cfg, fields, i + 1)
  {
  }

  /** `debug` and `challenges` are never required, and a negative number is as good as a positive one. */
  lemma CheckConfigOptionalFields(cfg: Config, debug: bool, challenges: map<string, string>)
    requires cfg.timeoutSeconds < 0 && cfg.receivedLimit < 0 && cfg.deliveredLimit < 0
    requires cfg.adminId != 0
    requires cfg.listenAddress != "" && cfg.botToken != "" && cfg.dbPath != ""
    requires cfg.apiDomain != "" && cfg.webhookDomain != "" && cfg.privateKey != ""
    ensures CheckConfig(cfg.(debug := debug, challenges := challenges)) == None
  {
  }

  /** An `ADMIN_ID` that is not a number becomes 0, which the check then rejects. */
  lemma BadAdminIdRejected(cfg: Config, env: Env)
    requires "ADMIN_ID" in env && ParseInt(env["ADMIN_ID"]).SyntaxError?
    requires cfg.listenAddress != "" && cfg.timeoutSeconds != 0
    requires ParseEnv(cfg, env).botToken != ""
    ensures CheckConfig(ParseEnv(cfg, env)) == Some(Message(AdminId))
  {
  }

  /** What `json.Decoder.Decode` left in the config, and whether it reported an error. */
  datatype Decoded = Decoded(cfg: Config, ok: bool)

  /** Why `parseConfig` panics. */
  datatype ConfigError = DecodeFailed | Invalid(message: string) | BadPrivateKey

  /**
   * `parseConfig`: decode, then apply the environment, then fail on a decode error, then
   * run `checkConfig`, then parse the private key file (`keyParses` is that oracle).
   */
  function ParseConfig(decoded: Decoded, env: Env, keyParses: string -> bool): (r: Result<Config, ConfigError>)
    ensures r.Ok? <==> decoded.ok && CheckConfig(ParseEnv(decoded.cfg, env)).None?
                       && keyParses(ParseEnv(decoded.cfg, env).privateKey)
    ensures r.Ok? ==> r.value == ParseEnv(decoded.cfg, env)
    ensures !decoded.ok ==> r == Err(DecodeFailed)
    ensures decoded.ok && CheckConfig(ParseEnv(decoded.cfg, env)).Some? ==>
              r == Err(Invalid(CheckConfig(ParseEnv(decoded.cfg, env)).value))
  {
    var cfg := ParseEnv(decoded.cfg, env);
    if !decoded.ok then Err(DecodeFailed)
    else match CheckConfig(cfg)
      case Some(message) => Err(Invalid(message))
      case None => if keyParses(cfg.privateKey) then Ok(cfg) else Err(BadPrivateKey)
  }

  /** The environment can supply what the file lacks: a file without bot token and domains still loads. */
  lemma EnvSuppliesMissingFields(cfg: Config, token: string, domain: string, keyParses: string -> bool)
    requires cfg.botToken == "" && cfg.apiDomain == "" && cfg.webhookDomain == ""
    requires token != "" && domain != ""
    requires cfg.listenAddress != "" && cfg.timeoutSeconds != 0 && cfg.adminId != 0
    requires cfg.dbPath != "" && cfg.privateKey != "" && cfg.receivedLimit != 0 && cfg.deliveredLimit != 0
    requires keyParses(cfg.privateKey)
    ensures CheckConfig(cfg).Some?
    ensures ParseConfig(Decoded(cfg, true), map["BOT_TOKEN" := token, "DOMAIN" := domain], keyParses).Ok?
  {
  }
}
