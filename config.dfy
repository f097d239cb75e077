/**
 * Configuration loading and validation (config.py). The process environment is an
 * input map; every loader is a pure function of it.
 */
module Config {
  import opened Wrappers
  import opened Text

  /** The process environment after the dotenv file was loaded. */
  type Env = map<string, string>

  /** The exceptions raised while loading: `ConfigError`, or the `ValueError` of a bare `int()`. */
  datatype Failure = ConfigError(message: string) | ValueError(message: string)

  datatype EmailConfig = EmailConfig(email: string, password: string, imapServer: string, imapPort: int)

  datatype TelegramSettings = TelegramSettings(
    apiKey: Option<string>,
    apiUrl: Option<string>,
    channelName: Option<string>,
    channelSecret: Option<string>,
    enabled: bool)

  predicate AllPresent(t: TelegramSettings)
  {
    Truthy(t.apiKey) && Truthy(t.apiUrl) && Truthy(t.channelName) && Truthy(t.channelSecret)
  }

  /** The Telegram settings the loader can build: enabled exactly when all four fields are set. */
  type TelegramConfig = t: TelegramSettings | t.enabled <==> AllPresent(t)
    witness TelegramSettings(None, None, None, None, false)

  datatype AppConfig = AppConfig(
    checkInterval: int,
    minutesToWait: int,
    maxRetryAttempts: int,
    logPath: string,
    gelesenFolder: string)

  datatype Config = Config(email: EmailConfig, telegram: TelegramConfig, app: AppConfig)

  /** `os.getenv(name)`. */
  function Getenv(env: Env, name: string): (r: Option<string>)
    ensures r.Some? <==> name in env
    ensures r.Some? ==> r.value == env[name]
  {
    if name in env then Some(env[name]) else None
  }

  /** `os.getenv(name, default)`. */
  function GetenvOr(env: Env, name: string, default: string): (r: string)
    ensures name !in env ==> r == default
    ensures name in env ==> r == env[name]
  {
    if name in env then env[name] else default
  }

  const MissingEmailMessage := "Missing required email configuration: EMAIL, PASSWORD, or IMAP_SERVER"

  /** `_load_email_config`. */
  function LoadEmailConfig(env: Env): (r: Result<EmailConfig, Failure>)
    ensures r.Ok? <==>
      && Truthy(Getenv(env, "EMAIL")) && Truthy(Getenv(env, "PASSWORD")) && Truthy(Getenv(env, "IMAP_SERVER"))
      && ParseInt(GetenvOr(env, "IMAP_PORT", "993")).Some?
    ensures r.Err? ==> r.error.ConfigError?
    ensures r.Ok? ==>
      && r.value.email == env["EMAIL"] && r.value.password == env["PASSWORD"]
      && r.value.imapServer == env["IMAP_SERVER"]
      && ParseInt(GetenvOr(env, "IMAP_PORT", "993")) == Some(r.value.imapPort)
  {
    var email := Getenv(env, "EMAIL");
    var password := Getenv(env, "PASSWORD");
    var server := Getenv(env, "IMAP_SERVER");
    var portText := GetenvOr(env, "IMAP_PORT", "993");
    if !(Truthy(email) && Truthy(password) && Truthy(server)) then
      Err(ConfigError(MissingEmailMessage))
    else
      match ParseInt(portText)
      case None => Err(ConfigError("Invalid IMAP_PORT: " + portText + ". Must be a valid integer."))
      case Some(port) => Ok(EmailConfig(email.value, password.value, server.value, port))
  }

  /** `_load_telegram_config`. */
  function LoadTelegramConfig(env: Env): (t: TelegramConfig)
    ensures t.apiKey == Getenv(env, "TELEGRAM_API_KEY") && t.apiUrl == Getenv(env, "TELEGRAM_API_URL")
    ensures t.channelName == Getenv(env, "TELEGRAM_CHANNEL_NAME")
    ensures t.channelSecret == Getenv(env, "TELEGRAM_CHANNEL_SECRET")
    ensures t.enabled <==>
      && "TELEGRAM_API_KEY" in env && env["TELEGRAM_API_KEY"] != ""
      && "TELEGRAM_API_URL" in env && env["TELEGRAM_API_URL"] != ""
      && "TELEGRAM_CHANNEL_NAME" in env && env["TELEGRAM_CHANNEL_NAME"] != ""
      && "TELEGRAM_CHANNEL_SECRET" in env && env["TELEGRAM_CHANNEL_SECRET"] != ""
  {
    var s := TelegramSettings(
      Getenv(env, "TELEGRAM_API_KEY"), Getenv(env, "TELEGRAM_API_URL"),
      Getenv(env, "TELEGRAM_CHANNEL_NAME"), Getenv(env, "TELEGRAM_CHANNEL_SECRET"), false);
    s.(enabled := AllPresent(s))
  }

  /** The `ValueError` that a bare `int(text)` raises. */
  function IntError(text: string): Failure
  {
    ValueError("invalid literal for int() with base 10: '" + text + "'")
  }

  /** `_load_app_config`: defaults for unset variables; a malformed number is a `ValueError`, not a `ConfigError`. */
  function LoadAppConfig(env: Env): (r: Result<AppConfig, Failure>)
    ensures r.Err? ==> r.error.ValueError?
    ensures r.Ok? <==>
      && ParseInt(GetenvOr(env, "CHECK_INTERVAL", "3")).Some?
      && ParseInt(GetenvOr(env, "MINUTES_TO_WAIT", "900")).Some?
      && ParseInt(GetenvOr(env, "MAX_RETRY_ATTEMPTS", "3")).Some?
    ensures r.Ok? ==>
      && ParseInt(GetenvOr(env, "CHECK_INTERVAL", "3")) == Some(r.value.checkInterval)
      && ParseInt(GetenvOr(env, "MINUTES_TO_WAIT", "900")) == Some(r.value.minutesToWait)
      && ParseInt(GetenvOr(env, "MAX_RETRY_ATTEMPTS", "3")) == Some(r.value.maxRetryAttempts)
      && r.value.logPath == GetenvOr(env, "LOG_PATH", "netflix-validator.log")
      && r.value.gelesenFolder == GetenvOr(env, "GELESEN_FOLDER", "Gelesen")
  {
    var intervalText := GetenvOr(env, "CHECK_INTERVAL", "3");
    var waitText := GetenvOr(env, "MINUTES_TO_WAIT", "900");
    var retryText := GetenvOr(env, "MAX_RETRY_ATTEMPTS", "3");
    match ParseInt(intervalText)
    case None => Err(IntError(intervalText))
    case Some(interval) =>
      match ParseInt(waitText)
      case None => Err(IntError(waitText))
      case Some(wait) =>
        match ParseInt(retryText)
        case None => Err(IntError(retryText))
        case Some(retries) =>
          Ok(AppConfig(interval, wait, retries,
            GetenvOr(env, "LOG_PATH", "netflix-validator.log"),
            GetenvOr(env, "GELESEN_FOLDER", "Gelesen")))
  }

  /** `load_config`: email settings first, then Telegram, then the application settings. */
  function LoadConfig(env: Env): (r: Result<Config, Failure>)
    ensures LoadEmailConfig(env).Err? ==> r == Err(LoadEmailConfig(env).error)
    ensures LoadEmailConfig(env).Ok? && LoadAppConfig(env).Err? ==> r == Err(LoadAppConfig(env).error)
    ensures r.Ok? <==> LoadEmailConfig(env).Ok? && LoadAppConfig(env).Ok?
    ensures r.Ok? ==> r.value == Config(LoadEmailConfig(env).value, LoadTelegramConfig(env), LoadAppConfig(env).value)
  {
    match LoadEmailConfig(env)
    case Err(e) => Err(e)
    case Ok(email) =>
      var telegram := LoadTelegramConfig(env);
      match LoadAppConfig(env)
      case Err(e) => Err(e)
      case Ok(app) => Ok(Config(email, telegram, app))
  }

  predicate EmailAddressOk(c: Config) { c.email.email != "" && Contains(c.email.email, "@") }
  predicate PortOk(c: Config) { 1 <= c.email.imapPort <= 65535 }
  predicate ApiUrlOk(url: string) { StartsWith(url, "http://") || StartsWith(url, "https://") }

  /** Every condition `validate_config` checks, as one conjunction (order-free). */
  predicate Acceptable(c: Config)
  {
    && EmailAddressOk(c)
    && c.email.password != ""
    && c.email.imapServer != ""
    && PortOk(c)
    && c.app.checkInterval > 0
    && c.app.minutesToWait > 0
    && c.app.maxRetryAttempts > 0
    && (c.telegram.enabled ==> ApiUrlOk(c.telegram.apiUrl.value) && |c.telegram.apiKey.value| >= 10)
  }

  /**
   * `validate_config`: `None` when the configuration passes, otherwise the
   * `ConfigError` of the first check that fails, in the source's order.
   */
  function ValidateConfig(c: Config): (r: Option<Failure>)
    ensures r.None? <==> Acceptable(c)
    ensures r.Some? ==> r.value.ConfigError?
    ensures !EmailAddressOk(c) ==> r == Some(ConfigError("Invalid email address"))
  {
    if !EmailAddressOk(c) then Some(ConfigError("Invalid email address"))
    else if c.email.password == "" then Some(ConfigError("Email password cannot be empty"))
    else if c.email.imapServer == "" then Some(ConfigError("IMAP server cannot be empty"))
    else if !PortOk(c) then Some(ConfigError("Invalid IMAP port: " + Decimal(c.email.imapPort)))
    else if c.app.checkInterval <= 0 then
      Some(ConfigError("Invalid check interval: " + Decimal(c.app.checkInterval)))
    else if c.app.minutesToWait <= 0 then
      Some(ConfigError("Invalid minutes to wait: " + Decimal(c.app.minutesToWait)))
    else if c.app.maxRetryAttempts <= 0 then
      Some(ConfigError("Invalid max retry attempts: " + Decimal(c.app.maxRetryAttempts)))
    else if c.telegram.enabled && !ApiUrlOk(c.telegram.apiUrl.value) then
      Some(ConfigError("Invalid Telegram API URL: " + c.telegram.apiUrl.value))
    else if c.telegram.enabled && |c.telegram.apiKey.value| < 10 then
      Some(ConfigError("Telegram API key appears to be invalid (too short)"))
    else None
  }

  /** With Telegram disabled, the Telegram fields never influence validation. */
  lemma DisabledTelegramIgnored(c: Config, t: TelegramConfig)
    requires !c.telegram.enabled && !t.enabled
    ensures ValidateConfig(c) == ValidateConfig(c.(telegram := t))
  {
  }

  /** The email-address check comes first: a bad address is what is reported, whatever else is wrong. */
  lemma EmailCheckedFirst(c: Config, port: int, interval: int)
    requires !EmailAddressOk(c)
    ensures ValidateConfig(c.(email := c.email.(imapPort := port), app := c.app.(checkInterval := interval)))
      == Some(ConfigError("Invalid email address"))
  {
  }

  /** The port check precedes every application setting check. */
  lemma PortCheckedBeforeAppSettings(c: Config)
    requires EmailAddressOk(c) && c.email.password != "" && c.email.imapServer != "" && !PortOk(c)
    ensures ValidateConfig(c) == Some(ConfigError("Invalid IMAP port: " + Decimal(c.email.imapPort)))
  {
  }

  /** With none of the application variables set, the defaults are 3, 900, 3, "netflix-validator.log" and "Gelesen". */
  lemma AppDefaults(env: Env)
    requires "CHECK_INTERVAL" !in env && "MINUTES_TO_WAIT" !in env && "MAX_RETRY_ATTEMPTS" !in env
    requires "LOG_PATH" !in env && "GELESEN_FOLDER" !in env
    ensures LoadAppConfig(env) == Ok(AppConfig(3, 900, 3, "netflix-validator.log", "Gelesen"))
  {
    ParseDecimal(3);
    ParseDecimal(900);
    assert Decimal(3) == "3";
    assert Decimal(900) == "900";
  }

  /** An unset IMAP_PORT means port 993; a port written in decimal is read back exactly. */
  lemma EmailPortRead(env: Env, port: int)
    requires Truthy(Getenv(env, "EMAIL")) && Truthy(Getenv(env, "PASSWORD")) && Truthy(Getenv(env, "IMAP_SERVER"))
    requires "IMAP_PORT" in env ==> env["IMAP_PORT"] == Decimal(port)
    requires "IMAP_PORT" !in env ==> port == 993
    ensures LoadEmailConfig(env).Ok? && LoadEmailConfig(env).value.imapPort == port
  {
    ParseDecimal(port);
    assert Decimal(993) == "993";
  }

  /** An IMAP_PORT that `int()` rejects is a `ConfigError` naming the offending text. */
  lemma EmailPortMalformed(env: Env)
    requires Truthy(Getenv(env, "EMAIL")) && Truthy(Getenv(env, "PASSWORD")) && Truthy(Getenv(env, "IMAP_SERVER"))
    requires "IMAP_PORT" in env && ParseInt(env["IMAP_PORT"]).None?
    ensures LoadEmailConfig(env) == Err(ConfigError("Invalid IMAP_PORT: " + env["IMAP_PORT"] + ". Must be a valid integer."))
  {
  }

  /** A word such as "imap" is not a port: `int()` rejects it. */
  lemma WordPortRejected()
    ensures ParseInt("imap").None?
  {
    assert StripLeft("imap") == "imap" && StripRight("imap") == "imap";
    assert !DigitGroups("imap");
  }
}
