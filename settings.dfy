/** config/settings.py: the VeighNa settings that ATMQuant builds from the process
    environment after loading the .env file into it. */
module Settings {
  import opened Wrappers
  import opened Json
  import opened Platform
  import opened EnvFile
  import opened Decimal
  import Text

  /** The keys of the settings dict. */
  const SettingsKeys: set<string> := {
    "font.family", "font.size", "log.active", "log.level", "log.console", "log.file",
    "email.server", "email.port", "email.username", "email.password", "email.sender",
    "email.receiver", "datafeed.name", "datafeed.username", "datafeed.password",
    "database.timezone", "database.name", "database.database", "database.host",
    "database.port", "database.user", "database.password"
  }

  /** int(os.getenv(name, "0")). */
  function Port(vars: map<string, string>, name: string): Result<int> {
    ParseInt(GetEnv(vars, name, "0"))
  }

  /** What the dict literal reads with os.getenv, each variable's value or its default. */
  datatype EnvReads = EnvReads(
    emailServer: string, emailUsername: string, emailPassword: string, emailSender: string,
    emailReceiver: string, datafeedName: string, datafeedUsername: string,
    datafeedPassword: string, databaseType: string, databaseName: string,
    databaseHost: string, databaseUser: string, databasePassword: string)

  function ReadEnv(vars: map<string, string>): EnvReads {
    EnvReads(
      GetEnv(vars, "EMAIL_SERVER", ""), GetEnv(vars, "EMAIL_USERNAME", ""),
      GetEnv(vars, "EMAIL_PASSWORD", ""), GetEnv(vars, "EMAIL_SENDER", ""),
      GetEnv(vars, "EMAIL_RECEIVER", ""), GetEnv(vars, "DATAFEED_NAME", ""),
      GetEnv(vars, "DATAFEED_USERNAME", ""), GetEnv(vars, "DATAFEED_PASSWORD", ""),
      GetEnv(vars, "DATABASE_TYPE", "sqlite"), GetEnv(vars, "DATABASE_NAME", "atmquant.db"),
      GetEnv(vars, "DATABASE_HOST", ""), GetEnv(vars, "DATABASE_USER", ""),
      GetEnv(vars, "DATABASE_PASSWORD", ""))
  }

  /** The settings dict literal, given what it reads from the environment, the local time
      zone's name and the two parsed ports. logging.INFO is 20. */
  function SettingsWith(r: EnvReads, timezone: string, emailPort: int, databasePort: int): map<string, Value> {
    map[
      "font.family" := Str("微软雅黑"),
      "font.size" := Int(12),
      "log.active" := Bool(true),
      "log.level" := Int(20),
      "log.console" := Bool(true),
      "log.file" := Bool(true),
      "email.server" := Str(r.emailServer),
      "email.port" := Int(emailPort),
      "email.username" := Str(r.emailUsername),
      "email.password" := Str(r.emailPassword),
      "email.sender" := Str(r.emailSender),
      "email.receiver" := Str(r.emailReceiver),
      "datafeed.name" := Str(r.datafeedName),
      "datafeed.username" := Str(r.datafeedUsername),
      "datafeed.password" := Str(r.datafeedPassword),
      "database.timezone" := Str(timezone),
      "database.name" := Str(r.databaseType),
      "database.database" := Str(r.databaseName),
      "database.host" := Str(r.databaseHost),
      "database.port" := Int(databasePort),
      "database.user" := Str(r.databaseUser),
      "database.password" := Str(r.databasePassword)
    ]
  }

  /** The dict that get_atmquant_settings builds once the environment is vars and the
      local time zone is named timezone; int() on a port that is not a number raises. */
  function SettingsFrom(vars: map<string, string>, timezone: string): Result<map<string, Value>> {
    var emailPort := Port(vars, "EMAIL_PORT");
    if emailPort.Err? then Err(emailPort.error)
    else
      var databasePort := Port(vars, "DATABASE_PORT");
      if databasePort.Err? then Err(databasePort.error)
      else
        Ok(SettingsWith(ReadEnv(vars), timezone, emailPort.value, databasePort.value))
  }

  /** The settings fail exactly when a port variable is set to text that int()
      rejects, and otherwise hold the two parsed ports. */
  lemma SettingsFromFails(vars: map<string, string>, timezone: string)
    ensures SettingsFrom(vars, timezone).Err? <==>
      Port(vars, "EMAIL_PORT").Err? || Port(vars, "DATABASE_PORT").Err?
    ensures SettingsFrom(vars, timezone).Ok? ==>
      SettingsFrom(vars, timezone).value
        == SettingsWith(ReadEnv(vars), timezone, Port(vars, "EMAIL_PORT").value, Port(vars, "DATABASE_PORT").value)
  {
  }

  /** The settings dict has exactly the 22 listed keys. */
  lemma SettingsWithKeys(r: EnvReads, timezone: string, emailPort: int, databasePort: int)
    ensures SettingsWith(r, timezone, emailPort, databasePort).Keys == SettingsKeys
  {
  }

  /** The font and log entries do not depend on the environment. */
  lemma SettingsWithFixed(r: EnvReads, timezone: string, emailPort: int, databasePort: int)
    ensures var s := SettingsWith(r, timezone, emailPort, databasePort);
      s["font.family"] == Str("微软雅黑") && s["font.size"] == Int(12) && s["log.active"] == Bool(true)
  {
  }

  /** The database entries: each variable when it is set, else "sqlite", "atmquant.db"
      or ""; the port; the local time zone. */
  lemma SettingsOfEnvDatabase(vars: map<string, string>, timezone: string, emailPort: int, databasePort: int)
    ensures var s := SettingsWith(ReadEnv(vars), timezone, emailPort, databasePort);
      && s["database.name"] == Str(if "DATABASE_TYPE" in vars then vars["DATABASE_TYPE"] else "sqlite")
      && s["database.database"] == Str(if "DATABASE_NAME" in vars then vars["DATABASE_NAME"] else "atmquant.db")
      && s["database.host"] == Str(if "DATABASE_HOST" in vars then vars["DATABASE_HOST"] else "")
      && s["database.user"] == Str(if "DATABASE_USER" in vars then vars["DATABASE_USER"] else "")
      && s["database.port"] == Int(databasePort)
      && s["database.timezone"] == Str(timezone)
  {
  }

  /** The datafeed entries: each variable when it is set, else "". */
  lemma SettingsOfEnvDatafeed(vars: map<string, string>, timezone: string, emailPort: int, databasePort: int)
    ensures var s := SettingsWith(ReadEnv(vars), timezone, emailPort, databasePort);
      && s["datafeed.name"] == Str(if "DATAFEED_NAME" in vars then vars["DATAFEED_NAME"] else "")
      && s["datafeed.username"] == Str(if "DATAFEED_USERNAME" in vars then vars["DATAFEED_USERNAME"] else "")
      && s["datafeed.password"] == Str(if "DATAFEED_PASSWORD" in vars then vars["DATAFEED_PASSWORD"] else "")
  {
  }

  /** The email server entries: each variable when it is set, else ""; the port. */
  lemma SettingsOfEnvEmail(vars: map<string, string>, timezone: string, emailPort: int, databasePort: int)
    ensures var s := SettingsWith(ReadEnv(vars), timezone, emailPort, databasePort);
      && s["email.server"] == Str(if "EMAIL_SERVER" in vars then vars["EMAIL_SERVER"] else "")
      && s["email.port"] == Int(emailPort)
      && s["email.username"] == Str(if "EMAIL_USERNAME" in vars then vars["EMAIL_USERNAME"] else "")
  {
  }

  /** The email address entries: each variable when it is set, else "". */
  lemma SettingsOfEnvAddresses(vars: map<string, string>, timezone: string, emailPort: int, databasePort: int)
    ensures var s := SettingsWith(ReadEnv(vars), timezone, emailPort, databasePort);
      && s["email.sender"] == Str(if "EMAIL_SENDER" in vars then vars["EMAIL_SENDER"] else "")
      && s["email.receiver"] == Str(if "EMAIL_RECEIVER" in vars then vars["EMAIL_RECEIVER"] else "")
  {
  }

  /** A port that is unset reads as 0, and one set to decimal digits reads as their
      value. */
  lemma PortOfDigits(vars: map<string, string>, name: string)
    requires name !in vars || (|vars[name]| > 0 && Text.AllDigits(vars[name]))
    ensures name !in vars ==> Port(vars, name) == Ok(0)
    ensures name in vars ==> Port(vars, name) == Ok(DigitsValue(vars[name]) as int)
  {
    if name in vars {
      ParseIntOfDigits(vars[name]);
    } else {
      ParseIntOfDigits("0");
      assert DigitsValue("0") == 0;
    }
  }

  /** The ports of the environment that the settings test sets up: DATABASE_PORT is
      "5432" and EMAIL_PORT is unset. */
  lemma PortsOfTestEnvironment(vars: map<string, string>)
    requires "EMAIL_PORT" !in vars && "DATABASE_PORT" in vars && vars["DATABASE_PORT"] == "5432"
    ensures Port(vars, "EMAIL_PORT") == Ok(0) && Port(vars, "DATABASE_PORT") == Ok(5432)
  {
    PortOfDigits(vars, "EMAIL_PORT");
    PortOfDigits(vars, "DATABASE_PORT");
    DigitsOf5432();
  }

  lemma DigitsOf5432()
    ensures Text.AllDigits("5432") && DigitsValue("5432") == 5432
  {
    assert "5432"[..3] == "543" && "543"[..2] == "54" && "54"[..1] == "5" && "5"[..0] == "";
  }

  /** With that environment the dict is built and holds port 5432 and email port 0;
      without DATABASE_TYPE the database is "sqlite". */
  lemma SettingsOfTestEnvironment(vars: map<string, string>, timezone: string)
    requires "EMAIL_PORT" !in vars && "DATABASE_PORT" in vars && vars["DATABASE_PORT"] == "5432"
    ensures SettingsFrom(vars, timezone).Ok?
    ensures SettingsFrom(vars, timezone).value["database.port"] == Int(5432)
    ensures SettingsFrom(vars, timezone).value["email.port"] == Int(0)
    ensures "DATABASE_TYPE" !in vars ==> SettingsFrom(vars, timezone).value["database.name"] == Str("sqlite")
  {
    PortsOfTestEnvironment(vars);
    SettingsFromFails(vars, timezone);
    SettingsOfEnvDatabase(vars, timezone, 0, 5432);
    SettingsOfEnvEmail(vars, timezone, 0, 5432);
  }

  /** get_atmquant_settings: loads .env into the environment, then builds the dict from
      it. */
  method GetAtmquantSettings(fs: FileStore, env: Environment, timezone: string)
    returns (r: Result<map<string, Value>>)
    modifies env
    ensures ".env" !in fs.files ==> env.vars == old(env.vars)
    ensures ".env" in fs.files ==> env.vars == Applied(old(env.vars), ParseLines(Lines(fs.files[".env"])))
    ensures r == SettingsFrom(env.vars, timezone)
  {
    LoadEnvFile(".env", fs, env);
    r := SettingsFrom(env.vars, timezone);
  }
}
