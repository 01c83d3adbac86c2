/** config/alert_config.py: the Feishu and DingTalk channel settings read from the
    environment when the module is imported, and the fixed alert policy. */
module AlertConfig {
  import opened Platform
  import opened EnvFile

  /** FEISHU_CONFIG and DINGTALK_CONFIG. Both maps are empty as shipped. */
  datatype ChannelConfig = ChannelConfig(
    defaultWebhook: string,
    defaultSecret: string,
    symbolWebhookMap: map<string, string>,
    webhookSecretMap: map<string, string>)

  datatype TimeRestrictions = TimeRestrictions(enabled: bool, weekendSilence: bool, silenceStartHour: int)

  datatype MessageFormat = MessageFormat(includeTimestamp: bool, includeSymbol: bool, maxLength: int)

  /** ALERT_CONFIG. */
  datatype AlertSettings = AlertSettings(
    enabledTypes: seq<string>,
    defaultType: string,
    alertLevels: map<string, bool>,
    timeRestrictions: TimeRestrictions,
    messageFormat: MessageFormat)

  /** What get_alert_config returns. */
  datatype Config = Config(feishu: ChannelConfig, dingtalk: ChannelConfig, alert: AlertSettings)

  const Alert: AlertSettings := AlertSettings(
    ["feishu"],
    "feishu",
    map["ERROR" := true, "CRITICAL" := true, "WARNING" := false, "SUCCESS" := false],
    TimeRestrictions(true, true, 3),
    MessageFormat(true, true, 1000))

  /** A channel's settings: <prefix>_DEFAULT_WEBHOOK and <prefix>_DEFAULT_SECRET from the
      environment, "" when unset, and no per-symbol routing. */
  function ChannelFromEnv(vars: map<string, string>, prefix: string): (c: ChannelConfig)
    ensures c.defaultWebhook == if prefix + "_DEFAULT_WEBHOOK" in vars then vars[prefix + "_DEFAULT_WEBHOOK"] else ""
    ensures c.defaultSecret == if prefix + "_DEFAULT_SECRET" in vars then vars[prefix + "_DEFAULT_SECRET"] else ""
    ensures c.symbolWebhookMap == map[] && c.webhookSecretMap == map[]
  {
    ChannelConfig(GetEnv(vars, prefix + "_DEFAULT_WEBHOOK", ""), GetEnv(vars, prefix + "_DEFAULT_SECRET", ""), map[], map[])
  }

  /** is_alert_enabled: only Feishu is among the enabled types. */
  function IsAlertEnabled(alertType: string): (b: bool)
    ensures b <==> alertType == "feishu"
  {
    alertType in Alert.enabledTypes
  }

  /** should_alert_for_level: ERROR and CRITICAL are sent; WARNING, SUCCESS and every
      level not listed are not. */
  function ShouldAlertForLevel(level: string): (b: bool)
    ensures b <==> level == "ERROR" || level == "CRITICAL"
  {
    if level in Alert.alertLevels then Alert.alertLevels[level] else false
  }

  /** The default type is one of the enabled types. */
  lemma DefaultTypeEnabled()
    ensures IsAlertEnabled(Alert.defaultType)
  {
  }

  /** A .env line that sets <prefix>_DEFAULT_WEBHOOK, with no later line setting it again
      and no line up to it raising, decides the channel's default webhook. */
  lemma WebhookFromEnvFile(vars: map<string, string>, ps: seq<EnvLine>, j: nat, prefix: string)
    requires j < |ps| && ps[j].Assign? && ps[j].key == prefix + "_DEFAULT_WEBHOOK"
    requires forall i :: 0 <= i <= j ==> !Raises(ps[i])
    requires forall i :: j < i < |ps| ==> !Assigns(ps[i], ps[j].key)
    ensures ChannelFromEnv(Applied(vars, ps), prefix).defaultWebhook == ps[j].value
  {
    AppliedLast(vars, ps, j);
  }

  /** The module's state once imported: load_env_file has run, then the two channel
      dicts were read from the environment. */
  class AlertConfigModule {
    const feishu: ChannelConfig
    const dingtalk: ChannelConfig

    /** Importing the module reads .env into the environment first. */
    constructor (fs: FileStore, env: Environment)
      modifies env
      ensures ".env" !in fs.files ==> env.vars == old(env.vars)
      ensures ".env" in fs.files ==> env.vars == Applied(old(env.vars), ParseLines(Lines(fs.files[".env"])))
      ensures feishu == ChannelFromEnv(env.vars, "FEISHU")
      ensures dingtalk == ChannelFromEnv(env.vars, "DINGTALK")
    {
      LoadEnvFile(".env", fs, env);
      feishu := ChannelFromEnv(env.vars, "FEISHU");
      dingtalk := ChannelFromEnv(env.vars, "DINGTALK");
    }

    /** get_alert_config: the three dicts under the keys feishu, dingtalk and alert. */
    function GetAlertConfig(): (c: Config)
      ensures c.alert == Alert && c.feishu == feishu && c.dingtalk == dingtalk
    {
      Config(feishu, dingtalk, Alert)
    }
  }
}
