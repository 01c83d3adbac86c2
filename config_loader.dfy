/** The configuration loader (config/config_loader.py): JSON configuration files under a
    directory, with a cache by name in front of them and built-in defaults behind them.

    `parse` is json.load on a file's text (None when it raises) and `dump` is json.dump. */
module ConfigLoader {
  import opened Wrappers
  import opened Json
  import opened Platform

  // ------------------------------------------------------------ config/plugin_settings.py

  const CtaStrategySettings: Value := Obj(map[
    "template_path" := Str("strategies/templates/"),
    "strategy_path" := Str("strategies/"),
    "log_level" := Str("INFO"),
    "risk_check" := Bool(true),
    "max_position" := Int(10),
    "max_order_size" := Int(100)
  ])

  const DataManagerSettings: Value := Obj(map[
    "data_path" := Str("data/"),
    "auto_update" := Bool(true),
    "update_interval" := Int(3600),
    "data_sources" := Arr([Str("simnow"), Str("tushare")]),
    "symbols" := Arr([Str("rb2501"), Str("hc2501"), Str("i2501")])
  ])

  const BacktestSettings: Value := Obj(map[
    "start_date" := Str("2024-01-01"),
    "end_date" := Str("2024-12-31"),
    "initial_capital" := Int(1000000),
    "commission_rate" := Float(0.0001),
    "slippage" := Int(1),
    "size_multiplier" := Int(10)
  ])

  const MysqlSettings: Value := Obj(map[
    "host" := Str("localhost"),
    "port" := Int(3306),
    "database" := Str("vnpy_data"),
    "user" := Str("vnpy_user"),
    "password" := Str("vnpy_password"),
    "charset" := Str("utf8mb4"),
    "pool_size" := Int(10),
    "pool_recycle" := Int(3600)
  ])

  /** CURRENT_CTP_SETTINGS, the SimNow 7x24 entry of CTP_SETTINGS. */
  const CurrentCtpSettings: Value := Obj(map[
    "用户名" := Str("your_simnow_account"),
    "密码" := Str("your_simnow_password"),
    "经纪商代码" := Str("9999"),
    "交易服务器" := Str("180.168.146.187:10130"),
    "行情服务器" := Str("180.168.146.187:10131"),
    "产品名称" := Str("simnow_client_test"),
    "授权编码" := Str("0000000000000000"),
    "产品信息" := Str("")
  ])

  /** The names that have built-in defaults. */
  const DefaultNames: set<string> := {"cta_strategy", "data_manager", "backtest", "mysql", "ctp"}

  /** _get_default_config: the plugin settings of the five known names, {} for any other. */
  function DefaultConfig(name: string): (c: Value)
    ensures c.Obj?
    ensures c == Obj(map[]) <==> name !in DefaultNames
  {
    if name == "cta_strategy" then assert "log_level" in CtaStrategySettings.fields; CtaStrategySettings
    else if name == "data_manager" then assert "data_path" in DataManagerSettings.fields; DataManagerSettings
    else if name == "backtest" then assert "slippage" in BacktestSettings.fields; BacktestSettings
    else if name == "mysql" then assert "host" in MysqlSettings.fields; MysqlSettings
    else if name == "ctp" then assert "密码" in CurrentCtpSettings.fields; CurrentCtpSettings
    else Obj(map[])
  }

  /** The file of a configuration: os.path.join(config_dir, f"{name}.json"). */
  function ConfigFile(configDir: string, name: string): string {
    Join(configDir, name + ".json")
  }

  class ConfigLoader {
    const configDir: string
    /** _configs: the configurations loaded or saved so far, by name. */
    var configs: map<string, Value>

    constructor (configDir: string)
      ensures this.configDir == configDir && configs == map[]
    {
      this.configDir := configDir;
      configs := map[];
    }

    /** load_config: the cached configuration when there is one, without looking at the
        file; else the parsed file, which is then cached; else the default, uncached. A
        file that is not JSON makes json.load raise. */
    method LoadConfig(name: string, fs: FileStore, parse: string -> Option<Value>) returns (r: Result<Value>)
      modifies this
      ensures name in old(configs) ==> r == Ok(old(configs)[name]) && configs == old(configs)
      ensures name !in old(configs) && ConfigFile(configDir, name) in fs.files ==>
                if parse(fs.files[ConfigFile(configDir, name)]).Some? then
                  r == Ok(parse(fs.files[ConfigFile(configDir, name)]).value) && configs == old(configs)[name := r.value]
                else
                  r == Err(DecodeError) && configs == old(configs)
      ensures name !in old(configs) && ConfigFile(configDir, name) !in fs.files ==>
                r == Ok(DefaultConfig(name)) && configs == old(configs)
    {
      if name in configs {
        return Ok(configs[name]);
      }
      var configFile := ConfigFile(configDir, name);
      if configFile in fs.files {
        var config := parse(fs.files[configFile]);
        if config.None? {
          return Err(DecodeError);
        }
        configs := configs[name := config.value];
        return Ok(config.value);
      }
      return Ok(DefaultConfig(name));
    }

    /** save_config: writes the configuration and caches it; when the file cannot be
        written, open() raises before the cache is touched. */
    method SaveConfig(name: string, config: Value, fs: FileStore, dump: Value -> string) returns (r: Result<()>)
      modifies this, fs
      ensures r.Ok? <==> ConfigFile(configDir, name) !in old(fs.readOnly)
      ensures r.Err? ==> r.error == OSError && configs == old(configs) && fs.files == old(fs.files)
      ensures r.Ok? ==> configs == old(configs)[name := config]
                        && fs.files == old(fs.files)[ConfigFile(configDir, name) := dump(config)]
      ensures fs.readOnly == old(fs.readOnly)
    {
      var configFile := ConfigFile(configDir, name);
      var written := fs.Write(configFile, dump(config));
      if !written {
        return Err(OSError);
      }
      configs := configs[name := config];
      return Ok(());
    }

    /** A load_config after a successful save_config of the same name returns what was
        saved, whatever the file holds. */
    method SaveThenLoad(name: string, config: Value, fs: FileStore, parse: string -> Option<Value>,
                        dump: Value -> string)
      returns (saved: Result<()>, loaded: Result<Value>)
      modifies this, fs
      ensures saved.Ok? ==> loaded == Ok(config)
    {
      saved := SaveConfig(name, config, fs, dump);
      loaded := LoadConfig(name, fs, parse);
    }
  }
}
