/** The data pipeline's configuration: a JSON settings file whose entries the environment
    overrides for the required keys, a missing-key error naming exactly the keys still
    absent, and the merge of the generic and custom settings. */
module ConfigurationGetters {
  import opened Wrappers

  /** Generic settings, not meant to be set by the administrator. */
  const GenericConfigComponents: seq<string> := ["ami_name", "ecr_repo_name", "instance_profile", "comp_env_name",
    "comp_env_role", "queue_name", "job_defn_name", "job_name", "access_key_ssm_name", "secret_key_ssm_name",
    "security_group"]

  /** Custom settings, which the administrator must set. */
  const CustomConfigComponents: seq<string> := ["pipeline_region", "server_url"]

  /** How reading a settings file ends: the file cannot be opened (IOError), its text is not
      JSON (ValueError from the decoder), or it holds a JSON object. */
  datatype FileRead = Unreadable | Malformed | Parsed(settings: map<string, string>)

  /** The two ways reading the configuration fails. */
  datatype ConfigError = NotConfigured(missing: seq<string>) | DecodeError

  /** _load_json_file, with the IOError turned into an empty configuration by its caller. */
  function LoadedSettings(file: FileRead): (r: Result<map<string, string>, ConfigError>)
    ensures file.Unreadable? ==> r == Ok(map[])
    ensures file.Malformed? ==> r == Err(DecodeError)
    ensures file.Parsed? ==> r == Ok(file.settings)
  {
    match file
    case Unreadable => Ok(map[])
    case Malformed => Err(DecodeError)
    case Parsed(settings) => Ok(settings)
  }

  /** The settings after the environment overrode the keys of `configList`. */
  function Overridden(data: map<string, string>, configList: seq<string>, environ: map<string, string>): (r: map<string, string>)
    ensures data.Keys <= r.Keys <= data.Keys + set k | k in configList
  {
    if |configList| == 0 then data
    else
      var setting := configList[|configList| - 1];
      var before := Overridden(data, configList[..|configList| - 1], environ);
      if setting in environ then before[setting := environ[setting]] else before
  }

  /** The environment wins for every listed key it sets; no other environment variable is
      added, and every other key keeps the file's value. */
  lemma {:induction false} OverriddenValues(data: map<string, string>, configList: seq<string>, environ: map<string, string>, k: string)
    ensures k in Overridden(data, configList, environ) <==> k in data || (k in configList && k in environ)
    ensures k in configList && k in environ ==> Overridden(data, configList, environ)[k] == environ[k]
    ensures (k !in configList || k !in environ) && k in data ==> Overridden(data, configList, environ)[k] == data[k]
    decreases |configList|
  {
    if |configList| > 0 {
      var init := configList[..|configList| - 1];
      OverriddenValues(data, init, environ, k);
      assert configList == init + [configList[|configList| - 1]];
    }
  }

  /** The value a listed key ends up with: the environment's, else the file's. */
  function Setting(file: FileRead, environ: map<string, string>, key: string): (r: Option<string>)
    ensures file.Parsed? ==> (r.Some? <==> key in Overridden(file.settings, [key], environ))
    ensures file.Parsed? && r.Some? ==> r.value == Overridden(file.settings, [key], environ)[key]
    ensures file.Unreadable? ==> r == (if key in environ then Some(environ[key]) else None)
  {
    OverriddenValues(if file.Parsed? then file.settings else map[], [key], environ, key);
    if key in environ then Some(environ[key])
    else if file.Parsed? && key in file.settings then Some(file.settings[key])
    else None
  }

  /** The listed keys absent from the settings, in list order. */
  function Missing(configList: seq<string>, settings: map<string, string>): (r: seq<string>)
    ensures forall s :: s in r <==> s in configList && s !in settings
    ensures |r| <= |configList|
  {
    if |configList| == 0 then []
    else
      var setting := configList[|configList| - 1];
      var init := configList[..|configList| - 1];
      assert configList == init + [setting];
      Missing(init, settings) + (if setting !in settings then [setting] else [])
  }

  /** The configuration _validate_and_get_configs yields for `configList`: a decode failure,
      the missing listed keys, or the settings after the environment override. */
  function Configs(configList: seq<string>, file: FileRead, environ: map<string, string>): (r: Result<map<string, string>, ConfigError>)
    ensures file.Malformed? ==> r == Err(DecodeError)
    ensures r.Err? && r.error.NotConfigured? ==> |r.error.missing| > 0
    ensures r.Ok? ==> forall s :: s in configList ==> s in r.value
  {
    var loaded := LoadedSettings(file);
    if loaded.Err? then Err(DecodeError)
    else
      var merged := Overridden(loaded.value, configList, environ);
      var missing := Missing(configList, merged);
      if |missing| > 0 then Err(NotConfigured(missing)) else Ok(merged)
  }

  /** What the configuration means key by key: unless the file is malformed it is found
      exactly when every listed key has a setting, each listed key then holds its setting
      (the environment's value, else the file's), and otherwise the error names exactly the
      listed keys with no setting. */
  lemma ConfigsMeaning(configList: seq<string>, file: FileRead, environ: map<string, string>)
    ensures !file.Malformed? ==>
      (Configs(configList, file, environ).Ok? <==> forall s :: s in configList ==> Setting(file, environ, s).Some?)
    ensures Configs(configList, file, environ).Ok? ==>
      forall s :: s in configList ==> Some(Configs(configList, file, environ).value[s]) == Setting(file, environ, s)
    ensures !file.Malformed? && Configs(configList, file, environ).Err? ==>
      Configs(configList, file, environ).error.NotConfigured?
      && forall s :: s in Configs(configList, file, environ).error.missing <==> s in configList && Setting(file, environ, s).None?
  {
    if !file.Malformed? {
      var merged := Overridden(LoadedSettings(file).value, configList, environ);
      forall s | s in configList
        ensures s in merged <==> Setting(file, environ, s).Some?
        ensures s in merged ==> Some(merged[s]) == Setting(file, environ, s)
      {
        OverriddenValues(LoadedSettings(file).value, configList, environ, s);
      }
      var missing := Missing(configList, merged);
      if |missing| > 0 {
        assert missing[0] in configList && Setting(file, environ, missing[0]).None?;
      }
    }
  }

  /** _validate_and_get_configs: the file's settings (none when it cannot be read), then the
      environment's value for each listed key it sets; an error names every listed key that
      is still missing. */
  method ValidateAndGetConfigs(configList: seq<string>, file: FileRead, environ: map<string, string>)
    returns (r: Result<map<string, string>, ConfigError>)
    ensures r == Configs(configList, file, environ)
    ensures LoadedSettings(file).Err? ==> r == Err(DecodeError)
    ensures LoadedSettings(file).Ok? ==>
      var merged := Overridden(LoadedSettings(file).value, configList, environ);
      (|Missing(configList, merged)| > 0 ==> r == Err(NotConfigured(Missing(configList, merged))))
      && (|Missing(configList, merged)| == 0 ==> r == Ok(merged))
    ensures r.Ok? ==> forall s :: s in configList ==> s in r.value
  {
    var loaded := LoadedSettings(file);
    if loaded.Err? {
      return Err(DecodeError);
    }
    var configData := OverrideFromEnvironment(loaded.value, configList, environ);
    var missingConfigs := Missing(configList, configData);
    if |missingConfigs| > 0 {
      return Err(NotConfigured(missingConfigs));
    }
    r := Ok(configData);
  }

  /** The override loop of _validate_and_get_configs: each listed key the environment sets
      takes the environment's value. */
  method OverrideFromEnvironment(data: map<string, string>, configList: seq<string>, environ: map<string, string>)
    returns (configData: map<string, string>)
    ensures configData == Overridden(data, configList, environ)
  {
    configData := data;
    var i := 0;
    while i < |configList|
      invariant 0 <= i <= |configList|
      invariant configData == Overridden(data, configList[..i], environ)
    {
      assert configList[..i + 1][..i] == configList[..i];
      var setting := configList[i];
      if setting in environ {
        configData := configData[setting := environ[setting]];
      }
      i := i + 1;
    }
    assert configList[..|configList|] == configList;
  }

  /** get_generic_config. */
  method GetGenericConfig(file: FileRead, environ: map<string, string>) returns (r: Result<map<string, string>, ConfigError>)
    ensures r == Configs(GenericConfigComponents, file, environ)
    ensures r.Ok? ==> forall s :: s in GenericConfigComponents ==> s in r.value
    ensures r.Ok? ==> forall k :: k in r.value ==> k in GenericConfigComponents || (file.Parsed? && k in file.settings)
    ensures file.Malformed? ==> r == Err(DecodeError)
  {
    r := ValidateAndGetConfigs(GenericConfigComponents, file, environ);
    if r.Ok? {
      forall k | k in r.value
        ensures k in GenericConfigComponents || (file.Parsed? && k in file.settings)
      {
        OverriddenValues(LoadedSettings(file).value, GenericConfigComponents, environ, k);
      }
    }
  }

  /** The custom configuration with "pipeline_region" renamed "region_name". */
  function CustomConfigs(file: FileRead, environ: map<string, string>): (r: Result<map<string, string>, ConfigError>)
    ensures r.Ok? <==> Configs(CustomConfigComponents, file, environ).Ok?
    ensures r.Err? ==> r == Configs(CustomConfigComponents, file, environ)
    ensures r.Ok? ==> "pipeline_region" !in r.value && "region_name" in r.value
  {
    var base := Configs(CustomConfigComponents, file, environ);
    if base.Err? then base
    else
      assert "pipeline_region" in CustomConfigComponents;
      Ok((base.value - {"pipeline_region"})["region_name" := base.value["pipeline_region"]])
  }

  /** get_custom_config: "pipeline_region" is renamed "region_name". */
  method GetCustomConfig(file: FileRead, environ: map<string, string>) returns (r: Result<map<string, string>, ConfigError>)
    ensures r == CustomConfigs(file, environ)
    ensures file.Malformed? ==> r == Err(DecodeError)
    ensures r.Ok? ==> "pipeline_region" !in r.value && "region_name" in r.value && "server_url" in r.value
    ensures r.Ok? ==> Some(r.value["region_name"]) == Setting(file, environ, "pipeline_region")
    ensures r.Ok? ==> Some(r.value["server_url"]) == Setting(file, environ, "server_url")
  {
    var baseSettings := ValidateAndGetConfigs(CustomConfigComponents, file, environ);
    if baseSettings.Err? {
      return baseSettings;
    }
    var base := baseSettings.value;
    OverriddenValues(LoadedSettings(file).value, CustomConfigComponents, environ, "pipeline_region");
    OverriddenValues(LoadedSettings(file).value, CustomConfigComponents, environ, "server_url");
    var region := base["pipeline_region"];
    r := Ok((base - {"pipeline_region"})["region_name" := region]);
  }

  /** get_aws_object_names: the generic settings updated with the custom ones, so a custom
      value wins for a key both hold; either failure is raised, the generic one first. */
  method GetAwsObjectNames(genericFile: FileRead, customFile: FileRead, environ: map<string, string>)
    returns (r: Result<map<string, string>, ConfigError>)
    ensures var generic := Configs(GenericConfigComponents, genericFile, environ);
      var custom := CustomConfigs(customFile, environ);
      (r.Ok? <==> generic.Ok? && custom.Ok?)
      && (generic.Err? ==> r == generic)
      && (generic.Ok? && custom.Err? ==> r == custom)
      && (r.Ok? ==> r.value.Keys == generic.value.Keys + custom.value.Keys
                    && (forall k :: k in custom.value ==> r.value[k] == custom.value[k])
                    && (forall k :: k in generic.value && k !in custom.value ==> r.value[k] == generic.value[k]))
    ensures genericFile.Malformed? ==> r == Err(DecodeError)
    ensures r.Ok? ==> forall s :: s in GenericConfigComponents ==> s in r.value
    ensures r.Ok? ==> "region_name" in r.value && "server_url" in r.value
    ensures r.Ok? ==> Some(r.value["server_url"]) == Setting(customFile, environ, "server_url")
    ensures r.Ok? ==> Some(r.value["region_name"]) == Setting(customFile, environ, "pipeline_region")
  {
    var settings := GetGenericConfig(genericFile, environ);
    if settings.Err? {
      return settings;
    }
    var custom := GetCustomConfig(customFile, environ);
    if custom.Err? {
      return custom;
    }
    r := Ok(settings.value + custom.value);
  }
}
