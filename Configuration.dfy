/**
 * The resolved test configuration (loadEnvironmentVariables followed by
 * loadSystemProperties): secrets come from the environment and stay null when
 * absent; every other setting comes from the system properties and falls back
 * to a fixed default when its key is absent.
 */
module Configuration {
  import opened Wrappers
  import opened JavaLang
  import opened PluginTypes
  import opened Csv

  datatype Config = Config(
    token: Option<string>,
    teamId: string,
    signOption: string,
    appFilePath: string,
    keystoreFilePath: string,
    keystoreAlias: Option<string>,
    keystoreKeyPass: Option<string>,
    keystorePassword: Option<string>,
    certificateFilePath: string,
    certificatePassword: Option<string>,
    fusionSetId: string,
    signFingerprint: string,
    entitlementsPath: seq<StringWarp>,
    mobileProvisionProfilesPath: seq<StringWarp>,
    buildToTest: BuildToTest,
    buildWithLogs: bool,
    googlePlaySign: bool,
    secondOutput: Option<string>)

  /** System.getenv(key): null when the variable is not set. */
  function GetEnv(env: map<string, string>, key: string): Option<string> {
    if key in env then Some(env[key]) else None
  }

  /** System.getProperty(key, default). */
  function GetProperty(props: map<string, string>, key: string, default: string): string {
    if key in props then props[key] else default
  }

  /** The default of the two path lists, "default1,default2". */
  const DefaultPathList := "default1" + "," + "default2"

  /** The two paths that DefaultPathList splits into. */
  const DefaultPaths := [StringWarp("default1"), StringWarp("default2")]

  /** A comma-separated list property: the split of the property when it is
      set, the split of DefaultPathList (DefaultPaths) otherwise. This is the
      loader's convertCsvToListStringWarp(getProperty(key, "default1,default2"))
      (PathListPropertyIsLoaderSplit), written with the default already split
      so that reasoning about a configuration never unfolds the split of a literal. */
  function PathListProperty(props: map<string, string>, key: string): seq<StringWarp> {
    if key in props then ConvertCsvToListStringWarp(props[key]) else DefaultPaths
  }

  /** PathListProperty is convertCsvToListStringWarp(getProperty(key, "default1,default2")). */
  lemma PathListPropertyIsLoaderSplit(props: map<string, string>, key: string)
    ensures PathListProperty(props, key) == ConvertCsvToListStringWarp(GetProperty(props, key, DefaultPathList))
  {
    DefaultListSplit();
  }

  /** A boolean property: Boolean.parseBoolean of the property, false when it
      is not set. This is the loader's parseBoolean(getProperty(key, "false"))
      (FlagPropertyIsLoaderParse), written with the default already evaluated. */
  function FlagProperty(props: map<string, string>, key: string): bool {
    key in props && ParseBoolean(props[key])
  }

  /** FlagProperty is Boolean.parseBoolean(getProperty(key, "false")). */
  lemma FlagPropertyIsLoaderParse(props: map<string, string>, key: string)
    ensures FlagProperty(props, key) == ParseBoolean(GetProperty(props, key, "false"))
  {
    assert !ParseBoolean("false");
  }

  /** The configuration before anything is loaded: JUnit leaves every field
      null, modelled here by empty strings, empty lists, false and None. */
  const Unloaded := Config(None, [], [], [], [], None, None, None, [], None, [], [], [], [], BuildToTest([]), false, false, None)

  /** loadEnvironmentVariables: the five secrets, each null when unset; the rest untouched. */
  function WithEnvironment(c: Config, env: map<string, string>): (r: Config)
    // only the five secrets change
    ensures r.(token := c.token, keystoreAlias := c.keystoreAlias, keystoreKeyPass := c.keystoreKeyPass,
               keystorePassword := c.keystorePassword, certificatePassword := c.certificatePassword) == c
    // each secret is null exactly when its variable is unset, and otherwise is its value
    ensures (r.token.Some? <==> "APPDOME_API_TOKEN" in env) && (r.token.Some? ==> r.token.value == env["APPDOME_API_TOKEN"])
    ensures (r.keystoreAlias.Some? <==> "KEYSTORE_ALIAS" in env) && (r.keystoreAlias.Some? ==> r.keystoreAlias.value == env["KEYSTORE_ALIAS"])
    ensures (r.keystoreKeyPass.Some? <==> "KEYSTORE_KEY_PASS" in env) && (r.keystoreKeyPass.Some? ==> r.keystoreKeyPass.value == env["KEYSTORE_KEY_PASS"])
    ensures (r.keystorePassword.Some? <==> "KEYSTORE_PASSWORD" in env) && (r.keystorePassword.Some? ==> r.keystorePassword.value == env["KEYSTORE_PASSWORD"])
    ensures (r.certificatePassword.Some? <==> "P12_PASSWORD" in env) && (r.certificatePassword.Some? ==> r.certificatePassword.value == env["P12_PASSWORD"])
  {
    Config(
      token := GetEnv(env, "APPDOME_API_TOKEN"),
      teamId := c.teamId,
      signOption := c.signOption,
      appFilePath := c.appFilePath,
      keystoreFilePath := c.keystoreFilePath,
      keystoreAlias := GetEnv(env, "KEYSTORE_ALIAS"),
      keystoreKeyPass := GetEnv(env, "KEYSTORE_KEY_PASS"),
      keystorePassword := GetEnv(env, "KEYSTORE_PASSWORD"),
      certificateFilePath := c.certificateFilePath,
      certificatePassword := GetEnv(env, "P12_PASSWORD"),
      fusionSetId := c.fusionSetId,
      signFingerprint := c.signFingerprint,
      entitlementsPath := c.entitlementsPath,
      mobileProvisionProfilesPath := c.mobileProvisionProfilesPath,
      buildToTest := c.buildToTest,
      buildWithLogs := c.buildWithLogs,
      googlePlaySign := c.googlePlaySign,
      secondOutput := c.secondOutput)
  }

  /** loadSystemProperties: every other setting, each with its default; the secrets untouched. */
  function WithProperties(c: Config, props: map<string, string>): (r: Config)
    // the secrets are kept
    ensures r.token == c.token && r.keystoreAlias == c.keystoreAlias && r.keystoreKeyPass == c.keystoreKeyPass
    ensures r.keystorePassword == c.keystorePassword && r.certificatePassword == c.certificatePassword
    // a flag is set only by its property; the second output is never null
    ensures r.buildWithLogs ==> "buildWithLogs" in props
    ensures r.googlePlaySign ==> "googlePlaySign" in props
    ensures r.secondOutput.Some?
  {
    Config(
      token := c.token,
      teamId := GetProperty(props, "teamId", "default-teamId"),
      signOption := GetProperty(props, "signOption", "default-signOption"),
      appFilePath := GetProperty(props, "appFilePath", "default-appFilePath"),
      keystoreFilePath := GetProperty(props, "keystoreFilePath", "default-keystoreFilePath"),
      keystoreAlias := c.keystoreAlias,
      keystoreKeyPass := c.keystoreKeyPass,
      keystorePassword := c.keystorePassword,
      certificateFilePath := GetProperty(props, "certificateFilePath", "default-certificateFilePath"),
      certificatePassword := c.certificatePassword,
      fusionSetId := GetProperty(props, "fusionSetId", "default-fusionSetId"),
      signFingerprint := GetProperty(props, "signFingerprint", "default-signFingerprint"),
      entitlementsPath := PathListProperty(props, "entitlementsPath"),
      mobileProvisionProfilesPath := PathListProperty(props, "mobileProvisionProfilesPath"),
      buildToTest := BuildToTest(GetProperty(props, "buildToTest", "default-buildToTest")),
      buildWithLogs := FlagProperty(props, "buildWithLogs"),
      googlePlaySign := FlagProperty(props, "googlePlaySign"),
      secondOutput := Some(GetProperty(props, "secondOutput", "default-secondOutput")))
  }

  /** Two configurations that agree on every field are equal. The loaders
      close their proofs with it: comparing field by field is much cheaper for
      the verifier than comparing two whole records at once. */
  lemma SameFields(a: Config, b: Config)
    requires a.token == b.token && a.teamId == b.teamId && a.signOption == b.signOption
    requires a.appFilePath == b.appFilePath && a.keystoreFilePath == b.keystoreFilePath
    requires a.keystoreAlias == b.keystoreAlias && a.keystoreKeyPass == b.keystoreKeyPass
    requires a.keystorePassword == b.keystorePassword && a.certificateFilePath == b.certificateFilePath
    requires a.certificatePassword == b.certificatePassword && a.fusionSetId == b.fusionSetId
    requires a.signFingerprint == b.signFingerprint && a.entitlementsPath == b.entitlementsPath
    requires a.mobileProvisionProfilesPath == b.mobileProvisionProfilesPath && a.buildToTest == b.buildToTest
    requires a.buildWithLogs == b.buildWithLogs && a.googlePlaySign == b.googlePlaySign
    requires a.secondOutput == b.secondOutput
    ensures a == b
  {
  }

  /** The configuration setUp resolves: environment first, then properties. */
  function LoadConfig(env: map<string, string>, props: map<string, string>): (c: Config)
    // secrets: passed through, null when absent
    ensures c.token == GetEnv(env, "APPDOME_API_TOKEN")
    ensures c.keystoreAlias == GetEnv(env, "KEYSTORE_ALIAS")
    ensures c.keystoreKeyPass == GetEnv(env, "KEYSTORE_KEY_PASS")
    ensures c.keystorePassword == GetEnv(env, "KEYSTORE_PASSWORD")
    ensures c.certificatePassword == GetEnv(env, "P12_PASSWORD")
    // plain settings: the property when present, otherwise the listed default
    ensures c.teamId == if "teamId" in props then props["teamId"] else "default-teamId"
    ensures c.signOption == if "signOption" in props then props["signOption"] else "default-signOption"
    ensures c.appFilePath == if "appFilePath" in props then props["appFilePath"] else "default-appFilePath"
    ensures c.keystoreFilePath == if "keystoreFilePath" in props then props["keystoreFilePath"] else "default-keystoreFilePath"
    ensures c.certificateFilePath == if "certificateFilePath" in props then props["certificateFilePath"] else "default-certificateFilePath"
    ensures c.fusionSetId == if "fusionSetId" in props then props["fusionSetId"] else "default-fusionSetId"
    ensures c.signFingerprint == if "signFingerprint" in props then props["signFingerprint"] else "default-signFingerprint"
    ensures c.buildToTest.selectedVendor == if "buildToTest" in props then props["buildToTest"] else "default-buildToTest"
    // path lists: the segments of the property, or the two default paths
    ensures "entitlementsPath" in props ==> Items(c.entitlementsPath) == Split(props["entitlementsPath"])
    ensures "entitlementsPath" !in props ==> c.entitlementsPath == DefaultPaths
    ensures "mobileProvisionProfilesPath" in props ==> Items(c.mobileProvisionProfilesPath) == Split(props["mobileProvisionProfilesPath"])
    ensures "mobileProvisionProfilesPath" !in props ==> c.mobileProvisionProfilesPath == DefaultPaths
    // flags: true exactly when the property is "true" up to case; false by default
    ensures c.buildWithLogs <==> "buildWithLogs" in props && EqualsIgnoreCase(props["buildWithLogs"], "true")
    ensures c.googlePlaySign <==> "googlePlaySign" in props && EqualsIgnoreCase(props["googlePlaySign"], "true")
    // the second output is never null
    ensures c.secondOutput == Some(if "secondOutput" in props then props["secondOutput"] else "default-secondOutput")
  {
    WithProperties(WithEnvironment(Unloaded, env), props)
  }
}
