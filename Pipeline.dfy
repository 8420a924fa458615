/**
 * The test class itself: its fields, the two loaders that assign them, and
 * setUp, which loads and then runs the path checks in their fixed order.
 * RunTest is one JUnit run: setUp, then workFlowTest if setUp threw nothing.
 */
module Pipeline {
  import opened Wrappers
  import opened JavaLang
  import opened PluginTypes
  import opened Csv
  import opened Configuration
  import opened Validation
  import opened Dispatch

  class PipelineTest {
    var token: Option<string>
    var teamId: string
    var signOption: string
    var appFilePath: string
    var keystoreFilePath: string
    var keystoreAlias: Option<string>
    var keystoreKeyPass: Option<string>
    var keystorePassword: Option<string>
    var certificateFilePath: string
    var certificatePassword: Option<string>
    var fusionSetId: string
    var signFingerprint: string
    var entitlementsPath: seq<StringWarp>
    var mobileProvisionProfilesPath: seq<StringWarp>
    var buildToTest: BuildToTest
    var buildWithLogs: bool
    var googlePlaySign: bool
    var secondOutput: Option<string>

    /** The resolved configuration held by the fields. */
    function Snapshot(): Config
      reads this
    {
      Config(token, teamId, signOption, appFilePath, keystoreFilePath, keystoreAlias, keystoreKeyPass,
             keystorePassword, certificateFilePath, certificatePassword, fusionSetId, signFingerprint,
             entitlementsPath, mobileProvisionProfilesPath, buildToTest, buildWithLogs, googlePlaySign, secondOutput)
    }

    /** JUnit creates the object with every reference field null. */
    constructor ()
      ensures Snapshot() == Unloaded
    {
      token, keystoreAlias, keystoreKeyPass, keystorePassword, certificatePassword := None, None, None, None, None;
      teamId, signOption, appFilePath, keystoreFilePath, certificateFilePath := [], [], [], [], [];
      fusionSetId, signFingerprint := [], [];
      entitlementsPath, mobileProvisionProfilesPath := [], [];
      buildToTest := BuildToTest([]);
      buildWithLogs, googlePlaySign := false, false;
      secondOutput := None;
    }

    /** loadEnvironmentVariables: assigns the five secrets and nothing else. */
    method LoadEnvironmentVariables(env: map<string, string>)
      modifies this`token, this`keystoreAlias, this`keystoreKeyPass, this`keystorePassword, this`certificatePassword
      ensures token == GetEnv(env, "APPDOME_API_TOKEN")
      ensures keystoreAlias == GetEnv(env, "KEYSTORE_ALIAS")
      ensures keystoreKeyPass == GetEnv(env, "KEYSTORE_KEY_PASS")
      ensures keystorePassword == GetEnv(env, "KEYSTORE_PASSWORD")
      ensures certificatePassword == GetEnv(env, "P12_PASSWORD")
    {
      token := GetEnv(env, "APPDOME_API_TOKEN");
      keystoreAlias := GetEnv(env, "KEYSTORE_ALIAS");
      keystoreKeyPass := GetEnv(env, "KEYSTORE_KEY_PASS");
      keystorePassword := GetEnv(env, "KEYSTORE_PASSWORD");
      certificatePassword := GetEnv(env, "P12_PASSWORD");
    }

    /** loadSystemProperties: assigns every other field from the properties,
        with its default; the secrets are left as they are. The assignments
        are split into three steps, in the source's order. */
    method LoadSystemProperties(props: map<string, string>)
      modifies this`teamId, this`signOption, this`appFilePath, this`keystoreFilePath, this`certificateFilePath
      modifies this`fusionSetId, this`signFingerprint, this`entitlementsPath, this`mobileProvisionProfilesPath
      modifies this`buildToTest, this`buildWithLogs, this`googlePlaySign, this`secondOutput
      ensures Snapshot() == WithProperties(old(Snapshot()), props)
    {
      ghost var before := Snapshot();
      LoadPlainSettings(props);
      LoadPathLists(props);
      LoadBuildOptions(props);
      SameFields(Snapshot(), WithProperties(before, props));
    }

    /** The seven plain string settings. */
    method LoadPlainSettings(props: map<string, string>)
      modifies this`teamId, this`signOption, this`appFilePath, this`keystoreFilePath, this`certificateFilePath
      modifies this`fusionSetId, this`signFingerprint
      ensures teamId == GetProperty(props, "teamId", "default-teamId")
      ensures signOption == GetProperty(props, "signOption", "default-signOption")
      ensures appFilePath == GetProperty(props, "appFilePath", "default-appFilePath")
      ensures keystoreFilePath == GetProperty(props, "keystoreFilePath", "default-keystoreFilePath")
      ensures certificateFilePath == GetProperty(props, "certificateFilePath", "default-certificateFilePath")
      ensures fusionSetId == GetProperty(props, "fusionSetId", "default-fusionSetId")
      ensures signFingerprint == GetProperty(props, "signFingerprint", "default-signFingerprint")
    {
      teamId := GetProperty(props, "teamId", "default-teamId");
      signOption := GetProperty(props, "signOption", "default-signOption");
      appFilePath := GetProperty(props, "appFilePath", "default-appFilePath");
      keystoreFilePath := GetProperty(props, "keystoreFilePath", "default-keystoreFilePath");
      certificateFilePath := GetProperty(props, "certificateFilePath", "default-certificateFilePath");
      fusionSetId := GetProperty(props, "fusionSetId", "default-fusionSetId");
      signFingerprint := GetProperty(props, "signFingerprint", "default-signFingerprint");
    }

    /** The two path lists: the property (or "default1,default2") split at commas. */
    method LoadPathLists(props: map<string, string>)
      modifies this`entitlementsPath, this`mobileProvisionProfilesPath
      ensures entitlementsPath == PathListProperty(props, "entitlementsPath")
      ensures mobileProvisionProfilesPath == PathListProperty(props, "mobileProvisionProfilesPath")
    {
      var entitlementsCsv := GetProperty(props, "entitlementsPath", DefaultPathList);
      entitlementsPath := ConvertCsvToListStringWarp(entitlementsCsv);
      PathListPropertyIsLoaderSplit(props, "entitlementsPath");

      var mobileProvisionsCsv := GetProperty(props, "mobileProvisionProfilesPath", DefaultPathList);
      mobileProvisionProfilesPath := ConvertCsvToListStringWarp(mobileProvisionsCsv);
      PathListPropertyIsLoaderSplit(props, "mobileProvisionProfilesPath");
    }

    /** The build target, the two flags (Boolean.parseBoolean, default "false")
        and the second output. */
    method LoadBuildOptions(props: map<string, string>)
      modifies this`buildToTest, this`buildWithLogs, this`googlePlaySign, this`secondOutput
      ensures buildToTest == BuildToTest(GetProperty(props, "buildToTest", "default-buildToTest"))
      ensures buildWithLogs == FlagProperty(props, "buildWithLogs")
      ensures googlePlaySign == FlagProperty(props, "googlePlaySign")
      ensures secondOutput == Some(GetProperty(props, "secondOutput", "default-secondOutput"))
    {
      buildToTest := BuildToTest(GetProperty(props, "buildToTest", "default-buildToTest"));
      buildWithLogs := ParseBoolean(GetProperty(props, "buildWithLogs", "false"));
      FlagPropertyIsLoaderParse(props, "buildWithLogs");
      googlePlaySign := ParseBoolean(GetProperty(props, "googlePlaySign", "false"));
      FlagPropertyIsLoaderParse(props, "googlePlaySign");
      secondOutput := Some(GetProperty(props, "secondOutput", "default-secondOutput"));
    }

    /** The first two steps of setUp: the environment, then the properties. */
    method Load(env: map<string, string>, props: map<string, string>)
      modifies this
      ensures Snapshot() == LoadConfig(env, props)
    {
      LoadEnvironmentVariables(env);
      LoadSystemProperties(props);
    }

    /** setUp: load, then check the app file, the keystore, the certificate,
        the entitlements and the provisioning profiles, stopping at the first
        missing path. */
    method SetUp(env: map<string, string>, props: map<string, string>, fs: set<string>)
      returns (thrown: Option<Throwable>)
      modifies this
      ensures Snapshot() == LoadConfig(env, props)
      ensures thrown == Gate(Snapshot(), fs)
    {
      Load(env, props);
      GateOrder(Snapshot(), fs);

      thrown := CheckFileExists(Some(appFilePath), "App File Path", fs);
      if thrown.Some? { return; }
      thrown := CheckFileExists(Some(keystoreFilePath), "Keystore File Path", fs);
      if thrown.Some? { return; }
      thrown := CheckFileExists(Some(certificateFilePath), "Certificate File Path", fs);
      if thrown.Some? { return; }

      var probed;
      thrown, probed := CheckFilesExist(Some(entitlementsPath), "Entitlements Path", fs);
      if thrown.Some? { return; }
      thrown, probed := CheckFilesExist(Some(mobileProvisionProfilesPath), "Mobile Provision Profiles Path", fs);
    }
  }

  /** One JUnit run of workFlowTest: a fresh test object, setUp, and the
      dispatch only when setUp threw nothing. */
  function TestRun(env: map<string, string>, props: map<string, string>, fs: set<string>,
                   result: CollaboratorResult): (o: Outcome)
    // a collaborator call is made only after every path check passed
    ensures o.call.Some? ==> Gate(LoadConfig(env, props), fs).None?
    // the only Exception that escapes a run is a failed path check, with no call made
    ensures o.thrown.Some? && o.thrown.value.kind == Exception ==>
              o == Outcome(None, Gate(LoadConfig(env, props), fs))
  {
    var c := LoadConfig(env, props);
    match Gate(c, fs)
    case Some(t) => Outcome(None, Some(t))
    case None => WorkFlowTest(c, result)
  }

  method RunTest(env: map<string, string>, props: map<string, string>, fs: set<string>,
                 result: CollaboratorResult) returns (o: Outcome)
    ensures o == TestRun(env, props, fs, result)
  {
    var test := new PipelineTest();
    var thrown := test.SetUp(env, props, fs);
    if thrown.Some? {
      o := Outcome(None, thrown);
    } else {
      o := WorkFlowTest(test.Snapshot(), result);
    }
  }

  /** A validation failure ends the run before dispatch: no call is made and
      the failure is the first missing path in setUp's order. */
  lemma ValidationPrecedesDispatch(env: map<string, string>, props: map<string, string>, fs: set<string>,
                                   result: CollaboratorResult)
    ensures var c := LoadConfig(env, props);
            var o := TestRun(env, props, fs, result);
            (Gate(c, fs).Some? ==> o.call.None? && o.thrown == Gate(c, fs)
                                   && o.thrown.value.kind == Exception)
            && (Gate(c, fs).None? ==> o == WorkFlowTest(c, result))
  {
    var c := LoadConfig(env, props);
    match FirstMissing(GateProbes(c), fs)
    case None =>
    case Some(k) =>
  }
}
