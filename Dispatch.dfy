/**
 * The workflow dispatcher: workFlowTest classifies the app file by its
 * extension and hands over to performIosTests ("ipa") or performAndroidTests
 * (every other extension); each of those switches on the sign option and makes
 * at most one call into the remote-build test collaborator.
 *
 * A run ends with the call it made (if any) and what it threw (if anything).
 * The collaborator is not modelled: its result is an input.
 */
module Dispatch {
  import opened Wrappers
  import opened JavaLang
  import opened PluginTypes
  import opened Configuration
  import opened Extension

  const SignOnAppdome := "SIGN_ON_APPDOME"
  const PrivateSigning := "PRIVATE_SIGNING"
  const AutoDevSigning := "AUTO_DEV_SIGNING"

  predicate IsKnownSignOption(option: string) {
    option == SignOnAppdome || option == PrivateSigning || option == AutoDevSigning
  }

  /** The arguments every collaborator call starts with. */
  datatype Shared = Shared(token: Option<string>, teamId: string, appFilePath: string, fusionSetId: string)

  /** One call into the collaborator, with the arguments the source passes.
      The iOS calls also pass literal nulls in further slots; those carry no
      configuration value and are not recorded. */
  datatype Invocation =
    | AndroidAutoSign(shared: Shared, keystoreFilePath: string, keystorePassword: Option<string>,
                      keystoreAlias: Option<string>, keystoreKeyPass: Option<string>, signFingerprint: string,
                      secondOutput: Option<StringWarp>, buildToTest: BuildToTest, buildWithLogs: bool)
    | AndroidPrivateSign(shared: Shared, signFingerprint: string, secondOutput: Option<StringWarp>,
                         buildToTest: BuildToTest, buildWithLogs: bool, googlePlaySign: bool)
    | AndroidAutoDevSign(shared: Shared, signFingerprint: string, secondOutput: Option<StringWarp>,
                         buildToTest: BuildToTest, buildWithLogs: bool, googlePlaySign: bool)
    | IosAutoSign(shared: Shared, certificateFilePath: string, certificatePassword: Option<string>,
                  buildToTest: BuildToTest, buildWithLogs: bool)
    | IosPrivateSign(shared: Shared, buildToTest: BuildToTest, buildWithLogs: bool)
    | IosAutoDevSign(shared: Shared, buildToTest: BuildToTest, buildWithLogs: bool)
  {
    predicate IsAndroid() {
      AndroidAutoSign? || AndroidPrivateSign? || AndroidAutoDevSign?
    }

    /** The sign option this call serves. */
    function SignOption(): string {
      match this
      case AndroidAutoSign(_, _, _, _, _, _, _, _, _) => SignOnAppdome
      case IosAutoSign(_, _, _, _, _) => SignOnAppdome
      case AndroidPrivateSign(_, _, _, _, _, _) => PrivateSigning
      case IosPrivateSign(_, _, _) => PrivateSigning
      case AndroidAutoDevSign(_, _, _, _, _, _) => AutoDevSigning
      case IosAutoDevSign(_, _, _) => AutoDevSigning
    }
  }

  /** What the collaborator call does: return normally or throw. */
  datatype CollaboratorResult = Returned | Threw(thrown: Throwable)

  /** How a run ends: the call it made, if any, and what it threw, if anything. */
  datatype Outcome = Outcome(call: Option<Invocation>, thrown: Option<Throwable>)

  const NoOp := Outcome(None, None)

  function SharedArgs(c: Config): Shared {
    Shared(c.token, c.teamId, c.appFilePath, c.fusionSetId)
  }

  /** Makes the call; the run then ends as the collaborator did. */
  function Invoke(call: Invocation, result: CollaboratorResult): Outcome {
    match result
    case Returned => Outcome(Some(call), None)
    case Threw(t) => Outcome(Some(call), Some(t))
  }

  /** The second-output wrapper: built only when secondOutput is not null. */
  function SecondOutputWarp(secondOutput: Option<string>): (w: Option<StringWarp>)
    ensures w.Some? <==> secondOutput.Some?
    ensures w.Some? ==> w.value.item == secondOutput.value
  {
    if secondOutput.Some? then Some(StringWarp(secondOutput.value)) else None
  }

  function PerformAndroidTests(c: Config, extension: string, result: CollaboratorResult): (o: Outcome)
    ensures extension != "aab" ==> o == NoOp
    ensures extension == "aab" && !IsKnownSignOption(c.signOption) ==>
              o == Outcome(None, Some(Failure("Invalid sign option provided: " + c.signOption)))
    ensures o.call.Some? <==> extension == "aab" && IsKnownSignOption(c.signOption)
    ensures o.call.Some? ==> var call := o.call.value;
              call.IsAndroid() && call.SignOption() == c.signOption && call.shared == SharedArgs(c)
              && call.signFingerprint == c.signFingerprint && call.secondOutput == SecondOutputWarp(c.secondOutput)
              && call.buildToTest == c.buildToTest && call.buildWithLogs == c.buildWithLogs
              && o == Invoke(call, result)
    ensures o.call.Some? && !o.call.value.AndroidAutoSign? ==> o.call.value.googlePlaySign == c.googlePlaySign
    ensures o.call.Some? && o.call.value.AndroidAutoSign? ==>
              o.call.value.keystoreFilePath == c.keystoreFilePath && o.call.value.keystorePassword == c.keystorePassword
              && o.call.value.keystoreAlias == c.keystoreAlias && o.call.value.keystoreKeyPass == c.keystoreKeyPass
  {
    if extension == "aab" then
      var secondOutput := SecondOutputWarp(c.secondOutput);
      match c.signOption
      case "SIGN_ON_APPDOME" =>
        Invoke(AndroidAutoSign(SharedArgs(c), c.keystoreFilePath, c.keystorePassword, c.keystoreAlias,
                               c.keystoreKeyPass, c.signFingerprint, secondOutput, c.buildToTest, c.buildWithLogs), result)
      case "PRIVATE_SIGNING" =>
        Invoke(AndroidPrivateSign(SharedArgs(c), c.signFingerprint, secondOutput, c.buildToTest,
                                  c.buildWithLogs, c.googlePlaySign), result)
      case "AUTO_DEV_SIGNING" =>
        Invoke(AndroidAutoDevSign(SharedArgs(c), c.signFingerprint, secondOutput, c.buildToTest,
                                  c.buildWithLogs, c.googlePlaySign), result)
      case _ =>
        Outcome(None, Some(Failure("Invalid sign option provided: " + c.signOption)))
    else
      NoOp
  }

  function PerformIosTests(c: Config, result: CollaboratorResult): (o: Outcome)
    ensures !IsKnownSignOption(c.signOption) ==> o == NoOp
    ensures o.call.Some? <==> IsKnownSignOption(c.signOption)
    ensures o.call.Some? ==> var call := o.call.value;
              !call.IsAndroid() && call.SignOption() == c.signOption && call.shared == SharedArgs(c)
              && call.buildToTest == c.buildToTest && call.buildWithLogs == c.buildWithLogs
              && o == Invoke(call, result)
    ensures o.call.Some? && o.call.value.IosAutoSign? ==>
              o.call.value.certificateFilePath == c.certificateFilePath
              && o.call.value.certificatePassword == c.certificatePassword
  {
    match c.signOption
    case "SIGN_ON_APPDOME" =>
      Invoke(IosAutoSign(SharedArgs(c), c.certificateFilePath, c.certificatePassword, c.buildToTest, c.buildWithLogs), result)
    case "PRIVATE_SIGNING" =>
      Invoke(IosPrivateSign(SharedArgs(c), c.buildToTest, c.buildWithLogs), result)
    case "AUTO_DEV_SIGNING" =>
      Invoke(IosAutoDevSign(SharedArgs(c), c.buildToTest, c.buildWithLogs), result)
    case _ =>
      NoOp
  }

  /** `catch (Exception e) { fail("Test failed due to exception: " + e.getMessage()); }`:
      an Exception becomes fail's AssertionError carrying its message; an
      Error (an AssertionError among them) passes through untouched. */
  function CatchException(t: Throwable): (r: Throwable)
    ensures r.kind == Error
    ensures t.kind == Error ==> r == t
    ensures t.kind == Exception ==> r.message == Some("Test failed due to exception: " + Render(t.message))
  {
    match t.kind
    case Exception => Failure("Test failed due to exception: " + Render(t.message))
    case Error => t
  }

  /** The try block's ending as seen after the catch: only the throwable changes. */
  function Catch(step: Outcome): (o: Outcome)
    ensures o.call == step.call
    ensures o.thrown.Some? <==> step.thrown.Some?
    ensures o.thrown.Some? ==> o.thrown.value == CatchException(step.thrown.value)
  {
    match step.thrown
    case None => step
    case Some(t) => Outcome(step.call, Some(CatchException(t)))
  }

  const NoExtensionMessage := "App file path does not have a valid extension."

  function WorkFlowTest(c: Config, result: CollaboratorResult): (o: Outcome)
    // a failed run always fails the test through an Error: no Exception escapes
    ensures o.thrown.Some? ==> o.thrown.value.kind == Error
    // no extension: one exact failure, no call
    ensures GetFileExtension(Some(c.appFilePath)).None? ==>
              o == Outcome(None, Some(Failure("Test failed due to exception: " + NoExtensionMessage)))
    // "ipa" routes to iOS, every other extension to Android
    ensures GetFileExtension(Some(c.appFilePath)) == Some("ipa") ==> o == Catch(PerformIosTests(c, result))
    ensures var ext := GetFileExtension(Some(c.appFilePath));
              ext.Some? && ext.value != "ipa" ==> o == Catch(PerformAndroidTests(c, ext.value, result))
  {
    var platform := GetFileExtension(Some(c.appFilePath));
    if platform.None? then Catch(Outcome(None, Some(IllegalArgument(NoExtensionMessage))))
    else if platform.value == "ipa" then Catch(PerformIosTests(c, result))
    else Catch(PerformAndroidTests(c, platform.value, result))
  }

  /** A call is made exactly when the extension is "ipa" or "aab" and the sign
      option is one of the three known ones; it goes to the platform of the
      extension and serves the configured option. */
  lemma CallIsMadeIff(c: Config, result: CollaboratorResult)
    ensures var ext := GetFileExtension(Some(c.appFilePath));
            var o := WorkFlowTest(c, result);
            (o.call.Some? <==> ext.Some? && (ext.value == "ipa" || ext.value == "aab") && IsKnownSignOption(c.signOption))
            && (o.call.Some? ==> (o.call.value.IsAndroid() <==> ext.value == "aab")
                                 && o.call.value.SignOption() == c.signOption
                                 && o.call.value.shared == SharedArgs(c))
  {
  }

  /** The test fails exactly when the file has no extension, or an "aab" file
      comes with an unknown sign option, or the collaborator call threw. */
  lemma FailsIff(c: Config, result: CollaboratorResult)
    ensures var ext := GetFileExtension(Some(c.appFilePath));
            var o := WorkFlowTest(c, result);
            o.thrown.Some? <==>
              ext.None? || (ext.value == "aab" && !IsKnownSignOption(c.signOption)) || (o.call.Some? && result.Threw?)
  {
  }

  /** An unknown sign option on an "aab" fails with its own message, not
      wrapped: fail() throws an AssertionError, which the catch lets through. */
  lemma InvalidAndroidOptionIsNotWrapped(c: Config, result: CollaboratorResult)
    requires GetFileExtension(Some(c.appFilePath)) == Some("aab")
    requires !IsKnownSignOption(c.signOption)
    ensures WorkFlowTest(c, result) == Outcome(None, Some(Failure("Invalid sign option provided: " + c.signOption)))
  {
  }

  /** The asymmetries: an unknown sign option on iOS, and any Android
      extension other than "aab", end the test with no call and no failure. */
  lemma SilentNoOps(c: Config, result: CollaboratorResult)
    ensures var ext := GetFileExtension(Some(c.appFilePath));
            (ext == Some("ipa") && !IsKnownSignOption(c.signOption)) || (ext.Some? && ext.value != "ipa" && ext.value != "aab")
            ==> WorkFlowTest(c, result) == NoOp
  {
  }

  /** A collaborator that throws an Exception fails the test with
      "Test failed due to exception: " and the exception's message; one that
      throws an Error fails it with that error unchanged. */
  lemma CollaboratorErrorIsReported(c: Config, t: Throwable)
    requires WorkFlowTest(c, Threw(t)).call.Some?
    ensures t.kind == Exception ==>
              WorkFlowTest(c, Threw(t)).thrown == Some(Failure("Test failed due to exception: " + Render(t.message)))
    ensures t.kind == Error ==> WorkFlowTest(c, Threw(t)).thrown == Some(t)
    ensures WorkFlowTest(c, Returned) == Outcome(WorkFlowTest(c, Threw(t)).call, None)
  {
  }

  /** "build.aab" signed on Appdome with a second output
      calls the Android auto-sign workflow with the keystore material and the
      second output wrapped. */
  lemma AabSignOnAppdomeScenario(c: Config, result: CollaboratorResult)
    requires c.appFilePath == "build.aab" && c.signOption == "SIGN_ON_APPDOME" && c.secondOutput.Some?
    ensures WorkFlowTest(c, result).call == Some(AndroidAutoSign(SharedArgs(c), c.keystoreFilePath, c.keystorePassword,
              c.keystoreAlias, c.keystoreKeyPass, c.signFingerprint, Some(StringWarp(c.secondOutput.value)),
              c.buildToTest, c.buildWithLogs))
  {
    AabAndTrailingDotExamples();
  }

  /** "build.apk" makes no call and does not fail, whatever the option. */
  lemma ApkScenario(c: Config, result: CollaboratorResult)
    requires c.appFilePath == "build.apk"
    ensures WorkFlowTest(c, result) == NoOp
  {
    ApkExample();
    assert "apk"[0] != "ipa"[0] && "apk"[1] != "aab"[1];
    SilentNoOps(c, result);
  }

  /** "app.ipa" with private signing calls the iOS private-sign
      workflow, which carries no second output and no publish flag. */
  lemma IpaPrivateSigningScenario(c: Config, result: CollaboratorResult)
    requires c.appFilePath == "app.ipa" && c.signOption == "PRIVATE_SIGNING"
    ensures WorkFlowTest(c, result).call == Some(IosPrivateSign(SharedArgs(c), c.buildToTest, c.buildWithLogs))
  {
    IpaExamples();
  }

  /** "build.aab" with the bogus option "BOGUS" fails naming it. */
  lemma AabBogusOptionScenario(c: Config, result: CollaboratorResult)
    requires c.appFilePath == "build.aab" && c.signOption == "BOGUS"
    ensures WorkFlowTest(c, result) == Outcome(None, Some(Failure("Invalid sign option provided: " + "BOGUS")))
  {
    AabAndTrailingDotExamples();
    assert !IsKnownSignOption("BOGUS");
    InvalidAndroidOptionIsNotWrapped(c, result);
  }

  /** "app.ipa" with the bogus option "BOGUS" makes no call and does not fail. */
  lemma IpaBogusOptionScenario(c: Config, result: CollaboratorResult)
    requires c.appFilePath == "app.ipa" && c.signOption == "BOGUS"
    ensures WorkFlowTest(c, result) == NoOp
  {
    IpaExamples();
    assert !IsKnownSignOption("BOGUS");
    SilentNoOps(c, result);
  }
}
