# PipelineTest: configuration, path validation and workflow dispatch

This project models the decision logic of the Appdome Jenkins plugin's
end-to-end test harness, `PipelineTest`. A run of that harness has two parts.

`setUp` comes first:
- it reads five secrets from the environment;
- it reads every other setting from the JVM system properties, each with a fixed default;
- it turns the two comma-separated path-list properties into lists of `StringWarp`;
- it checks, in a fixed order, that every non-empty configured path exists, and throws on the first missing one.

`workFlowTest` comes next:
- it classifies the app file by its lower-cased extension;
- it hands over to the iOS branch (`ipa`) or the Android branch (any other extension);
- each branch switches on the sign option and makes at most one call into the remote-build test collaborator, does nothing, or fails with an exact message;
- its `catch (Exception e)` wraps exceptions into a JUnit failure but lets an `Error` (such as the `AssertionError` that JUnit's `fail` throws) through unchanged.

Modules, in dependency order:

- `Wrappers`: `Option`.
- `JavaLang`: the parts of `java.lang` the harness relies on:
  - `lastIndexOf`;
  - ASCII `toLowerCase`;
  - `equalsIgnoreCase` and `Boolean.parseBoolean`;
  - how a null string is rendered in a concatenation;
  - the difference between an `Exception`, which `catch (Exception e)` catches, and an `Error` (an `AssertionError` among them), which it does not.
- `PluginTypes`: `StringWarp` and `BuildToTest` as plain wrappers around a string.
- `Csv`: `String.split(",")` with limit 0, and `convertCsvToListStringWarp`.
- `Extension`: `getFileExtension`.
- `Configuration`: the resolved configuration as a value (`LoadConfig`), with environment and properties given as maps.
- `Validation`: `checkFileExists`, the `checkFilesExist` loop, and the fail-fast gate in `setUp`'s order. The filesystem is the set of paths that exist.
- `Dispatch`: `workFlowTest`, `performAndroidTests` and `performIosTests`. How a run ends is an `Outcome`: the collaborator call made, if any, and the throwable that escaped, if any. What the collaborator does is an input (`CollaboratorResult`).
- `Pipeline`: the test class with its fields, its two loaders, `setUp`, and one whole JUnit run (`RunTest`).

## Model

All source paths are under `src/test/java/io/jenkins/plugins/appdome/build/to/secure/`; the table writes them in full.

| member | source | states |
|---|---|---|
| JavaLang.ToLowerChar | src/test/java/io/jenkins/plugins/appdome/build/to/secure/PipelineTest.java:177 | lower-casing one character: the result is never an upper-case ASCII letter; any other character is unchanged; an upper-case letter moves by the fixed 'a'-'A' distance |
| JavaLang.ToLower | src/test/java/io/jenkins/plugins/appdome/build/to/secure/PipelineTest.java:177 | `toLowerCase()` keeps the length and lower-cases each character in its own position |
| JavaLang.ToLowerKeeps | src/test/java/io/jenkins/plugins/appdome/build/to/secure/PipelineTest.java:177 | lower-casing neither adds nor removes a non-letter character such as '.' |
| JavaLang.ToLowerSuffix | src/test/java/io/jenkins/plugins/appdome/build/to/secure/PipelineTest.java:177 | `substring(k).toLowerCase()` equals `toLowerCase().substring(k)` |
| JavaLang.LastIndexOf | src/test/java/io/jenkins/plugins/appdome/build/to/secure/PipelineTest.java:175 | `lastIndexOf(c)` is -1 or a position holding c, and no later position holds c |
| JavaLang.LastIndexOfSamePositions | src/test/java/io/jenkins/plugins/appdome/build/to/secure/PipelineTest.java:175 | two strings with c at the same positions have the same last index of c |
| JavaLang.EqualsIgnoreCase | src/test/java/io/jenkins/plugins/appdome/build/to/secure/PipelineTest.java:113-114 | `equalsIgnoreCase`, defined character by character, holds exactly when the two lower-cased strings are equal |
| JavaLang.ParseBoolean | src/test/java/io/jenkins/plugins/appdome/build/to/secure/PipelineTest.java:113-114 | `Boolean.parseBoolean(s)` (`"true".equalsIgnoreCase(s)`) is true iff `s` lower-cases to "true"; such an `s` has length 4 |
| PluginTypes.Items | src/test/java/io/jenkins/plugins/appdome/build/to/secure/PipelineTest.java:148-149 | the strings read back with `getItem()` from a list of wrappers, one per wrapper, in list order |
| Csv.SplitAll | src/test/java/io/jenkins/plugins/appdome/build/to/secure/PipelineTest.java:165 | the segments between commas: at least one, none containing a comma |
| Csv.DropTrailingEmpty | src/test/java/io/jenkins/plugins/appdome/build/to/secure/PipelineTest.java:165 | the result is a prefix of the input that does not end in an empty segment, and everything it drops is empty |
| Csv.Split | src/test/java/io/jenkins/plugins/appdome/build/to/secure/PipelineTest.java:165 | `split(",")`: no segment contains a comma, and "" splits to [""] |
| Csv.ConvertCsvToListStringWarp | src/test/java/io/jenkins/plugins/appdome/build/to/secure/PipelineTest.java:164-168 | one `StringWarp` per segment of `split(",")`, in input order, none containing a comma; "" gives a single empty path |
| Csv.JoinSplitAll | src/test/java/io/jenkins/plugins/appdome/build/to/secure/PipelineTest.java:165 | joining every segment with "," gives back the input |
| Csv.JoinSnoc | src/test/java/io/jenkins/plugins/appdome/build/to/secure/PipelineTest.java:165 | joining one more segment appends "," and the segment |
| Csv.JoinExtendLast | src/test/java/io/jenkins/plugins/appdome/build/to/secure/PipelineTest.java:165 | extending the last segment by a character extends the joined text by that character |
| Csv.SplitAllNoComma | src/test/java/io/jenkins/plugins/appdome/build/to/secure/PipelineTest.java:165 | a string without a comma is one segment, itself |
| Csv.SplitAllUnique | src/test/java/io/jenkins/plugins/appdome/build/to/secure/PipelineTest.java:165 | any non-empty list of comma-free strings that joins to s is exactly the segments of s |
| Csv.JoinDropNoLonger | src/test/java/io/jenkins/plugins/appdome/build/to/secure/PipelineTest.java:165 | dropping trailing empty segments never lengthens the joined text |
| Csv.JoinDropShorter | src/test/java/io/jenkins/plugins/appdome/build/to/secure/PipelineTest.java:165 | dropping at least one trailing empty segment from two or more strictly shortens the joined text |
| Csv.SplitIsPrefixOfSegments | src/test/java/io/jenkins/plugins/appdome/build/to/secure/PipelineTest.java:165 | `split(",")` keeps a prefix of the segments, in order, and drops only empty segments at the end |
| Csv.SplitRoundTrip | src/test/java/io/jenkins/plugins/appdome/build/to/secure/PipelineTest.java:164-168 | joining the result of `split(",")` with "," gives back the input iff the input is empty or does not end in a comma |
| Csv.JoinOfEmpties | src/test/java/io/jenkins/plugins/appdome/build/to/secure/PipelineTest.java:165 | joining only empty segments gives nothing but commas |
| Csv.SplitAllOfCommas | src/test/java/io/jenkins/plugins/appdome/build/to/secure/PipelineTest.java:165 | a string of commas only has only empty segments |
| Csv.SplitEmpty | src/test/java/io/jenkins/plugins/appdome/build/to/secure/PipelineTest.java:165 | `split(",")` returns no segment iff the input is non-empty and made of commas only |
| Csv.ConvertTwoSegments | src/test/java/io/jenkins/plugins/appdome/build/to/secure/PipelineTest.java:164-168 | "a,b", with a and b comma-free and b non-empty, converts to exactly the two paths a and b |
| Csv.DefaultListSplit | src/test/java/io/jenkins/plugins/appdome/build/to/secure/PipelineTest.java:104-108 | the default "default1,default2" converts to the two paths "default1" and "default2" |
| Extension.GetFileExtension | src/test/java/io/jenkins/plugins/appdome/build/to/secure/PipelineTest.java:170-181 | null exactly for a null name, an empty name, or a name without '.'; otherwise the lower-cased text after the last '.', which holds no '.' and no upper-case letter |
| Extension.ExtensionAt | src/test/java/io/jenkins/plugins/appdome/build/to/secure/PipelineTest.java:175-177 | when the last '.' of a name is at index k, the extension is the lower-cased text after k |
| Extension.ExtensionIgnoresCase | src/test/java/io/jenkins/plugins/appdome/build/to/secure/PipelineTest.java:170-181 | names equal up to letter case have the same extension |
| Extension.IpaExamples | src/test/java/io/jenkins/plugins/appdome/build/to/secure/PipelineTest.java:170-181 | "App.IPA" and "app.ipa" both give "ipa" |
| Extension.AabAndTrailingDotExamples | src/test/java/io/jenkins/plugins/appdome/build/to/secure/PipelineTest.java:170-181 | "build.aab" gives "aab"; "archive." gives the empty extension, not null |
| Extension.ApkExample | src/test/java/io/jenkins/plugins/appdome/build/to/secure/PipelineTest.java:170-181 | "build.apk" gives "apk" |
| Extension.NoExtensionExamples | src/test/java/io/jenkins/plugins/appdome/build/to/secure/PipelineTest.java:171-179 | a name without a dot, an empty name and a null name all give null |
| Configuration.PathListPropertyIsLoaderSplit | src/test/java/io/jenkins/plugins/appdome/build/to/secure/PipelineTest.java:104-108 | a path-list setting is the converted property, or the converted default "default1,default2" when the key is absent |
| Configuration.FlagPropertyIsLoaderParse | src/test/java/io/jenkins/plugins/appdome/build/to/secure/PipelineTest.java:113-114 | a flag is `parseBoolean` of the property, or of the default "false" (so false) when the key is absent |
| Configuration.WithEnvironment | src/test/java/io/jenkins/plugins/appdome/build/to/secure/PipelineTest.java:82-89 | loadEnvironmentVariables on a configuration: only the five secrets change; each is null exactly when its variable is unset, and otherwise is its value |
| Configuration.WithProperties | src/test/java/io/jenkins/plugins/appdome/build/to/secure/PipelineTest.java:94-118 | loadSystemProperties on a configuration: the five secrets are kept; a flag is true only when its property is set; the second output is never null |
| Configuration.LoadConfig | src/test/java/io/jenkins/plugins/appdome/build/to/secure/PipelineTest.java:84-115 | each secret is the environment variable or null; each other setting is the property or its listed default; the path lists are the split property or the two default paths; a flag is true iff the property equals "true" ignoring case; secondOutput is never null |
| Validation.CheckFileExists | src/test/java/io/jenkins/plugins/appdome/build/to/secure/PipelineTest.java:127-137 | nothing for a null or empty path; otherwise nothing iff the path exists, else an IllegalArgumentException "<description> does not exist: <path>" |
| Validation.FirstMissing | src/test/java/io/jenkins/plugins/appdome/build/to/secure/PipelineTest.java:146-155 | the index of the first probe whose path is non-empty and missing, with every earlier probe passing; none only when every probe passes |
| Validation.FailFast | src/test/java/io/jenkins/plugins/appdome/build/to/secure/PipelineTest.java:146-155 | a fail-fast run throws iff some probe fails |
| Validation.NonEmptyPaths | src/test/java/io/jenkins/plugins/appdome/build/to/secure/PipelineTest.java:128 | the non-empty paths among the probes, never more than the probes |
| Validation.ListProbes | src/test/java/io/jenkins/plugins/appdome/build/to/secure/PipelineTest.java:147-150 | a null list gives no probe; otherwise one probe per entry, in order, with the entry's item and the shared description |
| Validation.Probed | src/test/java/io/jenkins/plugins/appdome/build/to/secure/PipelineTest.java:148-151 | the paths the loop asks the filesystem about: non-empty only, at most one per entry |
| Validation.ProbedEndsAtFirstMissing | src/test/java/io/jenkins/plugins/appdome/build/to/secure/PipelineTest.java:148-151 | when no entry is missing every path asked about exists; otherwise the last path asked about is the first missing one |
| Validation.NonEmptyPathsAppend | src/test/java/io/jenkins/plugins/appdome/build/to/secure/PipelineTest.java:128 | the non-empty paths of a concatenation are the concatenation of the non-empty paths |
| Validation.FirstMissingAppend | src/test/java/io/jenkins/plugins/appdome/build/to/secure/PipelineTest.java:60-68 | over a concatenation, the first part decides when it fails; otherwise the second part does, its index shifted past the first part |
| Validation.FailFastAppend | src/test/java/io/jenkins/plugins/appdome/build/to/secure/PipelineTest.java:60-68 | checking a, then b, fail-fast throws what checking a + b fail-fast throws |
| Validation.ProbedAppend | src/test/java/io/jenkins/plugins/appdome/build/to/secure/PipelineTest.java:148-151 | the paths asked about over a concatenation: only the first part's when it fails, otherwise both parts' in order |
| Validation.ProbedIsPrefixOfNonEmpty | src/test/java/io/jenkins/plugins/appdome/build/to/secure/PipelineTest.java:148-151 | the paths asked about are the non-empty paths up to and including the first missing one, or all of them when none is missing |
| Validation.CheckFileExistsIsProbe | src/test/java/io/jenkins/plugins/appdome/build/to/secure/PipelineTest.java:127-137 | one path check is a fail-fast run over one probe |
| Validation.CheckFilesExist | src/test/java/io/jenkins/plugins/appdome/build/to/secure/PipelineTest.java:146-155 | the loop throws exactly what the fail-fast run over the entries throws; the paths it asks the filesystem about are exactly the non-empty entries up to the first missing one |
| Validation.GateOrder | src/test/java/io/jenkins/plugins/appdome/build/to/secure/PipelineTest.java:60-68 | the gate reports the first failing stage in the order app file, keystore, certificate, entitlements, provisioning profiles |
| Validation.GateProbes | src/test/java/io/jenkins/plugins/appdome/build/to/secure/PipelineTest.java:60-68 | the probes of setUp: one per file and per list entry, the app file, keystore and certificate first |
| Validation.Gate | src/test/java/io/jenkins/plugins/appdome/build/to/secure/PipelineTest.java:60-68 | what the checks in setUp throw: always an IllegalArgumentException |
| Validation.ListProbesPass | src/test/java/io/jenkins/plugins/appdome/build/to/secure/PipelineTest.java:146-155 | a list check passes exactly when every entry is empty or exists |
| Validation.GatePassesIff | src/test/java/io/jenkins/plugins/appdome/build/to/secure/PipelineTest.java:60-68 | setUp's checks throw nothing exactly when every configured path (the three files and every list entry) is empty or exists |
| Validation.CheckFilesExistFailsOnFirstMissing | src/test/java/io/jenkins/plugins/appdome/build/to/secure/PipelineTest.java:146-155 | when entry k is the first non-empty missing entry, the list check fails naming entry k, and never asks about the entries after it |
| Dispatch.SecondOutputWarp | src/test/java/io/jenkins/plugins/appdome/build/to/secure/PipelineTest.java:218-222 | the second-output wrapper is non-null iff secondOutput is non-null, and then wraps it |
| Dispatch.PerformAndroidTests | src/test/java/io/jenkins/plugins/appdome/build/to/secure/PipelineTest.java:216-250 | nothing unless the extension is "aab"; on "aab", an unknown option fails with "Invalid sign option provided: <option>"; a call is made iff the option is known, and it is the Android call for that option with the configured arguments (keystore material for auto-sign, googlePlaySign for the other two) |
| Dispatch.PerformIosTests | src/test/java/io/jenkins/plugins/appdome/build/to/secure/PipelineTest.java:256-280 | a call is made iff the option is known, and it is the iOS call for that option with the configured arguments (certificate for auto-sign); an unknown option does nothing |
| Dispatch.CatchException | src/test/java/io/jenkins/plugins/appdome/build/to/secure/PipelineTest.java:204-207 | an Exception becomes `fail`'s AssertionError "Test failed due to exception: <message>"; an Error passes unchanged |
| Dispatch.Catch | src/test/java/io/jenkins/plugins/appdome/build/to/secure/PipelineTest.java:186-207 | the catch keeps the call and whether anything was thrown, and only converts the throwable |
| Dispatch.WorkFlowTest | src/test/java/io/jenkins/plugins/appdome/build/to/secure/PipelineTest.java:183-208 | only Errors escape (no Exception does); no extension gives the exact no-extension failure; "ipa" goes to iOS and every other extension to Android, through the catch |
| Dispatch.CallIsMadeIff | src/test/java/io/jenkins/plugins/appdome/build/to/secure/PipelineTest.java:183-280 | a call is made iff the extension is "ipa" or "aab" and the option is known; it goes to the extension's platform, serves the configured option and carries the shared arguments |
| Dispatch.FailsIff | src/test/java/io/jenkins/plugins/appdome/build/to/secure/PipelineTest.java:183-280 | the test fails iff there is no extension, or an "aab" comes with an unknown option, or the call made threw |
| Dispatch.InvalidAndroidOptionIsNotWrapped | src/test/java/io/jenkins/plugins/appdome/build/to/secure/PipelineTest.java:244-247 | an unknown option on "aab" ends with its own failure message, not wrapped by the catch |
| Dispatch.SilentNoOps | src/test/java/io/jenkins/plugins/appdome/build/to/secure/PipelineTest.java:216-219 | an unknown option on "ipa", and any extension other than "ipa" and "aab", end with no call and no failure |
| Dispatch.CollaboratorErrorIsReported | src/test/java/io/jenkins/plugins/appdome/build/to/secure/PipelineTest.java:204-207 | a collaborator Exception fails the test with "Test failed due to exception: " and its message; a collaborator Error fails it unchanged; the call made does not depend on the collaborator's result |
| Dispatch.AabSignOnAppdomeScenario | src/test/java/io/jenkins/plugins/appdome/build/to/secure/PipelineTest.java:219-231 | "build.aab" with SIGN_ON_APPDOME calls Android auto-sign with the keystore material and the wrapped second output |
| Dispatch.ApkScenario | src/test/java/io/jenkins/plugins/appdome/build/to/secure/PipelineTest.java:216-219 | "build.apk" makes no call and does not fail |
| Dispatch.IpaPrivateSigningScenario | src/test/java/io/jenkins/plugins/appdome/build/to/secure/PipelineTest.java:266-270 | "app.ipa" with PRIVATE_SIGNING calls iOS private-sign |
| Dispatch.AabBogusOptionScenario | src/test/java/io/jenkins/plugins/appdome/build/to/secure/PipelineTest.java:244-247 | "build.aab" with the option "BOGUS" fails with "Invalid sign option provided: BOGUS" and makes no call |
| Dispatch.IpaBogusOptionScenario | src/test/java/io/jenkins/plugins/appdome/build/to/secure/PipelineTest.java:276-279 | "app.ipa" with the option "BOGUS" makes no call and does not fail |
| Pipeline.PipelineTest.constructor | src/test/java/io/jenkins/plugins/appdome/build/to/secure/PipelineTest.java:26-45 | a fresh test object holds the unloaded configuration |
| Pipeline.PipelineTest.LoadEnvironmentVariables | src/test/java/io/jenkins/plugins/appdome/build/to/secure/PipelineTest.java:82-89 | each of the five secrets becomes its environment variable, or null when it is unset; no other field changes |
| Pipeline.PipelineTest.LoadSystemProperties | src/test/java/io/jenkins/plugins/appdome/build/to/secure/PipelineTest.java:94-118 | the fields become the property-loaded configuration of the previous state; the secrets are kept |
| Pipeline.PipelineTest.LoadPlainSettings | src/test/java/io/jenkins/plugins/appdome/build/to/secure/PipelineTest.java:95-101 | each of the seven string settings becomes its property or its listed default |
| Pipeline.PipelineTest.LoadPathLists | src/test/java/io/jenkins/plugins/appdome/build/to/secure/PipelineTest.java:103-108 | each path list becomes its split property, or the two default paths |
| Pipeline.PipelineTest.LoadBuildOptions | src/test/java/io/jenkins/plugins/appdome/build/to/secure/PipelineTest.java:111-115 | the build target, the two flags (`parseBoolean`, default false) and the second output, which is never null |
| Pipeline.PipelineTest.Load | src/test/java/io/jenkins/plugins/appdome/build/to/secure/PipelineTest.java:49-53 | loading the environment and then the properties leaves the fields holding `LoadConfig(env, props)` |
| Pipeline.PipelineTest.SetUp | src/test/java/io/jenkins/plugins/appdome/build/to/secure/PipelineTest.java:47-69 | after setUp, the fields hold the loaded configuration, and what it throws is the fail-fast gate's result in setUp's check order |
| Pipeline.TestRun | src/test/java/io/jenkins/plugins/appdome/build/to/secure/PipelineTest.java:47-208 | one JUnit run on values: a collaborator call is made only after every path check passed, and the only Exception that escapes is a failed path check, with no call made |
| Pipeline.RunTest | src/test/java/io/jenkins/plugins/appdome/build/to/secure/PipelineTest.java:47-208 | one JUnit run (fresh object, setUp, then workFlowTest only when setUp threw nothing) ends as `TestRun` says |
| Pipeline.ValidationPrecedesDispatch | src/test/java/io/jenkins/plugins/appdome/build/to/secure/PipelineTest.java:60-68 | when a path check fails, no call is made and the run ends with that check's IllegalArgumentException; otherwise the run is the dispatch on the loaded configuration |

## Left out

- `JenkinsRule` and `configureGlobalProperties` (lines 24-25 and 72-77) are not modelled. They are Jenkins runtime wiring with no decision logic, and setUp's outcome does not depend on them.
- Logging and `printAllValues` (lines 285-305) are not modelled: they are diagnostics only.
- `System.getenv` and `System.getProperty` are modelled as lookups in two maps given as parameters. The process environment and the JVM properties themselves are not modelled.
- `new File(path).exists()` is modelled as membership in a set of existing paths. Nothing else about the filesystem is modelled.
- The `AppdomeBuilderTest` methods (lines 227-274) call a remote build service and are not part of this model. Each call is recorded as an `Invocation` with its arguments, and what it does (return, or throw an `Exception` or an `Error`) is an input. The `jenkinsPluginTest` field is never assigned in the source, so a real call would throw a `NullPointerException`; that is the `Threw` input.
- The `jenkins` rule argument passed to every collaborator call is not recorded. Neither are the literal `null` arguments the iOS calls pass; they carry no configuration value.
- `StringWarp` and `BuildToTest` are not part of this model beyond one string each, read back with `getItem().toString()` and `getSelectedVendor()`.
- `toLowerCase()` and `equalsIgnoreCase` are modelled on ASCII letters only. Locale-sensitive and non-ASCII case mappings are not modelled.
- Pipeline.PipelineTest.constructor: Java leaves every field `null` until `setUp` runs. The model starts from placeholders instead (empty strings, empty lists, false, `None`). JUnit always runs `setUp` first, so no placeholder is ever observed.
- The fields `buildWithLogs` and `googlePlaySign` are `Boolean` in Java and `bool` here. They are only ever assigned from `parseBoolean`, so they are never null after `setUp`.
- The steps of `loadSystemProperties` are split into three helper methods: plain settings, path lists, build options. They run in the source's order, and `Load` groups the two loaders that `setUp` calls first. Both are groupings only: the assignments and their order are the source's.
- `CheckFilesExist` also returns `probed`, the paths whose existence it asked about, so that "entries after the first missing one are never checked" can be stated. The source's loop only logs them; the log lines are not modelled.
