/**
 * The path-validation gate: checkFileExists, checkFilesExist and the order in
 * which setUp applies them. The filesystem is the set of paths that exist.
 * Every check is a probe (a path and the description used in the message);
 * the gate fails on the first probe whose path is non-empty and missing, and
 * never looks at the probes after it.
 */
module Validation {
  import opened Wrappers
  import opened JavaLang
  import opened PluginTypes
  import opened Configuration

  datatype Probe = Probe(path: string, description: string)

  /** An empty path is skipped; a non-empty one fails when it does not exist. */
  predicate Missing(p: Probe, fs: set<string>) {
    p.path != [] && p.path !in fs
  }

  /** The exception a failing probe throws. */
  function NotFound(p: Probe): Throwable {
    IllegalArgument(p.description + " does not exist: " + p.path)
  }

  /** checkFileExists(filePath, description): nothing for a null or empty path;
      otherwise an IllegalArgumentException exactly when the path is missing. */
  function CheckFileExists(filePath: Option<string>, description: string, fs: set<string>): (r: Option<Throwable>)
    ensures r.None? <==> filePath.None? || filePath.value == [] || filePath.value in fs
    ensures r.Some? ==> r.value == Throwable(Exception, Some(description + " does not exist: " + filePath.value))
  {
    if filePath.Some? && filePath.value != [] && filePath.value !in fs then
      Some(NotFound(Probe(filePath.value, description)))
    else
      None
  }

  /** The index of the first missing probe, if any. */
  function FirstMissing(probes: seq<Probe>, fs: set<string>): (r: Option<nat>)
    ensures r.None? ==> forall j :: 0 <= j < |probes| ==> !Missing(probes[j], fs)
    ensures r.Some? ==> r.value < |probes| && Missing(probes[r.value], fs)
    ensures r.Some? ==> forall j :: 0 <= j < r.value ==> !Missing(probes[j], fs)
  {
    if probes == [] then None
    else if Missing(probes[0], fs) then Some(0)
    else
      match FirstMissing(probes[1..], fs)
      case None => None
      case Some(k) => Some(k + 1)
  }

  /** Fail fast: the exception of the first missing probe, or nothing. */
  function FailFast(probes: seq<Probe>, fs: set<string>): (r: Option<Throwable>)
    ensures r.None? <==> forall j :: 0 <= j < |probes| ==> !Missing(probes[j], fs)
    ensures r.Some? ==> r.value.kind == Exception
  {
    match FirstMissing(probes, fs)
    case None => None
    case Some(k) => Some(NotFound(probes[k]))
  }

  /** The non-empty paths among the probes, in order: the paths whose existence is asked. */
  function NonEmptyPaths(probes: seq<Probe>): (r: seq<string>)
    ensures |r| <= |probes|
    ensures forall i :: 0 <= i < |r| ==> r[i] != []
  {
    if probes == [] then []
    else (if probes[0].path == [] then [] else [probes[0].path]) + NonEmptyPaths(probes[1..])
  }

  /** The paths a fail-fast run asks the filesystem about, probe by probe: an
      empty path is skipped, a missing one is asked about and ends the run. */
  function Probed(probes: seq<Probe>, fs: set<string>): (r: seq<string>)
    ensures |r| <= |probes|
    ensures forall i :: 0 <= i < |r| ==> r[i] != []
  {
    if probes == [] then []
    else if probes[0].path == [] then Probed(probes[1..], fs)
    else if probes[0].path !in fs then [probes[0].path]
    else [probes[0].path] + Probed(probes[1..], fs)
  }

  /** The probes checkFilesExist makes for a (possibly null) list. */
  function ListProbes(filePaths: Option<seq<StringWarp>>, description: string): (r: seq<Probe>)
    ensures filePaths.None? ==> r == []
    ensures filePaths.Some? ==> |r| == |filePaths.value|
    ensures filePaths.Some? ==> forall i :: 0 <= i < |r| ==> r[i] == Probe(filePaths.value[i].item, description)
  {
    if filePaths.None? then []
    else seq(|filePaths.value|, i requires 0 <= i < |filePaths.value| => Probe(filePaths.value[i].item, description))
  }

  /** The probes of setUp, in the order setUp makes them. */
  function GateProbes(c: Config): (r: seq<Probe>)
    ensures |r| == 3 + |c.entitlementsPath| + |c.mobileProvisionProfilesPath|
    ensures r[0].path == c.appFilePath && r[1].path == c.keystoreFilePath && r[2].path == c.certificateFilePath
  {
    [Probe(c.appFilePath, "App File Path"),
     Probe(c.keystoreFilePath, "Keystore File Path"),
     Probe(c.certificateFilePath, "Certificate File Path")]
    + ListProbes(Some(c.entitlementsPath), "Entitlements Path")
    + ListProbes(Some(c.mobileProvisionProfilesPath), "Mobile Provision Profiles Path")
  }

  /** setUp's checks pass exactly when every configured path is empty or exists. */
  predicate AllPresent(c: Config, fs: set<string>) {
    (c.appFilePath == [] || c.appFilePath in fs)
    && (c.keystoreFilePath == [] || c.keystoreFilePath in fs)
    && (c.certificateFilePath == [] || c.certificateFilePath in fs)
    && (forall i :: 0 <= i < |c.entitlementsPath| ==>
          c.entitlementsPath[i].item == [] || c.entitlementsPath[i].item in fs)
    && (forall i :: 0 <= i < |c.mobileProvisionProfilesPath| ==>
          c.mobileProvisionProfilesPath[i].item == [] || c.mobileProvisionProfilesPath[i].item in fs)
  }

  /** What the validation part of setUp throws, if anything: always an
      IllegalArgumentException (GatePassesIff says when). */
  function Gate(c: Config, fs: set<string>): (r: Option<Throwable>)
    ensures r.Some? ==> r.value.kind == Exception
  {
    FailFast(GateProbes(c), fs)
  }

  lemma {:induction false} NonEmptyPathsAppend(a: seq<Probe>, b: seq<Probe>)
    ensures NonEmptyPaths(a + b) == NonEmptyPaths(a) + NonEmptyPaths(b)
  {
    if a == [] {
      assert a + b == b;
    } else {
      assert (a + b)[1..] == a[1..] + b;
      NonEmptyPathsAppend(a[1..], b);
    }
  }

  /** Fail-fast over a concatenation: the first part decides when it fails,
      otherwise the second part does, its index shifted past the first. */
  lemma {:induction false} FirstMissingAppend(a: seq<Probe>, b: seq<Probe>, fs: set<string>)
    ensures FirstMissing(a, fs).Some? ==> FirstMissing(a + b, fs) == FirstMissing(a, fs)
    ensures FirstMissing(a, fs).None? && FirstMissing(b, fs).None? ==> FirstMissing(a + b, fs).None?
    ensures FirstMissing(a, fs).None? && FirstMissing(b, fs).Some? ==>
              FirstMissing(a + b, fs) == Some(|a| + FirstMissing(b, fs).value)
  {
    if a == [] {
      assert a + b == b;
    } else {
      assert (a + b)[0] == a[0];
      assert (a + b)[1..] == a[1..] + b;
      FirstMissingAppend(a[1..], b, fs);
    }
  }

  /** Checking a then b fail-fast is checking a + b fail-fast. */
  lemma FailFastAppend(a: seq<Probe>, b: seq<Probe>, fs: set<string>)
    ensures FailFast(a + b, fs) == if FailFast(a, fs).Some? then FailFast(a, fs) else FailFast(b, fs)
  {
    FirstMissingAppend(a, b, fs);
    match FirstMissing(a, fs)
    case Some(k) =>
      assert (a + b)[k] == a[k];
    case None =>
      match FirstMissing(b, fs)
      case Some(k) =>
        assert (a + b)[|a| + k] == b[k];
      case None =>
  }

  /** ... and asks the filesystem about the same paths, in the same order. */
  lemma {:induction false} ProbedAppend(a: seq<Probe>, b: seq<Probe>, fs: set<string>)
    ensures Probed(a + b, fs) == if FirstMissing(a, fs).Some? then Probed(a, fs) else Probed(a, fs) + Probed(b, fs)
  {
    if a == [] {
      assert a + b == b;
    } else {
      assert (a + b)[0] == a[0];
      assert (a + b)[1..] == a[1..] + b;
      ProbedAppend(a[1..], b, fs);
    }
  }

  /** Probed is every non-empty path up to and including the first missing
      one, and none after it; all the non-empty paths when none is missing. */
  lemma {:induction false} ProbedIsPrefixOfNonEmpty(probes: seq<Probe>, fs: set<string>)
    ensures Probed(probes, fs) ==
      match FirstMissing(probes, fs)
      case None => NonEmptyPaths(probes)
      case Some(k) => NonEmptyPaths(probes[..k + 1])
  {
    if probes != [] {
      var rest := probes[1..];
      ProbedIsPrefixOfNonEmpty(rest, fs);
      match FirstMissing(rest, fs)
      case None =>
      case Some(k) =>
        assert probes[..k + 2][1..] == rest[..k + 1];
      if Missing(probes[0], fs) {
        assert probes[..1][1..] == [];
      }
    }
  }

  /** A single path check is a fail-fast run over one probe. */
  lemma CheckFileExistsIsProbe(path: string, description: string, fs: set<string>)
    ensures CheckFileExists(Some(path), description, fs) == FailFast([Probe(path, description)], fs)
  {
    assert [Probe(path, description)][1..] == [];
  }

  /** checkFilesExist. An empty or null list passes. Otherwise the loop checks
      the entries in list order and stops at the first missing one; `probed`
      lists the paths whose existence it asked for. */
  method CheckFilesExist(filePaths: Option<seq<StringWarp>>, description: string, fs: set<string>)
    returns (thrown: Option<Throwable>, probed: seq<string>)
    ensures thrown == FailFast(ListProbes(filePaths, description), fs)
    ensures probed == Probed(ListProbes(filePaths, description), fs)
  {
    ghost var probes := ListProbes(filePaths, description);
    thrown, probed := None, [];
    if filePaths.Some? && |filePaths.value| > 0 {
      var paths := filePaths.value;
      for i := 0 to |paths|
        invariant thrown.None?
        invariant FirstMissing(probes[..i], fs).None?
        invariant probed == Probed(probes[..i], fs)
      {
        var filePath := paths[i].item;
        assert probes[..i + 1] == probes[..i] + [probes[i]];
        FirstMissingAppend(probes[..i], [probes[i]], fs);
        ProbedAppend(probes[..i], [probes[i]], fs);
        assert [probes[i]][1..] == [];
        if filePath != [] {
          probed := probed + [filePath];
        }
        thrown := CheckFileExists(Some(filePath), description, fs);
        if thrown.Some? {
          FirstMissingAppend(probes[..i + 1], probes[i + 1..], fs);
          ProbedAppend(probes[..i + 1], probes[i + 1..], fs);
          assert probes[..i + 1] + probes[i + 1..] == probes;
          return;
        }
      }
      assert probes[..|paths|] == probes;
    }
  }

  /** setUp checks in a fixed order: the app file, the keystore, the
      certificate, then every entitlement, then every provisioning profile.
      The gate reports the failure of the first stage that fails, in that order. */
  lemma GateOrder(c: Config, fs: set<string>)
    ensures Gate(c, fs) ==
      var app := CheckFileExists(Some(c.appFilePath), "App File Path", fs);
      var keystore := CheckFileExists(Some(c.keystoreFilePath), "Keystore File Path", fs);
      var certificate := CheckFileExists(Some(c.certificateFilePath), "Certificate File Path", fs);
      var entitlements := FailFast(ListProbes(Some(c.entitlementsPath), "Entitlements Path"), fs);
      var profiles := FailFast(ListProbes(Some(c.mobileProvisionProfilesPath), "Mobile Provision Profiles Path"), fs);
      if app.Some? then app
      else if keystore.Some? then keystore
      else if certificate.Some? then certificate
      else if entitlements.Some? then entitlements
      else profiles
  {
    var p1 := Probe(c.appFilePath, "App File Path");
    var p2 := Probe(c.keystoreFilePath, "Keystore File Path");
    var p3 := Probe(c.certificateFilePath, "Certificate File Path");
    var e := ListProbes(Some(c.entitlementsPath), "Entitlements Path");
    var m := ListProbes(Some(c.mobileProvisionProfilesPath), "Mobile Provision Profiles Path");
    CheckFileExistsIsProbe(p1.path, p1.description, fs);
    CheckFileExistsIsProbe(p2.path, p2.description, fs);
    CheckFileExistsIsProbe(p3.path, p3.description, fs);
    assert GateProbes(c) == [p1] + ([p2] + ([p3] + (e + m)));
    FailFastAppend(e, m, fs);
    FailFastAppend([p3], e + m, fs);
    FailFastAppend([p2], [p3] + (e + m), fs);
    FailFastAppend([p1], [p2] + ([p3] + (e + m)), fs);
  }

  /** checkFilesExist fails exactly when some non-empty entry is missing, and
      then with the message naming the first such entry. */
  lemma CheckFilesExistFailsOnFirstMissing(paths: seq<StringWarp>, description: string, fs: set<string>, k: nat)
    requires k < |paths| && paths[k].item != [] && paths[k].item !in fs
    requires forall j :: 0 <= j < k ==> paths[j].item == [] || paths[j].item in fs
    ensures FailFast(ListProbes(Some(paths), description), fs) == Some(IllegalArgument(description + " does not exist: " + paths[k].item))
    ensures Probed(ListProbes(Some(paths), description), fs) == NonEmptyPaths(ListProbes(Some(paths[..k + 1]), description))
  {
    var probes := ListProbes(Some(paths), description);
    assert Missing(probes[k], fs);
    var r := FirstMissing(probes, fs);
    assert r.Some?;
    assert r.value == k by {
      assert !(r.value < k) by { assert !Missing(probes[r.value], fs) || r.value >= k; }
    }
    assert probes[k] == Probe(paths[k].item, description);
    assert ListProbes(Some(paths[..k + 1]), description) == probes[..k + 1];
    ProbedIsPrefixOfNonEmpty(probes, fs);
  }

  /** A list check passes exactly when every entry is empty or exists. */
  lemma ListProbesPass(paths: seq<StringWarp>, description: string, fs: set<string>)
    ensures FailFast(ListProbes(Some(paths), description), fs).None? <==>
              forall i :: 0 <= i < |paths| ==> paths[i].item == [] || paths[i].item in fs
  {
    var probes := ListProbes(Some(paths), description);
    if FailFast(probes, fs).None? {
      forall i | 0 <= i < |paths| ensures paths[i].item == [] || paths[i].item in fs {
        assert !Missing(probes[i], fs);
      }
    }
  }

  /** setUp's checks pass exactly when every configured path is empty or exists. */
  lemma GatePassesIff(c: Config, fs: set<string>)
    ensures Gate(c, fs).None? <==> AllPresent(c, fs)
  {
    GateOrder(c, fs);
    ListProbesPass(c.entitlementsPath, "Entitlements Path", fs);
    ListProbesPass(c.mobileProvisionProfilesPath, "Mobile Provision Profiles Path", fs);
  }

  /** When nothing is missing, every path asked about exists; otherwise the
      last path asked about is the first missing one. */
  lemma {:induction false} ProbedEndsAtFirstMissing(probes: seq<Probe>, fs: set<string>)
    ensures FirstMissing(probes, fs).None? ==> forall i :: 0 <= i < |Probed(probes, fs)| ==> Probed(probes, fs)[i] in fs
    ensures FirstMissing(probes, fs).Some? ==>
              Probed(probes, fs) != [] && Probed(probes, fs)[|Probed(probes, fs)| - 1] == probes[FirstMissing(probes, fs).value].path
  {
    if probes != [] {
      ProbedEndsAtFirstMissing(probes[1..], fs);
    }
  }
}
