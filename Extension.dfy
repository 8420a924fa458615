/**
 * getFileExtension: the lower-cased text after the last '.' of a file name,
 * or null when the name is null, empty, or has no '.'. The result is the
 * platform tag the dispatcher switches on.
 */
module Extension {
  import opened Wrappers
  import opened JavaLang

  function GetFileExtension(fileName: Option<string>): (r: Option<string>)
    ensures r.None? <==> fileName.None? || fileName.value == [] || '.' !in fileName.value
    ensures r.Some? ==>
              var s, e := fileName.value, r.value;
              |e| < |s| && s[|s| - |e| - 1] == '.' && '.' !in s[|s| - |e|..] && e == ToLower(s[|s| - |e|..])
    ensures r.Some? ==> '.' !in r.value && forall i :: 0 <= i < |r.value| ==> !IsUpper(r.value[i])
  {
    if fileName.None? || fileName.value == [] then None
    else
      var s := fileName.value;
      var dotIndex := LastIndexOf(s, '.');
      if dotIndex >= 0 then
        ToLowerKeeps(s[dotIndex + 1..], '.');
        Some(ToLower(s[dotIndex + 1..]))
      else
        None
  }

  /** Any string whose last '.' sits at index k has the lower-cased rest as its extension. */
  lemma ExtensionAt(s: string, k: nat)
    requires k < |s| && s[k] == '.'
    requires forall j :: k < j < |s| ==> s[j] != '.'
    ensures GetFileExtension(Some(s)) == Some(ToLower(s[k + 1..]))
  {
    assert LastIndexOf(s, '.') == k;
  }

  /** The classification ignores case: names that differ only in the case of
      their letters have the same extension ("App.IPA" and "app.ipa"). */
  lemma ExtensionIgnoresCase(a: string, b: string)
    requires ToLower(a) == ToLower(b)
    ensures GetFileExtension(Some(a)) == GetFileExtension(Some(b))
  {
    forall j | 0 <= j < |a| ensures a[j] == '.' <==> b[j] == '.' {
      assert ToLower(a)[j] == ToLower(b)[j];
    }
    LastIndexOfSamePositions(a, b, '.');
    var d := LastIndexOf(a, '.');
    if d >= 0 {
      ToLowerSuffix(a, d + 1);
      ToLowerSuffix(b, d + 1);
    }
  }

  /** "App.IPA" and "app.ipa" both give "ipa". */
  lemma IpaExamples()
    ensures GetFileExtension(Some("App.IPA")) == Some("ipa")
    ensures GetFileExtension(Some("app.ipa")) == Some("ipa")
  {
    ExtensionAt("app.ipa", 3);
    assert "app.ipa"[4..] == "ipa";
    assert ToLower("ipa") == "ipa";
    ExtensionAt("App.IPA", 3);
    assert "App.IPA"[4..] == "IPA";
    assert ToLower("IPA") == "ipa";
  }

  /** "build.aab" gives "aab"; a trailing dot gives the empty extension, not null. */
  lemma AabAndTrailingDotExamples()
    ensures GetFileExtension(Some("build.aab")) == Some("aab")
    ensures GetFileExtension(Some("archive.")) == Some("")
  {
    ExtensionAt("build.aab", 5);
    assert ToLower("aab") == "aab";
    ExtensionAt("archive.", 7);
  }

  /** "build.apk" gives "apk". */
  lemma ApkExample()
    ensures GetFileExtension(Some("build.apk")) == Some("apk")
  {
    ExtensionAt("build.apk", 5);
    assert "build.apk"[6..] == "apk";
    assert ToLower("apk") == "apk";
  }

  /** A name without a dot, an empty name and a null name give null. */
  lemma NoExtensionExamples()
    ensures GetFileExtension(Some("noext")) == None
    ensures GetFileExtension(Some("")) == None
    ensures GetFileExtension(None) == None
  {
  }
}
