/**
 * The parts of java.lang that the pipeline test relies on: lastIndexOf,
 * (ASCII) toLowerCase, equalsIgnoreCase / Boolean.parseBoolean, the rendering
 * of a null reference by string concatenation, and the two kinds of Throwable
 * that behave differently under `catch (Exception e)`.
 */
module JavaLang {
  import opened Wrappers

  /** The two kinds of Throwable that `catch (Exception e)` tells apart: an
      Exception is caught; an Error is not. JUnit's fail throws an
      AssertionError, which is an Error; a collaborator may throw either kind. */
  datatype ThrowKind = Exception | Error

  datatype Throwable = Throwable(kind: ThrowKind, message: Option<string>)

  /** `new IllegalArgumentException(message)` */
  function IllegalArgument(message: string): Throwable {
    Throwable(Exception, Some(message))
  }

  /** What JUnit's `fail(message)` throws: an AssertionError, an Error. */
  function Failure(message: string): Throwable {
    Throwable(Error, Some(message))
  }

  /** String concatenation writes a null reference as "null". */
  function Render(s: Option<string>): string {
    match s
    case None => "null"
    case Some(v) => v
  }

  predicate IsUpper(c: char) {
    'A' <= c <= 'Z'
  }

  /** Character.toLowerCase restricted to ASCII letters. */
  function ToLowerChar(c: char): (r: char)
    ensures !IsUpper(r)
    ensures !IsUpper(c) ==> r == c
    ensures IsUpper(c) ==> 'a' <= r <= 'z' && r as int - c as int == 'a' as int - 'A' as int
  {
    if IsUpper(c) then (c as int - 'A' as int + 'a' as int) as char else c
  }

  /** String.toLowerCase, character by character. */
  function ToLower(s: string): (r: string)
    ensures |r| == |s|
    ensures forall i :: 0 <= i < |s| ==> r[i] == ToLowerChar(s[i])
  {
    if s == [] then [] else [ToLowerChar(s[0])] + ToLower(s[1..])
  }

  /** Lower-casing never creates or removes a given non-letter character. */
  lemma {:induction false} ToLowerKeeps(s: string, c: char)
    requires !IsUpper(c) && !('a' <= c <= 'z')
    ensures c in ToLower(s) <==> c in s
  {
    if c in ToLower(s) {
      var i :| 0 <= i < |s| && ToLower(s)[i] == c;
      assert s[i] == c;
    }
    if c in s {
      var i :| 0 <= i < |s| && s[i] == c;
      assert ToLower(s)[i] == c;
    }
  }

  /** Lower-casing commutes with taking a suffix. */
  lemma ToLowerSuffix(s: string, k: nat)
    requires k <= |s|
    ensures ToLower(s[k..]) == ToLower(s)[k..]
  {
  }

  /** String.lastIndexOf(c): the index of the last occurrence of c, or -1. */
  function LastIndexOf(s: string, c: char): (r: int)
    ensures -1 <= r < |s|
    ensures r >= 0 ==> s[r] == c
    ensures forall j :: r < j < |s| ==> s[j] != c
  {
    if s == [] then -1
    else if s[|s| - 1] == c then |s| - 1
    else LastIndexOf(s[..|s| - 1], c)
  }

  /** Two strings with c at the same positions have the same last index of c. */
  lemma LastIndexOfSamePositions(a: string, b: string, c: char)
    requires |a| == |b|
    requires forall j :: 0 <= j < |a| ==> (a[j] == c <==> b[j] == c)
    ensures LastIndexOf(a, c) == LastIndexOf(b, c)
  {
  }

  /** String.equalsIgnoreCase on ASCII text: same length, same letters up to
      case, compared character by character; the same as comparing the two
      lower-cased strings. */
  function EqualsIgnoreCase(a: string, b: string): (r: bool)
    ensures r <==> ToLower(a) == ToLower(b)
  {
    |a| == |b| && forall i :: 0 <= i < |a| ==> ToLowerChar(a[i]) == ToLowerChar(b[i])
  }

  /** Boolean.parseBoolean(s) is "true".equalsIgnoreCase(s): true exactly for
      the spellings of "true" in any case, all of which have four letters. */
  function ParseBoolean(s: string): (r: bool)
    ensures r <==> ToLower(s) == "true"
    ensures r ==> |s| == 4
  {
    EqualsIgnoreCase("true", s)
  }
}
