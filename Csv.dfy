/**
 * The conversion of a comma-separated property into a list of StringWarp
 * (convertCsvToListStringWarp), which rests on Java's String.split(",") with
 * limit 0: every comma separates two segments, empty segments at the start
 * and in the middle are kept, empty segments at the end are removed, and an
 * input without any comma comes back as the single segment itself.
 */
module Csv {
  import opened PluginTypes

  /** Every segment between commas, none removed (split with a negative limit). */
  function SplitAll(s: string): (parts: seq<string>)
    ensures |parts| >= 1
    ensures forall i :: 0 <= i < |parts| ==> ',' !in parts[i]
  {
    if s == [] then [[]]
    else
      var init := SplitAll(s[..|s| - 1]);
      var c := s[|s| - 1];
      if c == ',' then init + [[]]
      else init[..|init| - 1] + [init[|init| - 1] + [c]]
  }

  /** String.join(",", parts). */
  function Join(parts: seq<string>): string {
    if |parts| == 0 then []
    else if |parts| == 1 then parts[0]
    else Join(parts[..|parts| - 1]) + "," + parts[|parts| - 1]
  }

  /** Removes the empty segments at the end, and only those. */
  function DropTrailingEmpty(parts: seq<string>): (r: seq<string>)
    ensures |r| <= |parts| && r == parts[..|r|]
    ensures r == [] || r[|r| - 1] != []
    ensures forall i :: |r| <= i < |parts| ==> parts[i] == []
  {
    if |parts| > 0 && parts[|parts| - 1] == [] then DropTrailingEmpty(parts[..|parts| - 1])
    else parts
  }

  /** String.split(",") (limit 0). */
  function Split(s: string): (r: seq<string>)
    ensures forall i :: 0 <= i < |r| ==> ',' !in r[i]
    ensures s == [] ==> r == [[]]
  {
    if ',' !in s then [s] else DropTrailingEmpty(SplitAll(s))
  }

  /** convertCsvToListStringWarp: one wrapper per segment of Split(csv), in order. */
  function ConvertCsvToListStringWarp(csv: string): (r: seq<StringWarp>)
    ensures Items(r) == Split(csv)
    ensures forall i :: 0 <= i < |r| ==> ',' !in r[i].item
    ensures csv == [] ==> r == [StringWarp([])]
  {
    var parts := Split(csv);
    seq(|parts|, i requires 0 <= i < |parts| => StringWarp(parts[i]))
  }

  /** Joining all segments with commas gives back the input. */
  lemma {:induction false} JoinSplitAll(s: string)
    ensures Join(SplitAll(s)) == s
  {
    if s != [] {
      var s' := s[..|s| - 1];
      var c := s[|s| - 1];
      var init := SplitAll(s');
      JoinSplitAll(s');
      var n := |init|;
      if c == ',' {
        assert (init + [[]])[..n] == init;
      } else if n > 1 {
        var parts := init[..n - 1] + [init[n - 1] + [c]];
        assert parts[..n - 1] == init[..n - 1];
        assert Join(init) == Join(init[..n - 1]) + "," + init[n - 1];
        assert Join(parts) == Join(init[..n - 1]) + "," + (init[n - 1] + [c]);
      }
      assert s == s' + [c];
    }
  }

  /** Joining one more segment adds a comma and the segment. */
  lemma JoinSnoc(parts: seq<string>, x: string)
    requires |parts| >= 1
    ensures Join(parts + [x]) == Join(parts) + "," + x
  {
    assert (parts + [x])[..|parts|] == parts;
  }

  /** Extending the last segment by a character extends the joined text by it. */
  lemma JoinExtendLast(parts: seq<string>, x: string, ch: char)
    ensures Join(parts + [x + [ch]]) == Join(parts + [x]) + [ch]
  {
    if parts != [] {
      JoinSnoc(parts, x + [ch]);
      JoinSnoc(parts, x);
    }
  }

  /** A string without a comma is a single segment. */
  lemma {:induction false} SplitAllNoComma(s: string)
    requires ',' !in s
    ensures SplitAll(s) == [s]
  {
    if s != [] {
      var s' := s[..|s| - 1];
      assert forall x :: x in s' ==> x in s;
      SplitAllNoComma(s');
      assert s[|s| - 1] in s;
      assert s == s' + [s[|s| - 1]];
    }
  }

  /** The segments are the only comma-free decomposition of s: any list of
      comma-free strings that joins to s is SplitAll(s). */
  lemma {:induction false} SplitAllUnique(s: string, parts: seq<string>)
    requires |parts| >= 1
    requires forall i :: 0 <= i < |parts| ==> ',' !in parts[i]
    requires Join(parts) == s
    ensures parts == SplitAll(s)
    decreases |s|
  {
    var n := |parts|;
    if n == 1 {
      SplitAllNoComma(s);
    } else {
      var init := parts[..n - 1];
      var last := parts[n - 1];
      assert parts == init + [last];
      JoinSnoc(init, last);
      var s' := s[..|s| - 1];
      if last == [] {
        assert s == Join(init) + [','];
        assert s' == Join(init);
        SplitAllUnique(s', init);
      } else {
        var ch := last[|last| - 1];
        var init' := init + [last[..|last| - 1]];
        assert last == last[..|last| - 1] + [ch];
        JoinExtendLast(init, last[..|last| - 1], ch);
        assert s == Join(init') + [ch];
        assert s' == Join(init');
        assert ch in last;
        SplitAllUnique(s', init');
        assert init'[..n - 1] == init;
      }
    }
  }

  /** Dropping trailing empty segments never lengthens the joined text. */
  lemma {:induction false} JoinDropNoLonger(parts: seq<string>)
    ensures |Join(DropTrailingEmpty(parts))| <= |Join(parts)|
  {
    var n := |parts|;
    if n > 0 && parts[n - 1] == [] {
      JoinDropNoLonger(parts[..n - 1]);
    }
  }

  /** ... and strictly shortens it when there is a separator to lose. */
  lemma JoinDropShorter(parts: seq<string>)
    requires |parts| >= 2 && parts[|parts| - 1] == []
    ensures |Join(DropTrailingEmpty(parts))| < |Join(parts)|
  {
    JoinDropNoLonger(parts[..|parts| - 1]);
  }

  /** Split keeps the segments of s in order and drops only empty ones, at the end. */
  lemma SplitIsPrefixOfSegments(s: string)
    ensures |Split(s)| <= |SplitAll(s)| && Split(s) == SplitAll(s)[..|Split(s)|]
    ensures forall i :: |Split(s)| <= i < |SplitAll(s)| ==> SplitAll(s)[i] == []
  {
    if ',' !in s {
      SplitAllNoComma(s);
    }
  }

  /** Round trip: joining the segments with "," gives back the input exactly
      when the input is empty or does not end in a comma. */
  lemma SplitRoundTrip(s: string)
    ensures Join(Split(s)) == s <==> (s == [] || s[|s| - 1] != ',')
  {
    JoinSplitAll(s);
    if s != [] && ',' in s {
      var parts := SplitAll(s);
      var s' := s[..|s| - 1];
      if s[|s| - 1] == ',' {
        assert parts == SplitAll(s') + [[]];
        JoinDropShorter(parts);
      } else {
        assert parts[|parts| - 1] != [];
        assert DropTrailingEmpty(parts) == parts;
      }
    } else if s != [] {
      assert s[|s| - 1] in s;
    }
  }

  /** Joining only empty segments yields nothing but commas. */
  lemma {:induction false} JoinOfEmpties(parts: seq<string>)
    requires forall i :: 0 <= i < |parts| ==> parts[i] == []
    ensures forall j :: 0 <= j < |Join(parts)| ==> Join(parts)[j] == ','
  {
    if |parts| > 1 {
      JoinOfEmpties(parts[..|parts| - 1]);
    }
  }

  /** A string of commas only is split into empty segments only. */
  lemma {:induction false} SplitAllOfCommas(s: string)
    requires forall j :: 0 <= j < |s| ==> s[j] == ','
    ensures forall i :: 0 <= i < |SplitAll(s)| ==> SplitAll(s)[i] == []
  {
    if s != [] {
      SplitAllOfCommas(s[..|s| - 1]);
    }
  }

  /** Split returns no segment at all exactly when the input is non-empty and
      made of commas only (",", ",,", ...). */
  lemma SplitEmpty(s: string)
    ensures Split(s) == [] <==> (s != [] && forall j :: 0 <= j < |s| ==> s[j] == ',')
  {
    if s != [] && forall j :: 0 <= j < |s| ==> s[j] == ',' {
      assert s[0] in s;
      SplitAllOfCommas(s);
    }
    if Split(s) == [] {
      assert ',' in s;
      JoinSplitAll(s);
      JoinOfEmpties(SplitAll(s));
    }
  }

  /** Two comma-free segments joined by one comma, the second non-empty,
      convert to exactly those two segments. */
  lemma ConvertTwoSegments(a: string, b: string)
    requires ',' !in a && ',' !in b && b != []
    ensures ConvertCsvToListStringWarp(a + "," + b) == [StringWarp(a), StringWarp(b)]
  {
    var s := a + "," + b;
    var parts := [a, b];
    JoinSnoc([a], b);
    assert [a] + [b] == parts;
    SplitAllUnique(s, parts);
    assert s[|a|] == ',';
    assert Split(s) == parts;
  }

  /** The default list "default1,default2" is the two paths "default1" and "default2". */
  lemma DefaultListSplit()
    ensures ConvertCsvToListStringWarp("default1" + "," + "default2") == [StringWarp("default1"), StringWarp("default2")]
  {
    ConvertTwoSegments("default1", "default2");
  }
}
