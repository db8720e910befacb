/** `extractTestcaseName` of sim.cpp: the name a run's output is filed
    under, taken from the input directory's path. The `std::string`
    searches it uses are modelled as functions with their defining
    properties; its digit scan is the method's loop. */
module TestcaseName {
  import opened Common

  /** The word a test-case directory name starts with. */
  const Marker: string := "testcase"

  /** The name used when the path names no test case. */
  const Default: string := "default"

  /** The two separators `find_last_of("/\\")` looks for. */
  predicate IsSeparator(c: char) { c == '/' || c == '\\' }

  /** `isdigit` in the C locale. */
  predicate IsDigit(c: char) { '0' <= c <= '9' }

  /** `s` starts with `p` (`s.find(p) == 0`). */
  predicate StartsWith(s: string, p: string) { |p| <= |s| && s[..|p|] == p }

  /** `p` occurs in `s` at index `i`. */
  predicate OccursAt(s: string, p: string, i: nat) { i + |p| <= |s| && s[i..i + |p|] == p }

  /** `path.find_last_of("/\\")`: the index of the last separator. */
  function LastSeparator(s: string): (r: Option<nat>)
    ensures r.Some? ==> r.value < |s| && IsSeparator(s[r.value])
    ensures r.Some? ==> forall j :: r.value < j < |s| ==> !IsSeparator(s[j])
    ensures r.None? ==> forall j :: 0 <= j < |s| ==> !IsSeparator(s[j])
  {
    if |s| == 0 then None
    else if IsSeparator(s[|s| - 1]) then Some(|s| - 1)
    else LastSeparator(s[..|s| - 1])
  }

  /** `s.find(p, i)`: the first index at or after `i` where `p` occurs. */
  function FindFrom(s: string, p: string, i: nat): (r: Option<nat>)
    requires i <= |s|
    ensures r.Some? ==> i <= r.value && OccursAt(s, p, r.value)
    ensures r.Some? ==> forall j :: i <= j < r.value ==> !OccursAt(s, p, j)
    ensures r.None? ==> forall j :: i <= j <= |s| ==> !OccursAt(s, p, j)
    decreases |s| - i
  {
    if OccursAt(s, p, i) then Some(i)
    else if i == |s| then None
    else FindFrom(s, p, i + 1)
  }

  /** `s.find(p)`: the first occurrence of `p`. */
  function Find(s: string, p: string): Option<nat> { FindFrom(s, p, 0) }

  /** The end of the run of digits that starts at `i`. */
  function DigitRunEnd(s: string, i: nat): (r: nat)
    requires i <= |s|
    ensures i <= r <= |s|
    ensures forall j :: i <= j < r ==> IsDigit(s[j])
    ensures r < |s| ==> !IsDigit(s[r])
    decreases |s| - i
  {
    if i < |s| && IsDigit(s[i]) then DigitRunEnd(s, i + 1) else i
  }

  /** The name `extractTestcaseName` returns for `path`: the component
      after the last separator when it starts with the marker; else the
      marker's first occurrence with the digits that follow it; else the
      default name. */
  function TestcaseNameOf(path: string): string {
    var sep := LastSeparator(path);
    if sep.Some? && StartsWith(path[sep.value + 1..], Marker) then path[sep.value + 1..]
    else
      var pos := Find(path, Marker);
      if pos.Some? then path[pos.value..DigitRunEnd(path, pos.value + |Marker|)]
      else Default
  }

  /** `extractTestcaseName`: the two searches, then the scan that extends
      the marker over the digits after it. */
  method ExtractTestcaseName(path: string) returns (name: string)
    ensures name == TestcaseNameOf(path)
  {
    var lastSlash := LastSeparator(path);
    if lastSlash.Some? {
      var dirname := path[lastSlash.value + 1..];
      if StartsWith(dirname, Marker) {
        return dirname;
      }
    }
    var pos := Find(path, Marker);
    if pos.Some? {
      var start := pos.value;
      var end := start + |Marker|;
      while end < |path| && IsDigit(path[end])
        invariant start + |Marker| <= end <= |path|
        invariant DigitRunEnd(path, end) == DigitRunEnd(path, start + |Marker|)
        decreases |path| - end
      {
        end := end + 1;
      }
      return path[start..end];
    }
    return Default;
  }

  /** The default name is returned exactly when the marker occurs nowhere
      in the path. */
  lemma DefaultIffNoMarker(path: string)
    ensures TestcaseNameOf(path) == Default <==> Find(path, Marker).None?
  {
    var sep := LastSeparator(path);
    if sep.Some? && StartsWith(path[sep.value + 1..], Marker) {
      var r := path[sep.value + 1..];
      assert r[..|Marker|] == Marker;
      assert r != Default by { assert Default[0] == 'd' && Marker[0] == 't'; assert |r| >= 1 && r[0] == 't'; }
      var k := sep.value + 1;
      assert path[k..k + |Marker|] == r[..|Marker|];
      assert OccursAt(path, Marker, k);
    } else {
      var pos := Find(path, Marker);
      if pos.Some? {
        var r := path[pos.value..DigitRunEnd(path, pos.value + |Marker|)];
        assert r[0] == path[pos.value] == Marker[0];
      }
    }
  }

  /** A path whose last component starts with the marker names that
      component, whole, even when other characters follow the digits. */
  lemma LastComponentWins(path: string, k: nat)
    requires k < |path| && IsSeparator(path[k])
    requires forall j :: k < j < |path| ==> !IsSeparator(path[j])
    requires StartsWith(path[k + 1..], Marker)
    ensures TestcaseNameOf(path) == path[k + 1..]
  {
  }

  /** Otherwise the name returned for the path is the marker followed by
      the longest run of digits after its first occurrence, as it stands in
      the path there. */
  lemma MarkerAndDigits(path: string, pos: nat, name: string)
    requires !(LastSeparator(path).Some? && StartsWith(path[LastSeparator(path).value + 1..], Marker))
    requires OccursAt(path, Marker, pos) && forall j :: 0 <= j < pos ==> !OccursAt(path, Marker, j)
    requires name == TestcaseNameOf(path)
    ensures && StartsWith(name, Marker)
            && (forall j :: |Marker| <= j < |name| ==> IsDigit(name[j]))
            && (pos + |name| < |path| ==> !IsDigit(path[pos + |name|]))
            && pos + |name| <= |path| && path[pos..pos + |name|] == name
  {
    NameAtMarker(path, pos);
    MarkerRun(path, pos, name);
  }

  /** In that case the name is the slice of the path from the first marker
      to the end of the digits after it. */
  lemma NameAtMarker(path: string, pos: nat)
    requires !(LastSeparator(path).Some? && StartsWith(path[LastSeparator(path).value + 1..], Marker))
    requires OccursAt(path, Marker, pos) && forall j :: 0 <= j < pos ==> !OccursAt(path, Marker, j)
    ensures TestcaseNameOf(path) == path[pos..DigitRunEnd(path, pos + |Marker|)]
  {
    FindIsFirst(path, Marker, pos);
  }

  /** The slice from an occurrence of the marker to the end of the digit run
      after it starts with the marker and then holds only digits. */
  lemma MarkerRun(path: string, pos: nat, r: string)
    requires OccursAt(path, Marker, pos) && pos + |Marker| <= |path|
    requires r == path[pos..DigitRunEnd(path, pos + |Marker|)]
    ensures && StartsWith(r, Marker)
            && (forall j :: |Marker| <= j < |r| ==> IsDigit(r[j]))
            && (pos + |r| < |path| ==> !IsDigit(path[pos + |r|]))
            && pos + |r| <= |path| && path[pos..pos + |r|] == r
  {
    assert r[..|Marker|] == path[pos..pos + |Marker|];
    assert forall j :: |Marker| <= j < |r| ==> r[j] == path[pos + j];
  }

  /** `find` returns the first occurrence. */
  lemma FindIsFirst(s: string, p: string, pos: nat)
    requires OccursAt(s, p, pos) && forall j :: 0 <= j < pos ==> !OccursAt(s, p, j)
    ensures Find(s, p) == Some(pos)
  {
    var found := Find(s, p);
    if found.Some? {
      assert !(found.value < pos);
      assert !(found.value > pos);
    }
  }

  /** Every name other than the default is a contiguous piece of the
      path. */
  lemma NameIsSubstring(path: string)
    ensures TestcaseNameOf(path) != Default ==>
      exists i, j :: 0 <= i <= j <= |path| && path[i..j] == TestcaseNameOf(path)
  {
    var sep := LastSeparator(path);
    if sep.Some? && StartsWith(path[sep.value + 1..], Marker) {
      assert path[sep.value + 1..|path|] == TestcaseNameOf(path);
    } else {
      var pos := Find(path, Marker);
      if pos.Some? {
        var e := DigitRunEnd(path, pos.value + |Marker|);
        assert path[pos.value..e] == TestcaseNameOf(path);
      }
    }
  }

  /** The shapes the driver meets: an input directory named after its test
      case, and the marker with trailing text and no separator. */
  lemma Examples()
    ensures TestcaseNameOf("in/testcase3") == "testcase3"
    ensures TestcaseNameOf("testcase12x") == "testcase12"
  {
    var p := "in/testcase3";
    assert forall j :: 2 < j < |p| ==> !IsSeparator(p[j]);
    LastComponentWins(p, 2);
    var q := "testcase12x";
    assert forall j :: 0 <= j < |q| ==> !IsSeparator(q[j]);
    assert LastSeparator(q).None?;
    assert OccursAt(q, Marker, 0);
    assert DigitRunEnd(q, 10) == 10;
    assert DigitRunEnd(q, 9) == 10;
    assert DigitRunEnd(q, 8) == 10;
  }
}
