/**
 * Node version strings as nvm lists them: normalising a user-entered version
 * (src/utils/nvm.ts, normalizeNvmVersion) and finding the installed version a
 * target refers to (findInstalledNodeVersion).
 */
module Nvm {
  import opened Wrappers
  import Text

  /** The characters JavaScript's `String.prototype.trim` removes: WhiteSpace and LineTerminator. */
  predicate IsJsSpace(c: char) {
    c == '\t' || c == '\n' || c == '\U{000B}' || c == '\U{000C}' || c == '\r' || c == ' '
    || c == '\U{00A0}' || c == '\U{1680}' || ('\U{2000}' <= c <= '\U{200A}')
    || c == '\U{2028}' || c == '\U{2029}' || c == '\U{202F}' || c == '\U{205F}'
    || c == '\U{3000}' || c == '\U{FEFF}'
  }

  predicate AllSpace(s: string) {
    forall i :: 0 <= i < |s| ==> IsJsSpace(s[i])
  }

  function TrimStart(s: string): (r: string)
    ensures |r| <= |s| && r == s[|s| - |r|..]
    ensures AllSpace(s[..|s| - |r|])
    ensures r != [] ==> !IsJsSpace(r[0])
  {
    if s != [] && IsJsSpace(s[0]) then TrimStart(s[1..]) else s
  }

  function TrimEnd(s: string): (r: string)
    ensures |r| <= |s| && r == s[..|r|]
    ensures AllSpace(s[|r|..])
    ensures r != [] ==> !IsJsSpace(r[|r| - 1])
  {
    if s != [] && IsJsSpace(s[|s| - 1]) then TrimEnd(s[..|s| - 1]) else s
  }

  /** `s` without its leading and trailing white space. */
  function Trim(s: string): string {
    TrimEnd(TrimStart(s))
  }

  /** `s` with one leading `v` removed, `s.toLowerCase().startsWith('v') ? s.slice(1) : s`. */
  function StripV(s: string): (r: string)
    ensures r == s || (s != [] && (s[0] == 'v' || s[0] == 'V') && r == s[1..])
  {
    if s != [] && (s[0] == 'v' || s[0] == 'V') then s[1..] else s
  }

  predicate IsDigit(c: char) {
    '0' <= c <= '9'
  }

  predicate AllDigits(s: string) {
    forall i :: 0 <= i < |s| ==> IsDigit(s[i])
  }

  predicate IsDigitGroup(g: string) {
    g != [] && AllDigits(g)
  }

  /** One to three non-empty groups of ASCII digits separated by single dots. */
  predicate IsVersion(s: string) {
    var groups := Text.Split(s, '.');
    |groups| <= 3 && forall i :: 0 <= i < |groups| ==> IsDigitGroup(groups[i])
  }

  /** `s` matches `\d+(\.\d+){0,k}$`: a digit group followed by at most `k` more. */
  predicate MatchGroup(s: string, k: nat)
    decreases |s|, 1
  {
    s != [] && IsDigit(s[0]) && MatchRest(s[1..], k)
  }

  /** `s` matches `\d*(\.\d+){0,k}$`: the rest of a digit group followed by at most `k` more. */
  predicate MatchRest(s: string, k: nat)
    decreases |s|, 0
  {
    if s == [] then true
    else if IsDigit(s[0]) then MatchRest(s[1..], k)
    else s[0] == '.' && k > 0 && MatchGroup(s[1..], k - 1)
  }

  /** The test of the regular expression /^\d+(\.\d+){0,2}$/. */
  predicate MatchesVersionPattern(s: string) {
    MatchGroup(s, 2)
  }

  lemma AllDigitsCons(c: char, x: string)
    requires IsDigit(c)
    ensures AllDigits([c] + x) <==> AllDigits(x)
  {
    assert forall i :: 0 <= i < |x| ==> ([c] + x)[i + 1] == x[i];
  }

  lemma {:induction false} MatchGroupIff(s: string, k: nat)
    ensures MatchGroup(s, k) <==>
      (|Text.Split(s, '.')| <= k + 1 && forall i :: 0 <= i < |Text.Split(s, '.')| ==> IsDigitGroup(Text.Split(s, '.')[i]))
    decreases |s|, 1
  {
    var parts := Text.Split(s, '.');
    if s != [] {
      var rest := Text.Split(s[1..], '.');
      if IsDigit(s[0]) {
        MatchRestIff(s[1..], k);
        assert parts == [[s[0]] + rest[0]] + rest[1..];
        assert forall i :: 1 <= i < |parts| ==> parts[i] == rest[i];
        AllDigitsCons(s[0], rest[0]);
        assert IsDigitGroup(parts[0]) <==> AllDigits(rest[0]);
        assert (forall i :: 0 <= i < |parts| ==> IsDigitGroup(parts[i]))
           <==> (IsDigitGroup(parts[0]) && forall i :: 1 <= i < |rest| ==> IsDigitGroup(rest[i]));
      } else if s[0] == '.' {
        assert parts[0] == [];
        assert !IsDigitGroup(parts[0]);
      } else {
        assert parts[0][0] == s[0];
        assert !IsDigitGroup(parts[0]);
      }
    } else {
      assert parts == [[]];
      assert !IsDigitGroup(parts[0]);
    }
  }

  lemma {:induction false} MatchRestIff(s: string, k: nat)
    ensures MatchRest(s, k) <==>
      (|Text.Split(s, '.')| <= k + 1 && AllDigits(Text.Split(s, '.')[0])
       && forall i :: 1 <= i < |Text.Split(s, '.')| ==> IsDigitGroup(Text.Split(s, '.')[i]))
    decreases |s|, 0
  {
    var parts := Text.Split(s, '.');
    if s != [] {
      var rest := Text.Split(s[1..], '.');
      if IsDigit(s[0]) {
        MatchRestIff(s[1..], k);
        assert parts == [[s[0]] + rest[0]] + rest[1..];
        assert forall i :: 1 <= i < |parts| ==> parts[i] == rest[i];
        AllDigitsCons(s[0], rest[0]);
      } else if s[0] == '.' {
        assert parts == [[]] + rest;
        assert forall i :: 1 <= i < |parts| ==> parts[i] == rest[i - 1];
        assert (forall i :: 1 <= i < |parts| ==> IsDigitGroup(parts[i]))
           <==> (forall i :: 0 <= i < |rest| ==> IsDigitGroup(rest[i])) by {
          if forall i :: 0 <= i < |rest| ==> IsDigitGroup(rest[i]) {
            forall i | 1 <= i < |parts| ensures IsDigitGroup(parts[i]) {
              assert parts[i] == rest[i - 1];
            }
          }
          if forall i :: 1 <= i < |parts| ==> IsDigitGroup(parts[i]) {
            forall i | 0 <= i < |rest| ensures IsDigitGroup(rest[i]) {
              assert parts[i + 1] == rest[i];
            }
          }
        }
        assert AllDigits(parts[0]);
        if k > 0 {
          MatchGroupIff(s[1..], k - 1);
        }
      } else {
        assert parts[0][0] == s[0];
      }
    }
  }

  /** The regular expression accepts exactly the versions. */
  lemma PatternIsVersion(s: string)
    ensures MatchesVersionPattern(s) <==> IsVersion(s)
  {
    MatchGroupIff(s, 2);
  }

  lemma {:induction false} MatchRestShape(s: string, k: nat)
    requires MatchRest(s, k) && s != []
    ensures IsDigit(s[|s| - 1])
    decreases |s|, 0
  {
    if IsDigit(s[0]) {
      if |s| > 1 { MatchRestShape(s[1..], k); }
    } else {
      MatchGroupShape(s[1..], k - 1);
    }
  }

  lemma {:induction false} MatchGroupShape(s: string, k: nat)
    requires MatchGroup(s, k)
    ensures IsDigit(s[0]) && IsDigit(s[|s| - 1])
    decreases |s|, 1
  {
    if |s| > 1 { MatchRestShape(s[1..], k); }
  }

  /** A version begins and ends with a digit, so it has no surrounding white space and no leading `v`. */
  lemma VersionEnds(s: string)
    requires IsVersion(s)
    ensures s != [] && IsDigit(s[0]) && IsDigit(s[|s| - 1])
  {
    PatternIsVersion(s);
    MatchGroupShape(s, 2);
  }

  /** normalizeNvmVersion: null for a missing or blank input, otherwise the trimmed input without
      one leading `v`/`V` provided that is a version, and null when it is not. */
  function NormalizeNvmVersion(raw: Option<string>): (r: Option<string>)
    ensures r.Some? <==> raw.Some? && IsVersion(StripV(Trim(raw.value)))
    ensures r.Some? ==> r.value == StripV(Trim(raw.value))
    ensures r.Some? ==> r.value != [] && IsDigit(r.value[0])
  {
    match raw
    case None => None
    case Some(s) =>
      PatternIsVersion(StripV(Trim(s)));
      if s == "" then None
      else
        var trimmed := Trim(s);
        if trimmed == "" then None
        else
          var normalized := StripV(trimmed);
          PatternIsVersion(normalized);
          if !MatchesVersionPattern(normalized) then None
          else
            VersionEnds(normalized);
            Some(normalized)
  }

  lemma {:induction false} TrimStartSpaces(ws: string, x: string)
    requires AllSpace(ws)
    requires x == [] || !IsJsSpace(x[0])
    ensures TrimStart(ws + x) == x
  {
    if ws != [] {
      assert (ws + x)[1..] == ws[1..] + x;
      TrimStartSpaces(ws[1..], x);
    }
  }

  lemma {:induction false} TrimEndSpaces(x: string, ws: string)
    requires AllSpace(ws)
    requires x == [] || !IsJsSpace(x[|x| - 1])
    ensures TrimEnd(x + ws) == x
  {
    if ws != [] {
      assert (x + ws)[..|x + ws| - 1] == x + ws[..|ws| - 1];
      TrimEndSpaces(x, ws[..|ws| - 1]);
    }
  }

  /** A string that neither begins nor ends with white space trims to itself. */
  lemma TrimUnpadded(x: string)
    requires x == [] || (!IsJsSpace(x[0]) && !IsJsSpace(x[|x| - 1]))
    ensures Trim(x) == x
  {
    TrimStartSpaces("", x);
    assert "" + x == x;
    TrimEndSpaces(x, "");
    assert x + "" == x;
  }

  /** Trimming removes exactly the white space around a core that starts and ends with something else. */
  lemma TrimPadded(before: string, core: string, after: string)
    requires AllSpace(before) && AllSpace(after)
    requires core != [] && !IsJsSpace(core[0]) && !IsJsSpace(core[|core| - 1])
    ensures Trim(before + (core + after)) == core
  {
    var rest := core + after;
    assert rest[0] == core[0];
    TrimStartSpaces(before, rest);
    TrimEndSpaces(core, after);
  }

  lemma Regroup(a: string, b: string, c: string, d: string)
    ensures a + b + c + d == a + ((b + c) + d)
  {
  }

  /** Surrounding white space and one leading `v` or `V` are dropped:
      " v18.2 ", "V18.2" and "18.2" all normalise to "18.2". */
  lemma PaddedVersionNormalizes(before: string, prefix: string, n: string, after: string)
    requires AllSpace(before) && AllSpace(after)
    requires prefix == "" || prefix == "v" || prefix == "V"
    requires IsVersion(n)
    ensures NormalizeNvmVersion(Some(before + prefix + n + after)) == Some(n)
  {
    VersionEnds(n);
    var core := prefix + n;
    assert core[0] == 'v' || core[0] == 'V' || IsDigit(core[0]);
    assert core[|core| - 1] == n[|n| - 1];
    TrimPadded(before, core, after);
    Regroup(before, prefix, n, after);
    assert StripV(core) == n by {
      if prefix == "" { assert core == n; } else { assert core[1..] == n; }
    }
  }

  /** Normalising a normalised version gives it back unchanged. */
  lemma NormalizeIdempotent(raw: Option<string>)
    requires NormalizeNvmVersion(raw).Some?
    ensures NormalizeNvmVersion(NormalizeNvmVersion(raw)) == NormalizeNvmVersion(raw)
  {
    var n := NormalizeNvmVersion(raw).value;
    VersionEnds(n);
    TrimUnpadded(n);
  }

  /** A second `v` is not stripped: "vv18" is refused. */
  lemma RejectsDoubleV()
    ensures NormalizeNvmVersion(Some("vv18")) == None
  {
    TrimUnpadded("vv18");
    assert StripV("vv18") == "v18";
    assert !MatchesVersionPattern("v18");
  }

  /** A group that is not made of digits is refused: "18.x". */
  lemma RejectsNonDigitGroup()
    ensures NormalizeNvmVersion(Some("18.x")) == None
  {
    TrimUnpadded("18.x");
    assert "18.x"[1..] == "8.x" && "8.x"[1..] == ".x" && ".x"[1..] == "x";
    assert !MatchGroup("x", 1);
    assert !MatchesVersionPattern("18.x");
  }

  /** A fourth group is refused: "1.2.3.4". */
  lemma RejectsFourGroups()
    ensures NormalizeNvmVersion(Some("1.2.3.4")) == None
  {
    TrimUnpadded("1.2.3.4");
    assert "1.2.3.4"[1..] == ".2.3.4" && ".2.3.4"[1..] == "2.3.4" && "2.3.4"[1..] == ".3.4";
    assert ".3.4"[1..] == "3.4" && "3.4"[1..] == ".4";
    assert !MatchRest(".4", 0);
    assert !MatchesVersionPattern("1.2.3.4");
  }

  /** An empty last group is refused: "18.". */
  lemma RejectsTrailingDot()
    ensures NormalizeNvmVersion(Some("18.")) == None
  {
    TrimUnpadded("18.");
    assert "18."[1..] == "8." && "8."[1..] == "." && "."[1..] == "";
    assert !MatchGroup("", 1);
    assert !MatchesVersionPattern("18.");
  }

  /** An installed version string refers to `target`: without its leading `v` it is `target` or starts with `target` and a dot. */
  predicate ItemMatches(item: string, target: string) {
    var normalizedItem := StripV(item);
    normalizedItem == target || Text.IsPrefix(target + ".", normalizedItem)
  }

  /** findInstalledNodeVersion: the first listed version that refers to `target`, as listed. */
  function FindInstalledNodeVersion(versions: seq<string>, target: string): (r: Option<string>)
    ensures r.None? <==> forall i :: 0 <= i < |versions| ==> !ItemMatches(versions[i], target)
    ensures r.Some? ==> exists i :: 0 <= i < |versions| && versions[i] == r.value && ItemMatches(versions[i], target)
                                   && forall j :: 0 <= j < i ==> !ItemMatches(versions[j], target)
  {
    if versions == [] then None
    else if ItemMatches(versions[0], target) then Some(versions[0])
    else
      var r := FindInstalledNodeVersion(versions[1..], target);
      assert forall i :: 1 <= i < |versions| ==> versions[i] == versions[1..][i - 1];
      if r.Some? then
        var i :| 0 <= i < |versions[1..]| && versions[1..][i] == r.value && ItemMatches(versions[1..][i], target)
                 && forall j :: 0 <= j < i ==> !ItemMatches(versions[1..][j], target);
        assert versions[i + 1] == r.value;
        assert forall j :: 0 <= j < i + 1 ==> !ItemMatches(versions[j], target);
        r
      else r
  }

  /** Matching respects group boundaries: the target is a whole run of leading groups of the item. */
  lemma ItemMatchesAtBoundary(item: string, target: string)
    ensures ItemMatches(item, target) <==>
      (var n := StripV(item); |target| <= |n| && n[..|target|] == target && (|n| == |target| || n[|target|] == '.'))
  {
    var n := StripV(item);
    if |target| < |n| && n[..|target|] == target && n[|target|] == '.' {
      assert n[..|target| + 1] == target + ".";
    }
    if Text.IsPrefix(target + ".", n) {
      assert n[..|target|] == (target + ".")[..|target|];
    }
  }

  /** Target "18" selects "v18.17.0" and not "v180.1.0". */
  lemma BoundaryExample()
    ensures FindInstalledNodeVersion(["v180.1.0", "v18.17.0"], "18") == Some("v18.17.0")
  {
    ItemMatchesAtBoundary("v180.1.0", "18");
    ItemMatchesAtBoundary("v18.17.0", "18");
    assert StripV("v180.1.0") == "180.1.0";
  }
}
