/**
 * The include/exclude request matcher shared by every interceptor
 * (`matchPattern` and `createMatcher`). Glob matching is done by an external
 * library; here it is the parameter `glob(url, pattern)`, and every property
 * below holds whatever that predicate is.
 */
module Utils {
  import opened Wrappers

  /** `minimatch(url, pattern)`, left uninterpreted. */
  type Glob = (string, string) -> bool

  const MethodPrefix: string := "method:"

  predicate StartsWith(s: string, prefix: string) {
    |prefix| <= |s| && s[..|prefix|] == prefix
  }

  /** The code points `String.prototype.trim` strips: ECMAScript WhiteSpace and LineTerminator. */
  predicate IsTrimmable(c: char) {
    || c == '\t' || c == '\n' || c == '\U{000B}' || c == '\U{000C}' || c == '\r' || c == ' '
    || c == '\U{00A0}' || c == '\U{1680}' || ('\U{2000}' <= c <= '\U{200A}')
    || c == '\U{2028}' || c == '\U{2029}' || c == '\U{202F}' || c == '\U{205F}'
    || c == '\U{3000}' || c == '\U{FEFF}'
  }

  function TrimStart(s: string): (r: string)
    ensures |r| <= |s| && r == s[|s| - |r|..]
    ensures forall i :: 0 <= i < |s| - |r| ==> IsTrimmable(s[i])
    ensures r == [] || !IsTrimmable(r[0])
  {
    if |s| > 0 && IsTrimmable(s[0]) then TrimStart(s[1..]) else s
  }

  function TrimEnd(s: string): (r: string)
    ensures |r| <= |s| && r == s[..|r|]
    ensures forall i :: |r| <= i < |s| ==> IsTrimmable(s[i])
    ensures r == [] || !IsTrimmable(r[|r| - 1])
  {
    if |s| > 0 && IsTrimmable(s[|s| - 1]) then TrimEnd(s[..|s| - 1]) else s
  }

  /** Everything of `s` before `i` and from `j` on is white space. */
  predicate WhiteOutside(s: string, i: nat, j: nat)
    requires i <= j <= |s|
  {
    (forall k :: 0 <= k < i ==> IsTrimmable(s[k])) && (forall k :: j <= k < |s| ==> IsTrimmable(s[k]))
  }

  /**
   * `s.trim()`: `s` with only a run of white space removed from each end, so
   * that neither end of the result is white space.
   */
  function Trim(s: string): (r: string)
    ensures exists i, j :: 0 <= i <= j <= |s| && r == s[i..j] && WhiteOutside(s, i, j)
    ensures r == [] || (!IsTrimmable(r[0]) && !IsTrimmable(r[|r| - 1]))
    ensures (s == [] || (!IsTrimmable(s[0]) && !IsTrimmable(s[|s| - 1]))) ==> r == s
  {
    TrimIsSlice(s, TrimStart(s), TrimEnd(TrimStart(s)));
    TrimEnd(TrimStart(s))
  }

  /**
   * The witness for `Trim`: `t` is `s` less a white prefix and `r` is `t` less
   * a white suffix, so `r` is a slice of `s` with only white space outside it.
   */
  lemma TrimIsSlice(s: string, t: string, r: string)
    requires |t| <= |s| && t == s[|s| - |t|..]
    requires forall k :: 0 <= k < |s| - |t| ==> IsTrimmable(s[k])
    requires |r| <= |t| && r == t[..|r|]
    requires forall k :: |r| <= k < |t| ==> IsTrimmable(t[k])
    ensures exists i, j :: 0 <= i <= j <= |s| && r == s[i..j] && WhiteOutside(s, i, j)
  {
    var i := |s| - |t|;
    var j := i + |r|;
    SliceOfSuffix(s, i, |r|);
    forall k | j <= k < |s|
      ensures IsTrimmable(s[k])
    {
      assert t[k - i] == s[k];
    }
    assert WhiteOutside(s, i, j);
  }

  lemma SliceOfSuffix(s: string, i: nat, n: nat)
    requires i + n <= |s|
    ensures s[i..][..n] == s[i..i + n]
  {
  }

  /** `s.indexOf(pat)`: the first position where `pat` occurs in `s`. */
  function IndexOf(s: string, pat: string): (r: Option<nat>)
    ensures r.Some? ==> r.value + |pat| <= |s| && s[r.value..r.value + |pat|] == pat
    ensures r.Some? ==> forall j :: 0 <= j < r.value ==> !StartsWith(s[j..], pat)
    ensures r.None? ==> forall j :: 0 <= j <= |s| ==> !StartsWith(s[j..], pat)
    decreases |s|
  {
    if StartsWith(s, pat) then Some(0)
    else if |s| == 0 then None
    else
      var rest := IndexOf(s[1..], pat);
      DropOne(s);
      if rest.Some? then Some(rest.value + 1) else None
  }

  lemma DropOne(s: string)
    requires |s| > 0
    ensures forall j :: 1 <= j <= |s| ==> s[j..] == s[1..][j - 1..]
  {
  }

  /** `s.replace(pat, rep)` with a string pattern: only the first occurrence is replaced. */
  function ReplaceFirst(s: string, pat: string, rep: string): string {
    var i := IndexOf(s, pat);
    if i.Some? then s[..i.value] + rep + s[i.value + |pat|..] else s
  }

  /**
   * `matchPattern`: a `method:` pattern names an HTTP method and never looks at
   * the URL; any other pattern is a glob over the URL and never looks at the method.
   */
  function MatchPattern(pattern: string, verb: string, url: string, glob: Glob): (r: bool)
    ensures StartsWith(pattern, MethodPrefix) ==> (r <==> Trim(pattern[|MethodPrefix|..]) == verb)
    ensures !StartsWith(pattern, MethodPrefix) ==> (r <==> glob(url, pattern))
  {
    if StartsWith(pattern, MethodPrefix) then
      assert IndexOf(pattern, MethodPrefix) == Some(0);
      assert ReplaceFirst(pattern, MethodPrefix, "") == pattern[|MethodPrefix|..];
      Trim(ReplaceFirst(pattern, MethodPrefix, "")) == verb
    else
      glob(url, pattern)
  }

  /** `patterns.some(test)`: stops at the first pattern that passes. */
  function AnyMatch(patterns: seq<string>, test: string -> bool): (r: bool)
    ensures r <==> exists i :: 0 <= i < |patterns| && test(patterns[i])
  {
    if |patterns| == 0 then false
    else if test(patterns[0]) then true
    else
      assert forall i :: 1 <= i < |patterns| ==> patterns[i] == patterns[1..][i - 1];
      AnyMatch(patterns[1..], test)
  }

  /** The test `createMatcher` hands to `.some` for one request. */
  function PatternTest(verb: string, url: string, glob: Glob): string -> bool {
    pattern => MatchPattern(pattern, verb, url, glob)
  }

  /** The two optional pattern lists given to `createMatcher`. */
  datatype MatchSpec = MatchSpec(includes: Option<seq<string>>, excludes: Option<seq<string>>)

  /**
   * The matcher `createMatcher(include, exclude)` returns, applied to a request.
   * Both lists absent: everything matches. Otherwise an exclude hit rejects; an
   * absent include list accepts; a present include list (even an empty one)
   * needs a hit.
   */
  function Matches(spec: MatchSpec, verb: string, url: string, glob: Glob): (r: bool)
    ensures r <==>
      || (spec.includes.None? && spec.excludes.None?)
      || (&& (spec.excludes.None? ||
                forall i :: 0 <= i < |spec.excludes.value| ==>
                  !MatchPattern(spec.excludes.value[i], verb, url, glob))
          && (spec.includes.None? ||
                exists i :: 0 <= i < |spec.includes.value| &&
                  MatchPattern(spec.includes.value[i], verb, url, glob)))
  {
    if spec.includes.None? && spec.excludes.None? then true
    else if AnyMatch(spec.excludes.GetOr([]), PatternTest(verb, url, glob)) then false
    else if spec.includes.None? then true
    else AnyMatch(spec.includes.GetOr([]), PatternTest(verb, url, glob))
  }

  lemma MatchesEverythingWhenUnconfigured(verb: string, url: string, glob: Glob)
    ensures Matches(MatchSpec(None, None), verb, url, glob)
  {
  }

  lemma ExcludeWins(spec: MatchSpec, verb: string, url: string, glob: Glob, i: nat)
    requires spec.excludes.Some? && i < |spec.excludes.value|
    requires MatchPattern(spec.excludes.value[i], verb, url, glob)
    ensures !Matches(spec, verb, url, glob)
  {
  }

  lemma AbsentIncludeAccepts(excludes: Option<seq<string>>, verb: string, url: string, glob: Glob)
    requires !AnyMatch(excludes.GetOr([]), PatternTest(verb, url, glob))
    ensures Matches(MatchSpec(None, excludes), verb, url, glob)
  {
  }

  /** A present include list decides alone once nothing is excluded; empty, it rejects everything. */
  lemma PresentIncludeDecides(includes: seq<string>, excludes: Option<seq<string>>, verb: string, url: string, glob: Glob)
    requires !AnyMatch(excludes.GetOr([]), PatternTest(verb, url, glob))
    ensures Matches(MatchSpec(Some(includes), excludes), verb, url, glob) <==> AnyMatch(includes, PatternTest(verb, url, glob))
    ensures includes == [] ==> !Matches(MatchSpec(Some(includes), excludes), verb, url, glob)
  {
  }

  /** One more exclude pattern can only turn a match into a miss. */
  lemma {:induction false} AddExcludeNarrows(spec: MatchSpec, p: string, verb: string, url: string, glob: Glob)
    ensures Matches(MatchSpec(spec.includes, Some(spec.excludes.GetOr([]) + [p])), verb, url, glob)
        ==> Matches(spec, verb, url, glob)
  {
    var ex := spec.excludes.GetOr([]);
    var ex' := ex + [p];
    if AnyMatch(ex, PatternTest(verb, url, glob)) {
      var i :| 0 <= i < |ex| && MatchPattern(ex[i], verb, url, glob);
      assert ex'[i] == ex[i];
      assert AnyMatch(ex', PatternTest(verb, url, glob));
    }
  }

  /** One more include pattern on a present include list can only turn a miss into a match. */
  lemma {:induction false} AddIncludeWidens(includes: seq<string>, excludes: Option<seq<string>>, p: string, verb: string, url: string, glob: Glob)
    ensures Matches(MatchSpec(Some(includes), excludes), verb, url, glob)
        ==> Matches(MatchSpec(Some(includes + [p]), excludes), verb, url, glob)
  {
    if AnyMatch(includes, PatternTest(verb, url, glob)) {
      var i :| 0 <= i < |includes| && MatchPattern(includes[i], verb, url, glob);
      assert (includes + [p])[i] == includes[i];
      assert AnyMatch(includes + [p], PatternTest(verb, url, glob));
    }
  }
}
