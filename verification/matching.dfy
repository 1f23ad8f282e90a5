/** The classifier (`Matcher`): sorts an import line into the builtin
    (`OTHER`), external or project (`LOCAL`) category with two patterns. */
module Matching {
  import opened Text

  datatype PackageType = External | Local | Other

  /** The two classification patterns, each a test on the whole line. The
      external one is the fixed regex below (see `NewMatcher`); the local one
      is compiled from the caller's project string by a regex engine and is
      kept uninterpreted. */
  datatype Matcher = Matcher(external: String -> bool, local: String -> bool)

  /** `s[start..slash+1]` matches the regex `.+\..+/`: at least one
      character, a dot at `dot`, at least one character, then a slash at
      `slash`, where `.` matches anything but a line feed. */
  ghost predicate ExternalMatchAt(s: String, start: int, dot: int, slash: int) {
    && 0 <= start < dot
    && dot + 1 < slash < |s|
    && s[dot] == '.'
    && s[slash] == '/'
    && forall j :: start <= j < slash ==> s[j] != '\n'
  }

  /** `Regex::is_match` for `.+\..+/`: a match anywhere in the line. */
  ghost predicate MatchesExternal(s: String) {
    exists start, dot, slash :: ExternalMatchAt(s, start, dot, slash)
  }

  /** A dot at `dot` that can still start a match when the scan reaches `k`:
      a character other than a line feed precedes it, and no line feed
      follows it before `k`. */
  ghost predicate OpenDot(s: String, dot: int, k: int) {
    && 1 <= dot < k <= |s|
    && s[dot] == '.'
    && s[dot - 1] != '\n'
    && forall j :: dot < j < k ==> s[j] != '\n'
  }

  /** What the scanner knows at position `k`: no match ends before `k`, and
      `dot` is the leftmost open dot, or -1 when there is none. */
  ghost predicate ScanInvariant(s: String, k: nat, dot: int) {
    && k <= |s|
    && (forall start, d, j :: j < k ==> !ExternalMatchAt(s, start, d, j))
    && (if dot < 0 then forall d :: !OpenDot(s, d, k)
        else OpenDot(s, dot, k) && forall d :: d < dot ==> !OpenDot(s, d, k))
  }

  /** The open dot after reading `s[k]`. */
  function NextDot(s: String, k: nat, dot: int): int
    requires k < |s|
  {
    if s[k] == '\n' then -1
    else if dot >= 0 then dot
    else if s[k] == '.' && k >= 1 && s[k - 1] != '\n' then k
    else -1
  }

  lemma ScanExternalStep(s: String, k: nat, dot: int)
    requires ScanInvariant(s, k, dot) && k < |s|
    requires !(s[k] == '/' && 0 <= dot && dot + 2 <= k)
    ensures ScanInvariant(s, k + 1, NextDot(s, k, dot))
  {
    forall start, d | ExternalMatchAt(s, start, d, k)
      ensures false
    {
      assert OpenDot(s, d, k);
    }
    var dot', k' := NextDot(s, k, dot), k + 1;
    forall d | d < k && OpenDot(s, d, k')
      ensures OpenDot(s, d, k)
    {
    }
    if s[k] == '\n' {
      forall d ensures !OpenDot(s, d, k') {
      }
    } else if dot >= 0 {
      assert OpenDot(s, dot, k');
    } else if dot' == k {
      assert OpenDot(s, k, k');
    }
  }

  /** A left-to-right scan for `.+\..+/` that keeps the leftmost open dot
      and stops at the first slash two or more places after it. */
  function ScanExternal(s: String, k: nat, dot: int): (found: bool)
    requires ScanInvariant(s, k, dot)
    ensures found <==> MatchesExternal(s)
    decreases |s| - k
  {
    if k == |s| then false
    else if s[k] == '/' && 0 <= dot && dot + 2 <= k then
      assert ExternalMatchAt(s, dot - 1, dot, k);
      true
    else
      ScanExternalStep(s, k, dot);
      ScanExternal(s, k + 1, NextDot(s, k, dot))
  }

  /** Decides the external pattern. */
  function IsExternal(s: String): (found: bool)
    ensures found <==> MatchesExternal(s)
  {
    ScanExternal(s, 0, -1)
  }

  /** `Matcher::new`: the external pattern is `.+\..+/`, the local one the
      given project pattern. */
  function NewMatcher(local: String -> bool): (m: Matcher)
    ensures HasExternalPattern(m) && m.local == local
  {
    Matcher(IsExternal, local)
  }

  /** The matcher's external test is the `.+\..+/` regex. */
  ghost predicate HasExternalPattern(m: Matcher) {
    forall s :: m.external(s) <==> MatchesExternal(s)
  }

  /** `Matcher::package`: builtin unless the external pattern matches; then
      project when the local pattern matches as well, else external. */
  function Package(m: Matcher, line: String): PackageType
  {
    if m.external(line) then
      if m.local(line) then Local else External
    else Other
  }

  /** The three categories in terms of the two patterns: builtin exactly
      when the line has no `.+\..+/` match; project exactly when it has one
      and the local pattern matches too; external otherwise. */
  lemma PackageSpec(m: Matcher, line: String)
    requires HasExternalPattern(m)
    ensures Package(m, line) == Other <==> !MatchesExternal(line)
    ensures Package(m, line) == Local <==> MatchesExternal(line) && m.local(line)
    ensures Package(m, line) == External <==> MatchesExternal(line) && !m.local(line)
  {
  }

  /** On a line without line feeds the pattern reads "a character, a dot,
      a character, then a slash": some dot has a character before it and a
      slash at least two places after it. */
  lemma ExternalOnOneLine(s: String)
    requires '\n' !in s
    ensures MatchesExternal(s) <==>
      exists dot, slash :: 1 <= dot && dot + 2 <= slash < |s| && s[dot] == '.' && s[slash] == '/'
  {
    if exists dot, slash :: 1 <= dot && dot + 2 <= slash < |s| && s[dot] == '.' && s[slash] == '/' {
      var dot, slash :| 1 <= dot && dot + 2 <= slash < |s| && s[dot] == '.' && s[slash] == '/';
      assert ExternalMatchAt(s, dot - 1, dot, slash);
    }
  }

  /** A line the external pattern rejects is classified builtin, whatever
      the project pattern says; the blank line is one such line. */
  lemma BlankIsOther(m: Matcher, line: String)
    requires !m.external(line)
    ensures Package(m, line) == Other
  {
  }

  lemma BlankNotExternal(m: Matcher)
    requires HasExternalPattern(m)
    ensures !m.external([])
  {
  }
}
