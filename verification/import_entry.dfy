/** One import declaration (`Import`): its parse from a raw line, its
    printed form, and its order, which looks at the path only. */
module ImportEntry {
  import opened Options
  import opened Text

  /** `prefix` is the leading indentation as found, `alias` the optional
      name before the path, `path` the quoted path (the sort key; the
      source calls this field `import`), `comment` the comment lines
      attached in front of the entry. */
  datatype Import = Import(prefix: String, alias: Option<String>, path: String, comment: Option<String>)

  predicate IsIndent(c: char) {
    c == ' ' || c == '\t'
  }

  predicate AllIndent(s: String) {
    forall j :: 0 <= j < |s| ==> IsIndent(s[j])
  }

  /** The end of the run of spaces and tabs that starts the line. */
  function IndentEnd(line: String, i: nat): (n: nat)
    requires i <= |line| && AllIndent(line[..i])
    ensures i <= n <= |line|
    ensures AllIndent(line[..n])
    ensures n == |line| || !IsIndent(line[n])
    decreases |line| - i
  {
    if i < |line| && IsIndent(line[i]) then
      assert line[..i + 1] == line[..i] + [line[i]];
      IndentEnd(line, i + 1)
    else i
  }

  /** `whitespace_prefix`: the spaces and tabs in front of the first other
      character; a line of nothing but spaces and tabs has none. */
  function WhitespacePrefix(line: String): (r: String)
    ensures AllIndent(line) ==> r == []
    ensures !AllIndent(line) ==>
      |r| < |line| && r == line[..|r|] && AllIndent(r) && !IsIndent(line[|r|])
  {
    assert line[..0] == [];
    var n := IndentEnd(line, 0);
    if n == |line| then
      assert line[..n] == line;
      []
    else line[..n]
  }

  /** `Import::new`: the trimmed line is split at spaces; with more than one
      piece the first is the alias and the rest, rejoined with spaces, the
      path; otherwise the whole trimmed line is the path. */
  function NewImport(line: String): (imp: Import)
    ensures imp.prefix == WhitespacePrefix(line)
    ensures imp.comment == None
    ensures imp.alias.Some? <==> ' ' in Trim(line)
    ensures imp.alias.Some? ==>
      ' ' !in imp.alias.value && imp.alias.value + " " + imp.path == Trim(line)
    ensures imp.alias.None? ==> imp.path == Trim(line)
  {
    var t := Trim(line);
    var entries := Split(t, ' ');
    if |entries| > 1 then
      SplitAtFirst(t, ' ');
      var i := IndexOf(t, ' ');
      assert t == t[..i] + " " + t[i + 1..];
      Import(WhitespacePrefix(line), Some(entries[0]), Join(entries[1..], " "), None)
    else
      Import(WhitespacePrefix(line), None, entries[0], None)
  }

  /** `Import::to_str`: indentation, alias and a space when there is one,
      the path; an attached comment goes on the line(s) before it. */
  function ToStr(imp: Import): String
  {
    var out := imp.prefix + (if imp.alias.Some? then imp.alias.value + " " else []) + imp.path;
    if imp.comment.Some? then imp.comment.value + "\n" + out else out
  }

  /** A freshly parsed entry prints as its indentation followed by the
      trimmed line: the alias and path split rejoin exactly. */
  lemma RoundTrip(line: String)
    ensures ToStr(NewImport(line)) == WhitespacePrefix(line) + Trim(line)
  {
  }

  /** With a comment attached, the comment comes first, then a line feed,
      then the same text. */
  lemma RoundTripWithComment(line: String, comment: String)
    ensures ToStr(NewImport(line).(comment := Some(comment)))
         == comment + "\n" + WhitespacePrefix(line) + Trim(line)
  {
    var imp := NewImport(line);
    var imp' := imp.(comment := Some(comment));
    assert imp'.prefix == imp.prefix && imp'.alias == imp.alias && imp'.path == imp.path;
    RoundTrip(line);
  }

  /** A line already in printed form: indented with spaces and tabs only,
      not blank, and with no whitespace at either end of its text. */
  predicate IsCanonicalLine(line: String) {
    var n := |WhitespacePrefix(line)|;
    n < |line| && !IsWhitespace(line[n]) && !IsWhitespace(line[|line| - 1])
  }

  /** A line in printed form is reproduced exactly by parse-then-print. */
  lemma CanonicalRoundTrip(line: String)
    requires IsCanonicalLine(line)
    ensures ToStr(NewImport(line)) == line
  {
    var n := |WhitespacePrefix(line)|;
    assert WhitespacePrefix(line) == line[..n];
    assert line == line[..n] + line[n..] + [];
    TrimOfPadded(line[..n], line[n..], []);
    RoundTrip(line);
  }

  /** `Ord for Import`: entries compare by path alone. */
  predicate PathLessEq(a: Import, b: Import) {
    LessEq(a.path, b.path)
  }

  /** `PartialEq for Import`: entries are equal when their paths are. */
  predicate SamePath(a: Import, b: Import) {
    a.path == b.path
  }

  /** The order and the equality agree: two entries are equal exactly when
      each sorts no later than the other, whatever their alias, prefix or
      comment. */
  lemma OrderMatchesEquality(a: Import, b: Import)
    ensures SamePath(a, b) <==> PathLessEq(a, b) && PathLessEq(b, a)
  {
    if PathLessEq(a, b) && PathLessEq(b, a) {
      LessEqAntisymmetric(a.path, b.path);
    }
  }
}
