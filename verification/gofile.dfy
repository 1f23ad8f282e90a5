/** Splicing the rendered import block back into a Go file
    (`GoFile::from_file`, `GoFile::from_line`), starting from the file's
    lines. */
module GoFile {
  import opened Options
  import opened Text
  import opened Matching
  import opened ImportEntry
  import opened ImportBlock
  import opened Render

  /** A line where the import block starts: longer than six characters, of
      which the first six spell `import`. */
  predicate IsImportLine(line: String) {
    |line| > 6 && line[..6] == "import"
  }

  predicate ImportLineAt(lines: seq<String>, j: nat)
    requires j < |lines|
  {
    IsImportLine(lines[j])
  }

  /** The loop of `from_file`: the first import line at or after `k`. */
  function FirstImportFrom(lines: seq<String>, k: nat): (r: Option<nat>)
    requires k <= |lines|
    ensures r.None? <==> forall j :: k <= j < |lines| ==> !ImportLineAt(lines, j)
    ensures r.Some? ==>
      k <= r.value < |lines| && ImportLineAt(lines, r.value)
      && forall j :: k <= j < r.value ==> !ImportLineAt(lines, j)
    decreases |lines| - k
  {
    if k == |lines| then None
    else if ImportLineAt(lines, k) then Some(k)
    else FirstImportFrom(lines, k + 1)
  }

  function FirstImport(lines: seq<String>): Option<nat> {
    FirstImportFrom(lines, 0)
  }

  /** The lines the block starting at `i` takes up, read off the lines
      themselves: one for a one-line import, else up to and including the
      first closing line. */
  function BlockSpan(lines: seq<String>, i: nat): nat
    requires i < |lines|
    requires lines[i] == Opener ==> Closer in lines[i + 1..]
  {
    if lines[i] != Opener then 1 else IndexOf(lines[i + 1..], Closer) + 2
  }

  /** The inputs `from_file` does not panic on: when the first import line
      opens a grouped block, a closing line follows it. Without one, the
      block is taken to run past the end of the file (see `UnclosedOverruns`). */
  predicate Splicable(lines: seq<String>) {
    match FirstImport(lines)
    case None => true
    case Some(i) => lines[i] == Opener ==> Closer in lines[i + 1..]
  }

  /** The output `from_line` formats: the lines before `i`, then `text` in
      place of the `n` lines from `i`, then the lines after them, each part
      followed by a line feed. */
  function Splice(lines: seq<String>, i: nat, text: String, n: nat): String
    requires i + n <= |lines|
  {
    Join(lines[..i], "\n") + "\n" + text + "\n" + Join(lines[i + n..], "\n") + "\n"
  }

  /** `from_line`: the block parsed from line `i` on, replaced by its
      rendered text. */
  function FromLine(lines: seq<String>, i: nat, m: Matcher): String
    requires i < |lines|
    requires i + LineCount(NewImports(lines[i..], m)) <= |lines|
  {
    var imps := NewImports(lines[i..], m);
    Splice(lines, i, Output(imps), LineCount(imps))
  }

  /** The parser's line count is the span of the block in the file. */
  lemma SpanIsLineCount(lines: seq<String>, i: nat, m: Matcher)
    requires i < |lines|
    requires lines[i] == Opener ==> Closer in lines[i + 1..]
    ensures LineCount(NewImports(lines[i..], m)) == BlockSpan(lines, i)
    ensures i + BlockSpan(lines, i) <= |lines|
  {
    var input := lines[i..];
    if lines[i] == Opener {
      var k := IndexOf(lines[i + 1..], Closer) + 1;
      assert input[1..k] == lines[i + 1..][..k - 1];
      assert input[k] == lines[i + 1..][k - 1];
      ClosedBlockLines(input, m, k);
    }
  }

  /** A grouped block with no closing line is counted as one line longer
      than what remains of the file, so `from_line` slices out of bounds. */
  lemma UnclosedOverruns(lines: seq<String>, i: nat, m: Matcher)
    requires i < |lines| && lines[i] == Opener && Closer !in lines[i + 1..]
    ensures i + LineCount(NewImports(lines[i..], m)) == |lines| + 1
  {
    var input := lines[i..];
    assert input[1..] == lines[i + 1..];
    assert BodyLines(input[1..]) == input[1..];
  }

  /** `from_file`: nothing when no line starts an import block; otherwise
      the file with its first block replaced by its canonical text. */
  function FromFile(lines: seq<String>, m: Matcher): (r: Option<String>)
    requires Splicable(lines)
    ensures r.None? <==> forall j :: 0 <= j < |lines| ==> !ImportLineAt(lines, j)
    ensures r.Some? ==>
      var i := FirstImport(lines).value;
      i + BlockSpan(lines, i) <= |lines|
      && r.value == Splice(lines, i, Output(NewImports(lines[i..], m)), BlockSpan(lines, i))
  {
    match FirstImport(lines)
    case None => None
    case Some(i) =>
      SpanIsLineCount(lines, i, m);
      Some(FromLine(lines, i, m))
  }

  /** The lines with the `n` lines from `i` replaced by the single line `text`. */
  function Replace(lines: seq<String>, i: nat, n: nat, text: String): seq<String>
    requires i + n <= |lines|
  {
    lines[..i] + [text] + lines[i + n..]
  }

  /** With lines on both sides, the splice is the file's lines with the
      `n` lines from `i` replaced by `text`, joined and ended by a line feed. */
  lemma SpliceIsReplacement(lines: seq<String>, i: nat, text: String, n: nat)
    requires 0 < i && i + n < |lines|
    ensures Splice(lines, i, text, n) == Join(Replace(lines, i, n, text), "\n") + "\n"
  {
    var before, after := lines[..i], lines[i + n..];
    JoinAppend(before, text, "\n");
    JoinConcat(before + [text], after, "\n");
  }

  /** `from_file` at its first import line `i`. */
  lemma FromFileAt(lines: seq<String>, m: Matcher, i: nat)
    requires Splicable(lines) && FirstImport(lines) == Some(i)
    ensures i + BlockSpan(lines, i) <= |lines|
    ensures FromFile(lines, m) == Some(Splice(lines, i, Output(NewImports(lines[i..], m)), BlockSpan(lines, i)))
  {
  }

  /** When the block neither starts nor ends the file, `from_file` gives the
      file's lines with the block's lines replaced by its rendered text,
      joined and ended by a line feed. */
  lemma SpliceReplacesBlock(lines: seq<String>, m: Matcher)
    requires Splicable(lines)
    requires FirstImport(lines).Some?
    requires var i := FirstImport(lines).value; 0 < i && i + BlockSpan(lines, i) < |lines|
    ensures var i := FirstImport(lines).value;
      FromFile(lines, m)
      == Some(Join(Replace(lines, i, BlockSpan(lines, i), Output(NewImports(lines[i..], m))), "\n") + "\n")
  {
    var i := FirstImport(lines).value;
    FromFileAt(lines, m, i);
    SpliceIsReplacement(lines, i, Output(NewImports(lines[i..], m)), BlockSpan(lines, i));
  }

  /** A file whose first import is a one-line import comes back as its lines
      joined, each ending with a line feed. */
  lemma OneLineImportKept(lines: seq<String>, m: Matcher)
    requires FirstImport(lines).Some?
    requires var i := FirstImport(lines).value; lines[i] != Opener && 0 < i < |lines| - 1
    ensures Splicable(lines)
    ensures FromFile(lines, m) == Some(Join(lines, "\n") + "\n")
  {
    var i := FirstImport(lines).value;
    FromFileAt(lines, m, i);
    SingleOutput(lines[i..], m);
    KeepOneLine(lines, i);
  }

  lemma KeepOneLine(lines: seq<String>, i: nat)
    requires 0 < i < |lines| - 1
    ensures Splice(lines, i, lines[i], 1) == Join(lines, "\n") + "\n"
  {
    assert lines[i..i + 1] == [lines[i]];
    JoinAround(lines, i, [lines[i]]);
  }

  /** A file whose import block holds one entry already in canonical form
      comes back as its lines joined, each ending with a line feed. */
  lemma CanonicalBlockKept(lines: seq<String>, m: Matcher)
    requires FirstImport(lines).Some?
    requires var i := FirstImport(lines).value;
      0 < i && i + 3 < |lines| && lines[i] == Opener && lines[i + 2] == Closer
      && IsCanonicalLine(lines[i + 1]) && !IsComment(lines[i + 1]) && lines[i + 1] != Closer
    ensures Splicable(lines)
    ensures FromFile(lines, m) == Some(Join(lines, "\n") + "\n")
  {
    var i := FirstImport(lines).value;
    BlockOfThree(lines, i);
    FromFileAt(lines, m, i);
    OneEntryAt(lines, i, m);
    KeepBlock(lines, i);
  }

  lemma BlockOfThree(lines: seq<String>, i: nat)
    requires i + 2 < |lines| && lines[i] == Opener && lines[i + 2] == Closer && lines[i + 1] != Closer
    ensures Closer in lines[i + 1..]
    ensures BlockSpan(lines, i) == 3
  {
    assert lines[i + 1..][1] == Closer;
    assert IndexOf(lines[i + 1..], Closer) == 1;
  }

  lemma OneEntryAt(lines: seq<String>, i: nat, m: Matcher)
    requires i + 2 < |lines| && lines[i] == Opener && lines[i + 2] == Closer
    requires IsCanonicalLine(lines[i + 1]) && !IsComment(lines[i + 1]) && lines[i + 1] != Closer
    ensures Output(NewImports(lines[i..], m)) == Join(lines[i..i + 3], "\n")
  {
    var block := [Opener, lines[i + 1], Closer];
    assert lines[i..][..3] == block == lines[i..i + 3];
    IgnoresAfterCloser(lines[i..], m, 2);
    OneEntryUnchanged(lines[i + 1], m);
    JoinThree(Opener, lines[i + 1], Closer);
    assert Header == Opener + "\n";
  }

  lemma KeepBlock(lines: seq<String>, i: nat)
    requires 0 < i && i + 3 < |lines|
    ensures Splice(lines, i, Join(lines[i..i + 3], "\n"), 3) == Join(lines, "\n") + "\n"
  {
    JoinAround(lines, i, lines[i..i + 3]);
  }

  /** Joining the lines with a stretch joined in advance gives the same text. */
  lemma JoinAround(lines: seq<String>, i: nat, block: seq<String>)
    requires 0 < i && |block| > 0 && i + |block| < |lines| && lines[i..i + |block|] == block
    ensures Splice(lines, i, Join(block, "\n"), |block|) == Join(lines, "\n") + "\n"
  {
    var before, after := lines[..i], lines[i + |block|..];
    assert lines == before + (block + after) by {
      assert lines == lines[..i] + lines[i..i + |block|] + lines[i + |block|..];
    }
    JoinOfThree(before, block, after);
    LineFeedsAssociate(Join(before, "\n"), Join(block, "\n"), Join(after, "\n"));
  }

  lemma JoinOfThree(a: seq<String>, b: seq<String>, c: seq<String>)
    requires |a| > 0 && |b| > 0 && |c| > 0
    ensures Join(a + (b + c), "\n") == Join(a, "\n") + "\n" + (Join(b, "\n") + "\n" + Join(c, "\n"))
  {
    JoinConcat(a, b + c, "\n");
    JoinConcat(b, c, "\n");
  }

  lemma LineFeedsAssociate(a: String, b: String, c: String)
    ensures a + "\n" + b + "\n" + c + "\n" == a + "\n" + (b + "\n" + c) + "\n"
  {
  }
}
