/** The import block (`Imports`): the lines from the `import` keyword on,
    folded into three category groups, a pending comment and a count of the
    lines that produced no entry. */
module ImportBlock {
  import opened Options
  import opened Text
  import opened Matching
  import opened ImportEntry

  /** Lines a grouped block spends on its opening and closing lines. */
  const ImportWrapLen: nat := 2

  const Opener: String := "import ("
  const Closer: String := ")"

  /** `single` holds the line of a one-line import; `comment` is the comment
      waiting for the next entry; `empty` counts comment and blank lines. */
  datatype Imports = Imports(
    builtin: seq<Import>,
    external: seq<Import>,
    project: seq<Import>,
    single: Option<String>,
    comment: Option<String>,
    empty: nat)

  /** `Imports::default`: an empty grouped block, with no entry, no pending
      comment and no counted line; it takes up only its two delimiters. */
  function Default(): (r: Imports)
    ensures r.single.None? && r.comment.None? && Consumed(r) == 0
    ensures Length(r) == 0 && LineCount(r) == ImportWrapLen
  {
    Imports([], [], [], None, None, 0)
  }

  /** `Imports::length`: one for the one-line form, else the entry count. */
  function Length(imps: Imports): nat {
    if imps.single.Some? then 1 else |imps.builtin| + |imps.external| + |imps.project|
  }

  /** `Imports::lines`: the source lines the block takes up. */
  function LineCount(imps: Imports): nat {
    if imps.single.Some? then 1 else Length(imps) + imps.empty + ImportWrapLen
  }

  /** Body lines a grouped fold has accounted for so far: entries kept plus
      lines counted in `empty`. */
  function Consumed(imps: Imports): nat {
    |imps.builtin| + |imps.external| + |imps.project| + imps.empty
  }

  /** A comment line: its trimmed text starts with `//`. */
  predicate IsComment(line: String) {
    StartsWith(Trim(line), "//")
  }

  /** `Imports::parse_comment`: the line joins the pending comment as its
      last line and is counted in `empty`. */
  function ParseComment(acc: Imports, line: String): (r: Imports)
    ensures Consumed(r) == Consumed(acc) + 1
    ensures r.builtin == acc.builtin && r.external == acc.external && r.project == acc.project
    ensures r.single == acc.single
    ensures r.comment.Some?
  {
    var text := if acc.comment.None? then line else acc.comment.value + "\n" + line;
    acc.(comment := Some(text), empty := acc.empty + 1)
  }

  /** `Imports::handle_other`: a builtin entry, unless the raw line is
      exactly empty, in which case it is only counted. */
  function HandleOther(acc: Imports, line: String, imp: Import): (r: Imports)
    ensures Consumed(r) == Consumed(acc) + 1
    ensures r.external == acc.external && r.project == acc.project
    ensures r.single == acc.single && r.comment == acc.comment
    ensures line == [] <==> r.builtin == acc.builtin
    ensures line != [] ==> r.builtin == acc.builtin + [imp]
  {
    if line == [] then acc.(empty := acc.empty + 1)
    else acc.(builtin := acc.builtin + [imp])
  }

  /** The entry a non-comment line produces: its parse, carrying the pending
      comment. */
  function EntryWith(line: String, pending: Option<String>): (imp: Import)
    ensures imp == NewImport(line).(comment := pending)
  {
    var imp := NewImport(line);
    if pending.Some? then imp.(comment := pending) else imp
  }

  /** `Imports::parse_import`: the line's entry takes the pending comment,
      which is cleared, and goes to the group the raw line classifies into. */
  function ParseImport(acc: Imports, line: String, m: Matcher): (r: Imports)
    ensures Consumed(r) == Consumed(acc) + 1
    ensures r.comment == None && r.single == acc.single
    ensures Package(m, line) == Local ==>
      r.project == acc.project + [EntryWith(line, acc.comment)]
      && r.builtin == acc.builtin && r.external == acc.external
    ensures Package(m, line) == External ==>
      r.external == acc.external + [EntryWith(line, acc.comment)]
      && r.builtin == acc.builtin && r.project == acc.project
    ensures Package(m, line) == Other ==> r.external == acc.external && r.project == acc.project
    ensures Package(m, line) == Other && line != [] ==>
      r.builtin == acc.builtin + [EntryWith(line, acc.comment)] && r.empty == acc.empty
    ensures Package(m, line) == Other && line == [] ==>
      r.builtin == acc.builtin && r.empty == acc.empty + 1
  {
    var imp := EntryWith(line, acc.comment);
    var acc := acc.(comment := None);
    match Package(m, line)
    case Other => HandleOther(acc, line, imp)
    case Local => acc.(project := acc.project + [imp])
    case External => acc.(external := acc.external + [imp])
  }

  /** `Imports::parse_imports`: comment lines and other lines. */
  function ParseImports(acc: Imports, line: String, m: Matcher): (r: Imports)
    ensures Consumed(r) == Consumed(acc) + 1
    ensures r.single == acc.single
    ensures IsComment(line) <==> r.comment.Some?
  {
    if IsComment(line) then ParseComment(acc, line) else ParseImport(acc, line, m)
  }

  /** The lines before the first closing line (all of them when there is
      none). */
  function BodyLines(rest: seq<String>): (body: seq<String>)
    ensures |body| <= |rest| && body == rest[..|body|]
    ensures Closer !in body
    ensures |body| == |rest| || rest[|body|] == Closer
  {
    if |rest| == 0 || rest[0] == Closer then []
    else
      var tail := BodyLines(rest[1..]);
      assert rest[..|tail| + 1] == [rest[0]] + tail;
      [rest[0]] + tail
  }

  /** The loop of `Imports::new`: every line is folded in until the first
      closing line, or the end of the input. */
  function ScanBlock(acc: Imports, rest: seq<String>, m: Matcher): (r: Imports)
    ensures Consumed(r) == Consumed(acc) + |BodyLines(rest)|
    ensures r.single == acc.single
    decreases |rest|
  {
    if |rest| == 0 || rest[0] == Closer then acc
    else ScanBlock(ParseImports(acc, rest[0], m), rest[1..], m)
  }

  /** `Imports::new`: a first line other than `import (` is kept whole as
      the one-line form; otherwise the following lines are folded, and the
      block takes up its body lines plus the two delimiter lines. */
  function NewImports(input: seq<String>, m: Matcher): (r: Imports)
    requires |input| > 0
    ensures input[0] != Opener ==>
      r.single == Some(input[0]) && Length(r) == 1 && LineCount(r) == 1
    ensures input[0] == Opener ==>
      r.single.None? && LineCount(r) == |BodyLines(input[1..])| + ImportWrapLen
  {
    if input[0] != Opener then Default().(single := Some(input[0]))
    else ScanBlock(Default(), input[1..], m)
  }

  /** When the block is closed by the line at index `k` of the input, it
      takes up exactly the lines `0..k`, both delimiters included. */
  lemma ClosedBlockLines(input: seq<String>, m: Matcher, k: nat)
    requires 0 < k < |input| && input[0] == Opener
    requires input[k] == Closer && Closer !in input[1..k]
    ensures LineCount(NewImports(input, m)) == k + 1
  {
    var rest := input[1..];
    assert forall j :: 0 <= j < k - 1 ==> rest[j] == input[1..k][j];
    assert |BodyLines(rest)| == k - 1;
  }

  // A reference description of the grouped parse, line by line rather than
  // as a fold: what each body line becomes depends only on the line itself
  // and on the comment lines directly above it.

  datatype LineKind = CommentLine | BlankLine | EntryLine(group: PackageType)

  /** The role of a body line: a comment, an exactly empty line, or an entry
      of the group its raw text classifies into. */
  function KindOf(m: Matcher, line: String): LineKind {
    if IsComment(line) then CommentLine
    else if line == [] then BlankLine
    else EntryLine(Package(m, line))
  }

  /** Start of the run of comment lines that ends just before `j`: every
      line from `i` up to `j` is a comment, and the line before `i`, if
      any, is not. */
  function RunStart(body: seq<String>, j: nat): (i: nat)
    requires j <= |body|
    ensures i <= j
    ensures forall k :: i <= k < j ==> IsComment(body[k])
    ensures i == 0 || !IsComment(body[i - 1])
  {
    if j > 0 && IsComment(body[j - 1]) then RunStart(body, j - 1) else j
  }

  /** The comment attached to line `j`: the comment lines directly above it,
      joined by line feeds, if there are any. */
  function CommentBefore(body: seq<String>, j: nat): Option<String>
    requires j <= |body|
  {
    var i := RunStart(body, j);
    if i == j then None else Some(Join(body[i..j], "\n"))
  }

  function EntryAt(body: seq<String>, j: nat): Import
    requires j < |body|
  {
    NewImport(body[j]).(comment := CommentBefore(body, j))
  }

  /** The entries of group `t` among the first `n` body lines, in order. */
  function GroupUpTo(m: Matcher, body: seq<String>, n: nat, t: PackageType): seq<Import>
    requires n <= |body|
  {
    if n == 0 then []
    else
      GroupUpTo(m, body, n - 1, t)
      + (if KindOf(m, body[n - 1]) == EntryLine(t) then [EntryAt(body, n - 1)] else [])
  }

  /** The comment and blank lines among the first `n` body lines. */
  function SkippedUpTo(m: Matcher, body: seq<String>, n: nat): nat
    requires n <= |body|
  {
    if n == 0 then 0
    else SkippedUpTo(m, body, n - 1) + (if KindOf(m, body[n - 1]).EntryLine? then 0 else 1)
  }

  function StateAt(m: Matcher, body: seq<String>, n: nat): Imports
    requires n <= |body|
  {
    Imports(
      GroupUpTo(m, body, n, Other),
      GroupUpTo(m, body, n, External),
      GroupUpTo(m, body, n, Local),
      None,
      CommentBefore(body, n),
      SkippedUpTo(m, body, n))
  }

  /** Every body line is counted once: as an entry of exactly one group, or
      as a comment or blank line. */
  lemma {:induction false} KindsPartition(m: Matcher, body: seq<String>, n: nat)
    requires n <= |body|
    ensures |GroupUpTo(m, body, n, Other)| + |GroupUpTo(m, body, n, External)|
          + |GroupUpTo(m, body, n, Local)| + SkippedUpTo(m, body, n) == n
  {
    if n > 0 {
      KindsPartition(m, body, n - 1);
    }
  }

  lemma ParseStep(m: Matcher, body: seq<String>, n: nat)
    requires n < |body| && !m.external([])
    ensures ParseImports(StateAt(m, body, n), body[n], m) == StateAt(m, body, n + 1)
  {
    if IsComment(body[n]) {
      ParseStepComment(m, body, n);
    } else {
      ParseStepEntry(m, body, n);
    }
  }

  lemma ParseStepComment(m: Matcher, body: seq<String>, n: nat)
    requires n < |body| && IsComment(body[n])
    ensures ParseComment(StateAt(m, body, n), body[n]) == StateAt(m, body, n + 1)
  {
    var line := body[n];
    var acc := StateAt(m, body, n);
    assert KindOf(m, line) == CommentLine;
    assert ParseComment(acc, line).comment == CommentBefore(body, n + 1) by {
      CommentRunGrows(body, n);
    }
  }

  /** A comment line extends the run of comment lines above the next line. */
  lemma CommentRunGrows(body: seq<String>, n: nat)
    requires n < |body| && IsComment(body[n])
    ensures CommentBefore(body, n + 1)
         == Some(if CommentBefore(body, n).None? then body[n]
                 else CommentBefore(body, n).value + "\n" + body[n])
  {
    var line := body[n];
    var i := RunStart(body, n);
    assert RunStart(body, n + 1) == i;
    if i < n {
      assert body[i..n + 1] == body[i..n] + [line];
      JoinAppend(body[i..n], line, "\n");
    } else {
      assert body[i..n + 1] == [line];
    }
  }

  lemma ParseStepEntry(m: Matcher, body: seq<String>, n: nat)
    requires n < |body| && !IsComment(body[n]) && !m.external([])
    ensures ParseImport(StateAt(m, body, n), body[n], m) == StateAt(m, body, n + 1)
  {
    var line := body[n];
    var acc := StateAt(m, body, n);
    var imp := EntryAt(body, n);
    var cleared := acc.(comment := None);
    if line == [] {
      BlankIsOther(m, []);
      BlankStep(m, body, n);
      assert ParseImport(acc, line, m) == cleared.(empty := acc.empty + 1);
    } else {
      var t := Package(m, line);
      EntryStep(m, body, n);
      assert EntryWith(line, acc.comment) == imp;
      if t == Other {
        assert ParseImport(acc, line, m) == cleared.(builtin := acc.builtin + [imp]);
      } else if t == Local {
        assert ParseImport(acc, line, m) == cleared.(project := acc.project + [imp]);
      } else {
        assert ParseImport(acc, line, m) == cleared.(external := acc.external + [imp]);
      }
    }
  }

  lemma BlankStep(m: Matcher, body: seq<String>, n: nat)
    requires n < |body| && body[n] == [] && !m.external([])
    ensures StateAt(m, body, n + 1)
         == StateAt(m, body, n).(comment := None, empty := StateAt(m, body, n).empty + 1)
  {
    assert Trim(body[n]) == [];
    BlankIsOther(m, []);
    assert KindOf(m, body[n]) == BlankLine;
    assert RunStart(body, n + 1) == n + 1;
  }

  lemma EntryStep(m: Matcher, body: seq<String>, n: nat)
    requires n < |body| && body[n] != [] && !IsComment(body[n])
    ensures var acc := StateAt(m, body, n);
      var t := Package(m, body[n]);
      var cleared := acc.(comment := None);
      var imp := EntryAt(body, n);
      StateAt(m, body, n + 1)
        == if t == Other then cleared.(builtin := acc.builtin + [imp])
           else if t == Local then cleared.(project := acc.project + [imp])
           else cleared.(external := acc.external + [imp])
  {
    assert KindOf(m, body[n]) == EntryLine(Package(m, body[n]));
    assert RunStart(body, n + 1) == n + 1;
  }

  lemma {:induction false} ScanFollowsLayout(m: Matcher, rest: seq<String>, n: nat)
    requires n <= |BodyLines(rest)| && !m.external([])
    ensures ScanBlock(StateAt(m, BodyLines(rest), n), rest[n..], m)
         == StateAt(m, BodyLines(rest), |BodyLines(rest)|)
    decreases |rest| - n
  {
    var body := BodyLines(rest);
    if n < |body| {
      var acc := StateAt(m, body, n);
      assert ScanBlock(acc, rest[n..], m) == ScanBlock(ParseImports(acc, body[n], m), rest[n + 1..], m) by {
        assert rest[n..][0] == body[n] != Closer;
        assert rest[n..][1..] == rest[n + 1..];
      }
      assert ParseImports(acc, body[n], m) == StateAt(m, body, n + 1) by {
        ParseStep(m, body, n);
      }
      ScanFollowsLayout(m, rest, n + 1);
    }
  }

  /** The fold of `Imports::new` agrees with the line-by-line description:
      the builtin, external and project groups hold, in source order, the
      entries of the body lines of that category, each carrying the comment
      lines directly above it; `empty` counts the comment and blank lines;
      and the comment still pending at the closing line is the run of
      comment lines just above it, which no entry receives. */
  lemma ParseMatchesLayout(input: seq<String>, m: Matcher)
    requires |input| > 0 && input[0] == Opener
    requires HasExternalPattern(m)
    ensures NewImports(input, m) == StateAt(m, BodyLines(input[1..]), |BodyLines(input[1..])|)
  {
    var body := BodyLines(input[1..]);
    BlankNotExternal(m);
    assert StateAt(m, body, 0) == Default();
    ScanFollowsLayout(m, input[1..], 0);
  }

  /** A grouped block of one entry line holds that line's entry, without a
      comment, in the group the line classifies into, and nothing else. */
  lemma OneEntryBlock(line: String, m: Matcher)
    requires line != [] && !IsComment(line) && line != Closer
    ensures var imps := NewImports([Opener, line, Closer], m);
      var entry := [NewImport(line)];
      var t := Package(m, line);
      imps.single.None? && imps.comment.None? && imps.empty == 0 && Length(imps) == 1
      && imps.builtin == (if t == Other then entry else [])
      && imps.project == (if t == Local then entry else [])
      && imps.external == (if t == External then entry else [])
  {
    var input := [Opener, line, Closer];
    assert input[1..] == [line, Closer];
    assert [line, Closer][1..] == [Closer];
    var r := ParseImport(Default(), line, m);
    assert ScanBlock(Default(), input[1..], m) == ScanBlock(r, [Closer], m);
    assert EntryWith(line, None) == NewImport(line);
  }

  /** The fold stops at the first closing line: what follows it has no
      effect on the block. */
  lemma {:induction false} ScanIgnoresAfterCloser(acc: Imports, rest: seq<String>, m: Matcher, k: nat)
    requires k < |rest| && rest[k] == Closer && Closer !in rest[..k]
    ensures ScanBlock(acc, rest, m) == ScanBlock(acc, rest[..k + 1], m)
    decreases k
  {
    if k > 0 {
      assert rest[0] in rest[..k];
      var next := ParseImports(acc, rest[0], m);
      assert rest[1..][..k - 1] == rest[..k][1..];
      assert rest[..k + 1][1..] == rest[1..][..k];
      ScanIgnoresAfterCloser(next, rest[1..], m, k - 1);
    }
  }

  /** `Imports::new` reads a grouped block only up to its closing line. */
  lemma IgnoresAfterCloser(input: seq<String>, m: Matcher, k: nat)
    requires 0 < k < |input| && input[0] == Opener
    requires input[k] == Closer && Closer !in input[1..k]
    ensures NewImports(input, m) == NewImports(input[..k + 1], m)
  {
    assert input[1..][..k - 1] == input[1..k];
    assert input[..k + 1][1..] == input[1..][..k];
    ScanIgnoresAfterCloser(Default(), input[1..], m, k - 1);
  }

  /** One step of the fold: a line other than the closing one is parsed
      into `next`, and the fold goes on from there with the lines after it. */
  lemma ScanStep(acc: Imports, line: String, rest: seq<String>, m: Matcher, next: Imports)
    requires line != Closer && ParseImports(acc, line, m) == next
    ensures ScanBlock(acc, [line] + rest, m) == ScanBlock(next, rest, m)
  {
    assert ([line] + rest)[1..] == rest;
  }

  /** The block of the source's reordering test, with its lines left
      abstract: a project entry, a builtin entry, a comment line, then two
      external entries. The comment goes with the entry below it, the
      project and builtin entries land in their groups, the external group
      keeps source order, and the block holds four entries over seven
      lines. */
  lemma ReorderBlock(l1: String, l2: String, l3: String, l4: String, l5: String, m: Matcher)
    requires Closer !in [l1, l2, l3, l4, l5]
    requires !IsComment(l1) && !IsComment(l2) && IsComment(l3) && !IsComment(l4) && !IsComment(l5)
    requires l2 != []
    requires Package(m, l1) == Local && Package(m, l2) == Other
    requires Package(m, l4) == External && Package(m, l5) == External
    ensures NewImports([Opener, l1, l2, l3, l4, l5, Closer], m)
         == Imports([NewImport(l2)], [NewImport(l4).(comment := Some(l3)), NewImport(l5)], [NewImport(l1)],
                    None, None, 1)
    ensures Length(NewImports([Opener, l1, l2, l3, l4, l5, Closer], m)) == 4
    ensures LineCount(NewImports([Opener, l1, l2, l3, l4, l5, Closer], m)) == 7
  {
    var input := [Opener, l1, l2, l3, l4, l5, Closer];
    assert input[1..] == [l1] + ([l2] + ([l3] + ([l4] + ([l5] + [Closer]))));
    ReorderFold(l1, l2, l3, l4, l5, m);
  }

  /** The fold over the body of the reordering test, line by line. */
  lemma ReorderFold(l1: String, l2: String, l3: String, l4: String, l5: String, m: Matcher)
    requires Closer !in [l1, l2, l3, l4, l5]
    requires !IsComment(l1) && !IsComment(l2) && IsComment(l3) && !IsComment(l4) && !IsComment(l5)
    requires l2 != []
    requires Package(m, l1) == Local && Package(m, l2) == Other
    requires Package(m, l4) == External && Package(m, l5) == External
    ensures ScanBlock(Default(), [l1] + ([l2] + ([l3] + ([l4] + ([l5] + [Closer])))), m)
         == Imports([NewImport(l2)], [NewImport(l4).(comment := Some(l3)), NewImport(l5)], [NewImport(l1)],
                    None, None, 1)
  {
    var a3 := Imports([NewImport(l2)], [], [NewImport(l1)], None, Some(l3), 1);
    var tail := [l4] + ([l5] + [Closer]);
    assert ScanBlock(Default(), [l1] + ([l2] + ([l3] + tail)), m) == ScanBlock(a3, tail, m) by {
      ReorderHead(l1, l2, l3, tail, m);
    }
    ReorderTail(a3, l4, l5, m);
  }

  /** The first three body lines of the reordering test: a project entry,
      a builtin entry, then a comment left pending. */
  lemma ReorderHead(l1: String, l2: String, l3: String, rest: seq<String>, m: Matcher)
    requires Closer !in [l1, l2, l3]
    requires !IsComment(l1) && !IsComment(l2) && IsComment(l3)
    requires l2 != [] && Package(m, l1) == Local && Package(m, l2) == Other
    ensures ScanBlock(Default(), [l1] + ([l2] + ([l3] + rest)), m)
         == ScanBlock(Imports([NewImport(l2)], [], [NewImport(l1)], None, Some(l3), 1), rest, m)
  {
    var a1 := Default().(project := [NewImport(l1)]);
    var a2 := a1.(builtin := [NewImport(l2)]);
    var a3 := a2.(comment := Some(l3), empty := 1);
    assert ScanBlock(Default(), [l1] + ([l2] + ([l3] + rest)), m) == ScanBlock(a1, [l2] + ([l3] + rest), m) by {
      assert EntryWith(l1, None) == NewImport(l1);
      ScanStep(Default(), l1, [l2] + ([l3] + rest), m, a1);
    }
    assert ScanBlock(a1, [l2] + ([l3] + rest), m) == ScanBlock(a2, [l3] + rest, m) by {
      assert EntryWith(l2, None) == NewImport(l2);
      ScanStep(a1, l2, [l3] + rest, m, a2);
    }
    assert ScanBlock(a2, [l3] + rest, m) == ScanBlock(a3, rest, m) by {
      ScanStep(a2, l3, rest, m, a3);
    }
  }

  /** The last two body lines of the reordering test: two external entries,
      the first of which takes the pending comment, and the closing line. */
  lemma ReorderTail(acc: Imports, l4: String, l5: String, m: Matcher)
    requires Closer !in [l4, l5]
    requires !IsComment(l4) && !IsComment(l5)
    requires Package(m, l4) == External && Package(m, l5) == External
    ensures ScanBlock(acc, [l4] + ([l5] + [Closer]), m)
         == acc.(external := acc.external + [NewImport(l4).(comment := acc.comment), NewImport(l5)],
                 comment := None)
  {
    var e4 := NewImport(l4).(comment := acc.comment);
    var a4 := acc.(external := acc.external + [e4], comment := None);
    var a5 := a4.(external := a4.external + [NewImport(l5)]);
    assert ScanBlock(acc, [l4] + ([l5] + [Closer]), m) == ScanBlock(a4, [l5] + [Closer], m) by {
      assert EntryWith(l4, acc.comment) == e4;
      ScanStep(acc, l4, [l5] + [Closer], m, a4);
    }
    assert ScanBlock(a4, [l5] + [Closer], m) == ScanBlock(a5, [Closer], m) by {
      assert EntryWith(l5, None) == NewImport(l5);
      ScanStep(a4, l5, [Closer], m, a5);
    }
    assert acc.external + [e4] + [NewImport(l5)] == acc.external + [e4, NewImport(l5)];
  }
}
