/** The canonical text of an import block (`Imports::output` with the
    `ImportString` builder): groups in the order builtin, project, external,
    each sorted by path, with one blank line between non-empty groups. */
module Render {
  import opened Options
  import opened Text
  import opened Matching
  import opened ImportEntry
  import opened Sorting
  import opened ImportBlock

  /** The text written so far, and whether some group has been written. */
  datatype ImportString = ImportString(out: String, previous: bool)

  const Header: String := "import (\n"

  /** A group's text: each entry's printed form followed by a line feed. */
  function GroupText(list: seq<Import>): String
  {
    if |list| == 0 then [] else ToStr(list[0]) + "\n" + GroupText(list[1..])
  }

  /** The printed form of each entry, in order. */
  function Printed(list: seq<Import>): (lines: seq<String>)
    ensures |lines| == |list|
    ensures forall i :: 0 <= i < |list| ==> lines[i] == ToStr(list[i])
  {
    if |list| == 0 then [] else [ToStr(list[0])] + Printed(list[1..])
  }

  /** `ImportString::push`: an empty group writes nothing; otherwise a
      separating line feed when a group came before, then the group sorted
      by path. */
  function Push(st: ImportString, list: seq<Import>): ImportString
  {
    if |list| == 0 then st
    else ImportString(st.out + (if st.previous then "\n" else "") + GroupText(SortByPath(list)), true)
  }

  /** `ImportString::build`: the closing parenthesis. */
  function Build(st: ImportString): String
  {
    st.out + ")"
  }

  /** `Imports::output`. */
  function Output(imps: Imports): String
  {
    if imps.single.Some? then imps.single.value
    else
      var st := ImportString(Header, false);
      Build(Push(Push(Push(st, imps.builtin), imps.project), imps.external))
  }

  /** The text a group contributes as a section of the block: nothing for an
      empty group, else its sorted text. */
  function Section(list: seq<Import>): seq<String>
  {
    if |list| == 0 then [] else [GroupText(SortByPath(list))]
  }

  /** A group's text is its entries' printed forms, each ending with a line
      feed; it is empty exactly when the group is. */
  lemma {:induction false} GroupTextLines(list: seq<Import>)
    ensures |list| == 0 <==> GroupText(list) == []
    ensures |list| > 0 ==> GroupText(list) == Join(Printed(list), "\n") + "\n"
  {
    if |list| > 1 {
      GroupTextLines(list[1..]);
      assert Printed(list)[1..] == Printed(list[1..]);
    }
  }

  /** The builder's invariant: its text is the header followed by the
      sections written so far joined by line feeds, and `previous` says
      whether there are any. Pushing a group adds its section, if any. */
  lemma PushKeepsLayout(st: ImportString, list: seq<Import>, sections: seq<String>)
    requires st.out == Header + Join(sections, "\n")
    requires st.previous == (|sections| > 0)
    ensures Push(st, list).out == Header + Join(sections + Section(list), "\n")
    ensures Push(st, list).previous == (|sections + Section(list)| > 0)
  {
    if |list| == 0 {
      assert sections + Section(list) == sections;
    } else {
      var text := GroupText(SortByPath(list));
      var sep: String := if st.previous then "\n" else "";
      assert Push(st, list) == ImportString(st.out + sep + text, true);
      assert Section(list) == [text];
      SectionAppended(sections, text, sep);
    }
  }

  /** Adding a section to the joined text: a line feed first when some
      section came before. */
  lemma SectionAppended(sections: seq<String>, text: String, sep: String)
    requires sep == (if |sections| > 0 then "\n" else "")
    ensures Header + Join(sections + [text], "\n") == Header + Join(sections, "\n") + sep + text
  {
    if |sections| == 0 {
      assert sections + [text] == [text];
      assert Join(sections, "\n") + sep == [];
    } else {
      var joined := Join(sections, "\n");
      assert Join(sections + [text], "\n") == joined + "\n" + text by {
        JoinAppend(sections, text, "\n");
      }
      AppendAssociates(Header, joined, "\n", text);
    }
  }

  lemma AppendAssociates(a: String, b: String, c: String, d: String)
    ensures a + (b + c + d) == a + b + c + d
  {
  }

  /** The grouped block renders as the header, the sections of the builtin,
      project and external groups in that order (empty groups left out),
      joined by line feeds, and the closing parenthesis. As each section
      ends with a line feed, exactly one separator line falls between two
      non-empty groups, and no separator line precedes the first or follows
      the last. An entry whose printed form is empty (from a line of spaces
      and tabs) still prints as an empty line of its own. */
  lemma OutputLayout(imps: Imports)
    requires imps.single.None?
    ensures Output(imps)
         == Header + Join(Section(imps.builtin) + Section(imps.project) + Section(imps.external), "\n") + ")"
  {
    var st0 := ImportString(Header, false);
    assert st0.out == Header + Join([], "\n");
    PushKeepsLayout(st0, imps.builtin, []);
    var s1 := [] + Section(imps.builtin);
    var st1 := Push(st0, imps.builtin);
    PushKeepsLayout(st1, imps.project, s1);
    var s2 := s1 + Section(imps.project);
    PushKeepsLayout(Push(st1, imps.project), imps.external, s2);
    assert [] + Section(imps.builtin) == Section(imps.builtin);
  }

  /** A one-line import is written back unchanged. */
  lemma SingleOutput(input: seq<String>, m: Matcher)
    requires |input| > 0 && input[0] != Opener
    ensures Output(NewImports(input, m)) == input[0]
  {
  }

  /** A block whose only entry is `e` renders as the header, the entry's
      printed form on its own line, and the closing parenthesis. */
  lemma OneGroupOfOne(imps: Imports, e: Import, t: PackageType)
    requires imps.single.None?
    requires imps.builtin == (if t == Other then [e] else [])
    requires imps.project == (if t == Local then [e] else [])
    requires imps.external == (if t == External then [e] else [])
    ensures Output(imps) == Header + ToStr(e) + "\n" + ")"
  {
    var text := ToStr(e) + "\n";
    SectionsOfOne(imps, e, t);
    OutputLayout(imps);
    assert Join([text], "\n") == text;
  }

  lemma SectionsOfOne(imps: Imports, e: Import, t: PackageType)
    requires imps.builtin == (if t == Other then [e] else [])
    requires imps.project == (if t == Local then [e] else [])
    requires imps.external == (if t == External then [e] else [])
    ensures Section(imps.builtin) + Section(imps.project) + Section(imps.external) == [ToStr(e) + "\n"]
  {
    var text := ToStr(e) + "\n";
    SectionOfOne(e);
    match t
    case Other => assert [text] + [] + [] == [text];
    case Local => assert [] + [text] + [] == [text];
    case External => assert [] + [] + [text] == [text];
  }

  lemma SectionOfOne(e: Import)
    ensures Section([e]) == [ToStr(e) + "\n"]
    ensures Section([]) == []
  {
    assert SortByPath([e]) == [e];
    assert GroupText([e]) == ToStr(e) + "\n";
  }

  /** A grouped block holding one entry already in printed form renders as
      it was written. */
  lemma OneEntryUnchanged(line: String, m: Matcher)
    requires IsCanonicalLine(line) && !IsComment(line) && line != Closer
    ensures Output(NewImports([Opener, line, Closer], m)) == Header + line + "\n" + Closer
  {
    var imps := NewImports([Opener, line, Closer], m);
    var e := NewImport(line);
    CanonicalRoundTrip(line);
    OneEntryBlock(line, m);
    OneGroupOfOne(imps, e, Package(m, line));
  }

  /** The rendering of the source's reordering test, with its lines left
      abstract: the builtin entry, a blank line, the project entry, a blank
      line, then the external group sorted by path, which puts the last
      entry first and keeps the comment above the entry it belongs to. */
  lemma ReorderOutput(l1: String, l2: String, l3: String, l4: String, l5: String)
    requires IsCanonicalLine(l1) && IsCanonicalLine(l2) && IsCanonicalLine(l4) && IsCanonicalLine(l5)
    requires Compare(NewImport(l5).path, NewImport(l4).path) == Less
    ensures Output(Imports([NewImport(l2)], [NewImport(l4).(comment := Some(l3)), NewImport(l5)],
                           [NewImport(l1)], None, None, 1))
         == Header + l2 + "\n\n" + l1 + "\n\n" + l5 + "\n" + l3 + "\n" + l4 + "\n)"
  {
    var e1, e2, e5 := NewImport(l1), NewImport(l2), NewImport(l5);
    var e4 := NewImport(l4).(comment := Some(l3));
    var imps := Imports([e2], [e4, e5], [e1], None, None, 1);
    assert ToStr(e1) == l1 && ToStr(e2) == l2 && ToStr(e5) == l5 by {
      CanonicalRoundTrip(l1);
      CanonicalRoundTrip(l2);
      CanonicalRoundTrip(l5);
    }
    assert ToStr(e4) == l3 + "\n" + l4 by {
      CanonicalRoundTrip(l4);
      RoundTripWithComment(l4, l3);
      RoundTrip(l4);
    }
    var b, p, x := l2 + "\n", l1 + "\n", l5 + "\n" + (l3 + "\n" + l4 + "\n");
    assert Section(imps.builtin) + Section(imps.project) + Section(imps.external) == [b, p, x] by {
      ThreeSections(e1, e2, e4, e5);
    }
    assert Output(imps) == Header + Join([b, p, x], "\n") + ")" by {
      OutputLayout(imps);
    }
    JoinThree(b, p, x);
    ReorderText(l1, l2, l3, l4, l5);
  }

  /** The source's reordering test end to end, with its lines left
      abstract: parsing the block and printing it gives the expected text. */
  lemma ReorderTest(l1: String, l2: String, l3: String, l4: String, l5: String, m: Matcher)
    requires Closer !in [l1, l2, l3, l4, l5]
    requires !IsComment(l1) && !IsComment(l2) && IsComment(l3) && !IsComment(l4) && !IsComment(l5)
    requires IsCanonicalLine(l1) && IsCanonicalLine(l2) && IsCanonicalLine(l4) && IsCanonicalLine(l5)
    requires Package(m, l1) == Local && Package(m, l2) == Other
    requires Package(m, l4) == External && Package(m, l5) == External
    requires Compare(NewImport(l5).path, NewImport(l4).path) == Less
    ensures Length(NewImports([Opener, l1, l2, l3, l4, l5, Closer], m)) == 4
    ensures Output(NewImports([Opener, l1, l2, l3, l4, l5, Closer], m))
         == Header + l2 + "\n\n" + l1 + "\n\n" + l5 + "\n" + l3 + "\n" + l4 + "\n)"
  {
    ReorderBlock(l1, l2, l3, l4, l5, m);
    ReorderOutput(l1, l2, l3, l4, l5);
  }

  /** One-entry builtin and project groups, and an external pair out of
      path order, which trade places. */
  lemma ThreeSections(e1: Import, e2: Import, e4: Import, e5: Import)
    requires Compare(e5.path, e4.path) == Less
    ensures Section([e2]) + Section([e1]) + Section([e4, e5])
         == [ToStr(e2) + "\n", ToStr(e1) + "\n", ToStr(e5) + "\n" + (ToStr(e4) + "\n")]
  {
    SectionOfOne(e2);
    SectionOfOne(e1);
    PairSection(e4, e5);
    SectionsOfThree(ToStr(e2) + "\n", ToStr(e1) + "\n", ToStr(e5) + "\n" + (ToStr(e4) + "\n"));
  }

  /** A group of two entries out of path order prints them swapped. */
  lemma PairSection(a: Import, b: Import)
    requires Compare(b.path, a.path) == Less
    ensures Section([a, b]) == [ToStr(b) + "\n" + (ToStr(a) + "\n")]
  {
    SwapPair(a, b);
    assert [b, a][1..] == [a];
    assert GroupText([a]) == ToStr(a) + "\n";
  }

  lemma SectionsOfThree(b: String, p: String, x: String)
    ensures [b] + [p] + [x] == [b, p, x]
  {
  }

  lemma ReorderText(l1: String, l2: String, l3: String, l4: String, l5: String)
    ensures Header + ((l2 + "\n") + "\n" + (l1 + "\n") + "\n" + (l5 + "\n" + (l3 + "\n" + l4 + "\n"))) + ")"
         == Header + l2 + "\n\n" + l1 + "\n\n" + l5 + "\n" + l3 + "\n" + l4 + "\n)"
  {
    assert "\n\n" == "\n" + "\n";
    assert "\n)" == "\n" + ")";
  }

  /** Printing and parsing again need not give the same block back. A body
      line of only spaces and tabs is a builtin entry with an empty printed
      form, so the block prints with an empty line in its place; parsing that
      text again drops the empty line, and the block then prints without it. */
  lemma IndentOnlyLineCollapses(w: String, m: Matcher)
    requires w != [] && AllIndent(w) && HasExternalPattern(m)
    ensures Output(NewImports([Opener, w, Closer], m)) == Join([Opener, [], Closer], "\n")
    ensures Output(NewImports([Opener, [], Closer], m)) == Header + ")"
    ensures Header + ")" != Join([Opener, [], Closer], "\n")
  {
    assert Join([Opener, [], Closer], "\n") == Header + "\n" + ")" by {
      JoinThree(Opener, [], Closer);
    }
    IndentOnlyBlock(w, m);
    EmptyBodyLine(m);
    assert |Header + ")"| != |Header + "\n" + ")"|;
  }

  /** A block whose only body line is made of spaces and tabs prints as
      the header, an empty line and the closing parenthesis. */
  lemma IndentOnlyBlock(w: String, m: Matcher)
    requires w != [] && AllIndent(w) && HasExternalPattern(m)
    ensures Output(NewImports([Opener, w, Closer], m)) == Header + "\n" + ")"
  {
    var imps := NewImports([Opener, w, Closer], m);
    var e := NewImport(w);
    IndentOnlyEntry(w, m);
    OneEntryBlock(w, m);
    OneGroupOfOne(imps, e, Other);
    assert Header + ToStr(e) == Header;
  }

  /** A line of only spaces and tabs is a builtin entry that prints as
      nothing. */
  lemma IndentOnlyEntry(w: String, m: Matcher)
    requires w != [] && AllIndent(w) && HasExternalPattern(m)
    ensures Package(m, w) == Other && !IsComment(w) && w != Closer
    ensures ToStr(NewImport(w)) == []
  {
    forall start, dot, slash ensures !ExternalMatchAt(w, start, dot, slash) {
      if 0 <= dot < |w| {
        assert IsIndent(w[dot]);
      }
    }
    BlankIsOther(m, w);
    assert AllWhitespace(w) by {
      forall j | 0 <= j < |w| ensures IsWhitespace(w[j]) {
        assert IsIndent(w[j]);
      }
    }
    TrimSpec(w);
    assert w[0] != ')' by {
      assert IsIndent(w[0]);
    }
    assert WhitespacePrefix(w) == [];
    RoundTrip(w);
  }

  /** A block whose only body line is empty holds nothing and prints as the
      header and the closing parenthesis. */
  lemma EmptyBodyLine(m: Matcher)
    requires HasExternalPattern(m)
    ensures Output(NewImports([Opener, [], Closer], m)) == Header + ")"
  {
    var input := [Opener, [], Closer];
    assert input[1..] == [[], Closer];
    assert [[], Closer][1..] == [Closer];
    BlankNotExternal(m);
    BlankIsOther(m, []);
    assert Trim([]) == [];
    var r := ParseImports(Default(), [], m);
    assert r == Default().(empty := 1);
    var imps := NewImports(input, m);
    assert imps == r by {
      ScanStep(Default(), [], [Closer], m, r);
      assert ScanBlock(r, [Closer], m) == r;
    }
    OutputLayout(imps);
    assert Section([]) + Section([]) + Section([]) == [];
  }
}
