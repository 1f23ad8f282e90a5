# goimpfmt import-block normaliser, in Dafny

goimpfmt rewrites the `import` block of a Go file into a canonical form.

- It finds the first line that is longer than six characters and starts with `import`.
- It parses the one-line import or the parenthesised block that starts there.
- It sorts every entry into one of three groups:
  - builtin (no `host.tld/` shape);
  - project (the shape plus a match of the project pattern);
  - external (the shape only).
- It prints the groups in the order builtin, project, external. Each group is sorted by path, and one blank line separates two non-empty groups.
- It puts that text back in place of the original block.

This project models that pipeline, from a file given as its sequence of lines to the rewritten text, as pure Dafny functions. It proves what each stage promises.

| file | module | models |
|---|---|---|
| `text.dfy` | `Options`, `Text` | `Option`; Rust's `trim`, `split(" ")`, `join`, `Ord for String` |
| `matching.dfy` | `Matching` | `Matcher`, `PackageType`, `Matcher::package`; the pattern `.+\..+/` |
| `import_entry.dfy` | `ImportEntry` | `Import`, `whitespace_prefix`, `Import::new`, `Import::to_str`, `Ord`/`PartialEq for Import` |
| `sorting.dfy` | `Sorting` | `slice::sort` on a group, which is a stable sort by path |
| `import_block.dfy` | `ImportBlock` | `Imports`, `Imports::new`, `parse_imports`, `parse_comment`, `parse_import`, `handle_other`, `lines`, `length`, `IMPORT_WRAP_LEN` |
| `render.dfy` | `Render` | `ImportString::{new,push,build}`, `Imports::output` |
| `gofile.dfy` | `GoFile` | `GoFile::from_file`, `GoFile::from_line` |

Design points:

- **External pattern.** The pattern `.+\..+/` is stated with regex meaning, in `Matching.MatchesExternal`. The match is unanchored, and `.` matches anything but a line feed. So some substring must be: at least one character, a dot, at least one character, then a slash, all without a line feed. A linear scanner, `Matching.IsExternal`, is proved to decide it.
- **Project pattern.** The user supplies it as a regular expression. It stays an uninterpreted predicate, the `local` field of `Matcher`.
- **`Matcher` fields.** `Matcher` keeps both patterns as function fields, as the Rust struct keeps two compiled regexes. `Matching.NewMatcher` builds one whose `external` field is the scanner.
- **Panics become preconditions.** `Imports::new` panics on an empty input, so `ImportBlock.NewImports` requires a non-empty one. `from_line` slices out of bounds when a block never closes, so `GoFile.FromFile` requires `GoFile.Splicable`. `GoFile.UnclosedOverruns` proves that the slice is out of bounds for every such input.
- **Sorting.** `Sorting.SortByPath` is an insertion sort. The source sorts each group in place with `slice::sort`, which is stable. `Sorting.StableSortUnique` proves that a stable sort by path has exactly one result, so the insertion sort computes the same sequence.
- **Fold versus reference.** `ImportBlock.StateAt` gives a second, line-by-line description of a parsed block, independent of the fold. `ImportBlock.ParseMatchesLayout` proves the two agree.

## Model

| member | source | states |
|---|---|---|
| Matching.IsExternal | src/main.rs:39 | The scanner is true exactly when the line contains a match of `.+\..+/` anywhere: a dot with at least one character before it, at least one character after it, then a slash, none of them a line feed. |
| Matching.ScanExternal | src/main.rs:39 | From any scan position that keeps the scan invariant, the remaining scan decides the same pattern. |
| Matching.ExternalOnOneLine | src/main.rs:39 | On a line without line feeds, the pattern matches iff some dot at index 1 or later has a slash at least two positions after it. |
| Matching.NewMatcher | src/main.rs:37-42 | `Matcher::new` pairs the fixed external pattern with the caller's project pattern, unchanged. |
| Matching.PackageSpec | src/main.rs:44-52 | The line is OTHER iff the external pattern does not match. It is LOCAL iff both patterns match. It is EXTERNAL iff the external pattern matches and the project pattern does not. |
| Matching.Package | src/main.rs:44-52 | `Matcher::package`. Its contract lives in `PackageSpec`: OTHER iff the external pattern rejects the line, LOCAL iff both patterns match, EXTERNAL iff only the external one does. |
| Matching.BlankNotExternal | src/main.rs:39 | The empty line never matches the external pattern. |
| Matching.BlankIsOther | src/main.rs:44-52 | A line the external pattern rejects is OTHER whatever the project pattern says; this covers the empty line. |
| ImportEntry.WhitespacePrefix | src/main.rs:196-203 | The prefix is the maximal run of spaces and tabs that starts the line, stopping at the first other character. A line made only of spaces and tabs gets the empty prefix. |
| ImportEntry.NewImport | src/main.rs:158-175 | The prefix is the line's space/tab prefix and there is no comment. There is an alias iff the trimmed line contains a space. The alias is then the text before the first space, and the path the text after it, inner spaces kept. Otherwise the path is the whole trimmed line. |
| ImportEntry.ToStr | src/main.rs:177-193 | `Import::to_str`. Its contract lives in `RoundTrip`, `RoundTripWithComment` and `CanonicalRoundTrip`: a parsed line prints as its indent and trimmed text, after the comment and a line feed when one is attached. |
| ImportEntry.RoundTrip | src/main.rs:158-193 | Printing a freshly parsed line gives its space/tab prefix followed by its trimmed text. |
| ImportEntry.RoundTripWithComment | src/main.rs:177-193 | With a comment attached, the printed form is the comment, a line feed, then that same text. |
| ImportEntry.CanonicalRoundTrip | src/main.rs:158-193 | A line with a space/tab indent, non-blank text and no whitespace at either end of that text is reproduced exactly, aliased or not. |
| ImportEntry.OrderMatchesEquality | src/main.rs:205-221 | Two entries are equal (same path) iff each orders no later than the other. Prefix, alias and comment play no part. |
| ImportEntry.PathLessEq | src/main.rs:205-209 | `Ord for Import`: compares paths only. Its contract lives in `OrderMatchesEquality` and in the total-order lemmas on `Text.Compare`. |
| ImportEntry.SamePath | src/main.rs:217-221 | `PartialEq for Import`: equal paths. Its contract lives in `OrderMatchesEquality`. |
| Text.Compare | src/main.rs:207 | String comparison reports `Equal` exactly for equal strings. |
| Text.PrefixFirst | src/main.rs:207 | A string orders no later than any extension of it, so a proper prefix sorts first. |
| Text.Split | src/main.rs:159 | Splitting on a space yields at least one piece and no piece contains the separator. Joining the pieces with it gives the input back. There is one piece iff the input has no separator. |
| Text.Trim | src/main.rs:159 | `str::trim` on the whitespace this model covers. Its contract lives in `TrimSpec` and `TrimOfPadded`: the result is empty iff the string is all whitespace, otherwise it starts and ends with a non-whitespace character, and trimming a core padded with whitespace runs gives the core. |
| Text.Join | src/main.rs:140 | `[&str]::join`. Its contract lives in `JoinAppend` and `JoinConcat` (joining a sequence with one more part, or two sequences, inserts exactly one separator at the seam) and in `Split`, whose pieces rejoin to the input. |
| Sorting.Insert | src/main.rs:346 | Inserting gives the group's multiset plus the new entry, and keeps a path-sorted group sorted. |
| Sorting.InsertKeepsPath | src/main.rs:346 | For every path, the new entry goes in front of the existing entries with that path, and every other path's entries are unchanged. |
| Sorting.SortByPath | src/main.rs:346 | The result is ordered by path and is a permutation of the group. For every path, the entries with that path keep their relative order, which makes the sort stable. |
| Sorting.StableSortUnique | src/main.rs:346 | Two path-sorted sequences whose per-path subsequences all agree are equal, so any stable sort by path gives the result of `SortByPath`. |
| Sorting.SortSortedIsIdentity | src/main.rs:346 | Sorting a group that is already ordered by path leaves it unchanged. |
| Sorting.SwapPair | src/main.rs:346 | A group of two entries whose second path orders strictly before the first sorts into the reverse order. |
| ImportBlock.Default | src/main.rs:239-248 | `Imports::default`: a grouped block with no entry, no pending comment and no counted line, so `length` is 0 and `lines` is 2. |
| ImportBlock.ParseComment | src/main.rs:274-280 | A comment line is counted in `empty` and leaves a pending comment; the groups are unchanged. |
| ImportBlock.CommentRunGrows | src/main.rs:274-280 | In the line-by-line description, a comment line becomes the last line of the comment attached to the next line: the whole comment when none was pending, else the pending one, a line feed and this line. |
| ImportBlock.HandleOther | src/main.rs:295-300 | An OTHER line is dropped and counted iff it is exactly empty; otherwise its entry is appended to the builtin group. Either way one line is accounted for. |
| ImportBlock.EntryWith | src/main.rs:283-287 | The entry of a non-comment line is its parse carrying the pending comment. |
| ImportBlock.ParseImport | src/main.rs:282-300 | The pending comment is cleared. The entry, carrying the comment, is appended to the project group when the line is LOCAL and to the external group when it is EXTERNAL. An OTHER line's entry is appended to the builtin group, unless the raw line is exactly empty, in which case it is only counted in `empty`. The other groups are unchanged, and one line is accounted for. |
| ImportBlock.ParseImports | src/main.rs:266-272 | Exactly one line is accounted for, and a comment is pending afterwards iff the line was a comment line. |
| ImportBlock.IsComment | src/main.rs:267-268 | The comment test: the trimmed line starts with `//`. Its contract lives in `ParseImports`: a comment is pending after a line iff the line passes this test. |
| ImportBlock.BodyLines | src/main.rs:258-259 | The body is the input up to, not including, the first `)` line, or all of it when there is none. |
| ImportBlock.ScanBlock | src/main.rs:258-261 | The fold accounts for exactly one entry or `empty` count per body line. |
| ImportBlock.NewImports | src/main.rs:250-264 | If the first line is not `import (` it is kept whole, and `length` and `lines` are 1. Otherwise `lines` equals the body length plus 2. |
| ImportBlock.Length | src/main.rs:321-326 | `Imports::length`. Its contract lives in `NewImports` (1 for the one-line form), `ParseMatchesLayout` with `KindsPartition` (the entries of the three groups plus `empty` account for every body line once) and `ReorderBlock` (4 for the reordering test). |
| ImportBlock.LineCount | src/main.rs:314-319 | `Imports::lines`. Its contract lives in `NewImports` (the body length plus 2 for a grouped block) and `ClosedBlockLines` (k+1 when the first `)` is at index k). |
| ImportBlock.ClosedBlockLines | src/main.rs:314-319 | With the first `)` at input index k, the block takes up k+1 lines. |
| ImportBlock.KindsPartition | src/main.rs:258-300 | Every body line is counted exactly once: as an entry of one of the three groups, or as a comment or empty line. |
| ImportBlock.ParseMatchesLayout | src/main.rs:250-300 | The fold agrees with the line-by-line description. Each group holds, in source order, the entries of its body lines. Each entry carries the comment lines directly above it. `empty` counts comment and empty lines. The trailing comment is the comment run above `)`. |
| ImportBlock.OneEntryBlock | src/main.rs:250-300 | A block with one non-comment, non-empty line holds that line's entry, without a comment, in the line's group. The other groups are empty and `length` is 1. |
| ImportBlock.ScanIgnoresAfterCloser | src/main.rs:258-261 | The fold stops at the first `)`: lines after it have no effect. |
| ImportBlock.IgnoresAfterCloser | src/main.rs:250-264 | `Imports::new` of an input equals `Imports::new` of the input cut just after its first `)`. |
| ImportBlock.ScanStep | src/main.rs:258-261 | One step of the fold: a line other than `)` is parsed and the fold goes on with the rest. |
| ImportBlock.ReorderBlock | src/main.rs:379-405 | The block of `test_import_fix`, with abstract lines of the test's kinds (project, builtin, comment, external, external): the builtin group holds the second line, the project group the first, and the external group the fourth line with the comment attached, then the fifth. One line is counted in `empty`, `length` is 4 and `lines` is 7. |
| Render.GroupTextLines | src/main.rs:347-350 | A group's text is empty iff the group is. Otherwise it is the entries' printed forms joined by line feeds, plus a final line feed. |
| Render.GroupText | src/main.rs:347-350 | The loop of `push` that prints each entry followed by a line feed. Its contract lives in `GroupTextLines`. |
| Render.PushKeepsLayout | src/main.rs:342-354 | The builder's text is always the header plus the sections written so far joined by line feeds, and `previous` says whether any section was written. A push adds the group's sorted section, or nothing when the group is empty. |
| Render.OutputLayout | src/main.rs:302-312 | A grouped block prints as `import (` and a line feed, then the sections of the builtin, project and external groups in that order joined by line feeds, then `)`. Empty groups are skipped. Since each section ends in a line feed, one separator line sits between two non-empty groups, and there is no separator line before the first group or after the last. An entry whose printed form is empty still takes a line of its own. |
| Render.Push | src/main.rs:342-354 | `ImportString::push`. Its contract lives in `PushKeepsLayout`. |
| Render.Build | src/main.rs:356-358 | `ImportString::build`. Its contract lives in `OutputLayout`, whose text ends with the `)` it appends. |
| Render.Output | src/main.rs:302-312 | `Imports::output`. Its contract lives in `OutputLayout` for a grouped block and `SingleOutput` for a one-line import. |
| Render.SingleOutput | src/main.rs:302-305 | A one-line import prints as the line it was parsed from. |
| Render.OneGroupOfOne | src/main.rs:302-358 | A block whose only entry is `e`, in any group, prints as the header, the printed `e`, a line feed, then `)`. |
| Render.OneEntryUnchanged | src/main.rs:407-417 | A grouped block whose single line is already canonical prints exactly as it was written; this is the source's `test_simple_import`. |
| Render.ReorderOutput | src/main.rs:379-405 | The block `ReorderBlock` gives, with canonical entry lines and the fifth path ordering before the fourth, prints as the header, the builtin line, a blank line, the project line, a blank line, the fifth line, the comment and the fourth line, then `)`. |
| Render.ReorderTest | src/main.rs:379-405 | `test_import_fix` with abstract lines: parsing and printing the block gives the expected reordered text, and `length` is 4. |
| Render.IndentOnlyLineCollapses | src/main.rs:250-312 | A block whose only body line is spaces and tabs prints as `import (`, an empty line and `)`. Parsing that text again drops the empty line, so the block then prints as `import (` and `)`, which is a different text. |
| Render.IndentOnlyBlock | src/main.rs:250-312 | A block whose only body line is spaces and tabs prints as the header, an empty line and `)`. |
| Render.IndentOnlyEntry | src/main.rs:158-203 | A line of only spaces and tabs is classified builtin, is not a comment, and prints as the empty string. |
| Render.EmptyBodyLine | src/main.rs:295-312 | A block whose only body line is exactly empty holds nothing and prints as the header and `)`. |
| GoFile.FirstImportFrom | src/main.rs:126-133 | The scan returns the first line from the start index that is longer than six characters and begins with `import`, or nothing when there is none. |
| GoFile.IsImportLine | src/main.rs:127-129 | The import-line test: more than six characters, the first six being `import`. Its contract lives in `FirstImportFrom`. |
| GoFile.SpanIsLineCount | src/main.rs:138-142 | The block's `lines` count equals its span in the file: 1 for a one-line import, otherwise up to and including the first `)`. The span stays within the file. |
| GoFile.UnclosedOverruns | src/main.rs:138-142 | A grouped block without a `)` makes `i + lines` one more than the number of lines, so the slice at line 140 is out of bounds. |
| GoFile.FromFile | src/main.rs:124-142 | The result is absent iff no line is an import line. Otherwise, with i the first import line, it is the lines before i, the rendered block and the lines after the block's span, each followed by a line feed. |
| GoFile.FromLine | src/main.rs:137-142 | `GoFile::from_line`. Its contract lives in `FromFile` (the splice at the first import line), `SpanIsLineCount` (the span it uses) and `UnclosedOverruns` (when its slice is out of bounds). |
| GoFile.FromFileAt | src/main.rs:124-142 | The same formula, for a given first import line i. |
| GoFile.SpliceIsReplacement | src/main.rs:138-142 | With lines on both sides, the spliced text is the file's lines with the block's lines replaced by the rendered text, joined, plus a final line feed. |
| GoFile.Splice | src/main.rs:140 | The `format!` of `from_line`. Its contract lives in `FromFile` and `SpliceIsReplacement`: with lines on both sides, it is the file's lines with the block replaced, joined, plus a final line feed. |
| GoFile.SpliceReplacesBlock | src/main.rs:124-142 | The same statement for the output of `from_file`. |
| GoFile.OneLineImportKept | src/main.rs:124-142 | A file whose first import is a one-line import comes back as its lines joined, plus a final line feed. |
| GoFile.CanonicalBlockKept | src/main.rs:124-142 | A file whose import block holds one canonical entry comes back as its lines joined, plus a final line feed. |

## Left out

- `main`, `Formatter`, `GoFile::new` and `GoFile::output`: directory traversal, file reads and writes, and console printing. The model starts from a file's lines.
- `str::lines` is not modelled: the input is the file's lines. Its removal of a trailing carriage return is not modelled either.
- The regex engine: the external pattern is stated directly as what `.+\..+/` matches. The project pattern is an uninterpreted predicate, because it is user-supplied text.
- Unicode: `trim` strips the ASCII whitespace characters (tab through carriage return, and space). The `len() > 6` test of `from_file` counts characters, which equals its byte count on ASCII text. Strings compare character by character, which is UTF-8 byte order.
- `Import::with_comment` and the `Display` impl are folded into the record update in `ImportBlock.EntryWith` and into `ImportEntry.ToStr`.
- In-place mutation: `Imports::output` sorts the group vectors in place. The model sorts a copy; `lines` and `length` do not depend on the order.
- The source's tests are stated for all lines of their shape, not for their literal strings. `Render.OneEntryUnchanged`, `Render.SingleOutput` and `Render.ReorderTest` state `test_simple_import`, `test_one_liner_import` and `test_import_fix`. The classification of the test's lines is a hypothesis of `Render.ReorderTest`, because the project pattern is uninterpreted. `test_import_file_fix` reads a file and is left out with the I/O.
- GoFile.OneLineImportKept: assumes the import is neither the first nor the last line. When it is first, `from_line` still writes a leading line feed. When it is last, it writes an extra final line feed. The general formula in `FromFile` covers both cases.
- GoFile.CanonicalBlockKept: assumes the block is neither the first nor the last thing in the file, for the same two line feeds. The general formula in `FromFile` covers both cases.
- Render.OneEntryUnchanged: unchanged re-rendering is proved only for a block with one canonical entry. It does not hold for blocks in general, so no general idempotence is claimed. `Render.IndentOnlyLineCollapses` shows a block that prints differently once its printed text is parsed again.
- `ImportBlock.ParseMatchesLayout` and `GoFile.CanonicalBlockKept` assume the external pattern is the real one, through `Matching.HasExternalPattern` (or a canonical non-empty line). The fold's treatment of an empty line depends on the empty line not being external.
- No line-diff engine appears in the code, so none is modelled.

## Behaviour of the code worth knowing

- A line is dropped as blank only when it is exactly empty, not when it is empty after trimming. A line of spaces becomes a builtin entry with an empty path. That entry prints as an empty line, so a block whose only body line is `"  "` prints as `import (`, an empty line, then `)` (`Render.IndentOnlyBlock`).
- The project pattern is the caller's regex, matched anywhere in the line. In `test_import_fix` (src/main.rs:379-405) the matcher is built from `github.com/Vivino/go-api`, so the `go-api` path is the project group and `github.com/Pungyeon/import-fix` is external.
- `Imports::new` itself never panics on a missing `)`; the out-of-bounds slice in `from_line` does.
