/**
 * The text and JSON formatters (tools/xcoff_tool/output.py).
 *
 * Every text formatter grows a list of lines and joins it with "\n"; here
 * each is a method with that loop, proved equal to a function that states
 * the lines.  The JSON formatters are modelled by the shape of the object
 * they hand to `json.dumps`; the serialised text is not part of this model.
 */
module Output {
  import opened Text
  import opened Collections
  import opened Snapshots
  import opened Validator
  import opened Comparison

  // ---------------------------------------------------------------------
  // Building lists of lines
  // ---------------------------------------------------------------------

  /** `c * n` */
  function Repeat(c: char, n: nat): (r: string)
    ensures |r| == n && forall i :: 0 <= i < n ==> r[i] == c
  {
    if n == 0 then [] else Repeat(c, n - 1) + [c]
  }

  function Min(a: nat, b: nat): nat {
    if a < b then a else b
  }

  /** One line per item, in order. */
  function Mapped<T, U>(items: seq<T>, f: T -> U): (r: seq<U>)
    ensures |r| == |items| && forall i :: 0 <= i < |items| ==> r[i] == f(items[i])
  {
    seq(|items|, i requires 0 <= i < |items| => f(items[i]))
  }

  lemma MappedSnoc<T, U>(items: seq<T>, i: nat, f: T -> U)
    requires i < |items|
    ensures Mapped(items[..i + 1], f) == Mapped(items[..i], f) + [f(items[i])]
  {
  }

  /** `for item in items: lines.append(f(item))` */
  method AppendMapped<T, U>(lines: seq<U>, items: seq<T>, f: T -> U) returns (r: seq<U>)
    ensures r == lines + Mapped(items, f)
  {
    r := lines;
    for i := 0 to |items|
      invariant r == lines + Mapped(items[..i], f)
    {
      MappedSnoc(items, i, f);
      r := r + [f(items[i])];
    }
    assert items[..|items|] == items;
  }

  /** The "... and N more" line after a capped list. */
  function MoreLine(n: nat): string {
    "    ... and " + IntToString(n) + " more"
  }

  /** `items[:cap]`, one line each, then "... and N more" when items were left out. */
  function Capped<T>(items: seq<T>, cap: nat, f: T -> string): seq<string> {
    Mapped(items[..Min(cap, |items|)], f) + (if |items| > cap then [MoreLine(|items| - cap)] else [])
  }

  /** A capped list shows the first `cap` items, and a final "... and N more"
      line, with N the number of items not shown, exactly when there are more
      than `cap`. */
  lemma CappedMeaning<T>(items: seq<T>, cap: nat, f: T -> string)
    ensures var r := Capped(items, cap, f);
      && |r| == Min(cap, |items|) + (if |items| > cap then 1 else 0)
      && (forall i :: 0 <= i < Min(cap, |items|) ==> r[i] == f(items[i]))
      && (|items| > cap ==> r[|r| - 1] == MoreLine(|items| - cap))
      && (|items| <= cap ==> r == Mapped(items, f))
  {
    if |items| <= cap {
      assert items[..|items|] == items;
    }
  }

  method AppendCapped<T>(lines: seq<string>, items: seq<T>, cap: nat, f: T -> string) returns (r: seq<string>)
    ensures r == lines + Capped(items, cap, f)
  {
    ghost var shown := Mapped(items[..Min(cap, |items|)], f);
    r := AppendMapped(lines, items[..Min(cap, |items|)], f);
    if |items| > cap {
      var more := [MoreLine(|items| - cap)];
      assert lines + shown + more == lines + (shown + more);
      r := r + more;
    } else {
      assert shown + [] == shown;
    }
  }

  /** `"\n".join(lines)` */
  function JoinLines(lines: seq<string>): string {
    Join(lines, "\n")
  }

  /** `f"{x}"` of an optional string: None prints as "None". */
  function OrNone(s: Option<string>): string {
    if s.Some? then s.value else "None"
  }

  // ---------------------------------------------------------------------
  // `TextFormatter._format_analyzer_data`
  // ---------------------------------------------------------------------

  function StringLine(s: string): string { "    " + s }

  function SectionLine(s: Section): string {
    "    " + s.name + ": size=" + (if s.size.Some? then s.size.value else "?")
  }

  function ImportSymbolLine(i: Import): string { "    " + i.name }

  function ExportSymbolLine(e: Export): string { "    " + OrNone(e.address) + "  " + e.name }

  /** A value of a data dict as printed: a list by its length, anything else as text. */
  datatype Shown = Items(count: nat) | Scalar(text: string)

  function ValueText(v: Value): Shown {
    match v
    case Text(s) => Scalar(s)
    case Number(i) => Scalar(IntToString(i))
    case Flag(b) => Scalar(if b then "True" else "False")
    case Null => Scalar("None")
    case List(items) => Items(|items|)
  }

  /** The entries of a data dict in the order the analyzer wrote them. */
  function Fields(d: Data): Dict<Shown> {
    match d
    case WhatData(strings, count) => [("strings", Items(|strings|)), ("count", Scalar(IntToString(count)))]
    case SectionData(sections, count, raw) =>
      [("sections", Items(|sections|)), ("count", Scalar(IntToString(count))), ("raw", Scalar(raw))]
    case LoaderData(imports, exports, importCount, exportCount, raw) =>
      [("imports", Items(|imports|)), ("exports", Items(|exports|)),
       ("import_count", Scalar(IntToString(importCount))), ("export_count", Scalar(IntToString(exportCount))),
       ("raw", Scalar(raw))]
    case Generic(fields) => seq(|fields|, i requires 0 <= i < |fields| => (fields[i].0, ValueText(fields[i].1)))
  }

  function FieldLine(key: string, v: Shown): string {
    match v
    case Items(n) => "  " + key + ": " + IntToString(n) + " items"
    case Scalar(t) => "  " + key + ": " + t
  }

  /** The generic lines for the first `n` entries: one per entry, "raw" skipped. */
  function GenericLines(fields: Dict<Shown>, n: nat): seq<string>
    requires n <= |fields|
  {
    if n == 0 then []
    else
      var prior := GenericLines(fields, n - 1);
      if fields[n - 1].0 == "raw" then prior else prior + [FieldLine(fields[n - 1].0, fields[n - 1].1)]
  }

  /** The number of "raw" entries among the first `n`. */
  function RawCount(fields: Dict<Shown>, n: nat): nat
    requires n <= |fields|
  {
    if n == 0 then 0 else RawCount(fields, n - 1) + (if fields[n - 1].0 == "raw" then 1 else 0)
  }

  /** Every entry but "raw" gets exactly one line, and each line is that of an
      entry that is not "raw". */
  lemma {:induction false} GenericLinesMeaning(fields: Dict<Shown>, n: nat)
    requires n <= |fields|
    ensures |GenericLines(fields, n)| + RawCount(fields, n) == n
    ensures forall l :: l in GenericLines(fields, n) ==>
      exists i :: 0 <= i < n && fields[i].0 != "raw" && l == FieldLine(fields[i].0, fields[i].1)
  {
    if n > 0 {
      GenericLinesMeaning(fields, n - 1);
    }
  }

  /** A titled list of symbol names, at most 20 shown; nothing for an empty list. */
  function SymbolBlock<T>(title: string, items: seq<T>, f: T -> string): seq<string> {
    if items != [] then [title] + Capped(items, 20, f) else []
  }

  function LoaderCounts(imports: seq<Import>, exports: seq<Export>): seq<string> {
    ["  Imports: " + IntToString(|imports|), "  Exports: " + IntToString(|exports|)]
  }

  /** The `dump-T` lines: both counts always, the symbol names (at most 20 of
      each) only in verbose mode. */
  function LoaderSymbolLines(imports: seq<Import>, exports: seq<Export>, verbose: int): seq<string> {
    LoaderCounts(imports, exports)
    + if verbose == 0 then []
      else SymbolBlock("  Import symbols:", imports, ImportSymbolLine) + SymbolBlock("  Export symbols:", exports, ExportSymbolLine)
  }

  function CountedLines<T>(title: string, items: seq<T>, f: T -> string): seq<string> {
    [title + IntToString(|items|)] + Mapped(items, f)
  }

  /** The lines `_format_analyzer_data` returns, chosen by analyzer name. */
  function DataLines(name: string, d: Data, verbose: int): seq<string> {
    if name == "what" then CountedLines("  Identification strings: ", StringsOf(d), StringLine)
    else if name == "dump-h" then CountedLines("  Sections: ", SectionsOf(d), SectionLine)
    else if name == "dump-T" then LoaderSymbolLines(ImportsOf(d), ExportsOf(d), verbose)
    else GenericLines(Fields(d), |Fields(d)|)
  }

  /** A symbol block is at most a title, 20 names and a "more" line; a
      non-empty list of at most 20 names is shown whole under its title. */
  lemma SymbolBlockMeaning<T>(title: string, items: seq<T>, f: T -> string)
    ensures |SymbolBlock(title, items, f)| <= 1 + 20 + 1
    ensures items == [] <==> SymbolBlock(title, items, f) == []
    ensures 0 < |items| <= 20 ==> SymbolBlock(title, items, f) == [title] + Mapped(items, f)
  {
    CappedMeaning(items, 20, f);
  }

  /** Outside verbose mode `dump-T` data prints its two counts only; in verbose
      mode at most 22 lines follow for each list. */
  lemma LoaderSymbolLinesBounds(imports: seq<Import>, exports: seq<Export>, verbose: int)
    ensures verbose == 0 ==> |LoaderSymbolLines(imports, exports, verbose)| == 2
    ensures |LoaderSymbolLines(imports, exports, verbose)| <= 2 + 2 * (1 + 20 + 1)
  {
    SymbolBlockMeaning("  Import symbols:", imports, ImportSymbolLine);
    SymbolBlockMeaning("  Export symbols:", exports, ExportSymbolLine);
  }

  method FormatSymbolBlock<T>(title: string, items: seq<T>, f: T -> string) returns (lines: seq<string>)
    ensures lines == SymbolBlock(title, items, f)
  {
    lines := [];
    if items != [] {
      lines := AppendCapped([title], items, 20, f);
    }
  }

  method FormatLoaderSymbols(imports: seq<Import>, exports: seq<Export>, verbose: int) returns (lines: seq<string>)
    ensures lines == LoaderSymbolLines(imports, exports, verbose)
  {
    lines := LoaderCounts(imports, exports);
    if verbose != 0 {
      var importLines := FormatSymbolBlock("  Import symbols:", imports, ImportSymbolLine);
      var exportLines := FormatSymbolBlock("  Export symbols:", exports, ExportSymbolLine);
      lines := lines + importLines + exportLines;
    }
  }

  method FormatGeneric(fields: Dict<Shown>) returns (lines: seq<string>)
    ensures lines == GenericLines(fields, |fields|)
  {
    lines := [];
    for i := 0 to |fields|
      invariant lines == GenericLines(fields, i)
    {
      var (key, value) := fields[i];
      if key != "raw" {
        lines := lines + [FieldLine(key, value)];
      }
    }
  }

  /** `TextFormatter._format_analyzer_data` */
  method FormatAnalyzerData(name: string, d: Data, verbose: int) returns (lines: seq<string>)
    ensures lines == DataLines(name, d, verbose)
  {
    if name == "what" {
      lines := AppendMapped(["  Identification strings: " + IntToString(|StringsOf(d)|)], StringsOf(d), StringLine);
    } else if name == "dump-h" {
      lines := AppendMapped(["  Sections: " + IntToString(|SectionsOf(d)|)], SectionsOf(d), SectionLine);
    } else if name == "dump-T" {
      lines := FormatLoaderSymbols(ImportsOf(d), ExportsOf(d), verbose);
    } else {
      lines := FormatGeneric(Fields(d));
    }
  }

  // ---------------------------------------------------------------------
  // `TextFormatter.format_snapshots`
  // ---------------------------------------------------------------------

  function SnapshotHeader(s: Snapshot): seq<string> {
    [Repeat('=', 60),
     "File: " + s.filepath,
     "Type: " + s.fileType,
     "Size: " + IntToString(s.fileSize) + " bytes",
     "Modified: " + s.fileMtime,
     "Analyzed: " + s.timestamp]
    + (if s.name.Some? && s.name.value != "" then ["Stored as: " + s.name.value] else [])
    + [""]
  }

  /** The block of one analysis result: its name, then its data, or the error
      of a failed result, then a blank line. */
  function ResultLines(name: string, r: AnalysisResult, verbose: int): seq<string> {
    ["[" + name + "]"]
    + (if r.success then DataLines(name, r.data, verbose) else ["  ERROR: " + OrNone(r.error)])
    + [""]
  }

  /** A failed result prints the error line in place of any data. */
  lemma FailedResultLines(name: string, r: AnalysisResult, verbose: int)
    requires !r.success
    ensures ResultLines(name, r, verbose) == ["[" + name + "]", "  ERROR: " + OrNone(r.error), ""]
  {
  }

  function ResultsLines(results: Dict<AnalysisResult>, n: nat, verbose: int): seq<string>
    requires n <= |results|
  {
    if n == 0 then [] else ResultsLines(results, n - 1, verbose) + ResultLines(results[n - 1].0, results[n - 1].1, verbose)
  }

  function SnapshotsLines(snaps: seq<Snapshot>, n: nat, verbose: int): seq<string>
    requires n <= |snaps|
  {
    if n == 0 then []
    else SnapshotsLines(snaps, n - 1, verbose) + SnapshotHeader(snaps[n - 1]) + ResultsLines(snaps[n - 1].results, |snaps[n - 1].results|, verbose)
  }

  method FormatResult(name: string, result: AnalysisResult, verbose: int) returns (block: seq<string>)
    ensures block == ResultLines(name, result, verbose)
  {
    var body;
    if result.success {
      body := FormatAnalyzerData(name, result.data, verbose);
    } else {
      body := ["  ERROR: " + OrNone(result.error)];
    }
    block := ["[" + name + "]"] + body + [""];
  }

  /** One pass of the loop of `format_snapshot`'s results: the block of the
      next result goes after the blocks so far. */
  method AppendResult(results: Dict<AnalysisResult>, j: nat, verbose: int, lines: seq<string>) returns (extended: seq<string>)
    requires j < |results| && lines == ResultsLines(results, j, verbose)
    ensures extended == ResultsLines(results, j + 1, verbose)
  {
    var block := FormatResult(results[j].0, results[j].1, verbose);
    extended := lines + block;
  }

  method FormatResults(results: Dict<AnalysisResult>, verbose: int) returns (lines: seq<string>)
    ensures lines == ResultsLines(results, |results|, verbose)
  {
    lines := [];
    for j := 0 to |results|
      invariant lines == ResultsLines(results, j, verbose)
    {
      lines := AppendResult(results, j, verbose, lines);
    }
  }

  lemma SnapshotsStep(snaps: seq<Snapshot>, i: nat, verbose: int, block: seq<string>)
    requires i < |snaps|
    requires block == SnapshotHeader(snaps[i]) + ResultsLines(snaps[i].results, |snaps[i].results|, verbose)
    ensures SnapshotsLines(snaps, i + 1, verbose) == SnapshotsLines(snaps, i, verbose) + block
  {
  }

  /** `TextFormatter.format_snapshots` */
  method FormatSnapshots(snaps: seq<Snapshot>, verbose: int) returns (text: string)
    ensures text == JoinLines(SnapshotsLines(snaps, |snaps|, verbose))
  {
    var lines := [];
    for i := 0 to |snaps|
      invariant lines == SnapshotsLines(snaps, i, verbose)
    {
      var results := FormatResults(snaps[i].results, verbose);
      SnapshotsStep(snaps, i, verbose, SnapshotHeader(snaps[i]) + results);
      lines := lines + (SnapshotHeader(snaps[i]) + results);
    }
    text := JoinLines(lines);
  }

  // ---------------------------------------------------------------------
  // `TextFormatter.format_comparison`
  // ---------------------------------------------------------------------

  function ComparisonHeader(c: ComparisonResult): seq<string> {
    [Repeat('=', 60), "Comparison Result", Repeat('=', 60),
     "File 1: " + c.filepath1, "File 2: " + c.filepath2, ""]
  }

  /** `"status" in diff`: a status diff, or a section diff with a section named "status". */
  predicate HasStatus(diff: Diff) {
    diff.StatusDiff? || (diff.SectionsDiff? && HasKey(diff.changes, "status"))
  }

  /** `"added" in diff and "removed" in diff` */
  predicate HasAddedRemoved(diff: Diff) {
    diff.WhatDiff? || (diff.SectionsDiff? && HasKey(diff.changes, "added") && HasKey(diff.changes, "removed"))
  }

  /** `"imports" in diff or "exports" in diff` */
  predicate HasLoaderGroups(diff: Diff) {
    (diff.LoaderDiff? && (diff.imports.Some? || diff.exports.Some?))
    || (diff.SectionsDiff? && (HasKey(diff.changes, "imports") || HasKey(diff.changes, "exports")))
  }

  function PlusLine(s: string): string { "    + " + s }

  function MinusLine(s: string): string { "    - " + s }

  /** A non-empty list under its count, at most 10 items shown. */
  function CountedBlock(title: string, items: seq<string>, f: string -> string): seq<string> {
    if items != [] then ["  " + title + " (" + IntToString(|items|) + "):"] + Capped(items, 10, f) else []
  }

  /** The lines of a `what` diff: each non-empty list under its count, at
      most 10 items each. */
  function AddedRemovedLines(added: seq<string>, removed: seq<string>): seq<string> {
    CountedBlock("Added", added, PlusLine) + CountedBlock("Removed", removed, MinusLine)
  }

  /** A counted block shows the count line, the first 10 items and, when
      there are more, how many were left out; an empty list shows nothing. */
  lemma CountedBlockMeaning(title: string, items: seq<string>, f: string -> string)
    ensures items == [] <==> CountedBlock(title, items, f) == []
    ensures items != [] ==> |CountedBlock(title, items, f)| == 1 + Min(10, |items|) + (if |items| > 10 then 1 else 0)
    ensures forall i :: 0 <= i < Min(10, |items|) ==> CountedBlock(title, items, f)[1 + i] == f(items[i])
  {
    CappedMeaning(items, 10, f);
  }

  /** The lines of one group of a loader diff: printed only when the group is
      present and changed, with at most 5 added and 5 removed names. */
  function GroupLines(title: string, g: Option<NameSetDiff>): seq<string> {
    if g.Some? && (g.value.added != [] || g.value.removed != []) then
      var added, removed := g.value.added, g.value.removed;
      ["  " + title + ": +" + IntToString(|added|) + " -" + IntToString(|removed|)]
      + Mapped(added[..Min(5, |added|)], PlusLine) + Mapped(removed[..Min(5, |removed|)], MinusLine)
    else []
  }

  /** A group prints exactly when it changed, and never more than 11 lines. */
  lemma GroupLinesMeaning(title: string, g: Option<NameSetDiff>)
    ensures GroupLines(title, g) != [] <==> g.Some? && (g.value.added != [] || g.value.removed != [])
    ensures |GroupLines(title, g)| <= 1 + 5 + 5
  {
  }

  /** `sec_diff.get("status", "changed")` of a section change dict. */
  function ChangeStatus(c: SectionChange): string {
    match c
    case Added(_) => "added"
    case Removed(_) => "removed"
    case Modified(_, _) => "modified"
  }

  /** `data.get("status", "changed")` of a data dict, as the f-string writes
      it: a list of strings comes out as Python's `str` of the list. */
  function DataStatus(d: Data): string {
    if d.Generic? && Get(d.fields, "status").Some? then
      var v := Get(d.fields, "status").value;
      if v.List? then ListRepr(v.items) else ValueText(v).text
    else "changed"
  }

  function SectionStatusLine(e: (string, SectionChange)): string {
    "  " + e.0 + ": " + ChangeStatus(e.1)
  }

  /** The last branch: one "key: status" line per value that is a dict. */
  function EntryStatusLines(diff: Diff): seq<string> {
    match diff
    case SectionsDiff(changes) => Mapped(changes, SectionStatusLine)
    case GenericDiff(previous, current) => ["  old: " + DataStatus(previous), "  new: " + DataStatus(current)]
    case MetadataDiff(_, _) => ["  file_size: changed"]
    case _ => []
  }

  /** `diff['status']` as printed. */
  function StatusLine(diff: Diff, changeRepr: SectionChange -> string): string {
    match diff
    case StatusDiff(status) => "  " + status
    case SectionsDiff(changes) => "  " + (if Get(changes, "status").Some? then changeRepr(Get(changes, "status").value) else "")
    case _ => ""
  }

  /** The message of the TypeError raised by slicing a section change dict.
      This is the error of Python 3.11 and earlier, where a slice is not
      hashable; from Python 3.12 on, slices hash and the same lookup raises a
      KeyError instead.  Either way formatting stops there. */
  const SliceError: string := "TypeError: unhashable type: 'slice'"

  /** The body of one diff, by the keys it has.  A section diff that has
      sections named both "added" and "removed" takes the `what` branch and
      raises when it slices a change dict. */
  function DiffBody(diff: Diff, changeRepr: SectionChange -> string): Result<seq<string>> {
    if HasStatus(diff) then Ok([StatusLine(diff, changeRepr)])
    else if HasAddedRemoved(diff) then
      if diff.WhatDiff? then Ok(AddedRemovedLines(diff.added, diff.removed)) else Err(SliceError)
    else if HasLoaderGroups(diff) then
      if diff.LoaderDiff? then Ok(GroupLines("Imports", diff.imports) + GroupLines("Exports", diff.exports)) else Ok([])
    else Ok(EntryStatusLines(diff))
  }

  /** The message of the AttributeError raised when a `_metadata` entry is not a dict of changes. */
  const MetadataError: string := "AttributeError: object has no attribute 'get'"

  function MetadataLines(diff: Diff): seq<string>
    requires diff.MetadataDiff?
  {
    ["[metadata]", "  file_size: " + IntToString(diff.oldSize) + " -> " + IntToString(diff.newSize)]
  }

  /** The block of one entry of the diffs dict. */
  function DiffLines(name: string, diff: Diff, changeRepr: SectionChange -> string): Result<seq<string>> {
    if name == "_metadata" then
      if diff.MetadataDiff? then Ok(MetadataLines(diff)) else Err(MetadataError)
    else
      match DiffBody(diff, changeRepr)
      case Err(e) => Err(e)
      case Ok(body) => Ok(["[" + name + "]"] + body + [""])
  }

  /** The detail lines of the first `n` diffs; the first error ends formatting. */
  function DetailLines(diffs: Dict<Diff>, n: nat, changeRepr: SectionChange -> string): Result<seq<string>>
    requires n <= |diffs|
  {
    if n == 0 then Ok([])
    else
      match DetailLines(diffs, n - 1, changeRepr)
      case Err(e) => Err(e)
      case Ok(prior) =>
        match DiffLines(diffs[n - 1].0, diffs[n - 1].1, changeRepr)
        case Err(e) => Err(e)
        case Ok(block) => Ok(prior + block)
  }

  function DetailsHead(): seq<string> {
    ["", "Details:", Repeat('-', 40)]
  }

  /** The lines of `format_comparison`. */
  function ComparisonLines(c: ComparisonResult, summaryOnly: bool, changeRepr: SectionChange -> string): Result<seq<string>> {
    if !c.hasDifferences then Ok(ComparisonHeader(c) + ["Status: IDENTICAL"])
    else
      var top := ComparisonHeader(c) + ["Status: DIFFERENT", "Summary: " + c.summary];
      if summaryOnly then Ok(top)
      else
        match DetailLines(c.diffs, |c.diffs|, changeRepr)
        case Err(e) => Err(e)
        case Ok(details) => Ok(top + DetailsHead() + details)
  }

  /** Identical files: the text ends right after "Status: IDENTICAL".  With
      `summary_only` it ends right after the summary.  Otherwise the summary
      is followed by the details. */
  lemma ComparisonEnds(c: ComparisonResult, summaryOnly: bool, changeRepr: SectionChange -> string)
    ensures !c.hasDifferences ==>
      ComparisonLines(c, summaryOnly, changeRepr).Ok? && |ComparisonLines(c, summaryOnly, changeRepr).value| == 7
      && ComparisonLines(c, summaryOnly, changeRepr).value[6] == "Status: IDENTICAL"
    ensures c.hasDifferences && summaryOnly ==>
      ComparisonLines(c, summaryOnly, changeRepr).Ok? && |ComparisonLines(c, summaryOnly, changeRepr).value| == 8
      && ComparisonLines(c, summaryOnly, changeRepr).value[7] == "Summary: " + c.summary
    ensures c.hasDifferences && !summaryOnly && ComparisonLines(c, summaryOnly, changeRepr).Ok? ==>
      |ComparisonLines(c, summaryOnly, changeRepr).value| >= 11
      && ComparisonLines(c, summaryOnly, changeRepr).value[9] == "Details:"
  {
  }

  /** A diff formats without error unless it is a section diff with sections
      named both "added" and "removed" (and none named "status"), or an entry
      named `_metadata` that is not a metadata diff. */
  lemma DiffLinesOk(name: string, diff: Diff, changeRepr: SectionChange -> string)
    ensures DiffLines(name, diff, changeRepr).Err? <==>
      (name == "_metadata" && !diff.MetadataDiff?)
      || (name != "_metadata" && diff.SectionsDiff? && !HasStatus(diff) && HasAddedRemoved(diff))
  {
  }

  method FormatCountedBlock(title: string, items: seq<string>, f: string -> string) returns (lines: seq<string>)
    ensures lines == CountedBlock(title, items, f)
  {
    lines := [];
    if items != [] {
      lines := AppendCapped(["  " + title + " (" + IntToString(|items|) + "):"], items, 10, f);
    }
  }

  method FormatGroup(title: string, g: Option<NameSetDiff>) returns (lines: seq<string>)
    ensures lines == GroupLines(title, g)
  {
    lines := [];
    if g.Some? && (g.value.added != [] || g.value.removed != []) {
      var added, removed := g.value.added, g.value.removed;
      lines := ["  " + title + ": +" + IntToString(|added|) + " -" + IntToString(|removed|)];
      lines := AppendMapped(lines, added[..Min(5, |added|)], PlusLine);
      lines := AppendMapped(lines, removed[..Min(5, |removed|)], MinusLine);
    }
  }

  method FormatEntryStatus(diff: Diff) returns (lines: seq<string>)
    ensures lines == EntryStatusLines(diff)
  {
    match diff {
      case SectionsDiff(changes) => lines := AppendMapped([], changes, SectionStatusLine);
      case GenericDiff(previous, current) => lines := ["  old: " + DataStatus(previous), "  new: " + DataStatus(current)];
      case MetadataDiff(_, _) => lines := ["  file_size: changed"];
      case _ => lines := [];
    }
  }

  /** The body of one diff, as the loop of `format_comparison` appends it. */
  method FormatDiffBody(diff: Diff, changeRepr: SectionChange -> string) returns (r: Result<seq<string>>)
    ensures r == DiffBody(diff, changeRepr)
  {
    if HasStatus(diff) {
      r := Ok([StatusLine(diff, changeRepr)]);
    } else if HasAddedRemoved(diff) {
      if !diff.WhatDiff? {
        return Err(SliceError);
      }
      var added := FormatCountedBlock("Added", diff.added, PlusLine);
      var removed := FormatCountedBlock("Removed", diff.removed, MinusLine);
      r := Ok(added + removed);
    } else if HasLoaderGroups(diff) {
      var lines := [];
      if diff.LoaderDiff? {
        var imports := FormatGroup("Imports", diff.imports);
        var exports := FormatGroup("Exports", diff.exports);
        lines := imports + exports;
      }
      r := Ok(lines);
    } else {
      var lines := FormatEntryStatus(diff);
      r := Ok(lines);
    }
  }

  /** One entry of the diffs dict: its block, or the error that ends formatting. */
  method FormatDiff(name: string, diff: Diff, changeRepr: SectionChange -> string) returns (r: Result<seq<string>>)
    ensures r == DiffLines(name, diff, changeRepr)
  {
    if name == "_metadata" {
      if !diff.MetadataDiff? {
        return Err(MetadataError);
      }
      return Ok(MetadataLines(diff));
    }
    var body := FormatDiffBody(diff, changeRepr);
    if body.Err? {
      return Err(body.error);
    }
    r := Ok(["[" + name + "]"] + body.value + [""]);
  }

  /** Once a diff fails to format, the whole comparison fails with that error. */
  lemma {:induction false} DetailErrorSticks(diffs: Dict<Diff>, m: nat, n: nat, changeRepr: SectionChange -> string)
    requires m <= n <= |diffs|
    requires DetailLines(diffs, m, changeRepr).Err?
    ensures DetailLines(diffs, n, changeRepr) == DetailLines(diffs, m, changeRepr)
    decreases n
  {
    if n > m {
      DetailErrorSticks(diffs, m, n - 1, changeRepr);
    }
  }

  /** One pass of the detail loop: the entry either ends formatting with its
      error, which is then the outcome of the whole loop, or appends its
      block. */
  method AppendDetail(diffs: Dict<Diff>, i: nat, changeRepr: SectionChange -> string, prior: seq<string>)
    returns (next: Result<seq<string>>)
    requires i < |diffs| && DetailLines(diffs, i, changeRepr) == Ok(prior)
    ensures next == DetailLines(diffs, i + 1, changeRepr)
    ensures next.Err? ==> next == DetailLines(diffs, |diffs|, changeRepr)
  {
    var block := FormatDiff(diffs[i].0, diffs[i].1, changeRepr);
    if block.Err? {
      next := Err(block.error);
      DetailErrorSticks(diffs, i + 1, |diffs|, changeRepr);
      return;
    }
    next := Ok(prior + block.value);
  }

  /** The detail loop of `format_comparison`. */
  method FormatDetails(diffs: Dict<Diff>, changeRepr: SectionChange -> string) returns (r: Result<seq<string>>)
    ensures r == DetailLines(diffs, |diffs|, changeRepr)
  {
    var lines := [];
    for i := 0 to |diffs|
      invariant DetailLines(diffs, i, changeRepr) == Ok(lines)
    {
      var next := AppendDetail(diffs, i, changeRepr, lines);
      if next.Err? {
        return next;
      }
      lines := next.value;
    }
    r := Ok(lines);
  }

  /** `TextFormatter.format_comparison`: the text, or the error that ended it. */
  method FormatComparison(c: ComparisonResult, summaryOnly: bool, changeRepr: SectionChange -> string) returns (r: Result<string>)
    ensures ComparisonLines(c, summaryOnly, changeRepr).Err? ==> r == Err(ComparisonLines(c, summaryOnly, changeRepr).error)
    ensures ComparisonLines(c, summaryOnly, changeRepr).Ok? ==> r == Ok(JoinLines(ComparisonLines(c, summaryOnly, changeRepr).value))
  {
    var lines := ComparisonHeader(c);
    if c.hasDifferences {
      lines := lines + ["Status: DIFFERENT", "Summary: " + c.summary];
    } else {
      lines := lines + ["Status: IDENTICAL"];
      return Ok(JoinLines(lines));
    }
    if summaryOnly {
      return Ok(JoinLines(lines));
    }
    var details := FormatDetails(c.diffs, changeRepr);
    if details.Err? {
      return Err(details.error);
    }
    r := Ok(JoinLines(lines + DetailsHead() + details.value));
  }

  // ---------------------------------------------------------------------
  // `format_diff_summary`
  // ---------------------------------------------------------------------

  /** What `cmd_diff` found for one file. */
  datatype FileOutcome = FileAdded | FileRemoved | FileChanged(result: ComparisonResult)

  function ChangedFiles(comps: seq<(string, FileOutcome)>, n: nat): seq<(string, ComparisonResult)>
    requires n <= |comps|
  {
    if n == 0 then []
    else ChangedFiles(comps, n - 1) + (if comps[n - 1].1.FileChanged? then [(comps[n - 1].0, comps[n - 1].1.result)] else [])
  }

  function AddedFiles(comps: seq<(string, FileOutcome)>, n: nat): seq<string>
    requires n <= |comps|
  {
    if n == 0 then [] else AddedFiles(comps, n - 1) + (if comps[n - 1].1 == FileAdded then [comps[n - 1].0] else [])
  }

  function RemovedFiles(comps: seq<(string, FileOutcome)>, n: nat): seq<string>
    requires n <= |comps|
  {
    if n == 0 then [] else RemovedFiles(comps, n - 1) + (if comps[n - 1].1 == FileRemoved then [comps[n - 1].0] else [])
  }

  /** Every file lands in exactly one of the three lists, so the three counts
      add up to the number of files. */
  lemma {:induction false} PartitionCounts(comps: seq<(string, FileOutcome)>, n: nat)
    requires n <= |comps|
    ensures |ChangedFiles(comps, n)| + |AddedFiles(comps, n)| + |RemovedFiles(comps, n)| == n
  {
    if n > 0 {
      PartitionCounts(comps, n - 1);
    }
  }

  /** A file is listed as added (removed) exactly when its outcome says so. */
  lemma {:induction false} AddedFilesMeaning(comps: seq<(string, FileOutcome)>, n: nat, f: string)
    requires n <= |comps|
    ensures f in AddedFiles(comps, n) <==> exists i :: 0 <= i < n && comps[i] == (f, FileAdded)
    ensures f in RemovedFiles(comps, n) <==> exists i :: 0 <= i < n && comps[i] == (f, FileRemoved)
  {
    if n > 0 {
      AddedFilesMeaning(comps, n - 1, f);
    }
  }

  /** Two lines per changed file: its path and its comparison summary. */
  function ChangedLines(changed: seq<(string, ComparisonResult)>, n: nat): (r: seq<string>)
    requires n <= |changed|
    ensures |r| == 2 * n
  {
    if n == 0 then [] else ChangedLines(changed, n - 1) + ["  " + changed[n - 1].0, "    " + changed[n - 1].1.summary]
  }

  function AddedLine(f: string): string { "  + " + f }

  function RemovedLine(f: string): string { "  - " + f }

  function SummaryHead(name1: string, name2: string, changed: nat, added: nat, removed: nat): seq<string> {
    [Repeat('=', 60), "Diff: " + name1 + " vs " + name2, Repeat('=', 60),
     "Changed: " + IntToString(changed), "Added: " + IntToString(added), "Removed: " + IntToString(removed), ""]
  }

  /** A titled list of files after a blank line; nothing for no files. */
  function FilesBlock(title: string, files: seq<string>, f: string -> string): seq<string> {
    if files != [] then ["", title] + Mapped(files, f) else []
  }

  function DiffSummaryLines(name1: string, name2: string, comps: seq<(string, FileOutcome)>): seq<string> {
    var changed, added, removed := ChangedFiles(comps, |comps|), AddedFiles(comps, |comps|), RemovedFiles(comps, |comps|);
    SummaryHead(name1, name2, |changed|, |added|, |removed|)
    + (if changed != [] then ["Changed files:"] + ChangedLines(changed, |changed|) else [])
    + FilesBlock("Added files:", added, AddedLine)
    + FilesBlock("Removed files:", removed, RemovedLine)
  }

  /** The loop that sorts the files into changed, added and removed, in order. */
  method Partition(comps: seq<(string, FileOutcome)>)
    returns (changed: seq<(string, ComparisonResult)>, added: seq<string>, removed: seq<string>)
    ensures changed == ChangedFiles(comps, |comps|)
    ensures added == AddedFiles(comps, |comps|)
    ensures removed == RemovedFiles(comps, |comps|)
  {
    changed, added, removed := [], [], [];
    for i := 0 to |comps|
      invariant changed == ChangedFiles(comps, i) && added == AddedFiles(comps, i) && removed == RemovedFiles(comps, i)
    {
      var (filepath, result) := comps[i];
      match result {
        case FileAdded => added := added + [filepath];
        case FileRemoved => removed := removed + [filepath];
        case FileChanged(c) => changed := changed + [(filepath, c)];
      }
    }
  }

  method FormatChangedFiles(changed: seq<(string, ComparisonResult)>) returns (lines: seq<string>)
    ensures lines == ChangedLines(changed, |changed|)
  {
    lines := [];
    for i := 0 to |changed|
      invariant lines == ChangedLines(changed, i)
    {
      lines := lines + ["  " + changed[i].0, "    " + changed[i].1.summary];
    }
  }

  method FormatFilesBlock(title: string, files: seq<string>, f: string -> string) returns (lines: seq<string>)
    ensures lines == FilesBlock(title, files, f)
  {
    lines := [];
    if files != [] {
      lines := AppendMapped(["", title], files, f);
    }
  }

  /** `TextFormatter.format_diff_summary` */
  method FormatDiffSummary(name1: string, name2: string, comps: seq<(string, FileOutcome)>) returns (text: string)
    ensures text == JoinLines(DiffSummaryLines(name1, name2, comps))
  {
    var changed, added, removed := Partition(comps);
    var changedBlock := [];
    if changed != [] {
      var changedLines := FormatChangedFiles(changed);
      changedBlock := ["Changed files:"] + changedLines;
    }
    var addedLines := FormatFilesBlock("Added files:", added, AddedLine);
    var removedLines := FormatFilesBlock("Removed files:", removed, RemovedLine);
    text := JoinLines(SummaryHead(name1, name2, |changed|, |added|, |removed|) + changedBlock + addedLines + removedLines);
  }

  // ---------------------------------------------------------------------
  // `JSONFormatter`: the objects handed to `json.dumps`
  // ---------------------------------------------------------------------

  /** `format_snapshots`: a bare object for exactly one snapshot, a list otherwise. */
  datatype SnapshotsJson = OneSnapshot(doc: SnapshotDoc) | SnapshotList(docs: seq<SnapshotDoc>)

  function SnapshotsJsonOf(snaps: seq<Snapshot>): (r: SnapshotsJson)
    ensures r.OneSnapshot? <==> |snaps| == 1
    ensures r.OneSnapshot? ==> r.doc == ToDict(snaps[0])
    ensures r.SnapshotList? ==> |r.docs| == |snaps| && forall i :: 0 <= i < |snaps| ==> r.docs[i] == ToDict(snaps[i])
  {
    var docs := seq(|snaps|, i requires 0 <= i < |snaps| => ToDict(snaps[i]));
    if |docs| == 1 then OneSnapshot(docs[0]) else SnapshotList(docs)
  }

  /** `format_comparison`: "diffs" is present exactly when not `summary_only`. */
  datatype ComparisonJson = ComparisonJson(
    filepath1: string, filepath2: string, hasDifferences: bool, summary: string, diffs: Option<Dict<Diff>>)

  function ComparisonJsonOf(c: ComparisonResult, summaryOnly: bool): (r: ComparisonJson)
    ensures r.diffs.Some? <==> !summaryOnly
    ensures r.diffs.Some? ==> r.diffs.value == c.diffs
    ensures r.filepath1 == c.filepath1 && r.filepath2 == c.filepath2
    ensures r.hasDifferences == c.hasDifferences && r.summary == c.summary
  {
    ComparisonJson(c.filepath1, c.filepath2, c.hasDifferences, c.summary, if summaryOnly then None else Some(c.diffs))
  }

  /** `{"filepath", "summary"}` of a changed file. */
  datatype ChangedJson = ChangedJson(filepath: string, summary: string)

  datatype DiffSummaryJson = DiffSummaryJson(
    snapshot1: string, snapshot2: string, changed: seq<ChangedJson>, added: seq<string>, removed: seq<string>)

  function ChangedJsonOf(e: (string, ComparisonResult)): ChangedJson {
    ChangedJson(e.0, e.1.summary)
  }

  /** `JSONFormatter.format_diff_summary`: the same partition the text reports. */
  method JsonDiffSummary(name1: string, name2: string, comps: seq<(string, FileOutcome)>) returns (doc: DiffSummaryJson)
    ensures doc.snapshot1 == name1 && doc.snapshot2 == name2
    ensures |doc.changed| == |ChangedFiles(comps, |comps|)|
    ensures forall i :: 0 <= i < |doc.changed| ==>
      doc.changed[i] == ChangedJson(ChangedFiles(comps, |comps|)[i].0, ChangedFiles(comps, |comps|)[i].1.summary)
    ensures doc.added == AddedFiles(comps, |comps|) && doc.removed == RemovedFiles(comps, |comps|)
  {
    var changed, added, removed := Partition(comps);
    var entries := [];
    for i := 0 to |changed|
      invariant entries == Mapped(changed[..i], ChangedJsonOf)
    {
      MappedSnoc(changed, i, ChangedJsonOf);
      entries := entries + [ChangedJsonOf(changed[i])];
    }
    assert changed[..|changed|] == changed;
    doc := DiffSummaryJson(name1, name2, entries, added, removed);
  }

  /** `format_info`: the validation result's four fields. */
  datatype InfoJson = InfoJson(valid: bool, fileType: Option<string>, error: Option<string>, details: Details)

  function InfoJsonOf(v: ValidationResult): (r: InfoJson)
    ensures r.valid == v.valid && r.fileType == v.fileType && r.error == v.error && r.details == v.details
  {
    InfoJson(v.valid, v.fileType, v.error, v.details)
  }
}
