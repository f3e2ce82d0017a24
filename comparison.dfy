/**
 * `ComparisonEngine` (tools/xcoff_tool/core.py): the differences between two
 * snapshots, analyzer by analyzer, with a has-differences flag and a
 * one-line summary.
 *
 * Python sets are iterated in an order the language leaves open; wherever
 * the engine turns a set into a list or loops over one, this model uses
 * ascending string order.
 */
module Comparison {
  import opened Text
  import opened Collections
  import opened Snapshots

  /** One entry of the `changes` dict of a `dump-h` diff. */
  datatype SectionChange =
    | Added(current: Section)                      // {"status": "added", "new": s2}
    | Removed(previous: Section)                   // {"status": "removed", "old": s1}
    | Modified(previous: Section, current: Section) // {"status": "modified", "old": s1, "new": s2}

  /** `{"added": [...], "removed": [...]}` for the imports or the exports. */
  datatype NameSetDiff = NameSetDiff(added: seq<string>, removed: seq<string>)

  /** A value of the `diffs` dict. */
  datatype Diff =
    | MetadataDiff(oldSize: int, newSize: int)     // {"file_size": {"old", "new"}}
    | StatusDiff(status: string)                   // {"status": "added" | "removed"}
    | WhatDiff(added: seq<string>, removed: seq<string>, common: nat)
    | SectionsDiff(changes: Dict<SectionChange>)
    | LoaderDiff(imports: Option<NameSetDiff>, exports: Option<NameSetDiff>)
    | GenericDiff(previous: Data, current: Data)   // {"changed": True, "old", "new"}

  datatype ComparisonResult = ComparisonResult(
    filepath1: string, filepath2: string, hasDifferences: bool, summary: string, diffs: Dict<Diff>)

  // ---------------------------------------------------------------------
  // Set differences
  // ---------------------------------------------------------------------

  /** `list(set(a) - set(b))` */
  function Difference(a: seq<string>, b: seq<string>): seq<string> {
    SortedSet(Without(a, b))
  }

  /** The listed difference holds each element of `a` missing from `b` exactly
      once, so its length is the size of the set difference. */
  lemma DifferenceMeaning(a: seq<string>, b: seq<string>)
    ensures forall x :: x in Difference(a, b) <==> x in a && x !in b
    ensures StrictlySorted(Difference(a, b))
    ensures |Difference(a, b)| == |Elements(a) - Elements(b)|
  {
    WithoutMeaning(a, b);
    SortedSetCorrect(Without(a, b));
    StrictlySortedDistinct(Difference(a, b));
    DistinctCardinality(Difference(a, b));
    assert Elements(Difference(a, b)) == Elements(a) - Elements(b);
  }

  /** Nothing is listed exactly when every element of `a` is in `b`. */
  lemma DifferenceEmpty(a: seq<string>, b: seq<string>)
    ensures Difference(a, b) == [] <==> Elements(a) <= Elements(b)
  {
    DifferenceMeaning(a, b);
    assert |Difference(a, b)| == 0 <==> Elements(a) - Elements(b) == {};
  }

  /** `set(a) | set(b)`, listed in ascending order. */
  function Union(a: seq<string>, b: seq<string>): seq<string> {
    SortedSet(a + b)
  }

  lemma UnionMeaning(a: seq<string>, b: seq<string>)
    ensures forall x :: x in Union(a, b) <==> x in a || x in b
    ensures Distinct(Union(a, b))
  {
    SortedSetCorrect(a + b);
    StrictlySortedDistinct(Union(a, b));
  }

  // ---------------------------------------------------------------------
  // `_diff_what`
  // ---------------------------------------------------------------------

  function DiffWhat(data1: Data, data2: Data): Option<Diff> {
    var strings1, strings2 := StringsOf(data1), StringsOf(data2);
    var added, removed := Difference(strings2, strings1), Difference(strings1, strings2);
    if added != [] || removed != [] then
      Some(WhatDiff(added, removed, |Elements(strings1) * Elements(strings2)|))
    else None
  }

  /** A `what` diff is recorded exactly when the two string sets differ; it
      lists the new strings, the vanished strings, and counts the common ones. */
  lemma DiffWhatMeaning(data1: Data, data2: Data)
    ensures var s1, s2 := Elements(StringsOf(data1)), Elements(StringsOf(data2));
      DiffWhat(data1, data2).None? <==> s1 == s2
    ensures var s1, s2 := Elements(StringsOf(data1)), Elements(StringsOf(data2));
      DiffWhat(data1, data2).Some? ==>
        var d := DiffWhat(data1, data2).value;
        && d.WhatDiff?
        && (forall x :: x in d.added <==> x in s2 && x !in s1)
        && (forall x :: x in d.removed <==> x in s1 && x !in s2)
        && |d.added| == |s2 - s1| && |d.removed| == |s1 - s2|
        && d.common == |s1 * s2|
  {
    var strings1, strings2 := StringsOf(data1), StringsOf(data2);
    DifferenceMeaning(strings2, strings1);
    DifferenceMeaning(strings1, strings2);
    DifferenceEmpty(strings2, strings1);
    DifferenceEmpty(strings1, strings2);
  }

  // ---------------------------------------------------------------------
  // `_diff_sections`
  // ---------------------------------------------------------------------

  /** `{s["name"]: s for s in sections[:n]}`: a later section of the same name wins. */
  function SectionMap(sections: seq<Section>, n: nat): Dict<Section>
    requires n <= |sections|
  {
    if n == 0 then [] else Put(SectionMap(sections, n - 1), sections[n - 1].name, sections[n - 1])
  }

  function SectionsByName(d: Data): Dict<Section> {
    SectionMap(SectionsOf(d), |SectionsOf(d)|)
  }

  /** The last of `sections[..n]` named `name`, searching backwards. */
  function LastNamed(sections: seq<Section>, n: nat, name: string): Option<Section>
    requires n <= |sections|
  {
    if n == 0 then None
    else if sections[n - 1].name == name then Some(sections[n - 1])
    else LastNamed(sections, n - 1, name)
  }

  /** Looking a name up in the section map finds the last section of that name. */
  lemma {:induction false} SectionMapGet(sections: seq<Section>, n: nat, name: string)
    requires n <= |sections|
    ensures Get(SectionMap(sections, n), name) == LastNamed(sections, n, name)
  {
    if n == 0 {
      assert Get(SectionMap(sections, n), name) == Get([], name) == None;
    } else {
      var prior, s := SectionMap(sections, n - 1), sections[n - 1];
      assert SectionMap(sections, n) == Put(prior, s.name, s);
      SectionMapGet(sections, n - 1, name);
      PutGet(prior, s.name, s, name);
    }
  }

  /** What `_diff_sections` records for one name, given its section in each map.
      Both absent does not arise: the names come from the union of the keys. */
  function ChangeFor(s1: Option<Section>, s2: Option<Section>): (r: Option<SectionChange>)
    ensures r.None? <==> s1 == s2
    ensures r.Some? && r.value.Added? ==> s1.None? && s2 == Some(r.value.current)
    ensures r.Some? && r.value.Removed? ==> s2.None? && s1 == Some(r.value.previous)
    ensures r.Some? && r.value.Modified? ==> s1 == Some(r.value.previous) && s2 == Some(r.value.current)
  {
    if s1 == s2 then None
    else if s1.None? then Some(Added(s2.value))
    else if s2.None? then Some(Removed(s1.value))
    else Some(Modified(s1.value, s2.value))
  }

  function ChangeOf(m1: Dict<Section>, m2: Dict<Section>): string -> Option<SectionChange> {
    name => ChangeFor(Get(m1, name), Get(m2, name))
  }

  function SectionChanges(m1: Dict<Section>, m2: Dict<Section>): Dict<SectionChange> {
    var names := Union(Keys(m1), Keys(m2));
    Gather(names, |names|, ChangeOf(m1, m2), [])
  }

  function DiffSections(data1: Data, data2: Data): Option<Diff> {
    var changes := SectionChanges(SectionsByName(data1), SectionsByName(data2));
    if changes == [] then None else Some(SectionsDiff(changes))
  }

  /** Every name maps to what changed about its section, and nothing else is recorded. */
  lemma SectionChangesGet(m1: Dict<Section>, m2: Dict<Section>, name: string)
    ensures Get(SectionChanges(m1, m2), name) == ChangeFor(Get(m1, name), Get(m2, name))
  {
    var names := Union(Keys(m1), Keys(m2));
    UnionMeaning(Keys(m1), Keys(m2));
    assert names[..|names|] == names;
    GatherGet(names, |names|, ChangeOf(m1, m2), [], name);
    GetFound(m1, name);
    GetFound(m2, name);
    assert ChangeOf(m1, m2)(name) == ChangeFor(Get(m1, name), Get(m2, name));
  }

  /** A `dump-h` diff is recorded exactly when some name looks up a different
      section (or none) in the two name-keyed maps, so the order of the rows
      and the raw text do not matter. */
  lemma DiffSectionsMeaning(data1: Data, data2: Data)
    ensures var m1, m2 := SectionsByName(data1), SectionsByName(data2);
      DiffSections(data1, data2).None? <==> forall name :: Get(m1, name) == Get(m2, name)
    ensures var m1, m2 := SectionsByName(data1), SectionsByName(data2);
      DiffSections(data1, data2).Some? ==>
        forall name :: Get(DiffSections(data1, data2).value.changes, name) == ChangeFor(Get(m1, name), Get(m2, name))
  {
    var m1, m2 := SectionsByName(data1), SectionsByName(data2);
    var changes := SectionChanges(m1, m2);
    forall name ensures Get(changes, name) == ChangeFor(Get(m1, name), Get(m2, name)) {
      SectionChangesGet(m1, m2, name);
    }
    if changes != [] {
      var name := changes[0].0;
      assert Get(changes, name) == Some(changes[0].1);
      assert Get(m1, name) != Get(m2, name);
    } else {
      forall name ensures Get(m1, name) == Get(m2, name) {
        assert Get(changes, name).None?;
      }
    }
  }

  // ---------------------------------------------------------------------
  // `_diff_loader`
  // ---------------------------------------------------------------------

  function ImportNames(imports: seq<Import>): (r: seq<string>)
    ensures |r| == |imports| && forall i :: 0 <= i < |r| ==> r[i] == imports[i].name
  {
    seq(|imports|, i requires 0 <= i < |imports| => imports[i].name)
  }

  function ExportNames(exports: seq<Export>): (r: seq<string>)
    ensures |r| == |exports| && forall i :: 0 <= i < |r| ==> r[i] == exports[i].name
  {
    seq(|exports|, i requires 0 <= i < |exports| => exports[i].name)
  }

  function NameSetChange(names1: seq<string>, names2: seq<string>): Option<NameSetDiff> {
    if Elements(names1) != Elements(names2) then
      Some(NameSetDiff(Difference(names2, names1), Difference(names1, names2)))
    else None
  }

  /** A group is recorded exactly when its name sets differ, and then at
      least one of its two lists is non-empty. */
  lemma NameSetChangeMeaning(names1: seq<string>, names2: seq<string>)
    ensures NameSetChange(names1, names2).None? <==> Elements(names1) == Elements(names2)
    ensures NameSetChange(names1, names2).Some? ==>
      var d := NameSetChange(names1, names2).value;
      && (forall x :: x in d.added <==> x in names2 && x !in names1)
      && (forall x :: x in d.removed <==> x in names1 && x !in names2)
      && (d.added != [] || d.removed != [])
  {
    DifferenceMeaning(names2, names1);
    DifferenceMeaning(names1, names2);
    DifferenceEmpty(names2, names1);
    DifferenceEmpty(names1, names2);
  }

  function DiffLoader(data1: Data, data2: Data): (r: Option<Diff>)
    ensures r.None? <==>
      && Elements(ImportNames(ImportsOf(data1))) == Elements(ImportNames(ImportsOf(data2)))
      && Elements(ExportNames(ExportsOf(data1))) == Elements(ExportNames(ExportsOf(data2)))
  {
    var imports := NameSetChange(ImportNames(ImportsOf(data1)), ImportNames(ImportsOf(data2)));
    var exports := NameSetChange(ExportNames(ExportsOf(data1)), ExportNames(ExportsOf(data2)));
    if imports.None? && exports.None? then None else Some(LoaderDiff(imports, exports))
  }

  // ---------------------------------------------------------------------
  // `compare`
  // ---------------------------------------------------------------------

  /** Python's `==` on two data dicts: the entries of a generic dict are
      compared whatever their order; the dicts the three analyzers build
      always list their keys in the same order. */
  predicate SameData(d1: Data, d2: Data) {
    if d1.Generic? && d2.Generic? then SameDict(d1.fields, d2.fields) else d1 == d2
  }

  /** Equal data is the same data, and generic dicts that differ only in the
      order of their entries are the same data too. */
  lemma SameDataMeaning(d1: Data, d2: Data)
    ensures d1 == d2 ==> SameData(d1, d2)
    ensures d1.Generic? && d2.Generic? ==> (SameData(d1, d2) <==> forall k :: Get(d1.fields, k) == Get(d2.fields, k))
  {
    if d1.Generic? && d2.Generic? {
      SameDictMeaning(d1.fields, d2.fields);
    }
  }

  /** Two results whose generic dicts list the same entries in another order
      are not a difference. */
  lemma ReorderedDataSame(name: string, key1: string, key2: string, v1: Value, v2: Value, r: AnalysisResult)
    requires key1 != key2
    ensures AnalyzerDiff(name, Some(r.(data := Generic([(key1, v1), (key2, v2)]))),
                               Some(r.(data := Generic([(key2, v2), (key1, v1)])))) == None
  {
    SameDictMeaning([(key1, v1), (key2, v2)], [(key2, v2), (key1, v1)]);
  }

  /** `_diff_data` */
  function DiffData(analyzer: string, data1: Data, data2: Data): Option<Diff> {
    if analyzer == "what" then DiffWhat(data1, data2)
    else if analyzer == "dump-h" then DiffSections(data1, data2)
    else if analyzer == "dump-T" then DiffLoader(data1, data2)
    else if !SameData(data1, data2) then Some(GenericDiff(data1, data2))
    else None
  }

  /** The entry `compare` records for one analyzer name, from its result in each snapshot. */
  function AnalyzerDiff(name: string, r1: Option<AnalysisResult>, r2: Option<AnalysisResult>): Option<Diff> {
    if r1.None? then Some(StatusDiff("added"))
    else if r2.None? then Some(StatusDiff("removed"))
    else if !SameData(r1.value.data, r2.value.data) then DiffData(name, r1.value.data, r2.value.data)
    else None
  }

  function AnalyzerDiffOf(snap1: Snapshot, snap2: Snapshot): string -> Option<Diff> {
    name => AnalyzerDiff(name, Get(snap1.results, name), Get(snap2.results, name))
  }

  /** The analyzers either snapshot has a result for, in the order `compare` visits them. */
  function AnalyzerNames(snap1: Snapshot, snap2: Snapshot): seq<string> {
    Union(Keys(snap1.results), Keys(snap2.results))
  }

  /** The `_metadata` entry, present when the file sizes differ. */
  function Metadata(snap1: Snapshot, snap2: Snapshot): Dict<Diff> {
    if snap1.fileSize != snap2.fileSize then [("_metadata", MetadataDiff(snap1.fileSize, snap2.fileSize))] else []
  }

  /** The `diffs` dict `compare` builds. */
  function Diffs(snap1: Snapshot, snap2: Snapshot): Dict<Diff> {
    var names := AnalyzerNames(snap1, snap2);
    Gather(names, |names|, AnalyzerDiffOf(snap1, snap2), Metadata(snap1, snap2))
  }

  /** An analyzer only one snapshot ran is reported as added or removed; one
      both ran is reported only when its data differ in a way its analyzer
      looks at; no other name appears, and `_metadata` reports the sizes. */
  lemma DiffsGet(snap1: Snapshot, snap2: Snapshot, name: string)
    ensures var r1, r2 := Get(snap1.results, name), Get(snap2.results, name);
      && (r1.None? && r2.Some? ==> Get(Diffs(snap1, snap2), name) == Some(StatusDiff("added")))
      && (r1.Some? && r2.None? ==> Get(Diffs(snap1, snap2), name) == Some(StatusDiff("removed")))
      && (r1.Some? && r2.Some? && SameData(r1.value.data, r2.value.data) && name != "_metadata" ==>
            Get(Diffs(snap1, snap2), name).None?)
      && (r1.Some? && r2.Some? && !SameData(r1.value.data, r2.value.data) && name != "_metadata" ==>
            Get(Diffs(snap1, snap2), name) == DiffData(name, r1.value.data, r2.value.data))
      && (r1.None? && r2.None? && name != "_metadata" ==> Get(Diffs(snap1, snap2), name).None?)
    ensures var r1, r2 := Get(snap1.results, "_metadata"), Get(snap2.results, "_metadata");
      r1.None? && r2.None? && name == "_metadata" ==>
        Get(Diffs(snap1, snap2), name)
        == if snap1.fileSize != snap2.fileSize then Some(MetadataDiff(snap1.fileSize, snap2.fileSize)) else None
  {
    var names := AnalyzerNames(snap1, snap2);
    UnionMeaning(Keys(snap1.results), Keys(snap2.results));
    assert names[..|names|] == names;
    GatherGet(names, |names|, AnalyzerDiffOf(snap1, snap2), Metadata(snap1, snap2), name);
    GetFound(snap1.results, name);
    GetFound(snap2.results, name);
    assert AnalyzerDiffOf(snap1, snap2)(name) == AnalyzerDiff(name, Get(snap1.results, name), Get(snap2.results, name));
  }

  /** Two captures of one file with the same results and the same size find
      no differences, whatever their path, capture time, mtime, file type or
      name: `compare` looks at none of those. */
  lemma CompareRecaptured(s: Snapshot, t: Snapshot)
    requires s.results == t.results && s.fileSize == t.fileSize
    ensures Diffs(s, t) == []
  {
    var names := AnalyzerNames(s, t);
    UnionMeaning(Keys(s.results), Keys(t.results));
    forall i | 0 <= i < |names| ensures AnalyzerDiffOf(s, t)(names[i]).None? {
      assert HasKey(s.results, names[i]);
      GetFound(s.results, names[i]);
    }
    GatherNothing(names, |names|, AnalyzerDiffOf(s, t), Metadata(s, t));
  }

  /** Comparing a snapshot with itself finds no differences. */
  lemma CompareSelf(s: Snapshot)
    ensures Diffs(s, s) == []
  {
    CompareRecaptured(s, s);
  }

  // ---------------------------------------------------------------------
  // `_build_summary`
  // ---------------------------------------------------------------------

  /** `len(change)`: the number of keys of a section-change dict. */
  function ChangeSize(c: SectionChange): nat {
    if c.Modified? then 3 else 2
  }

  /** The summary part of one `diffs` entry.  `changeRepr` stands for Python's
      `str` of a section-change dict, which the part of a `dump-h` diff shows
      when one of its sections is named "status". */
  function Part(name: string, diff: Diff, changeRepr: SectionChange -> string): (r: string)
    ensures name == "_metadata" ==> r == "file size changed"
    ensures name != "_metadata" ==> |r| > |name| + 1 && r[..|name|] == name && r[|name|] == ':'
  {
    if name == "_metadata" then "file size changed"
    else
      var detail :=
        match diff
        case WhatDiff(added, removed, _) => "+" + IntToString(|added|) + " -" + IntToString(|removed|)
        case StatusDiff(status) => status
        case SectionsDiff(changes) =>
          var added, removed, status := Get(changes, "added"), Get(changes, "removed"), Get(changes, "status");
          if added.Some? && removed.Some? then
            "+" + IntToString(ChangeSize(added.value)) + " -" + IntToString(ChangeSize(removed.value))
          else if status.Some? then changeRepr(status.value)
          else "changed"
        case _ => "changed";
      name + ": " + detail
  }

  /** The parts of the first `n` entries of `diffs`, one per entry, in order. */
  function SummaryParts(diffs: Dict<Diff>, n: nat, changeRepr: SectionChange -> string): (r: seq<string>)
    requires n <= |diffs|
    ensures |r| == n
    ensures forall i :: 0 <= i < n ==> r[i] == Part(diffs[i].0, diffs[i].1, changeRepr)
  {
    if n == 0 then [] else SummaryParts(diffs, n - 1, changeRepr) + [Part(diffs[n - 1].0, diffs[n - 1].1, changeRepr)]
  }

  function Summary(diffs: Dict<Diff>, changeRepr: SectionChange -> string): string {
    if diffs == [] then "No differences"
    else
      var parts := SummaryParts(diffs, |diffs|, changeRepr);
      if parts == [] then "differences found" else Join(parts, "; ")
  }

  /** Joined parts whose first part names an analyzer (so holds ':') or reads
      "file size changed" never read "No differences". */
  lemma JoinedPartsDiffer(parts: seq<string>)
    requires parts != []
    requires parts[0] == "file size changed" || ':' in parts[0]
    ensures Join(parts, "; ") != "No differences"
  {
    var s, p := Join(parts, "; "), parts[0];
    assert ':' !in "No differences" && ';' !in "No differences";
    if |parts| >= 2 {
      assert s == p + "; " + Join(parts[1..], "; ");
      assert s[|p|] == ';';
    }
  }

  /** The summary reads "No differences" exactly when nothing was recorded:
      any entry contributes a part, and a part either names its analyzer
      followed by ':' or reads "file size changed". */
  lemma SummaryNoDifferences(diffs: Dict<Diff>, changeRepr: SectionChange -> string)
    ensures Summary(diffs, changeRepr) == "No differences" <==> diffs == []
  {
    if diffs != [] {
      var parts := SummaryParts(diffs, |diffs|, changeRepr);
      var (name, diff) := diffs[0];
      var p := Part(name, diff, changeRepr);
      assert parts[0] == p;
      if name != "_metadata" {
        assert p[|name|] == ':';
      }
      JoinedPartsDiffer(parts);
    }
  }

  /** `_build_summary`: one part per entry, joined with "; ". */
  method BuildSummary(diffs: Dict<Diff>, changeRepr: SectionChange -> string) returns (summary: string)
    ensures summary == Summary(diffs, changeRepr)
  {
    if diffs == [] {
      return "No differences";
    }
    var parts: seq<string> := [];
    for i := 0 to |diffs|
      invariant parts == SummaryParts(diffs, i, changeRepr)
    {
      var (name, diff) := diffs[i];
      parts := parts + [Part(name, diff, changeRepr)];
    }
    summary := if parts == [] then "differences found" else Join(parts, "; ");
  }

  /** The loop of `compare` over the analyzer names, after the `_metadata`
      check: `diffOf(name)` is what the branches of the loop body record for
      that name (`AnalyzerDiff`), and any record raises the flag. */
  method CollectDiffs(names: seq<string>, diffOf: string -> Option<Diff>, base: Dict<Diff>)
    returns (diffs: Dict<Diff>, hasDifferences: bool)
    ensures diffs == Gather(names, |names|, diffOf, base)
    ensures hasDifferences <==> diffs != []
  {
    diffs, hasDifferences := base, base != [];
    for i := 0 to |names|
      invariant diffs == Gather(names, i, diffOf, base)
      invariant hasDifferences <==> diffs != []
    {
      GatherStep(names, i, diffOf, base);
      var entry := diffOf(names[i]);
      if entry.Some? {
        PutNonEmpty(diffs, names[i], entry.value);
        diffs := Put(diffs, names[i], entry.value);
        hasDifferences := true;
      }
    }
  }

  /** `ComparisonEngine.compare` */
  method Compare(snap1: Snapshot, snap2: Snapshot, changeRepr: SectionChange -> string) returns (c: ComparisonResult)
    ensures c.filepath1 == snap1.filepath && c.filepath2 == snap2.filepath
    ensures c.diffs == Diffs(snap1, snap2)
    ensures c.hasDifferences <==> c.diffs != []
    ensures c.summary == Summary(c.diffs, changeRepr)
  {
    var metadata: Dict<Diff> := [];
    if snap1.fileSize != snap2.fileSize {
      metadata := [("_metadata", MetadataDiff(snap1.fileSize, snap2.fileSize))];
    }
    var diffs, hasDifferences := CollectDiffs(AnalyzerNames(snap1, snap2), AnalyzerDiffOf(snap1, snap2), metadata);
    var summary := BuildSummary(diffs, changeRepr);
    c := ComparisonResult(snap1.filepath, snap2.filepath, hasDifferences, summary, diffs);
  }

  /** The flag and the summary agree: differences are reported exactly when
      the summary is not "No differences". */
  lemma CompareFlagAndSummary(c: ComparisonResult, changeRepr: SectionChange -> string)
    requires c.hasDifferences <==> c.diffs != []
    requires c.summary == Summary(c.diffs, changeRepr)
    ensures c.hasDifferences <==> c.summary != "No differences"
  {
    SummaryNoDifferences(c.diffs, changeRepr);
  }
}
