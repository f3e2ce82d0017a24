/**
 * `XCOFFCompare` of tools/xcoff_snapshot.py: the differences between two
 * snapshots of the older tool, part by part, with an overall changed flag.
 *
 * Python sets are iterated in an order the language leaves open; where the
 * comparator loops over a set of common names this model visits them in
 * ascending string order.
 */
module LegacyCompare {
  import opened Text
  import opened Collections
  import C = Comparison
  import opened LegacySnapshot

  // ---------------------------------------------------------------------
  // Sets of names
  // ---------------------------------------------------------------------

  /** `sorted(set(a) & set(b))`: the elements of `a` that `a - b` leaves out. */
  function Common(a: seq<string>, b: seq<string>): seq<string> {
    C.Difference(a, C.Difference(a, b))
  }

  lemma CommonMeaning(a: seq<string>, b: seq<string>)
    ensures forall x :: x in Common(a, b) <==> x in a && x in b
    ensures StrictlySorted(Common(a, b))
    ensures |Common(a, b)| == |Elements(a) * Elements(b)|
  {
    C.DifferenceMeaning(a, b);
    C.DifferenceMeaning(a, C.Difference(a, b));
    assert Elements(C.Difference(a, b)) == Elements(a) - Elements(b);
    assert Elements(a) - Elements(C.Difference(a, b)) == Elements(a) * Elements(b);
  }

  /** The entries `f` yields for `names[0]`, `names[1]`, ... in turn. */
  function Gathered<T>(names: seq<string>, f: string -> seq<T>): seq<T> {
    if names == [] then [] else Gathered(names[..|names| - 1], f) + f(names[|names| - 1])
  }

  ghost predicate YieldedBySome<T>(names: seq<string>, f: string -> seq<T>, x: T) {
    exists name :: name in names && x in f(name)
  }

  lemma {:induction false} GatheredMeaning<T>(names: seq<string>, f: string -> seq<T>, x: T)
    ensures x in Gathered(names, f) <==> YieldedBySome(names, f, x)
  {
    if names != [] {
      var init := names[..|names| - 1];
      GatheredMeaning(init, f, x);
      assert names == init + [names[|names| - 1]];
      if YieldedBySome(names, f, x) {
        var name :| name in names && x in f(name);
        if name != names[|names| - 1] {
          assert name in init;
        }
      }
    }
  }

  // ---------------------------------------------------------------------
  // compare_what_strings
  // ---------------------------------------------------------------------

  datatype WhatComparison = WhatComparison(
    onlyInFirst: seq<string>, onlyInSecond: seq<string>, common: seq<string>, changed: bool)

  function CompareWhatStrings(w1: seq<string>, w2: seq<string>): WhatComparison {
    WhatComparison(
      C.Difference(w1, w2), C.Difference(w2, w1), Common(w1, w2),
      |Elements(w1)| != |Elements(w2)| || Elements(w1) != Elements(w2))
  }

  /** The three lists split the strings of both snapshots without overlap, and
      the changed flag is exactly "some string is in only one snapshot" (its
      size test adds nothing). */
  lemma CompareWhatStringsMeaning(w1: seq<string>, w2: seq<string>)
    ensures var r := CompareWhatStrings(w1, w2);
      && StrictlySorted(r.onlyInFirst) && StrictlySorted(r.onlyInSecond) && StrictlySorted(r.common)
      && (forall x :: x in r.onlyInFirst <==> x in w1 && x !in w2)
      && (forall x :: x in r.onlyInSecond <==> x in w2 && x !in w1)
      && (forall x :: x in r.common <==> x in w1 && x in w2)
      && (r.changed <==> Elements(w1) != Elements(w2))
      && (r.changed <==> r.onlyInFirst != [] || r.onlyInSecond != [])
  {
    C.DifferenceMeaning(w1, w2);
    C.DifferenceMeaning(w2, w1);
    CommonMeaning(w1, w2);
    C.DifferenceEmpty(w1, w2);
    C.DifferenceEmpty(w2, w1);
  }

  // ---------------------------------------------------------------------
  // compare_sections
  // ---------------------------------------------------------------------

  /** A compared value: a string, `size_decimal`, or a missing key's None. */
  datatype FieldValue = Str(s: string) | Num(n: int) | Null

  /** `changes[key] = {"old": v1, "new": v2}` */
  datatype FieldChange = FieldChange(key: string, previous: FieldValue, current: FieldValue)

  /** `{"name": name, "changes": changes}` */
  datatype ModifiedSection = ModifiedSection(name: string, changes: seq<FieldChange>)

  datatype SectionsComparison = SectionsComparison(
    added: seq<string>, removed: seq<string>, modified: seq<ModifiedSection>, changed: bool)

  function OptValue(o: Option<string>): FieldValue {
    if o.Some? then Str(o.value) else Null
  }

  /** The five keys the comparator looks at agree. */
  predicate SameFields(a: Section, b: Section) {
    && a.size == b.size && a.sizeDecimal == b.sizeDecimal && a.virtualAddr == b.virtualAddr
    && a.physicalAddr == b.physicalAddr && a.flags == b.flags
  }

  function Change(key: string, v1: FieldValue, v2: FieldValue): seq<FieldChange> {
    if v1 != v2 then [FieldChange(key, v1, v2)] else []
  }

  /** The changes of `size`, `size_decimal`, `virtual_addr`, `physical_addr`
      and `flags`, in that order. */
  function FieldChanges(a: Section, b: Section): (r: seq<FieldChange>)
    ensures r == [] <==> SameFields(a, b)
    ensures forall c :: c in r ==> c.previous != c.current
    ensures |r| <= 5
  {
    Change("size", Str(a.size), Str(b.size))
    + Change("size_decimal", Num(a.sizeDecimal), Num(b.sizeDecimal))
    + Change("virtual_addr", OptValue(a.virtualAddr), OptValue(b.virtualAddr))
    + Change("physical_addr", OptValue(a.physicalAddr), OptValue(b.physicalAddr))
    + Change("flags", OptValue(a.flags), OptValue(b.flags))
  }

  /** `{s["name"]: s for s in sections}[name]`: the last section of that name. */
  function NamedSection(sections: seq<Section>, name: string): (r: Option<Section>)
    ensures r.Some? ==> r.value in sections && r.value.name == name
  {
    if sections == [] then None
    else if sections[|sections| - 1].name == name then Some(sections[|sections| - 1])
    else NamedSection(sections[..|sections| - 1], name)
  }

  function SectionNames(sections: seq<Section>): (r: seq<string>)
    ensures |r| == |sections|
  {
    seq(|sections|, i requires 0 <= i < |sections| => sections[i].name)
  }

  lemma {:induction false} SectionNamesMeaning(sections: seq<Section>, name: string)
    ensures name in SectionNames(sections) <==> NamedSection(sections, name).Some?
  {
    if sections != [] {
      var init := sections[..|sections| - 1];
      SectionNamesMeaning(init, name);
      assert SectionNames(sections) == SectionNames(init) + [sections[|sections| - 1].name];
    }
  }

  /** Both snapshots have a section of this name and its compared keys differ. */
  predicate SectionChanged(s1: seq<Section>, s2: seq<Section>, name: string) {
    && NamedSection(s1, name).Some? && NamedSection(s2, name).Some?
    && !SameFields(NamedSection(s1, name).value, NamedSection(s2, name).value)
  }

  /** The one `modified` entry of `name`, if the sections of that name differ. */
  function SectionModification(s1: seq<Section>, s2: seq<Section>, name: string): (r: seq<ModifiedSection>)
    ensures r != [] <==> SectionChanged(s1, s2, name)
    ensures forall m :: m in r ==>
      m.name == name && m.changes == FieldChanges(NamedSection(s1, name).value, NamedSection(s2, name).value)
  {
    match (NamedSection(s1, name), NamedSection(s2, name))
    case (Some(a), Some(b)) =>
      if FieldChanges(a, b) == [] then [] else [ModifiedSection(name, FieldChanges(a, b))]
    case _ => []
  }

  ghost predicate Listed(ms: seq<ModifiedSection>, name: string) {
    exists m :: m in ms && m.name == name
  }

  function CompareSectionsOf(s1: seq<Section>, s2: seq<Section>): SectionsComparison {
    var n1, n2 := SectionNames(s1), SectionNames(s2);
    var added, removed := C.Difference(n2, n1), C.Difference(n1, n2);
    var modified := Gathered(Common(n1, n2), name => SectionModification(s1, s2, name));
    SectionsComparison(added, removed, modified, added != [] || removed != [] || modified != [])
  }

  /** A name is modified exactly when both snapshots have it and one of the
      five keys differs; every entry lists the keys that differ. */
  lemma ModifiedSectionsMeaning(s1: seq<Section>, s2: seq<Section>, name: string)
    ensures var r := CompareSectionsOf(s1, s2);
      && (Listed(r.modified, name) <==> SectionChanged(s1, s2, name))
      && (forall m :: m in r.modified && m.name == name ==>
            m.changes == FieldChanges(NamedSection(s1, name).value, NamedSection(s2, name).value))
  {
    var n1, n2 := SectionNames(s1), SectionNames(s2);
    var f := n => SectionModification(s1, s2, n);
    var modified := Gathered(Common(n1, n2), f);
    CommonMeaning(n1, n2);
    SectionNamesMeaning(s1, name);
    SectionNamesMeaning(s2, name);
    forall m | m in modified && m.name == name
      ensures SectionChanged(s1, s2, name)
      ensures m.changes == FieldChanges(NamedSection(s1, name).value, NamedSection(s2, name).value)
    {
      GatheredMeaning(Common(n1, n2), f, m);
      var other :| other in Common(n1, n2) && m in f(other);
      assert other == name;
    }
    if SectionChanged(s1, s2, name) {
      var m := f(name)[0];
      GatheredMeaning(Common(n1, n2), f, m);
      assert m in modified && m.name == name;
    }
  }

  /** Some name is in one snapshot only, or in both with different keys. */
  ghost predicate SectionsDiffer(s1: seq<Section>, s2: seq<Section>) {
    exists name ::
      (NamedSection(s1, name).Some? != NamedSection(s2, name).Some?) || SectionChanged(s1, s2, name)
  }

  /** `added` and `removed` list, in ascending order, the names only one snapshot has. */
  lemma SectionsAddedRemoved(s1: seq<Section>, s2: seq<Section>)
    ensures var r := CompareSectionsOf(s1, s2);
      && StrictlySorted(r.added) && StrictlySorted(r.removed)
      && (forall x :: x in r.added <==> NamedSection(s2, x).Some? && NamedSection(s1, x).None?)
      && (forall x :: x in r.removed <==> NamedSection(s1, x).Some? && NamedSection(s2, x).None?)
  {
    var n1, n2 := SectionNames(s1), SectionNames(s2);
    C.DifferenceMeaning(n1, n2);
    C.DifferenceMeaning(n2, n1);
    forall x ensures (x in n1 <==> NamedSection(s1, x).Some?) && (x in n2 <==> NamedSection(s2, x).Some?) {
      SectionNamesMeaning(s1, x);
      SectionNamesMeaning(s2, x);
    }
  }

  /** The changed flag says exactly that some name is in one snapshot only or
      has changed between them. */
  lemma CompareSectionsMeaning(s1: seq<Section>, s2: seq<Section>)
    ensures CompareSectionsOf(s1, s2).changed <==> SectionsDiffer(s1, s2)
  {
    var r := CompareSectionsOf(s1, s2);
    SectionsAddedRemoved(s1, s2);
    if r.changed {
      if r.added != [] {
        assert NamedSection(s2, r.added[0]).Some? != NamedSection(s1, r.added[0]).Some?;
      } else if r.removed != [] {
        assert NamedSection(s1, r.removed[0]).Some? != NamedSection(s2, r.removed[0]).Some?;
      } else {
        var m := r.modified[0];
        assert Listed(r.modified, m.name);
        ModifiedSectionsMeaning(s1, s2, m.name);
      }
    }
    if SectionsDiffer(s1, s2) {
      var name :| (NamedSection(s1, name).Some? != NamedSection(s2, name).Some?) || SectionChanged(s1, s2, name);
      if !SectionChanged(s1, s2, name) {
        assert name in r.added || name in r.removed;
      } else {
        ModifiedSectionsMeaning(s1, s2, name);
      }
    }
  }

  // ---------------------------------------------------------------------
  // compare_symbols
  // ---------------------------------------------------------------------

  /** The name `get_symbol_names` takes from one symbol: the matched name, or
      the last part of a fallback entry. */
  function SymbolName(s: LoaderSymbol): seq<string> {
    match s
    case Matched(_, _, _, _, _, _, _, name) => [name]
    case Unmatched(_, parts) => if parts != [] then [parts[|parts| - 1]] else []
  }

  function SymbolNames(symbols: seq<LoaderSymbol>): seq<string> {
    if symbols == [] then [] else SymbolNames(symbols[..|symbols| - 1]) + SymbolName(symbols[|symbols| - 1])
  }

  /** The loop of `get_symbol_names`. */
  method CollectSymbolNames(symbols: seq<LoaderSymbol>) returns (names: seq<string>)
    ensures names == SymbolNames(symbols)
  {
    names := [];
    for i := 0 to |symbols|
      invariant names == SymbolNames(symbols[..i])
    {
      assert symbols[..i + 1][..i] == symbols[..i];
      var s := symbols[i];
      match s {
        case Matched(_, _, _, _, _, _, _, name) =>
          names := names + [name];
        case Unmatched(_, parts) =>
          if |parts| > 0 {
            names := names + [parts[|parts| - 1]];
          }
      }
    }
    assert symbols[..|symbols|] == symbols;
  }

  /** Every symbol contributes its name: a matched one always, a fallback one
      unless it has no parts. */
  lemma {:induction false} SymbolNamesMeaning(symbols: seq<LoaderSymbol>, x: string)
    ensures x in SymbolNames(symbols) <==> exists s :: s in symbols && x in SymbolName(s)
  {
    if symbols != [] {
      var init := symbols[..|symbols| - 1];
      SymbolNamesMeaning(init, x);
      assert symbols == init + [symbols[|symbols| - 1]];
      if exists s :: s in symbols && x in SymbolName(s) {
        var s :| s in symbols && x in SymbolName(s);
        if s != symbols[|symbols| - 1] {
          assert s in init;
        }
      }
    }
  }

  datatype SymbolsComparison = SymbolsComparison(
    added: seq<string>, removed: seq<string>, commonCount: nat, changed: bool)

  function CompareSymbolsOf(sym1: seq<LoaderSymbol>, sym2: seq<LoaderSymbol>): SymbolsComparison {
    var n1, n2 := SymbolNames(sym1), SymbolNames(sym2);
    SymbolsComparison(
      C.Difference(n2, n1), C.Difference(n1, n2),
      |Elements(n1) * Elements(n2)|, Elements(n1) != Elements(n2))
  }

  /** The changed flag is set exactly when something was added or removed,
      and the common count is the number of names in both. */
  lemma CompareSymbolsMeaning(sym1: seq<LoaderSymbol>, sym2: seq<LoaderSymbol>)
    ensures var r := CompareSymbolsOf(sym1, sym2);
      var n1, n2 := SymbolNames(sym1), SymbolNames(sym2);
      && (forall x :: x in r.added <==> x in n2 && x !in n1)
      && (forall x :: x in r.removed <==> x in n1 && x !in n2)
      && r.commonCount == |Common(n1, n2)|
      && (r.changed <==> r.added != [] || r.removed != [])
  {
    var n1, n2 := SymbolNames(sym1), SymbolNames(sym2);
    C.DifferenceMeaning(n1, n2);
    C.DifferenceMeaning(n2, n1);
    C.DifferenceEmpty(n1, n2);
    C.DifferenceEmpty(n2, n1);
    CommonMeaning(n1, n2);
  }

  // ---------------------------------------------------------------------
  // compare_exports
  // ---------------------------------------------------------------------

  /** `{"name", "old_value", "new_value"}` */
  datatype ExportChange = ExportChange(name: string, oldValue: string, newValue: string)

  datatype ExportsComparison = ExportsComparison(
    added: seq<string>, removed: seq<string>, modified: seq<ExportChange>, changed: bool)

  /** `{e["name"]: e for e in exports}[name]`: the last export of that name. */
  function NamedExport(exports: seq<ExportEntry>, name: string): (r: Option<ExportEntry>)
    ensures r.Some? ==> r.value in exports && r.value.name == name
  {
    if exports == [] then None
    else if exports[|exports| - 1].name == name then Some(exports[|exports| - 1])
    else NamedExport(exports[..|exports| - 1], name)
  }

  function ExportNames(exports: seq<ExportEntry>): (r: seq<string>)
    ensures |r| == |exports|
  {
    seq(|exports|, i requires 0 <= i < |exports| => exports[i].name)
  }

  lemma {:induction false} ExportNamesMeaning(exports: seq<ExportEntry>, name: string)
    ensures name in ExportNames(exports) <==> NamedExport(exports, name).Some?
  {
    if exports != [] {
      var init := exports[..|exports| - 1];
      ExportNamesMeaning(init, name);
      assert ExportNames(exports) == ExportNames(init) + [exports[|exports| - 1].name];
    }
  }

  /** Both snapshots export the name, with different values. */
  predicate ValueChanged(e1: seq<ExportEntry>, e2: seq<ExportEntry>, name: string) {
    && NamedExport(e1, name).Some? && NamedExport(e2, name).Some?
    && NamedExport(e1, name).value.value != NamedExport(e2, name).value.value
  }

  /** The one `modified` entry of `name`, if its values differ. */
  function ExportModification(e1: seq<ExportEntry>, e2: seq<ExportEntry>, name: string): (r: seq<ExportChange>)
    ensures r != [] <==> ValueChanged(e1, e2, name)
    ensures |r| <= 1
    ensures forall c :: c in r ==>
      && ValueChanged(e1, e2, name) && c.name == name
      && c.oldValue == NamedExport(e1, name).value.value && c.newValue == NamedExport(e2, name).value.value
  {
    match (NamedExport(e1, name), NamedExport(e2, name))
    case (Some(a), Some(b)) => if a.value != b.value then [ExportChange(name, a.value, b.value)] else []
    case _ => []
  }

  function CompareExportsOf(e1: seq<ExportEntry>, e2: seq<ExportEntry>): ExportsComparison {
    var n1, n2 := ExportNames(e1), ExportNames(e2);
    var added, removed := C.Difference(n2, n1), C.Difference(n1, n2);
    var modified := Gathered(Common(n1, n2), name => ExportModification(e1, e2, name));
    ExportsComparison(added, removed, modified, added != [] || removed != [] || modified != [])
  }

  /** An export is listed as modified, with its old and new value, exactly
      when both snapshots export it with different values. */
  lemma ModifiedExportsMeaning(e1: seq<ExportEntry>, e2: seq<ExportEntry>, c: ExportChange)
    ensures c in CompareExportsOf(e1, e2).modified <==>
      && ValueChanged(e1, e2, c.name)
      && c.oldValue == NamedExport(e1, c.name).value.value
      && c.newValue == NamedExport(e2, c.name).value.value
  {
    var n1, n2 := ExportNames(e1), ExportNames(e2);
    var f := n => ExportModification(e1, e2, n);
    CommonMeaning(n1, n2);
    ExportNamesMeaning(e1, c.name);
    ExportNamesMeaning(e2, c.name);
    GatheredMeaning(Common(n1, n2), f, c);
    if c in CompareExportsOf(e1, e2).modified {
      var other :| other in Common(n1, n2) && c in f(other);
      assert other == c.name;
    }
  }

  /** Some name is exported by one snapshot only, or by both with different values. */
  ghost predicate ExportsDiffer(e1: seq<ExportEntry>, e2: seq<ExportEntry>) {
    exists name ::
      (NamedExport(e1, name).Some? != NamedExport(e2, name).Some?) || ValueChanged(e1, e2, name)
  }

  /** `added` and `removed` list, in ascending order, the names only one snapshot has. */
  lemma ExportsAddedRemoved(e1: seq<ExportEntry>, e2: seq<ExportEntry>)
    ensures var r := CompareExportsOf(e1, e2);
      && StrictlySorted(r.added) && StrictlySorted(r.removed)
      && (forall x :: x in r.added <==> NamedExport(e2, x).Some? && NamedExport(e1, x).None?)
      && (forall x :: x in r.removed <==> NamedExport(e1, x).Some? && NamedExport(e2, x).None?)
  {
    var n1, n2 := ExportNames(e1), ExportNames(e2);
    C.DifferenceMeaning(n1, n2);
    C.DifferenceMeaning(n2, n1);
    forall x ensures (x in n1 <==> NamedExport(e1, x).Some?) && (x in n2 <==> NamedExport(e2, x).Some?) {
      ExportNamesMeaning(e1, x);
      ExportNamesMeaning(e2, x);
    }
  }

  /** The changed flag says exactly that some name is in one snapshot only or
      has changed between them. */
  lemma CompareExportsMeaning(e1: seq<ExportEntry>, e2: seq<ExportEntry>)
    ensures CompareExportsOf(e1, e2).changed <==> ExportsDiffer(e1, e2)
  {
    var r := CompareExportsOf(e1, e2);
    ExportsAddedRemoved(e1, e2);
    if r.changed {
      if r.added != [] {
        assert NamedExport(e2, r.added[0]).Some? != NamedExport(e1, r.added[0]).Some?;
      } else if r.removed != [] {
        assert NamedExport(e1, r.removed[0]).Some? != NamedExport(e2, r.removed[0]).Some?;
      } else {
        ModifiedExportsMeaning(e1, e2, r.modified[0]);
      }
    }
    if ExportsDiffer(e1, e2) {
      var name :| (NamedExport(e1, name).Some? != NamedExport(e2, name).Some?) || ValueChanged(e1, e2, name);
      if !ValueChanged(e1, e2, name) {
        assert name in r.added || name in r.removed;
      } else {
        var c := ExportChange(name, NamedExport(e1, name).value.value, NamedExport(e2, name).value.value);
        ModifiedExportsMeaning(e1, e2, c);
      }
    }
  }

  // ---------------------------------------------------------------------
  // compare_all
  // ---------------------------------------------------------------------

  datatype Differences = Differences(
    first: string, second: string,
    what: WhatComparison, sections: SectionsComparison, symbols: SymbolsComparison, exports: ExportsComparison,
    firstSummary: Summary, secondSummary: Summary, changed: bool)

  function CompareAllOf(name1: string, d1: SnapshotData, name2: string, d2: SnapshotData): Differences {
    var what := CompareWhatStrings(d1.whatStrings, d2.whatStrings);
    var sections := CompareSectionsOf(d1.sections, d2.sections);
    var symbols := CompareSymbolsOf(d1.loaderSymbols, d2.loaderSymbols);
    var exports := CompareExportsOf(d1.exports, d2.exports);
    Differences(name1, name2, what, sections, symbols, exports, SummaryOf(d1), SummaryOf(d2),
      what.changed || sections.changed || symbols.changed || exports.changed)
  }

  /** The overall flag says that the what strings, the section names or keys,
      the symbol names, or the export names or values differ; imports,
      errors and section keys other than the five compared never set it. */
  lemma CompareAllMeaning(name1: string, d1: SnapshotData, name2: string, d2: SnapshotData)
    ensures CompareAllOf(name1, d1, name2, d2).changed <==>
      || Elements(d1.whatStrings) != Elements(d2.whatStrings)
      || SectionsDiffer(d1.sections, d2.sections)
      || Elements(SymbolNames(d1.loaderSymbols)) != Elements(SymbolNames(d2.loaderSymbols))
      || ExportsDiffer(d1.exports, d2.exports)
  {
    CompareWhatStringsMeaning(d1.whatStrings, d2.whatStrings);
    CompareSectionsMeaning(d1.sections, d2.sections);
    CompareExportsMeaning(d1.exports, d2.exports);
  }

  /** A snapshot compared with itself shows no change and lists nothing. */
  lemma CompareSelf(name1: string, name2: string, d: SnapshotData)
    ensures var r := CompareAllOf(name1, d, name2, d);
      && !r.changed && r.what.onlyInFirst == [] && r.what.onlyInSecond == []
      && r.sections.added == [] && r.sections.removed == [] && r.sections.modified == []
      && r.symbols.added == [] && r.symbols.removed == []
      && r.exports.added == [] && r.exports.removed == [] && r.exports.modified == []
  {
    CompareAllMeaning(name1, d, name2, d);
    CompareWhatStringsMeaning(d.whatStrings, d.whatStrings);
    CompareSymbolsMeaning(d.loaderSymbols, d.loaderSymbols);
    CompareSectionsMeaning(d.sections, d.sections);
    CompareExportsMeaning(d.exports, d.exports);
  }

  /** One pass of the `compare_sections` loop: the entry for a common name
      whose section changed. */
  method SectionStep(s1: seq<Section>, s2: seq<Section>, name: string) returns (m: seq<ModifiedSection>)
    ensures m == SectionModification(s1, s2, name)
  {
    m := [];
    var a, b := NamedSection(s1, name), NamedSection(s2, name);
    if a.Some? && b.Some? {
      var changes := FieldChanges(a.value, b.value);
      if changes != [] {
        m := [ModifiedSection(name, changes)];
      }
    }
  }

  /** One pass of the `compare_exports` loop: the entry for a common name
      whose value changed. */
  method ExportStep(e1: seq<ExportEntry>, e2: seq<ExportEntry>, name: string) returns (m: seq<ExportChange>)
    ensures m == ExportModification(e1, e2, name)
  {
    m := [];
    var a, b := NamedExport(e1, name), NamedExport(e2, name);
    if a.Some? && b.Some? && a.value.value != b.value.value {
      m := [ExportChange(name, a.value.value, b.value.value)];
    }
  }

  /** The loop of `compare_sections` over the common names. */
  method ModifiedSections(s1: seq<Section>, s2: seq<Section>, common: seq<string>) returns (modified: seq<ModifiedSection>)
    ensures modified == Gathered(common, name => SectionModification(s1, s2, name))
  {
    ghost var f := name => SectionModification(s1, s2, name);
    modified := [];
    for i := 0 to |common|
      invariant modified == Gathered(common[..i], f)
    {
      assert common[..i + 1][..i] == common[..i];
      var m := SectionStep(s1, s2, common[i]);
      modified := modified + m;
    }
    assert common[..|common|] == common;
  }

  /** The loop of `compare_exports` over the common names. */
  method ModifiedExports(e1: seq<ExportEntry>, e2: seq<ExportEntry>, common: seq<string>) returns (modified: seq<ExportChange>)
    ensures modified == Gathered(common, name => ExportModification(e1, e2, name))
  {
    ghost var f := name => ExportModification(e1, e2, name);
    modified := [];
    for i := 0 to |common|
      invariant modified == Gathered(common[..i], f)
    {
      assert common[..i + 1][..i] == common[..i];
      var m := ExportStep(e1, e2, common[i]);
      modified := modified + m;
    }
    assert common[..|common|] == common;
  }

  /** `XCOFFCompare`: two snapshots and the last full comparison (`{}` until
      `compare_all` runs). */
  class XCOFFCompare {
    var snap1: XCOFFSnapshot
    var snap2: XCOFFSnapshot
    var differences: Option<Differences>

    constructor (snap1: XCOFFSnapshot, snap2: XCOFFSnapshot)
      ensures this.snap1 == snap1 && this.snap2 == snap2 && differences == None
    {
      this.snap1 := snap1;
      this.snap2 := snap2;
      differences := None;
    }

    /** `compare_sections`: the loop over the common names collects the modified ones. */
    method CompareSections() returns (r: SectionsComparison)
      ensures r == CompareSectionsOf(snap1.sections, snap2.sections)
    {
      var s1, s2 := snap1.sections, snap2.sections;
      var n1, n2 := SectionNames(s1), SectionNames(s2);
      var added, removed := C.Difference(n2, n1), C.Difference(n1, n2);
      var modified := ModifiedSections(s1, s2, Common(n1, n2));
      r := SectionsComparison(added, removed, modified, added != [] || removed != [] || modified != []);
    }

    /** `compare_symbols` */
    method CompareSymbols() returns (r: SymbolsComparison)
      ensures r == CompareSymbolsOf(snap1.loaderSymbols, snap2.loaderSymbols)
    {
      var n1 := CollectSymbolNames(snap1.loaderSymbols);
      var n2 := CollectSymbolNames(snap2.loaderSymbols);
      r := SymbolsComparison(
        C.Difference(n2, n1), C.Difference(n1, n2),
        |Elements(n1) * Elements(n2)|, Elements(n1) != Elements(n2));
    }

    /** `compare_exports`: the loop over the common names collects the changed values. */
    method CompareExports() returns (r: ExportsComparison)
      ensures r == CompareExportsOf(snap1.exports, snap2.exports)
    {
      var e1, e2 := snap1.exports, snap2.exports;
      var n1, n2 := ExportNames(e1), ExportNames(e2);
      var added, removed := C.Difference(n2, n1), C.Difference(n1, n2);
      var modified := ModifiedExports(e1, e2, Common(n1, n2));
      r := ExportsComparison(added, removed, modified, added != [] || removed != [] || modified != []);
    }

    /** `compare_all`: stores and returns the full comparison. */
    method CompareAll() returns (d: Differences)
      modifies this
      ensures snap1 == old(snap1) && snap2 == old(snap2)
      ensures d == CompareAllOf(snap1.filename, snap1.Data(), snap2.filename, snap2.Data())
      ensures differences == Some(d)
    {
      var what := CompareWhatStrings(snap1.whatStrings, snap2.whatStrings);
      var sections := CompareSections();
      var symbols := CompareSymbols();
      var exports := CompareExports();
      d := Differences(snap1.filename, snap2.filename, what, sections, symbols, exports,
        snap1.SummaryDict(), snap2.SummaryDict(),
        what.changed || sections.changed || symbols.changed || exports.changed);
      differences := Some(d);
    }
  }
}
