/**
 * The command-line front end (tools/xcoff_tool/cli.py): where the database
 * lives, how analyzer lists are read, and which exit code each command
 * returns.  Whether a path exists, what a stored snapshot loads as and what
 * `SnapshotManager.capture` returns for a file are parameters; printing and
 * argument parsing are not part of this model.
 */
module Cli {
  import opened Text
  import opened Collections
  import opened Snapshots
  import opened Validator
  import opened Comparison
  import opened Output
  import Storage

  // ---------------------------------------------------------------------
  // `get_db_path`
  // ---------------------------------------------------------------------

  /** `Path(s)`: the empty path is the current directory. */
  function PathOf(s: string): string {
    if s == [] then "." else s
  }

  /** `get_db_path`: a non-empty --db-path wins, then XCOFF_DB_PATH whenever
      it is set (even to the empty string), then ~/.xcoffscandb. */
  function DbPath(dbPathArg: Option<string>, envDbPath: Option<string>, home: string): (r: string)
    ensures dbPathArg.Some? && dbPathArg.value != [] ==> r == dbPathArg.value
    ensures (dbPathArg.None? || dbPathArg.value == []) && envDbPath.Some? ==> r == PathOf(envDbPath.value)
    ensures (dbPathArg.None? || dbPathArg.value == []) && envDbPath.None? ==> r == home + "/.xcoffscandb"
    ensures r != []
  {
    if dbPathArg.Some? && dbPathArg.value != [] then dbPathArg.value
    else if envDbPath.Some? then PathOf(envDbPath.value)
    else home + "/.xcoffscandb"
  }

  // ---------------------------------------------------------------------
  // --analyzers / --exclude
  // ---------------------------------------------------------------------

  lemma {:induction false} LStripKeeps(s: string)
    ensures forall c :: c in LStrip(s) ==> c in s
  {
    if |s| > 0 && IsSpace(s[0]) {
      LStripKeeps(s[1..]);
    }
  }

  lemma {:induction false} RStripKeeps(s: string)
    ensures forall c :: c in RStrip(s) ==> c in s
  {
    if |s| > 0 && IsSpace(s[|s| - 1]) {
      RStripKeeps(s[..|s| - 1]);
    }
  }

  /** Stripping only removes characters. */
  lemma StripKeeps(s: string)
    ensures forall c :: c in Strip(s) ==> c in s
  {
    LStripKeeps(s);
    RStripKeeps(LStrip(s));
  }

  function StripAll(parts: seq<string>): (r: seq<string>)
    ensures |r| == |parts| && forall i :: 0 <= i < |parts| ==> r[i] == Strip(parts[i])
  {
    seq(|parts|, i requires 0 <= i < |parts| => Strip(parts[i]))
  }

  /** `[a.strip() for a in value.split(",")]` when the option is given and
      non-empty; `None` (meaning every analyzer) otherwise.  No name holds a
      comma or begins or ends with whitespace. */
  function NameList(option: Option<string>): (r: Option<seq<string>>)
    ensures r.Some? <==> option.Some? && option.value != []
    ensures r.Some? ==> |r.value| >= 1
    ensures r.Some? ==> forall i :: 0 <= i < |r.value| ==>
      ',' !in r.value[i] && (r.value[i] == [] || (!IsSpace(r.value[i][0]) && !IsSpace(r.value[i][|r.value[i]| - 1])))
  {
    if option.None? || option.value == [] then None
    else
      var parts := SplitOn(option.value, ',');
      assert forall i :: 0 <= i < |parts| ==> ',' !in Strip(parts[i]) by {
        forall i | 0 <= i < |parts| ensures ',' !in Strip(parts[i]) {
          StripKeeps(parts[i]);
        }
      }
      Some(StripAll(parts))
  }

  /** Names without commas or edge whitespace, written comma-separated, are
      read back as the same list. */
  lemma NameListOfJoin(names: seq<string>)
    requires |names| >= 1
    requires forall i :: 0 <= i < |names| ==>
      names[i] != [] && ',' !in names[i] && !IsSpace(names[i][0]) && !IsSpace(names[i][|names[i]| - 1])
    ensures NameList(Some(Join(names, ","))) == Some(names)
  {
    var text := Join(names, ",");
    Storage.JoinFirst(names, ",");
    assert text != [];
    SplitJoin(names, ',');
    assert SplitOn(text, ',') == names;
    assert NameList(Some(text)) == Some(StripAll(names));
    forall i | 0 <= i < |names| ensures StripAll(names)[i] == names[i] {
      StripSpaceless(names[i]);
    }
    assert StripAll(names) == names;
  }

  // ---------------------------------------------------------------------
  // `cmd_snapshot`
  // ---------------------------------------------------------------------

  /** A file argument `cmd_snapshot` captures: it exists and validates. */
  predicate Accepted(f: string, probe: string -> FileProbe) {
    !probe(f).Missing? && Validate(f, probe(f)).valid
  }

  /** The snapshots of the first `n` file arguments, skipping those `keep` rejects. */
  function SnapshotsTaken(files: seq<string>, n: nat, keep: string -> bool, capture: string -> Snapshot): seq<Snapshot>
    requires n <= |files|
  {
    if n == 0 then []
    else
      var prior := SnapshotsTaken(files, n - 1, keep, capture);
      if keep(files[n - 1]) then prior + [capture(files[n - 1])] else prior
  }

  function AcceptedBy(probe: string -> FileProbe): string -> bool {
    f => Accepted(f, probe)
  }

  /** Every kept file is captured and nothing else is, so there are no
      snapshots exactly when no file is kept. */
  lemma {:induction false} SnapshotsTakenMeaning(files: seq<string>, n: nat, keep: string -> bool, capture: string -> Snapshot)
    requires n <= |files|
    ensures |SnapshotsTaken(files, n, keep, capture)| <= n
    ensures forall i :: 0 <= i < n && keep(files[i]) ==> capture(files[i]) in SnapshotsTaken(files, n, keep, capture)
    ensures SnapshotsTaken(files, n, keep, capture) == [] <==> forall i :: 0 <= i < n ==> !keep(files[i])
  {
    if n > 0 {
      SnapshotsTakenMeaning(files, n - 1, keep, capture);
    }
  }

  /** `cmd_snapshot`: capture every file that exists and validates; exit 0
      exactly when at least one snapshot was taken. */
  method CmdSnapshot(files: seq<string>, probe: string -> FileProbe, capture: string -> Snapshot)
    returns (results: seq<Snapshot>, code: int)
    ensures results == SnapshotsTaken(files, |files|, AcceptedBy(probe), capture)
    ensures code == 0 <==> exists i :: 0 <= i < |files| && Accepted(files[i], probe)
    ensures code == 0 || code == 1
  {
    results := [];
    var i := 0;
    while i < |files|
      invariant i <= |files|
      invariant results == SnapshotsTaken(files, i, AcceptedBy(probe), capture)
    {
      var filepath := files[i];
      if probe(filepath).Missing? {
        i := i + 1;
        continue;
      }
      var validation := Validate(filepath, probe(filepath));
      if !validation.valid {
        i := i + 1;
        continue;
      }
      results := results + [capture(filepath)];
      i := i + 1;
    }
    SnapshotsTakenMeaning(files, |files|, AcceptedBy(probe), capture);
    assert forall i :: 0 <= i < |files| ==> AcceptedBy(probe)(files[i]) == Accepted(files[i], probe);
    code := if results != [] then 0 else 1;
  }

  // ---------------------------------------------------------------------
  // `cmd_compare` and `cmd_diff`
  // ---------------------------------------------------------------------

  /** The comparison `ComparisonEngine.compare` returns for two snapshots. */
  function CompareOf(s1: Snapshot, s2: Snapshot, changeRepr: SectionChange -> string): (c: ComparisonResult)
    ensures c.hasDifferences <==> c.summary != "No differences"
  {
    var diffs := Diffs(s1, s2);
    var c := ComparisonResult(s1.filepath, s2.filepath, diffs != [], Summary(diffs, changeRepr), diffs);
    CompareFlagAndSummary(c, changeRepr);
    c
  }

  /** `Compare` computes exactly `CompareOf`. */
  method CompareSnapshots(s1: Snapshot, s2: Snapshot, changeRepr: SectionChange -> string) returns (c: ComparisonResult)
    ensures c == CompareOf(s1, s2, changeRepr)
  {
    c := Compare(s1, s2, changeRepr);
  }

  /** `engine.compare` as a value, for the report of `cmd_diff`. */
  function Comparer(changeRepr: SectionChange -> string): (Snapshot, Snapshot) -> ComparisonResult {
    (s1, s2) => CompareOf(s1, s2, changeRepr)
  }

  /** A command either stops with an error message or reaches a comparison. */
  datatype CompareOutcome = Failed(message: string) | Done(result: ComparisonResult)

  /** An option given with a non-empty value (argparse's truthiness). */
  predicate Given(o: Option<string>) {
    o.Some? && o.value != []
  }

  /** `cmd_compare`.  `capture` stands for `engine.capture`: as a function it
      gives one snapshot per path, which models commands whose output does
      not change between two runs.  The last `ensures` does not rest on
      that: two captures with the same results and size exit 0 whatever
      their capture times (`CompareRecaptured`). */
  method CmdCompare(
    file1: string, file2: Option<string>, against: Option<string>,
    exists_: string -> bool, capture: string -> Snapshot, stored: Option<Snapshot>,
    changeRepr: SectionChange -> string)
    returns (outcome: CompareOutcome, code: int)
    ensures !exists_(file1) ==> outcome == Failed("File not found: " + file1)
    ensures exists_(file1) && Given(against) && stored.None? ==>
      outcome == Failed("No stored snapshot '" + against.value + "' for " + file1)
    ensures exists_(file1) && !Given(against) && Given(file2) && !exists_(file2.value) ==>
      outcome == Failed("File not found: " + file2.value)
    ensures exists_(file1) && !Given(against) && !Given(file2) ==> outcome == Failed("Need --against NAME or second file")
    ensures exists_(file1) && Given(against) && stored.Some? ==>
      outcome == Done(CompareOf(capture(file1), stored.value, changeRepr))
    ensures exists_(file1) && !Given(against) && Given(file2) && exists_(file2.value) ==>
      outcome == Done(CompareOf(capture(file1), capture(file2.value), changeRepr))
    ensures outcome.Failed? ==> code == 1
    ensures outcome.Done? ==> (code == 0 <==> !outcome.result.hasDifferences) && (code == 0 || code == 1)
    ensures exists_(file1) && !Given(against) && file2 == Some(file1) && file1 != [] ==> code == 0
    ensures && exists_(file1) && !Given(against) && Given(file2) && exists_(file2.value)
            && capture(file1).results == capture(file2.value).results
            && capture(file1).fileSize == capture(file2.value).fileSize
            ==> code == 0
  {
    if !exists_(file1) {
      return Failed("File not found: " + file1), 1;
    }
    var snapshot1 := capture(file1);
    var snapshot2;
    if Given(against) {
      if stored.None? {
        return Failed("No stored snapshot '" + against.value + "' for " + file1), 1;
      }
      snapshot2 := stored.value;
    } else if Given(file2) {
      if !exists_(file2.value) {
        return Failed("File not found: " + file2.value), 1;
      }
      snapshot2 := capture(file2.value);
    } else {
      return Failed("Need --against NAME or second file"), 1;
    }
    var comparison := CompareSnapshots(snapshot1, snapshot2, changeRepr);
    if snapshot1.results == snapshot2.results && snapshot1.fileSize == snapshot2.fileSize {
      CompareRecaptured(snapshot1, snapshot2);
    }
    outcome := Done(comparison);
    code := if !comparison.hasDifferences then 0 else 1;
  }

  /** `cmd_diff` with a file: both stored snapshots must load; the exit code
      is 0 whatever the comparison finds. */
  method CmdDiffFile(
    name1: string, name2: string, file: string, snap1: Option<Snapshot>, snap2: Option<Snapshot>,
    changeRepr: SectionChange -> string)
    returns (outcome: CompareOutcome, code: int)
    ensures snap1.None? ==> outcome == Failed("No snapshot '" + name1 + "' for " + file) && code == 1
    ensures snap1.Some? && snap2.None? ==> outcome == Failed("No snapshot '" + name2 + "' for " + file) && code == 1
    ensures snap1.Some? && snap2.Some? ==> outcome == Done(CompareOf(snap1.value, snap2.value, changeRepr)) && code == 0
  {
    if snap1.None? {
      return Failed("No snapshot '" + name1 + "' for " + file), 1;
    }
    if snap2.None? {
      return Failed("No snapshot '" + name2 + "' for " + file), 1;
    }
    var comparison := CompareSnapshots(snap1.value, snap2.value, changeRepr);
    outcome, code := Done(comparison), 0;
  }

  /** What `cmd_diff` reports for the first `n` files of the sorted union:
      changed files with their comparison, "removed" when only the first
      snapshot loads, "added" otherwise (also when neither loads); files
      that load on both sides and do not differ are left out. */
  function DiffOutcomes(
    files: seq<string>, n: nat, load1: string -> Option<Snapshot>, load2: string -> Option<Snapshot>,
    cmp: (Snapshot, Snapshot) -> ComparisonResult): seq<(string, FileOutcome)>
    requires n <= |files|
  {
    if n == 0 then [] else DiffOutcomes(files, n - 1, load1, load2, cmp) + FileEntry(files[n - 1], load1, load2, cmp)
  }

  /** The entry one file contributes: none when it is unchanged. */
  function FileEntry(
    f: string, load1: string -> Option<Snapshot>, load2: string -> Option<Snapshot>,
    cmp: (Snapshot, Snapshot) -> ComparisonResult): seq<(string, FileOutcome)>
  {
    if load1(f).Some? && load2(f).Some? then
      var c := cmp(load1(f).value, load2(f).value);
      if c.hasDifferences then [(f, FileChanged(c))] else []
    else if load1(f).Some? then [(f, FileRemoved)]
    else [(f, FileAdded)]
  }

  /** The body of the loop of `cmd_diff` for one file; `compare` is
      `compare_snapshots`. */
  method ClassifyFile(
    filepath: string, load1: string -> Option<Snapshot>, load2: string -> Option<Snapshot>,
    compare: (Snapshot, Snapshot) -> ComparisonResult)
    returns (entry: seq<(string, FileOutcome)>)
    ensures entry == FileEntry(filepath, load1, load2, compare)
  {
    var snap1, snap2 := load1(filepath), load2(filepath);
    if snap1.Some? && snap2.Some? {
      var comp := compare(snap1.value, snap2.value);
      entry := if comp.hasDifferences then [(filepath, FileChanged(comp))] else [];
    } else if snap1.Some? {
      entry := [(filepath, FileRemoved)];
    } else {
      entry := [(filepath, FileAdded)];
    }
  }

  /** A file that loads on both sides and does not differ. */
  predicate Unchanged(f: string, load1: string -> Option<Snapshot>, load2: string -> Option<Snapshot>, cmp: (Snapshot, Snapshot) -> ComparisonResult) {
    load1(f).Some? && load2(f).Some? && !cmp(load1(f).value, load2(f).value).hasDifferences
  }

  /** How a reported entry is classified by what loaded. */
  predicate Classified(e: (string, FileOutcome), load1: string -> Option<Snapshot>, load2: string -> Option<Snapshot>, cmp: (Snapshot, Snapshot) -> ComparisonResult) {
    && !Unchanged(e.0, load1, load2, cmp)
    && (e.1.FileChanged? ==> load1(e.0).Some? && load2(e.0).Some? && e.1.result == cmp(load1(e.0).value, load2(e.0).value))
    && (e.1 == FileRemoved <==> load1(e.0).Some? && load2(e.0).None?)
    && (e.1 == FileAdded <==> load1(e.0).None?)
  }

  /** Each reported entry is one of the files, classified by what loaded:
      a changed file carries its comparison, which has differences. */
  lemma {:induction false} DiffOutcomesSound(
    files: seq<string>, n: nat, load1: string -> Option<Snapshot>, load2: string -> Option<Snapshot>,
    cmp: (Snapshot, Snapshot) -> ComparisonResult)
    requires n <= |files|
    ensures forall j :: 0 <= j < |DiffOutcomes(files, n, load1, load2, cmp)| ==>
      DiffOutcomes(files, n, load1, load2, cmp)[j].0 in files[..n]
      && Classified(DiffOutcomes(files, n, load1, load2, cmp)[j], load1, load2, cmp)
  {
    if n > 0 {
      DiffOutcomesSound(files, n - 1, load1, load2, cmp);
      var prior := DiffOutcomes(files, n - 1, load1, load2, cmp);
      var entry := FileEntry(files[n - 1], load1, load2, cmp);
      var r := DiffOutcomes(files, n, load1, load2, cmp);
      assert r == prior + entry;
      assert files[..n] == files[..n - 1] + [files[n - 1]];
      FileEntrySound(files[n - 1], load1, load2, cmp);
      forall j | 0 <= j < |r| ensures r[j].0 in files[..n] && Classified(r[j], load1, load2, cmp) {
        if j >= |prior| {
          assert r[j] == entry[j - |prior|];
        } else {
          assert r[j] == prior[j];
        }
      }
    }
  }

  lemma FileEntrySound(
    f: string, load1: string -> Option<Snapshot>, load2: string -> Option<Snapshot>,
    cmp: (Snapshot, Snapshot) -> ComparisonResult)
    ensures var entry := FileEntry(f, load1, load2, cmp);
      && |entry| <= 1
      && (entry == [] <==> Unchanged(f, load1, load2, cmp))
      && forall j :: 0 <= j < |entry| ==> entry[j].0 == f && Classified(entry[j], load1, load2, cmp)
  {
  }

  lemma KeysAppend<V>(a: Dict<V>, b: Dict<V>)
    ensures Keys(a + b) == Keys(a) + Keys(b)
  {
    assert forall i :: 0 <= i < |a + b| ==> Keys(a + b)[i] == (Keys(a) + Keys(b))[i];
  }

  /** Every file that is not unchanged is reported, and the files are
      reported in the order given. */
  lemma DiffOutcomesComplete(
    files: seq<string>, n: nat, load1: string -> Option<Snapshot>, load2: string -> Option<Snapshot>,
    cmp: (Snapshot, Snapshot) -> ComparisonResult)
    requires n <= |files|
    requires StrictlySorted(files)
    ensures var r := DiffOutcomes(files, n, load1, load2, cmp);
      && (forall i :: 0 <= i < n && !Unchanged(files[i], load1, load2, cmp) ==> files[i] in Keys(r))
      && StrictlySorted(Keys(r))
  {
    DiffOutcomesCovers(files, n, load1, load2, cmp);
    DiffOutcomesSorted(files, n, load1, load2, cmp);
  }

  lemma {:induction false} DiffOutcomesCovers(
    files: seq<string>, n: nat, load1: string -> Option<Snapshot>, load2: string -> Option<Snapshot>,
    cmp: (Snapshot, Snapshot) -> ComparisonResult)
    requires n <= |files|
    ensures var r := DiffOutcomes(files, n, load1, load2, cmp);
      forall i :: 0 <= i < n && !Unchanged(files[i], load1, load2, cmp) ==> files[i] in Keys(r)
  {
    if n > 0 {
      DiffOutcomesCovers(files, n - 1, load1, load2, cmp);
      FileEntrySound(files[n - 1], load1, load2, cmp);
      var prior := DiffOutcomes(files, n - 1, load1, load2, cmp);
      var entry := FileEntry(files[n - 1], load1, load2, cmp);
      KeysAppend(prior, entry);
      assert Keys(DiffOutcomes(files, n, load1, load2, cmp)) == Keys(prior) + Keys(entry);
      if entry != [] {
        assert Keys(entry) == [files[n - 1]];
      }
    }
  }

  lemma {:induction false} DiffOutcomesSorted(
    files: seq<string>, n: nat, load1: string -> Option<Snapshot>, load2: string -> Option<Snapshot>,
    cmp: (Snapshot, Snapshot) -> ComparisonResult)
    requires n <= |files|
    requires StrictlySorted(files)
    ensures StrictlySorted(Keys(DiffOutcomes(files, n, load1, load2, cmp)))
  {
    if n > 0 {
      DiffOutcomesSorted(files, n - 1, load1, load2, cmp);
      FileEntrySound(files[n - 1], load1, load2, cmp);
      var prior := DiffOutcomes(files, n - 1, load1, load2, cmp);
      var entry := FileEntry(files[n - 1], load1, load2, cmp);
      KeysAppend(prior, entry);
      assert Keys(DiffOutcomes(files, n, load1, load2, cmp)) == Keys(prior) + Keys(entry);
      if entry != [] {
        assert Keys(entry) == [files[n - 1]];
        PriorBelow(files, n, load1, load2, cmp, Keys(prior));
        SortedSnoc(Keys(prior), files[n - 1]);
      }
    }
  }

  /** Every file reported before file `n - 1` sorts below it. */
  lemma PriorBelow(
    files: seq<string>, n: nat, load1: string -> Option<Snapshot>, load2: string -> Option<Snapshot>,
    cmp: (Snapshot, Snapshot) -> ComparisonResult, reported: seq<string>)
    requires 0 < n <= |files|
    requires StrictlySorted(files)
    requires reported == Keys(DiffOutcomes(files, n - 1, load1, load2, cmp))
    ensures forall j :: 0 <= j < |reported| ==> Below(reported[j], files[n - 1])
  {
    var prior := DiffOutcomes(files, n - 1, load1, load2, cmp);
    DiffOutcomesSound(files, n - 1, load1, load2, cmp);
    forall j | 0 <= j < |reported| ensures Below(reported[j], files[n - 1]) {
      assert prior[j].0 in files[..n - 1];
      var i :| 0 <= i < n - 1 && files[i] == prior[j].0;
    }
  }

  /** Appending a name above every listed one keeps the list strictly sorted. */
  lemma SortedSnoc(s: seq<string>, x: string)
    requires StrictlySorted(s)
    requires forall j :: 0 <= j < |s| ==> Below(s[j], x)
    ensures StrictlySorted(s + [x])
  {
  }

  /** The loop of `cmd_diff` without a file: one entry per file that is
      not unchanged, in the order walked. */
  method ClassifyAll(
    all: seq<string>, load1: string -> Option<Snapshot>, load2: string -> Option<Snapshot>,
    compare: (Snapshot, Snapshot) -> ComparisonResult)
    returns (comparisons: seq<(string, FileOutcome)>)
    ensures comparisons == DiffOutcomes(all, |all|, load1, load2, compare)
  {
    comparisons := [];
    for i := 0 to |all|
      invariant comparisons == DiffOutcomes(all, i, load1, load2, compare)
    {
      var entry := ClassifyFile(all[i], load1, load2, compare);
      comparisons := comparisons + entry;
    }
  }

  /** `cmd_diff` without a file: walk the sorted union of both file lists. */
  method CmdDiffAll(
    name1: string, name2: string, files1: seq<string>, files2: seq<string>,
    load1: string -> Option<Snapshot>, load2: string -> Option<Snapshot>, changeRepr: SectionChange -> string)
    returns (comparisons: seq<(string, FileOutcome)>, text: string, code: int)
    ensures var all := SortedSet(files1 + files2);
      comparisons == DiffOutcomes(all, |all|, load1, load2, Comparer(changeRepr))
    ensures text == JoinLines(DiffSummaryLines(name1, name2, comparisons))
    ensures code == 0
  {
    var all := SortedSet(files1 + files2);
    comparisons := ClassifyAll(all, load1, load2, Comparer(changeRepr));
    text := FormatDiffSummary(name1, name2, comparisons);
    code := 0;
  }

  /** The report names exactly the files of either snapshot that are not
      unchanged, in ascending order. */
  lemma DiffAllMeaning(
    files1: seq<string>, files2: seq<string>,
    load1: string -> Option<Snapshot>, load2: string -> Option<Snapshot>, cmp: (Snapshot, Snapshot) -> ComparisonResult)
    ensures var all := SortedSet(files1 + files2);
      var r := DiffOutcomes(all, |all|, load1, load2, cmp);
      && StrictlySorted(Keys(r))
      && forall f :: f in Keys(r) <==> (f in files1 + files2 && !Unchanged(f, load1, load2, cmp))
  {
    var all := SortedSet(files1 + files2);
    SortedSetCorrect(files1 + files2);
    DiffOutcomesComplete(all, |all|, load1, load2, cmp);
    DiffOutcomesSound(all, |all|, load1, load2, cmp);
    var r := DiffOutcomes(all, |all|, load1, load2, cmp);
    assert all[..|all|] == all;
    forall f ensures f in Keys(r) <==> (f in files1 + files2 && !Unchanged(f, load1, load2, cmp)) {
      if f in Keys(r) {
        var j :| 0 <= j < |r| && Keys(r)[j] == f;
        assert r[j].0 == f;
      }
      if f in files1 + files2 && !Unchanged(f, load1, load2, cmp) {
        assert f in all;
        var i :| 0 <= i < |all| && all[i] == f;
      }
    }
  }

  // ---------------------------------------------------------------------
  // `cmd_validate`
  // ---------------------------------------------------------------------

  /** `cmd_validate`: the exit code and the line printed. */
  function ValidateCommand(file: string, probe: FileProbe): (r: (int, string))
    ensures r.0 == 0 <==> Validate(file, probe).valid
    ensures r.0 == 0 || r.0 == 1
    ensures probe.Missing? ==> r == (1, "Error: File not found: " + file)
  {
    if probe.Missing? then (1, "Error: File not found: " + file)
    else
      var validation := Validate(file, probe);
      if validation.valid then (0, file + ": valid " + OrNone(validation.fileType))
      else (1, file + ": invalid - " + OrNone(validation.error))
  }

  // ---------------------------------------------------------------------
  // `main`
  // ---------------------------------------------------------------------

  const Commands: set<string> := {"snapshot", "compare", "diff", "info", "validate", "list"}

  /** How a command handler ended. */
  datatype HandlerOutcome = Exit(code: int) | KeyboardInterrupt | Raised(message: string)

  /** How `main` ends: with an exit code, or by re-raising in verbose mode. */
  datatype MainOutcome = ExitWith(code: int) | Reraised(message: string)

  /** `main` */
  function MainExit(command: Option<string>, handler: HandlerOutcome, verbose: int): (r: MainOutcome)
    ensures !Given(command) ==> r == ExitWith(0)
    ensures Given(command) && command.value !in Commands ==> r == ExitWith(1)
    ensures Given(command) && command.value in Commands ==>
      && (handler.Exit? ==> r == ExitWith(handler.code))
      && (handler.KeyboardInterrupt? ==> r == ExitWith(130))
      && (handler.Raised? ==> r == if verbose != 0 then Reraised(handler.message) else ExitWith(1))
  {
    if !Given(command) then ExitWith(0)
    else if command.value !in Commands then ExitWith(1)
    else
      match handler
      case Exit(code) => ExitWith(code)
      case KeyboardInterrupt => ExitWith(130)
      case Raised(message) => if verbose != 0 then Reraised(message) else ExitWith(1)
  }

  /** Outside verbose mode `main` always ends with an exit code, and that code
      is 0, 1, 130 or the handler's own. */
  lemma MainExitCodes(command: Option<string>, handler: HandlerOutcome, verbose: int)
    ensures verbose == 0 ==> MainExit(command, handler, verbose).ExitWith?
    ensures MainExit(command, handler, verbose).ExitWith? ==>
      var code := MainExit(command, handler, verbose).code;
      code in {0, 1, 130} || (handler.Exit? && code == handler.code)
  {
  }
}
