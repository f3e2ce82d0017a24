/**
 * `SnapshotManager.capture` (tools/xcoff_tool/core.py): choose the analyzers
 * to run, run each one, and collect what each produced into a snapshot.
 *
 * The file system and the clock are inputs: the resolved path, the stat
 * results and the current time are parameters, and what each analyzer's
 * `analyze` call does is given by `outcome`.
 */
module Capture {
  import opened Text
  import opened Collections
  import opened Snapshots
  import opened Validator
  import opened Analyzers

  /** What one `analyzer.analyze(...)` call did. */
  datatype AnalyzeOutcome = Returned(result: AnalysisResult) | Threw(message: string)

  /** The names of `requested` that are registered, first occurrence first
      (the keys of `{n: all[n] for n in requested if n in all}`). */
  function RequestedNames(requested: seq<string>, registered: seq<string>, n: nat): seq<string>
    requires n <= |requested|
  {
    if n == 0 then []
    else
      var prior := RequestedNames(requested, registered, n - 1);
      var x := requested[n - 1];
      prior + (if x in registered && x !in prior then [x] else [])
  }

  /** The analyzers `capture` runs, in the order it runs them.  A missing or
      empty list of requested names selects every registered analyzer; a
      missing or empty exclusion list excludes nothing. */
  function Selected(requested: Option<seq<string>>, exclude: Option<seq<string>>, registered: seq<string>): seq<string> {
    var chosen :=
      if requested.Some? && requested.value != [] then RequestedNames(requested.value, registered, |requested.value|)
      else registered;
    if exclude.Some? && exclude.value != [] then Without(chosen, exclude.value) else chosen
  }

  lemma {:induction false} RequestedNamesMeaning(requested: seq<string>, registered: seq<string>, n: nat)
    requires n <= |requested|
    ensures forall x :: x in RequestedNames(requested, registered, n) <==> x in registered && x in requested[..n]
    ensures Distinct(RequestedNames(requested, registered, n))
  {
    if n > 0 {
      RequestedNamesMeaning(requested, registered, n - 1);
      TakeOneMore(requested, n);
    }
  }

  /** An analyzer runs exactly when it is registered, requested (or no list
      was given) and not excluded; none runs twice. */
  lemma SelectedMeaning(requested: Option<seq<string>>, exclude: Option<seq<string>>, registered: seq<string>)
    requires Distinct(registered)
    ensures forall x :: x in Selected(requested, exclude, registered) <==>
      && x in registered
      && (requested.None? || requested.value == [] || x in requested.value)
      && (exclude.None? || x !in exclude.value)
    ensures Distinct(Selected(requested, exclude, registered))
  {
    if requested.Some? && requested.value != [] {
      RequestedNamesMeaning(requested.value, registered, |requested.value|);
      assert requested.value[..|requested.value|] == requested.value;
    }
    var chosen :=
      if requested.Some? && requested.value != [] then RequestedNames(requested.value, registered, |requested.value|)
      else registered;
    if exclude.Some? && exclude.value != [] {
      WithoutMeaning(chosen, exclude.value);
    }
  }

  /** The entry `capture` stores for one analyzer. */
  function StoredResult(name: string, o: AnalyzeOutcome): (r: AnalysisResult)
    ensures o.Threw? ==> !r.success && r.error == Some(o.message) && r.analyzerName == name
  {
    match o
    case Returned(result) => result
    case Threw(message) => Failure(name, message)
  }

  /** The results dict after running the first `n` selected analyzers. */
  function CapturedResults(names: seq<string>, n: nat, outcome: string -> AnalyzeOutcome): Dict<AnalysisResult>
    requires n <= |names|
  {
    if n == 0 then []
    else Put(CapturedResults(names, n - 1, outcome), names[n - 1], StoredResult(names[n - 1], outcome(names[n - 1])))
  }

  /** Every selected analyzer has exactly one entry, in the order they ran. */
  lemma {:induction false} CapturedResultsKeys(names: seq<string>, n: nat, outcome: string -> AnalyzeOutcome)
    requires n <= |names| && Distinct(names)
    ensures Keys(CapturedResults(names, n, outcome)) == names[..n]
  {
    if n > 0 {
      CapturedResultsKeys(names, n - 1, outcome);
      assert names[n - 1] !in names[..n - 1];
      TakeOneMore(names, n);
      PutKeys(CapturedResults(names, n - 1, outcome), names[n - 1], StoredResult(names[n - 1], outcome(names[n - 1])));
    }
  }

  /** Each entry is what its analyzer returned, or a failure carrying the exception text. */
  lemma {:induction false} CapturedResultsValues(names: seq<string>, n: nat, outcome: string -> AnalyzeOutcome, x: string)
    requires n <= |names|
    ensures Get(CapturedResults(names, n, outcome), x) ==
      if x in names[..n] then Some(StoredResult(x, outcome(x))) else None
  {
    if n > 0 {
      CapturedResultsValues(names, n - 1, outcome, x);
      PutGet(CapturedResults(names, n - 1, outcome), names[n - 1], StoredResult(names[n - 1], outcome(names[n - 1])), x);
      TakeOneMore(names, n);
    }
  }

  /** `SnapshotManager.capture` */
  method CaptureSnapshot(
    resolvedPath: string, now: string, fileSize: int, fileMtime: string,
    validation: ValidationResult,
    registered: Dict<Analyzer>,
    requested: Option<seq<string>>, exclude: Option<seq<string>>,
    outcome: string -> AnalyzeOutcome)
    returns (s: Snapshot)
    ensures s.filepath == resolvedPath && s.timestamp == now
    ensures s.fileSize == fileSize && s.fileMtime == fileMtime
    ensures s.fileType == if validation.fileType.Some? then validation.fileType.value else "unknown"
    ensures s.name.None?
    ensures var names := Selected(requested, exclude, Keys(registered));
      s.results == CapturedResults(names, |names|, outcome)
  {
    var fileType := if validation.fileType.Some? then validation.fileType.value else "unknown";
    s := Snapshot(resolvedPath, now, fileSize, fileMtime, fileType, None, []);
    var selected := Selected(requested, exclude, Keys(registered));
    for i := 0 to |selected|
      invariant s == Snapshot(resolvedPath, now, fileSize, fileMtime, fileType, None, CapturedResults(selected, i, outcome))
    {
      var name := selected[i];
      var result;
      match outcome(name) {
        case Returned(r) => result := r;
        case Threw(message) => result := Failure(name, message);
      }
      s := s.(results := Put(s.results, name, result));
    }
  }

  /** A snapshot `capture` produced comes back unchanged from its stored form,
      provided each analyzer names its result after itself. */
  lemma CapturedSnapshotRoundTrip(
    s: Snapshot, registered: Dict<Analyzer>,
    requested: Option<seq<string>>, exclude: Option<seq<string>>, outcome: string -> AnalyzeOutcome)
    requires Distinct(Keys(registered))
    requires var names := Selected(requested, exclude, Keys(registered));
      s.results == CapturedResults(names, |names|, outcome)
    requires forall x :: outcome(x).Returned? ==> outcome(x).result.analyzerName == x
    ensures FromDict(ToDict(s)) == Ok(s)
  {
    var names := Selected(requested, exclude, Keys(registered));
    SelectedMeaning(requested, exclude, Keys(registered));
    CapturedResultsKeys(names, |names|, outcome);
    assert names[..|names|] == names;
    forall i | 0 <= i < |s.results| ensures s.results[i].1.analyzerName == s.results[i].0 {
      var x := s.results[i].0;
      assert x in Keys(s.results);
      CapturedResultsValues(names, |names|, outcome, x);
      GetDistinct(s.results, i);
    }
    RoundTrip(s);
  }

  /** In a dictionary with distinct keys, looking up the key of entry `i` gives its value. */
  lemma {:induction false} GetDistinct<V>(d: Dict<V>, i: nat)
    requires Distinct(Keys(d)) && i < |d|
    ensures Get(d, d[i].0) == Some(d[i].1)
  {
    if i > 0 {
      assert Keys(d[1..]) == Keys(d)[1..];
      GetDistinct(d[1..], i - 1);
      assert d[0].0 != d[i].0;
    }
  }
}
