/**
 * The records of the XCOFF snapshot tool (tools/xcoff_tool/core.py): what an
 * analyzer produced, a snapshot of one file, and the dictionary form a
 * snapshot is stored in.  `Snapshot.to_dict`/`from_dict` are modelled as a
 * serialiser pair over a typed document (JSON decoding itself is not part of
 * this model).
 */
module Snapshots {
  import opened Text
  import opened Collections

  /** One row of `dump -h` output.  The fields the parser did not find are
      absent from the Python dict; here they are None. */
  datatype Section = Section(
    index: int, name: string,
    size: Option<string>, vma: Option<string>, lma: Option<string>,
    fileOffset: Option<string>, address: Option<string>)

  /** `{"name", "type": "IMP", "raw"}` */
  datatype Import = Import(name: string, raw: string)

  /** `{"name", "type": "EXP", "address", "raw"}` */
  datatype Export = Export(name: string, address: Option<string>, raw: string)

  /** A value in the data dict of an analyzer other than the three built-in ones. */
  datatype Value = Text(s: string) | Number(i: int) | Flag(b: bool) | Null | List(items: seq<string>)

  /** The `data` dict of an analysis result, by the analyzer that filled it. */
  datatype Data =
    | WhatData(strings: seq<string>, count: int)
    | SectionData(sections: seq<Section>, count: int, raw: string)
    | LoaderData(imports: seq<Import>, exports: seq<Export>, importCount: int, exportCount: int, raw: string)
    | Generic(fields: Dict<Value>)

  /** The empty dict `{}` a failed result carries. */
  const NoData: Data := Generic([])

  /** `data.get("strings", [])` */
  function StringsOf(d: Data): seq<string> {
    if d.WhatData? then d.strings else []
  }

  /** `data.get("sections", [])` */
  function SectionsOf(d: Data): seq<Section> {
    if d.SectionData? then d.sections else []
  }

  /** `data.get("imports", [])` */
  function ImportsOf(d: Data): seq<Import> {
    if d.LoaderData? then d.imports else []
  }

  /** `data.get("exports", [])` */
  function ExportsOf(d: Data): seq<Export> {
    if d.LoaderData? then d.exports else []
  }

  datatype AnalysisResult = AnalysisResult(
    analyzerName: string, success: bool, data: Data, error: Option<string>, truncated: bool)

  /** `AnalysisResult(name, success=False, error=message)`: the other fields keep their defaults. */
  function Failure(name: string, message: string): (r: AnalysisResult)
    ensures !r.success && r.error == Some(message) && r.analyzerName == name
    ensures r.data == NoData && !r.truncated
  {
    AnalysisResult(name, false, NoData, Some(message), false)
  }

  datatype Snapshot = Snapshot(
    filepath: string, timestamp: string, fileSize: int, fileMtime: string,
    fileType: string, name: Option<string>, results: Dict<AnalysisResult>)

  // ---------------------------------------------------------------------
  // The stored document
  // ---------------------------------------------------------------------

  /** One entry of the "results" object; a key missing from the document is None. */
  datatype ResultDoc = ResultDoc(
    success: Option<bool>, data: Option<Data>, error: Option<string>, truncated: Option<bool>)

  /** The document `to_dict` produces and `from_dict` reads; a missing key (or a
      JSON null where a string is expected) is None. */
  datatype SnapshotDoc = SnapshotDoc(
    version: Option<string>, name: Option<string>, filepath: Option<string>,
    timestamp: Option<string>, fileSize: Option<int>, fileMtime: Option<string>,
    fileType: Option<string>, results: Option<Dict<ResultDoc>>)

  const FormatVersion: string := "1.0"

  function ResultToDoc(r: AnalysisResult): ResultDoc {
    ResultDoc(Some(r.success), Some(r.data), r.error, Some(r.truncated))
  }

  /** The analysis result read back from a results entry: the map key becomes
      the analyzer name and each missing key takes its default. */
  function ResultFromDoc(name: string, doc: ResultDoc): (r: AnalysisResult)
    ensures r.analyzerName == name
    ensures r.success == (doc.success == Some(true))
    ensures r.data == (if doc.data.Some? then doc.data.value else NoData)
    ensures r.truncated == (doc.truncated == Some(true))
  {
    AnalysisResult(
      name,
      if doc.success.Some? then doc.success.value else false,
      if doc.data.Some? then doc.data.value else NoData,
      doc.error,
      if doc.truncated.Some? then doc.truncated.value else false)
  }

  function ResultsToDocs(results: Dict<AnalysisResult>): (r: Dict<ResultDoc>)
    ensures Keys(r) == Keys(results)
  {
    if results == [] then []
    else
      var last := results[|results| - 1];
      ResultsToDocs(results[..|results| - 1]) + [(last.0, ResultToDoc(last.1))]
  }

  /** The loop of `from_dict` that assigns `results[name] = AnalysisResult(...)`. */
  function ResultsFromDocs(docs: Dict<ResultDoc>): Dict<AnalysisResult> {
    if docs == [] then []
    else
      var last := docs[|docs| - 1];
      Put(ResultsFromDocs(docs[..|docs| - 1]), last.0, ResultFromDoc(last.0, last.1))
  }

  /** `Snapshot.to_dict` */
  function ToDict(s: Snapshot): (doc: SnapshotDoc)
    ensures doc.version == Some(FormatVersion)
    ensures doc.filepath.Some? && doc.timestamp.Some? && doc.fileSize.Some? && doc.fileMtime.Some?
    ensures doc.results.Some? && Keys(doc.results.value) == Keys(s.results)
  {
    SnapshotDoc(
      Some(FormatVersion), s.name, Some(s.filepath), Some(s.timestamp), Some(s.fileSize),
      Some(s.fileMtime), Some(s.fileType), Some(ResultsToDocs(s.results)))
  }

  /** `Snapshot.from_dict`: a missing required key raises KeyError, reported
      here as Err with the key's name. */
  function FromDict(doc: SnapshotDoc): (r: Result<Snapshot>)
    ensures r.Ok? <==> doc.filepath.Some? && doc.timestamp.Some? && doc.fileSize.Some? && doc.fileMtime.Some?
    ensures r.Ok? ==> r.value.fileType == (if doc.fileType.Some? then doc.fileType.value else "unknown")
    ensures r.Ok? ==> r.value.name == doc.name
  {
    var results := ResultsFromDocs(if doc.results.Some? then doc.results.value else []);
    if doc.filepath.None? then Err("filepath")
    else if doc.timestamp.None? then Err("timestamp")
    else if doc.fileSize.None? then Err("file_size")
    else if doc.fileMtime.None? then Err("file_mtime")
    else Ok(Snapshot(
      doc.filepath.value, doc.timestamp.value, doc.fileSize.value, doc.fileMtime.value,
      if doc.fileType.Some? then doc.fileType.value else "unknown", doc.name, results))
  }

  /** Each result is stored under its own analyzer name (as `capture` does for
      the analyzers it runs). */
  predicate KeyedByName(results: Dict<AnalysisResult>) {
    forall i :: 0 <= i < |results| ==> results[i].1.analyzerName == results[i].0
  }

  /** Reading back the documents of a non-empty dictionary re-assigns its last entry last. */
  lemma RoundTripStep(results: Dict<AnalysisResult>)
    requires results != [] && KeyedByName(results)
    ensures var n := |results|;
      ResultsFromDocs(ResultsToDocs(results))
      == Put(ResultsFromDocs(ResultsToDocs(results[..n - 1])), results[n - 1].0, results[n - 1].1)
  {
    var n := |results|;
    var init, last := results[..n - 1], results[n - 1];
    var docs := ResultsToDocs(results);
    assert docs[..n - 1] == ResultsToDocs(init);
    assert docs[n - 1] == (last.0, ResultToDoc(last.1));
    assert ResultFromDoc(last.0, ResultToDoc(last.1)) == last.1;
  }

  lemma {:induction false} ResultsRoundTrip(results: Dict<AnalysisResult>)
    requires Distinct(Keys(results))
    requires KeyedByName(results)
    ensures ResultsFromDocs(ResultsToDocs(results)) == results
    decreases |results|
  {
    if results != [] {
      var n := |results|;
      var init, last := results[..n - 1], results[n - 1];
      LastKeyFresh(results);
      ResultsRoundTrip(init);
      RoundTripStep(results);
      PutAbsent(init, last.0, last.1);
      SplitLast(results);
    }
  }

  /** `Snapshot.from_dict(s.to_dict())` gives back `s` whenever every result is
      stored under its own analyzer name. */
  lemma RoundTrip(s: Snapshot)
    requires Distinct(Keys(s.results))
    requires KeyedByName(s.results)
    ensures FromDict(ToDict(s)) == Ok(s)
  {
    ResultsRoundTrip(s.results);
  }
}
