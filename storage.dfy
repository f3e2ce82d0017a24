/**
 * `Storage` (tools/xcoff_tool/storage.py): where a named snapshot of a file
 * is kept, and the tab-separated registry of snapshot names.
 *
 * The file system is an input: the registry file is its text (None when it
 * does not exist), a snapshot directory is what listing it would show, and
 * writing the registry yields the text written.
 */
module Storage {
  import opened Text
  import opened Collections

  // ---------------------------------------------------------------------
  // Storage paths
  // ---------------------------------------------------------------------

  /** `_filepath_to_relpath`: leading '/' then leading '\' removed, every ':'
      deleted, ".json" appended. */
  function FilepathToRelpath(filepath: string): (r: string)
    ensures EndsWith(r, ".json")
    ensures ':' !in r
  {
    var rel := Delete(LStripChar(LStripChar(filepath, '/'), '\\'), ':');
    assert (rel + ".json")[|rel|..] == ".json";
    rel + ".json"
  }

  /** The characters `rstrip(".json")` removes. */
  const JsonChars: set<char> := {'.', 'j', 's', 'o', 'n'}

  /** `_relpath_to_filepath` as written: `rstrip(".json")` removes every
      trailing character among '.', 'j', 's', 'o', 'n', not the suffix ".json". */
  function RelpathToFilepathAsWritten(relpath: string): string {
    "/" + RStripSet(relpath, JsonChars)
  }

  /** `_relpath_to_filepath` as its own comment describes it: the suffix ".json" removed. */
  function RelpathToFilepath(relpath: string): string {
    if EndsWith(relpath, ".json") then "/" + relpath[..|relpath| - 5] else "/" + relpath
  }

  lemma {:induction false} DeleteAbsent(s: string, c: char)
    requires c !in s
    ensures Delete(s, c) == s
  {
    if s != [] {
      DeleteAbsent(s[1..], c);
      assert s == [s[0]] + s[1..];
    }
  }

  /** Stripping a tail drawn from `chars` stops at a character outside it. */
  lemma RStripSetTail(s: string, t: string, chars: set<char>)
    requires s == [] || s[|s| - 1] !in chars
    requires forall i :: 0 <= i < |t| ==> t[i] in chars
    ensures RStripSet(s + t, chars) == s
  {
    var u := s + t;
    var r := RStripSet(u, chars);
    assert s != [] ==> u[|s| - 1] !in chars;
    assert r != [] ==> u[|r| - 1] !in chars;
    assert forall i :: |s| <= i < |u| ==> u[i] in chars;
    assert |r| == |s|;
    assert r == u[..|s|];
  }

  lemma LStripOnce(s: string, c: char)
    requires |s| > 0 && s[0] == c && (|s| == 1 || s[1] != c)
    ensures LStripChar(s, c) == s[1..]
  {
    assert LStripChar(s, c) == LStripChar(s[1..], c);
  }

  /** A path that starts with a single '/' not followed by '\' and has no ':'
      is stored under itself without the '/', plus ".json". */
  lemma RelpathOfPlainPath(filepath: string)
    requires |filepath| > 0 && filepath[0] == '/'
    requires |filepath| == 1 || (filepath[1] != '/' && filepath[1] != '\\')
    requires ':' !in filepath
    ensures FilepathToRelpath(filepath) == filepath[1..] + ".json"
  {
    var q := filepath[1..];
    LStripOnce(filepath, '/');
    var b := LStripChar(q, '\\');
    assert b == q;
    assert ':' !in q;
    DeleteAbsent(q, ':');
    assert FilepathToRelpath(filepath) == Delete(b, ':') + ".json";
  }

  /** Converting such a path to its storage path and back gives it back. */
  lemma PathRoundTrip(filepath: string)
    requires |filepath| > 0 && filepath[0] == '/'
    requires |filepath| == 1 || (filepath[1] != '/' && filepath[1] != '\\')
    requires ':' !in filepath
    ensures RelpathToFilepath(FilepathToRelpath(filepath)) == filepath
  {
    RelpathOfPlainPath(filepath);
    var r := filepath[1..] + ".json";
    assert r[..|r| - 5] == filepath[1..];
  }

  /** A storage path of the form `q.json` comes back unchanged from the file
      path it names, when `q` does not start with '/' or '\' and has no ':'. */
  lemma RelpathRoundTrip(q: string)
    requires q == [] || (q[0] != '/' && q[0] != '\\')
    requires ':' !in q
    ensures FilepathToRelpath(RelpathToFilepath(q + ".json")) == q + ".json"
  {
    var r := q + ".json";
    assert EndsWith(r, ".json");
    assert r[..|r| - 5] == q;
    RelpathOfPlainPath("/" + q);
    assert ("/" + q)[1..] == q;
  }

  /** As written, the round trip also holds when the path does not end in
      one of '.', 'j', 's', 'o', 'n'. */
  lemma AsWrittenRoundTrip(filepath: string)
    requires |filepath| > 0 && filepath[0] == '/'
    requires |filepath| == 1 || (filepath[1] != '/' && filepath[1] != '\\')
    requires ':' !in filepath
    requires filepath[|filepath| - 1] !in JsonChars
    ensures RelpathToFilepathAsWritten(FilepathToRelpath(filepath)) == filepath
  {
    RelpathOfPlainPath(filepath);
    RStripSetTail(filepath[1..], ".json", JsonChars);
  }

  /** As written, a path ending in one of '.', 'j', 's', 'o', 'n' comes back
      shorter: its last letter is stripped along with ".json". */
  lemma AsWrittenLosesLastLetter(filepath: string)
    requires |filepath| > 1 && filepath[0] == '/'
    requires filepath[1] != '/' && filepath[1] != '\\'
    requires ':' !in filepath
    requires filepath[|filepath| - 1] in JsonChars
    ensures |RelpathToFilepathAsWritten(FilepathToRelpath(filepath))| < |filepath|
  {
    RelpathOfPlainPath(filepath);
    var u := filepath[1..] + ".json";
    var r := RStripSet(u, JsonChars);
    assert forall i :: |filepath| - 2 <= i < |u| ==> u[i] in JsonChars;
    assert r != [] ==> u[|r| - 1] !in JsonChars;
  }

  /** The path used as the example of a stored snapshot, "/usr/bin/ls", does
      not come back as itself. */
  lemma AsWrittenExample()
    ensures RelpathToFilepathAsWritten(FilepathToRelpath("/usr/bin/ls")) != "/usr/bin/ls"
  {
    AsWrittenLosesLastLetter("/usr/bin/ls");
  }

  /** The stored path `q.json` reads back, as written, as the intended file
      path exactly when `q` is empty or does not end in '.', 'j', 's', 'o'
      or 'n'. */
  lemma AsWrittenAgrees(q: string)
    ensures RelpathToFilepathAsWritten(q + ".json") == RelpathToFilepath(q + ".json")
        <==> q == [] || q[|q| - 1] !in JsonChars
  {
    var r := q + ".json";
    assert EndsWith(r, ".json");
    assert r[..|r| - 5] == q;
    if q == [] || q[|q| - 1] !in JsonChars {
      RStripSetTail(q, ".json", JsonChars);
    } else {
      var t := RStripSet(r, JsonChars);
      assert forall i :: |q| - 1 <= i < |r| ==> r[i] in JsonChars;
      assert |t| < |q|;
      assert |RelpathToFilepathAsWritten(r)| < |RelpathToFilepath(r)|;
    }
  }

  /** `list_files`: the file path `_relpath_to_filepath` gives, as written,
      for each stored `.json` path, in listing order (no files when the
      snapshot directory does not exist). */
  method ListFiles(relpaths: Option<seq<string>>) returns (files: seq<string>)
    ensures relpaths.None? ==> files == []
    ensures relpaths.Some? ==>
      |files| == |relpaths.value| &&
      forall i :: 0 <= i < |files| ==> files[i] == RelpathToFilepathAsWritten(relpaths.value[i])
  {
    if relpaths.None? {
      return [];
    }
    files := [];
    for i := 0 to |relpaths.value|
      invariant |files| == i && forall j :: 0 <= j < i ==> files[j] == RelpathToFilepathAsWritten(relpaths.value[j])
    {
      files := files + [RelpathToFilepathAsWritten(relpaths.value[i])];
    }
  }

  /** The snapshot of "/usr/bin/ls", stored as "usr/bin/ls.json", is listed
      as "/usr/bin/l". */
  lemma ListedExample()
    ensures RelpathToFilepathAsWritten("usr/bin/ls.json") == "/usr/bin/l"
  {
    RStripSetTail("usr/bin/l", "s.json", JsonChars);
    assert "usr/bin/l" + "s.json" == "usr/bin/ls.json";
  }

  // ---------------------------------------------------------------------
  // Reading the registry
  // ---------------------------------------------------------------------

  /** A `list_snapshots` entry. */
  datatype SnapshotInfo = SnapshotInfo(created: string, fileCount: int, description: string)

  /** The tab-separated fields of a registry line, or None for a line the
      readers skip: blank, a '#' comment, or fewer than three fields. */
  function RegistryFields(line: string): (r: Option<seq<string>>)
    ensures r.Some? ==> |r.value| >= 3
  {
    var t := Strip(line);
    if StartsWith(t, "#") || t == [] then None
    else
      var parts := SplitOn(t, '\t');
      if |parts| >= 3 then Some(parts) else None
  }

  /** The entry built from a line's fields; None when `int(parts[2])` raises. */
  function InfoOf(parts: seq<string>): Option<SnapshotInfo>
    requires |parts| >= 3
  {
    match ParseInt(parts[2])
    case None => None
    case Some(count) => Some(SnapshotInfo(parts[1], count, if |parts| > 3 then parts[3] else ""))
  }

  /** One registry line read into the `list_snapshots` result: a line whose
      count is not an integer raises ValueError, reported as Err; after an
      error nothing more is read. */
  function ReadInfoLine(prior: Result<Dict<SnapshotInfo>>, line: string): Result<Dict<SnapshotInfo>> {
    var fields := RegistryFields(line);
    if prior.Err? || fields.None? then prior
    else
      match InfoOf(fields.value)
      case None => Err("invalid literal for int() with base 10: " + fields.value[2])
      case Some(info) => Ok(Put(prior.value, fields.value[0], info))
  }

  /** The registry half of `list_snapshots` over `lines[..n]`. */
  function RegistryInfos(lines: seq<string>, n: nat): Result<Dict<SnapshotInfo>>
    requires n <= |lines|
  {
    if n == 0 then Ok([]) else ReadInfoLine(RegistryInfos(lines, n - 1), lines[n - 1])
  }

  /** The `entries` dict `_update_registry` (`drop` = None) and
      `_remove_from_registry` (`drop` = the name removed) read from `lines[..n]`:
      the fields of each kept line under its first field, a later line winning. */
  function RegistryEntries(lines: seq<string>, n: nat, drop: Option<string>): Dict<seq<string>>
    requires n <= |lines|
  {
    if n == 0 then []
    else
      var prior := RegistryEntries(lines, n - 1, drop);
      var fields := RegistryFields(lines[n - 1]);
      if fields.None? || Some(fields.value[0]) == drop then prior
      else Put(prior, fields.value[0], fields.value)
  }

  /** Every entry read holds at least three fields, the first being its key. */
  lemma {:induction false} RegistryEntriesShape(lines: seq<string>, n: nat, drop: Option<string>)
    requires n <= |lines|
    ensures forall i :: 0 <= i < |RegistryEntries(lines, n, drop)| ==>
      var (name, fields) := RegistryEntries(lines, n, drop)[i];
      |fields| >= 3 && fields[0] == name
  {
    if n > 0 {
      RegistryEntriesShape(lines, n - 1, drop);
      var fields := RegistryFields(lines[n - 1]);
      if fields.Some? && Some(fields.value[0]) != drop {
        PutEntries(RegistryEntries(lines, n - 1, drop), fields.value[0], fields.value);
      }
    }
  }

  /** Reading for removal gives what reading for an update gives, minus the removed name. */
  lemma {:induction false} RegistryEntriesDrop(lines: seq<string>, n: nat, name: string, k: string)
    requires n <= |lines|
    ensures Get(RegistryEntries(lines, n, Some(name)), k)
      == if k == name then None else Get(RegistryEntries(lines, n, None), k)
  {
    if n > 0 {
      RegistryEntriesDrop(lines, n - 1, name, k);
      var fields := RegistryFields(lines[n - 1]);
      if fields.Some? {
        PutGet(RegistryEntries(lines, n - 1, None), fields.value[0], fields.value, k);
        if fields.value[0] != name {
          PutGet(RegistryEntries(lines, n - 1, Some(name)), fields.value[0], fields.value, k);
        }
      }
    }
  }

  /** The lines `for line in f` yields from the registry text, or none when there is no file. */
  function RegistryLines(registry: Option<string>): seq<string> {
    if registry.Some? then Lines(registry.value, FileIteration) else []
  }

  /** The loop that reads the registry into `entries`. */
  method ReadEntries(registry: Option<string>, drop: Option<string>) returns (entries: Dict<seq<string>>)
    ensures var lines := RegistryLines(registry); entries == RegistryEntries(lines, |lines|, drop)
  {
    var lines := RegistryLines(registry);
    entries := [];
    for i := 0 to |lines|
      invariant entries == RegistryEntries(lines, i, drop)
    {
      entries := KeepLine(lines, i, drop, entries);
    }
  }

  /** The body of the reading loop for line `i`. */
  method KeepLine(lines: seq<string>, i: nat, drop: Option<string>, entries: Dict<seq<string>>) returns (next: Dict<seq<string>>)
    requires i < |lines| && entries == RegistryEntries(lines, i, drop)
    ensures next == RegistryEntries(lines, i + 1, drop)
  {
    next := entries;
    var fields := RegistryFields(lines[i]);
    if fields.Some? && Some(fields.value[0]) != drop {
      next := Put(entries, fields.value[0], fields.value);
    }
  }

  // ---------------------------------------------------------------------
  // `list_snapshots`
  // ---------------------------------------------------------------------

  /** An entry of the snapshots directory as `iterdir` shows it: its name,
      whether it is a directory, its mtime as an ISO string and its number of
      `.json` files. */
  datatype DirEntry = DirEntry(name: string, isDir: bool, mtime: string, jsonCount: nat)

  /** The directory half of `list_snapshots` over `dirs[..n]`: a directory is
      added only under a name not listed yet. */
  function AddDirectories(listed: Dict<SnapshotInfo>, dirs: seq<DirEntry>, n: nat): Dict<SnapshotInfo>
    requires n <= |dirs|
  {
    if n == 0 then listed
    else
      var prior := AddDirectories(listed, dirs, n - 1);
      var d := dirs[n - 1];
      if d.isDir && !HasKey(prior, d.name) then Put(prior, d.name, SnapshotInfo(d.mtime, d.jsonCount, "")) else prior
  }

  /** The first directory of `dirs[..n]` named `name`. */
  function FirstDirectory(dirs: seq<DirEntry>, n: nat, name: string): Option<DirEntry>
    requires n <= |dirs|
  {
    if n == 0 then None
    else
      var earlier := FirstDirectory(dirs, n - 1, name);
      if earlier.None? && dirs[n - 1].isDir && dirs[n - 1].name == name then Some(dirs[n - 1]) else earlier
  }

  /** A name the registry lists keeps its registry entry; any other name is
      taken from the first directory of that name, if there is one. */
  lemma {:induction false} AddDirectoriesGet(listed: Dict<SnapshotInfo>, dirs: seq<DirEntry>, n: nat, name: string)
    requires n <= |dirs|
    ensures HasKey(listed, name) ==> Get(AddDirectories(listed, dirs, n), name) == Get(listed, name)
    ensures !HasKey(listed, name) ==>
      Get(AddDirectories(listed, dirs, n), name)
      == match FirstDirectory(dirs, n, name)
         case None => None
         case Some(d) => Some(SnapshotInfo(d.mtime, d.jsonCount, ""))
  {
    GetFound(listed, name);
    if n > 0 {
      var prior := AddDirectories(listed, dirs, n - 1);
      var d := dirs[n - 1];
      AddDirectoriesGet(listed, dirs, n - 1, name);
      GetFound(prior, name);
      if d.isDir && !HasKey(prior, d.name) {
        PutGet(prior, d.name, SnapshotInfo(d.mtime, d.jsonCount, ""), name);
        GetFound(prior, d.name);
      }
    }
  }

  /** `list_snapshots` */
  method ListSnapshots(registry: Option<string>, dirs: Option<seq<DirEntry>>) returns (r: Result<Dict<SnapshotInfo>>)
    ensures var lines := RegistryLines(registry);
      RegistryInfos(lines, |lines|).Err? ==> r == RegistryInfos(lines, |lines|)
    ensures var lines := RegistryLines(registry);
      RegistryInfos(lines, |lines|).Ok? ==>
        var listed := RegistryInfos(lines, |lines|).value;
        r == Ok(if dirs.Some? then AddDirectories(listed, dirs.value, |dirs.value|) else listed)
  {
    var lines := RegistryLines(registry);
    r := ReadRegistry(lines);
    if r.Ok? && dirs.Some? {
      var snapshots := AddUnlistedDirectories(r.value, dirs.value);
      r := Ok(snapshots);
    }
  }

  /** The registry loop of `list_snapshots`: the lines read in order, the
      first line whose count is not an integer ending the call. */
  method ReadRegistry(lines: seq<string>) returns (r: Result<Dict<SnapshotInfo>>)
    ensures r == RegistryInfos(lines, |lines|)
  {
    var snapshots: Dict<SnapshotInfo> := [];
    for i := 0 to |lines|
      invariant RegistryInfos(lines, i) == Ok(snapshots)
    {
      var next := ReadLine(lines, i, snapshots);
      if next.Err? {
        return next;
      }
      snapshots := next.value;
    }
    r := Ok(snapshots);
  }

  /** The body of the registry loop for line `i`: an error it raises is the
      outcome of the whole loop. */
  method ReadLine(lines: seq<string>, i: nat, snapshots: Dict<SnapshotInfo>) returns (r: Result<Dict<SnapshotInfo>>)
    requires i < |lines| && RegistryInfos(lines, i) == Ok(snapshots)
    ensures r == ReadInfoLine(Ok(snapshots), lines[i])
    ensures r == RegistryInfos(lines, i + 1)
    ensures r.Err? ==> r == RegistryInfos(lines, |lines|)
  {
    var fields := RegistryFields(lines[i]);
    if fields.None? {
      return Ok(snapshots);
    }
    var info := InfoOf(fields.value);
    if info.None? {
      r := Err("invalid literal for int() with base 10: " + fields.value[2]);
      RegistryInfosErrSticks(lines, i + 1, |lines|);
      return;
    }
    r := Ok(Put(snapshots, fields.value[0], info.value));
  }

  /** The directory loop of `list_snapshots`. */
  method AddUnlistedDirectories(listed: Dict<SnapshotInfo>, dirs: seq<DirEntry>) returns (snapshots: Dict<SnapshotInfo>)
    ensures snapshots == AddDirectories(listed, dirs, |dirs|)
  {
    snapshots := listed;
    for j := 0 to |dirs|
      invariant snapshots == AddDirectories(listed, dirs, j)
    {
      var d := dirs[j];
      if d.isDir && !HasKey(snapshots, d.name) {
        snapshots := Put(snapshots, d.name, SnapshotInfo(d.mtime, d.jsonCount, ""));
      }
    }
  }

  /** Once a line raises, reading further lines keeps that error. */
  lemma {:induction false} RegistryInfosErrSticks(lines: seq<string>, m: nat, n: nat)
    requires m <= n <= |lines|
    requires RegistryInfos(lines, m).Err?
    ensures RegistryInfos(lines, n) == RegistryInfos(lines, m)
    decreases n
  {
    if n > m {
      RegistryInfosErrSticks(lines, m, n - 1);
    }
  }

  // ---------------------------------------------------------------------
  // Writing the registry
  // ---------------------------------------------------------------------

  const RegistryHeader: seq<string> := ["# XCOFF Scan Registry", "# NAME\tCREATED\tFILE_COUNT\tDESCRIPTION"]

  /** `s + "\n"` for each line, in order: what a sequence of `f.write(line + "\n")` produces. */
  function Unlines(lines: seq<string>): string {
    if lines == [] then [] else lines[0] + "\n" + Unlines(lines[1..])
  }

  lemma {:induction false} UnlinesSnoc(lines: seq<string>, line: string)
    ensures Unlines(lines + [line]) == Unlines(lines) + line + "\n"
  {
    if lines != [] {
      assert (lines + [line])[1..] == lines[1..] + [line];
      UnlinesSnoc(lines[1..], line);
    } else {
      assert [] + [line] == [line];
    }
  }

  /** Reading back what was written line by line gives the lines again. */
  lemma {:induction false} LinesOfUnlines(lines: seq<string>)
    requires forall i :: 0 <= i < |lines| ==> NoLineBreak(lines[i], FileIteration)
    ensures Lines(Unlines(lines), FileIteration) == lines
  {
    if lines != [] {
      LinesOfUnlines(lines[1..]);
      LinesCons(lines[0], Unlines(lines[1..]), FileIteration);
    }
  }

  /** The row `_write_registry` writes for one name. */
  function Row(entries: Dict<seq<string>>, name: string): string {
    match Get(entries, name)
    case None => ""
    case Some(fields) => Join(fields, "\t")
  }

  /** The rows of the first `n` names. */
  function Rows(entries: Dict<seq<string>>, names: seq<string>, n: nat): (r: seq<string>)
    requires n <= |names|
    ensures |r| == n && forall i :: 0 <= i < n ==> r[i] == Row(entries, names[i])
  {
    if n == 0 then [] else Rows(entries, names, n - 1) + [Row(entries, names[n - 1])]
  }

  /** The text `_write_registry` writes: two comment lines, then one row per
      entry in ascending name order. */
  function RegistryText(entries: Dict<seq<string>>): string {
    var names := SortedSet(Keys(entries));
    Unlines(RegistryHeader + Rows(entries, names, |names|))
  }

  lemma HeaderText(entries: Dict<seq<string>>, names: seq<string>)
    ensures Unlines(RegistryHeader + Rows(entries, names, 0)) == RegistryHeader[0] + "\n" + RegistryHeader[1] + "\n"
  {
    assert RegistryHeader + [] == RegistryHeader;
    assert RegistryHeader[1..][1..] == [];
  }

  lemma RowsSnoc(entries: Dict<seq<string>>, names: seq<string>, i: nat)
    requires i < |names|
    ensures Unlines(RegistryHeader + Rows(entries, names, i + 1))
      == Unlines(RegistryHeader + Rows(entries, names, i)) + Row(entries, names[i]) + "\n"
  {
    UnlinesSnoc(RegistryHeader + Rows(entries, names, i), Row(entries, names[i]));
    assert RegistryHeader + Rows(entries, names, i + 1) == RegistryHeader + Rows(entries, names, i) + [Row(entries, names[i])];
  }

  /** `_write_registry` */
  method WriteRegistry(entries: Dict<seq<string>>) returns (text: string)
    ensures text == RegistryText(entries)
  {
    var names := SortedSet(Keys(entries));
    SortedSetCorrect(Keys(entries));
    text := RegistryHeader[0] + "\n";
    text := text + RegistryHeader[1] + "\n";
    HeaderText(entries, names);
    for i := 0 to |names|
      invariant text == Unlines(RegistryHeader + Rows(entries, names, i))
    {
      GetFound(entries, names[i]);
      var row := Join(Get(entries, names[i]).value, "\t");
      RowsSnoc(entries, names, i);
      text := text + row + "\n";
    }
  }

  // ---------------------------------------------------------------------
  // `_update_registry` and `_remove_from_registry`
  // ---------------------------------------------------------------------

  /** The entries after `_update_registry`: an existing entry has only its
      count field replaced; a new name gets `[name, now, count, ""]`. */
  function Updated(entries: Dict<seq<string>>, name: string, now: string, fileCount: nat): Dict<seq<string>> {
    match Get(entries, name)
    case Some(fields) =>
      if |fields| >= 3 then Put(entries, name, fields[2 := NatToString(fileCount)]) else entries
    case None => Put(entries, name, [name, now, NatToString(fileCount), ""])
  }

  /** Updating touches only the stored name: an existing entry keeps every
      field but the count (so its creation time too), a new one is created
      now with an empty description, and either way the count is the new one. */
  lemma UpdatedGet(entries: Dict<seq<string>>, name: string, now: string, fileCount: nat, k: string)
    requires forall i :: 0 <= i < |entries| ==> |entries[i].1| >= 3
    ensures k != name ==> Get(Updated(entries, name, now, fileCount), k) == Get(entries, k)
    ensures Get(Updated(entries, name, now, fileCount), name).Some?
    ensures var fields := Get(Updated(entries, name, now, fileCount), name).value;
      |fields| >= 3 && fields[2] == NatToString(fileCount)
    ensures Get(entries, name).Some? ==>
      var before := Get(entries, name).value;
      var fields := Get(Updated(entries, name, now, fileCount), name).value;
      |fields| == |before| && forall i :: 0 <= i < |fields| && i != 2 ==> fields[i] == before[i]
    ensures Get(entries, name).None? ==>
      Get(Updated(entries, name, now, fileCount), name) == Some([name, now, NatToString(fileCount), ""])
  {
    GetFound(entries, name);
    match Get(entries, name)
    case Some(fields) =>
      var i :| 0 <= i < |entries| && entries[i] == (name, fields);
      PutGet(entries, name, fields[2 := NatToString(fileCount)], k);
      PutGet(entries, name, fields[2 := NatToString(fileCount)], name);
    case None =>
      PutGet(entries, name, [name, now, NatToString(fileCount), ""], k);
      PutGet(entries, name, [name, now, NatToString(fileCount), ""], name);
  }

  /** `_update_registry`: the registry text written after `name` was stored
      with `fileCount` files at time `now`. */
  method UpdateRegistry(registry: Option<string>, name: string, now: string, fileCount: nat) returns (text: string)
    ensures var lines := RegistryLines(registry);
      text == RegistryText(Updated(RegistryEntries(lines, |lines|, None), name, now, fileCount))
  {
    var entries := ReadEntries(registry, None);
    if HasKey(entries, name) {
      var fields := Get(entries, name).value by { GetFound(entries, name); }
      var lines := RegistryLines(registry);
      RegistryEntriesShape(lines, |lines|, None);
      GetFound(entries, name);
      entries := Put(entries, name, fields[2 := NatToString(fileCount)]);
    } else {
      GetFound(entries, name);
      entries := Put(entries, name, [name, now, NatToString(fileCount), ""]);
    }
    text := WriteRegistry(entries);
  }

  /** `_remove_from_registry`: None when there is no registry file (nothing is
      written), else the text written. */
  method RemoveFromRegistry(registry: Option<string>, name: string) returns (text: Option<string>)
    ensures registry.None? ==> text.None?
    ensures var lines := RegistryLines(registry);
      registry.Some? ==> text == Some(RegistryText(RegistryEntries(lines, |lines|, Some(name))))
  {
    if registry.None? {
      return None;
    }
    var entries := ReadEntries(registry, Some(name));
    var written := WriteRegistry(entries);
    text := Some(written);
  }

  // ---------------------------------------------------------------------
  // Reading back what was written
  // ---------------------------------------------------------------------

  /** A field that survives being written as part of a tab-separated line and
      read back: no tab, no line break, no whitespace at either end. */
  predicate CleanField(f: string) {
    '\t' !in f && NoLineBreak(f, FileIteration) && (f == [] || (!IsSpace(f[0]) && !IsSpace(f[|f| - 1])))
  }

  /** A registry entry as `_update_registry` writes one: name, creation time,
      an integer count and possibly a description, all clean. */
  predicate CleanEntry(name: string, fields: seq<string>) {
    && (|fields| == 3 || |fields| == 4)
    && fields[0] == name && name != [] && name[0] != '#'
    && ParseInt(fields[2]).Some? && fields[2] != []
    && forall i :: 0 <= i < |fields| ==> CleanField(fields[i])
  }

  /** What `list_snapshots` reports for a name of `entries`. */
  function EntryInfo(entries: Dict<seq<string>>, k: string): Option<SnapshotInfo> {
    match Get(entries, k)
    case Some(fields) => if |fields| >= 3 then InfoOf(fields) else None
    case None => None
  }

  function EntryInfoOf(entries: Dict<seq<string>>): string -> Option<SnapshotInfo> {
    k => EntryInfo(entries, k)
  }

  lemma {:induction false} JoinNoLineBreak(parts: seq<string>)
    requires forall i :: 0 <= i < |parts| ==> NoLineBreak(parts[i], FileIteration)
    ensures NoLineBreak(Join(parts, "\t"), FileIteration)
  {
    if |parts| > 1 {
      JoinNoLineBreak(parts[1..]);
      var rest := Join(parts[1..], "\t");
      assert Join(parts, "\t") == parts[0] + "\t" + rest;
      forall j | 0 <= j < |Join(parts, "\t")|
        ensures !IsLineBreak(Join(parts, "\t")[j], FileIteration)
      {
        if j > |parts[0]| {
          assert Join(parts, "\t")[j] == rest[j - |parts[0]| - 1];
        }
      }
    }
  }

  /** A joined line starts with its first field ... */
  lemma JoinFirst(parts: seq<string>, sep: string)
    requires |parts| >= 1
    ensures |Join(parts, sep)| >= |parts[0]| && Join(parts, sep)[..|parts[0]|] == parts[0]
  {
  }

  /** ... and ends with its last. */
  lemma {:induction false} JoinLast(parts: seq<string>, sep: string)
    requires |parts| >= 1
    ensures var j := Join(parts, sep); var p := parts[|parts| - 1];
      |j| >= |p| && j[|j| - |p|..] == p
  {
    if |parts| > 1 {
      JoinLast(parts[1..], sep);
      assert parts[1..][|parts| - 2] == parts[|parts| - 1];
    }
  }

  /** A joined line whose first and last fields are non-empty and clean has
      no whitespace at either end. */
  lemma JoinClean(parts: seq<string>, sep: string)
    requires |parts| >= 1 && CleanField(parts[0]) && CleanField(parts[|parts| - 1])
    requires parts[0] != [] && parts[|parts| - 1] != []
    ensures var j := Join(parts, sep); j != [] && !IsSpace(j[0]) && !IsSpace(j[|j| - 1])
  {
    JoinFirst(parts, sep);
    JoinLast(parts, sep);
    var j := Join(parts, sep);
    var p := parts[|parts| - 1];
    assert j[0] == j[..|parts[0]|][0];
    assert j[|j| - 1] == j[|j| - |p|..][|p| - 1];
  }

  /** `strip()` of a clean line followed by one whitespace character gives the line. */
  lemma StripTrailing(x: string, c: char)
    requires x != [] && !IsSpace(x[0]) && !IsSpace(x[|x| - 1]) && IsSpace(c)
    ensures Strip(x + [c]) == x
  {
    assert LStrip(x + [c]) == x + [c];
    assert (x + [c])[..|x|] == x;
    assert RStrip(x + [c]) == RStrip(x) == x;
  }

  /** A row whose last field is not empty reads back as all its fields. */
  lemma RowReadBackFull(fields: seq<string>)
    requires |fields| >= 1 && CleanEntry(fields[0], fields)
    requires fields[|fields| - 1] != []
    ensures RegistryFields(Join(fields, "\t")) == Some(fields)
  {
    var row := Join(fields, "\t");
    assert CleanField(fields[0]) && CleanField(fields[|fields| - 1]);
    JoinClean(fields, "\t");
    JoinFirst(fields, "\t");
    assert row[0] == fields[0][0];
    StripSpaceless(row);
    SplitJoin(fields, '\t');
  }

  /** A row ending in an empty description ends in a tab, which `strip()`
      removes: it reads back as its first three fields. */
  lemma RowReadBackTab(fields: seq<string>)
    requires |fields| >= 1 && CleanEntry(fields[0], fields)
    requires |fields| == 4 && fields[3] == []
    ensures RegistryFields(Join(fields, "\t")) == Some(fields[..3])
  {
    var firsts := fields[..3];
    assert fields == firsts + [fields[3]];
    JoinSnoc(firsts, fields[3], "\t");
    assert CleanField(firsts[0]) && CleanField(firsts[2]);
    JoinClean(firsts, "\t");
    JoinFirst(firsts, "\t");
    StripTrailing(Join(firsts, "\t"), '\t');
    assert Join(fields, "\t") == Join(firsts, "\t") + ['\t'];
    SplitJoin(firsts, '\t');
  }

  /** A written row reads back as its entry, with the description empty when
      the row ends in a tab. */
  lemma RowReadBack(fields: seq<string>)
    requires |fields| >= 1 && CleanEntry(fields[0], fields)
    ensures var r := RegistryFields(Join(fields, "\t"));
      r.Some? && |r.value| >= 3 && r.value[0] == fields[0] && InfoOf(r.value) == InfoOf(fields)
  {
    if |fields| == 4 && fields[3] == [] {
      RowReadBackTab(fields);
    } else {
      RowReadBackFull(fields);
    }
  }

  /** A line that starts with '#' is skipped. */
  lemma CommentSkipped(line: string)
    requires line != [] && line[0] == '#'
    ensures RegistryFields(line).None?
  {
    assert LStrip(line) == line;
    RStripRemovesSpace(line);
  }

  lemma HeaderNoLineBreak()
    ensures NoLineBreak(RegistryHeader[0], FileIteration) && NoLineBreak(RegistryHeader[1], FileIteration)
  {
  }

  /** Every name of clean entries has a clean entry. */
  lemma CleanGet(entries: Dict<seq<string>>, k: string)
    requires forall i :: 0 <= i < |entries| ==> CleanEntry(entries[i].0, entries[i].1)
    requires k in Keys(entries)
    ensures Get(entries, k).Some? && CleanEntry(k, Get(entries, k).value)
  {
    GetFound(entries, k);
    var m :| 0 <= m < |entries| && entries[m] == (k, Get(entries, k).value);
  }

  lemma AllNoLineBreakConcat(a: seq<string>, b: seq<string>)
    requires forall i :: 0 <= i < |a| ==> NoLineBreak(a[i], FileIteration)
    requires forall i :: 0 <= i < |b| ==> NoLineBreak(b[i], FileIteration)
    ensures forall i :: 0 <= i < |a + b| ==> NoLineBreak((a + b)[i], FileIteration)
  {
    forall i | |a| <= i < |a + b| ensures NoLineBreak((a + b)[i], FileIteration) {
      assert (a + b)[i] == b[i - |a|];
    }
  }

  /** The row of a clean entry's name is one line. */
  lemma RowNoLineBreak(entries: Dict<seq<string>>, k: string)
    requires forall i :: 0 <= i < |entries| ==> CleanEntry(entries[i].0, entries[i].1)
    requires k in Keys(entries)
    ensures NoLineBreak(Row(entries, k), FileIteration)
  {
    CleanGet(entries, k);
    JoinNoLineBreak(Get(entries, k).value);
  }

  /** The lines of the written registry are its two comment lines and its rows. */
  lemma RegistryTextLines(entries: Dict<seq<string>>)
    requires forall i :: 0 <= i < |entries| ==> CleanEntry(entries[i].0, entries[i].1)
    ensures var names := SortedSet(Keys(entries));
      Lines(RegistryText(entries), FileIteration) == RegistryHeader + Rows(entries, names, |names|)
  {
    var names := SortedSet(Keys(entries));
    var rows := Rows(entries, names, |names|);
    var lines := RegistryHeader + rows;
    HeaderNoLineBreak();
    SortedSetCorrect(Keys(entries));
    forall i | 0 <= i < |names| ensures NoLineBreak(rows[i], FileIteration) {
      RowNoLineBreak(entries, names[i]);
    }
    AllNoLineBreakConcat(RegistryHeader, rows);
    LinesOfUnlines(lines);
  }

  /** Reading the row of a written name adds that name's entry. */
  lemma ReadRow(d: Dict<SnapshotInfo>, entries: Dict<seq<string>>, k: string)
    requires forall i :: 0 <= i < |entries| ==> CleanEntry(entries[i].0, entries[i].1)
    requires k in Keys(entries)
    ensures EntryInfo(entries, k).Some?
    ensures ReadInfoLine(Ok(d), Row(entries, k)) == Ok(Put(d, k, EntryInfo(entries, k).value))
  {
    CleanGet(entries, k);
    RowReadBack(Get(entries, k).value);
  }

  /** The two comment lines read as nothing. */
  lemma ReadBackHeader(lines: seq<string>)
    requires |lines| >= 2
    requires lines[0] != [] && lines[0][0] == '#' && lines[1] != [] && lines[1][0] == '#'
    ensures RegistryInfos(lines, 2) == Ok([])
  {
    CommentSkipped(lines[0]);
    CommentSkipped(lines[1]);
    assert RegistryInfos(lines, 1) == Ok([]);
  }

  /** Row `i`, read after the rows before it, adds the entry of name `i`. */
  predicate RowAdds(names: seq<string>, lines: seq<string>, i: nat, f: string -> Option<SnapshotInfo>)
    requires i < |names| && |lines| == 2 + |names|
  {
    var prior := Gather(names, i, f, []);
    f(names[i]).Some? && ReadInfoLine(Ok(prior), lines[2 + i]) == Ok(Put(prior, names[i], f(names[i]).value))
  }

  /** Reading the first `j` rows after the two comment lines gives the
      entries of the first `j` names, when each row, read after the rows
      before it, adds its name's entry. */
  lemma {:induction false} ReadBackRows(names: seq<string>, lines: seq<string>, j: nat, f: string -> Option<SnapshotInfo>)
    requires |lines| == 2 + |names| && j <= |names|
    requires lines[0] != [] && lines[0][0] == '#' && lines[1] != [] && lines[1][0] == '#'
    requires forall i :: 0 <= i < |names| ==> RowAdds(names, lines, i, f)
    ensures RegistryInfos(lines, 2 + j) == Ok(Gather(names, j, f, []))
  {
    if j == 0 {
      ReadBackHeader(lines);
    } else {
      ReadBackRows(names, lines, j - 1, f);
      assert RowAdds(names, lines, j - 1, f);
      GatherStep(names, j - 1, f, []);
    }
  }

  /** Each written row adds the entry of its name. */
  lemma WrittenRowsAdd(entries: Dict<seq<string>>, names: seq<string>, lines: seq<string>)
    requires forall i :: 0 <= i < |entries| ==> CleanEntry(entries[i].0, entries[i].1)
    requires forall x :: x in names ==> x in Keys(entries)
    requires |lines| == 2 + |names|
    requires forall i :: 0 <= i < |names| ==> lines[2 + i] == Row(entries, names[i])
    ensures forall i :: 0 <= i < |names| ==> RowAdds(names, lines, i, EntryInfoOf(entries))
  {
    var f := EntryInfoOf(entries);
    forall i | 0 <= i < |names| ensures RowAdds(names, lines, i, f) {
      var prior := Gather(names, i, f, []);
      ReadRow(prior, entries, names[i]);
      assert f(names[i]) == EntryInfo(entries, names[i]);
    }
  }

  /** After all rows are read, each name has the entry it was written with. */
  lemma ReadBackGet(entries: Dict<seq<string>>, names: seq<string>, lines: seq<string>, k: string)
    requires forall i :: 0 <= i < |entries| ==> CleanEntry(entries[i].0, entries[i].1)
    requires forall x :: x in names <==> x in Keys(entries)
    requires |lines| == 2 + |names|
    requires lines[0] != [] && lines[0][0] == '#' && lines[1] != [] && lines[1][0] == '#'
    requires forall i :: 0 <= i < |names| ==> lines[2 + i] == Row(entries, names[i])
    ensures RegistryInfos(lines, |lines|).Ok?
    ensures Get(RegistryInfos(lines, |lines|).value, k) == EntryInfo(entries, k)
  {
    var f := EntryInfoOf(entries);
    WrittenRowsAdd(entries, names, lines);
    ReadBackRows(names, lines, |names|, f);
    GatherGet(names, |names|, f, [], k);
    assert names[..|names|] == names;
    GetFound(entries, k);
  }

  /** What `_write_registry` writes, `list_snapshots` reads back: every name
      written, and no other, is listed with its creation time, count and
      description. */
  lemma RegistryRoundTrip(entries: Dict<seq<string>>)
    requires forall i :: 0 <= i < |entries| ==> CleanEntry(entries[i].0, entries[i].1)
    ensures var lines := Lines(RegistryText(entries), FileIteration);
      var r := RegistryInfos(lines, |lines|);
      r.Ok? && forall k :: Get(r.value, k) == EntryInfo(entries, k)
  {
    var names := SortedSet(Keys(entries));
    var rows := Rows(entries, names, |names|);
    var lines := Lines(RegistryText(entries), FileIteration);
    RegistryTextLines(entries);
    assert lines == RegistryHeader + rows;
    assert lines[0][0] == '#' && lines[1][0] == '#';
    assert forall i :: 0 <= i < |names| ==> lines[2 + i] == rows[i];
    SortedSetCorrect(Keys(entries));
    ReadBackGet(entries, names, lines, "");
    forall k ensures Get(RegistryInfos(lines, |lines|).value, k) == EntryInfo(entries, k) {
      ReadBackGet(entries, names, lines, k);
    }
  }

  /** A written count is clean and reads back as itself. */
  lemma CountClean(n: nat)
    ensures CleanField(NatToString(n)) && ParseInt(NatToString(n)) == Some(n)
  {
    ParseIntOfIntToString(n);
    var s := NatToString(n);
    assert forall j :: 0 <= j < |s| ==> IsDigit(s[j]) && s[j] != '\t';
  }

  /** Updating clean entries with a clean name and time keeps them clean. */
  lemma UpdatedClean(entries: Dict<seq<string>>, name: string, now: string, fileCount: nat)
    requires forall i :: 0 <= i < |entries| ==> CleanEntry(entries[i].0, entries[i].1)
    requires name != [] && name[0] != '#' && CleanField(name) && CleanField(now)
    ensures var u := Updated(entries, name, now, fileCount);
      forall i :: 0 <= i < |u| ==> CleanEntry(u[i].0, u[i].1)
  {
    var count := NatToString(fileCount);
    CountClean(fileCount);
    GetFound(entries, name);
    var fields :=
      if Get(entries, name).Some? then Get(entries, name).value[2 := count] else [name, now, count, ""];
    if Get(entries, name).Some? {
      CleanGet(entries, name);
    }
    assert CleanEntry(name, fields);
    assert Updated(entries, name, now, fileCount) == Put(entries, name, fields);
    PutEntries(entries, name, fields);
    forall i | 0 <= i < |Put(entries, name, fields)|
      ensures CleanEntry(Put(entries, name, fields)[i].0, Put(entries, name, fields)[i].1)
    {
      if Put(entries, name, fields)[i] != (name, fields) {
        var m :| 0 <= m < |entries| && entries[m] == Put(entries, name, fields)[i];
      }
    }
  }

  /** What listing reports for each name after an update. */
  lemma UpdatedInfo(entries: Dict<seq<string>>, name: string, now: string, fileCount: nat, k: string)
    requires forall i :: 0 <= i < |entries| ==> CleanEntry(entries[i].0, entries[i].1)
    ensures var info := EntryInfo(Updated(entries, name, now, fileCount), k);
      && (k != name ==> info == EntryInfo(entries, k))
      && (Get(entries, name).None? ==> EntryInfo(Updated(entries, name, now, fileCount), name) == Some(SnapshotInfo(now, fileCount, "")))
      && (Get(entries, name).Some? ==>
            var before := Get(entries, name).value;
            |before| >= 3 &&
            EntryInfo(Updated(entries, name, now, fileCount), name)
            == Some(SnapshotInfo(before[1], fileCount, if |before| > 3 then before[3] else "")))
  {
    CleanFieldCounts(entries);
    UpdatedGet(entries, name, now, fileCount, k);
    if Get(entries, name).Some? {
      UpdatedInfoExisting(entries, name, now, fileCount);
    } else {
      UpdatedInfoNew(entries, name, now, fileCount);
    }
  }

  lemma CleanFieldCounts(entries: Dict<seq<string>>)
    requires forall i :: 0 <= i < |entries| ==> CleanEntry(entries[i].0, entries[i].1)
    ensures forall i :: 0 <= i < |entries| ==> |entries[i].1| >= 3
  {
  }

  lemma UpdatedInfoNew(entries: Dict<seq<string>>, name: string, now: string, fileCount: nat)
    requires forall i :: 0 <= i < |entries| ==> CleanEntry(entries[i].0, entries[i].1)
    requires Get(entries, name).None?
    ensures EntryInfo(Updated(entries, name, now, fileCount), name) == Some(SnapshotInfo(now, fileCount, ""))
  {
    CleanFieldCounts(entries);
    CountClean(fileCount);
    UpdatedGet(entries, name, now, fileCount, name);
  }

  lemma UpdatedInfoExisting(entries: Dict<seq<string>>, name: string, now: string, fileCount: nat)
    requires forall i :: 0 <= i < |entries| ==> CleanEntry(entries[i].0, entries[i].1)
    requires Get(entries, name).Some?
    ensures var before := Get(entries, name).value;
      |before| >= 3 &&
      EntryInfo(Updated(entries, name, now, fileCount), name)
      == Some(SnapshotInfo(before[1], fileCount, if |before| > 3 then before[3] else ""))
  {
    CleanFieldCounts(entries);
    CountClean(fileCount);
    GetFound(entries, name);
    CleanGet(entries, name);
    UpdatedGet(entries, name, now, fileCount, name);
    var before := Get(entries, name).value;
    var fields := Get(Updated(entries, name, now, fileCount), name).value;
    assert fields[1] == before[1];
    assert |fields| > 3 ==> fields[3] == before[3];
  }

  /** Storing a snapshot and then listing snapshots shows it with its new file
      count, keeping the creation time and description it was registered
      with, or created now with no description; every other name is listed as
      before. */
  lemma StoreThenList(entries: Dict<seq<string>>, name: string, now: string, fileCount: nat, k: string)
    requires forall i :: 0 <= i < |entries| ==> CleanEntry(entries[i].0, entries[i].1)
    requires name != [] && name[0] != '#' && CleanField(name) && CleanField(now)
    ensures var lines := Lines(RegistryText(Updated(entries, name, now, fileCount)), FileIteration);
      RegistryInfos(lines, |lines|).Ok?
    ensures var lines := Lines(RegistryText(Updated(entries, name, now, fileCount)), FileIteration);
      var listed := RegistryInfos(lines, |lines|).value;
      && (k != name ==> Get(listed, k) == EntryInfo(entries, k))
      && (Get(entries, name).None? ==> Get(listed, name) == Some(SnapshotInfo(now, fileCount, "")))
      && (Get(entries, name).Some? ==>
            var before := Get(entries, name).value;
            |before| >= 3 &&
            Get(listed, name) == Some(SnapshotInfo(before[1], fileCount, if |before| > 3 then before[3] else "")))
  {
    UpdatedClean(entries, name, now, fileCount);
    RegistryRoundTrip(Updated(entries, name, now, fileCount));
    UpdatedInfo(entries, name, now, fileCount, k);
  }
}
