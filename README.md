# XCOFF snapshot tools and AIX group test utilities, in Dafny

This project models the computational core of a repository of AIX and IBM i
tooling and proves properties of it.

**The XCOFF snapshot tool** is the Python package `tools/xcoff_tool`. It
records what the AIX inspection commands `what`, `dump -h` and `dump -Tv`
report about binaries, stores these snapshots as JSON under a database
directory, and compares two snapshots.
- `validator.dfy`: `XCOFFValidator`, which classifies a file from its first
  20 bytes as an `!<arch>` archive, a 32-bit XCOFF object or a 64-bit one,
  and checks bounds on the decoded file header.
- `snapshot.dfy`: the result and snapshot records, and the `to_dict`/`from_dict`
  serialiser pair.
- `capture.dfy`: `SnapshotManager.capture`, which selects the analyzers and
  isolates their failures.
- `comparison.dfy`: `ComparisonEngine` with its per-analyzer diffs and summary.
- `analyzers.dfy`: the three analyzers' output parsers and their registry.
- `storage.dfy`: the path mapping and the tab-separated snapshot registry.
- `output.dfy`: the text formatters and the shapes of the JSON formatters.
- `cli.dfy`: the command-line exit-code and classification rules.
- `legacy_snapshot.dfy` and `legacy_compare.dfy`: the older stand-alone tool
  `tools/xcoff_snapshot.py`, with its stateful `XCOFFSnapshot` and `XCOFFCompare`
  classes.
- `collections.dfy` and `text.dfy`: Python dictionaries, `sorted` sets and the
  string methods the tools rely on.

**The C utilities** exercise AIX group lookups; two more list IBM i PTFs and write test files.
- `guarded_buffer.dfy`: the guarded buffers of `getgrent_buffer_stress_test.c`.
  Each is a 64-byte head guard, the user buffer and a 256-byte tail guard,
  and the file also has pointer validation and progressive buffer sizing.
  `getgrent_test_suite.c` carries a copy of the same guard code, which this
  module models once.
- `group_lookup.dfy`: the `getgrnam_r` answers as the tests see them, the
  shared progressive-sizing loop, and the `size_t` conversion of a size
  argument.
- `sec_list.dfy`: the NUL-separated SEC_LIST format.
- `test_suite.dfy`: `getgrent_test_suite.c`.
- `getgrent_test.dfy`: `getgrent_test.c`.
- `create_groups.dfy`: `create_test_groups.c`.
- `listptf.dfy`: `listptf.c`, the IBM i PTF lister with its SQL WHERE clause.
- `writefile.dfy`: `writefile.c`, with its size parser and pattern-writing loop.

The model takes the source's form:
- Stateful Python objects are classes whose methods update their fields.
- C code that works on byte buffers keeps its arrays and loops, each proved
  against a specification function.
- Pure conversions are functions with lemmas.

Everything outside the program is a parameter of the model: subprocesses, the
file system, the clock, the environment and the AIX user and group database.

Python leaves set iteration order open. Wherever the source turns a set into
a list or loops over one, the model uses ascending string order.

## Model

| member | source | states |
|---|---|---|
| Validator.DecodeEncode | tools/xcoff_tool/core.py:166-168 | unpacking the 20 header bytes as big-endian u16,u16,u32,u32,u32,u16,u16 gives back every field of a header laid out that way |
| Validator.Problems | tools/xcoff_tool/core.py:181-187 | no failure message exactly when nscns ≤ 1000, symptr is 0 or ≤ file_size, and opthdr ≤ 1024; the section-count message comes first and the optional-header message last |
| Validator.ValidateXcoff | tools/xcoff_tool/core.py:164-203 | valid iff the decoded header passes the bounds; the file type is always returned; the error is the messages joined with "; "; the details always hold the decoded fields |
| Validator.Validate | tools/xcoff_tool/core.py:108-162 | missing, unreadable and short (< 20 bytes, with file_size in details) files are invalid; `!<arch>\n` is an archive before any magic test; 0x01DF gives xcoff32 and 0x01F7 xcoff64, each valid iff the 32-bit header bounds hold; any other magic is "Invalid magic: 0x%04X"; a valid result is always archive, xcoff32 or xcoff64 |
| Validator.ArchiveIsNotXcoff | tools/xcoff_tool/core.py:136-146 | the archive magic read as a big-endian u16 is neither XCOFF magic, so testing it first hides no object file |
| Snapshots.Failure | tools/xcoff_tool/core.py:25-32 | a failed result carries the message, success False, an empty data dict and truncated False |
| Snapshots.ResultFromDoc | tools/xcoff_tool/core.py:70-78 | a results entry read back takes its map key as analyzer name, and False, {} and False for a missing success, data and truncated |
| Snapshots.ResultsToDocs | tools/xcoff_tool/core.py:56-64 | the stored results object has exactly the keys of the snapshot's results, in the same order |
| Snapshots.ToDict | tools/xcoff_tool/core.py:46-65 | the document always carries version "1.0", the four required keys and a results object keyed like the snapshot |
| Snapshots.FromDict | tools/xcoff_tool/core.py:67-88 | reading succeeds iff filepath, timestamp, file_size and file_mtime are present (a missing one is the KeyError); file_type defaults to "unknown" and name is copied |
| Snapshots.RoundTripStep | tools/xcoff_tool/core.py:56-78 | storing and reading back a results dict re-assigns its last entry after the others |
| Snapshots.ResultsRoundTrip | tools/xcoff_tool/core.py:56-78 | a results dict with distinct keys, each result stored under its own analyzer name, reads back unchanged |
| Snapshots.RoundTrip | tools/xcoff_tool/core.py:46-88 | `from_dict(to_dict(s))` equals `s` whenever each result's analyzer_name equals its key |
| Capture.RequestedNamesMeaning | tools/xcoff_tool/core.py:240-241 | the requested selection holds exactly the registered names that were requested, each once |
| Capture.SelectedMeaning | tools/xcoff_tool/core.py:240-246 | an analyzer runs iff it is registered, requested (or nothing was requested) and not excluded; none runs twice |
| Capture.StoredResult | tools/xcoff_tool/core.py:253-261 | an exception from `analyze` is stored as success False with the exception text and the analyzer's name |
| Capture.CapturedResultsKeys | tools/xcoff_tool/core.py:249-261 | every selected analyzer gets exactly one results entry, in the order they ran |
| Capture.CapturedResultsValues | tools/xcoff_tool/core.py:253-261 | each entry is what its analyzer returned, or the failure for the exception it raised; unselected names have no entry |
| Capture.CaptureSnapshot | tools/xcoff_tool/core.py:213-263 | the loop keeps running after a failing analyzer; the snapshot holds the resolved path, the time, the stat values, the validator's file type or "unknown", no name, and one entry per selected analyzer |
| Capture.CapturedSnapshotRoundTrip | tools/xcoff_tool/core.py:46-88 | a captured snapshot survives `to_dict`/`from_dict` unchanged when each analyzer names its result after itself (the snapshot built at lines 249-261) |
| Comparison.DifferenceMeaning | tools/xcoff_tool/core.py:330-331 | the listed set difference holds exactly the elements of the first list missing from the second, each once, in ascending order |
| Comparison.DifferenceEmpty | tools/xcoff_tool/core.py:333 | a difference is empty exactly when the first set is contained in the second |
| Comparison.UnionMeaning | tools/xcoff_tool/core.py:282 | the union lists every name of either side exactly once (the same union is taken at line 349) |
| Comparison.DiffWhatMeaning | tools/xcoff_tool/core.py:326-340 | a "what" diff is recorded iff the string sets differ; added = new∖old, removed = old∖new, unchanged = \|old∩new\| |
| Comparison.SectionMapGet | tools/xcoff_tool/core.py:344-345 | the name-keyed section map finds the last section of each name |
| Comparison.ChangeFor | tools/xcoff_tool/core.py:352-359 | nothing is recorded for a name iff both maps hold the same section; otherwise added (only new), removed (only old) or modified (old and new) |
| Comparison.SectionChangesGet | tools/xcoff_tool/core.py:347-359 | every name maps to what changed about its section, and no other name is recorded |
| Comparison.DiffSectionsMeaning | tools/xcoff_tool/core.py:342-361 | a "dump-h" diff is recorded iff some name looks up a different section; each recorded change is that name's change |
| Comparison.ImportNames | tools/xcoff_tool/core.py:365-366 | the import names, one per import, in order |
| Comparison.ExportNames | tools/xcoff_tool/core.py:367-368 | the export names, one per export, in order |
| Comparison.NameSetChangeMeaning | tools/xcoff_tool/core.py:372-382 | a group is recorded iff its name sets differ; it lists exactly the added and the removed names, at least one of them |
| Comparison.DiffLoader | tools/xcoff_tool/core.py:363-384 | a "dump-T" diff is recorded iff the import or the export name sets differ, so counts, raw text and order are ignored |
| Comparison.DiffsGet | tools/xcoff_tool/core.py:269-298 | an analyzer only the second snapshot has is "added", only the first "removed"; data equal as Python dicts (generic entries in any order) records nothing; differing data records the analyzer-specific diff; "_metadata" records the size change |
| Collections.SameDictMeaning | tools/xcoff_tool/core.py:321 | two dicts are equal, as Python's `!=` tests them, iff every key looks up the same value in both, whatever the order of their entries |
| Comparison.SameDataMeaning | tools/xcoff_tool/core.py:294 | identical data is equal data, and two generic data dicts are equal iff every key looks up the same value in both |
| Comparison.ReorderedDataSame | tools/xcoff_tool/core.py:294 | two results whose generic data dicts hold the same two entries in opposite order record no difference |
| Comparison.CompareRecaptured | tools/xcoff_tool/core.py:269-298 | two snapshots with the same results and file size record no differences, whatever their path, capture time, mtime, file type or name |
| Comparison.CompareSelf | tools/xcoff_tool/core.py:269-298 | comparing a snapshot with itself records no differences |
| Comparison.Part | tools/xcoff_tool/core.py:393-402 | the metadata part is "file size changed"; every other part starts with the analyzer name and ':' |
| Comparison.SummaryParts | tools/xcoff_tool/core.py:392-402 | one summary part per diffs entry, in order |
| Comparison.JoinedPartsDiffer | tools/xcoff_tool/core.py:404 | the parts joined with "; " can never read "No differences" |
| Comparison.SummaryNoDifferences | tools/xcoff_tool/core.py:386-404 | the summary is "No differences" iff the diffs map is empty |
| Comparison.BuildSummary | tools/xcoff_tool/core.py:386-404 | the loop builds the summary of the diffs map |
| Comparison.CollectDiffs | tools/xcoff_tool/core.py:284-298 | the loop stores, name by name, exactly the entry the loop body records for that name on top of the `_metadata` entry, and the flag is raised exactly when the dict is non-empty |
| Comparison.Compare | tools/xcoff_tool/core.py:269-308 | the result carries both paths and the diffs map; has_differences iff the map is non-empty; the summary is built from the map |
| Comparison.CompareFlagAndSummary | tools/xcoff_tool/core.py:269-308 | has_differences is true exactly when the summary is not "No differences" (the summary text of lines 386-391) |
| Analyzers.KeptLinesMembers | tools/xcoff_tool/analyzers.py:112-120 | a string is reported iff it is the stripped form of some line and is non-empty and does not end with ':' |
| Analyzers.KeptLinesShape | tools/xcoff_tool/analyzers.py:115-118 | every reported string is non-empty and has no leading or trailing whitespace |
| Analyzers.KeptLinesBound | tools/xcoff_tool/analyzers.py:112-120 | at most one string is reported per line |
| Analyzers.ParseWhatOutput | tools/xcoff_tool/analyzers.py:112-120 | the loop returns the kept stripped lines, in order |
| Analyzers.CommandError | tools/xcoff_tool/analyzers.py:85 | the error is the stripped stderr, or "Exit code N" when that is empty (likewise at lines 147 and 272) |
| Analyzers.AnalyzeWhat | tools/xcoff_tool/analyzers.py:76-110 | fails only on a non-zero exit with empty stdout; a timeout or an exception becomes a failed result; on success count equals the number of strings |
| Analyzers.OptionalField | tools/xcoff_tool/analyzers.py:206-215 | a field is set exactly when its token exists |
| Analyzers.SectionRow | tools/xcoff_tool/analyzers.py:201-217 | a line is a section iff it has ≥ 2 tokens and the first is all digits; size/vma/lma/file_offset are set iff 3/4/5/6 tokens exist |
| Analyzers.TableRow | tools/xcoff_tool/analyzers.py:183-217 | a stripped line records a section iff it is non-empty, is not a header line, comes after a header line, and is a section row |
| Analyzers.NoHeaderNoSections | tools/xcoff_tool/analyzers.py:190-198 | nothing is recorded before a line containing both "Idx" and "Name" |
| Analyzers.InTableMeaning | tools/xcoff_tool/analyzers.py:190-193 | the in-table flag is up iff some earlier line holds both "Idx" and "Name" |
| Analyzers.RowsFollowHeader | tools/xcoff_tool/analyzers.py:190-217 | every recorded section comes from a line after a header line |
| Analyzers.RunEndMeaning | tools/xcoff_tool/analyzers.py:232 | a greedy run such as `\s*`, `\d+` or `[0-9a-fA-Fx]+` takes only characters of its class and stops before the first one outside it |
| Analyzers.Greedy | tools/xcoff_tool/analyzers.py:232 | a match of the pattern has one end per piece and takes at least as many characters as the pieces demand |
| Analyzers.GreedySound | tools/xcoff_tool/analyzers.py:232 | what the matcher finds is a reading of the pattern: each piece spans exactly its characters, as far as its class goes |
| Analyzers.GreedyComplete | tools/xcoff_tool/analyzers.py:232 | any reading of the pattern at a position is the one the matcher finds there, so the pattern matches exactly where a reading exists |
| Analyzers.ScanMatches | tools/xcoff_tool/analyzers.py:236 | every match `finditer` reports under `re.MULTILINE` starts at the start of the output or just after a '\n', and is the pattern's match there |
| Analyzers.ScanOrdered | tools/xcoff_tool/analyzers.py:236 | each reported match ends before any later one starts, since the search resumes where a match ended |
| Analyzers.ScanComplete | tools/xcoff_tool/analyzers.py:236 | every line start where the pattern reads is the start of a reported match or lies inside one that began earlier and ran across the line break |
| Analyzers.AixReads | tools/xcoff_tool/analyzers.py:231-234 | nine pieces that each span their characters (`\s*`, `\d+`, `\s+`, an optional '.', `\w+`, `\s+`, a hex-ish run, `\s+`, a hex-ish run) are the pattern's match |
| Analyzers.AixFacts | tools/xcoff_tool/analyzers.py:231-234 | a match has its nine ends in order and its first group all digits, so `int(match.group(1))` is defined |
| Analyzers.AixSectionsFromStep | tools/xcoff_tool/analyzers.py:236-243 | a match at a line start appends the section with the index, name, size and address groups and the search resumes at its end; otherwise it moves one character on |
| Analyzers.AixAcrossLines | tools/xcoff_tool/analyzers.py:231-236 | since `\s` takes '\n', "1 .text\n0x10 0x20" gives one section whose size and address come from the second line |
| Analyzers.AixRowSwallowed | tools/xcoff_tool/analyzers.py:231-236 | a match that runs into the next line hides that line's own row: "1 .text\n0x10\n2 .data 0x20 0x30" gives one section, with address "2" |
| Analyzers.ParseSectionTable | tools/xcoff_tool/analyzers.py:175-217 | the loop returns the table sections, in order |
| Analyzers.ParseAixFormat | tools/xcoff_tool/analyzers.py:225-245 | the loop returns the sections of the `finditer` matches over the whole output, in order |
| Analyzers.ParseDumpH | tools/xcoff_tool/analyzers.py:219-223 | the AIX fallback runs only when the table gave no sections |
| Analyzers.AnalyzeDumpH | tools/xcoff_tool/analyzers.py:138-173 | fails on any non-zero exit with the stripped stderr or "Exit code N"; on success count equals the number of sections and raw is stdout |
| Analyzers.LastCandidateMeaning | tools/xcoff_tool/analyzers.py:344-359 | the backwards search finds the last name candidate, or None when there is none |
| Analyzers.ExtractSymbolNameMeaning | tools/xcoff_tool/analyzers.py:344-359 | the name is the last token that is not IMP/EXP/EXTref/SECdef/DS, not "0x"- or "["-prefixed, not all digits and not "."-prefixed; None if no token qualifies |
| Analyzers.FirstAddressMeaning | tools/xcoff_tool/analyzers.py:361-366 | the forward search finds the first "0x" token from a position on |
| Analyzers.ExtractAddressMeaning | tools/xcoff_tool/analyzers.py:361-366 | the address is the first "0x"-prefixed token, or None |
| Analyzers.LoaderEntriesBounded | tools/xcoff_tool/analyzers.py:312-340 | no line is both an import and an export, so together they number at most the lines |
| Analyzers.ClassifyLoaderLineMeaning | tools/xcoff_tool/analyzers.py:314-338 | a stripped line is an import iff it has ≥ 4 tokens, holds "IMP" or "EXTref" and has a name candidate; an export iff it has ≥ 4 tokens, holds neither of those but "EXP" or "SECdef", and has a name candidate; the entry keeps the line as raw, names the last candidate and, for an export, takes the first "0x" token as address |
| Analyzers.LoaderEntriesFromMarkedLines | tools/xcoff_tool/analyzers.py:316-340 | every import comes from a line of ≥ 4 tokens containing "IMP" or "EXTref"; every export from one of ≥ 4 tokens containing "EXP" or "SECdef" and neither of those; each names a candidate token of its line |
| Analyzers.ImportsInExact | tools/xcoff_tool/analyzers.py:307-330 | an import is collected iff some line is classified as that import |
| Analyzers.ExportsInExact | tools/xcoff_tool/analyzers.py:307-340 | an export is collected iff some line is classified as that export |
| Analyzers.LoaderImportsExact | tools/xcoff_tool/analyzers.py:307-330 | the imports of the output are exactly the entries of its stripped lines classified as imports |
| Analyzers.LoaderExportsExact | tools/xcoff_tool/analyzers.py:307-340 | the exports of the output are exactly the entries of its stripped lines classified as exports |
| Analyzers.EntriesInBounded | tools/xcoff_tool/analyzers.py:320-340 | a line gives at most one entry, import or export |
| Analyzers.ParseLoaderLine | tools/xcoff_tool/analyzers.py:307-340 | one loop step classifies a stripped line as import, export or nothing |
| Analyzers.LoaderStep | tools/xcoff_tool/analyzers.py:307-340 | one more line extends the imports or the exports by exactly what it contributes |
| Analyzers.ParseLoaderOutput | tools/xcoff_tool/analyzers.py:302-342 | the loop returns the imports and the exports of the output, in order |
| Analyzers.AnalyzeDumpT | tools/xcoff_tool/analyzers.py:262-300 | fails on any non-zero exit; on success import_count and export_count equal the list lengths and raw is stdout |
| Analyzers.MissingCommandsMeaning | tools/xcoff_tool/analyzers.py:41-47 | a command is reported iff it is required and not found, so at most the required ones are |
| Analyzers.CheckRequirements | tools/xcoff_tool/analyzers.py:41-47 | the loop returns the missing commands in declaration order |
| Analyzers.Registry.constructor | tools/xcoff_tool/analyzers.py:370 | the registry starts empty |
| Analyzers.Registry.Register | tools/xcoff_tool/analyzers.py:373-375 | registering overwrites any analyzer of the same name and leaves every other name unchanged |
| Analyzers.Registry.GetAll | tools/xcoff_tool/analyzers.py:378-386 | the three built-ins are installed only into an empty registry; otherwise it is returned unchanged |
| Analyzers.Registry.Lookup | tools/xcoff_tool/analyzers.py:389-391 | the analyzer of that name, or None for an unknown name |
| Analyzers.BuiltInsRegistered | tools/xcoff_tool/analyzers.py:381-384 | registering what, dump-h and dump-T into an empty registry gives the built-in table |
| Storage.FilepathToRelpath | tools/xcoff_tool/storage.py:34-40 | the storage path always ends in ".json" and contains no ':' |
| Storage.RStripSetTail | tools/xcoff_tool/storage.py:44 | `rstrip(chars)` removes a whole tail drawn from the set and stops at the first character outside it |
| Storage.RelpathOfPlainPath | tools/xcoff_tool/storage.py:34-40 | a path starting with one '/' not followed by '\' and holding no ':' is stored as the rest of it plus ".json" |
| Storage.PathRoundTrip | tools/xcoff_tool/storage.py:34-46 | with the ".json" suffix removed (the corrected converter), such a path comes back unchanged from its storage path |
| Storage.RelpathRoundTrip | tools/xcoff_tool/storage.py:34-46 | a storage path `q.json` comes back unchanged from the file path the corrected converter gives |
| Storage.AsWrittenRoundTrip | tools/xcoff_tool/storage.py:34-46 | as written, the round trip holds when the path's last character is not one of `. j s o n` |
| Storage.AsWrittenLosesLastLetter | tools/xcoff_tool/storage.py:42-46 | as written, a path ending in one of `. j s o n` comes back shorter than it was stored |
| Storage.AsWrittenExample | tools/xcoff_tool/storage.py:42-46 | as written, "/usr/bin/ls" does not come back as itself (it comes back as "/usr/bin/l") |
| Storage.ListFiles | tools/xcoff_tool/storage.py:120-133 | no files for a missing directory; otherwise, in listing order, the file path `_relpath_to_filepath` gives as written (`rstrip(".json")`) for each stored `.json` path |
| Storage.AsWrittenAgrees | tools/xcoff_tool/storage.py:42-46 | the stored path `q.json` is listed as the intended "/q" exactly when `q` is empty or does not end in '.', 'j', 's', 'o' or 'n' |
| Storage.ListedExample | tools/xcoff_tool/storage.py:128-131 | the stored "usr/bin/ls.json" is listed as "/usr/bin/l" |
| Storage.RegistryFields | tools/xcoff_tool/storage.py:94-99 | a line is read only when, stripped, it is non-empty, does not start with '#' and has at least three tab fields |
| Storage.RegistryEntriesShape | tools/xcoff_tool/storage.py:162-168 | every entry read holds at least three fields, the first being its key (the same read at lines 187-193) |
| Storage.RegistryEntriesDrop | tools/xcoff_tool/storage.py:180-197 | reading for removal gives what reading for an update gives, minus the removed name only |
| Storage.ReadEntries | tools/xcoff_tool/storage.py:160-168 | the loop builds the entries dict of the registry lines (none when there is no file) |
| Storage.KeepLine | tools/xcoff_tool/storage.py:162-168 | one line of the read loop: comment and blank lines are skipped, a row with at least three fields is stored under its first field unless that is the name being dropped |
| Storage.AddDirectoriesGet | tools/xcoff_tool/storage.py:106-116 | a name the registry lists keeps its registry entry; any other name gets its first directory's mtime and .json count, with an empty description |
| Storage.ListSnapshots | tools/xcoff_tool/storage.py:87-118 | a registry line whose count is not an integer makes the call fail; otherwise the registry entries, then the unlisted directories |
| Storage.ReadRegistry | tools/xcoff_tool/storage.py:92-104 | the registry loop reads the lines in order and ends with the first line whose count is not an integer |
| Storage.ReadLine | tools/xcoff_tool/storage.py:95-104 | a blank, comment or short line adds nothing; a line with a non-integer count raises, and that error is the outcome of the whole loop; otherwise the line's entry is stored under its first field |
| Storage.AddUnlistedDirectories | tools/xcoff_tool/storage.py:106-116 | each directory whose name is not listed yet is added with its time and count, in listing order |
| Storage.RegistryInfosErrSticks | tools/xcoff_tool/storage.py:96-104 | once a line raises, reading further lines keeps that error |
| Storage.LinesOfUnlines | tools/xcoff_tool/storage.py:205-208 | text written line by line reads back as the same lines |
| Storage.Rows | tools/xcoff_tool/storage.py:207-208 | one tab-joined row per name, in order |
| Storage.WriteRegistry | tools/xcoff_tool/storage.py:199-208 | the loop writes the two '#' lines, then one row per entry in ascending name order |
| Storage.UpdatedGet | tools/xcoff_tool/storage.py:170-175 | an update touches only the stored name: an existing entry keeps every field but the count, a new one is [name, now, count, ""] |
| Storage.UpdateRegistry | tools/xcoff_tool/storage.py:150-178 | the text written is the registry read, updated for the name, in registry form |
| Storage.RemoveFromRegistry | tools/xcoff_tool/storage.py:180-197 | nothing is written when there is no registry file; otherwise the registry read without the named entry |
| Storage.JoinClean | tools/xcoff_tool/storage.py:208 | a row whose outer fields are non-empty and clean has no edge whitespace |
| Storage.RowReadBackFull | tools/xcoff_tool/storage.py:94-104 | a row whose last field is non-empty reads back as all its fields (rows written at line 208) |
| Storage.RowReadBackTab | tools/xcoff_tool/storage.py:94-104 | a row ending in an empty description loses its trailing tab to `strip()` and reads back as its first three fields (rows written at line 208) |
| Storage.RowReadBack | tools/xcoff_tool/storage.py:94-104 | a written row reads back as its entry (rows written at line 208) |
| Storage.CommentSkipped | tools/xcoff_tool/storage.py:95 | a line starting with '#' is skipped |
| Storage.RegistryTextLines | tools/xcoff_tool/storage.py:205-208 | the written registry's lines are the two comment lines and the rows in ascending name order |
| Storage.ReadRow | tools/xcoff_tool/storage.py:96-104 | reading the row of a written name adds that name's entry |
| Storage.ReadBackRows | tools/xcoff_tool/storage.py:92-104 | reading the rows after the comment lines gathers each written name's entry |
| Storage.ReadBackGet | tools/xcoff_tool/storage.py:92-104 | after all rows are read, each name has the entry it was written with |
| Storage.RegistryRoundTrip | tools/xcoff_tool/storage.py:92-104 | what `_write_registry` writes, `list_snapshots` reads back: names, created values and counts, for fields without tabs, line breaks or edge whitespace (the writer is lines 199-208) |
| Storage.CountClean | tools/xcoff_tool/storage.py:173 | a written count is clean and `int()` reads it back as itself (read back at line 101) |
| Storage.UpdatedClean | tools/xcoff_tool/storage.py:170-175 | an update with a clean name and time keeps every entry clean |
| Storage.UpdatedInfo | tools/xcoff_tool/storage.py:170-175 | after an update every other name lists as before; the name lists with its old created value (or now) and the new count |
| Storage.StoreThenList | tools/xcoff_tool/storage.py:150-178 | storing a snapshot and then listing shows it with its new file count and leaves every other name's listing unchanged (listing is lines 92-104) |
| Output.Repeat | tools/xcoff_tool/output.py:23 | `"=" * 60`: n copies of the character and nothing else |
| Output.Mapped | tools/xcoff_tool/output.py:50-51 | one line per item, the i-th line being the i-th item's |
| Output.AppendMapped | tools/xcoff_tool/output.py:50-51 | the `for ... lines.append` loop adds exactly the mapped lines after the existing ones |
| Output.CappedMeaning | tools/xcoff_tool/output.py:68-73 | a capped list shows the first `cap` items in order, and ends in "... and N more" with N the number left out exactly when there are more than `cap` |
| Output.AppendCapped | tools/xcoff_tool/output.py:68-73 | the loop adds the capped lines after the existing ones |
| Output.GenericLinesMeaning | tools/xcoff_tool/output.py:83-91 | every data entry but "raw" gets exactly one line, and every line is the "key: value" line of such an entry |
| Output.SymbolBlockMeaning | tools/xcoff_tool/output.py:68-82 | a symbol block is empty exactly for no symbols, has at most a title, 20 names and a "more" line, and shows all names under the title when there are at most 20 |
| Output.LoaderSymbolLinesBounds | tools/xcoff_tool/output.py:61-82 | `dump-T` data prints its two count lines only, outside verbose mode; never more than two full symbol blocks |
| Output.FormatSymbolBlock | tools/xcoff_tool/output.py:68-82 | the loop builds the symbol block |
| Output.FormatLoaderSymbols | tools/xcoff_tool/output.py:61-82 | the loop builds the `dump-T` lines |
| Output.FormatGeneric | tools/xcoff_tool/output.py:83-91 | the loop builds the generic lines of every entry |
| Output.FormatAnalyzerData | tools/xcoff_tool/output.py:43-93 | the lines chosen by analyzer name: `what` strings, `dump-h` sections, `dump-T` symbols, otherwise generic |
| Output.FailedResultLines | tools/xcoff_tool/output.py:34-39 | a failed result prints its name, its error line and a blank line, and no data |
| Output.FormatResult | tools/xcoff_tool/output.py:33-39 | the block of one analysis result |
| Output.AppendResult | tools/xcoff_tool/output.py:33-39 | one pass of the loop puts the next result's block after the blocks of the results before it |
| Output.FormatResults | tools/xcoff_tool/output.py:33-39 | the loop prints every result's block, in dict order |
| Output.FormatSnapshots | tools/xcoff_tool/output.py:18-41 | the text is the header and result blocks of every snapshot, in order, joined by line breaks |
| Output.CountedBlockMeaning | tools/xcoff_tool/output.py:136-147 | an added/removed list prints nothing when empty, else its count line, its first 10 items in order and a "more" line exactly when there are more than 10 |
| Output.GroupLinesMeaning | tools/xcoff_tool/output.py:150-169 | an import/export group prints exactly when something was added or removed, and at most 11 lines |
| Output.ComparisonEnds | tools/xcoff_tool/output.py:101-120 | identical files end the text at "Status: IDENTICAL"; `summary_only` ends it at the summary; otherwise "Details:" follows |
| Output.DiffLinesOk | tools/xcoff_tool/output.py:122-177 | an entry fails to print exactly when `_metadata` is not a dict of changes, or a section diff has sections named "added" and "removed" but none named "status" |
| Output.FormatCountedBlock | tools/xcoff_tool/output.py:136-147 | the loop builds the counted block |
| Output.FormatGroup | tools/xcoff_tool/output.py:150-169 | the loop builds one loader group's lines |
| Output.FormatEntryStatus | tools/xcoff_tool/output.py:170-175 | one "name: status" line per section whose diff is a dict; a status that is a list is written as Python's `str` of the list, each item in its `repr` |
| Text.UnescapeChar | tools/xcoff_tool/output.py:174-175 | each character as `repr` writes it (`\\`, the quote escaped, `\t`, `\n`, `\r`, `\xhh` for the characters below U+0100 that are not printable, otherwise itself) reads back as that character |
| Text.StrReprRoundTrip | tools/xcoff_tool/output.py:174-175 | `repr` of a string is enclosed in one quote at both ends, '"' exactly when the string holds a single quote and no double quote, and reads back as the string |
| Text.StrReprInjective | tools/xcoff_tool/output.py:174-175 | two strings with the same `repr` are equal |
| Text.StrReprPlain | tools/xcoff_tool/output.py:174-175 | printable ASCII without a quote or a backslash is written between single quotes unchanged |
| Text.ListReprShape | tools/xcoff_tool/output.py:174-175 | the `str` of a list is bracketed, and is "[]" exactly for the empty list |
| Output.FormatDiffBody | tools/xcoff_tool/output.py:131-175 | the body chosen by the keys the diff has, or the error it raises |
| Output.FormatDiff | tools/xcoff_tool/output.py:122-177 | one entry's block, or the error that ends formatting |
| Output.DetailErrorSticks | tools/xcoff_tool/output.py:122-177 | once an entry raises, the whole comparison fails with that error |
| Output.AppendDetail | tools/xcoff_tool/output.py:122-177 | one pass of the detail loop: the entry either ends formatting with its error or appends its block |
| Output.FormatDetails | tools/xcoff_tool/output.py:122-177 | the detail loop gives the blocks of all entries or the first error |
| Output.FormatComparison | tools/xcoff_tool/output.py:95-179 | the comparison text joined by line breaks, or the error raised while building it |
| Output.PartitionCounts | tools/xcoff_tool/output.py:198-209 | every file lands in exactly one of changed, added and removed, so the three counts add up to the number of files |
| Output.AddedFilesMeaning | tools/xcoff_tool/output.py:198-205 | a file is listed as added (removed) exactly when its outcome is "added" ("removed") |
| Output.ChangedLines | tools/xcoff_tool/output.py:212-216 | two lines per changed file |
| Output.Partition | tools/xcoff_tool/output.py:194-205 | the loop sorts the files into the three lists, keeping their order |
| Output.FormatChangedFiles | tools/xcoff_tool/output.py:212-216 | the loop prints each changed file's path and summary |
| Output.FormatFilesBlock | tools/xcoff_tool/output.py:218-228 | a titled list after a blank line, nothing for no files |
| Output.FormatDiffSummary | tools/xcoff_tool/output.py:181-230 | the summary text: header, the three counts, then the changed, added and removed files |
| Output.SnapshotsJsonOf | tools/xcoff_tool/output.py:259-264 | a bare object for exactly one snapshot, otherwise a list of every snapshot's dict in order |
| Output.ComparisonJsonOf | tools/xcoff_tool/output.py:266-278 | "diffs" is present exactly when not `summary_only`; the other four fields are the comparison's |
| Output.JsonDiffSummary | tools/xcoff_tool/output.py:280-309 | the same partition the text summary reports: changed files with their summaries, added and removed in order |
| Output.InfoJsonOf | tools/xcoff_tool/output.py:311-319 | the validation result's four fields, unchanged |
| Cli.DbPath | tools/xcoff_tool/cli.py:131-137 | a non-empty --db-path wins, then XCOFF_DB_PATH when it is set, else `~/.xcoffscandb`; never an empty path |
| Cli.StripKeeps | tools/xcoff_tool/cli.py:156 | `strip()` only removes characters |
| Cli.StripAll | tools/xcoff_tool/cli.py:156 | each piece is stripped, none dropped or added |
| Cli.NameList | tools/xcoff_tool/cli.py:154-159 | a list exactly when the option is given non-empty; one stripped piece per comma-separated part |
| Cli.NameListOfJoin | tools/xcoff_tool/cli.py:154-159 | names without commas or edge whitespace, written comma-separated, read back as themselves |
| Cli.SnapshotsTakenMeaning | tools/xcoff_tool/cli.py:161-177 | every accepted file is captured and nothing else is; no snapshots exactly when no file is accepted |
| Cli.CmdSnapshot | tools/xcoff_tool/cli.py:147-193 | missing and invalid files are skipped; exit 0 exactly when some file exists and validates, else 1 |
| Cli.CompareOf | tools/xcoff_tool/core.py:269-308 | a comparison has differences exactly when its summary is not "No differences" |
| Cli.CompareSnapshots | tools/xcoff_tool/cli.py:234 | `engine.compare` computes that comparison |
| Cli.CmdCompare | tools/xcoff_tool/cli.py:196-244 | exit 1 with its message for a missing file, a missing stored snapshot or neither --against nor a second file; otherwise exit 0 exactly when there are no differences; two captures of files with the same results and size give 0, whatever their capture times; a file compared with itself gives 0 |
| Cli.CmdDiffFile | tools/xcoff_tool/cli.py:253-266 | a missing first or second stored snapshot fails with its message and exit 1; otherwise the comparison of the two, exit 0 |
| Cli.ClassifyFile | tools/xcoff_tool/cli.py:276-286 | one file's entry: its comparison when both load and differ, "removed" when only the first loads, "added" otherwise, nothing when unchanged |
| Cli.DiffOutcomesSound | tools/xcoff_tool/cli.py:275-286 | each reported entry is one of the files, classified by what loaded; a changed file carries a comparison with differences |
| Cli.FileEntrySound | tools/xcoff_tool/cli.py:279-286 | a file's entry is absent exactly when it is unchanged, and is classified by what loaded |
| Cli.DiffOutcomesComplete | tools/xcoff_tool/cli.py:275-286 | every file that is not unchanged is reported, in the order given |
| Cli.DiffOutcomesCovers | tools/xcoff_tool/cli.py:275-286 | every file among the first `n` that is not unchanged is among the reported names |
| Cli.DiffOutcomesSorted | tools/xcoff_tool/cli.py:275-286 | walking sorted file names reports them in strictly increasing order |
| Cli.ClassifyAll | tools/xcoff_tool/cli.py:275-286 | walking the files in order, the list holds, file by file, the entry the loop body gives for it and nothing else |
| Cli.CmdDiffAll | tools/xcoff_tool/cli.py:268-296 | the loop over the sorted union gives the report the diff summary prints; exit 0 |
| Cli.DiffAllMeaning | tools/xcoff_tool/cli.py:269-286 | the report names, in ascending order, exactly the files of either snapshot that are not unchanged |
| Cli.ValidateCommand | tools/xcoff_tool/cli.py:321-337 | exit 0 exactly when the file validates, else 1; a missing file prints "Error: File not found" |
| Cli.MainExit | tools/xcoff_tool/cli.py:384-416 | no command exits 0; an unknown one 1; otherwise the handler's code, 130 on an interrupt, 1 on an exception (re-raised in verbose mode) |
| Cli.MainExitCodes | tools/xcoff_tool/cli.py:389-416 | outside verbose mode `main` always ends with an exit code, which is 0, 1, 130 or the handler's own |
| LegacySnapshot.OutputLines | tools/xcoff_snapshot.py:81 | `strip().split('\n')` always yields at least one line |
| LegacySnapshot.OptionalField | tools/xcoff_snapshot.py:174-179 | a field is present exactly when the row has that many tokens, and is that token |
| LegacySnapshot.KeptOutputLines | tools/xcoff_snapshot.py:81-89 | the loop keeps the stripped lines, in order |
| LegacySnapshot.WhatLinesMeaning | tools/xcoff_snapshot.py:81-89 | a string is kept exactly when it is a stripped output line that is non-empty and does not end in ':'; at most one per line, without edge whitespace |
| LegacySnapshot.BracketIndex | tools/xcoff_snapshot.py:140 | the `[ N]` index is read only from a line starting with '[' |
| LegacySnapshot.AixHead | tools/xcoff_snapshot.py:140-151 | a section head sets index, name, physical and virtual address and a "0x" size, and nothing else |
| Text.ParseHexPrefixed | tools/xcoff_snapshot.py:150 | "0x" followed by hexadecimal digits reads back under `int(_, 16)` as the digits' value |
| LegacySnapshot.AixHeadSize | tools/xcoff_snapshot.py:150 | `size_decimal` of a head is its size read as hexadecimal |
| LegacySnapshot.SymbolMatch | tools/xcoff_snapshot.py:265-288 | a matched symbol line carries a whole "0x" hexadecimal value |
| LegacySnapshot.SimpleRow | tools/xcoff_snapshot.py:165-190 | a simple row is read exactly when it has three tokens and the first is all digits; name, size and optional addresses come from its tokens; `size_decimal` is the hexadecimal size or 0 |
| LegacySnapshot.Continued | tools/xcoff_snapshot.py:155-163 | a continuation line of five or more tokens sets offset through flags and keeps the head's fields; a shorter one changes nothing |
| LegacySnapshot.ClassifyHeaderLineMeaning | tools/xcoff_snapshot.py:126-168 | the order of the tests: blank lines, then markers, then the head pattern, then "0x" continuations, then simple rows |
| LegacySnapshot.ScanHeaderLine | tools/xcoff_snapshot.py:126-190 | the loop body moves the state as one parser step |
| LegacySnapshot.NothingBeforeMarker | tools/xcoff_snapshot.py:136-137 | nothing is read before the first marker line |
| LegacySnapshot.InHeadersMeaning | tools/xcoff_snapshot.py:132-134 | the flag is up exactly when a marker line has been seen |
| LegacySnapshot.StepSound | tools/xcoff_snapshot.py:141-190 | one line appends at most one section, either the flushed pending section or one the line yields |
| LegacySnapshot.ScanSound | tools/xcoff_snapshot.py:126-190 | earlier sections stay in place, and every later one was yielded by a line |
| LegacySnapshot.ScanPrefix | tools/xcoff_snapshot.py:126-190 | the sections list only grows |
| LegacySnapshot.HoldsStep | tools/xcoff_snapshot.py:141-190 | a section listed or pending stays listed or pending after one more line |
| LegacySnapshot.ScanComplete | tools/xcoff_snapshot.py:126-190 | every section head read while the flag is up ends listed or pending |
| LegacySnapshot.HeadHolds | tools/xcoff_snapshot.py:126-190 | a section head read at line `i` is still listed or pending after any later line |
| LegacySnapshot.FinishKeeps | tools/xcoff_snapshot.py:192-194 | finishing keeps every listed section and the pending one, and adds at most one |
| LegacySnapshot.RepeatedLastHeadCollapses | tools/xcoff_snapshot.py:193 | the `not in` test drops a repeated last head: a marker and the same head twice give one section |
| LegacySnapshot.ImportFileLine | tools/xcoff_snapshot.py:247-257 | an import-file line is read exactly when it has two tokens; its path is the second and its raw text the stripped line |
| LegacySnapshot.SymbolLine | tools/xcoff_snapshot.py:265-313 | a symbol line is the pattern when it matches, else the raw fallback exactly when it has four tokens |
| LegacySnapshot.ClassifyLoaderLineMeaning | tools/xcoff_snapshot.py:228-241 | blank lines are skipped; the symbol-table marker is tested before the import-strings marker |
| LegacySnapshot.FileSymbol | tools/xcoff_snapshot.py:288-303 | a symbol is listed once, and filed once more as an import (IMP or undef) or else as an export (EXP) |
| LegacySnapshot.ScanLoaderLine | tools/xcoff_snapshot.py:228-313 | the loop body moves the state as one parser step |
| LegacySnapshot.LoaderIgnoresPreamble | tools/xcoff_snapshot.py:258-261 | lines before either marker are ignored |
| LegacySnapshot.ImportStringsLast | tools/xcoff_snapshot.py:238-258 | once the import strings begin, symbols and exports stop growing and only imports are added |
| LegacySnapshot.LoaderStepSound | tools/xcoff_snapshot.py:277-313 | one line lists at most one symbol, and adds an export only together with the exported symbol it lists |
| LegacySnapshot.ExportsFromSymbols | tools/xcoff_snapshot.py:221-313 | every export comes from a matched EXP symbol listed in the same call |
| LegacySnapshot.TotalSizeAppend | tools/xcoff_snapshot.py:358 | the total section size of a concatenation is the sum of the totals |
| LegacySnapshot.SummaryOf | tools/xcoff_snapshot.py:352-359 | the summary counts are the list lengths; no sections means total size 0 |
| LegacySnapshot.Basename | tools/xcoff_snapshot.py:33 | the basename is a '/'-free suffix of the path, and the whole path when it has no '/' |
| LegacySnapshot.XCOFFSnapshot.constructor | tools/xcoff_snapshot.py:31-43 | a new snapshot keeps path and bits, takes the basename and starts with every list empty |
| LegacySnapshot.XCOFFSnapshot.CaptureWhat | tools/xcoff_snapshot.py:62-89 | a failing `what` adds one error and no strings; otherwise the kept lines are appended; nothing else changes |
| LegacySnapshot.XCOFFSnapshot.ParseSectionHeaders | tools/xcoff_snapshot.py:118-194 | the sections become those the parser gives after the old ones; nothing else changes |
| LegacySnapshot.XCOFFSnapshot.CaptureSections | tools/xcoff_snapshot.py:91-116 | a failing `dump -h` adds one error; otherwise the sections are parsed; nothing else changes |
| LegacySnapshot.XCOFFSnapshot.ParseLoaderSymbols | tools/xcoff_snapshot.py:221-313 | symbols, imports and exports become what the parser gives; nothing else changes |
| LegacySnapshot.XCOFFSnapshot.CaptureLoaderSymbols | tools/xcoff_snapshot.py:196-219 | `dump -Tv`, then `dump -T` only when it fails; both failing add one error and change nothing else |
| LegacySnapshot.XCOFFSnapshot.CaptureAll | tools/xcoff_snapshot.py:315-335 | the three captures in turn; each failing command adds its message to the errors, in order |
| LegacySnapshot.XCOFFSnapshot.SummaryDict | tools/xcoff_snapshot.py:352-359 | the summary of the snapshot's current lists |
| LegacyCompare.CommonMeaning | tools/xcoff_snapshot.py:407 | `sorted(set1 & set2)`: the strings in both, ascending, each once |
| LegacyCompare.GatheredMeaning | tools/xcoff_snapshot.py:425-441 | the collected entries are exactly those some name of the loop yields |
| LegacyCompare.CompareWhatStringsMeaning | tools/xcoff_snapshot.py:399-409 | only-in-first, only-in-second and common split the strings of both snapshots, ascending; "changed" says exactly that the sets differ (the size test adds nothing) |
| LegacyCompare.FieldChanges | tools/xcoff_snapshot.py:430-435 | no changes exactly when the five compared keys agree; each change has differing old and new values; at most five |
| LegacyCompare.NamedSection | tools/xcoff_snapshot.py:414-415 | the section the name index gives is one of the sections, with that name |
| LegacyCompare.SectionNames | tools/xcoff_snapshot.py:417-418 | one name per section |
| LegacyCompare.SectionNamesMeaning | tools/xcoff_snapshot.py:414-418 | a name is among the keys exactly when the index has a section for it |
| LegacyCompare.SectionModification | tools/xcoff_snapshot.py:426-441 | a name gets a modified entry exactly when both snapshots have it and a compared key differs |
| LegacyCompare.ModifiedSections | tools/xcoff_snapshot.py:425-441 | the loop appends, name by name in the order visited, exactly the entries the per-name modification rule gives |
| LegacyCompare.ModifiedSectionsMeaning | tools/xcoff_snapshot.py:424-441 | a name is modified exactly when both snapshots have it and one of the five keys differs; its entry lists the keys that differ |
| LegacyCompare.SectionsAddedRemoved | tools/xcoff_snapshot.py:420-445 | added and removed list, ascending, the names only the second or only the first snapshot has |
| LegacyCompare.CompareSectionsMeaning | tools/xcoff_snapshot.py:443-448 | "changed" says exactly that some name is in one snapshot only or changed between them |
| LegacyCompare.CollectSymbolNames | tools/xcoff_snapshot.py:453-460 | the loop collects the name of each symbol: the matched name, or the last token of a fallback line |
| LegacyCompare.SymbolNamesMeaning | tools/xcoff_snapshot.py:453-460 | a name is collected exactly when some symbol contributes it |
| LegacyCompare.CompareSymbolsMeaning | tools/xcoff_snapshot.py:462-470 | added and removed are the names in one snapshot only; the common count is the number of names in both; "changed" exactly when something was added or removed |
| LegacyCompare.NamedExport | tools/xcoff_snapshot.py:474-475 | the export the name index gives is one of the exports, with that name |
| LegacyCompare.ExportNames | tools/xcoff_snapshot.py:477-478 | one name per export |
| LegacyCompare.ExportNamesMeaning | tools/xcoff_snapshot.py:474-478 | a name is among the keys exactly when the index has an export for it |
| LegacyCompare.ExportModification | tools/xcoff_snapshot.py:485-493 | a name gets one modified entry exactly when both snapshots export it with different values |
| LegacyCompare.ModifiedExports | tools/xcoff_snapshot.py:484-494 | the loop appends, name by name in the order visited, exactly the value changes the per-name rule gives |
| LegacyCompare.ModifiedExportsMeaning | tools/xcoff_snapshot.py:483-493 | an export is listed as modified, with its old and new value, exactly when both export it with different values |
| LegacyCompare.ExportsAddedRemoved | tools/xcoff_snapshot.py:480-497 | added and removed list, ascending, the names only one snapshot exports |
| LegacyCompare.CompareExportsMeaning | tools/xcoff_snapshot.py:495-500 | "changed" says exactly that some name is exported by one snapshot only or with different values |
| LegacyCompare.CompareAllMeaning | tools/xcoff_snapshot.py:519-525 | the overall flag says that what strings, section names or keys, symbol names, or export names or values differ; imports and errors never set it |
| LegacyCompare.CompareSelf | tools/xcoff_snapshot.py:502-527 | a snapshot compared with itself shows no change and lists nothing added, removed or modified |
| LegacyCompare.XCOFFCompare.constructor | tools/xcoff_snapshot.py:394-397 | the comparator holds both snapshots and no result yet |
| LegacyCompare.XCOFFCompare.CompareSections | tools/xcoff_snapshot.py:411-448 | the loop over the common names gives the sections comparison |
| LegacyCompare.XCOFFCompare.CompareSymbols | tools/xcoff_snapshot.py:450-470 | the symbols comparison |
| LegacyCompare.XCOFFCompare.CompareExports | tools/xcoff_snapshot.py:472-500 | the loop over the common names gives the exports comparison |
| LegacyCompare.XCOFFCompare.CompareAll | tools/xcoff_snapshot.py:502-527 | stores and returns the full comparison of both snapshots; the snapshots are not changed |
| GroupLookup.Settle | getgrent_buffer_stress_test.c:529-547 | the first size that does not give ERANGE ends the loop: an error code stops it with that error, success without a group reports not found, success with one reports found |
| GroupLookup.Attempts | getgrent_buffer_stress_test.c:507-508 | never more attempts than sizes |
| GroupLookup.ProgressiveMeaning | getgrent_buffer_stress_test.c:507-584 | the loop fails exactly when every size gave ERANGE, after trying all; otherwise it stopped at the first size that did not, after trying every size before it |
| GroupLookup.DoublingIncreases | getgrent_buffer_stress_test.c:497 | a list in which every size doubles the one before is strictly increasing |
| GroupLookup.SizeT | getgrent_test.c:317 | `(size_t)v` on the 32-bit target is below 2^32 and leaves values already in range unchanged |
| GroupLookup.BufSizeArgAsWritten | getgrent_test.c:317-318 | as written: at least 32 and below 2^32; an argument in range is kept, 0..31 becomes 32, and a negative one wraps to 2^32 plus it |
| GuardedBuffer.WordBytes | getgrent_buffer_stress_test.c:112 | the magic word is stored as four bytes |
| GuardedBuffer.WordBytesInjective | getgrent_buffer_stress_test.c:134-141 | comparing the stored words is comparing their four bytes, in either byte order |
| GuardedBuffer.Recompose | getgrent_buffer_stress_test.c:135 | a word is recomposed from its four bytes |
| GuardedBuffer.Filled | getgrent_buffer_stress_test.c:118 | `memset` leaves n copies of the byte |
| GuardedBuffer.GuardImage | getgrent_buffer_stress_test.c:107-119 | the filled guard region has the region's size |
| GuardedBuffer.Mismatches | getgrent_buffer_stress_test.c:146-162 | the count of bytes that differ from the fill is at most the region's size |
| GuardedBuffer.MismatchesZero | getgrent_buffer_stress_test.c:146-162 | no byte differs exactly when the region is all fill |
| GuardedBuffer.GuardErrors | getgrent_buffer_stress_test.c:125-169 | the checker's count is at most the region's size |
| GuardedBuffer.GuardErrorsZero | getgrent_buffer_stress_test.c:107-169 | the checker finds nothing exactly in a region as `fill_guard_region` left it |
| GuardedBuffer.MemSet | getgrent_buffer_stress_test.c:118 | `memset` fills exactly its range and leaves every other byte alone |
| GuardedBuffer.FillGuardRegion | getgrent_buffer_stress_test.c:107-119 | the region holds the magic word and then the fill byte; nothing outside it changes |
| GuardedBuffer.CheckGuardRegion | getgrent_buffer_stress_test.c:125-169 | the loop counts one error for a wrong magic word plus one per fill byte that changed |
| GuardedBuffer.CountMismatches | getgrent_buffer_stress_test.c:146-162 | the byte loop counts exactly the bytes of the region that differ from the fill byte |
| GuardedBuffer.FillBufferAggressively | getgrent_buffer_stress_test.c:293-310 | every byte i of the range becomes `i & 0xFF`, the read-back never aborts, and nothing outside the range changes |
| GuardedBuffer.Guarded.constructor | getgrent_buffer_stress_test.c:174-212 | a block of 64 + size + 256 bytes: head guard, user buffer of 0xAA, tail guard at 64 + size; both guards intact |
| GuardedBuffer.Guarded.Free | getgrent_buffer_stress_test.c:218-228 | every byte of the block is wiped to 0xDD |
| GuardedBuffer.Guarded.ValidateIntegrity | getgrent_buffer_stress_test.c:234-261 | 0 when neither checker finds an error, else -1; that is, 0 exactly when both guards are intact |
| GuardedBuffer.UserWritesKeepGuards | getgrent_buffer_stress_test.c:195-210 | a write that stays inside the user buffer leaves both guards intact |
| GuardedBuffer.SafeAccess | getgrent_buffer_stress_test.c:661-684 | filling a 256-byte buffer over exactly its own size keeps the integrity check at 0 |
| GuardedBuffer.NameErrors | getgrent_buffer_stress_test.c:325-340 | at most one error for `gr_name` |
| GuardedBuffer.PtrErrors | getgrent_buffer_stress_test.c:343-350 | one error exactly for a non-NULL pointer outside the buffer |
| GuardedBuffer.SlotErrorsZero | getgrent_buffer_stress_test.c:361-377 | the member loop finds nothing exactly when every slot lies inside the buffer and every member string starts inside it |
| GuardedBuffer.StressPointerErrorsZero | getgrent_buffer_stress_test.c:316-382 | no error exactly when the name (with its NUL), the password, the member slots and member strings all lie in the buffer |
| GuardedBuffer.StrnLen | getgrent_buffer_stress_test.c:334 | `strnlen` stops at the first NUL or at the limit, and reaches the limit exactly when there is no NUL before it |
| GuardedBuffer.ValidateGroupPointers | getgrent_buffer_stress_test.c:316-382 | the checks, with the member loop stopping at the first slot past the end, count the errors `StressPointerErrors` defines |
| GuardedBuffer.StressSizesDoubling | getgrent_buffer_stress_test.c:497 | eleven sizes, 64 to 65536, each doubling the one before |
| GuardedBuffer.ProgressiveSizing | getgrent_buffer_stress_test.c:491-589 | the attempts and the outcome are those of the progressive loop over the eleven sizes |
| GuardedBuffer.GuardedProgressive | getgrent_buffer_stress_test.c:507-580 | with a fresh guarded buffer per attempt, the loop makes the attempts and reaches the outcome the progressive search function defines |
| SecList.Entries | getgrent_test_suite.c:242-246 | the entries take the sizing pass's length: each name's length plus one |
| SecList.Encode | getgrent_test_suite.c:233-258 | the list is one byte longer than its entries and ends in the extra NUL |
| SecList.EntriesAppend | getgrent_test_suite.c:252-257 | the entries of two name lists concatenate |
| SecList.StrLen | getgrent_test_suite.c:256 | `strlen` counts the characters before the first NUL, all non-NUL, and stops at a NUL when there is one |
| SecList.Decode | getgrent_test_suite.c:233 | every string a reader walks is non-empty and NUL-free |
| SecList.DecodeEncode | getgrent_test_suite.c:233-261 | reading back a list built from non-empty NUL-free names gives those names |
| SecList.StrLenOfName | getgrent_test_suite.c:256 | `strlen` of a copied name is the name's length |
| SecList.CopyName | getgrent_test_suite.c:255 | `strcpy` writes the name and its NUL at the position and nothing else |
| SecList.EntriesStep | getgrent_test_suite.c:253-257 | appending a name at the current position extends the written prefix by that name's entry |
| SecList.EntriesLengthPrefix | getgrent_test_suite.c:243-246 | the entries of a prefix of the names are no longer than all of them |
| SecList.Pad4Valid | getgrent_test_suite.c:244 | a name built from a NUL-free prefix and `%04d` is a valid list entry |
| SecList.WriteEntry | getgrent_test_suite.c:255-256 | one `strcpy` extends the written prefix by the next entry |
| SecList.AppendEntry | getgrent_test_suite.c:253-257 | one step of the writing loop: the position advances by the name's length plus one and stays inside the buffer sized by the sizing pass |
| SecList.Terminate | getgrent_test_suite.c:258 | the final NUL completes the encoded list |
| SecList.EntriesLengthBound | getgrent_test_suite.c:243-246 | names of at most k characters take at most k + 1 bytes each |
| TestSuite.SecName | getgrent_test_suite.c:244 | `snprintf` into 64 bytes gives at most 63 characters |
| TestSuite.SecNames | getgrent_test_suite.c:243-244 | one name per index, none for a negative count |
| TestSuite.BuildSecList | getgrent_test_suite.c:235-261 | a fresh buffer holding exactly the encoded list of prefix + `%04d`(start + i), i = 0 .. count - 1 |
| TestSuite.SecListSize | getgrent_test_suite.c:242-247 | the sizing pass equals the number of bytes the writing pass writes |
| TestSuite.SecListRoundTrip | getgrent_test_suite.c:235-261 | reading the list back gives the names written, so its member count is the count asked for |
| TestSuite.MemberListNames | getgrent_test_suite.c:329-372 | the members `create_test_group` writes are the users it created, ztest_u0001 up to ztest_u<n>, all safe names |
| TestSuite.CreateTestUser | getgrent_test_suite.c:266-304 | an unsafe name returns -1 before any database call; a safe one starts with `getpwnam`; after a successful `setuserdb` the last call is `enduserdb`; 0 exactly for an existing user or a committed new one |
| TestSuite.MembersOutside | getgrent_test_suite.c:492-497 | at most one error per member string |
| TestSuite.ValidateGroupPtrs | getgrent_test_suite.c:464-502 | the loop counts one error per top-level pointer outside the buffer and, behind an in-buffer `gr_mem`, one per member string outside |
| TestSuite.MembersOutsideZero | getgrent_test_suite.c:492-497 | no member error exactly when every member string lies in the buffer |
| TestSuite.SuitePointerErrorsZero | getgrent_test_suite.c:464-502 | no error exactly when every non-NULL pointer, and every member string behind an in-buffer `gr_mem`, lies in the buffer |
| TestSuite.StressCheckIsStricter | getgrent_test_suite.c:464-502 | a group that passes the stress test's pointer check passes the suite's too |
| TestSuite.SuiteSizesDoubling | getgrent_test_suite.c:588 | twelve sizes, 32 to 65536, each doubling the one before |
| TestSuite.LookupProgressive | getgrent_test_suite.c:582-658 | the attempts and outcome of the progressive loop over 32 .. 65536, with a guarded buffer per attempt |
| TestSuite.CleanupNames | getgrent_test_suite.c:431-432 | the cleanup loop generates 2000 names |
| TestSuite.CleanupNamesSafe | getgrent_test_suite.c:431-440 | every generated name is "ztest_u" and four digits, and passes `is_safe_user` |
| TestSuite.Removed | getgrent_test_suite.c:431-451 | only names that exist, pass the safety check and whose database opens are deleted |
| TestSuite.CleanupTestEntities | getgrent_test_suite.c:408-455 | -1 and nothing deleted when the database cannot be opened; otherwise the group is deleted when it exists, the user loop runs, and the result is 0 |
| TestSuite.RemoveTestUsers | getgrent_test_suite.c:431-451 | the loop over i = 1 .. 2000 removes, in order, exactly those of `ztest_u0001` .. `ztest_u2000` that exist, pass the safety check and find the user database open for writing |
| TestSuite.CleanupRemovesOnlyTestUsers | getgrent_test_suite.c:431-451 | cleanup deletes only safe users named ztest_u0001 .. ztest_u2000 |
| TestSuite.ClampMembers | getgrent_test_suite.c:752-758 | the member count is clamped into [0, 1900], values inside kept |
| TestSuite.SuiteNegativeBufSize | getgrent_test_suite.c:764-765 | `test -5` run as root tests with 4294967291 bytes, as the code is written |
| TestSuite.SuiteMain | getgrent_test_suite.c:730-809 | no command or not root exits 1; setup and all clamp the count into [0, 1900]; test takes the buffer size as written: at least 32, an argument in range is kept, and a negative one wraps to 2^32 plus it |
| GroupLookup.BufSizeArg | getgrent_test.c:316-318 | corrected `-b`: at least 32, and any argument of 32 or more is kept |
| GroupLookup.BufSizeArgFits | getgrent_test.c:56 | for every value a 32-bit `atoi` returns, the corrected size and the guarded total 64 + size + 256 fit in `size_t` |
| GetgrentTest.GuardedTotal | getgrent_test.c:56 | the total 64 + size + 256 in 32-bit `size_t`: exact below 2^32, and wrapped below 320 for the 320 largest sizes |
| GetgrentTest.OverrunsMeaning | getgrent_test.c:56-69 | for a `size_t` size the total wraps exactly when size ≥ 2^32 − 320, and then the block is smaller than the user buffer the `memset` fills |
| GetgrentTest.FillGuarded.constructor | getgrent_test.c:50-72 | for a size whose `size_t` total does not wrap, a block of that total, 320 + size bytes: 64 head bytes and 256 tail bytes of 0x5A around a user buffer of 0xAA |
| GetgrentTest.FillGuarded.Check | getgrent_test.c:82-109 | the number of head and tail bytes that differ from 0x5A; 0 exactly when both guards are all fill |
| GetgrentTest.UserWritesKeepFill | getgrent_test.c:82-109 | writes confined to the user buffer leave the check at 0 |
| GetgrentTest.MemberListing | getgrent_test.c:111-132 | the member count is the number of names; the list line is shown exactly for 1 to 10 members, as the names joined by ", " |
| GetgrentTest.LookupReportOf | getgrent_test.c:203-209 | success with a group prints it; success without one reports not found; ERANGE suggests twice the buffer size |
| GetgrentTest.LookupGroup | getgrent_test.c:169-212 | a heap overrun exactly when the guarded total wraps, with the block smaller than what `memset` writes; otherwise one guarded buffer, whose check finds nothing, and the report of the lookup's answer |
| GetgrentTest.TestSizesDoubling | getgrent_test.c:223 | nine sizes, 32 to 8192, each doubling the one before |
| GetgrentTest.TestProgressive | getgrent_test.c:217-275 | the attempts and outcome of the progressive loop over 32 .. 8192 |
| GetgrentTest.FillGuardedProgressive | getgrent_test.c:223-272 | for sizes whose guarded total does not wrap, with a fresh fill-guarded buffer per attempt, the loop makes the attempts and reaches the outcome the progressive search function defines |
| GetgrentTest.NegativeBufSizeWraps | getgrent_test.c:317-318 | as written, "-b -5" becomes 4294967291 bytes and the guarded total wraps to 315, below the size filled; corrected, it becomes 32 |
| GetgrentTest.ScanOpts | getgrent_test.c:311-332 | the option loop returns exactly when some option is -h or unknown |
| GetgrentTest.Dispatch | getgrent_test.c:334-343 | enumerate first, then progressive with a name, then lookup with a name, else usage |
| GetgrentTest.MainNegativeBufSize | getgrent_test.c:316-318 | `main` given `-g NAME -b -5` looks NAME up with 4294967291 bytes, as the code is written, and that size overruns a guarded block of 315 bytes |
| GetgrentTest.RunMain | getgrent_test.c:296-346 | the option loop and dispatch give the action `main` runs, with `-b` clamped as written (after the cast to `size_t`) |
| GetgrentTest.MainExitCodes | getgrent_test.c:307-345 | no arguments enumerates; the exit code is 0 or 1, and 1 exactly after usage for nothing to run or an unknown option |
| GetgrentTest.ScanCodes | getgrent_test.c:327-330 | the option loop returns only 0 or 1 |
| GetgrentTest.ScannedBufSize | getgrent_test.c:316-318 | every buffer size the program uses is at least 32 |
| CreateGroups.MemberNames | create_test_groups.c:271-272 | the member list for `count` users starting at `start` holds exactly `count` names |
| CreateGroups.MemberNameLength | create_test_groups.c:272 | a `tusr%04d` name for an index in 0..99999 is 8 or 9 characters long |
| CreateGroups.EstimateSuffices | create_test_groups.c:264 | the estimate `count * (4 + 5 + 1) + 1` is at least the length of the encoded list whenever every index is in 0..99999 |
| CreateGroups.CallSitesFit | create_test_groups.c:29-38 | the group sizes 5, 50, 500 and 1900 all keep the estimate large enough for the list they build |
| CreateGroups.BuildMemberList | create_test_groups.c:255-279 | the buffer has the estimated length and starts with the SEC_LIST encoding of the names, final double NUL included |
| CreateGroups.WriteMembers | create_test_groups.c:271-275 | the strcpy loop leaves the pointer after the last NUL and the buffer up to it holds every name followed by its NUL |
| CreateGroups.CountMembers | create_test_groups.c:513-522 | the member count shown is 0 for a missing list and otherwise the number of names the list decodes to |
| CreateGroups.WalkList | create_test_groups.c:517-520 | the walk `p += strlen(p) + 1` counts exactly the names the list decodes to |
| CreateGroups.DecodeFrom | create_test_groups.c:519 | one step of the walk skips exactly the current name and its NUL |
| CreateGroups.CountOfMemberList | create_test_groups.c:255-279 | counting a list built for `count` users gives `count` |
| CreateGroups.FirstFailure | create_test_groups.c:99-144 | the index of the first write that fails: every earlier write returned 0 and the indexed one did not |
| CreateGroups.SecWrite | create_test_groups.c:78-151 | an existing id returns 0 without opening the database; otherwise 0 exactly when the database opens and every write returns 0, -1 on any failure, and the database is closed whenever it was opened |
| CreateGroups.CreateUserStopsAtFailure | create_test_groups.c:99-144 | when write `k` of `create_user` is the first to fail, it returns -1 after exactly `k + 1` writes and closes the database |
| CreateGroups.Created | create_test_groups.c:156-181 | the number of users created is at most the number requested |
| CreateGroups.CreatedMeaning | create_test_groups.c:165-172 | the count equals the number requested exactly when every `create_user` returned 0, and is 0 exactly when none did |
| CreateGroups.CreateUsers | create_test_groups.c:156-181 | the loop returns the number of indices whose `create_user` returned 0, and 0 for a negative count |
| CreateGroups.GroupConfiguration | create_test_groups.c:337-425 | the five groups get distinct GIDs in 60001..60005, distinct names and at most 1900 members |
| CreateGroups.CreateTestGroup | create_test_groups.c:337-425 | a group creation that fails makes the whole step -1; the empty group returns what `create_group` returns |
| CreateGroups.CleanupAll | create_test_groups.c:467-494 | cleanup removes the five groups by suffix, then users `tusr0001` .. `tusr1900`, in that order |
| CreateGroups.RemoveEntry | create_test_groups.c:431-465 | -1 when the database does not open; the commit runs exactly when the delete succeeds; 0 exactly when open, delete and commit all succeed |
| CreateGroups.CleanupCoversGroup | create_test_groups.c:467-494 | every group the program creates and every member it adds to it are on the cleanup lists |
| CreateGroups.CommandOf | create_test_groups.c:569 | no argument means `setup`; the command is cleanup exactly when the argument is `cleanup` |
| CreateGroups.RunCommand | create_test_groups.c:558-597 | exit 1 exactly when not root or the command is unknown, and then nothing is done; creating groups always shows the status and never cleans up; cleanup runs exactly for root and `cleanup` |
| CreateGroups.CleanupUndoesRun | create_test_groups.c:558-597 | whatever groups and members a run creates, a later cleanup run removes |
| ListPtf.FirstStop | listptf.c:96-99 | the position of the first -h or unknown option: no option before it stops the loop, and the one at it does |
| ListPtf.LastOutput | listptf.c:87-88 | the output name kept from -o always fits `g_output_file` with its NUL |
| ListPtf.ScanOptions | listptf.c:85-101 | the first -h ends the run with status 0 and the first unknown option with 1; without either, -s and -v set their flags exactly when given and the last -o names the output file |
| ListPtf.CollectProducts | listptf.c:104-108 | the products are the first ten remaining arguments, in order, each cut to nine characters |
| ListPtf.QuotedAll | listptf.c:277-279 | quoting keeps one entry per product |
| ListPtf.JoinLengthBound | listptf.c:274-281 | `n` parts of at most `k` characters joined by a separator take at most `n * k` characters plus the separators |
| ListPtf.WhereClauseFits | listptf.c:270-282 | for at most ten products of at most nine characters the clause is at most 154 characters, inside `where_clause[512]` |
| ListPtf.WhereClauseLists | listptf.c:274-281 | the clause opens with `WHERE PTF_PRODUCT_ID IN (`, closes with `)`, and between them lists exactly the quoted products in order |
| ListPtf.Strcat | listptf.c:276-281 | `strcat` appends the string after the current one and writes its NUL |
| ListPtf.AppendProduct | listptf.c:276-279 | one pass appends `", "` unless it is the first product, then the product in single quotes |
| ListPtf.PartialStep | listptf.c:275-280 | after product `i + 1` the buffer holds what it held after product `i` followed by that product's entry |
| ListPtf.BuildWhereClause | listptf.c:270-282 | the loop leaves in `where_clause[512]` exactly the clause for the products, empty when there are none |
| ListPtf.AppendProducts | listptf.c:275-281 | after the loop the buffer holds the clause head followed by each product quoted and comma-separated, within `13` bytes per product |
| ListPtf.DetailColumns | listptf.c:285-312 | the detail query selects nine columns with -v and five otherwise, all of them verbose columns, starting with the PTF id and the product |
| ListPtf.QueryFits | listptf.c:268-345 | the detail and summary queries always fit `sql[MAX_SQL_LEN]`, so `snprintf` never cuts them |
| ListPtf.ColumnsFit | listptf.c:285-342 | each column list joins to at most 376 characters |
| ListPtf.QueryCarriesWhere | listptf.c:284-344 | each query carries the WHERE clause unchanged right after `FROM QSYS2.PTF_INFO ` and ends with its tail: `ORDER BY PTF_PRODUCT_ID, PTF_IDENTIFIER` for the detail query, the GROUP BY and ORDER BY on product and status for the summary |
| ListPtf.HomeDir | listptf.c:351-367 | HOME when set and non-empty, else `/QOpenSys/home/<USER>` when USER is set and non-empty, else `/tmp` |
| ListPtf.OutputPath | listptf.c:111-115 | the -o name when given; otherwise `<home>/ptf_list.txt`, cut to 255 characters, which still starts with the home directory |
| ListPtf.PrintFileHead | listptf.c:373-390 | nothing when the file does not open; otherwise the first `lines` lines of the file, or all of them when it has fewer |
| ListPtf.HeadingFor | listptf.c:228-234 | the summary heading exactly with -s, the verbose heading exactly with -v and no -s |
| ListPtf.ExitCode | listptf.c:71-262 | getopt's verdict when it stopped the run; otherwise 0 exactly when both files open, else 1 |
| WriteFile.SuffixTable | writefile.c:44-57 | the suffix table gives 1 for B, 1024 for K/KB, 1024^2 for M/MB, 1024^3 for G/GB, 1024^4 for T/TB in any case, and nothing for any other suffix |
| WriteFile.HexSizeValue | writefile.c:24-28 | a whole-string hexadecimal size never exceeds `ULLONG_MAX` |
| WriteFile.ParseSize | writefile.c:13-64 | the whitespace-skipping parser returns exactly the size `parse_size` defines for the string |
| WriteFile.SizeFits | writefile.c:13-64 | every size `parse_size` returns fits an `unsigned long long` |
| WriteFile.SkipSpaces | writefile.c:41 | the loop stops at the first character that is not C whitespace |
| WriteFile.LStripCSpaces | writefile.c:41 | skipping whitespace in front of a non-space character lands exactly on that character |
| WriteFile.DigitRunOf | writefile.c:32 | the digit run `strtod` reads in front of a non-digit is exactly the digits |
| WriteFile.ReadDecimal | writefile.c:32 | the decimal text of `n` followed by a delimiter reads back as `n` with the delimiter left over |
| WriteFile.StrtodDecimal | writefile.c:24-32 | `strtod` reads the decimal text of `n` as the non-negative `n`, and such a string never takes the hexadecimal path |
| WriteFile.StrtodNegative | writefile.c:32 | after a minus sign `strtod` reads the negative of `n` |
| WriteFile.DecimalSize | writefile.c:58-61 | a decimal byte count without suffix parses to itself |
| WriteFile.SuffixLetter | writefile.c:44-53 | every suffix in the table starts with one of the letters b, k, m, g, t |
| WriteFile.SuffixRead | writefile.c:39-57 | a count followed by whitespace and a suffix is scaled by that suffix after the whitespace |
| WriteFile.StrtodSpaced | writefile.c:32 | `strtod` stops at the whitespace after a count and leaves it, with the suffix, unread |
| WriteFile.SuffixScales | writefile.c:39-57 | a count, optional whitespace and a known suffix parse to the count times the suffix's unit |
| WriteFile.UnknownSuffixIsZero | writefile.c:54-56 | a count followed by whitespace alone or by an unknown suffix parses to 0 |
| WriteFile.NegativeIsZero | writefile.c:33-36 | a negative count parses to 0, with or without a suffix |
| WriteFile.HexUpperDigits | writefile.c:25 | the upper-case hexadecimal text of `n` is all hexadecimal digits and reads back as `n` |
| WriteFile.HexRunAll | writefile.c:25-26 | `strtoull` consumes a string made only of hexadecimal digits to its end |
| WriteFile.HexSizeRoundTrip | writefile.c:24-28 | `0x` and the hexadecimal digits of `n` parse to `n`, saturating at `ULLONG_MAX` |
| WriteFile.FormatSize | writefile.c:66-78 | a size is printed as an exact byte count exactly when it is below 1 KB |
| WriteFile.FormatSizeUnit | writefile.c:66-78 | the unit is the largest one the size reaches, so the printed number is at least 1 and, below TB, less than 1024; a size below 1 KB is printed as its exact decimal count followed by ` bytes` |
| WriteFile.PercentWrapsBackward | writefile.c:118 | with a 2^62-byte file the percentage as written reads 3 after one chunk and 0 after the next, because `written * 100` wraps modulo 2^64 |
| WriteFile.Percent | writefile.c:118 | the percentage of a write that has not passed the size is at most 100, and exactly 100 once all is written |
| WriteFile.PercentMonotone | writefile.c:118-123 | the percentage never goes down as more is written |
| WriteFile.PercentAgrees | writefile.c:118 | the percentage as written and the corrected one agree while `written * 100` fits 64 bits |
| WriteFile.FillPattern | writefile.c:91-93 | byte `i` of the buffer holds `i mod 256` |
| WriteFile.Chunk | writefile.c:105 | while bytes remain a chunk is non-empty, at most 8192 bytes and never past the size; a short chunk ends the file exactly |
| WriteFile.AppendKeepsPattern | writefile.c:104-115 | appending a pattern chunk at a multiple of the buffer size keeps every byte of the file equal to its offset modulo 256 |
| WriteFile.Report | writefile.c:119-123 | a percentage is printed only when it differs from the last one printed, which keeps the printed percentages rising and at most 100 |
| WriteFile.WriteFileLoop | writefile.c:80-133 | 1 when the file does not open (nothing written) or a write is short; 0 exactly when all `size` bytes are written; every byte equals its offset mod 256; the chunks are the full-buffer-or-rest sizes; printed percentages never decrease, stay at most 100 and end with 100 on success |
| WriteFile.MainExit | writefile.c:149-165 | 1 without exactly two arguments or when the size parses to 0; otherwise what `write_file` returns |
| WriteFile.DecimalArgumentWrites | writefile.c:149-165 | a positive decimal count reaches `write_file` and exits with its result, and a count of 0 exits with 1 |

## Left out

- Running `what`, `dump -h`, `dump -Tv` and `shutil.which` is not modelled. Each analyzer and the legacy captures receive the exit code, output, timeout or exception as a parameter.
- File-system access, JSON encoding and decoding, and timestamps are not modelled. Existence checks, file contents, directory listings, `stat` results, the registry text and the current time are parameters, and the JSON formatters are modelled by the object they serialise.
- Python's `re` engine is not modelled. The AIX `dump -h` pattern is written out as a matcher over the characters of the whole output. The other patterns, each applied to one line, are written out as explicit token matchers.
- Text.AllDigits: `str.isdigit` and the `\d` of a `str` pattern also accept digits outside ASCII (Arabic-Indic, Devanagari, superscripts and so on). The model accepts '0' to '9' only, and so does Text.IsDigit.
- Analyzers.IsWordChar: the `\w` of a `str` pattern also takes every letter and digit outside ASCII. The model takes ASCII letters, digits and '_' only.
- Text.ParseInt: `int()` also accepts '_' between digits and decimal digits outside ASCII. The model rejects both.
- Text.ParseHex: `int(_, 16)` also accepts '_' between digits. The model rejects it.
- Text.EscapeChar: for characters from U+0100 on, whether `repr` escapes them depends on Python's Unicode database. The model writes them unchanged, which is what `repr` does for the printable ones.
- Cli.CmdCompare: `capture` is a function of the path, so the model's two captures of one file are the same snapshot. A rerun of `what` or `dump` whose output changed between the two captures is not modelled. Captures that differ only in time are covered by Comparison.CompareRecaptured.
- Comparison.SameData: the data of "what", "dump-h" and "dump-T" results are typed records, so the model never takes a generic dict as equal to one of them. Python would if the keys and values matched. Python's `True == 1` and `False == 0` between a bool and an int value are not taken as equal either.
- Text.Atoi: C's `atoi` on a number outside the range of `int` is undefined, and the model returns the exact value instead. `-b`, `-n` and the member-count arguments all go through it, so such arguments are not modelled as any particular C library treats them.
- Output.FormatDiffBody: the error is named as Python 3.11 and earlier raise it (TypeError: unhashable type: 'slice'). From Python 3.12 on the same lookup raises a KeyError. Both stop formatting at the same entry.
- Python set iteration order is fixed to ascending string order. The source leaves it open.
- `Output.InfoJsonOf`: only the JSON shape of `format_info` is modelled. Its text form, `cmd_info` and `cmd_list` print and list files and are left out.
- `create_parser`, `get_formatter`, argparse and getopt parsing, usage and help texts, `print_report` of the legacy tool, and all progress and diagnostic printing are left out. They print and parse arguments only.
- The AIX user and group database calls (`getgrnam_r`, `getgrent`, `setuserdb`, `putuserattr`, `putgroupattr`, `getgroupattr`, `IDtouser`, `IDtogroup`, `getpwnam`, `enduserdb`) are not modelled. Their answers are parameters.
- A failing `malloc` is not modelled. The guarded allocations always succeed.
- The byte order in which the guard magic word is stored is a parameter. The source depends on the machine's byte order.
- Several parts of `getgrent_buffer_stress_test.c` only call the group database and print: `print_guard_status`, `read_group_aggressively`, `test_tiny_buffer`, `test_enumeration_with_stats`, `test_buffer_size_assumption_violation`, `test_overflow_detection` and `main`. They are left out.
- Several parts of `getgrent_test_suite.c` only drive the database and print: `create_test_group`, `aggressive_read`, `test_enumerate` and `test_small_buffer`. They are left out. `main` is modelled by its argument handling, and whether it runs as root is a parameter.
- `enumerate_groups` of `getgrent_test.c` walks `getgrent` and prints, and is left out.
- GetgrentTest.FillGuarded.constructor: it takes only sizes whose `size_t` total does not wrap. For the others the C writes past the block it allocated, which is undefined behaviour; GetgrentTest.LookupGroup reports that case as a heap overrun without building the buffer.
- `GetgrentTest.LookupGroup`: the library's writes into the user buffer are not modelled. The guard check it reports is therefore the value for an untouched buffer.
- `CreateGroups.CreateUsers`: the database answers are keyed by index. Which replies a real database gives for a name is not modelled.
- `show_status` and the printing part of `show_group_info` in `create_test_groups.c` are left out. Only the member count is modelled, and whether the program runs as root is a parameter.
- Running the query in `listptf.c` (the temporary SQL file, RUNSQLSTM, the QShell db2 fallback, `unlink`) is left out, and so is copying its output into the report. `fgets` is modelled as returning whole lines, so the splitting of lines longer than 511 characters is not modelled.
- `WriteFile.ParseSize`: `strtod` is modelled on integers below 2^53 only. Fractions, exponents, hexadecimal floats, infinities and larger values parse to `NotModelled`. A scaled value above `ULLONG_MAX`, whose conversion C leaves undefined, does too.
- `WriteFile.FormatSize`: only the choice of unit and the exact text below 1 KB are modelled. The `%.2f` digits are not.
- `WriteFile.FormatSizeUnit`: the upper bound of the printed number holds below 1 TB only, because terabytes are the largest unit.
- `WriteFile.WriteFileLoop`: the printed progress is stated as non-decreasing, at most 100 and ending in 100. The exact sequence of percentages is not stated. The loop uses the corrected percentage; the 64-bit wrap-around is stated by `WriteFile.PercentWrapsBackward`.
- `size_t` is taken to be 32 bits wide, as in a default 32-bit AIX build.

## Findings

| source | as written | input that shows it | evidently intended | confidence | as-written member | corrected member |
|---|---|---|---|---|---|---|
| tools/xcoff_tool/storage.py:42-46 | `rstrip(".json")` strips every trailing `.`, `j`, `s`, `o` and `n`, not the `.json` suffix | `/usr/bin/ls` is stored as `usr/bin/ls.json` and read back as `/usr/bin/l` | remove exactly the `.json` suffix, so every stored path reads back as itself | high, not executed | Storage.AsWrittenExample | Storage.PathRoundTrip |
| getgrent_test.c:317-318 | a negative `-b` value is converted to `size_t` before the `< 32` test, so it wraps to a huge size instead of being raised to 32 (getgrent_test_suite.c:764-765 does the same) | `-b -5` gives a buffer size of 4294967291, and `64 + size + 256` wraps to 315 bytes | sizes below 32, negative ones included, become 32 | high, not executed | GetgrentTest.NegativeBufSizeWraps | GroupLookup.BufSizeArg |
| writefile.c:118 | `written * 100` is computed in 64 bits and wraps once `written` passes about 1.8 × 10^17 bytes | a 2^62-byte file shows 3% after 184467440737091584 bytes and 0% one chunk later | a percentage that never goes down as more is written | medium, not executed | WriteFile.PercentWrapsBackward | WriteFile.PercentMonotone |
