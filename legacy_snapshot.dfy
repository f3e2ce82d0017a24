/**
 * `XCOFFSnapshot` of tools/xcoff_snapshot.py, the older stand-alone tool.
 *
 * The object collects `what`, `dump -h` and `dump -T` output into list
 * fields that its parsers append to while they track a few flags.  Running
 * the commands is outside the model: each capture receives the command's exit
 * code, stdout and stderr (a timeout or a missing command arrives as exit
 * code -1 with the message as stderr, as `run_command` reports them).  The
 * regular expressions of the parsers are written out as token matchers.
 * Every parsed dict becomes a datatype whose optional keys are Option fields,
 * so that datatype equality is the dict equality Python uses.
 */
module LegacySnapshot {
  import opened Text
  import Analyzers

  /** What `run_command` returns. */
  datatype CommandRun = CommandRun(code: int, stdout: string, stderr: string)

  /** One entry of `sections`.  Every parsed section has index, name, size and
      size_decimal; the other keys are present only when the parser set them. */
  datatype Section = Section(
    index: nat, name: string, size: string, sizeDecimal: int,
    virtualAddr: Option<string>, physicalAddr: Option<string>, offset: Option<string>,
    alignment: Option<string>, relocation: Option<string>, lineNumbers: Option<string>,
    flags: Option<string>)

  /** One entry of `loader_symbols`: a line the symbol pattern matched, or the
      `{"raw", "parts"}` fallback. */
  datatype LoaderSymbol =
    | Matched(index: nat, value: string, section: string, imex: string, sclass: string,
              symbolType: string, impid: string, name: string)
    | Unmatched(raw: string, parts: seq<string>)

  /** One entry of `imports`: a symbol `{"name", "source", "type"}` or an
      import-file line `{"index", "path", "base", "member", "raw"}`. */
  datatype ImportEntry =
    | SymbolImport(name: string, source: string, symbolType: string)
    | ImportFile(index: string, path: string, base: string, member: string, raw: string)

  /** One entry of `exports`: `{"name", "value", "section", "type"}`. */
  datatype ExportEntry = ExportEntry(name: string, value: string, section: string, symbolType: string)

  /** `output.strip().split('\n')` */
  function OutputLines(output: string): (r: seq<string>)
    ensures |r| >= 1
  {
    SplitOn(Strip(output), '\n')
  }

  /** `parts[k] if len(parts) > k else ''` */
  function FieldOr(parts: seq<string>, k: nat): string {
    if k < |parts| then parts[k] else ""
  }

  function OptionalField(parts: seq<string>, k: nat): (r: Option<string>)
    ensures r.Some? <==> k < |parts|
    ensures r.Some? ==> r.value == parts[k]
  {
    if k < |parts| then Some(parts[k]) else None
  }

  // ---------------------------------------------------------------------
  // `capture_what`
  // ---------------------------------------------------------------------

  /** The identification strings of `what` output: the stripped lines that are
      non-empty and do not end with ':', in order. */
  function WhatLines(stdout: string): seq<string> {
    var lines := OutputLines(stdout);
    Analyzers.KeptLines(lines, |lines|)
  }

  /** The loop of `capture_what`: the kept stripped lines, in order. */
  method KeptOutputLines(stdout: string) returns (strings: seq<string>)
    ensures strings == WhatLines(stdout)
  {
    var lines := OutputLines(stdout);
    strings := [];
    for i := 0 to |lines|
      invariant strings == Analyzers.KeptLines(lines, i)
    {
      var s := Strip(lines[i]);
      if s != [] && s[|s| - 1] != ':' {
        strings := strings + [s];
      }
    }
  }

  /** A string is reported exactly when it is a kept stripped line of the
      output; it has no surrounding whitespace, and there is at most one per line. */
  lemma WhatLinesMeaning(stdout: string)
    ensures var lines := OutputLines(stdout);
      && (forall x :: x in WhatLines(stdout) <==>
            Analyzers.Kept(x) && exists i :: 0 <= i < |lines| && Strip(lines[i]) == x)
      && |WhatLines(stdout)| <= |lines|
    ensures forall x :: x in WhatLines(stdout) ==> x != [] && x[|x| - 1] != ':' && !IsSpace(x[0]) && !IsSpace(x[|x| - 1])
  {
    var lines := OutputLines(stdout);
    Analyzers.KeptLinesMembers(lines, |lines|);
    Analyzers.KeptLinesShape(lines, |lines|);
    Analyzers.KeptLinesBound(lines, |lines|);
  }

  // ---------------------------------------------------------------------
  // Token matchers for the two regular expressions
  // ---------------------------------------------------------------------

  /** `0x[0-9a-fA-F]+` matching a whole token. */
  predicate IsHexToken(t: string) {
    |t| >= 3 && t[0] == '0' && t[1] == 'x' && forall i :: 2 <= i < |t| ==> IsHexDigit(t[i])
  }

  /** `\[\s*(\d+)\]` at the start of `line`: the index and the text after `]`. */
  function BracketIndex(line: string): (r: Option<(nat, string)>)
    ensures r.Some? ==> |line| > 0 && line[0] == '['
  {
    if |line| > 0 && line[0] == '[' then
      var t := LStrip(line[1..]);
      var k := DigitRun(t);
      if 0 < k < |t| && t[k] == ']' then Some((DigitsValue(t[..k]), t[k + 1..])) else None
    else None
  }

  /**
   * `\[\s*(\d+)\]\s+(\S+)\s+(0x[0-9a-fA-F]+)\s+(0x[0-9a-fA-F]+)\s+(0x[0-9a-fA-F]+)`
   * matched at the start of the line.  The name and the two address groups are
   * whole tokens; the size group is "0x" and the longest run of hex digits at
   * the start of the fourth token after the bracket.
   */
  function AixHead(line: string): (r: Option<Section>)
    ensures r.Some? ==> |line| > 0 && line[0] == '['
    ensures r.Some? ==> r.value.physicalAddr.Some? && r.value.virtualAddr.Some?
    ensures r.Some? ==> r.value.offset.None? && r.value.alignment.None? && r.value.relocation.None?
    ensures r.Some? ==> r.value.lineNumbers.None? && r.value.flags.None?
    ensures r.Some? ==> |r.value.size| >= 3 && r.value.size[..2] == "0x"
  {
    match BracketIndex(line)
    case None => None
    case Some((index, after)) =>
      var ts := Tokens(after);
      if |after| > 0 && IsSpace(after[0]) && |ts| >= 4 && IsHexToken(ts[1]) && IsHexToken(ts[2])
         && |ts[3]| >= 3 && ts[3][0] == '0' && ts[3][1] == 'x' && IsHexDigit(ts[3][2])
      then
        var digits := ts[3][2..][..HexRun(ts[3][2..])];
        Some(Section(index, ts[0], "0x" + digits, HexDigitsValue(digits), Some(ts[2]), Some(ts[1]),
                     None, None, None, None, None))
      else None
  }

  /** `size_decimal` of a section head is `int(size, 16)`. */
  lemma AixHeadSize(line: string)
    requires AixHead(line).Some?
    ensures ParseHex(AixHead(line).value.size) == Some(AixHead(line).value.sizeDecimal)
  {
    var (_, after) := BracketIndex(line).value;
    var t := Tokens(after)[3][2..];
    var digits := t[..HexRun(t)];
    assert AixHead(line).value.size == "0x" + digits;
    assert AixHead(line).value.sizeDecimal == HexDigitsValue(digits);
    ParseHexPrefixed(digits);
  }

  /**
   * `\[\s*(\d+)\]\s+(0x[0-9a-fA-F]+)\s+(\S+)\s+(\S+)\s+(\S+)\s+(\S+)\s+(\S+)\s+(\S+)`
   * matched at the start of the line: the value and the six following tokens.
   */
  function SymbolMatch(line: string): (r: Option<LoaderSymbol>)
    ensures r.Some? ==> r.value.Matched? && IsHexToken(r.value.value)
  {
    match BracketIndex(line)
    case None => None
    case Some((index, after)) =>
      var ts := Tokens(after);
      if |after| > 0 && IsSpace(after[0]) && |ts| >= 7 && IsHexToken(ts[0]) then
        Some(Matched(index, ts[0], ts[1], ts[2], ts[3], ts[4], ts[5], ts[6]))
      else None
  }

  // ---------------------------------------------------------------------
  // `_parse_section_headers`
  // ---------------------------------------------------------------------

  /** A line that switches the header flag on (and is never parsed itself). */
  predicate IsHeaderMarker(line: string) {
    Contains(line, "Section Header") || Contains(line, "Idx")
  }

  /** A row of the simpler `index name size [vma [lma [offset]]]` layout:
      at least three tokens, the first all digits.  The size is read as hex
      whether or not it carries "0x"; an unreadable size gives 0. */
  function SimpleRow(parts: seq<string>): (r: Option<Section>)
    ensures r.Some? <==> |parts| >= 3 && AllDigits(parts[0])
    ensures r.Some? ==> r.value.name == parts[1] && r.value.size == parts[2]
    ensures r.Some? ==> r.value.virtualAddr == OptionalField(parts, 3) && r.value.physicalAddr == OptionalField(parts, 4)
    ensures r.Some? ==> r.value.sizeDecimal == (if ParseHex(parts[2]).Some? then ParseHex(parts[2]).value else 0)
  {
    if |parts| >= 3 && AllDigits(parts[0]) then
      var size := ParseHex(parts[2]);
      Some(Section(DigitsValue(parts[0]), parts[1], parts[2], if size.Some? then size.value else 0,
                   OptionalField(parts, 3), OptionalField(parts, 4), OptionalField(parts, 5),
                   None, None, None, None))
    else None
  }

  /** A continuation line sets offset, alignment, relocation, line numbers and
      flags from its first five tokens, and only when it has five. */
  function Continued(s: Section, parts: seq<string>): (r: Section)
    ensures r.index == s.index && r.name == s.name && r.size == s.size && r.sizeDecimal == s.sizeDecimal
    ensures r.virtualAddr == s.virtualAddr && r.physicalAddr == s.physicalAddr
    ensures |parts| < 5 ==> r == s
    ensures |parts| >= 5 ==> r.offset == Some(parts[0]) && r.flags == Some(parts[4])
  {
    if |parts| >= 5 then
      s.(offset := Some(parts[0]), alignment := Some(parts[1]), relocation := Some(parts[2]),
         lineNumbers := Some(parts[3]), flags := Some(parts[4]))
    else s
  }
  /** What a line means to `_parse_section_headers`, before the state is consulted. */
  datatype HeaderLine =
    | Blank
    | Marker
    | Head(section: Section)                          // the `[n] name 0x.. 0x.. 0x..` pattern
    | Lead0x(parts: seq<string>, row: Option<Section>) // a stripped line starting with "0x"
    | Plain(row: Option<Section>)                     // anything else

  /** The checks of the loop body that do not depend on the state, in their order. */
  function ClassifyHeaderLine(line: string): HeaderLine {
    if Strip(line) == [] then Blank
    else if IsHeaderMarker(line) then Marker
    else match AixHead(line)
      case Some(s) => Head(s)
      case None =>
        if StartsWith(Strip(line), "0x") then Lead0x(Tokens(line), SimpleRow(Tokens(line)))
        else Plain(SimpleRow(Tokens(line)))
  }

  /** Blank lines and markers are told apart first; a head is the section
      pattern on any other line; a "0x" line may continue the pending section. */
  lemma ClassifyHeaderLineMeaning(line: string)
    ensures var c := ClassifyHeaderLine(line);
      && (c.Blank? <==> Strip(line) == [])
      && (c.Marker? <==> Strip(line) != [] && IsHeaderMarker(line))
      && (c.Head? <==> IsContent(line) && AixHead(line).Some?)
      && (c.Head? ==> c.section == AixHead(line).value)
      && (c.Lead0x? <==> IsContent(line) && AixHead(line).None? && StartsWith(Strip(line), "0x"))
      && (c.Lead0x? ==> c.parts == Tokens(line))
      && (c.Lead0x? || c.Plain? ==> c.row == SimpleRow(Tokens(line)))
  {
  }

  /** A line that counts for the parser: non-blank and not a marker. */
  predicate IsContent(line: string) {
    Strip(line) != [] && !IsHeaderMarker(line)
  }

  /** The parser's state: `in_headers`, `current_section` ({} is None) and
      the sections list. */
  datatype HeaderScan = HeaderScan(inHeaders: bool, current: Option<Section>, sections: seq<Section>)

  function AddRow(st: HeaderScan, row: Option<Section>): HeaderScan {
    if row.Some? then st.(sections := st.sections + [row.value]) else st
  }

  /** What one line does to the state: a head flushes the pending section and
      takes its place, a "0x" line continues the pending section, and a simple
      row is appended at once. */
  function HeaderStep(st: HeaderScan, c: HeaderLine): HeaderScan {
    match c
    case Blank => st
    case Marker => st.(inHeaders := true)
    case Head(s) =>
      if !st.inHeaders then st
      else HeaderScan(true, Some(s), if st.current.Some? then st.sections + [st.current.value] else st.sections)
    case Lead0x(parts, row) =>
      if !st.inHeaders then st
      else if st.current.Some? then st.(current := Some(Continued(st.current.value, parts)))
      else AddRow(st, row)
    case Plain(row) =>
      if !st.inHeaders then st else AddRow(st, row)
  }

  /** The body of the `_parse_section_headers` loop for one classified line. */
  method ScanHeaderLine(inHeaders: bool, current: Option<Section>, sections: seq<Section>, c: HeaderLine)
    returns (inHeaders': bool, current': Option<Section>, sections': seq<Section>)
    ensures HeaderScan(inHeaders', current', sections') == HeaderStep(HeaderScan(inHeaders, current, sections), c)
  {
    inHeaders', current', sections' := inHeaders, current, sections;
    match c {
      case Blank =>
      case Marker =>
        inHeaders' := true;
      case Head(head) =>
        if inHeaders {
          if current.Some? {
            sections' := sections + [current.value];
          }
          current' := Some(head);
        }
      case Lead0x(parts, row) =>
        if inHeaders {
          if current.Some? {
            current' := Some(Continued(current.value, parts));
          } else if row.Some? {
            sections' := sections + [row.value];
          }
        }
      case Plain(row) =>
        if inHeaders && row.Some? {
          sections' := sections + [row.value];
        }
    }
  }

  /** The state after the first `n` lines, starting from `prior` sections;
      `classify` is `ClassifyHeaderLine`. */
  function HeaderScanOf(lines: seq<string>, n: nat, prior: seq<Section>, classify: string -> HeaderLine): HeaderScan
    requires n <= |lines|
  {
    if n == 0 then HeaderScan(false, None, prior)
    else HeaderStep(HeaderScanOf(lines, n - 1, prior, classify), classify(lines[n - 1]))
  }

  /** "Don't forget the last section": the pending section is appended unless
      an equal dict is already in the list. */
  function Finish(st: HeaderScan): seq<Section> {
    if st.current.Some? && st.current.value !in st.sections then st.sections + [st.current.value]
    else st.sections
  }

  /** The sections list after `_parse_section_headers(output)`. */
  function ParsedSections(prior: seq<Section>, output: string): seq<Section> {
    var lines := OutputLines(output);
    Finish(HeaderScanOf(lines, |lines|, prior, ClassifyHeaderLine))
  }

  /** Nothing happens before the first marker line. */
  lemma {:induction false} NothingBeforeMarker(lines: seq<string>, n: nat, prior: seq<Section>, classify: string -> HeaderLine)
    requires n <= |lines|
    requires forall i :: 0 <= i < n ==> !classify(lines[i]).Marker?
    ensures HeaderScanOf(lines, n, prior, classify) == HeaderScan(false, None, prior)
  {
    if n > 0 {
      NothingBeforeMarker(lines, n - 1, prior, classify);
    }
  }

  /** The flag is up exactly when a marker line has been seen. */
  lemma {:induction false} InHeadersMeaning(lines: seq<string>, n: nat, prior: seq<Section>, classify: string -> HeaderLine)
    requires n <= |lines|
    ensures HeaderScanOf(lines, n, prior, classify).inHeaders <==> exists i :: 0 <= i < n && classify(lines[i]).Marker?
  {
    if n > 0 {
      InHeadersMeaning(lines, n - 1, prior, classify);
    }
  }

  /** A head line with the index and name of `s` (continuation lines may
      have added fields since). */
  predicate HeadOf(c: HeaderLine, s: Section) {
    c.Head? && c.section.index == s.index && c.section.name == s.name
  }

  /** A line that yields section `s`: its head, or a simple row equal to it. */
  predicate Yields(c: HeaderLine, s: Section) {
    HeadOf(c, s) || ((c.Lead0x? || c.Plain?) && c.row == Some(s))
  }

  /** One line appends at most one section, which is the flushed pending
      section or one the line yields; the pending section keeps its index and
      name or comes from the line. */
  lemma StepSound(st: HeaderScan, c: HeaderLine)
    ensures var after := HeaderStep(st, c);
      && |st.sections| <= |after.sections| <= |st.sections| + 1
      && after.sections[..|st.sections|] == st.sections
      && (|after.sections| > |st.sections| ==>
            (st.current.Some? && after.sections[|st.sections|] == st.current.value) || Yields(c, after.sections[|st.sections|]))
      && (after.current.Some? ==>
            (st.current.Some? && after.current.value.index == st.current.value.index && after.current.value.name == st.current.value.name)
            || HeadOf(c, after.current.value))
  {
  }

  /** The earlier sections stay in place, every later section was yielded by
      some line, and the pending section came from a head line. */
  lemma {:induction false} ScanSound(lines: seq<string>, n: nat, prior: seq<Section>, classify: string -> HeaderLine)
    requires n <= |lines|
    ensures |prior| <= |HeaderScanOf(lines, n, prior, classify).sections|
    ensures HeaderScanOf(lines, n, prior, classify).sections[..|prior|] == prior
    ensures forall k :: |prior| <= k < |HeaderScanOf(lines, n, prior, classify).sections| ==>
      exists i :: 0 <= i < n && Yields(classify(lines[i]), HeaderScanOf(lines, n, prior, classify).sections[k])
    ensures HeaderScanOf(lines, n, prior, classify).current.Some? ==>
      exists i :: 0 <= i < n && HeadOf(classify(lines[i]), HeaderScanOf(lines, n, prior, classify).current.value)
  {
    if n > 0 {
      ScanSound(lines, n - 1, prior, classify);
      var before := HeaderScanOf(lines, n - 1, prior, classify);
      var after := HeaderScanOf(lines, n, prior, classify);
      var c := classify(lines[n - 1]);
      StepSound(before, c);
      forall k | |prior| <= k < |after.sections|
        ensures exists i :: 0 <= i < n && Yields(classify(lines[i]), after.sections[k])
      {
        if k < |before.sections| {
          assert after.sections[k] == before.sections[k];
        } else if Yields(c, after.sections[k]) {
        } else {
          var i :| 0 <= i < n - 1 && HeadOf(classify(lines[i]), before.current.value);
          assert Yields(classify(lines[i]), after.sections[k]);
        }
      }
      if after.current.Some? && !HeadOf(c, after.current.value) {
        var i :| 0 <= i < n - 1 && HeadOf(classify(lines[i]), before.current.value);
        assert HeadOf(classify(lines[i]), after.current.value);
      }
    }
  }

  /** The sections list only grows. */
  lemma {:induction false} ScanPrefix(lines: seq<string>, n: nat, prior: seq<Section>, classify: string -> HeaderLine)
    requires n <= |lines|
    ensures |prior| <= |HeaderScanOf(lines, n, prior, classify).sections|
  {
    if n > 0 {
      ScanPrefix(lines, n - 1, prior, classify);
      StepSound(HeaderScanOf(lines, n - 1, prior, classify), classify(lines[n - 1]));
    }
  }

  /** `(index, name)` is among the sections from position `from` on, or pending. */
  predicate Holds(st: HeaderScan, from: nat, index: nat, name: string) {
    (exists k :: from <= k < |st.sections| && st.sections[k].index == index && st.sections[k].name == name)
    || (st.current.Some? && st.current.value.index == index && st.current.value.name == name)
  }

  /** A held pair survives one more line. */
  lemma HoldsStep(st: HeaderScan, c: HeaderLine, from: nat, index: nat, name: string)
    requires from <= |st.sections|
    requires Holds(st, from, index, name)
    ensures Holds(HeaderStep(st, c), from, index, name)
  {
    var after := HeaderStep(st, c);
    assert after.sections[..|st.sections|] == st.sections;
    if exists k :: from <= k < |st.sections| && st.sections[k].index == index && st.sections[k].name == name {
      var k :| from <= k < |st.sections| && st.sections[k].index == index && st.sections[k].name == name;
      assert after.sections[k] == st.sections[k];
    } else if c.Head? && st.inHeaders {
      assert after.sections[|st.sections|] == st.current.value;
    }
  }

  /** A head read while the flag is up becomes the pending section. */
  lemma HoldsNew(st: HeaderScan, c: HeaderLine, from: nat)
    requires st.inHeaders && c.Head?
    ensures Holds(HeaderStep(st, c), from, c.section.index, c.section.name)
  {
  }

  /** Every section head read while the flag is up is still listed or pending. */
  lemma {:induction false} ScanComplete(lines: seq<string>, n: nat, prior: seq<Section>, classify: string -> HeaderLine)
    requires n <= |lines|
    ensures forall i :: 0 <= i < n && HeaderScanOf(lines, i, prior, classify).inHeaders && classify(lines[i]).Head? ==>
      Holds(HeaderScanOf(lines, n, prior, classify), |prior|, classify(lines[i]).section.index, classify(lines[i]).section.name)
  {
    forall i | 0 <= i < n && HeaderScanOf(lines, i, prior, classify).inHeaders && classify(lines[i]).Head?
      ensures Holds(HeaderScanOf(lines, n, prior, classify), |prior|, classify(lines[i]).section.index, classify(lines[i]).section.name)
    {
      HeadHolds(lines, n, prior, classify, i);
    }
  }

  /** The head read at line `i` is still listed or pending after line `n - 1`. */
  lemma {:induction false} HeadHolds(lines: seq<string>, n: nat, prior: seq<Section>, classify: string -> HeaderLine, i: nat)
    requires i < n <= |lines|
    requires HeaderScanOf(lines, i, prior, classify).inHeaders && classify(lines[i]).Head?
    ensures Holds(HeaderScanOf(lines, n, prior, classify), |prior|, classify(lines[i]).section.index, classify(lines[i]).section.name)
  {
    var before := HeaderScanOf(lines, n - 1, prior, classify);
    var c := classify(lines[n - 1]);
    assert HeaderScanOf(lines, n, prior, classify) == HeaderStep(before, c);
    if i < n - 1 {
      HeadHolds(lines, n - 1, prior, classify, i);
      ScanPrefix(lines, n - 1, prior, classify);
      HoldsStep(before, c, |prior|, classify(lines[i]).section.index, classify(lines[i]).section.name);
    } else {
      HoldsNew(before, c, |prior|);
    }
  }

  /** Finishing keeps every listed section and the pending one, and adds at most one. */
  lemma FinishKeeps(st: HeaderScan)
    ensures forall s :: s in st.sections ==> s in Finish(st)
    ensures st.current.Some? ==> st.current.value in Finish(st)
    ensures |Finish(st)| <= |st.sections| + 1
  {
  }

  /** The `not in` test drops a repeated last section head: a marker and two
      identical head lines give one section. */
  lemma RepeatedLastHeadCollapses(marker: string, head: string)
    requires Strip(marker) != [] && IsHeaderMarker(marker)
    requires IsContent(head) && AixHead(head).Some?
    ensures Finish(HeaderScanOf([marker, head, head], 3, [], ClassifyHeaderLine)) == [AixHead(head).value]
  {
    var lines := [marker, head, head];
    var s := AixHead(head).value;
    ClassifyHeaderLineMeaning(marker);
    ClassifyHeaderLineMeaning(head);
    assert ClassifyHeaderLine(marker) == Marker;
    assert ClassifyHeaderLine(head) == Head(s);
    assert HeaderScanOf(lines, 1, [], ClassifyHeaderLine) == HeaderScan(true, None, []);
    assert HeaderScanOf(lines, 2, [], ClassifyHeaderLine) == HeaderScan(true, Some(s), []);
    assert HeaderScanOf(lines, 3, [], ClassifyHeaderLine) == HeaderScan(true, Some(s), [s]);
  }

  // ---------------------------------------------------------------------
  // `_parse_loader_symbols`
  // ---------------------------------------------------------------------

  predicate IsSymbolTableMarker(line: string) {
    Contains(line, "Symbol") && Contains(line, "Table")
  }

  predicate IsImportStringsMarker(line: string) {
    Contains(line, "Import File Strings")
  }

  /** An import-file line: at least two tokens. */
  function ImportFileLine(line: string): (r: Option<ImportEntry>)
    ensures r.Some? <==> |Tokens(line)| >= 2
    ensures r.Some? ==> r.value.ImportFile? && r.value.path == Tokens(line)[1] && r.value.raw == Strip(line)
  {
    var parts := Tokens(line);
    if |parts| >= 2 then
      Some(ImportFile(if AllDigits(parts[0]) then parts[0] else "", parts[1], FieldOr(parts, 2), FieldOr(parts, 3), Strip(line)))
    else None
  }

  /** A symbol-table line: the symbol pattern, or the raw fallback for four or more tokens. */
  function SymbolLine(line: string): (r: Option<LoaderSymbol>)
    ensures SymbolMatch(line).Some? ==> r == SymbolMatch(line)
    ensures SymbolMatch(line).None? ==> (r.Some? <==> |Tokens(line)| >= 4)
    ensures SymbolMatch(line).None? && r.Some? ==> r.value == Unmatched(Strip(line), Tokens(line))
  {
    if SymbolMatch(line).Some? then SymbolMatch(line)
    else if |Tokens(line)| >= 4 then Some(Unmatched(Strip(line), Tokens(line)))
    else None
  }

  /** Whether a matched symbol is filed as an import. */
  predicate IsImported(sym: LoaderSymbol)
    requires sym.Matched?
  {
    sym.imex == "IMP" || sym.section == "undef"
  }

  /** Whether a matched symbol is filed as an export. */
  predicate IsExported(sym: LoaderSymbol)
    requires sym.Matched?
  {
    !IsImported(sym) && sym.imex == "EXP"
  }

  function ImportOf(sym: LoaderSymbol): ImportEntry
    requires sym.Matched?
  {
    SymbolImport(sym.name, sym.impid, sym.symbolType)
  }

  function ExportOf(sym: LoaderSymbol): ExportEntry
    requires sym.Matched?
  {
    ExportEntry(sym.name, sym.value, sym.section, sym.symbolType)
  }

  /** What a line means to `_parse_loader_symbols`, before the flags are consulted. */
  datatype LoaderLine =
    | Skipped
    | TableMarker
    | ImportsMarker
    | Entry(importFile: Option<ImportEntry>, symbol: Option<LoaderSymbol>)

  function ClassifyLoaderLine(line: string): LoaderLine {
    if Strip(line) == [] then Skipped
    else if IsSymbolTableMarker(line) then TableMarker
    else if IsImportStringsMarker(line) then ImportsMarker
    else Entry(ImportFileLine(line), SymbolLine(line))
  }

  /** The symbol-table marker is tested before the import-strings marker, so
      a line holding both only switches symbol parsing on. */
  lemma ClassifyLoaderLineMeaning(line: string)
    ensures var c := ClassifyLoaderLine(line);
      && (c.Skipped? <==> Strip(line) == [])
      && (c.TableMarker? <==> Strip(line) != [] && IsSymbolTableMarker(line))
      && (c.ImportsMarker? <==> Strip(line) != [] && !IsSymbolTableMarker(line) && IsImportStringsMarker(line))
      && (c.Entry? ==> c.importFile == ImportFileLine(line) && c.symbol == SymbolLine(line))
  {
  }

  /** The parser's state: `in_symbols`, `in_imports` and the three lists. */
  datatype LoaderScan = LoaderScan(
    inSymbols: bool, inImports: bool,
    symbols: seq<LoaderSymbol>, imports: seq<ImportEntry>, exports: seq<ExportEntry>)

  /** Filing one symbol: listed once, and filed once more as an import when it
      is IMP or undefined, else as an export when it is EXP. */
  function FileSymbol(st: LoaderScan, sym: LoaderSymbol): (r: LoaderScan)
    ensures r.inSymbols == st.inSymbols && r.inImports == st.inImports
    ensures r.symbols == st.symbols + [sym]
    ensures r.imports == st.imports + (if sym.Matched? && IsImported(sym) then [ImportOf(sym)] else [])
    ensures r.exports == st.exports + (if sym.Matched? && IsExported(sym) then [ExportOf(sym)] else [])
  {
    if sym.Matched? && IsImported(sym) then
      st.(symbols := st.symbols + [sym], imports := st.imports + [ImportOf(sym)])
    else if sym.Matched? && sym.imex == "EXP" then
      st.(symbols := st.symbols + [sym], exports := st.exports + [ExportOf(sym)])
    else st.(symbols := st.symbols + [sym])
  }

  /** What one line does to the state. */
  function LoaderStep(st: LoaderScan, c: LoaderLine): LoaderScan {
    match c
    case Skipped => st
    case TableMarker => st.(inSymbols := true)
    case ImportsMarker => st.(inImports := true, inSymbols := false)
    case Entry(importFile, symbol) =>
      if st.inImports then
        (if importFile.Some? then st.(imports := st.imports + [importFile.value]) else st)
      else if !st.inSymbols || symbol.None? then st
      else FileSymbol(st, symbol.value)
  }

  /** The body of the `_parse_loader_symbols` loop for one classified line. */
  method ScanLoaderLine(inSymbols: bool, inImports: bool, symbols: seq<LoaderSymbol>, imports: seq<ImportEntry>,
                        exports: seq<ExportEntry>, c: LoaderLine)
    returns (inSymbols': bool, inImports': bool, symbols': seq<LoaderSymbol>, imports': seq<ImportEntry>,
             exports': seq<ExportEntry>)
    ensures LoaderScan(inSymbols', inImports', symbols', imports', exports')
      == LoaderStep(LoaderScan(inSymbols, inImports, symbols, imports, exports), c)
  {
    inSymbols', inImports', symbols', imports', exports' := inSymbols, inImports, symbols, imports, exports;
    match c {
      case Skipped =>
      case TableMarker =>
        inSymbols' := true;
      case ImportsMarker =>
        inImports' := true;
        inSymbols' := false;
      case Entry(importFile, symbol) =>
        if inImports {
          if importFile.Some? {
            imports' := imports + [importFile.value];
          }
        } else if inSymbols && symbol.Some? {
          var sym := symbol.value;
          symbols' := symbols + [sym];
          if sym.Matched? && (sym.imex == "IMP" || sym.section == "undef") {
            imports' := imports + [ImportOf(sym)];
          } else if sym.Matched? && sym.imex == "EXP" {
            exports' := exports + [ExportOf(sym)];
          }
        }
    }
  }

  /** The state after the first `n` lines, starting from `start`; `classify`
      is `ClassifyLoaderLine`. */
  function LoaderScanOf(lines: seq<string>, n: nat, start: LoaderScan, classify: string -> LoaderLine): LoaderScan
    requires n <= |lines|
  {
    if n == 0 then start else LoaderStep(LoaderScanOf(lines, n - 1, start, classify), classify(lines[n - 1]))
  }

  /** The fresh state of one `_parse_loader_symbols` call. */
  function LoaderStart(symbols: seq<LoaderSymbol>, imports: seq<ImportEntry>, exports: seq<ExportEntry>): LoaderScan {
    LoaderScan(false, false, symbols, imports, exports)
  }

  /** The state after a whole `_parse_loader_symbols(output)` call. */
  function ParsedLoader(start: LoaderScan, output: string): LoaderScan {
    var lines := OutputLines(output);
    LoaderScanOf(lines, |lines|, start, ClassifyLoaderLine)
  }

  /** Lines before a symbol-table or import-strings marker are ignored. */
  lemma {:induction false} LoaderIgnoresPreamble(lines: seq<string>, n: nat, start: LoaderScan, classify: string -> LoaderLine)
    requires n <= |lines|
    requires !start.inSymbols && !start.inImports
    requires forall i :: 0 <= i < n ==> !classify(lines[i]).TableMarker? && !classify(lines[i]).ImportsMarker?
    ensures LoaderScanOf(lines, n, start, classify) == start
  {
    if n > 0 {
      LoaderIgnoresPreamble(lines, n - 1, start, classify);
    }
  }

  /** Once the import strings have begun, symbol parsing never resumes: the
      symbols and exports stay as they were, and only import-file entries follow. */
  lemma {:induction false} ImportStringsLast(lines: seq<string>, m: nat, n: nat, start: LoaderScan, classify: string -> LoaderLine)
    requires m <= n <= |lines|
    requires LoaderScanOf(lines, m, start, classify).inImports
    requires forall i :: 0 <= i < |lines| && classify(lines[i]).Entry? && classify(lines[i]).importFile.Some? ==>
      classify(lines[i]).importFile.value.ImportFile?
    ensures LoaderScanOf(lines, n, start, classify).inImports
    ensures LoaderScanOf(lines, n, start, classify).symbols == LoaderScanOf(lines, m, start, classify).symbols
    ensures LoaderScanOf(lines, n, start, classify).exports == LoaderScanOf(lines, m, start, classify).exports
    ensures |LoaderScanOf(lines, m, start, classify).imports| <= |LoaderScanOf(lines, n, start, classify).imports|
    ensures forall k :: |LoaderScanOf(lines, m, start, classify).imports| <= k < |LoaderScanOf(lines, n, start, classify).imports| ==>
      LoaderScanOf(lines, n, start, classify).imports[k].ImportFile?
  {
    if n > m {
      ImportStringsLast(lines, m, n - 1, start, classify);
      var before := LoaderScanOf(lines, n - 1, start, classify);
      var after := LoaderScanOf(lines, n, start, classify);
      assert after.imports[..|before.imports|] == before.imports;
    }
  }

  /** One line lists at most one symbol, and adds an export only together
      with the exported symbol it lists. */
  lemma LoaderStepSound(st: LoaderScan, c: LoaderLine)
    ensures var after := LoaderStep(st, c);
      && |st.symbols| <= |after.symbols| <= |st.symbols| + 1
      && after.symbols[..|st.symbols|] == st.symbols
      && |st.exports| <= |after.exports| <= |st.exports| + 1
      && after.exports[..|st.exports|] == st.exports
      && (|after.exports| > |st.exports| ==>
            && |after.symbols| > |st.symbols|
            && after.symbols[|st.symbols|].Matched?
            && IsExported(after.symbols[|st.symbols|])
            && ExportOf(after.symbols[|st.symbols|]) == after.exports[|st.exports|])
  {
  }

  /** Some symbol of `symbols[from..]` is a matched EXP symbol filed as export `e`. */
  predicate ExportedFrom(symbols: seq<LoaderSymbol>, from: nat, e: ExportEntry) {
    exists j :: from <= j < |symbols| && symbols[j].Matched? && IsExported(symbols[j]) && ExportOf(symbols[j]) == e
  }

  /** Every export comes from a matched EXP symbol, listed at or after the
      same point, that is not filed as an import. */
  lemma {:induction false} ExportsFromSymbols(lines: seq<string>, n: nat, start: LoaderScan, classify: string -> LoaderLine)
    requires n <= |lines|
    ensures |start.exports| <= |LoaderScanOf(lines, n, start, classify).exports|
    ensures |start.symbols| <= |LoaderScanOf(lines, n, start, classify).symbols|
    ensures forall k :: |start.exports| <= k < |LoaderScanOf(lines, n, start, classify).exports| ==>
      ExportedFrom(LoaderScanOf(lines, n, start, classify).symbols, |start.symbols|, LoaderScanOf(lines, n, start, classify).exports[k])
  {
    if n > 0 {
      ExportsFromSymbols(lines, n - 1, start, classify);
      var before := LoaderScanOf(lines, n - 1, start, classify);
      var after := LoaderScanOf(lines, n, start, classify);
      LoaderStepSound(before, classify(lines[n - 1]));
      forall k | |start.exports| <= k < |after.exports|
        ensures ExportedFrom(after.symbols, |start.symbols|, after.exports[k])
      {
        if k < |before.exports| {
          assert after.exports[k] == before.exports[k];
          var j :| |start.symbols| <= j < |before.symbols|
            && before.symbols[j].Matched? && IsExported(before.symbols[j]) && ExportOf(before.symbols[j]) == before.exports[k];
          assert after.symbols[j] == before.symbols[j];
        } else {
          assert ExportOf(after.symbols[|before.symbols|]) == after.exports[k];
        }
      }
    }
  }

  // ---------------------------------------------------------------------
  // The snapshot object
  // ---------------------------------------------------------------------

  /** `to_dict()['summary']` */
  datatype Summary = Summary(
    whatCount: nat, sectionCount: nat, symbolCount: nat, importCount: nat, exportCount: nat,
    totalSectionSize: int)

  /** `sum(s.get('size_decimal', 0) for s in sections)`; every parsed section has the key. */
  function TotalSize(sections: seq<Section>): int {
    if sections == [] then 0 else TotalSize(sections[..|sections| - 1]) + sections[|sections| - 1].sizeDecimal
  }

  /** The total of a concatenation is the sum of the totals. */
  lemma {:induction false} TotalSizeAppend(a: seq<Section>, b: seq<Section>)
    ensures TotalSize(a + b) == TotalSize(a) + TotalSize(b)
  {
    if b == [] {
      assert a + b == a;
    } else {
      TotalSizeAppend(a, b[..|b| - 1]);
      assert (a + b)[..|a + b| - 1] == a + b[..|b| - 1];
    }
  }

  /** The lists of one snapshot, as values. */
  datatype SnapshotData = SnapshotData(
    whatStrings: seq<string>, sections: seq<Section>, loaderSymbols: seq<LoaderSymbol>,
    imports: seq<ImportEntry>, exports: seq<ExportEntry>, errors: seq<string>)

  function SummaryOf(d: SnapshotData): (r: Summary)
    ensures r.whatCount == |d.whatStrings| && r.sectionCount == |d.sections| && r.symbolCount == |d.loaderSymbols|
    ensures r.importCount == |d.imports| && r.exportCount == |d.exports|
    ensures d.sections == [] ==> r.totalSectionSize == 0
  {
    Summary(|d.whatStrings|, |d.sections|, |d.loaderSymbols|, |d.imports|, |d.exports|, TotalSize(d.sections))
  }

  /** `os.path.basename(path)`: what follows the last '/'. */
  function Basename(path: string): (r: string)
    ensures '/' !in r
    ensures |r| <= |path| && r == path[|path| - |r|..]
    ensures '/' !in path ==> r == path
  {
    if path == [] || path[|path| - 1] == '/' then []
    else Basename(path[..|path| - 1]) + [path[|path| - 1]]
  }

  class XCOFFSnapshot {
    var filepath: string
    var filename: string
    var bits: int
    var whatStrings: seq<string>
    var sections: seq<Section>
    var loaderSymbols: seq<LoaderSymbol>
    var imports: seq<ImportEntry>
    var exports: seq<ExportEntry>
    var errors: seq<string>

    function Data(): SnapshotData
      reads this
    {
      SnapshotData(whatStrings, sections, loaderSymbols, imports, exports, errors)
    }

    constructor (filepath: string, bits: int)
      ensures this.filepath == filepath && filename == Basename(filepath) && this.bits == bits
      ensures Data() == SnapshotData([], [], [], [], [], [])
    {
      this.filepath := filepath;
      filename := Basename(filepath);
      this.bits := bits;
      whatStrings, sections, loaderSymbols := [], [], [];
      imports, exports, errors := [], [], [];
    }

    /** `capture_what`: a failing command adds one error and no strings. */
    method CaptureWhat(run: CommandRun)
      modifies this
      ensures run.code != 0 ==> errors == old(errors) + ["what command failed: " + run.stderr] && whatStrings == old(whatStrings)
      ensures run.code == 0 ==> errors == old(errors) && whatStrings == old(whatStrings) + WhatLines(run.stdout)
      ensures filepath == old(filepath) && filename == old(filename) && bits == old(bits) && sections == old(sections)
      ensures loaderSymbols == old(loaderSymbols) && imports == old(imports) && exports == old(exports)
    {
      if run.code != 0 {
        errors := errors + ["what command failed: " + run.stderr];
        return;
      }
      var strings := KeptOutputLines(run.stdout);
      whatStrings := whatStrings + strings;
    }

    /** `_parse_section_headers` */
    method ParseSectionHeaders(output: string)
      modifies this
      ensures sections == ParsedSections(old(sections), output)
      ensures filepath == old(filepath) && filename == old(filename) && bits == old(bits) && whatStrings == old(whatStrings) && errors == old(errors)
      ensures loaderSymbols == old(loaderSymbols) && imports == old(imports) && exports == old(exports)
    {
      var lines := OutputLines(output);
      var inHeaders := false;
      var current: Option<Section> := None;
      var list := sections;
      for i := 0 to |lines|
        invariant HeaderScan(inHeaders, current, list) == HeaderScanOf(lines, i, old(sections), ClassifyHeaderLine)
        modifies {}
      {
        inHeaders, current, list := ScanHeaderLine(inHeaders, current, list, ClassifyHeaderLine(lines[i]));
      }
      if current.Some? && current.value !in list {
        list := list + [current.value];
      }
      sections := list;
    }

    /** `capture_sections` */
    method CaptureSections(run: CommandRun)
      modifies this
      ensures run.code != 0 ==> errors == old(errors) + ["dump -h failed: " + run.stderr] && sections == old(sections)
      ensures run.code == 0 ==> errors == old(errors) && sections == ParsedSections(old(sections), run.stdout)
      ensures filepath == old(filepath) && filename == old(filename) && bits == old(bits) && whatStrings == old(whatStrings)
      ensures loaderSymbols == old(loaderSymbols) && imports == old(imports) && exports == old(exports)
    {
      if run.code != 0 {
        errors := errors + ["dump -h failed: " + run.stderr];
        return;
      }
      ParseSectionHeaders(run.stdout);
    }

    /** `_parse_loader_symbols` */
    method ParseLoaderSymbols(output: string)
      modifies this
      ensures var st := ParsedLoader(old(LoaderStart(loaderSymbols, imports, exports)), output);
        loaderSymbols == st.symbols && imports == st.imports && exports == st.exports
      ensures filepath == old(filepath) && filename == old(filename) && bits == old(bits) && whatStrings == old(whatStrings)
      ensures sections == old(sections) && errors == old(errors)
    {
      var lines := OutputLines(output);
      ghost var start := LoaderStart(loaderSymbols, imports, exports);
      var inSymbols, inImports := false, false;
      var symbols, imps, exps := loaderSymbols, imports, exports;
      for i := 0 to |lines|
        invariant LoaderScan(inSymbols, inImports, symbols, imps, exps) == LoaderScanOf(lines, i, start, ClassifyLoaderLine)
        modifies {}
      {
        inSymbols, inImports, symbols, imps, exps := ScanLoaderLine(inSymbols, inImports, symbols, imps, exps, ClassifyLoaderLine(lines[i]));
      }
      loaderSymbols, imports, exports := symbols, imps, exps;
    }

    /** `capture_loader_symbols`: `dump -Tv`, and `dump -T` only when that fails. */
    method CaptureLoaderSymbols(verboseRun: CommandRun, plainRun: CommandRun)
      modifies this
      ensures var used := if verboseRun.code != 0 then plainRun else verboseRun;
        && (used.code != 0 ==> errors == old(errors) + ["dump -T failed: " + plainRun.stderr] && old(Data()) == Data().(errors := old(errors)))
        && (used.code == 0 ==>
              var st := ParsedLoader(old(LoaderStart(loaderSymbols, imports, exports)), used.stdout);
              errors == old(errors) && loaderSymbols == st.symbols && imports == st.imports && exports == st.exports)
      ensures filepath == old(filepath) && filename == old(filename) && bits == old(bits) && whatStrings == old(whatStrings) && sections == old(sections)
    {
      var run := verboseRun;
      if run.code != 0 {
        run := plainRun;
        if run.code != 0 {
          errors := errors + ["dump -T failed: " + run.stderr];
          return;
        }
      }
      ParseLoaderSymbols(run.stdout);
    }

    /** `capture_all`: the three captures in turn, each run given as its result.
        Every failing command adds its message to `errors`, in this order. */
    method CaptureAll(whatRun: CommandRun, headerRun: CommandRun, verboseRun: CommandRun, plainRun: CommandRun)
      modifies this
      ensures whatStrings == old(whatStrings) + (if whatRun.code == 0 then WhatLines(whatRun.stdout) else [])
      ensures sections == if headerRun.code == 0 then ParsedSections(old(sections), headerRun.stdout) else old(sections)
      ensures var used := if verboseRun.code != 0 then plainRun else verboseRun;
        var st := ParsedLoader(old(LoaderStart(loaderSymbols, imports, exports)), used.stdout);
        && (used.code == 0 ==> loaderSymbols == st.symbols && imports == st.imports && exports == st.exports)
        && (used.code != 0 ==> loaderSymbols == old(loaderSymbols) && imports == old(imports) && exports == old(exports))
      ensures errors == old(errors)
        + (if whatRun.code != 0 then ["what command failed: " + whatRun.stderr] else [])
        + (if headerRun.code != 0 then ["dump -h failed: " + headerRun.stderr] else [])
        + (if verboseRun.code != 0 && plainRun.code != 0 then ["dump -T failed: " + plainRun.stderr] else [])
      ensures filepath == old(filepath) && filename == old(filename) && bits == old(bits)
    {
      ghost var e0, l0, i0, x0 := errors, loaderSymbols, imports, exports;
      CaptureWhat(whatRun);
      ghost var e1 := errors;
      CaptureSections(headerRun);
      ghost var e2 := errors;
      assert loaderSymbols == l0 && imports == i0 && exports == x0;
      CaptureLoaderSymbols(verboseRun, plainRun);
      assert e2 == e1 + (if headerRun.code != 0 then ["dump -h failed: " + headerRun.stderr] else []);
      assert e1 == e0 + (if whatRun.code != 0 then ["what command failed: " + whatRun.stderr] else []);
    }

    /** `to_dict()['summary']` */
    function SummaryDict(): (r: Summary)
      reads this
      ensures r == SummaryOf(Data())
    {
      Summary(|whatStrings|, |sections|, |loaderSymbols|, |imports|, |exports|, TotalSize(sections))
    }
  }
}
