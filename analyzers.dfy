/**
 * The three analyzers of tools/xcoff_tool/analyzers.py and their registry.
 *
 * Running `what`, `dump -h` and `dump -Tv` is outside the model: each
 * analyzer receives the outcome of its command (exit code, stdout, stderr, or
 * a timeout or other exception) and turns the text into records.  The regular
 * expression of the AIX fallback is written out as a matcher over the
 * characters of the whole output, together with the `finditer` scan.
 */
module Analyzers {
  import opened Text
  import opened Collections
  import opened Snapshots

  /** What running the analyzer's command produced. */
  datatype RunOutcome =
    | Completed(code: int, stdout: string, stderr: string)
    | TimedOut
    | Raised(message: string)

  /** The fixed properties of an analyzer. */
  datatype Analyzer = Analyzer(name: string, description: string, requiredCommands: seq<string>)

  const What: Analyzer := Analyzer("what", "Extract @(#) identification strings", ["what"])
  const DumpHeaders: Analyzer := Analyzer("dump-h", "Display section headers", ["dump"])
  const DumpLoader: Analyzer := Analyzer("dump-T", "Display loader section (imports/exports)", ["dump"])

  // ---------------------------------------------------------------------
  // `what`
  // ---------------------------------------------------------------------

  /** A stripped line the what-parsers keep: non-empty and not a "file:" header. */
  predicate Kept(t: string) {
    t != [] && t[|t| - 1] != ':'
  }

  /** The kept stripped lines among the first `n` of `lines`, in order. */
  function KeptLines(lines: seq<string>, n: nat): seq<string>
    requires n <= |lines|
  {
    if n == 0 then []
    else
      var t := Strip(lines[n - 1]);
      KeptLines(lines, n - 1) + (if Kept(t) then [t] else [])
  }

  /** A line is reported exactly when its stripped form is kept. */
  lemma {:induction false} KeptLinesMembers(lines: seq<string>, n: nat)
    requires n <= |lines|
    ensures forall x :: x in KeptLines(lines, n) <==> Kept(x) && exists i :: 0 <= i < n && Strip(lines[i]) == x
  {
    if n > 0 {
      KeptLinesMembers(lines, n - 1);
      forall x | Kept(x) && exists i :: 0 <= i < n && Strip(lines[i]) == x
        ensures x in KeptLines(lines, n)
      {
        var i :| 0 <= i < n && Strip(lines[i]) == x;
        if i < n - 1 {
          assert x in KeptLines(lines, n - 1);
        }
      }
    }
  }

  /** Reported lines are non-empty and carry no outer whitespace. */
  lemma {:induction false} KeptLinesShape(lines: seq<string>, n: nat)
    requires n <= |lines|
    ensures forall x :: x in KeptLines(lines, n) ==> Kept(x) && !IsSpace(x[0]) && !IsSpace(x[|x| - 1])
  {
    if n > 0 {
      KeptLinesShape(lines, n - 1);
    }
  }

  /** At most one string is reported per line. */
  lemma {:induction false} KeptLinesBound(lines: seq<string>, n: nat)
    requires n <= |lines|
    ensures |KeptLines(lines, n)| <= n
  {
    if n > 0 {
      KeptLinesBound(lines, n - 1);
    }
  }

  /** The strings `what` output yields. */
  function WhatStrings(output: string): seq<string> {
    var lines := Lines(output, SplitLines);
    KeptLines(lines, |lines|)
  }

  /** `WhatAnalyzer._parse_output` */
  method ParseWhatOutput(output: string) returns (strings: seq<string>)
    ensures strings == WhatStrings(output)
  {
    var lines := Lines(output, SplitLines);
    strings := [];
    for i := 0 to |lines|
      invariant strings == KeptLines(lines, i)
    {
      var line := Strip(lines[i]);
      if line != [] && line[|line| - 1] != ':' {
        strings := strings + [line];
      }
    }
  }

  /** The error text of a failed command: its stripped stderr, or the exit code. */
  function CommandError(code: int, stderr: string): (e: string)
    ensures Strip(stderr) != [] ==> e == Strip(stderr)
    ensures Strip(stderr) == [] ==> e == "Exit code " + IntToString(code)
  {
    if Strip(stderr) != [] then Strip(stderr) else "Exit code " + IntToString(code)
  }

  function TimeoutError(timeout: int): string {
    "Timeout after " + IntToString(timeout) + "s"
  }

  /** `WhatAnalyzer.analyze`: only a non-zero exit with empty stdout fails. */
  method AnalyzeWhat(run: RunOutcome, timeout: int) returns (r: AnalysisResult)
    ensures r.analyzerName == What.name
    ensures run.TimedOut? ==> r == Failure(What.name, TimeoutError(timeout))
    ensures run.Raised? ==> r == Failure(What.name, run.message)
    ensures run.Completed? ==> (r.success <==> run.code == 0 || run.stdout != [])
    ensures run.Completed? && !r.success ==> r == Failure(What.name, CommandError(run.code, run.stderr))
    ensures run.Completed? && r.success ==>
      r.data == WhatData(WhatStrings(run.stdout), |WhatStrings(run.stdout)|)
      && r.error.None?
  {
    match run
    case TimedOut => r := Failure(What.name, TimeoutError(timeout));
    case Raised(m) => r := Failure(What.name, m);
    case Completed(code, stdout, stderr) =>
      if code != 0 && stdout == [] {
        r := Failure(What.name, CommandError(code, stderr));
      } else {
        var strings := ParseWhatOutput(stdout);
        r := AnalysisResult(What.name, true, WhatData(strings, |strings|), None, false);
      }
  }

  // ---------------------------------------------------------------------
  // `dump -h`
  // ---------------------------------------------------------------------

  predicate IsTableHeader(t: string) {
    Contains(t, "Idx") && Contains(t, "Name")
  }

  function OptionalField(parts: seq<string>, k: nat): (r: Option<string>)
    ensures r.Some? <==> k < |parts|
  {
    if k < |parts| then Some(parts[k]) else None
  }

  /** The section a table row describes, if it is one: at least two tokens, the first all digits. */
  function SectionRow(parts: seq<string>): (r: Option<Section>)
    ensures r.Some? <==> |parts| >= 2 && AllDigits(parts[0])
    ensures r.Some? ==> r.value.name == parts[1] && r.value.index == DigitsValue(parts[0])
    ensures r.Some? ==> (r.value.size.Some? <==> |parts| >= 3) && (r.value.vma.Some? <==> |parts| >= 4)
    ensures r.Some? ==> (r.value.lma.Some? <==> |parts| >= 5) && (r.value.fileOffset.Some? <==> |parts| >= 6)
    ensures r.Some? ==> r.value.address.None?
  {
    if |parts| >= 2 && AllDigits(parts[0]) then
      Some(Section(DigitsValue(parts[0]), parts[1], OptionalField(parts, 2), OptionalField(parts, 3),
                   OptionalField(parts, 4), OptionalField(parts, 5), None))
    else None
  }

  /** Whether a header line is among the first `n` of `lines` (the `in_section_table` flag). */
  predicate InTable(lines: seq<string>, n: nat)
    requires n <= |lines|
  {
    n > 0 && (InTable(lines, n - 1) || IsTableHeader(Strip(lines[n - 1])))
  }

  /** The row one stripped line contributes, given the flag before it. */
  function TableRow(t: string, inTable: bool): (r: Option<Section>)
    ensures r.Some? <==> t != [] && !IsTableHeader(t) && inTable && SectionRow(Tokens(t)).Some?
  {
    if t == [] || IsTableHeader(t) || !inTable then None else SectionRow(Tokens(t))
  }

  /** The table rows among the first `n` of `lines`, in order. */
  function TableSections(lines: seq<string>, n: nat): seq<Section>
    requires n <= |lines|
  {
    if n == 0 then []
    else
      var row := TableRow(Strip(lines[n - 1]), InTable(lines, n - 1));
      TableSections(lines, n - 1) + (if row.Some? then [row.value] else [])
  }

  /** Before the first header line the flag is down and nothing is recorded. */
  lemma {:induction false} NoHeaderNoSections(lines: seq<string>, n: nat)
    requires n <= |lines|
    requires forall i :: 0 <= i < n ==> !IsTableHeader(Strip(lines[i]))
    ensures !InTable(lines, n) && TableSections(lines, n) == []
  {
    if n > 0 {
      NoHeaderNoSections(lines, n - 1);
    }
  }

  /** The flag is up exactly when some earlier line holds both "Idx" and "Name". */
  lemma {:induction false} InTableMeaning(lines: seq<string>, n: nat)
    requires n <= |lines|
    ensures InTable(lines, n) <==> exists h :: 0 <= h < n && IsTableHeader(Strip(lines[h]))
  {
    if n > 0 {
      InTableMeaning(lines, n - 1);
    }
  }

  /** Every recorded row comes from a line after a header line. */
  lemma {:induction false} RowsFollowHeader(lines: seq<string>, n: nat)
    requires n <= |lines|
    ensures TableSections(lines, n) != [] ==> exists h :: 0 <= h < n && IsTableHeader(Strip(lines[h]))
  {
    if n > 0 {
      RowsFollowHeader(lines, n - 1);
      InTableMeaning(lines, n - 1);
    }
  }

  /** The sections of the standard `dump -h` table. */
  function DumpHTable(output: string): seq<Section> {
    var lines := Lines(output, SplitLines);
    TableSections(lines, |lines|)
  }

  // ---------------------------------------------------------------------
  // The AIX fallback: `^\s*(\d+)\s+(\.\w+|\w+)\s+([0-9a-fA-Fx]+)\s+([0-9a-fA-Fx]+)`
  // under `re.MULTILINE`, run by `finditer` over the whole output.  `\s`
  // matches '\n' as well, so one match may run over several lines.
  // ---------------------------------------------------------------------

  /** `\w` on the characters modelled here. */
  predicate IsWordChar(c: char) {
    'a' <= c <= 'z' || 'A' <= c <= 'Z' || '0' <= c <= '9' || c == '_'
  }

  /** `[0-9a-fA-Fx]` */
  predicate IsHexish(c: char) {
    IsHexDigit(c) || c == 'x'
  }

  /** Where `^` matches under `re.MULTILINE`: the start, or just after a '\n'. */
  predicate AtLineStart(s: string, p: nat)
    requires p <= |s|
  {
    p == 0 || s[p - 1] == '\n'
  }

  /** The character classes the pattern uses. */
  datatype Class = Space | Digit | Word | Hexish

  predicate In(c: char, k: Class) {
    match k
    case Space => IsSpace(c)
    case Digit => IsDigit(c)
    case Word => IsWordChar(c)
    case Hexish => IsHexish(c)
  }

  predicate AllIn(s: string, from: nat, to: nat, k: Class)
    requires from <= to <= |s|
  {
    forall i :: from <= i < to ==> In(s[i], k)
  }

  /** Where a greedy run of class `k` characters starting at `p` ends. */
  function RunEnd(s: string, p: nat, k: Class): (e: nat)
    requires p <= |s|
    ensures p <= e <= |s|
    decreases |s| - p
  {
    if p == |s| || !In(s[p], k) then p else RunEnd(s, p + 1, k)
  }

  /** The run holds only class `k` characters and stops before one that is not. */
  lemma {:induction false} RunEndMeaning(s: string, p: nat, k: Class)
    requires p <= |s|
    ensures AllIn(s, p, RunEnd(s, p, k), k)
    ensures RunEnd(s, p, k) < |s| ==> !In(s[RunEnd(s, p, k)], k)
    decreases |s| - p
  {
    if p < |s| && In(s[p], k) {
      RunEndMeaning(s, p + 1, k);
    }
  }

  /** A run of class `k` characters that cannot go on ends where `RunEnd` says. */
  lemma {:induction false} RunEndAt(s: string, p: nat, q: nat, k: Class)
    requires p <= q <= |s| && AllIn(s, p, q, k)
    requires q < |s| ==> !In(s[q], k)
    ensures RunEnd(s, p, k) == q
    decreases q - p
  {
    if p < q {
      RunEndAt(s, p + 1, q, k);
    }
  }

  /** One piece of a pattern: a greedy run of at least `least` characters of
      a class (`\s*`, `\d+`, ...), or an optional character (`\.?`). */
  datatype Piece = Run(k: Class, least: nat) | Optional(c: char)

  /** The piece spans exactly [p, q), taking all it can. */
  predicate Spans(s: string, p: nat, q: nat, e: Piece)
    requires p <= q <= |s|
  {
    match e
    case Run(k, least) => q - p >= least && AllIn(s, p, q, k) && (q < |s| ==> !In(s[q], k))
    case Optional(c) => if p < |s| && s[p] == c then q == p + 1 else q == p
  }

  /** The pieces of `pat` read one after another from `p`, the i-th ending at `ends[i]`. */
  predicate Reads(s: string, p: nat, pat: seq<Piece>, ends: seq<nat>)
    decreases |pat|
  {
    && |ends| == |pat|
    && (pat != [] ==> p <= ends[0] <= |s| && Spans(s, p, ends[0], pat[0]) && Reads(s, ends[0], pat[1..], ends[1..]))
  }

  function PieceEnd(s: string, p: nat, e: Piece): (q: nat)
    requires p <= |s|
    ensures p <= q <= |s|
  {
    match e
    case Run(k, _) => RunEnd(s, p, k)
    case Optional(c) => if p < |s| && s[p] == c then p + 1 else p
  }

  /** The fewest characters a reading of `pat` takes. */
  function Least(pat: seq<Piece>): nat {
    if pat == [] then 0 else (if pat[0].Run? then pat[0].least else 0) + Least(pat[1..])
  }

  /** The pieces taken in turn, each as far as it goes and never given back:
      where each one ends, or None when one is too short. */
  function Greedy(s: string, p: nat, pat: seq<Piece>): (r: Option<seq<nat>>)
    requires p <= |s|
    ensures r.Some? ==> |r.value| == |pat|
    ensures r.Some? && pat != [] ==> p + Least(pat) <= r.value[|pat| - 1] <= |s|
    decreases |pat|
  {
    if pat == [] then Some([])
    else
      var q := PieceEnd(s, p, pat[0]);
      if pat[0].Run? && q - p < pat[0].least then None
      else
        var rest := Greedy(s, q, pat[1..]);
        if rest.None? then None else Some([q] + rest.value)
  }

  /** What `Greedy` finds is a reading of the pattern. */
  lemma {:induction false} GreedySound(s: string, p: nat, pat: seq<Piece>)
    requires p <= |s|
    ensures Greedy(s, p, pat).Some? ==> Reads(s, p, pat, Greedy(s, p, pat).value)
    decreases |pat|
  {
    if pat != [] {
      var q := PieceEnd(s, p, pat[0]);
      if pat[0].Run? {
        RunEndMeaning(s, p, pat[0].k);
      }
      GreedySound(s, q, pat[1..]);
      if Greedy(s, p, pat).Some? {
        var ends := Greedy(s, p, pat).value;
        assert ends[0] == q && ends[1..] == Greedy(s, q, pat[1..]).value;
      }
    }
  }

  /** Every reading of the pattern is the one `Greedy` finds. */
  lemma {:induction false} GreedyComplete(s: string, p: nat, pat: seq<Piece>, ends: seq<nat>)
    requires p <= |s| && Reads(s, p, pat, ends)
    ensures Greedy(s, p, pat) == Some(ends)
    decreases |pat|
  {
    if pat != [] {
      if pat[0].Run? {
        RunEndAt(s, p, ends[0], pat[0].k);
      }
      GreedyComplete(s, ends[0], pat[1..], ends[1..]);
      assert [ends[0]] + ends[1..] == ends;
    }
  }

  /** Each piece ends at or after the one before it. */
  lemma {:induction false} GreedyOrdered(s: string, p: nat, pat: seq<Piece>)
    requires p <= |s| && Greedy(s, p, pat).Some?
    ensures var ends := Greedy(s, p, pat).value;
      && (forall i :: 0 <= i < |ends| ==> p <= ends[i] <= |s|)
      && (forall i :: 0 < i < |ends| ==> ends[i - 1] <= ends[i])
    decreases |pat|
  {
    if pat != [] {
      var q := PieceEnd(s, p, pat[0]);
      var ends := Greedy(s, p, pat).value;
      assert ends[0] == q && ends[1..] == Greedy(s, q, pat[1..]).value;
      if |pat| > 1 {
        GreedyOrdered(s, q, pat[1..]);
        assert forall i :: 0 < i < |ends| ==> ends[i] == ends[1..][i - 1];
      }
    }
  }

  /** `finditer` of `^pat` from `p`: the pattern is tried wherever `^` holds;
      after a match the search resumes where the match ended, otherwise one
      character further on.  Each match is paired with where it starts. */
  function Scan(s: string, p: nat, pat: seq<Piece>): (r: seq<(nat, seq<nat>)>)
    requires p <= |s| && Least(pat) > 0
    decreases |s| - p
  {
    if p == |s| then []
    else if AtLineStart(s, p) && Greedy(s, p, pat).Some? then
      var ends := Greedy(s, p, pat).value;
      [(p, ends)] + Scan(s, ends[|pat| - 1], pat)
    else Scan(s, p + 1, pat)
  }

  /** Every match in `r` starts where `^` holds, at or after `p`, and is
      what `Greedy` reads there. */
  predicate MatchedFrom(s: string, p: nat, pat: seq<Piece>, r: seq<(nat, seq<nat>)>) {
    forall k :: 0 <= k < |r| ==> p <= r[k].0 < |s| && AtLineStart(s, r[k].0) && Greedy(s, r[k].0, pat) == Some(r[k].1)
  }

  /** Each match in `r` ends before any later one starts. */
  predicate Disjoint(pat: seq<Piece>, r: seq<(nat, seq<nat>)>) {
    forall j, k :: 0 <= j < k < |r| ==> |r[j].1| == |pat| && pat != [] && r[j].1[|pat| - 1] <= r[k].0
  }

  /** Position `q` is where some match in `r` starts, or lies inside it. */
  predicate Covered(pat: seq<Piece>, r: seq<(nat, seq<nat>)>, q: nat) {
    exists k :: 0 <= k < |r| && |r[k].1| == |pat| && pat != [] && r[k].0 <= q < r[k].1[|pat| - 1]
  }

  lemma {:induction false} ScanMatches(s: string, p: nat, pat: seq<Piece>)
    requires p <= |s| && Least(pat) > 0
    ensures MatchedFrom(s, p, pat, Scan(s, p, pat))
    decreases |s| - p
  {
    if p < |s| {
      if AtLineStart(s, p) && Greedy(s, p, pat).Some? {
        var ends := Greedy(s, p, pat).value;
        var rest := Scan(s, ends[|pat| - 1], pat);
        ScanMatches(s, ends[|pat| - 1], pat);
        assert Scan(s, p, pat) == [(p, ends)] + rest;
      } else {
        ScanMatches(s, p + 1, pat);
      }
    }
  }

  lemma {:induction false} ScanOrdered(s: string, p: nat, pat: seq<Piece>)
    requires p <= |s| && Least(pat) > 0
    ensures Disjoint(pat, Scan(s, p, pat))
    decreases |s| - p
  {
    if p < |s| {
      if AtLineStart(s, p) && Greedy(s, p, pat).Some? {
        var ends := Greedy(s, p, pat).value;
        var rest := Scan(s, ends[|pat| - 1], pat);
        ScanOrdered(s, ends[|pat| - 1], pat);
        ScanMatches(s, ends[|pat| - 1], pat);
        assert Scan(s, p, pat) == [(p, ends)] + rest;
      } else {
        ScanOrdered(s, p + 1, pat);
      }
    }
  }

  /** The two together, with each match taking at least one character. */
  lemma ScanSound(s: string, p: nat, pat: seq<Piece>)
    requires p <= |s| && Least(pat) > 0
    ensures MatchedFrom(s, p, pat, Scan(s, p, pat)) && Disjoint(pat, Scan(s, p, pat))
    ensures forall k :: 0 <= k < |Scan(s, p, pat)| ==>
      |Scan(s, p, pat)[k].1| == |pat| && Scan(s, p, pat)[k].0 < Scan(s, p, pat)[k].1[|pat| - 1] <= |s|
  {
    ScanMatches(s, p, pat);
    ScanOrdered(s, p, pat);
  }

  /** Nothing is missed: every place where `^` holds and the pattern reads
      is the start of a reported match or lies inside one. */
  lemma {:induction false} ScanComplete(s: string, p: nat, pat: seq<Piece>, q: nat, ends: seq<nat>)
    requires p <= q < |s| && Least(pat) > 0 && AtLineStart(s, q) && Reads(s, q, pat, ends)
    ensures Covered(pat, Scan(s, p, pat), q)
    decreases |s| - p
  {
    var r := Scan(s, p, pat);
    if AtLineStart(s, p) && Greedy(s, p, pat).Some? {
      var first := Greedy(s, p, pat).value;
      var next := first[|pat| - 1];
      assert r[0] == (p, first);
      if q >= next {
        ScanComplete(s, next, pat, q, ends);
        var rest := Scan(s, next, pat);
        var k :| 0 <= k < |rest| && |rest[k].1| == |pat| && pat != [] && rest[k].0 <= q < rest[k].1[|pat| - 1];
        assert r[k + 1] == rest[k];
      }
    } else {
      if q == p {
        GreedyComplete(s, q, pat, ends);
      }
      ScanComplete(s, p + 1, pat, q, ends);
      assert r == Scan(s, p + 1, pat);
    }
  }

  /** `^\s*(\d+)\s+(\.\w+|\w+)\s+([0-9a-fA-Fx]+)\s+([0-9a-fA-Fx]+)` after the `^`,
      with `\.\w+|\w+` written `\.?\w+` (the same strings, since '.' is not
      a word character).  No piece can begin with a character the piece
      before it takes, so giving characters back never lets a later piece
      match: the regular expression's first match is the greedy reading. */
  const AixPattern: seq<Piece> := [
    Run(Space, 0), Run(Digit, 1), Run(Space, 1), Optional('.'), Run(Word, 1),
    Run(Space, 1), Run(Hexish, 1), Run(Space, 1), Run(Hexish, 1)]

  lemma AixPatternLeast()
    ensures |AixPattern| == 9 && Least(AixPattern) == 7
  {
  }

  /** Nine ends in order, the first group all digits. */
  predicate AixEnds(s: string, p: nat, ends: seq<nat>) {
    && |ends| == 9
    && p <= ends[0] <= ends[1] <= ends[2] <= ends[3] <= ends[4] <= ends[5] <= ends[6] <= ends[7] <= ends[8] <= |s|
    && forall i :: ends[0] <= i < ends[1] ==> IsDigit(s[i])
  }

  /** What a match of the AIX pattern gives. */
  lemma AixFacts(s: string, p: nat, ends: seq<nat>)
    requires p <= |s| && Greedy(s, p, AixPattern) == Some(ends)
    ensures AixEnds(s, p, ends)
  {
    AixPatternLeast();
    GreedyOrdered(s, p, AixPattern);
    assert ends[0] <= ends[1] <= ends[2] <= ends[3] <= ends[4];
    assert ends[4] <= ends[5] <= ends[6] <= ends[7] <= ends[8];
    GreedySound(s, p, AixPattern);
    assert Reads(s, ends[0], AixPattern[1..], ends[1..]);
    assert Spans(s, ends[0], ends[1], AixPattern[1]);
  }

  /** A match of the AIX pattern, piece by piece: each piece spans exactly
      from the end of the one before it to its own end. */
  lemma AixReads(s: string, p: nat, ends: seq<nat>)
    requires |ends| == 9 && p <= ends[0] <= ends[1] <= ends[2] <= ends[3] <= ends[4] <= ends[5] <= ends[6] <= ends[7] <= ends[8] <= |s|
    requires Spans(s, p, ends[0], Run(Space, 0)) && Spans(s, ends[0], ends[1], Run(Digit, 1))
    requires Spans(s, ends[1], ends[2], Run(Space, 1)) && Spans(s, ends[2], ends[3], Optional('.'))
    requires Spans(s, ends[3], ends[4], Run(Word, 1)) && Spans(s, ends[4], ends[5], Run(Space, 1))
    requires Spans(s, ends[5], ends[6], Run(Hexish, 1)) && Spans(s, ends[6], ends[7], Run(Space, 1))
    requires Spans(s, ends[7], ends[8], Run(Hexish, 1))
    ensures Greedy(s, p, AixPattern) == Some(ends)
  {
    var pat := AixPattern;
    assert Reads(s, ends[8], pat[9..], ends[9..]);
    assert Reads(s, ends[7], pat[8..], ends[8..]);
    assert Reads(s, ends[6], pat[7..], ends[7..]);
    assert Reads(s, ends[5], pat[6..], ends[6..]);
    assert Reads(s, ends[4], pat[5..], ends[5..]);
    assert Reads(s, ends[3], pat[4..], ends[4..]);
    assert Reads(s, ends[2], pat[3..], ends[3..]);
    assert Reads(s, ends[1], pat[2..], ends[2..]);
    assert Reads(s, ends[0], pat[1..], ends[1..]);
    assert Reads(s, p, pat, ends);
    GreedyComplete(s, p, pat, ends);
  }

  /** The section dict built from one match: the groups are the digits
      (piece 1), the name (pieces 3 and 4), the size (piece 6) and the
      address (piece 8). */
  function AixSection(s: string, p: nat, ends: seq<nat>): Section
    requires AixEnds(s, p, ends)
  {
    Section(DigitsValue(s[ends[0]..ends[1]]), s[ends[2]..ends[4]], Some(s[ends[5]..ends[6]]),
      None, None, None, Some(s[ends[7]..ends[8]]))
  }

  function AixSections(s: string, scan: seq<(nat, seq<nat>)>): (r: seq<Section>)
    requires forall k :: 0 <= k < |scan| ==> scan[k].0 <= |s| && Greedy(s, scan[k].0, AixPattern) == Some(scan[k].1)
    ensures |r| == |scan|
  {
    if scan == [] then []
    else
      AixFacts(s, scan[0].0, scan[0].1);
      [AixSection(s, scan[0].0, scan[0].1)] + AixSections(s, scan[1..])
  }

  /** The sections of the matches found from `p` on. */
  function AixSectionsFrom(output: string, p: nat): seq<Section>
    requires p <= |output|
  {
    AixPatternLeast();
    ScanSound(output, p, AixPattern);
    AixSections(output, Scan(output, p, AixPattern))
  }

  /** One step of the `finditer` loop: a match at `p` gives its section and
      the search goes on where it ended, otherwise one character further. */
  lemma AixSectionsFromStep(output: string, p: nat)
    requires p < |output|
    ensures AtLineStart(output, p) && Greedy(output, p, AixPattern).Some? ==>
      var ends := Greedy(output, p, AixPattern).value;
      AixEnds(output, p, ends) && p < ends[8] &&
      AixSectionsFrom(output, p) == [AixSection(output, p, ends)] + AixSectionsFrom(output, ends[8])
    ensures !(AtLineStart(output, p) && Greedy(output, p, AixPattern).Some?) ==>
      AixSectionsFrom(output, p) == AixSectionsFrom(output, p + 1)
  {
    AixPatternLeast();
    ScanSound(output, p, AixPattern);
    if AtLineStart(output, p) && Greedy(output, p, AixPattern).Some? {
      var ends := Greedy(output, p, AixPattern).value;
      AixFacts(output, p, ends);
      ScanSound(output, ends[8], AixPattern);
      var scan := Scan(output, p, AixPattern);
      assert scan == [(p, ends)] + Scan(output, ends[8], AixPattern);
      assert scan[1..] == Scan(output, ends[8], AixPattern);
    } else {
      ScanSound(output, p + 1, AixPattern);
    }
  }

  /** The sections of the AIX `dump -h` layout. */
  function DumpHAix(output: string): seq<Section> {
    AixSectionsFrom(output, 0)
  }

  /** `DumpHeadersAnalyzer._parse_output`, loop part. */
  method ParseSectionTable(output: string) returns (sections: seq<Section>)
    ensures sections == DumpHTable(output)
  {
    var lines := Lines(output, SplitLines);
    sections := [];
    var inTable := false;
    for i := 0 to |lines|
      invariant inTable == InTable(lines, i)
      invariant sections == TableSections(lines, i)
    {
      var line := Strip(lines[i]);
      if line == [] {
      } else if Contains(line, "Idx") && Contains(line, "Name") {
        inTable := true;
      } else if inTable {
        var row := SectionRow(Tokens(line));
        if row.Some? {
          sections := sections + [row.value];
        }
      }
    }
  }

  /** A row may run across a line break, since `\s` takes '\n': the size and
      address come from the line after the name. */
  lemma AixAcrossLines()
    ensures DumpHAix("1 .text\n0x10 0x20") == [Section(1, ".text", Some("0x10"), None, None, None, Some("0x20"))]
  {
    var s := "1 .text\n0x10 0x20";
    assert s[..12] == "1 .text\n0x10" && s[12..] == " 0x20";
    AixAcrossLinesOf(s);
  }

  lemma AixAcrossLinesOf(s: string)
    requires |s| == 17 && s[..12] == "1 .text\n0x10" && s[12..] == " 0x20"
    ensures DumpHAix(s) == [Section(1, ".text", Some("0x10"), None, None, None, Some("0x20"))]
  {
    var ends := [0, 1, 2, 3, 7, 8, 12, 13, 17];
    assert s[12] == ' ' && s[13] == '0' && s[13..17] == "0x20";
    AixTextChars(s);
    RunEndAt(s, 13, 17, Hexish);
    AixTextRow(s, ends);
    AixTextSection(s, ends);
    AixPatternLeast();
    assert Scan(s, 17, AixPattern) == [];
    AixOneRow(s, ends);
  }

  /** A row that runs on into the next line hides that line's own row: the
      search resumes after the match, past the start of the second line. */
  lemma AixRowSwallowed()
    ensures DumpHAix("1 .text\n0x10\n2 .data 0x20 0x30") == [Section(1, ".text", Some("0x10"), None, None, None, Some("2"))]
  {
    var s := "1 .text\n0x10\n2 .data 0x20 0x30";
    assert s[..12] == "1 .text\n0x10" && s[12] == '\n' && s[13] == '2' && s[14] == ' ';
    assert forall i :: 13 <= i < |s| ==> s[i] != '\n';
    AixRowSwallowedOf(s);
  }

  lemma AixRowSwallowedOf(s: string)
    requires |s| >= 15 && s[..12] == "1 .text\n0x10" && s[12] == '\n' && s[13] == '2' && s[14] == ' '
    requires forall i :: 13 <= i < |s| ==> s[i] != '\n'
    ensures DumpHAix(s) == [Section(1, ".text", Some("0x10"), None, None, None, Some("2"))]
  {
    var ends := [0, 1, 2, 3, 7, 8, 12, 13, 14];
    assert s[13..14] == "2";
    AixTextChars(s);
    RunEndAt(s, 13, 14, Hexish);
    AixTextRow(s, ends);
    AixTextSection(s, ends);
    AixScanNoBreak(s, 14);
    AixOneRow(s, ends);
  }

  /** The match both examples share: "1 .text", a break, "0x10", one blank
      and one more hex-ish run. */
  lemma AixTextRow(s: string, ends: seq<nat>)
    requires |s| >= 14 && s[0] == '1' && s[1] == ' ' && s[2] == '.'
    requires s[3] == 't' && s[4] == 'e' && s[5] == 'x' && s[6] == 't' && s[7] == '\n'
    requires s[8] == '0' && s[9] == 'x' && s[10] == '1' && s[11] == '0' && IsSpace(s[12]) && IsHexish(s[13])
    requires ends == [0, 1, 2, 3, 7, 8, 12, 13, RunEnd(s, 13, Hexish)]
    ensures Greedy(s, 0, AixPattern) == Some(ends)
  {
    RunEndMeaning(s, 13, Hexish);
    AixReads(s, 0, ends);
  }

  lemma AixTextChars(s: string)
    requires |s| >= 12 && s[..12] == "1 .text\n0x10"
    ensures s[0] == '1' && s[1] == ' ' && s[2] == '.'
    ensures s[3] == 't' && s[4] == 'e' && s[5] == 'x' && s[6] == 't' && s[7] == '\n'
    ensures s[8] == '0' && s[9] == 'x' && s[10] == '1' && s[11] == '0'
  {
    var head := s[..12];
    assert forall i :: 0 <= i < 12 ==> s[i] == head[i];
  }

  /** The section that match gives. */
  lemma AixTextSection(s: string, ends: seq<nat>)
    requires |s| >= 14 && s[..12] == "1 .text\n0x10"
    requires |ends| == 9 && ends[..8] == [0, 1, 2, 3, 7, 8, 12, 13] && 13 < ends[8] <= |s|
    ensures AixEnds(s, 0, ends)
    ensures AixSection(s, 0, ends) == Section(1, ".text", Some("0x10"), None, None, None, Some(s[13..ends[8]]))
  {
    var head := s[..12];
    assert s[0..1] == head[0..1] == "1";
    assert s[2..7] == head[2..7] == ".text";
    assert s[8..12] == head[8..12] == "0x10";
    assert DigitsValue("1") == 10 * DigitsValue([]) + DigitValue('1');
  }

  /** When the scan finds one match at the start and nothing after it, the
      output gives that one section. */
  lemma AixOneRow(s: string, ends: seq<nat>)
    requires |s| > 0 && Greedy(s, 0, AixPattern) == Some(ends)
    requires |ends| == 9 && ends[8] <= |s| && Scan(s, ends[8], AixPattern) == []
    ensures AixEnds(s, 0, ends) && DumpHAix(s) == [AixSection(s, 0, ends)]
  {
    AixFacts(s, 0, ends);
    AixSectionsFromStep(s, 0);
  }

  /** Once no '\n' is left, `^` never holds again and nothing more is found. */
  lemma {:induction false} AixScanNoBreak(s: string, p: nat)
    requires 0 < p <= |s| && forall i :: p - 1 <= i < |s| ==> s[i] != '\n'
    ensures Scan(s, p, AixPattern) == []
    decreases |s| - p
  {
    AixPatternLeast();
    if p < |s| {
      AixScanNoBreak(s, p + 1);
    }
  }

  /** `DumpHeadersAnalyzer._parse_aix_format`: the `finditer` loop. */
  method ParseAixFormat(output: string) returns (sections: seq<Section>)
    ensures sections == DumpHAix(output)
  {
    AixPatternLeast();
    sections := [];
    var p := 0;
    while p < |output|
      invariant p <= |output|
      invariant DumpHAix(output) == sections + AixSectionsFrom(output, p)
    {
      AixSectionsFromStep(output, p);
      var found := if AtLineStart(output, p) then Greedy(output, p, AixPattern) else None;
      if found.Some? {
        sections := sections + [AixSection(output, p, found.value)];
        p := found.value[8];
      } else {
        p := p + 1;
      }
    }
  }

  /** `DumpHeadersAnalyzer._parse_output`: the AIX format is tried only when the table gave nothing. */
  method ParseDumpH(output: string) returns (sections: seq<Section>)
    ensures DumpHTable(output) != [] ==> sections == DumpHTable(output)
    ensures DumpHTable(output) == [] ==> sections == DumpHAix(output)
  {
    sections := ParseSectionTable(output);
    if sections == [] {
      sections := ParseAixFormat(output);
    }
  }

  /** `DumpHeadersAnalyzer.analyze`: any non-zero exit fails. */
  method AnalyzeDumpH(run: RunOutcome, timeout: int) returns (r: AnalysisResult)
    ensures r.analyzerName == DumpHeaders.name
    ensures run.TimedOut? ==> r == Failure(DumpHeaders.name, TimeoutError(timeout))
    ensures run.Raised? ==> r == Failure(DumpHeaders.name, run.message)
    ensures run.Completed? ==> (r.success <==> run.code == 0)
    ensures run.Completed? && run.code != 0 ==> r == Failure(DumpHeaders.name, CommandError(run.code, run.stderr))
    ensures run.Completed? && run.code == 0 ==>
      r.data.SectionData? && r.data.count == |r.data.sections| && r.data.raw == run.stdout
      && (DumpHTable(run.stdout) != [] ==> r.data.sections == DumpHTable(run.stdout))
      && (DumpHTable(run.stdout) == [] ==> r.data.sections == DumpHAix(run.stdout))
  {
    match run
    case TimedOut => r := Failure(DumpHeaders.name, TimeoutError(timeout));
    case Raised(m) => r := Failure(DumpHeaders.name, m);
    case Completed(code, stdout, stderr) =>
      if code != 0 {
        r := Failure(DumpHeaders.name, CommandError(code, stderr));
      } else {
        var sections := ParseDumpH(stdout);
        r := AnalysisResult(DumpHeaders.name, true, SectionData(sections, |sections|, stdout), None, false);
      }
  }

  // ---------------------------------------------------------------------
  // `dump -Tv`
  // ---------------------------------------------------------------------

  /** A token `_extract_symbol_name` may return. */
  predicate NameCandidate(p: string) {
    p != "IMP" && p != "EXP" && p != "EXTref" && p != "SECdef" && p != "DS"
    && !StartsWith(p, "0x") && !StartsWith(p, "[") && !AllDigits(p)
    && p != [] && !StartsWith(p, ".")
  }

  /** The last candidate among the first `n` tokens. */
  function LastCandidate(parts: seq<string>, n: nat): Option<string>
    requires n <= |parts|
  {
    if n == 0 then None
    else if NameCandidate(parts[n - 1]) then Some(parts[n - 1])
    else LastCandidate(parts, n - 1)
  }

  /** `_extract_symbol_name`: the last candidate token. */
  function ExtractSymbolName(parts: seq<string>): Option<string> {
    LastCandidate(parts, |parts|)
  }

  lemma {:induction false} LastCandidateMeaning(parts: seq<string>, n: nat)
    requires n <= |parts|
    ensures LastCandidate(parts, n).None? <==> forall i :: 0 <= i < n ==> !NameCandidate(parts[i])
    ensures LastCandidate(parts, n).Some? ==>
      exists i :: 0 <= i < n && parts[i] == LastCandidate(parts, n).value && NameCandidate(parts[i])
                  && forall j :: i < j < n ==> !NameCandidate(parts[j])
  {
    if n > 0 && !NameCandidate(parts[n - 1]) {
      LastCandidateMeaning(parts, n - 1);
    }
  }

  /** The symbol name is the last token that is not a keyword, an address, a
      bracketed field, a number or a dotted section name; None when there is none. */
  lemma ExtractSymbolNameMeaning(parts: seq<string>)
    ensures ExtractSymbolName(parts).None? <==> forall i :: 0 <= i < |parts| ==> !NameCandidate(parts[i])
    ensures ExtractSymbolName(parts).Some? ==>
      exists i :: 0 <= i < |parts| && parts[i] == ExtractSymbolName(parts).value && NameCandidate(parts[i])
                  && forall j :: i < j < |parts| ==> !NameCandidate(parts[j])
  {
    LastCandidateMeaning(parts, |parts|);
  }

  /** The first "0x" token from index `k` on. */
  function FirstAddress(parts: seq<string>, k: nat): Option<string>
    requires k <= |parts|
    decreases |parts| - k
  {
    if k == |parts| then None
    else if StartsWith(parts[k], "0x") then Some(parts[k])
    else FirstAddress(parts, k + 1)
  }

  /** `_extract_address`: the first "0x" token. */
  function ExtractAddress(parts: seq<string>): Option<string> {
    FirstAddress(parts, 0)
  }

  lemma {:induction false} FirstAddressMeaning(parts: seq<string>, k: nat)
    requires k <= |parts|
    ensures FirstAddress(parts, k).None? <==> forall i :: k <= i < |parts| ==> !StartsWith(parts[i], "0x")
    ensures FirstAddress(parts, k).Some? ==>
      exists i :: k <= i < |parts| && parts[i] == FirstAddress(parts, k).value && StartsWith(parts[i], "0x")
                  && forall j :: k <= j < i ==> !StartsWith(parts[j], "0x")
    decreases |parts| - k
  {
    if k < |parts| && !StartsWith(parts[k], "0x") {
      FirstAddressMeaning(parts, k + 1);
    }
  }

  /** The address is the first token starting with "0x"; None when there is none. */
  lemma ExtractAddressMeaning(parts: seq<string>)
    ensures ExtractAddress(parts).None? <==> forall i :: 0 <= i < |parts| ==> !StartsWith(parts[i], "0x")
    ensures ExtractAddress(parts).Some? ==>
      exists i :: 0 <= i < |parts| && parts[i] == ExtractAddress(parts).value && StartsWith(parts[i], "0x")
                  && forall j :: 0 <= j < i ==> !StartsWith(parts[j], "0x")
  {
    FirstAddressMeaning(parts, 0);
  }

  datatype LoaderLine = NotASymbol | ImportLine(imp: Import) | ExportLine(exp: Export)

  /** What one stripped line of `dump -Tv` output contributes. */
  function ClassifyLoaderLine(t: string): LoaderLine
  {
    var parts := Tokens(t);
    if |parts| < 4 then NotASymbol
    else if Contains(t, "IMP") || Contains(t, "EXTref") then
      match ExtractSymbolName(parts)
      case Some(name) => ImportLine(Import(name, t))
      case None => NotASymbol
    else if Contains(t, "EXP") || Contains(t, "SECdef") then
      match ExtractSymbolName(parts)
      case Some(name) => ExportLine(Export(name, ExtractAddress(parts), t))
      case None => NotASymbol
    else NotASymbol
  }

  /** A stripped line is an import exactly when it has at least four tokens,
      holds "IMP" or "EXTref" and has a name candidate, and an export exactly
      when it has at least four tokens, holds neither of those but "EXP" or
      "SECdef", and has a name candidate.  The entry keeps the line as its
      raw text and names the line's last candidate; an export's address is
      its first "0x" token. */
  lemma ClassifyLoaderLineMeaning(t: string)
    ensures var c := ClassifyLoaderLine(t); var parts := Tokens(t);
      c.ImportLine? <==> |parts| >= 4 && (Contains(t, "IMP") || Contains(t, "EXTref"))
                         && exists i :: 0 <= i < |parts| && NameCandidate(parts[i])
    ensures var c := ClassifyLoaderLine(t); var parts := Tokens(t);
      c.ExportLine? <==> |parts| >= 4 && !Contains(t, "IMP") && !Contains(t, "EXTref")
                         && (Contains(t, "EXP") || Contains(t, "SECdef"))
                         && exists i :: 0 <= i < |parts| && NameCandidate(parts[i])
    ensures var c := ClassifyLoaderLine(t);
      c.ImportLine? ==> c.imp.raw == t && c.imp.name == ExtractSymbolName(Tokens(t)).value
    ensures var c := ClassifyLoaderLine(t);
      c.ExportLine? ==> c.exp.raw == t && c.exp.name == ExtractSymbolName(Tokens(t)).value
                        && c.exp.address == ExtractAddress(Tokens(t))
  {
    ExtractSymbolNameMeaning(Tokens(t));
  }

  /** How each of the first `n` lines, stripped, is classified. */
  function LoaderClasses(lines: seq<string>, n: nat): (r: seq<LoaderLine>)
    requires n <= |lines|
    ensures |r| == n
  {
    seq(n, i requires 0 <= i < n => ClassifyLoaderLine(Strip(lines[i])))
  }

  /** The imports of a run of classified lines, in order. */
  function ImportsIn(cs: seq<LoaderLine>): seq<Import> {
    if cs == [] then []
    else ImportsIn(cs[..|cs| - 1]) + (if cs[|cs| - 1].ImportLine? then [cs[|cs| - 1].imp] else [])
  }

  /** The exports of a run of classified lines, in order. */
  function ExportsIn(cs: seq<LoaderLine>): seq<Export> {
    if cs == [] then []
    else ExportsIn(cs[..|cs| - 1]) + (if cs[|cs| - 1].ExportLine? then [cs[|cs| - 1].exp] else [])
  }

  /** The imports among the first `n` of `lines`. */
  function LoaderImports(lines: seq<string>, n: nat): seq<Import>
    requires n <= |lines|
  {
    ImportsIn(LoaderClasses(lines, n))
  }

  /** The exports among the first `n` of `lines`. */
  function LoaderExports(lines: seq<string>, n: nat): seq<Export>
    requires n <= |lines|
  {
    ExportsIn(LoaderClasses(lines, n))
  }

  /** No line is both an import and an export: together there are at most as many as lines. */
  lemma {:induction false} EntriesInBounded(cs: seq<LoaderLine>)
    ensures |ImportsIn(cs)| + |ExportsIn(cs)| <= |cs|
  {
    if cs != [] {
      EntriesInBounded(cs[..|cs| - 1]);
    }
  }

  lemma LoaderEntriesBounded(lines: seq<string>, n: nat)
    requires n <= |lines|
    ensures |LoaderImports(lines, n)| + |LoaderExports(lines, n)| <= n
  {
    EntriesInBounded(LoaderClasses(lines, n));
  }

  /** An import is in the list exactly when some classified line is that import. */
  lemma {:induction false} ImportsInExact(cs: seq<LoaderLine>)
    ensures forall e :: e in ImportsIn(cs) <==> exists i :: 0 <= i < |cs| && cs[i] == ImportLine(e)
  {
    if cs != [] {
      var init := cs[..|cs| - 1];
      ImportsInExact(init);
      forall e | exists i :: 0 <= i < |cs| && cs[i] == ImportLine(e)
        ensures e in ImportsIn(cs)
      {
        var i :| 0 <= i < |cs| && cs[i] == ImportLine(e);
        if i < |cs| - 1 {
          assert init[i] == ImportLine(e);
        }
      }
      forall e | e in ImportsIn(init)
        ensures exists i :: 0 <= i < |cs| && cs[i] == ImportLine(e)
      {
        var i :| 0 <= i < |init| && init[i] == ImportLine(e);
        assert cs[i] == ImportLine(e);
      }
    }
  }

  /** An export is in the list exactly when some classified line is that export. */
  lemma {:induction false} ExportsInExact(cs: seq<LoaderLine>)
    ensures forall e :: e in ExportsIn(cs) <==> exists i :: 0 <= i < |cs| && cs[i] == ExportLine(e)
  {
    if cs != [] {
      var init := cs[..|cs| - 1];
      ExportsInExact(init);
      forall e | exists i :: 0 <= i < |cs| && cs[i] == ExportLine(e)
        ensures e in ExportsIn(cs)
      {
        var i :| 0 <= i < |cs| && cs[i] == ExportLine(e);
        if i < |cs| - 1 {
          assert init[i] == ExportLine(e);
        }
      }
      forall e | e in ExportsIn(init)
        ensures exists i :: 0 <= i < |cs| && cs[i] == ExportLine(e)
      {
        var i :| 0 <= i < |init| && init[i] == ExportLine(e);
        assert cs[i] == ExportLine(e);
      }
    }
  }

  /** The imports are exactly the entries of the lines classified as imports. */
  lemma LoaderImportsExact(lines: seq<string>, n: nat)
    requires n <= |lines|
    ensures forall e :: e in LoaderImports(lines, n) <==>
      exists i :: 0 <= i < n && ClassifyLoaderLine(Strip(lines[i])) == ImportLine(e)
  {
    var cs := LoaderClasses(lines, n);
    ImportsInExact(cs);
    assert forall i :: 0 <= i < n ==> cs[i] == ClassifyLoaderLine(Strip(lines[i]));
  }

  /** The exports are exactly the entries of the lines classified as exports. */
  lemma LoaderExportsExact(lines: seq<string>, n: nat)
    requires n <= |lines|
    ensures forall e :: e in LoaderExports(lines, n) <==>
      exists i :: 0 <= i < n && ClassifyLoaderLine(Strip(lines[i])) == ExportLine(e)
  {
    var cs := LoaderClasses(lines, n);
    ExportsInExact(cs);
    assert forall i :: 0 <= i < n ==> cs[i] == ClassifyLoaderLine(Strip(lines[i]));
  }

  /** Every import comes from a line of at least four tokens marked IMP or
      EXTref, every export from one marked EXP or SECdef but neither of
      those, and each names a candidate token of its line. */
  lemma LoaderEntriesFromMarkedLines(lines: seq<string>, n: nat)
    requires n <= |lines|
    ensures forall e :: e in LoaderImports(lines, n) ==>
      |Tokens(e.raw)| >= 4 && (Contains(e.raw, "IMP") || Contains(e.raw, "EXTref"))
      && NameCandidate(e.name) && e.name in Tokens(e.raw)
    ensures forall e :: e in LoaderExports(lines, n) ==>
      |Tokens(e.raw)| >= 4 && !Contains(e.raw, "IMP") && !Contains(e.raw, "EXTref")
      && (Contains(e.raw, "EXP") || Contains(e.raw, "SECdef"))
      && NameCandidate(e.name) && e.name in Tokens(e.raw)
  {
    LoaderImportsExact(lines, n);
    LoaderExportsExact(lines, n);
    forall e | e in LoaderImports(lines, n)
      ensures |Tokens(e.raw)| >= 4 && (Contains(e.raw, "IMP") || Contains(e.raw, "EXTref"))
      ensures NameCandidate(e.name) && e.name in Tokens(e.raw)
    {
      var i :| 0 <= i < n && ClassifyLoaderLine(Strip(lines[i])) == ImportLine(e);
      ClassifyLoaderLineMeaning(Strip(lines[i]));
      ExtractSymbolNameMeaning(Tokens(Strip(lines[i])));
    }
    forall e | e in LoaderExports(lines, n)
      ensures |Tokens(e.raw)| >= 4 && !Contains(e.raw, "IMP") && !Contains(e.raw, "EXTref")
      ensures Contains(e.raw, "EXP") || Contains(e.raw, "SECdef")
      ensures NameCandidate(e.name) && e.name in Tokens(e.raw)
    {
      var i :| 0 <= i < n && ClassifyLoaderLine(Strip(lines[i])) == ExportLine(e);
      ClassifyLoaderLineMeaning(Strip(lines[i]));
      ExtractSymbolNameMeaning(Tokens(Strip(lines[i])));
    }
  }

  function LoaderImportsOf(output: string): seq<Import> {
    var lines := Lines(output, SplitLines);
    LoaderImports(lines, |lines|)
  }

  function LoaderExportsOf(output: string): seq<Export> {
    var lines := Lines(output, SplitLines);
    LoaderExports(lines, |lines|)
  }

  /** The body of the `_parse_output` loop for one stripped line. */
  method ParseLoaderLine(line: string) returns (c: LoaderLine)
    ensures c == ClassifyLoaderLine(line)
  {
    c := NotASymbol;
    if line != [] {
      var parts := Tokens(line);
      if |parts| >= 4 {
        if Contains(line, "IMP") || Contains(line, "EXTref") {
          var name := ExtractSymbolName(parts);
          if name.Some? {
            c := ImportLine(Import(name.value, line));
          }
        } else if Contains(line, "EXP") || Contains(line, "SECdef") {
          var name := ExtractSymbolName(parts);
          if name.Some? {
            var address := ExtractAddress(parts);
            c := ExportLine(Export(name.value, address, line));
          }
        }
      }
    }
  }

  lemma LoaderStep(lines: seq<string>, i: nat)
    requires i < |lines|
    ensures var c := ClassifyLoaderLine(Strip(lines[i]));
      && LoaderImports(lines, i + 1) == LoaderImports(lines, i) + (if c.ImportLine? then [c.imp] else [])
      && LoaderExports(lines, i + 1) == LoaderExports(lines, i) + (if c.ExportLine? then [c.exp] else [])
  {
    assert LoaderClasses(lines, i + 1)[..i] == LoaderClasses(lines, i);
  }

  /** `DumpLoaderAnalyzer._parse_output` */
  method ParseLoaderOutput(output: string) returns (imports: seq<Import>, exports: seq<Export>)
    ensures imports == LoaderImportsOf(output)
    ensures exports == LoaderExportsOf(output)
  {
    var lines := Lines(output, SplitLines);
    imports, exports := [], [];
    for i := 0 to |lines|
      invariant imports == LoaderImports(lines, i)
      invariant exports == LoaderExports(lines, i)
    {
      var c := ParseLoaderLine(Strip(lines[i]));
      LoaderStep(lines, i);
      if c.ImportLine? {
        imports := imports + [c.imp];
      } else if c.ExportLine? {
        exports := exports + [c.exp];
      }
    }
  }

  /** `DumpLoaderAnalyzer.analyze`: any non-zero exit fails. */
  method AnalyzeDumpT(run: RunOutcome, timeout: int) returns (r: AnalysisResult)
    ensures r.analyzerName == DumpLoader.name
    ensures run.TimedOut? ==> r == Failure(DumpLoader.name, TimeoutError(timeout))
    ensures run.Raised? ==> r == Failure(DumpLoader.name, run.message)
    ensures run.Completed? ==> (r.success <==> run.code == 0)
    ensures run.Completed? && run.code != 0 ==> r == Failure(DumpLoader.name, CommandError(run.code, run.stderr))
    ensures run.Completed? && run.code == 0 ==>
      r.data == LoaderData(LoaderImportsOf(run.stdout), LoaderExportsOf(run.stdout),
                           |LoaderImportsOf(run.stdout)|, |LoaderExportsOf(run.stdout)|, run.stdout)
  {
    match run
    case TimedOut => r := Failure(DumpLoader.name, TimeoutError(timeout));
    case Raised(m) => r := Failure(DumpLoader.name, m);
    case Completed(code, stdout, stderr) =>
      if code != 0 {
        r := Failure(DumpLoader.name, CommandError(code, stderr));
      } else {
        var imports, exports := ParseLoaderOutput(stdout);
        r := AnalysisResult(DumpLoader.name, true, LoaderData(imports, exports, |imports|, |exports|, stdout), None, false);
      }
  }

  // ---------------------------------------------------------------------
  // Requirements and the registry
  // ---------------------------------------------------------------------

  /** The commands among the first `n` of `required` that are not on the search path, in order. */
  function MissingCommands(required: seq<string>, n: nat, onPath: set<string>): seq<string>
    requires n <= |required|
  {
    if n == 0 then []
    else
      var c := required[n - 1];
      MissingCommands(required, n - 1, onPath) + (if c in onPath then [] else [c])
  }

  /** A command is reported missing exactly when it is required and not found. */
  lemma {:induction false} MissingCommandsMeaning(required: seq<string>, n: nat, onPath: set<string>)
    requires n <= |required|
    ensures forall c :: c in MissingCommands(required, n, onPath) <==> c in required[..n] && c !in onPath
    ensures |MissingCommands(required, n, onPath)| <= n
  {
    if n > 0 {
      MissingCommandsMeaning(required, n - 1, onPath);
      assert required[..n] == required[..n - 1] + [required[n - 1]];
    }
  }

  /** `Analyzer.check_requirements`; `onPath` holds the commands `shutil.which` finds. */
  method CheckRequirements(a: Analyzer, onPath: set<string>) returns (missing: seq<string>)
    ensures missing == MissingCommands(a.requiredCommands, |a.requiredCommands|, onPath)
  {
    missing := [];
    for i := 0 to |a.requiredCommands|
      invariant missing == MissingCommands(a.requiredCommands, i, onPath)
    {
      var cmd := a.requiredCommands[i];
      if cmd !in onPath {
        missing := missing + [cmd];
      }
    }
  }

  /** The registry after the built-in analyzers are installed into an empty one. */
  const BuiltIns: Dict<Analyzer> := [(What.name, What), (DumpHeaders.name, DumpHeaders), (DumpLoader.name, DumpLoader)]

  /** The module-level `_ANALYZERS` dict. */
  class Registry {
    var analyzers: Dict<Analyzer>

    /** Every analyzer is stored under its own name, once. */
    ghost predicate Valid()
      reads this
    {
      Distinct(Keys(analyzers))
      && forall i :: 0 <= i < |analyzers| ==> analyzers[i].1.name == analyzers[i].0
    }

    constructor ()
      ensures Valid() && analyzers == []
    {
      analyzers := [];
    }

    /** `register_analyzer`: a later analyzer with the same name replaces the earlier one in place. */
    method Register(a: Analyzer)
      requires Valid()
      modifies this
      ensures Valid()
      ensures analyzers == Put(old(analyzers), a.name, a)
      ensures Get(analyzers, a.name) == Some(a)
      ensures forall n :: n != a.name ==> Get(analyzers, n) == Get(old(analyzers), n)
    {
      var before := analyzers;
      analyzers := Put(analyzers, a.name, a);
      PutKeepsDistinct(before, a.name, a);
      PutEntries(before, a.name, a);
      forall n ensures Get(analyzers, n) == if n == a.name then Some(a) else Get(before, n) {
        PutGet(before, a.name, a, n);
      }
    }

    /** `get_all_analyzers`: installs the built-ins only into an empty registry. */
    method GetAll() returns (all: Dict<Analyzer>)
      requires Valid()
      modifies this
      ensures Valid()
      ensures old(analyzers) == [] ==> analyzers == BuiltIns
      ensures old(analyzers) != [] ==> analyzers == old(analyzers)
      ensures all == analyzers
    {
      if analyzers == [] {
        Register(What);
        Register(DumpHeaders);
        Register(DumpLoader);
        BuiltInsRegistered();
      }
      all := analyzers;
    }

    /** `get_analyzer`: None for a name nobody registered. */
    method Lookup(name: string) returns (a: Option<Analyzer>)
      requires Valid()
      modifies this
      ensures Valid()
      ensures old(analyzers) == [] ==> analyzers == BuiltIns
      ensures old(analyzers) != [] ==> analyzers == old(analyzers)
      ensures a == Get(analyzers, name)
      ensures a.Some? ==> a.value.name == name
    {
      var all := GetAll();
      a := Get(all, name);
      GetFound(all, name);
      if a.Some? {
        var i :| 0 <= i < |analyzers| && analyzers[i] == (name, a.value);
      }
    }
  }

  /** Registering the three built-ins one after another into an empty registry gives `BuiltIns`. */
  lemma BuiltInsRegistered()
    ensures Put(Put(Put([], What.name, What), DumpHeaders.name, DumpHeaders), DumpLoader.name, DumpLoader) == BuiltIns
  {
    assert What.name != DumpHeaders.name by { assert |What.name| != |DumpHeaders.name|; }
    assert What.name != DumpLoader.name by { assert |What.name| != |DumpLoader.name|; }
    assert DumpHeaders.name != DumpLoader.name by { assert DumpHeaders.name[5] != DumpLoader.name[5]; }
    var d1: Dict<Analyzer> := Put([], What.name, What);
    assert d1 == [(What.name, What)];
    assert |d1[1..]| == 0;
    var d2: Dict<Analyzer> := Put(d1, DumpHeaders.name, DumpHeaders);
    assert d2 == [d1[0]] + Put(d1[1..], DumpHeaders.name, DumpHeaders);
    assert d2 == [(What.name, What), (DumpHeaders.name, DumpHeaders)];
    assert d2[1..] == [(DumpHeaders.name, DumpHeaders)];
    var tail2: Dict<Analyzer> := d2[1..][1..];
    assert |tail2| == 0;
    var d3: Dict<Analyzer> := Put(d2, DumpLoader.name, DumpLoader);
    assert Put(d2[1..], DumpLoader.name, DumpLoader) == [d2[1]] + Put(d2[1..][1..], DumpLoader.name, DumpLoader);
    assert d3 == [d2[0]] + Put(d2[1..], DumpLoader.name, DumpLoader);
  }
}
