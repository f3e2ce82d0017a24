/**
 * writefile.c: `writefile <size> <filename>` writes a file of the given
 * size, filled with the repeating byte pattern 0, 1, ..., 255, in chunks of
 * 8192 bytes, printing its progress in percent.  The size is a decimal or
 * hexadecimal byte count, optionally followed by a unit suffix.
 *
 * `strtod` is modelled on integers only: an input that makes it read a
 * fraction, an exponent, a hexadecimal float, infinity or NaN, or an integer
 * a double cannot hold exactly, parses to `NotModelled`.  `fopen` and
 * `fwrite` are oracles.
 */
module WriteFile {
  import opened Text

  /** `BUFFER_SIZE` */
  const BufferSize: nat := 8192
  /** `ULLONG_MAX` for the 64-bit `unsigned long long`. */
  const ULLongMax: nat := 0xFFFF_FFFF_FFFF_FFFF
  const ULLongModulus: nat := 0x1_0000_0000_0000_0000
  /** Every integer below 2^53 is exact in a double. */
  const DoubleExact: nat := 0x20_0000_0000_0000

  const KB: nat := 0x400
  const MB: nat := 0x10_0000
  const GB: nat := 0x4000_0000
  const TB: nat := 0x100_0000_0000

  // ---------------------------------------------------------------------
  // parse_size
  // ---------------------------------------------------------------------

  /** What `parse_size` returns, or `NotModelled` for an input whose value
      depends on floating point. */
  datatype SizeParse = Bytes(n: nat) | NotModelled

  /** The unit a suffix letter names, in either case. */
  function UnitOf(c: char): Option<nat> {
    match Lower(c)
    case 'b' => Some(1)
    case 'k' => Some(KB)
    case 'm' => Some(MB)
    case 'g' => Some(GB)
    case 't' => Some(TB)
    case _ => None
  }

  /** The suffix table: a unit letter alone, or a unit letter other than
      B followed by B, in any case. */
  function SuffixMultiplier(suffix: string): Option<nat> {
    if |suffix| == 1 then UnitOf(suffix[0])
    else if |suffix| == 2 && Lower(suffix[0]) != 'b' && Lower(suffix[1]) == 'b' then UnitOf(suffix[0])
    else None
  }

  /** The table is the chain of `strcasecmp` comparisons in `parse_size`. */
  lemma SuffixTable(suffix: string)
    ensures SuffixMultiplier(suffix) ==
      if EqualsIgnoreCase(suffix, "B") then Some(1)
      else if EqualsIgnoreCase(suffix, "K") || EqualsIgnoreCase(suffix, "KB") then Some(KB)
      else if EqualsIgnoreCase(suffix, "M") || EqualsIgnoreCase(suffix, "MB") then Some(MB)
      else if EqualsIgnoreCase(suffix, "G") || EqualsIgnoreCase(suffix, "GB") then Some(GB)
      else if EqualsIgnoreCase(suffix, "T") || EqualsIgnoreCase(suffix, "TB") then Some(TB)
      else None
  {
    if |suffix| == 2 {
      assert EqualsIgnoreCase(suffix, "B") == false;
    }
  }

  /** The digits `strtod` reads after the sign: a value and the text after
      it, no digits at all, or a form that is not an integer. */
  datatype Magnitude = Read(value: nat, rest: string) | NoDigits | NotInteger

  /** Decimal digits, or "0x"/"0X" and hexadecimal digits, not followed by
      a fraction or an exponent. */
  function ReadMagnitude(u: string): Magnitude {
    if |u| >= 3 && u[0] == '0' && (u[1] == 'x' || u[1] == 'X') && (IsHexDigit(u[2]) || u[2] == '.') then
      var k := HexRun(u[2..]);
      var rest := u[2 + k..];
      if rest != [] && (rest[0] == '.' || rest[0] == 'p' || rest[0] == 'P') then NotInteger
      else Read(HexDigitsValue(u[2..2 + k]), rest)
    else
      var k := DigitRun(u);
      if k == 0 then
        if u != [] && (u[0] == '.' || Lower(u[0]) == 'i' || Lower(u[0]) == 'n') then NotInteger
        else NoDigits
      else
        var rest := u[k..];
        if rest != [] && (rest[0] == '.' || rest[0] == 'e' || rest[0] == 'E') then NotInteger
        else Read(DigitsValue(u[..k]), rest)
  }

  /** A number `strtod` read: its sign, its magnitude, and the text after it
      (where `endptr` points). */
  datatype Number = Number(negative: bool, value: nat, rest: string) | NotNumber

  /** `strtod(s, &endptr)` where it reads an integer: leading whitespace, a
      sign, then the magnitude.  With no digits at all nothing is converted:
      the value is 0 and `endptr` is `s` itself. */
  function Strtod(s: string): Number {
    var t := LStripC(s);
    var signed := |t| > 0 && (t[0] == '-' || t[0] == '+');
    match ReadMagnitude(if signed then t[1..] else t)
    case NotInteger => NotNumber
    case NoDigits => Number(false, 0, s)
    case Read(v, rest) => Number(signed && t[0] == '-', v, rest)
  }

  /** "0x"/"0X" followed only by hexadecimal digits: the hexadecimal path
      of `parse_size`, where `strtoull` consumes the whole string. */
  predicate HexSize(s: string) {
    |s| > 2 && s[0] == '0' && (s[1] == 'x' || s[1] == 'X') && HexRun(s[2..]) == |s| - 2
  }

  /** `strtoull(s, &endptr, 16)` on such a string; a value above
      `ULLONG_MAX` saturates. */
  function HexSizeValue(s: string): (n: nat)
    requires HexSize(s)
    ensures n <= ULLongMax
  {
    var v := HexDigitsValue(s[2..]);
    if v > ULLongMax then ULLongMax else v
  }

  /** `(unsigned long long)(value * unit)` for the suffix, or 0 for one
      outside the table. */
  function Scale(v: nat, suffix: string): SizeParse {
    match SuffixMultiplier(suffix)
    case None => Bytes(0)
    case Some(m) => if v * m > ULLongMax then NotModelled else Bytes(v * m)
  }

  /** The strtod path of `parse_size`, given what `strtod` read. */
  function FromNumber(x: Number): SizeParse {
    match x
    case NotNumber => NotModelled
    case Number(neg, v, rest) =>
      if v >= DoubleExact then NotModelled
      else if neg && v > 0 then Bytes(0)
      else if rest == "" then Bytes(v)
      else Scale(v, LStripC(rest))
  }

  /** `parse_size(str)`, with `None` for a NULL pointer. */
  function SizeOf(str: Option<string>): SizeParse {
    if str.None? || str.value == "" then Bytes(0)
    else if HexSize(str.value) then Bytes(HexSizeValue(str.value))
    else FromNumber(Strtod(str.value))
  }

  /** `parse_size`, with its `while (isspace(*endptr)) endptr++` loop. */
  method ParseSize(str: Option<string>) returns (r: SizeParse)
    ensures r == SizeOf(str)
  {
    if str.None? || str.value == "" {
      return Bytes(0);
    }
    var s := str.value;
    if HexSize(s) {
      return Bytes(HexSizeValue(s));
    }
    assert SizeOf(str) == FromNumber(Strtod(s));
    match Strtod(s) {
      case NotNumber =>
        return NotModelled;
      case Number(neg, v, rest) =>
        if v >= DoubleExact {
          return NotModelled;
        }
        if neg && v > 0 {
          return Bytes(0);
        }
        if rest == "" {
          return Bytes(v);
        }
        var p := SkipSpaces(rest);
        r := Scale(v, rest[p..]);
    }
  }

  /** Every size `parse_size` returns fits an `unsigned long long`. */
  lemma SizeFits(str: Option<string>)
    ensures SizeOf(str).Bytes? ==> SizeOf(str).n <= ULLongMax
  {
  }

  /** `while (isspace(*endptr)) endptr++;` */
  method SkipSpaces(rest: string) returns (p: nat)
    ensures p <= |rest| && rest[p..] == LStripC(rest)
  {
    p := 0;
    while p < |rest| && IsCSpace(rest[p])
      invariant p <= |rest| && LStripC(rest[p..]) == LStripC(rest)
    {
      assert rest[p..][1..] == rest[p + 1..];
      p := p + 1;
    }
  }

  // ---- facts about the readers ----

  lemma {:induction false} LStripCSpaces(ws: string, t: string)
    requires forall i :: 0 <= i < |ws| ==> IsCSpace(ws[i])
    requires t == [] || !IsCSpace(t[0])
    ensures LStripC(ws + t) == t
  {
    if ws != [] {
      assert (ws + t)[1..] == ws[1..] + t;
      LStripCSpaces(ws[1..], t);
    }
  }

  lemma {:induction false} DigitRunOf(d: string, t: string)
    requires forall i :: 0 <= i < |d| ==> IsDigit(d[i])
    requires t == [] || !IsDigit(t[0])
    ensures DigitRun(d + t) == |d|
  {
    if d != [] {
      assert (d + t)[1..] == d[1..] + t;
      DigitRunOf(d[1..], t);
    }
  }

  /** `t` can follow a decimal integer without being read as part of it. */
  predicate Delimits(t: string) {
    t == [] || !(IsDigit(t[0]) || t[0] in ".eExX")
  }

  lemma ReadDecimal(n: nat, t: string)
    requires Delimits(t)
    ensures ReadMagnitude(NatToString(n) + t) == Read(n, t)
  {
    var d := NatToString(n);
    var u := d + t;
    if |u| >= 3 && u[0] == '0' {
      assert |d| == 1 && u[1] == t[0];
    }
    DigitRunOf(d, t);
    assert u[..|d|] == d && u[|d|..] == t;
    DigitsValueOfNatToString(n);
  }

  /** Reading the decimal text of `n` followed by `t`: the value is `n`
      and `endptr` points at `t`; the hexadecimal path is not taken. */
  lemma StrtodDecimal(n: nat, t: string)
    requires Delimits(t)
    ensures Strtod(NatToString(n) + t) == Number(false, n, t)
    ensures !HexSize(NatToString(n) + t)
  {
    var d := NatToString(n);
    var s := d + t;
    assert !IsCSpace(s[0]) && s[0] != '-' && s[0] != '+';
    assert LStripC(s) == s;
    ReadDecimal(n, t);
    if |s| > 2 && s[0] == '0' {
      assert |d| == 1 && s[1] == t[0];
    }
  }

  /** The same after a minus sign. */
  lemma StrtodNegative(n: nat, t: string)
    requires Delimits(t)
    ensures Strtod("-" + (NatToString(n) + t)) == Number(true, n, t)
  {
    var u := NatToString(n) + t;
    ReadDecimal(n, t);
    var s := "-" + u;
    assert s[1..] == u;
    assert LStripC(s) == s;
  }

  /** A decimal byte count without suffix parses to itself. */
  lemma DecimalSize(n: nat)
    requires n < DoubleExact
    ensures SizeOf(Some(NatToString(n))) == Bytes(n)
  {
    StrtodDecimal(n, "");
    assert NatToString(n) + "" == NatToString(n);
  }

  /** Every suffix in the table starts with a letter. */
  lemma SuffixLetter(suffix: string)
    requires SuffixMultiplier(suffix).Some?
    ensures suffix != [] && Lower(suffix[0]) in "bkmgt"
  {
  }

  /** A byte count followed by optional whitespace and a suffix: the
      suffix alone decides the result. */
  lemma SuffixRead(n: nat, ws: string, suffix: string)
    requires n < DoubleExact
    requires forall i :: 0 <= i < |ws| ==> IsCSpace(ws[i])
    requires suffix == [] || !IsCSpace(suffix[0])
    requires Delimits(ws + suffix) && ws + suffix != []
    ensures SizeOf(Some(NatToString(n) + ws + suffix)) == Scale(n, suffix)
  {
    StrtodSpaced(n, ws, suffix);
    LStripCSpaces(ws, suffix);
  }

  lemma StrtodSpaced(n: nat, ws: string, suffix: string)
    requires Delimits(ws + suffix)
    ensures Strtod(NatToString(n) + ws + suffix) == Number(false, n, ws + suffix)
    ensures !HexSize(NatToString(n) + ws + suffix)
  {
    StrtodDecimal(n, ws + suffix);
    assert NatToString(n) + ws + suffix == NatToString(n) + (ws + suffix);
  }

  /** A byte count, optional whitespace and a suffix from the table
      (in any case) parse to the count times the suffix's unit. */
  lemma SuffixScales(n: nat, ws: string, suffix: string)
    requires n < DoubleExact
    requires forall i :: 0 <= i < |ws| ==> IsCSpace(ws[i])
    requires SuffixMultiplier(suffix).Some?
    requires n * SuffixMultiplier(suffix).value <= ULLongMax
    ensures SizeOf(Some(NatToString(n) + ws + suffix)) == Bytes(n * SuffixMultiplier(suffix).value)
  {
    SuffixLetter(suffix);
    assert (ws + suffix)[0] == if ws == [] then suffix[0] else ws[0];
    SuffixRead(n, ws, suffix);
  }

  /** Trailing whitespace without a suffix, and an unknown suffix, give 0. */
  lemma UnknownSuffixIsZero(n: nat, ws: string, suffix: string)
    requires n < DoubleExact
    requires forall i :: 0 <= i < |ws| ==> IsCSpace(ws[i])
    requires suffix == [] || !IsCSpace(suffix[0])
    requires Delimits(ws + suffix) && ws + suffix != []
    requires SuffixMultiplier(suffix).None?
    ensures SizeOf(Some(NatToString(n) + ws + suffix)) == Bytes(0)
  {
    SuffixRead(n, ws, suffix);
  }

  /** A negative count parses to 0, with or without a suffix. */
  lemma NegativeIsZero(n: nat, t: string)
    requires 0 < n < DoubleExact && Delimits(t)
    ensures SizeOf(Some("-" + NatToString(n) + t)) == Bytes(0)
  {
    StrtodNegative(n, t);
    assert "-" + NatToString(n) + t == "-" + (NatToString(n) + t);
  }

  lemma {:induction false} HexUpperDigits(n: nat)
    ensures forall i :: 0 <= i < |HexUpper(n)| ==> IsHexDigit(HexUpper(n)[i])
    ensures HexDigitsValue(HexUpper(n)) == n
  {
    var h := HexUpper(n);
    if n >= 16 {
      HexUpperDigits(n / 16);
      assert h[..|h| - 1] == HexUpper(n / 16);
    }
  }

  lemma {:induction false} HexRunAll(h: string)
    requires forall i :: 0 <= i < |h| ==> IsHexDigit(h[i])
    ensures HexRun(h) == |h|
  {
    if h != [] {
      HexRunAll(h[1..]);
    }
  }

  /** "0x" and the hexadecimal digits of `n` parse to `n`, saturating at
      `ULLONG_MAX`. */
  lemma HexSizeRoundTrip(n: nat)
    ensures SizeOf(Some("0x" + HexUpper(n))) == Bytes(if n > ULLongMax then ULLongMax else n)
  {
    var s := "0x" + HexUpper(n);
    HexUpperDigits(n);
    assert s[2..] == HexUpper(n);
    HexRunAll(HexUpper(n));
  }

  // ---------------------------------------------------------------------
  // format_size
  // ---------------------------------------------------------------------

  datatype Unit = TBUnit | GBUnit | MBUnit | KBUnit | ByteUnit

  function UnitSize(u: Unit): nat {
    match u
    case TBUnit => TB
    case GBUnit => GB
    case MBUnit => MB
    case KBUnit => KB
    case ByteUnit => 1
  }

  /** What `format_size` prints: "<n> bytes" below 1 KB, otherwise the
      value in a unit (its `%.2f` digits are not modelled). */
  datatype Formatted = Exact(text: string) | Scaled(unit: Unit)

  function FormatSize(bytes: nat): (f: Formatted)
    ensures f.Exact? <==> bytes < KB
  {
    if bytes >= TB then Scaled(TBUnit)
    else if bytes >= GB then Scaled(GBUnit)
    else if bytes >= MB then Scaled(MBUnit)
    else if bytes >= KB then Scaled(KBUnit)
    else Exact(NatToString(bytes) + " bytes")
  }

  /** The unit is the largest one the size reaches, so the printed number
      lies in [1, 1024) except in terabytes, and a small size is printed
      as its exact decimal count. */
  lemma FormatSizeUnit(bytes: nat)
    ensures FormatSize(bytes).Scaled? ==>
      var u := FormatSize(bytes).unit;
      UnitSize(u) <= bytes && (u != TBUnit ==> bytes < 1024 * UnitSize(u))
    ensures FormatSize(bytes).Exact? ==>
      var text := FormatSize(bytes).text;
      EndsWith(text, " bytes") && DigitsValue(text[..|text| - 6]) == bytes
  {
    if bytes < KB {
      var text := FormatSize(bytes).text;
      assert text[..|text| - 6] == NatToString(bytes);
      DigitsValueOfNatToString(bytes);
    }
  }

  // ---------------------------------------------------------------------
  // write_file
  // ---------------------------------------------------------------------

  /** `(int)((written * 100) / size)` as written: the product is an
      `unsigned long long` and wraps modulo 2^64. */
  function PercentAsWritten(written: nat, size: nat): nat
    requires 0 < size
  {
    ((written * 100) % ULLongModulus) / size
  }

  /** Once `written * 100` passes 2^64, the percentage falls back: with a
      2^62-byte file it reads 3 after one chunk and 0 after the next. */
  lemma PercentWrapsBackward()
    ensures var size, w := 0x4000_0000_0000_0000, 184467440737091584;
      && w % BufferSize == 0 && w + BufferSize <= size
      && PercentAsWritten(w, size) == 3 && PercentAsWritten(w + BufferSize, size) == 0
  {
  }

  lemma MulMono(x: nat, y: nat, d: nat)
    requires x <= y
    ensures x * d <= y * d
  {
  }

  /** Euclidean division is monotone in the dividend. */
  lemma DivMono(a: nat, b: nat, d: nat)
    requires a <= b && 0 < d
    ensures a / d <= b / d
  {
    var qa, qb := a / d, b / d;
    assert a == qa * d + a % d && b == qb * d + b % d;
    if qa > qb {
      MulMono(qb + 1, qa, d);
    }
  }

  lemma DivExact(q: nat, d: nat)
    requires 0 < d
    ensures (q * d) / d == q
  {
    var a := q * d;
    var r := a / d;
    assert a == r * d + a % d;
    if r < q {
      MulMono(r + 1, q, d);
    }
  }

  /** The percentage without the wrap-around. */
  function Percent(written: nat, size: nat): (p: nat)
    requires 0 < size && written <= size
    ensures p <= 100
    ensures written == size ==> p == 100
  {
    MulMono(written, size, 100);
    DivMono(written * 100, size * 100, size);
    DivExact(100, size);
    (written * 100) / size
  }

  /** The corrected percentage never decreases as more is written. */
  lemma PercentMonotone(w1: nat, w2: nat, size: nat)
    requires 0 < size && w1 <= w2 <= size
    ensures Percent(w1, size) <= Percent(w2, size)
  {
    MulMono(w1, w2, 100);
    DivMono(w1 * 100, w2 * 100, size);
  }

  /** Both agree as long as `written * 100` fits 64 bits. */
  lemma PercentAgrees(written: nat, size: nat)
    requires 0 < size && written <= size && written * 100 < ULLongModulus
    ensures PercentAsWritten(written, size) == Percent(written, size)
  {
  }

  /** `buffer[i] = (unsigned char)(i & 0xFF)` */
  method FillPattern(buffer: array<byte>)
    modifies buffer
    ensures forall i :: 0 <= i < buffer.Length ==> buffer[i] as int == i % 256
  {
    for i := 0 to buffer.Length
      invariant forall j :: 0 <= j < i ==> buffer[j] as int == j % 256
    {
      buffer[i] := (i % 256) as byte;
    }
  }

  /** A file whose byte at every offset `k` is `k mod 256`. */
  ghost predicate Patterned(file: seq<byte>) {
    forall k :: 0 <= k < |file| ==> file[k] as int == k % 256
  }

  /** `to_write`: a full buffer, or what is left. */
  function Chunk(written: nat, size: nat): (n: nat)
    ensures written < size ==> 0 < n <= BufferSize && written + n <= size
    ensures written < size && n < BufferSize ==> written + n == size
  {
    if written >= size then 0
    else if size - written > BufferSize then BufferSize
    else size - written
  }

  lemma ModShift(x: nat, c: nat)
    ensures (x + c * BufferSize) % 256 == x % 256
  {
    assert x + c * BufferSize == x + (c * 32) * 256;
  }

  /** Appending a pattern chunk at a multiple of the buffer size keeps the
      file patterned, since 8192 is a multiple of 256. */
  lemma AppendKeepsPattern(file: seq<byte>, c: nat, buffer: seq<byte>, r: nat)
    requires Patterned(file) && |file| == c * BufferSize
    requires r <= |buffer| && forall i :: 0 <= i < |buffer| ==> buffer[i] as int == i % 256
    ensures Patterned(file + buffer[..r])
  {
    var n := |file|;
    forall k | n <= k < n + r ensures (file + buffer[..r])[k] as int == k % 256 {
      assert (file + buffer[..r])[k] == buffer[k - n];
      ModShift(k - n, c);
    }
  }

  /** Percentages printed so far: rising strictly, each at most 100, the
      last one kept in `last_percent` (-1 before the first). */
  ghost predicate Reports(progress: seq<nat>, lastPercent: int) {
    && (forall i, j :: 0 <= i < j < |progress| ==> progress[i] < progress[j])
    && (forall i :: 0 <= i < |progress| ==> progress[i] <= 100)
    && lastPercent == (if progress == [] then -1 else progress[|progress| - 1])
  }

  /** `if (percent != last_percent) { printf(...); last_percent = percent; }` */
  method Report(progress: seq<nat>, lastPercent: int, percent: nat) returns (progress': seq<nat>, lastPercent': int)
    requires Reports(progress, lastPercent) && lastPercent <= percent <= 100
    ensures Reports(progress', lastPercent') && lastPercent' == percent
    ensures progress' == if percent == lastPercent then progress else progress + [percent]
  {
    progress', lastPercent' := progress, lastPercent;
    if percent != lastPercent {
      progress' := progress + [percent];
      lastPercent' := percent;
    }
  }

  /** `write_file(filename, size)`.  `openOk` says whether `fopen`
      succeeds, and `accepted(written, n)` how many of the `n` bytes the
      `fwrite` at offset `written` takes (at most `n`).  The results are the
      return value, the file's contents, the chunk sizes asked for, and the
      percentages printed, the final "100%" included. */
  method WriteFileLoop(size: nat, openOk: bool, accepted: (nat, nat) -> nat)
    returns (ret: int, file: seq<byte>, chunks: seq<nat>, progress: seq<nat>)
    ensures ret == 0 || ret == 1
    ensures !openOk ==> ret == 1 && file == [] && chunks == [] && progress == []
    ensures ret == 0 <==> openOk && |file| == size
    ensures |file| <= size && Patterned(file)
    ensures forall j :: 0 <= j < |chunks| ==> chunks[j] == Chunk(j * BufferSize, size) && j * BufferSize < size
    ensures ret == 0 ==> size <= |chunks| * BufferSize
    ensures forall i, j :: 0 <= i < j < |progress| ==> progress[i] <= progress[j]
    ensures forall i :: 0 <= i < |progress| ==> progress[i] <= 100
    ensures ret == 0 ==> |progress| > 0 && progress[|progress| - 1] == 100
  {
    var buffer := new byte[BufferSize];
    FillPattern(buffer);
    var pattern := buffer[..];
    assert forall i :: 0 <= i < |pattern| ==> pattern[i] as int == i % 256;
    file, chunks, progress := [], [], [];
    if !openOk {
      return 1, file, chunks, progress;
    }
    var written: nat := 0;
    var lastPercent: int := -1;
    while written < size
      invariant written == |file| <= size && Patterned(file)
      invariant written < size ==> written == |chunks| * BufferSize
      invariant written <= |chunks| * BufferSize
      invariant forall j :: 0 <= j < |chunks| ==> chunks[j] == Chunk(j * BufferSize, size) && j * BufferSize < size
      invariant Reports(progress, lastPercent)
      invariant 0 < size ==> lastPercent <= Percent(written, size)
      decreases size - written
    {
      var toWrite := Chunk(written, size);
      chunks := chunks + [toWrite];
      var r := accepted(written, toWrite);
      if r > toWrite {
        r := toWrite;
      }
      AppendKeepsPattern(file, |chunks| - 1, pattern, r);
      file := file + pattern[..r];
      if r != toWrite {
        return 1, file, chunks, progress;
      }
      PercentMonotone(written, written + r, size);
      written := written + r;
      progress, lastPercent := Report(progress, lastPercent, Percent(written, size));
    }
    progress := progress + [100];
    ret := 0;
  }

  // ---------------------------------------------------------------------
  // main
  // ---------------------------------------------------------------------

  /** `main(argc, argv)` with `args` = argv[1..]: 1 unless there are exactly
      two arguments and the size parses to a non-zero count; then what
      `write_file` returns (`writeRet`).  `None` when the size is outside
      the modelled integer forms. */
  function MainExit(args: seq<string>, writeRet: int): (code: Option<int>)
    ensures |args| != 2 ==> code == Some(1)
    ensures |args| == 2 && SizeOf(Some(args[0])) == Bytes(0) ==> code == Some(1)
    ensures |args| == 2 && SizeOf(Some(args[0])).Bytes? && SizeOf(Some(args[0])).n > 0 ==> code == Some(writeRet)
  {
    if |args| != 2 then Some(1)
    else match SizeOf(Some(args[0]))
      case NotModelled => None
      case Bytes(n) => if n == 0 then Some(1) else Some(writeRet)
  }

  /** `writefile <n> <file>` with a positive decimal count reaches
      `write_file` and exits with what it returns; a count of 0 is refused
      with exit code 1. */
  lemma DecimalArgumentWrites(n: nat, filename: string, writeRet: int)
    requires n < DoubleExact
    ensures MainExit([NatToString(n), filename], writeRet) == if n == 0 then Some(1) else Some(writeRet)
  {
    DecimalSize(n);
  }
}
