/**
 * Character and string helpers shared by the models: the handful of Python
 * `str` methods and C library conversions that the XCOFF tools and the AIX
 * test utilities rely on, each written out so that its behaviour on edge
 * cases (empty input, separators at the ends) is explicit.
 */
module Text {

  datatype Option<T> = None | Some(value: T)

  datatype Result<T> = Ok(value: T) | Err(error: string)

  /** An 8-bit byte. */
  newtype byte = x: int | 0 <= x < 256

  // ---------------------------------------------------------------------
  // Character classes
  // ---------------------------------------------------------------------

  /** Python's `str.isspace`, which is also what `\s` matches in a `str`
      pattern: ASCII whitespace, the information separators U+001C..U+001F,
      U+0085, U+00A0, U+1680, U+2000..U+200A, the line and paragraph
      separators U+2028 and U+2029, U+202F, U+205F and U+3000. */
  predicate IsSpace(c: char) {
    c == ' ' || c == '\t' || c == '\n' || c == '\r' || c == '\U{000B}' || c == '\U{000C}'
    || ('\U{001C}' <= c <= '\U{001F}') || c == '\U{0085}' || c == '\U{00A0}'
    || c == '\U{1680}' || ('\U{2000}' <= c <= '\U{200A}') || c == '\U{2028}' || c == '\U{2029}'
    || c == '\U{202F}' || c == '\U{205F}' || c == '\U{3000}'
  }

  /** C's `isspace` in the "C" locale. */
  predicate IsCSpace(c: char) {
    c == ' ' || c == '\t' || c == '\n' || c == '\r' || c == '\U{000B}' || c == '\U{000C}'
  }

  predicate IsDigit(c: char) { '0' <= c <= '9' }

  predicate IsHexDigit(c: char) { '0' <= c <= '9' || 'a' <= c <= 'f' || 'A' <= c <= 'F' }

  /** Python's `str.isdigit` restricted to ASCII: non-empty and all digits. */
  predicate AllDigits(s: string) {
    |s| > 0 && forall i :: 0 <= i < |s| ==> IsDigit(s[i])
  }

  function DigitValue(c: char): nat
    requires IsDigit(c)
  {
    (c as int) - ('0' as int)
  }

  function HexValue(c: char): (v: nat)
    requires IsHexDigit(c)
    ensures v < 16
  {
    if '0' <= c <= '9' then (c as int) - ('0' as int)
    else if 'a' <= c <= 'f' then (c as int) - ('a' as int) + 10
    else (c as int) - ('A' as int) + 10
  }

  function Lower(c: char): char {
    if 'A' <= c <= 'Z' then ((c as int) + 32) as char else c
  }

  // ---------------------------------------------------------------------
  // Prefixes, suffixes, substrings
  // ---------------------------------------------------------------------

  predicate StartsWith(s: string, p: string) { |p| <= |s| && s[..|p|] == p }

  predicate EndsWith(s: string, p: string) { |p| <= |s| && s[|s| - |p|..] == p }

  /** Python's `p in s` for strings: `p` occurs at some position of `s`. */
  predicate Contains(s: string, p: string)
    decreases |s|
  {
    StartsWith(s, p) || (|s| > 0 && Contains(s[1..], p))
  }

  /** Case-insensitive equality over ASCII letters (C `strcasecmp(a, b) == 0`). */
  predicate EqualsIgnoreCase(a: string, b: string) {
    |a| == |b| && forall i :: 0 <= i < |a| ==> Lower(a[i]) == Lower(b[i])
  }

  // ---------------------------------------------------------------------
  // Stripping
  // ---------------------------------------------------------------------

  /** Python's `s.lstrip()`. */
  function LStrip(s: string): (r: string)
    ensures |r| <= |s|
    ensures r == [] || !IsSpace(r[0])
  {
    if |s| > 0 && IsSpace(s[0]) then LStrip(s[1..]) else s
  }

  /** `s.lstrip()` removes only leading whitespace. */
  lemma {:induction false} LStripRemovesSpace(s: string)
    ensures LStrip(s) == s[|s| - |LStrip(s)|..]
    ensures forall i :: 0 <= i < |s| - |LStrip(s)| ==> IsSpace(s[i])
  {
    if |s| > 0 && IsSpace(s[0]) {
      LStripRemovesSpace(s[1..]);
    }
  }

  /** Python's `s.rstrip()`. */
  function RStrip(s: string): (r: string)
    ensures |r| <= |s|
    ensures r == [] || !IsSpace(r[|r| - 1])
  {
    if |s| > 0 && IsSpace(s[|s| - 1]) then RStrip(s[..|s| - 1]) else s
  }

  /** `s.rstrip()` removes only trailing whitespace. */
  lemma {:induction false} RStripRemovesSpace(s: string)
    ensures RStrip(s) == s[..|RStrip(s)|]
    ensures forall i :: |RStrip(s)| <= i < |s| ==> IsSpace(s[i])
  {
    if |s| > 0 && IsSpace(s[|s| - 1]) {
      RStripRemovesSpace(s[..|s| - 1]);
    }
  }

  /** Python's `s.strip()`. */
  function Strip(s: string): (r: string)
    ensures r == [] || (!IsSpace(r[0]) && !IsSpace(r[|r| - 1]))
    ensures |r| <= |s|
  {
    RStripRemovesSpace(LStrip(s));
    RStrip(LStrip(s))
  }

  lemma StripSpaceless(s: string)
    requires s == [] || (!IsSpace(s[0]) && !IsSpace(s[|s| - 1]))
    ensures Strip(s) == s
  {
  }

  /** Python's `s.lstrip(c)` for a single character `c`. */
  function LStripChar(s: string, c: char): (r: string)
    ensures |r| <= |s| && r == s[|s| - |r|..]
    ensures r == [] || r[0] != c
    ensures forall i :: 0 <= i < |s| - |r| ==> s[i] == c
  {
    if |s| > 0 && s[0] == c then LStripChar(s[1..], c) else s
  }

  /** Python's `s.rstrip(chars)`: removes every trailing character in `chars`. */
  function RStripSet(s: string, chars: set<char>): (r: string)
    ensures |r| <= |s| && r == s[..|r|]
    ensures r == [] || r[|r| - 1] !in chars
    ensures forall i :: |r| <= i < |s| ==> s[i] in chars
  {
    if |s| > 0 && s[|s| - 1] in chars then RStripSet(s[..|s| - 1], chars) else s
  }

  /** Python's `s.replace(c, "")` for a single character. */
  function Delete(s: string, c: char): (r: string)
    ensures c !in r
    ensures forall x :: x in r <==> x in s && x != c
  {
    if s == [] then []
    else (if s[0] == c then [] else [s[0]]) + Delete(s[1..], c)
  }

  // ---------------------------------------------------------------------
  // Splitting and joining
  // ---------------------------------------------------------------------

  /** Index of the first `c` in `s`, or `|s|` when there is none. */
  function IndexOf(s: string, c: char): (k: nat)
    ensures k <= |s|
    ensures k < |s| ==> s[k] == c
    ensures forall i :: 0 <= i < k ==> s[i] != c
  {
    if s == [] || s[0] == c then 0 else 1 + IndexOf(s[1..], c)
  }

  /** Python's `s.split(sep)` for a one-character separator. */
  function SplitOn(s: string, sep: char): (r: seq<string>)
    ensures |r| >= 1
    ensures forall i :: 0 <= i < |r| ==> sep !in r[i]
    decreases |s|
  {
    var k := IndexOf(s, sep);
    if k == |s| then [s] else [s[..k]] + SplitOn(s[k + 1..], sep)
  }

  /** Python's `sep.join(parts)`. */
  function Join(parts: seq<string>, sep: string): string {
    if parts == [] then []
    else if |parts| == 1 then parts[0]
    else parts[0] + sep + Join(parts[1..], sep)
  }

  /** Appending a part appends the separator and the part. */
  lemma {:induction false} JoinSnoc(parts: seq<string>, last: string, sep: string)
    requires parts != []
    ensures Join(parts + [last], sep) == Join(parts, sep) + sep + last
  {
    if |parts| > 1 {
      assert (parts + [last])[1..] == parts[1..] + [last];
      JoinSnoc(parts[1..], last, sep);
    }
  }

  /** The pieces of a ", "-joined text when it is cut at each ',': the
      first part, then every further part behind its space. */
  function Spaced(members: seq<string>): (r: seq<string>)
    requires 1 <= |members|
    ensures |r| == |members| && r[0] == members[0]
    ensures forall i :: 1 <= i < |r| ==> r[i] == " " + members[i]
  {
    [members[0]] + seq(|members| - 1, i requires 0 <= i < |members| - 1 => " " + members[i + 1])
  }

  /** A ", "-joined text names every part, in order, and nothing else:
      with parts free of ',', cutting it at each ',' gives the first part and
      then each further part behind its space. */
  lemma SplitCommaSpaced(members: seq<string>)
    requires 1 <= |members|
    requires forall i :: 0 <= i < |members| ==> ',' !in members[i]
    ensures SplitOn(Join(members, ", "), ',') == Spaced(members)
  {
    var spaced := Spaced(members);
    JoinSpaced(members);
    forall i | 0 <= i < |spaced| ensures ',' !in spaced[i] {
      if i > 0 {
        assert spaced[i] == " " + members[i];
      }
    }
    SplitJoin(spaced, ',');
  }

  /** Joining with ", " is joining the space-prefixed names with ",". */
  lemma {:induction false} JoinSpaced(members: seq<string>)
    requires 1 <= |members|
    ensures Join(members, ", ") == Join(Spaced(members), ",")
  {
    var spaced := Spaced(members);
    if |members| > 1 {
      var rest := members[1..];
      var restSpaced := Spaced(rest);
      var tail := Join(restSpaced, ",");
      JoinSpaced(rest);
      assert restSpaced == [rest[0]] + restSpaced[1..];
      assert spaced[1..] == [" " + rest[0]] + restSpaced[1..];
      JoinHeadSpaced(rest[0], restSpaced[1..]);
      assert Join(spaced[1..], ",") == " " + tail;
      assert Join(members, ", ") == members[0] + ", " + tail;
      assert Join(spaced, ",") == members[0] + "," + (" " + tail);
    }
  }

  /** Prefixing the first part with a space prefixes the joined text. */
  lemma JoinHeadSpaced(first: string, others: seq<string>)
    ensures Join([" " + first] + others, ",") == " " + Join([first] + others, ",")
  {
    if others != [] {
      assert ([" " + first] + others)[1..] == others;
      assert ([first] + others)[1..] == others;
    }
  }

  lemma {:induction false} SplitJoin(parts: seq<string>, sep: char)
    requires |parts| >= 1
    requires forall i :: 0 <= i < |parts| ==> sep !in parts[i]
    ensures SplitOn(Join(parts, [sep]), sep) == parts
  {
    assert sep !in parts[0];
    if |parts| == 1 {
      assert IndexOf(parts[0], sep) == |parts[0]|;
    } else {
      var s := Join(parts, [sep]);
      var rest := Join(parts[1..], [sep]);
      assert s == parts[0] + ([sep] + rest);
      assert IndexOf(s, sep) == |parts[0]| by {
        IndexOfPrefix(parts[0], [sep] + rest, sep);
      }
      assert s[..|parts[0]|] == parts[0];
      assert s[|parts[0]| + 1..] == rest;
      assert forall i :: 0 <= i < |parts[1..]| ==> sep !in parts[1..][i] by {
        forall i | 0 <= i < |parts[1..]| ensures sep !in parts[1..][i] {
          assert parts[1..][i] == parts[i + 1];
        }
      }
      SplitJoin(parts[1..], sep);
      assert SplitOn(s, sep) == [parts[0]] + SplitOn(rest, sep);
      assert [parts[0]] + parts[1..] == parts;
    }
  }

  lemma {:induction false} IndexOfPrefix(a: string, b: string, c: char)
    requires c !in a && |b| > 0 && b[0] == c
    ensures IndexOf(a + b, c) == |a|
  {
    if a != [] {
      assert (a + b)[1..] == a[1..] + b;
      IndexOfPrefix(a[1..], b, c);
    }
  }

  /** Length of the run of non-whitespace characters at the start of `s`. */
  function WordLength(s: string): (k: nat)
    ensures k <= |s|
    ensures forall i :: 0 <= i < k ==> !IsSpace(s[i])
    ensures k < |s| ==> IsSpace(s[k])
  {
    if s == [] || IsSpace(s[0]) then 0 else 1 + WordLength(s[1..])
  }

  /** A non-empty run of non-whitespace characters. */
  predicate IsWord(w: string) {
    |w| > 0 && forall j :: 0 <= j < |w| ==> !IsSpace(w[j])
  }

  /** Python's `s.split()`: the maximal runs of non-whitespace characters. */
  function Tokens(s: string): (r: seq<string>)
    ensures forall i :: 0 <= i < |r| ==> IsWord(r[i])
    decreases |s|
  {
    var t := LStrip(s);
    if t == [] then []
    else
      var k := WordLength(t);
      [t[..k]] + Tokens(t[k..])
  }

  /** Where a line ends: `str.splitlines` recognises more breaks than reading a file. */
  datatype LineMode = SplitLines | FileIteration

  predicate IsLineBreak(c: char, mode: LineMode) {
    c == '\n' || c == '\r'
    || (mode == SplitLines &&
        (c == '\U{000B}' || c == '\U{000C}' || c == '\U{001C}' || c == '\U{001D}'
         || c == '\U{001E}' || c == '\U{0085}' || c == '\U{2028}' || c == '\U{2029}'))
  }

  function LineLength(s: string, mode: LineMode): (k: nat)
    ensures k <= |s|
    ensures forall i :: 0 <= i < k ==> !IsLineBreak(s[i], mode)
    ensures k < |s| ==> IsLineBreak(s[k], mode)
  {
    if s == [] || IsLineBreak(s[0], mode) then 0 else 1 + LineLength(s[1..], mode)
  }

  /**
   * The lines of `s` without their terminators: `s.splitlines()` in mode
   * SplitLines, and the lines a text-mode file iterates over (universal
   * newlines: "\n", "\r\n" and "\r") in mode FileIteration.  A final
   * terminator does not start an empty line.
   */
  function Lines(s: string, mode: LineMode): (r: seq<string>)
    ensures forall i :: 0 <= i < |r| ==> NoLineBreak(r[i], mode)
    decreases |s|
  {
    if s == [] then []
    else
      var k := LineLength(s, mode);
      if k == |s| then [s]
      else
        var width := if s[k] == '\r' && k + 1 < |s| && s[k + 1] == '\n' then 2 else 1;
        [s[..k]] + Lines(s[k + width..], mode)
  }

  predicate NoLineBreak(line: string, mode: LineMode) {
    forall j :: 0 <= j < |line| ==> !IsLineBreak(line[j], mode)
  }

  lemma {:induction false} LinesCons(line: string, rest: string, mode: LineMode)
    requires NoLineBreak(line, mode)
    ensures Lines(line + "\n" + rest, mode) == [line] + Lines(rest, mode)
  {
    var s := line + "\n" + rest;
    assert s == line + ("\n" + rest);
    LineLengthPrefix(line, "\n" + rest, mode);
    assert s[..|line|] == line;
    assert s[|line| + 1..] == rest;
  }

  lemma {:induction false} LineLengthPrefix(a: string, b: string, mode: LineMode)
    requires forall j :: 0 <= j < |a| ==> !IsLineBreak(a[j], mode)
    requires |b| > 0 && b[0] == '\n'
    ensures LineLength(a + b, mode) == |a|
  {
    if a != [] {
      assert (a + b)[1..] == a[1..] + b;
      LineLengthPrefix(a[1..], b, mode);
    }
  }

  // ---------------------------------------------------------------------
  // Numbers as text
  // ---------------------------------------------------------------------

  function DigitChar(d: nat): char
    requires d < 10
  {
    (('0' as int) + d) as char
  }

  /** Decimal text of a natural number, no leading zeros. */
  function NatToString(n: nat): (r: string)
    ensures |r| >= 1 && AllDigits(r)
    ensures |r| > 1 ==> r[0] != '0'
  {
    if n < 10 then [DigitChar(n)] else NatToString(n / 10) + [DigitChar(n % 10)]
  }

  /** Python `str(i)` / C `%d` of an integer. */
  function IntToString(i: int): string {
    if i < 0 then "-" + NatToString(-i) else NatToString(i)
  }

  /** The value of a string of decimal digits. */
  function DigitsValue(s: string): nat
    requires forall i :: 0 <= i < |s| ==> IsDigit(s[i])
  {
    if s == [] then 0 else 10 * DigitsValue(s[..|s| - 1]) + DigitValue(s[|s| - 1])
  }

  lemma {:induction false} DigitsValueOfNatToString(n: nat)
    ensures DigitsValue(NatToString(n)) == n
  {
    if n >= 10 {
      var s := NatToString(n);
      assert s[..|s| - 1] == NatToString(n / 10);
      DigitsValueOfNatToString(n / 10);
    }
  }

  /** C's `%0*d`: left-pads the digits with zeros up to `width` characters. */
  function ZeroPad(digits: string, width: nat): (r: string)
    ensures |r| == if |digits| < width then width else |digits|
    ensures EndsWith(r, digits)
    decreases width - |digits|
  {
    if |digits| < width then ZeroPad("0" + digits, width) else digits
  }

  /** C's `%04d`. */
  function Pad4(i: int): (r: string)
    ensures |r| >= 4
  {
    if i < 0 then "-" + ZeroPad(NatToString(-i), 3) else ZeroPad(NatToString(i), 4)
  }

  lemma {:induction false} Pad4Small(i: nat)
    requires i <= 9999
    ensures |Pad4(i)| == 4
    ensures forall j :: 0 <= j < 4 ==> IsDigit(Pad4(i)[j])
  {
    NatToStringLength(i, 4);
    ZeroPadDigits(NatToString(i), 4);
  }

  lemma {:induction false} ZeroPadDigits(digits: string, width: nat)
    requires forall j :: 0 <= j < |digits| ==> IsDigit(digits[j])
    ensures forall j :: 0 <= j < |ZeroPad(digits, width)| ==> IsDigit(ZeroPad(digits, width)[j])
    decreases width - |digits|
  {
    if |digits| < width {
      ZeroPadDigits("0" + digits, width);
    }
  }

  /** Numbers below 10^k have at most k digits. */
  lemma {:induction false} NatToStringLength(n: nat, k: nat)
    requires k >= 1 && n < Pow10(k)
    ensures |NatToString(n)| <= k
  {
    if n >= 10 {
      assert n / 10 < Pow10(k - 1);
      NatToStringLength(n / 10, k - 1);
    }
  }

  function Pow10(k: nat): (r: nat)
    ensures r >= 1
  {
    if k == 0 then 1 else 10 * Pow10(k - 1)
  }

  /** Python's `int(s)` on the forms modelled here: surrounding whitespace,
      an optional sign and ASCII digits.  Anything else raises ValueError. */
  function ParseInt(s: string): (r: Option<int>)
    ensures r.Some? ==> |Strip(s)| > 0
  {
    var t := Strip(s);
    if |t| > 0 && (t[0] == '-' || t[0] == '+') then
      if AllDigits(t[1..]) then Some(if t[0] == '-' then -(DigitsValue(t[1..]) as int) else DigitsValue(t[1..]))
      else None
    else if AllDigits(t) then Some(DigitsValue(t))
    else None
  }

  lemma ParseIntOfIntToString(i: int)
    ensures ParseInt(IntToString(i)) == Some(i)
  {
    var s := IntToString(i);
    var digits := NatToString(if i < 0 then -i else i);
    DigitsValueOfNatToString(if i < 0 then -i else i);
    assert !IsSpace(s[0]) && !IsSpace(s[|s| - 1]);
    StripSpaceless(s);
    if i < 0 {
      assert s[1..] == digits;
    }
  }

  /** Upper-case hexadecimal digits of `n`, no leading zeros. */
  function HexUpper(n: nat): (r: string)
    ensures |r| >= 1
  {
    var d := n % 16;
    var c := if d < 10 then DigitChar(d) else (('A' as int) + d - 10) as char;
    if n < 16 then [c] else HexUpper(n / 16) + [c]
  }

  /** Python's `f"0x{n:04X}"`. */
  function Hex4(n: nat): string {
    "0x" + ZeroPad(HexUpper(n), 4)
  }

  /** The value of a string of hexadecimal digits. */
  function HexDigitsValue(s: string): nat
    requires forall i :: 0 <= i < |s| ==> IsHexDigit(s[i])
  {
    if s == [] then 0 else 16 * HexDigitsValue(s[..|s| - 1]) + HexValue(s[|s| - 1])
  }

  /** Python's `int(s, 16)`: surrounding whitespace, an optional sign and an
      optional "0x"/"0X" prefix, then at least one hexadecimal digit. */
  function ParseHex(s: string): (r: Option<int>)
    ensures r.Some? ==> |Strip(s)| > 0
  {
    var t := Strip(s);
    var neg := |t| > 0 && t[0] == '-';
    var u := if |t| > 0 && (t[0] == '-' || t[0] == '+') then t[1..] else t;
    var v := if |u| >= 2 && u[0] == '0' && (u[1] == 'x' || u[1] == 'X') then u[2..] else u;
    if |v| > 0 && forall i :: 0 <= i < |v| ==> IsHexDigit(v[i]) then
      Some(if neg then -(HexDigitsValue(v) as int) else HexDigitsValue(v))
    else None
  }

  /** "0x" and a run of hexadecimal digits reads back as those digits' value. */
  lemma ParseHexPrefixed(digits: string)
    requires |digits| > 0 && forall i :: 0 <= i < |digits| ==> IsHexDigit(digits[i])
    ensures ParseHex("0x" + digits) == Some(HexDigitsValue(digits))
  {
    var s := "0x" + digits;
    assert s[0] == '0' && s[|s| - 1] == digits[|digits| - 1];
    StripSpaceless(s);
    assert s[2..] == digits;
  }

  // ---------------------------------------------------------------------
  // `repr` of a string and of a list of strings
  // ---------------------------------------------------------------------

  /** The lower-case hexadecimal digit for `d`. */
  function LowerHexDigit(d: nat): (c: char)
    requires d < 16
    ensures IsHexDigit(c) && HexValue(c) == d
  {
    if d < 10 then (('0' as int) + d) as char else (('a' as int) + d - 10) as char
  }

  /** The characters `repr` writes as `\xhh`: the C0 controls other than tab,
      line feed and carriage return, DEL, the C1 controls, the no-break space
      and the soft hyphen (the characters below U+0100 that are not
      printable). */
  predicate IsHexEscaped(c: char) {
    c < ' ' || ('\U{007F}' <= c <= '\U{00A0}') || c == '\U{00AD}'
  }

  /** One character as `repr` writes it inside quotes `q`. */
  function EscapeChar(c: char, q: char): (r: string)
    ensures 1 <= |r| <= 4
  {
    if c == q || c == '\\' then ['\\', c]
    else if c == '\t' then "\\t"
    else if c == '\n' then "\\n"
    else if c == '\r' then "\\r"
    else if IsHexEscaped(c) then ['\\', 'x', LowerHexDigit(c as int / 16), LowerHexDigit(c as int % 16)]
    else [c]
  }

  function Escape(s: string, q: char): string {
    if s == [] then [] else EscapeChar(s[0], q) + Escape(s[1..], q)
  }

  /** The quote `repr` chooses: '"' when the string holds a single quote and
      no double quote, '\'' otherwise. */
  function ReprQuote(s: string): char {
    if '\'' in s && '"' !in s then '"' else '\''
  }

  /** Python's `repr` of a `str`. */
  function StrRepr(s: string): string {
    var q := ReprQuote(s);
    [q] + Escape(s, q) + [q]
  }

  function Reprs(items: seq<string>): (r: seq<string>)
    ensures |r| == |items|
  {
    if items == [] then [] else [StrRepr(items[0])] + Reprs(items[1..])
  }

  /** Python's `str` of a list of `str`: the items' `repr`s, comma-separated, in brackets. */
  function ListRepr(items: seq<string>): string {
    "[" + Join(Reprs(items), ", ") + "]"
  }

  /** Reading escapes back: `\xhh`, `\t`, `\n`, `\r`, and a backslash before
      any other character stands for that character. */
  function Unescape(t: string): string
    decreases |t|
  {
    if t == [] then []
    else if t[0] == '\\' && |t| >= 4 && t[1] == 'x' && IsHexDigit(t[2]) && IsHexDigit(t[3]) then
      [(16 * HexValue(t[2]) + HexValue(t[3])) as char] + Unescape(t[4..])
    else if t[0] == '\\' && |t| >= 2 then [Unescaped(t[1])] + Unescape(t[2..])
    else [t[0]] + Unescape(t[1..])
  }

  function Unescaped(c: char): char {
    if c == 't' then '\t' else if c == 'n' then '\n' else if c == 'r' then '\r' else c
  }

  /** Each escaped character reads back as itself. */
  lemma UnescapeChar(c: char, q: char, rest: string)
    requires q == '\'' || q == '"'
    ensures Unescape(EscapeChar(c, q) + rest) == [c] + Unescape(rest)
  {
    var e := EscapeChar(c, q);
    if c == q || c == '\\' {
      assert (e + rest)[2..] == rest;
    } else if c == '\t' || c == '\n' || c == '\r' {
      assert (e + rest)[2..] == rest;
    } else if IsHexEscaped(c) {
      var n := c as int;
      assert 16 * (n / 16) + n % 16 == n;
      assert (e + rest)[4..] == rest;
    } else {
      assert (e + rest)[1..] == rest;
    }
  }

  /** Unescaping undoes escaping. */
  lemma {:induction false} UnescapeEscape(s: string, q: char)
    requires q == '\'' || q == '"'
    ensures Unescape(Escape(s, q)) == s
  {
    if s != [] {
      UnescapeChar(s[0], q, Escape(s[1..], q));
      UnescapeEscape(s[1..], q);
      assert [s[0]] + s[1..] == s;
    }
  }

  /** `repr` is quoted at both ends with the same quote and reads back as the
      string between them, so two strings with the same `repr` are equal. */
  lemma StrReprRoundTrip(s: string)
    ensures var r := StrRepr(s);
      |r| >= 2 && r[0] == r[|r| - 1] == ReprQuote(s) && Unescape(r[1..|r| - 1]) == s
  {
    var q := ReprQuote(s);
    var r := StrRepr(s);
    assert r[1..|r| - 1] == Escape(s, q);
    UnescapeEscape(s, q);
  }

  lemma StrReprInjective(a: string, b: string)
    ensures StrRepr(a) == StrRepr(b) ==> a == b
  {
    StrReprRoundTrip(a);
    StrReprRoundTrip(b);
  }

  /** A string of printable ASCII characters without a quote or a backslash
      is written between single quotes as it is. */
  lemma {:induction false} EscapePlain(s: string, q: char)
    requires forall i :: 0 <= i < |s| ==> ' ' <= s[i] < '\U{007F}' && s[i] != q && s[i] != '\\'
    ensures Escape(s, q) == s
  {
    if s != [] {
      EscapePlain(s[1..], q);
      assert [s[0]] + s[1..] == s;
    }
  }

  lemma StrReprPlain(s: string)
    requires forall i :: 0 <= i < |s| ==> ' ' <= s[i] < '\U{007F}' && s[i] != '\'' && s[i] != '\\'
    ensures StrRepr(s) == "'" + s + "'"
  {
    EscapePlain(s, '\'');
  }

  /** The list's text is bracketed, and "[]" exactly when the list is empty. */
  lemma ListReprShape(items: seq<string>)
    ensures var r := ListRepr(items);
      |r| >= 2 && r[0] == '[' && r[|r| - 1] == ']' && (r == "[]" <==> items == [])
  {
    if items != [] {
      StrReprRoundTrip(items[0]);
      var parts := Reprs(items);
      assert |Join(parts, ", ")| >= |parts[0]| >= 2;
    }
  }

  /** C's `atoi`: skips leading whitespace, reads an optional sign and the
      longest run of digits; no digits gives 0.  (Overflow, which C leaves
      undefined, is not modelled.) */
  function Atoi(s: string): int {
    var t := LStripC(s);
    var neg := |t| > 0 && t[0] == '-';
    var u := if |t| > 0 && (t[0] == '-' || t[0] == '+') then t[1..] else t;
    var k := DigitRun(u);
    if neg then -(DigitsValue(u[..k]) as int) else DigitsValue(u[..k])
  }

  function LStripC(s: string): (r: string)
    ensures |r| <= |s|
  {
    if |s| > 0 && IsCSpace(s[0]) then LStripC(s[1..]) else s
  }

  /** Length of the run of decimal digits at the start of `s`. */
  function DigitRun(s: string): (k: nat)
    ensures k <= |s|
    ensures forall i :: 0 <= i < k ==> IsDigit(s[i])
    ensures k < |s| ==> !IsDigit(s[k])
  {
    if s == [] || !IsDigit(s[0]) then 0 else 1 + DigitRun(s[1..])
  }

  /** Length of the run of hexadecimal digits at the start of `s`. */
  function HexRun(s: string): (k: nat)
    ensures k <= |s|
    ensures forall i :: 0 <= i < k ==> IsHexDigit(s[i])
    ensures k < |s| ==> !IsHexDigit(s[k])
  {
    if s == [] || !IsHexDigit(s[0]) then 0 else 1 + HexRun(s[1..])
  }

  /** C's `strncpy(dst, src, n)` followed by `dst[n] = '\0'`: the first `n` characters. */
  function Truncate(s: string, n: nat): (r: string)
    ensures |r| == if |s| < n then |s| else n
    ensures r == s[..|r|]
  {
    if |s| <= n then s else s[..n]
  }
}
