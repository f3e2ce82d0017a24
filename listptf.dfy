/**
 * listptf.c: lists the PTFs installed on IBM i.  It writes one SQL query
 * over QSYS2.PTF_INFO to a temporary file, runs it through RUNSQLSTM (or the
 * QShell db2 utility when that fails), copies the output into a report file
 * and shows its first 30 lines.
 *
 * The model covers what the program computes: the options, the product
 * list, the WHERE clause built in a fixed 512-byte array, the two queries,
 * the home directory and output path, and the head of the report.  Files,
 * the environment and the commands it runs are parameters.
 */
module ListPtf {
  import opened Text
  import opened SecList

  const MaxProducts: nat := 10
  /** `char g_products[MAX_PRODUCTS][10]`: nine characters and a NUL. */
  const ProductIdMax: nat := 9
  const MaxSqlLen: nat := 4096
  const MaxPathLen: nat := 256
  const WhereCapacity: nat := 512
  const HeadLines: nat := 30

  // ---------------------------------------------------------------------
  // Options: getopt "o:svh"
  // ---------------------------------------------------------------------

  datatype Opt = OutputOpt(path: string) | SummaryOpt | VerboseOpt | HelpOpt | BadOpt

  predicate Stops(o: Opt) {
    o.HelpOpt? || o.BadOpt?
  }

  /** `g_output_file` (empty when no -o was given), `g_summary`, `g_verbose`. */
  datatype Options = Options(output: string, summary: bool, verbose: bool)

  datatype Parsed = Parsed(options: Options) | Quit(code: int)

  /** The position of the first -h or unknown option, or `|opts|`. */
  function FirstStop(opts: seq<Opt>): (k: nat)
    ensures k <= |opts|
    ensures forall j :: 0 <= j < k ==> !Stops(opts[j])
    ensures k < |opts| ==> Stops(opts[k])
  {
    if opts == [] then 0
    else if Stops(opts[0]) then 0
    else 1 + FirstStop(opts[1..])
  }

  /** `strncpy(g_output_file, optarg, sizeof(g_output_file) - 1)` of the last
      -o; the empty string when there is none. */
  function LastOutput(opts: seq<Opt>): (out: string)
    ensures |out| < MaxPathLen
  {
    if opts == [] then ""
    else if opts[|opts| - 1].OutputOpt? then Truncate(opts[|opts| - 1].path, MaxPathLen - 1)
    else LastOutput(opts[..|opts| - 1])
  }

  /** The getopt loop of `main`: -h exits 0 and an unknown option exits 1
      at once; otherwise every -s and -v sets its flag and the last -o
      names the output file. */
  method ScanOptions(opts: seq<Opt>) returns (p: Parsed)
    ensures FirstStop(opts) < |opts| ==> p == Quit(if opts[FirstStop(opts)].HelpOpt? then 0 else 1)
    ensures FirstStop(opts) == |opts| ==>
      p == Parsed(Options(LastOutput(opts), SummaryOpt in opts, VerboseOpt in opts))
  {
    var output, summary, verbose := "", false, false;
    for i := 0 to |opts|
      invariant i <= FirstStop(opts)
      invariant output == LastOutput(opts[..i])
      invariant summary == (SummaryOpt in opts[..i]) && verbose == (VerboseOpt in opts[..i])
    {
      assert opts[..i + 1][..i] == opts[..i];
      match opts[i] {
        case OutputOpt(path) => output := Truncate(path, MaxPathLen - 1);
        case SummaryOpt => summary := true;
        case VerboseOpt => verbose := true;
        case HelpOpt => return Quit(0);
        case BadOpt => return Quit(1);
      }
    }
    assert opts[..|opts|] == opts;
    p := Parsed(Options(output, summary, verbose));
  }

  // ---------------------------------------------------------------------
  // Products
  // ---------------------------------------------------------------------

  /** The loop after getopt: the first ten remaining arguments, each cut to
      nine characters. */
  method CollectProducts(args: seq<string>) returns (products: seq<string>)
    ensures |products| == if |args| < MaxProducts then |args| else MaxProducts
    ensures forall i :: 0 <= i < |products| ==> products[i] == Truncate(args[i], ProductIdMax)
    ensures forall i :: 0 <= i < |products| ==> |products[i]| <= ProductIdMax
  {
    products := [];
    var i := 0;
    while i < |args| && |products| < MaxProducts
      invariant 0 <= i <= |args| && |products| == i <= MaxProducts
      invariant forall j :: 0 <= j < i ==> products[j] == Truncate(args[j], ProductIdMax)
    {
      products := products + [Truncate(args[i], ProductIdMax)];
      i := i + 1;
    }
  }

  // ---------------------------------------------------------------------
  // The WHERE clause
  // ---------------------------------------------------------------------

  const WhereHead: string := "WHERE PTF_PRODUCT_ID IN ("

  function Quote(product: string): string {
    "'" + product + "'"
  }

  function QuotedAll(products: seq<string>): (r: seq<string>)
    ensures |r| == |products|
  {
    seq(|products|, i requires 0 <= i < |products| => Quote(products[i]))
  }

  /** Empty without products; else the products, single-quoted and
      ", "-separated in argument order, inside `WHERE PTF_PRODUCT_ID IN (`
      and `)`. */
  function WhereClause(products: seq<string>): string {
    if products == [] then "" else WhereHead + Join(QuotedAll(products), ", ") + ")"
  }

  /** Parts of at most `k` characters join to at most `n * k` characters and
      `n - 1` separators. */
  lemma {:induction false} JoinLengthBound(parts: seq<string>, sep: string, k: nat)
    requires parts != []
    requires forall i :: 0 <= i < |parts| ==> |parts[i]| <= k
    ensures |Join(parts, sep)| <= |parts| * k + (|parts| - 1) * |sep|
  {
    if |parts| > 1 {
      var rest := parts[1..];
      assert forall i :: 0 <= i < |rest| ==> rest[i] == parts[i + 1];
      JoinLengthBound(rest, sep, k);
      assert |parts| * k == k + |rest| * k;
      assert (|parts| - 1) * |sep| == |sep| + (|rest| - 1) * |sep|;
    }
  }

  /** With the product list `main` keeps, the clause is at most 154
      characters, far inside the 512-byte `where_clause`. */
  lemma WhereClauseFits(products: seq<string>)
    requires |products| <= MaxProducts
    requires forall i :: 0 <= i < |products| ==> |products[i]| <= ProductIdMax
    ensures |WhereClause(products)| <= 154 < WhereCapacity
  {
    if products != [] {
      var quoted := QuotedAll(products);
      assert forall i :: 0 <= i < |quoted| ==> |quoted[i]| <= 11;
      JoinLengthBound(quoted, ", ", 11);
      var n := |products|;
      assert n * 11 <= 110 && (n - 1) * 2 <= 18;
    }
  }

  /** The clause names the products in order and nothing else: between its
      head and the closing parenthesis, cutting at ',' gives the first
      quoted product and then every further one behind its space. */
  lemma WhereClauseLists(products: seq<string>)
    requires products != []
    requires forall i :: 0 <= i < |products| ==> ',' !in products[i]
    ensures var w := WhereClause(products);
      && w[..|WhereHead|] == WhereHead && w[|w| - 1] == ')'
      && SplitOn(w[|WhereHead|..|w| - 1], ',') == Spaced(QuotedAll(products))
  {
    var quoted := QuotedAll(products);
    var w := WhereClause(products);
    forall i | 0 <= i < |quoted| ensures ',' !in quoted[i] {
      assert quoted[i] == "'" + products[i] + "'";
    }
    SplitCommaSpaced(quoted);
    assert w[|WhereHead|..|w| - 1] == Join(quoted, ", ");
  }

  /** `strcat(buf, s)` on a buffer whose string has length `len`; the
      terminating NUL must fit too. */
  method Strcat(buf: array<char>, len: nat, s: string) returns (newLen: nat)
    requires len + |s| < buf.Length
    modifies buf
    ensures newLen == len + |s|
    ensures buf[..newLen] == old(buf[..len]) + s && buf[newLen] == NUL
  {
    for j := 0 to |s|
      invariant buf[..len] == old(buf[..len])
      invariant buf[len..len + j] == s[..j]
    {
      buf[len + j] := s[j];
      assert buf[len..len + j + 1] == buf[len..len + j] + [s[j]];
    }
    newLen := len + |s|;
    buf[newLen] := NUL;
    assert buf[..newLen] == buf[..len] + buf[len..newLen];
  }

  /** One pass of the product loop: `", "` unless first, then the quoted
      product. */
  method AppendProduct(buf: array<char>, len: nat, first: bool, product: string) returns (newLen: nat)
    requires len + 2 + |product| + 2 < buf.Length
    modifies buf
    ensures newLen <= len + 2 + |product| + 2
    ensures buf[..newLen] == old(buf[..len]) + (if first then "" else ", ") + Quote(product)
  {
    newLen := len;
    if !first {
      newLen := Strcat(buf, newLen, ", ");
    }
    newLen := Strcat(buf, newLen, "'");
    newLen := Strcat(buf, newLen, product);
    newLen := Strcat(buf, newLen, "'");
  }

  /** What the array holds after `i` products: the head, then the first
      `i` quoted products joined by ", ". */
  ghost function Partial(quoted: seq<string>, i: nat): string
    requires i <= |quoted|
  {
    if i == 0 then WhereHead else WhereHead + Join(quoted[..i], ", ")
  }

  lemma PartialStep(quoted: seq<string>, i: nat)
    requires i < |quoted|
    ensures Partial(quoted, i) + (if i == 0 then "" else ", ") + quoted[i] == Partial(quoted, i + 1)
  {
    assert quoted[..i + 1] == quoted[..i] + [quoted[i]];
    if i > 0 {
      JoinSnoc(quoted[..i], quoted[i], ", ");
    }
  }

  /** The clause-building part of `build_sql_query` and `build_sql_summary`:
      every `strcpy`/`strcat` stays inside the 512-byte array, and the array
      ends up holding the clause. */
  method BuildWhereClause(products: seq<string>) returns (where: array<char>, len: nat)
    requires |products| <= MaxProducts
    requires forall i :: 0 <= i < |products| ==> |products[i]| <= ProductIdMax
    ensures fresh(where) && where.Length == WhereCapacity
    ensures len <= 154 && where[..len] == WhereClause(products)
  {
    where := new char[WhereCapacity](_ => NUL);
    len := 0;
    if |products| > 0 {
      len := Strcat(where, 0, WhereHead);
      len := AppendProducts(where, len, products);
      ghost var quoted := QuotedAll(products);
      assert quoted[..|products|] == quoted;
      len := Strcat(where, len, ")");
    }
    WhereClauseFits(products);
  }

  /** The product loop of the clause: each product quoted, after ", " unless
      it is the first. */
  method AppendProducts(where: array<char>, start: nat, products: seq<string>) returns (len: nat)
    requires |products| <= MaxProducts
    requires forall i :: 0 <= i < |products| ==> |products[i]| <= ProductIdMax
    requires where.Length == WhereCapacity && start == |WhereHead| && where[..start] == WhereHead
    modifies where
    ensures len <= |WhereHead| + 13 * |products|
    ensures where[..len] == Partial(QuotedAll(products), |products|)
  {
    ghost var quoted := QuotedAll(products);
    len := start;
    for i := 0 to |products|
      invariant len <= |WhereHead| + 13 * i
      invariant where[..len] == Partial(quoted, i)
    {
      len := AppendProduct(where, len, i == 0, products[i]);
      PartialStep(quoted, i);
    }
  }

  // ---------------------------------------------------------------------
  // The queries
  // ---------------------------------------------------------------------

  const BriefColumns: seq<string> := [
    "PTF_IDENTIFIER AS PTF_ID", "PTF_PRODUCT_ID AS PRODUCT", "PTF_LOADED_STATUS AS STATUS",
    "PTF_IPL_ACTION AS IPL_ACTION", "PTF_IPL_REQUIRED AS IPL_REQ"]

  const VerboseColumns: seq<string> := [
    "PTF_IDENTIFIER AS PTF_ID", "PTF_PRODUCT_ID AS PRODUCT", "PTF_LOADED_STATUS AS STATUS",
    "PTF_IPL_ACTION AS IPL_ACTION", "PTF_ACTION_PENDING AS PENDING", "PTF_IPL_REQUIRED AS IPL_REQ",
    "PTF_CREATION_TIMESTAMP AS CREATED", "PTF_SUPERSEDED_BY_PTF AS SUPERSEDED_BY",
    "PTF_SAVE_FILE AS SAVE_FILE"]

  const SummaryColumns: seq<string> := [
    "PTF_PRODUCT_ID AS PRODUCT", "PTF_LOADED_STATUS AS STATUS", "COUNT(*) AS COUNT"]

  const DetailOrder: string := "ORDER BY PTF_PRODUCT_ID, PTF_IDENTIFIER"
  const SummaryTail: string :=
    "GROUP BY PTF_PRODUCT_ID, PTF_LOADED_STATUS ORDER BY PTF_PRODUCT_ID, PTF_LOADED_STATUS"

  /** The shape of every query: the selected columns, the table, the
      clause, and the grouping and ordering. */
  function Select(columns: seq<string>, where: string, tail: string): string {
    "SELECT " + Join(columns, ", ") + " FROM QSYS2.PTF_INFO " + where + " " + tail
  }

  /** The columns of the detail query: nine with -v, otherwise five, all of
      which the verbose query selects too. */
  function DetailColumns(verbose: bool): (cols: seq<string>)
    ensures |cols| == if verbose then 9 else 5
    ensures forall c :: c in cols ==> c in VerboseColumns
    ensures cols[..2] == ["PTF_IDENTIFIER AS PTF_ID", "PTF_PRODUCT_ID AS PRODUCT"]
  {
    if verbose then VerboseColumns else BriefColumns
  }

  /** `build_sql_query` */
  function DetailQuery(products: seq<string>, verbose: bool): string {
    Select(DetailColumns(verbose), WhereClause(products), DetailOrder)
  }

  /** `build_sql_summary` */
  function SummaryQuery(products: seq<string>): string {
    Select(SummaryColumns, WhereClause(products), SummaryTail)
  }

  /** The query `main` writes: the summary with -s, else the detail query. */
  function QueryFor(options: Options, products: seq<string>): string {
    if options.summary then SummaryQuery(products) else DetailQuery(products, options.verbose)
  }

  /** Both queries fit `char sql[MAX_SQL_LEN]`, so `snprintf` never cuts
      them. */
  lemma QueryFits(options: Options, products: seq<string>)
    requires |products| <= MaxProducts
    requires forall i :: 0 <= i < |products| ==> |products[i]| <= ProductIdMax
    ensures |QueryFor(options, products)| < MaxSqlLen
  {
    WhereClauseFits(products);
    if options.summary {
      ColumnsFit(SummaryColumns);
    } else {
      ColumnsFit(DetailColumns(options.verbose));
    }
  }

  /** A list of at most nine column names of at most 40 characters joins to
      at most 376 characters. */
  lemma ColumnsFit(cols: seq<string>)
    requires cols == VerboseColumns || cols == BriefColumns || cols == SummaryColumns
    ensures |Join(cols, ", ")| <= 376
  {
    assert forall i :: 0 <= i < |cols| ==> |cols[i]| <= 40;
    JoinLengthBound(cols, ", ", 40);
  }

  /** Each query carries the clause right after the table name and ends
      with its grouping and ordering. */
  lemma QueryCarriesWhere(columns: seq<string>, where: string, tail: string)
    ensures var head := "SELECT " + Join(columns, ", ") + " FROM QSYS2.PTF_INFO ";
      Select(columns, where, tail)[|head|..|head| + |where|] == where
    ensures var q := Select(columns, where, tail);
      |q| >= |tail| && q[|q| - |tail|..] == tail
  {
  }

  // ---------------------------------------------------------------------
  // Home directory and output path
  // ---------------------------------------------------------------------

  /** `get_home_dir`: HOME when set and non-empty, else
      `/QOpenSys/home/<USER>` (cut to fit the 256-byte static buffer) when
      USER is set and non-empty, else `/tmp`.  Never empty. */
  function HomeDir(home: Option<string>, user: Option<string>): (dir: string)
    ensures |dir| > 0
    ensures home.Some? && home.value != "" ==> dir == home.value
    ensures !(home.Some? && home.value != "") && user.Some? && user.value != "" ==>
      dir == Truncate("/QOpenSys/home/" + user.value, MaxPathLen - 1) && StartsWith(dir, "/QOpenSys/home/")
    ensures !(home.Some? && home.value != "") && !(user.Some? && user.value != "") ==> dir == "/tmp"
  {
    if home.Some? && home.value != "" then home.value
    else if user.Some? && user.value != "" then Truncate("/QOpenSys/home/" + user.value, MaxPathLen - 1)
    else "/tmp"
  }

  /** The report file: the -o argument, or `<home>/ptf_list.txt` cut to the
      256-byte `g_output_file`.  Never empty and always fits the buffer. */
  function OutputPath(output: string, home: Option<string>, user: Option<string>): (path: string)
    requires |output| < MaxPathLen
    ensures 0 < |path| < MaxPathLen
    ensures output != "" ==> path == output
    ensures output == "" ==> StartsWith(path, Truncate(HomeDir(home, user), MaxPathLen - 1))
    ensures output == "" && |HomeDir(home, user)| + 13 < MaxPathLen ==>
      path == HomeDir(home, user) + "/ptf_list.txt"
  {
    if output != "" then output
    else Truncate(HomeDir(home, user) + "/ptf_list.txt", MaxPathLen - 1)
  }

  // ---------------------------------------------------------------------
  // print_file_head
  // ---------------------------------------------------------------------

  /** `print_file_head(path, lines)`: `file` is what successive `fgets`
      calls return (None when the file does not open); the result is what
      is printed. */
  method PrintFileHead(file: Option<seq<string>>, lines: int) returns (printed: seq<string>)
    ensures file.None? ==> printed == []
    ensures |printed| <= if lines < 0 then 0 else lines
    ensures file.Some? ==> printed <= file.value
    ensures file.Some? ==> |printed| == if |file.value| < lines then |file.value| else if lines < 0 then 0 else lines
  {
    printed := [];
    if file.None? {
      return;
    }
    var f := file.value;
    var count := 0;
    while count < |f| && count < lines
      invariant 0 <= count <= |f| && printed == f[..count]
      invariant count <= lines || count == 0
    {
      printed := printed + [f[count]];
      count := count + 1;
    }
  }

  // ---------------------------------------------------------------------
  // main
  // ---------------------------------------------------------------------

  /** The section heading of the report: the summary wins over -v. */
  datatype Heading = SummaryHeading | VerboseHeading | ListHeading

  function HeadingFor(options: Options): (h: Heading)
    ensures h == SummaryHeading <==> options.summary
    ensures h == VerboseHeading <==> !options.summary && options.verbose
  {
    if options.summary then SummaryHeading
    else if options.verbose then VerboseHeading
    else ListHeading
  }

  /** `main`'s exit status: getopt's verdict first, then 1 when the
      temporary SQL file or the report file cannot be created, else 0. */
  function ExitCode(parsed: Parsed, sqlFileOk: bool, reportOk: bool): (code: int)
    ensures parsed.Quit? ==> code == parsed.code
    ensures parsed.Parsed? ==> (code == 0 <==> sqlFileOk && reportOk)
    ensures parsed.Parsed? ==> code == 0 || code == 1
  {
    if parsed.Quit? then parsed.code
    else if !sqlFileOk then 1
    else if !reportOk then 1
    else 0
  }
}
