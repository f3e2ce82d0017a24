/**
 * getgrent_test.c: looks a group up through `getgrnam_r` into a guarded
 * buffer whose guards hold only a fill byte (no magic word), tries growing
 * buffer sizes, and picks what to run from its options.
 *
 * `getgrnam_r`, `getgrent` and the option scanner `getopt` are outside the
 * model: their answers, and the options in the order `getopt` returns them,
 * are parameters.
 */
module GetgrentTest {
  import opened Text
  import opened GroupLookup
  import opened GuardedBuffer

  // ---------------------------------------------------------------------
  // guarded_buf_t
  // ---------------------------------------------------------------------

  /** `HEAD_GUARD_SIZE + size + TAIL_GUARD_SIZE` computed in `size_t`. */
  function GuardedTotal(size: nat): (t: nat)
    ensures t < SizeModulus
    ensures HeadGuardSize + size + TailGuardSize < SizeModulus ==> t == HeadGuardSize + size + TailGuardSize
    ensures SizeModulus - (HeadGuardSize + TailGuardSize) <= size < SizeModulus ==>
      t == HeadGuardSize + size + TailGuardSize - SizeModulus && t < HeadGuardSize + TailGuardSize
  {
    SizeT(HeadGuardSize + size + TailGuardSize)
  }

  /** The total wrapped, so `malloc` gets fewer bytes than the three
      `memset`s of `guarded_alloc` write. */
  predicate Overruns(size: nat) {
    GuardedTotal(size) < HeadGuardSize + size + TailGuardSize
  }

  /** For a `size_t` argument, the total wraps exactly for the 320 largest
      sizes, and then the block is smaller than the user buffer alone. */
  lemma OverrunsMeaning(size: nat)
    requires size < SizeModulus
    ensures Overruns(size) <==> size >= SizeModulus - (HeadGuardSize + TailGuardSize)
    ensures Overruns(size) ==> GuardedTotal(size) < HeadGuardSize + size
  {
  }

  /** `guarded_buf_t`: head guard at 0, user buffer at 64, tail guard at
      64 + size, every guard byte 0x5A. */
  class FillGuarded {
    var userSize: nat
    var totalSize: nat
    var raw: array<Byte>

    predicate Valid()
      reads this
    {
      raw.Length == totalSize == HeadGuardSize + userSize + TailGuardSize
    }

    function Head(): seq<Byte>
      reads this, raw
      requires Valid()
    {
      raw[..HeadGuardSize]
    }

    function User(): seq<Byte>
      reads this, raw
      requires Valid()
    {
      raw[HeadGuardSize..HeadGuardSize + userSize]
    }

    function Tail(): seq<Byte>
      reads this, raw
      requires Valid()
    {
      raw[HeadGuardSize + userSize..]
    }

    /** `guarded_alloc(size)` (a failing malloc is not modelled).  When the
        `size_t` total wraps, the C writes past the block it allocated, which
        is undefined; `LookupGroup` reports that case without allocating. */
    constructor (size: nat)
      requires !Overruns(size)
      ensures Valid() && fresh(raw) && userSize == size && totalSize == GuardedTotal(size) == 320 + size
      ensures Head() == Filled(HeadGuardSize, GuardFillByte)
      ensures User() == Filled(size, BufferFillByte)
      ensures Tail() == Filled(TailGuardSize, GuardFillByte)
    {
      var total := GuardedTotal(size);
      var a := new Byte[total];
      MemSet(a, 0, HeadGuardSize, GuardFillByte);
      MemSet(a, HeadGuardSize, size, BufferFillByte);
      MemSet(a, HeadGuardSize + size, TailGuardSize, GuardFillByte);
      assert a[..HeadGuardSize] == a[0..HeadGuardSize];
      assert a[HeadGuardSize + size..] == a[HeadGuardSize + size..HeadGuardSize + size + TailGuardSize];
      userSize, totalSize, raw := size, total, a;
    }

    /** `guarded_check`: the number of head and tail bytes that are no
        longer 0x5A. */
    method Check() returns (errors: nat)
      requires Valid()
      ensures errors == Mismatches(Head(), GuardFillByte) + Mismatches(Tail(), GuardFillByte)
      ensures errors == 0 <==> Head() == Filled(HeadGuardSize, GuardFillByte) && Tail() == Filled(TailGuardSize, GuardFillByte)
    {
      var headErrors := CountMismatches(raw, 0, HeadGuardSize, GuardFillByte);
      var tailErrors := CountMismatches(raw, HeadGuardSize + userSize, TailGuardSize, GuardFillByte);
      errors := headErrors + tailErrors;
      assert raw[0..HeadGuardSize] == Head();
      assert raw[HeadGuardSize + userSize..HeadGuardSize + userSize + TailGuardSize] == Tail();
      MismatchesZero(Head(), GuardFillByte);
      MismatchesZero(Tail(), GuardFillByte);
    }
  }

  /** Writes confined to the user buffer leave the guards as `guarded_alloc`
      made them, so `guarded_check` then finds nothing. */
  lemma UserWritesKeepFill(g: FillGuarded, before: seq<Byte>)
    requires g.Valid() && |before| == g.totalSize
    requires before[..HeadGuardSize] == Filled(HeadGuardSize, GuardFillByte)
    requires before[HeadGuardSize + g.userSize..] == Filled(TailGuardSize, GuardFillByte)
    requires forall k :: 0 <= k < g.totalSize && !(HeadGuardSize <= k < HeadGuardSize + g.userSize) ==> g.raw[k] == before[k]
    ensures Mismatches(g.Head(), GuardFillByte) + Mismatches(g.Tail(), GuardFillByte) == 0
  {
    assert g.Head() == before[..HeadGuardSize];
    assert g.Tail() == before[HeadGuardSize + g.userSize..];
    MismatchesZero(g.Head(), GuardFillByte);
    MismatchesZero(g.Tail(), GuardFillByte);
  }

  // ---------------------------------------------------------------------
  // print_group
  // ---------------------------------------------------------------------

  /** The "List:" line of `print_group` for the member names read from
      `gr_mem` (empty when `gr_mem` is NULL): the names joined by ", ", shown
      only for one to ten members. */
  method MemberListing(members: seq<string>) returns (count: nat, listing: Option<string>)
    ensures count == |members|
    ensures listing.Some? <==> 0 < count <= 10
    ensures listing.Some? ==> listing.value == Join(members, ", ")
  {
    count := 0;
    while count < |members|
      invariant count <= |members|
    {
      count := count + 1;
    }
    if count > 0 && count <= 10 {
      var line := members[0];
      for k := 1 to |members|
        invariant line == Join(members[..k], ", ")
      {
        JoinSnoc(members[..k], members[k], ", ");
        assert members[..k + 1] == members[..k] + [members[k]];
        line := line + ", " + members[k];
      }
      assert members[..|members|] == members;
      listing := Some(line);
    } else {
      listing := None;
    }
  }

  // ---------------------------------------------------------------------
  // lookup_group and test_progressive
  // ---------------------------------------------------------------------

  /** What `lookup_group` prints after the guard check. */
  datatype LookupReport =
    | ShowGroup                   // print_group
    | TryLarger(suggested: nat)   // "Try larger buffer: -b <n>"
    | GroupNotFound
    | Silent                      // another error: only its code was shown

  /** The branch `lookup_group` takes on `getgrnam_r`'s answer; the suggested
      size is `bufsize * 2` in `size_t`. */
  function LookupReportOf(bufsize: nat, l: Lookup): (r: LookupReport)
    ensures r.ShowGroup? <==> l.ret == 0 && l.found
    ensures r.GroupNotFound? <==> l.ret == 0 && !l.found
    ensures r.TryLarger? <==> l.ret == ERANGE
    ensures r.TryLarger? && bufsize < SizeModulus / 2 ==> r.suggested == 2 * bufsize
  {
    if l.ret == 0 && l.found then ShowGroup
    else if l.ret == ERANGE then TryLarger(SizeT(bufsize * 2))
    else if l.ret == 0 then GroupNotFound
    else Silent
  }

  /** How `lookup_group` ends: the guard check's count and the report, or
      a heap overrun when `guarded_alloc`'s total wraps and its `memset`
      writes `written` bytes into a block of `blockSize`. */
  datatype LookupRun =
    | Checked(guardErrors: nat, report: LookupReport)
    | HeapOverrun(blockSize: nat, written: nat)

  /** `lookup_group(name, bufsize)`: one guarded buffer, one lookup, the
      guard check (0 here, as the library's writes are not modelled), the
      report; or the overrun of a wrapped allocation. */
  method LookupGroup(bufsize: nat, l: Lookup) returns (run: LookupRun)
    ensures run.HeapOverrun? <==> Overruns(bufsize)
    ensures run.HeapOverrun? ==>
      run.blockSize == GuardedTotal(bufsize) && run.written == HeadGuardSize + bufsize && run.blockSize < run.written
    ensures run.Checked? ==> run.guardErrors == 0 && run.report == LookupReportOf(bufsize, l)
  {
    if Overruns(bufsize) {
      return HeapOverrun(GuardedTotal(bufsize), HeadGuardSize + bufsize);
    }
    var g := new FillGuarded(bufsize);
    var guardErrors := g.Check();
    run := Checked(guardErrors, LookupReportOf(bufsize, l));
  }

  /** The sizes `test_progressive` tries. */
  const TestSizes: seq<nat> := [32, 64, 128, 256, 512, 1024, 2048, 4096, 8192]

  lemma TestSizesDoubling()
    ensures Doubling(TestSizes) && |TestSizes| == 9
    ensures TestSizes[0] == 32 && TestSizes[8] == 8192
  {
  }

  /** `test_progressive(name)`: a fresh fill-guarded buffer per attempt;
      "Failed: buffer too small even at 8192 bytes" is printed exactly when
      the outcome is `AllTooSmall`. */
  method TestProgressive(lookup: nat -> Lookup) returns (attempts: nat, outcome: Outcome)
    ensures attempts == Attempts(TestSizes, lookup)
    ensures outcome == ProgressiveOutcome(TestSizes, lookup)
  {
    attempts, outcome := FillGuardedProgressive(TestSizes, lookup);
  }

  method FillGuardedProgressive(sizes: seq<nat>, lookup: nat -> Lookup) returns (attempts: nat, outcome: Outcome)
    requires forall i :: 0 <= i < |sizes| ==> !Overruns(sizes[i])
    ensures attempts == Attempts(sizes, lookup)
    ensures outcome == ProgressiveOutcome(sizes, lookup)
  {
    var i := 0;
    attempts := 0;
    outcome := AllTooSmall;
    while i < |sizes|
      invariant 0 <= i <= |sizes| && attempts == i
      invariant ProgressiveOutcome(sizes[i..], lookup) == ProgressiveOutcome(sizes, lookup)
      invariant Attempts(sizes[i..], lookup) + i == Attempts(sizes, lookup)
    {
      attempts := attempts + 1;
      var g := new FillGuarded(sizes[i]);
      var l := lookup(sizes[i]);
      if l.ret == ERANGE {
        assert sizes[i..][1..] == sizes[i + 1..];
        i := i + 1;
        continue;
      }
      outcome := Settle(sizes[i], l);
      break;
    }
  }

  // ---------------------------------------------------------------------
  // main
  // ---------------------------------------------------------------------

  /** An option as `getopt(argc, argv, "g:b:p:eh")` returns it. */
  datatype Opt = GroupOpt(name: string) | BufOpt(arg: string) | ProgressiveOpt(name: string) | EnumerateOpt | HelpOpt | BadOpt

  datatype Config = Config(groupname: Option<string>, bufsize: nat, enumerate: bool, progressive: bool)

  /** The option loop either ends with a configuration or returns from
      `main`. */
  datatype Scan = Scanned(config: Config) | Exited(code: int)

  /** The as-written clamp lets "-b -5" through as 4294967291 bytes, and the
      guarded total 64 + size + 256 wraps to 315: `guarded_alloc` gets 315
      bytes and then fills 4294967291 of them with 0xAA. */
  lemma NegativeBufSizeWraps()
    ensures Atoi("-5") == -5
    ensures BufSizeArgAsWritten("-5") == 4294967291
    ensures SizeT(64 + BufSizeArgAsWritten("-5") + 256) == 315
    ensures SizeT(64 + BufSizeArgAsWritten("-5") + 256) < BufSizeArgAsWritten("-5")
    ensures BufSizeArg("-5") == 32
  {
    assert LStripC("-5") == "-5";
    assert DigitRun("5") == 1;
    assert "5"[..1] == "5";
    assert DigitsValue("5") == 5 by {
      assert "5"[..0] == "";
    }
  }

  function ApplyOpt(c: Config, o: Opt): Scan {
    match o
    case GroupOpt(name) => Scanned(c.(groupname := Some(name)))
    case BufOpt(arg) => Scanned(c.(bufsize := BufSizeArgAsWritten(arg)))
    case ProgressiveOpt(name) => Scanned(c.(groupname := Some(name), progressive := true))
    case EnumerateOpt => Scanned(c.(enumerate := true))
    case HelpOpt => Exited(0)
    case BadOpt => Exited(1)
  }

  /** The options applied in order; -h or an unknown option returns at once. */
  function ScanOpts(c: Config, opts: seq<Opt>): (r: Scan)
    ensures r.Exited? <==> exists i :: 0 <= i < |opts| && (opts[i].HelpOpt? || opts[i].BadOpt?)
    decreases |opts|
  {
    if opts == [] then Scanned(c)
    else
      var s := ApplyOpt(c, opts[0]);
      if s.Exited? then s
      else
        var r := ScanOpts(s.config, opts[1..]);
        assert forall i :: 1 <= i < |opts| ==> opts[i] == opts[1..][i - 1];
        r
  }

  /** What `main` runs. */
  datatype Action = Enumerate | Progressive(name: string) | LookupOne(name: string, bufsize: nat) | Usage | Exit(code: int)

  function ExitCode(a: Action): int {
    match a
    case Usage => 1
    case Exit(code) => code
    case _ => 0
  }

  /** The dispatch after the option loop: enumerate, then progressive with a
      name, then lookup with a name, else usage. */
  function Dispatch(c: Config): (a: Action)
    ensures c.enumerate ==> a == Enumerate
    ensures !c.enumerate && c.progressive && c.groupname.Some? ==> a == Progressive(c.groupname.value)
    ensures !c.enumerate && !c.progressive && c.groupname.Some? ==> a == LookupOne(c.groupname.value, c.bufsize)
    ensures a == Usage <==> !c.enumerate && c.groupname.None?
  {
    if c.enumerate then Enumerate
    else if c.progressive && c.groupname.Some? then Progressive(c.groupname.value)
    else if c.groupname.Some? then LookupOne(c.groupname.value, c.bufsize)
    else Usage
  }

  /** `main`: with no arguments at all it enumerates; the defaults are no
      name and a 4096-byte buffer. */
  method RunMain(noArguments: bool, opts: seq<Opt>) returns (action: Action)
    ensures action == MainAction(noArguments, opts)
  {
    var c := Config(None, 4096, noArguments, false);
    for i := 0 to |opts|
      invariant ScanOpts(c, opts[i..]) == ScanOpts(Config(None, 4096, noArguments, false), opts)
    {
      assert opts[i..][1..] == opts[i + 1..];
      var s := ApplyOpt(c, opts[i]);
      if s.Exited? {
        return Exit(s.code);
      }
      c := s.config;
    }
    action := Dispatch(c);
  }

  function MainAction(noArguments: bool, opts: seq<Opt>): Action {
    var s := ScanOpts(Config(None, 4096, noArguments, false), opts);
    if s.Exited? then Exit(s.code) else Dispatch(s.config)
  }

  /** `-g NAME -b -5` looks the group up with the wrapped size 4294967291,
      not with 32, and so overruns a guarded block of 315 bytes. */
  lemma MainNegativeBufSize(name: string)
    ensures MainAction(false, [GroupOpt(name), BufOpt("-5")]) == LookupOne(name, 4294967291)
    ensures Overruns(4294967291) && GuardedTotal(4294967291) == 315
  {
    NegativeBufSizeWraps();
    var opts := [GroupOpt(name), BufOpt("-5")];
    var c0 := Config(None, 4096, false, false);
    var c1 := c0.(groupname := Some(name));
    var c2 := c1.(bufsize := 4294967291);
    assert opts[1..] == [BufOpt("-5")];
    assert [BufOpt("-5")][1..] == [];
    assert ScanOpts(c2, []) == Scanned(c2);
    assert ScanOpts(c1, [BufOpt("-5")]) == Scanned(c2);
    assert ScanOpts(c0, opts) == Scanned(c2);
  }

  /** Exit codes of `main`: 0 after -h and after any test, 1 after an unknown
      option or when there is nothing to run. */
  lemma MainExitCodes(noArguments: bool, opts: seq<Opt>)
    ensures noArguments && opts == [] ==> MainAction(noArguments, opts) == Enumerate
    ensures ExitCode(MainAction(noArguments, opts)) in {0, 1}
    ensures ExitCode(MainAction(noArguments, opts)) == 1 <==>
      MainAction(noArguments, opts) == Usage || MainAction(noArguments, opts) == Exit(1)
  {
    ScanCodes(Config(None, 4096, noArguments, false), opts);
  }

  lemma {:induction false} ScanCodes(c: Config, opts: seq<Opt>)
    ensures ScanOpts(c, opts).Exited? ==> ScanOpts(c, opts).code in {0, 1}
    decreases |opts|
  {
    if opts != [] && ApplyOpt(c, opts[0]).Scanned? {
      ScanCodes(ApplyOpt(c, opts[0]).config, opts[1..]);
    }
  }

  /** Every `-b` value the program uses is at least 32. */
  lemma {:induction false} ScannedBufSize(c: Config, opts: seq<Opt>)
    requires c.bufsize >= 32
    ensures ScanOpts(c, opts).Scanned? ==> ScanOpts(c, opts).config.bufsize >= 32
    decreases |opts|
  {
    if opts != [] && ApplyOpt(c, opts[0]).Scanned? {
      ScannedBufSize(ApplyOpt(c, opts[0]).config, opts[1..]);
    }
  }
}
