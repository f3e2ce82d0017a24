/**
 * getgrent_test_suite.c: creates a test group whose members are test users,
 * looks it up with growing guarded buffers, and removes everything again.
 * Every name it creates or deletes carries the prefix "ztest_".
 *
 * The guarded buffer code of this file is a copy of the stress test's and
 * is modelled once, in GuardedBuffer.  The user and group database calls
 * (`getpwnam`, `setuserdb`, `putuserattr`, `putgroupattr`, `getgrnam`) are
 * oracles: their answers are parameters.
 */
module TestSuite {
  import opened Text
  import opened SecList
  import opened GroupLookup
  import opened GuardedBuffer

  const TestPrefix: string := "ztest_"
  const TestGroupName: string := "ztest_grp"
  const TestUserPrefix: string := "ztest_u"
  const TestBaseGid: nat := 59900
  const TestBaseUid: nat := 59900

  /** `is_safe_group` / `is_safe_user`: `strncmp(name, "ztest_", 6) == 0`. */
  predicate IsSafe(name: string) {
    StartsWith(name, TestPrefix)
  }

  // ---------------------------------------------------------------------
  // build_sec_list
  // ---------------------------------------------------------------------

  /** `snprintf(name, 64, "%s%04d", prefix, i)`: at most 63 characters. */
  function SecName(prefix: string, i: int): (r: string)
    ensures |r| <= 63
  {
    Truncate(prefix + Pad4(i), 63)
  }

  /** The names `build_sec_list(count, prefix, start)` writes; none when
      `count` is not positive. */
  function SecNames(prefix: string, start: int, count: int): (r: seq<string>)
    ensures |r| == if count < 0 then 0 else count
  {
    seq(if count < 0 then 0 else count, i => SecName(prefix, start + i))
  }

  /** `build_sec_list(count, prefix, start_idx)`: a sizing pass, then a
      writing pass through an advancing pointer.  The buffer it allocates is
      exactly as long as what the writing pass stores. */
  method BuildSecList(count: int, prefix: string, startIdx: int) returns (list: array<char>)
    ensures fresh(list)
    ensures list[..] == Encode(SecNames(prefix, startIdx, count))
  {
    ghost var names := SecNames(prefix, startIdx, count);
    var total := SecListSize(count, prefix, startIdx);
    list := new char[total];
    var p := 0;
    var i := 0;
    while i < count
      invariant 0 <= i <= |names|
      invariant p == EntriesLength(names[..i]) && p < list.Length == EntriesLength(names) + 1
      invariant list[..p] == Entries(names[..i])
    {
      var name := SecName(prefix, startIdx + i);
      p := AppendEntry(list, p, names, i, name);
      i := i + 1;
    }
    assert names[..i] == names;
    Terminate(list, p, names);
    assert list[..] == list[..p + 1];
  }

  /** The sizing pass of `build_sec_list`: one byte per character and NUL,
      plus the final NUL. */
  method SecListSize(count: int, prefix: string, startIdx: int) returns (total: nat)
    ensures total == |Encode(SecNames(prefix, startIdx, count))|
  {
    ghost var names := SecNames(prefix, startIdx, count);
    total := 0;
    var i := 0;
    while i < count
      invariant 0 <= i <= |names|
      invariant total == EntriesLength(names[..i])
    {
      var name := SecName(prefix, startIdx + i);
      assert names[..i + 1][..i] == names[..i];
      total := total + |name| + 1;
      i := i + 1;
    }
    assert names[..i] == names;
    total := total + 1;
  }

  /** Reading back the list gives the names written, so its member count is
      `count` (for a prefix that is a C string). */
  lemma SecListRoundTrip(prefix: string, start: int, count: int)
    requires NUL !in prefix
    ensures Decode(Encode(SecNames(prefix, start, count))) == SecNames(prefix, start, count)
    ensures |Decode(Encode(SecNames(prefix, start, count)))| == if count < 0 then 0 else count
  {
    var names := SecNames(prefix, start, count);
    forall i | 0 <= i < |names| ensures ValidName(names[i]) {
      assert names[i] == SecName(prefix, start + i);
      Pad4Valid(prefix, start + i, 63);
    }
    DecodeEncode(names);
  }

  /** The members `create_test_group(n)` writes are the users it created,
      ztest_u0001 up to ztest_u<n>, and every one of them is a safe name. */
  lemma MemberListNames(n: int)
    requires 0 <= n <= 1900
    ensures forall i :: 0 <= i < n ==>
      SecNames(TestUserPrefix, 1, n)[i] == TestUserPrefix + Pad4(i + 1) && IsSafe(SecNames(TestUserPrefix, 1, n)[i])
  {
    forall i | 0 <= i < n
      ensures SecNames(TestUserPrefix, 1, n)[i] == TestUserPrefix + Pad4(i + 1)
      ensures IsSafe(SecNames(TestUserPrefix, 1, n)[i])
    {
      Pad4Small(i + 1);
      var s := TestUserPrefix + Pad4(i + 1);
      assert SecNames(TestUserPrefix, 1, n)[i] == SecName(TestUserPrefix, 1 + i);
      assert |s| == 11;
      assert s[..6] == TestPrefix;
    }
  }

  // ---------------------------------------------------------------------
  // create_test_user
  // ---------------------------------------------------------------------

  /** The user database calls `create_test_user` makes, in order. */
  datatype UserDbCall = GetPwnam | SetUserDb | PutNew | PutAttributes | PutCommit | EndUserDb

  /** The database's answers to those calls. */
  datatype UserDbReplies = UserDbReplies(present: bool, openOk: bool, newRet: int, commitRet: int)

  /** `create_test_user(username, uid)`: its return value and the database
      calls it made. */
  function CreateTestUser(username: string, db: UserDbReplies): (r: (int, seq<UserDbCall>))
    ensures !IsSafe(username) ==> r == (-1, [])
    ensures IsSafe(username) ==> |r.1| > 0 && r.1[0] == GetPwnam
    ensures SetUserDb in r.1 && db.openOk ==> r.1[|r.1| - 1] == EndUserDb
    ensures r.0 == 0 <==> IsSafe(username) && (db.present || (db.openOk && db.newRet == 0 && db.commitRet == 0))
  {
    if !IsSafe(username) then (-1, [])
    else if db.present then (0, [GetPwnam])
    else if !db.openOk then (-1, [GetPwnam, SetUserDb])
    else if db.newRet != 0 then (-1, [GetPwnam, SetUserDb, PutNew, EndUserDb])
    else (db.commitRet, [GetPwnam, SetUserDb, PutNew, PutAttributes, PutCommit, EndUserDb])
  }

  // ---------------------------------------------------------------------
  // validate_group_ptrs
  // ---------------------------------------------------------------------

  /** The number of member strings outside the buffer. */
  function MembersOutside(members: seq<int>, bufsize: nat): (n: nat)
    ensures n <= |members|
  {
    if members == [] then 0
    else MembersOutside(members[..|members| - 1], bufsize) + (if !InBuffer(members[|members| - 1], bufsize) then 1 else 0)
  }

  /** What `validate_group_ptrs(grp, buf, bufsize)` returns: one error per
      top-level pointer outside the buffer, and when `gr_mem` is inside, one
      per member string outside.  Unlike the stress test it checks neither
      the NUL after the name nor the member slots themselves. */
  function SuitePointerErrors(g: GroupView, bufsize: nat): nat {
    PtrErrors(g.name, bufsize) + PtrErrors(g.passwd, bufsize)
      + (if g.mem.Null? then 0
         else if Outside(g.mem, bufsize) then 1
         else MembersOutside(g.members, bufsize))
  }

  method ValidateGroupPtrs(g: GroupView, bufsize: nat) returns (errors: nat)
    ensures errors == SuitePointerErrors(g, bufsize)
  {
    errors := 0;
    if Outside(g.name, bufsize) {
      errors := errors + 1;
    }
    if Outside(g.passwd, bufsize) {
      errors := errors + 1;
    }
    if g.mem.Addr? {
      if Outside(g.mem, bufsize) {
        errors := errors + 1;
      } else {
        ghost var base := errors;
        for k := 0 to |g.members|
          invariant errors == base + MembersOutside(g.members[..k], bufsize)
        {
          assert g.members[..k + 1][..k] == g.members[..k];
          if !InBuffer(g.members[k], bufsize) {
            errors := errors + 1;
          }
        }
        assert g.members[..|g.members|] == g.members;
      }
    }
  }

  lemma {:induction false} MembersOutsideZero(members: seq<int>, bufsize: nat)
    ensures MembersOutside(members, bufsize) == 0 <==> forall k :: 0 <= k < |members| ==> InBuffer(members[k], bufsize)
  {
    if members != [] {
      var init := members[..|members| - 1];
      MembersOutsideZero(init, bufsize);
      assert forall k :: 0 <= k < |init| ==> init[k] == members[k];
    }
  }

  /** `validate_group_ptrs` reports nothing exactly when every non-NULL
      pointer, and every member string behind an in-buffer `gr_mem`, lies in
      the buffer. */
  lemma SuitePointerErrorsZero(g: GroupView, bufsize: nat)
    ensures SuitePointerErrors(g, bufsize) == 0 <==>
      && !Outside(g.name, bufsize) && !Outside(g.passwd, bufsize) && !Outside(g.mem, bufsize)
      && (g.mem.Addr? ==> forall k :: 0 <= k < |g.members| ==> InBuffer(g.members[k], bufsize))
  {
    MembersOutsideZero(g.members, bufsize);
  }

  /** The stress test's check is the stricter one: a group it passes passes
      the suite's check too. */
  lemma StressCheckIsStricter(g: GroupView, buf: seq<Byte>, ptrSize: nat)
    requires StressPointerErrors(g, buf, ptrSize) == 0
    ensures SuitePointerErrors(g, |buf|) == 0
  {
    StressPointerErrorsZero(g, buf, ptrSize);
    SuitePointerErrorsZero(g, |buf|);
  }

  // ---------------------------------------------------------------------
  // test_lookup_progressive
  // ---------------------------------------------------------------------

  /** The sizes `test_lookup_progressive` tries. */
  const SuiteSizes: seq<nat> := [32, 64, 128, 256, 512, 1024, 2048, 4096, 8192, 16384, 32768, 65536]

  lemma SuiteSizesDoubling()
    ensures Doubling(SuiteSizes) && |SuiteSizes| == 12
    ensures SuiteSizes[0] == 32 && SuiteSizes[11] == 65536
  {
  }

  /** `test_lookup_progressive`: the same guarded loop over 32..65536. */
  method LookupProgressive(lookup: nat -> Lookup, order: ByteOrder) returns (attempts: nat, outcome: Outcome)
    ensures attempts == Attempts(SuiteSizes, lookup)
    ensures outcome == ProgressiveOutcome(SuiteSizes, lookup)
  {
    attempts, outcome := GuardedProgressive(SuiteSizes, lookup, order);
  }

  // ---------------------------------------------------------------------
  // cleanup_test_entities
  // ---------------------------------------------------------------------

  /** `snprintf(name, 64, "%s%04d", "ztest_u", i)` */
  function CleanupName(i: int): string {
    TestUserPrefix + Pad4(i)
  }

  /** The user names the cleanup loop generates: ztest_u0001 .. ztest_u2000. */
  function CleanupNames(): (r: seq<string>)
    ensures |r| == 2000
  {
    seq(2000, i => CleanupName(i + 1))
  }

  /** Every generated name is a test user's name: safe, and seven prefix
      characters followed by four digits. */
  lemma CleanupNamesSafe()
    ensures forall i :: 0 <= i < 2000 ==>
      && IsSafe(CleanupNames()[i]) && |CleanupNames()[i]| == 11
      && forall j :: 7 <= j < 11 ==> IsDigit(CleanupNames()[i][j])
  {
    forall i | 0 <= i < 2000
      ensures IsSafe(CleanupNames()[i]) && |CleanupNames()[i]| == 11
      ensures forall j :: 7 <= j < 11 ==> IsDigit(CleanupNames()[i][j])
    {
      Pad4Small(i + 1);
      var s := CleanupNames()[i];
      assert s[..6] == TestPrefix;
      assert forall j :: 7 <= j < 11 ==> s[j] == Pad4(i + 1)[j - 7];
    }
  }

  /** Whether the loop deletes user `n`: it exists, passes the safety check
      and the database opens. */
  predicate Deletes(n: string, present: string -> bool, openOk: string -> bool) {
    present(n) && IsSafe(n) && openOk(n)
  }

  /** The users the loop deletes, in order. */
  function Removed(names: seq<string>, present: string -> bool, openOk: string -> bool): (r: seq<string>)
    ensures |r| <= |names|
    ensures forall n :: n in r ==> n in names && Deletes(n, present, openOk)
  {
    if names == [] then []
    else
      var init := Removed(names[..|names| - 1], present, openOk);
      var n := names[|names| - 1];
      if Deletes(n, present, openOk) then init + [n] else init
  }

  /** `cleanup_test_entities`: -1 when the database cannot be opened for the
      group, before anything is deleted; otherwise the test group is deleted
      if it exists and the user loop runs. */
  method CleanupTestEntities(groupOpenOk: bool, groupExists: bool, present: string -> bool, openOk: string -> bool)
    returns (ret: int, groupDeleted: bool, removed: seq<string>)
    ensures !groupOpenOk ==> ret == -1 && !groupDeleted && removed == []
    ensures groupOpenOk ==> ret == 0 && groupDeleted == groupExists && removed == Removed(CleanupNames(), present, openOk)
  {
    if !groupOpenOk {
      return -1, false, [];
    }
    groupDeleted := groupExists;
    removed := RemoveTestUsers(present, openOk);
    ret := 0;
  }

  /** The user loop of `cleanup_test_entities`, i = 1 .. 2000. */
  method RemoveTestUsers(present: string -> bool, openOk: string -> bool) returns (removed: seq<string>)
    ensures removed == Removed(CleanupNames(), present, openOk)
  {
    ghost var names := CleanupNames();
    removed := [];
    var i := 1;
    while i <= 2000
      invariant 1 <= i <= 2001
      invariant removed == Removed(names[..i - 1], present, openOk)
    {
      var name := CleanupName(i);
      assert names[..i][..i - 1] == names[..i - 1] && names[i - 1] == name;
      if present(name) && IsSafe(name) && openOk(name) {
        removed := removed + [name];
      }
      i := i + 1;
    }
    assert names[..2000] == names;
  }

  /** A name on the generated list is the name of an index in 1..2000. */
  lemma CleanupNameIndex(n: string)
    requires n in CleanupNames()
    ensures exists i :: 1 <= i <= 2000 && n == CleanupName(i)
  {
    var names := CleanupNames();
    var k :| 0 <= k < |names| && names[k] == n;
    assert names[k] == CleanupName(k + 1);
  }

  /** Cleanup deletes only test users named ztest_u0001 .. ztest_u2000. */
  lemma CleanupRemovesOnlyTestUsers(present: string -> bool, openOk: string -> bool)
    ensures forall n :: n in Removed(CleanupNames(), present, openOk) ==>
      IsSafe(n) && exists i :: 1 <= i <= 2000 && n == TestUserPrefix + Pad4(i)
  {
    forall n | n in Removed(CleanupNames(), present, openOk)
      ensures exists i :: 1 <= i <= 2000 && n == TestUserPrefix + Pad4(i)
    {
      CleanupNameIndex(n);
      var i :| 1 <= i <= 2000 && n == CleanupName(i);
      assert n == TestUserPrefix + Pad4(i);
    }
  }

  // ---------------------------------------------------------------------
  // main
  // ---------------------------------------------------------------------

  /** What `main` does after its checks. */
  datatype SuiteAction =
    | Refused(exit: int)            // no command, or not root
    | Setup(members: int)           // create_test_group(members)
    | RunTests(bufsize: nat)        // small buffer, progressive, enumerate (which ignores bufsize)
    | Cleanup                       // cleanup_test_entities
    | All(members: int)             // setup, tests, cleanup
    | Help                          // usage, exit 0
    | Unknown                       // usage, exit 1

  /** `num_members = atoi(arg)` clamped into [0, 1900]. */
  function ClampMembers(arg: string): (n: int)
    ensures 0 <= n <= 1900
    ensures 0 <= Atoi(arg) <= 1900 ==> n == Atoi(arg)
    ensures Atoi(arg) < 0 ==> n == 0
    ensures Atoi(arg) > 1900 ==> n == 1900
  {
    var n := Atoi(arg);
    if n < 0 then 0 else if n > 1900 then 1900 else n
  }

  /** `main(argc, argv)`; `args` holds `argv[1..]`. */
  function SuiteMain(args: seq<string>, isRoot: bool): (a: SuiteAction)
    ensures a.Setup? ==> 0 <= a.members <= 1900
    ensures a.All? ==> 0 <= a.members <= 1900
    ensures a.RunTests? ==> 32 <= a.bufsize < SizeModulus
    ensures |args| > 1 && isRoot && args[0] == "test" && 0 <= Atoi(args[1]) < SizeModulus ==>
      a == RunTests(BufSizeArg(args[1]))
    ensures |args| > 1 && isRoot && args[0] == "test" && -(SizeModulus - 32) <= Atoi(args[1]) < 0 ==>
      a == RunTests(SizeModulus + Atoi(args[1]))
    ensures args == [] ==> a == Refused(1)
    ensures args != [] && !isRoot ==> a == Refused(1)
  {
    if args == [] then Refused(1)
    else if !isRoot then Refused(1)
    else
      var cmd := args[0];
      if cmd == "setup" then Setup(if |args| > 1 then ClampMembers(args[1]) else 50)
      else if cmd == "test" then RunTests(if |args| > 1 then BufSizeArgAsWritten(args[1]) else 4096)
      else if cmd == "cleanup" then Cleanup
      else if cmd == "all" then All(if |args| > 1 then ClampMembers(args[1]) else 50)
      else if cmd == "help" || cmd == "-h" then Help
      else Unknown
  }

  /** `test -5` as root runs the tests with the wrapped size 4294967291, not
      with 32. */
  lemma SuiteNegativeBufSize()
    ensures SuiteMain(["test", "-5"], true) == RunTests(4294967291)
  {
    assert LStripC("-5") == "-5";
    assert DigitRun("5") == 1;
    assert "5"[..1] == "5";
    assert DigitsValue("5") == 5 by {
      assert "5"[..0] == "";
    }
  }
}
