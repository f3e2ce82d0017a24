/**
 * create_test_groups.c: creates test users tusr0001.. and five test groups
 * tgrp_empty .. tgrp_huge through the AIX security database, shows how many
 * members each group has, and removes them again.
 *
 * The database (`IDtouser`, `IDtogroup`, `setuserdb`, `putuserattr`,
 * `putgroupattr`, `getgroupattr`, `enduserdb`) is an oracle: its answers
 * are parameters.
 */
module CreateGroups {
  import opened Text
  import opened SecList
  import opened GroupLookup

  const GroupPrefix: string := "tgrp"
  const UserPrefix: string := "tusr"
  const BaseGid: nat := 60000
  const BaseUid: nat := 60000

  // ---------------------------------------------------------------------
  // build_member_list
  // ---------------------------------------------------------------------

  /** `snprintf(username, 32, "%s%04d", "tusr", i)`; at most 15 characters
      for any 32-bit `i`, so never truncated. */
  function MemberName(i: int): string {
    UserPrefix + Pad4(i)
  }

  /** The names for indices `start .. start + count - 1`. */
  function MemberNames(count: nat, start: int): (r: seq<string>)
    ensures |r| == count
  {
    seq(count, k => MemberName(start + k))
  }

  /** `count * (strlen("tusr") + 5 + 1) + 1` */
  function Estimate(count: nat): nat {
    count * (|UserPrefix| + 5 + 1) + 1
  }

  /** A name for an index in 0..99999 has at most 4 + 5 characters. */
  lemma MemberNameLength(i: int)
    requires 0 <= i <= 99999
    ensures 8 <= |MemberName(i)| <= 9
  {
    NatToStringLength(i, 5);
  }

  /** The estimate covers the list whenever every index is in 0..99999. */
  lemma EstimateSuffices(count: nat, start: int)
    requires 0 <= start && start + count <= 100000
    ensures |Encode(MemberNames(count, start))| <= Estimate(count)
  {
    var names := MemberNames(count, start);
    forall i | 0 <= i < count ensures |names[i]| <= 9 {
      MemberNameLength(start + i);
    }
    EntriesLengthBound(names, 9);
  }

  /** The groups the program builds take 5, 50, 500 and 1900 members from
      index 1, well inside the range where the estimate is enough. */
  lemma CallSitesFit()
    ensures forall c :: c in {SmallSize, MediumSize, LargeSize, HugeSize} ==>
      |Encode(MemberNames(c, 1))| <= Estimate(c)
  {
    EstimateSuffices(SmallSize, 1);
    EstimateSuffices(MediumSize, 1);
    EstimateSuffices(LargeSize, 1);
    EstimateSuffices(HugeSize, 1);
  }

  /** `build_member_list(count, start_index)`: a buffer of the estimated
      size, filled through an advancing pointer.  The writes stay inside the
      buffer only for indices up to 99999, which is what the requires says. */
  method BuildMemberList(count: nat, startIndex: int) returns (list: array<char>)
    requires 0 <= startIndex && startIndex + count <= 100000
    ensures fresh(list) && list.Length == Estimate(count)
    ensures |Encode(MemberNames(count, startIndex))| <= list.Length
    ensures list[..|Encode(MemberNames(count, startIndex))|] == Encode(MemberNames(count, startIndex))
  {
    EstimateSuffices(count, startIndex);
    list := new char[Estimate(count)];
    var p := WriteMembers(list, count, startIndex);
    Terminate(list, p, MemberNames(count, startIndex));
  }

  /** The loop of `build_member_list`: one `strcpy` per name, the pointer
      moving past each NUL. */
  method WriteMembers(list: array<char>, count: nat, startIndex: int) returns (p: nat)
    requires EntriesLength(MemberNames(count, startIndex)) < list.Length
    modifies list
    ensures p == EntriesLength(MemberNames(count, startIndex))
    ensures list[..p] == Entries(MemberNames(count, startIndex))
  {
    ghost var names := MemberNames(count, startIndex);
    p := 0;
    for i := startIndex to startIndex + count
      invariant p == EntriesLength(names[..i - startIndex]) && p < list.Length
      invariant list[..p] == Entries(names[..i - startIndex])
    {
      ghost var k: nat := i - startIndex;
      var username := MemberName(i);
      assert username == names[k];
      EntriesLengthPrefix(names, k);
      p := AppendEntry(list, p, names, k, username);
    }
    assert names[..count] == names;
  }

  // ---------------------------------------------------------------------
  // show_group_info: counting a SEC_LIST
  // ---------------------------------------------------------------------

  /** The member count `show_group_info` prints for the S_USERS value
      (`None` for a NULL list): the number of strings before the empty one. */
  method CountMembers(members: Option<seq<char>>) returns (count: nat)
    ensures count == if members.None? then 0 else |Decode(members.value)|
  {
    count := 0;
    if members.Some? && |members.value| > 0 && members.value[0] != NUL {
      count := WalkList(members.value);
    }
  }

  /** `while (*p) { count++; p += strlen(p) + 1; }` */
  method WalkList(list: seq<char>) returns (count: nat)
    ensures count == |Decode(list)|
  {
    count := 0;
    var p := 0;
    assert list[p..] == list;
    while p < |list| && list[p] != NUL
      invariant p <= |list|
      invariant count + |Decode(list[p..])| == |Decode(list)|
      decreases |list| - p
    {
      var k := StrLen(list[p..]);
      DecodeFrom(list, p);
      count := count + 1;
      p := if p + k == |list| then |list| else p + k + 1;
    }
    assert p < |list| ==> list[p..][0] == NUL;
  }

  /** One step of the walk `p += strlen(p) + 1`. */
  lemma DecodeFrom(list: seq<char>, p: nat)
    requires p < |list| && list[p] != NUL
    ensures var k := StrLen(list[p..]);
      |Decode(list[p..])| == 1 + (if p + k == |list| then 0 else |Decode(list[p + k + 1..])|)
  {
    var k := StrLen(list[p..]);
    if p + k < |list| {
      assert list[p..][k + 1..] == list[p + k + 1..];
    }
  }

  /** Counting the list `build_member_list(count, start)` writes gives
      `count`. */
  lemma CountOfMemberList(count: nat, start: int)
    ensures |Decode(Encode(MemberNames(count, start)))| == count
  {
    var names := MemberNames(count, start);
    forall i | 0 <= i < count ensures ValidName(names[i]) {
      assert names[i] == MemberName(start + i);
      Pad4Valid(UserPrefix, start + i, |UserPrefix + Pad4(start + i)|);
      assert Truncate(UserPrefix + Pad4(start + i), |UserPrefix + Pad4(start + i)|) == names[i];
    }
    DecodeEncode(names);
  }

  // ---------------------------------------------------------------------
  // create_user / create_group / add_members_to_group
  // ---------------------------------------------------------------------

  /** The database's answers for one entity: whether the id is already
      taken, whether `setuserdb(S_WRITE)` succeeds, and what each attribute
      write returns, by position. */
  datatype DbReplies = DbReplies(idTaken: bool, openOk: bool, stepRet: nat -> int)

  /** What a sequence of writes did: the return value, how many writes ran,
      and whether the database was opened and closed again. */
  datatype WriteResult = WriteResult(ret: int, began: bool, writes: nat, ended: bool)

  /** The index of the first write that fails, or `steps` if none does. */
  function FirstFailure(stepRet: nat -> int, from: nat, steps: nat): (k: nat)
    requires from <= steps
    ensures from <= k <= steps
    ensures forall j :: from <= j < k ==> stepRet(j) == 0
    ensures k < steps ==> stepRet(k) != 0
    decreases steps - from
  {
    if from == steps then steps
    else if stepRet(from) != 0 then from
    else FirstFailure(stepRet, from + 1, steps)
  }

  /** The shape shared by `create_user` (6 writes: SEC_NEW, S_ID, S_PGRP,
      S_HOME, S_SHELL, SEC_COMMIT), `create_group` (3: SEC_NEW, S_ID,
      SEC_COMMIT) and `add_members_to_group` (2: S_USERS, SEC_COMMIT):
      nothing when the id exists, -1 when the database does not open, and
      after that the writes in order up to the first failure, with
      `enduserdb` on every path. */
  function SecWrite(checkId: bool, db: DbReplies, steps: nat): (r: WriteResult)
    ensures checkId && db.idTaken ==> r == WriteResult(0, false, 0, false)
    ensures r.began ==> r.ended
    ensures r.ret == 0 <==> (checkId && db.idTaken) || (db.openOk && forall j :: 0 <= j < steps ==> db.stepRet(j) == 0)
    ensures r.ret != 0 ==> r.ret == -1
    ensures r.writes <= steps
  {
    if checkId && db.idTaken then WriteResult(0, false, 0, false)
    else if !db.openOk then WriteResult(-1, false, 0, false)
    else
      var k := FirstFailure(db.stepRet, 0, steps);
      if k < steps then WriteResult(-1, true, k + 1, true)
      else WriteResult(0, true, steps, true)
  }

  const UserWrites: nat := 6
  const GroupWrites: nat := 3
  const MemberWrites: nat := 2

  /** `create_user(username, uid)` */
  function CreateUser(db: DbReplies): WriteResult {
    SecWrite(true, db, UserWrites)
  }

  /** A write that fails stops the sequence: the later ones never run. */
  lemma CreateUserStopsAtFailure(db: DbReplies, k: nat)
    requires !db.idTaken && db.openOk && k < UserWrites && db.stepRet(k) != 0
    requires forall j :: 0 <= j < k ==> db.stepRet(j) == 0
    ensures CreateUser(db) == WriteResult(-1, true, k + 1, true)
  {
    var f := FirstFailure(db.stepRet, 0, UserWrites);
    assert f == k;
  }

  /** Whether `create_user` returns 0 for index `i` (created, or already
      present); `replies(i)` is what the database answers for the user
      `MemberName(i)` with UID `BaseUid + i`. */
  predicate UserOk(i: int, replies: int -> DbReplies) {
    CreateUser(replies(i)).ret == 0
  }

  /** `create_users(count, start_index)`: how many of the indices
      start .. start + count - 1 had `create_user` return 0. */
  function Created(count: nat, start: int, replies: int -> DbReplies): (n: nat)
    ensures n <= count
  {
    if count == 0 then 0
    else Created(count - 1, start, replies) + (if UserOk(start + count - 1, replies) then 1 else 0)
  }

  /** All users count exactly when every `create_user` returned 0, and none
      exactly when every one failed. */
  lemma {:induction false} CreatedMeaning(count: nat, start: int, replies: int -> DbReplies)
    ensures Created(count, start, replies) == count <==> forall i :: start <= i < start + count ==> UserOk(i, replies)
    ensures Created(count, start, replies) == 0 <==> forall i :: start <= i < start + count ==> !UserOk(i, replies)
  {
    if count > 0 {
      CreatedMeaning(count - 1, start, replies);
    }
  }

  method CreateUsers(count: int, startIndex: int, replies: int -> DbReplies) returns (created: nat)
    ensures created == Created(if count < 0 then 0 else count, startIndex, replies)
  {
    created := 0;
    var i := startIndex;
    ghost var k: nat := 0;
    while i < startIndex + count
      invariant i == startIndex + k && (count >= 0 ==> k <= count) && (count < 0 ==> k == 0)
      invariant created == Created(k, startIndex, replies)
    {
      if CreateUser(replies(i)).ret == 0 {
        created := created + 1;
      }
      i := i + 1;
      k := k + 1;
    }
  }

  // ---------------------------------------------------------------------
  // The five test groups
  // ---------------------------------------------------------------------

  const SmallSize: nat := 5
  const MediumSize: nat := 50
  const LargeSize: nat := 500
  const HugeSize: nat := 1900

  datatype TestGroup = Empty | Small | Medium | Large | Huge

  const AllGroups: seq<TestGroup> := [Empty, Small, Medium, Large, Huge]

  function Suffix(g: TestGroup): string {
    match g
    case Empty => "_empty"
    case Small => "_small"
    case Medium => "_medium"
    case Large => "_large"
    case Huge => "_huge"
  }

  function GroupName(g: TestGroup): string {
    GroupPrefix + Suffix(g)
  }

  function Gid(g: TestGroup): nat {
    match g
    case Empty => BaseGid + 1
    case Small => BaseGid + 2
    case Medium => BaseGid + 3
    case Large => BaseGid + 4
    case Huge => BaseGid + 5
  }

  function Members(g: TestGroup): nat {
    match g
    case Empty => 0
    case Small => SmallSize
    case Medium => MediumSize
    case Large => LargeSize
    case Huge => HugeSize
  }

  /** The groups get GIDs 60001..60005 and names that differ from each
      other, and each holds at most 1900 members. */
  lemma GroupConfiguration()
    ensures forall g :: 60001 <= Gid(g) <= 60005 && Members(g) <= HugeSize
    ensures forall g, h :: Gid(g) == Gid(h) ==> g == h
    ensures forall g, h :: GroupName(g) == GroupName(h) ==> g == h
  {
    forall g, h | GroupName(g) == GroupName(h) ensures g == h {
      assert Suffix(g) == GroupName(g)[4..] && Suffix(h) == GroupName(h)[4..];
    }
  }

  /** `create_<size>_group`: the users first (their count is ignored), then
      the group; -1 if the group fails, else what adding the members
      returns.  The empty group only creates the group. */
  function CreateTestGroup(g: TestGroup, groupDb: DbReplies, memberDb: DbReplies): (r: int)
    ensures r == 0 || r == -1
    ensures SecWrite(true, groupDb, GroupWrites).ret != 0 ==> r == -1
    ensures g == Empty ==> r == SecWrite(true, groupDb, GroupWrites).ret
  {
    var created := SecWrite(true, groupDb, GroupWrites);
    if g == Empty then created.ret
    else if created.ret != 0 then -1
    else SecWrite(false, memberDb, MemberWrites).ret
  }

  // ---------------------------------------------------------------------
  // cleanup_all
  // ---------------------------------------------------------------------

  /** `cleanup_all`: the five groups by suffix, then users 1 .. 1900. */
  method CleanupAll() returns (groups: seq<string>, users: seq<string>)
    ensures (groups, users) == CleanupLists()
  {
    groups := [];
    for i := 0 to |AllGroups|
      invariant 0 <= i <= 5
      invariant groups == seq(i, k requires 0 <= k < i => GroupName(AllGroups[k]))
    {
      groups := groups + [GroupPrefix + Suffix(AllGroups[i])];
    }
    users := [];
    var i := 1;
    while i <= HugeSize
      invariant 1 <= i <= HugeSize + 1
      invariant users == MemberNames(i - 1, 1)
    {
      users := users + [MemberName(i)];
      i := i + 1;
    }
  }

  /** `remove_user` / `remove_group`: SEC_DELETE, and SEC_COMMIT only when
      the delete succeeded.  The result is the return value and whether the
      commit ran. */
  function RemoveEntry(openOk: bool, deleteRet: int, commitRet: int): (r: (int, bool))
    ensures !openOk ==> r.0 == -1
    ensures r.1 <==> openOk && deleteRet == 0
    ensures r.0 == 0 <==> openOk && deleteRet == 0 && commitRet == 0
  {
    if !openOk then (-1, false)
    else if deleteRet != 0 then (deleteRet, false)
    else (commitRet, true)
  }

  /** Cleanup reaches every group the program creates and every member any
      of them is given: the `k`-th member of each group is `MemberName(1 + k)`,
      since every group takes its members from index 1. */
  lemma CleanupCoversGroup(g: TestGroup, k: nat)
    requires k < Members(g)
    ensures GroupName(g) in CleanupLists().0
    ensures MemberNames(Members(g), 1)[k] in CleanupLists().1
  {
    var (groups, users) := CleanupLists();
    var j := match g case Empty => 0 case Small => 1 case Medium => 2 case Large => 3 case Huge => 4;
    assert groups[j] == GroupName(g);
    assert users[k] == MemberName(1 + k) == MemberNames(Members(g), 1)[k];
  }

  // ---------------------------------------------------------------------
  // main
  // ---------------------------------------------------------------------

  datatype Command = Setup | CreateLarge | CreateHuge | Cleanup | Status | Usage

  /** `main`: the command defaults to "setup"; anything unknown prints the
      usage. */
  function CommandOf(args: seq<string>): (c: Command)
    ensures args == [] ==> c == Setup
    ensures |args| > 0 && args[0] == "cleanup" <==> c == Cleanup
  {
    var cmd := if |args| > 0 then args[0] else "setup";
    if cmd == "setup" then Setup
    else if cmd == "large" then CreateLarge
    else if cmd == "huge" then CreateHuge
    else if cmd == "cleanup" then Cleanup
    else if cmd == "status" then Status
    else Usage
  }

  /** What a run does: its exit status, the groups it creates in order,
      whether it cleans up, and whether it shows the status. */
  datatype Effects = Effects(exit: int, creates: seq<TestGroup>, cleanup: bool, status: bool)

  function RunCommand(args: seq<string>, isRoot: bool): (e: Effects)
    ensures e.exit == 1 <==> !isRoot || CommandOf(args) == Usage
    ensures e.exit == 0 || e.exit == 1
    ensures e.exit == 1 ==> e.creates == [] && !e.cleanup && !e.status
    ensures e.creates != [] ==> e.status && !e.cleanup
    ensures e.cleanup <==> isRoot && CommandOf(args) == Cleanup
  {
    if !isRoot then Effects(1, [], false, false)
    else match CommandOf(args)
      case Setup => Effects(0, [Empty, Small, Medium], false, true)
      case CreateLarge => Effects(0, [Large], false, true)
      case CreateHuge => Effects(0, [Huge], false, true)
      case Cleanup => Effects(0, [], true, false)
      case Status => Effects(0, [], false, true)
      case Usage => Effects(1, [], false, false)
  }

  /** Whatever a run creates, a later `cleanup` run removes: every group it
      creates and every member it gives them is on the cleanup lists. */
  lemma CleanupUndoesRun(args: seq<string>, g: TestGroup, k: nat)
    requires g in RunCommand(args, true).creates && k < Members(g)
    ensures GroupName(g) in CleanupLists().0
    ensures MemberNames(Members(g), 1)[k] in CleanupLists().1
  {
    CleanupCoversGroup(g, k);
  }

  /** The names `cleanup_all` passes to `remove_group` and `remove_user`. */
  function CleanupLists(): (seq<string>, seq<string>) {
    (seq(5, j requires 0 <= j < 5 => GroupName(AllGroups[j])), MemberNames(HugeSize, 1))
  }
}
