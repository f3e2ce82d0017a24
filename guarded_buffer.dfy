/**
 * The guarded buffer of getgrent_buffer_stress_test.c: one allocation of
 * `64 + size + 256` bytes holding a head guard, the user buffer and a tail
 * guard.  Each guard starts with a four-byte magic word (0xDEADBEEF for the
 * head, 0xCAFEBABE for the tail) and is otherwise filled with 0x5A; the user
 * buffer starts out as 0xAA.  A checker counts the guard bytes that changed.
 * getgrent_test_suite.c carries a copy of the same code (its lines 72-197),
 * which this module models as well.
 *
 * Pointers are offsets into the allocation.  The byte order in which the
 * magic word is stored is left open: a `ByteOrder` chooses it.
 */
module GuardedBuffer {
  import opened GroupLookup

  type Byte = x: int | 0 <= x < 256

  const HeadGuardSize: nat := 64
  const TailGuardSize: nat := 256
  const GuardMagicHead: nat := 0xDEAD_BEEF
  const GuardMagicTail: nat := 0xCAFE_BABE
  const GuardFillByte: Byte := 0x5A
  const BufferFillByte: Byte := 0xAA
  /** What `free_guarded_buffer` wipes the allocation with. */
  const WipeByte: Byte := 0xDD

  datatype ByteOrder = BigEndian | LittleEndian

  /** The four bytes `*(unsigned int *)p = word` stores. */
  function WordBytes(word: nat, order: ByteOrder): (r: seq<Byte>)
    requires word < 0x1_0000_0000
    ensures |r| == 4
  {
    var be := [word / 0x100_0000, word / 0x1_0000 % 0x100, word / 0x100 % 0x100, word % 0x100];
    if order == BigEndian then be else [be[3], be[2], be[1], be[0]]
  }

  /** Comparing the stored words is comparing their four bytes, in either
      byte order. */
  lemma WordBytesInjective(w1: nat, w2: nat, order: ByteOrder)
    requires w1 < 0x1_0000_0000 && w2 < 0x1_0000_0000
    ensures WordBytes(w1, order) == WordBytes(w2, order) <==> w1 == w2
  {
    if WordBytes(w1, order) == WordBytes(w2, order) {
      var b1 := [w1 / 0x100_0000, w1 / 0x1_0000 % 0x100, w1 / 0x100 % 0x100, w1 % 0x100];
      var b2 := [w2 / 0x100_0000, w2 / 0x1_0000 % 0x100, w2 / 0x100 % 0x100, w2 % 0x100];
      assert b1 == b2 by {
        if order == LittleEndian {
          assert b1[0] == WordBytes(w1, order)[3] && b2[0] == WordBytes(w2, order)[3];
          assert b1[1] == WordBytes(w1, order)[2] && b2[1] == WordBytes(w2, order)[2];
          assert b1[2] == WordBytes(w1, order)[1] && b2[2] == WordBytes(w2, order)[1];
          assert b1[3] == WordBytes(w1, order)[0] && b2[3] == WordBytes(w2, order)[0];
        }
      }
      Recompose(w1);
      Recompose(w2);
    }
  }

  lemma Recompose(w: nat)
    ensures w == w / 0x100_0000 * 0x100_0000 + w / 0x1_0000 % 0x100 * 0x1_0000 + w / 0x100 % 0x100 * 0x100 + w % 0x100
  {
    var a := w / 0x100;
    var b := a / 0x100;
    var c := b / 0x100;
    assert w == a * 0x100 + w % 0x100;
    assert a == b * 0x100 + a % 0x100;
    assert b == c * 0x100 + b % 0x100;
    assert w == b * 0x1_0000 + (a % 0x100 * 0x100 + w % 0x100);
    assert w / 0x1_0000 == b;
    assert w == c * 0x100_0000 + (b % 0x100 * 0x1_0000 + a % 0x100 * 0x100 + w % 0x100);
    assert w / 0x100_0000 == c;
  }

  function HeadMagic(order: ByteOrder): seq<Byte> { WordBytes(GuardMagicHead, order) }
  function TailMagic(order: ByteOrder): seq<Byte> { WordBytes(GuardMagicTail, order) }

  /** `n` copies of `b`: what `memset(p, b, n)` leaves. */
  function Filled(n: nat, b: Byte): (r: seq<Byte>)
    ensures |r| == n && forall i :: 0 <= i < n ==> r[i] == b
  {
    seq(n, _ => b)
  }

  /** What `fill_guard_region(region, size, magic, fill)` leaves in the region:
      the magic first when it fits, then the fill byte. */
  function GuardImage(size: nat, magic: seq<Byte>, fill: Byte): (r: seq<Byte>)
    requires |magic| == 4
    ensures |r| == size
  {
    if size >= 4 then magic + Filled(size - 4, fill) else Filled(size, fill)
  }

  /** The number of bytes of `s` that differ from `fill`. */
  function Mismatches(s: seq<Byte>, fill: Byte): (n: nat)
    ensures n <= |s|
  {
    if s == [] then 0 else Mismatches(s[..|s| - 1], fill) + (if s[|s| - 1] != fill then 1 else 0)
  }

  lemma {:induction false} MismatchesZero(s: seq<Byte>, fill: Byte)
    ensures Mismatches(s, fill) == 0 <==> s == Filled(|s|, fill)
  {
    if s != [] {
      MismatchesZero(s[..|s| - 1], fill);
      if s == Filled(|s|, fill) {
        assert s[..|s| - 1] == Filled(|s| - 1, fill);
      }
      if Mismatches(s, fill) == 0 {
        assert s == s[..|s| - 1] + [s[|s| - 1]];
      }
    }
  }

  /** What `check_guard_region` returns for a region holding `region`: 1 for a
      changed magic, plus 1 for every fill byte that changed. */
  function GuardErrors(region: seq<Byte>, magic: seq<Byte>, fill: Byte): (n: nat)
    requires |magic| == 4
    ensures n <= |region|
  {
    if |region| >= 4 then (if region[..4] != magic then 1 else 0) + Mismatches(region[4..], fill)
    else Mismatches(region, fill)
  }

  /** The checker finds nothing exactly in a region as the filler left it. */
  lemma GuardErrorsZero(region: seq<Byte>, magic: seq<Byte>, fill: Byte)
    requires |magic| == 4
    ensures GuardErrors(region, magic, fill) == 0 <==> region == GuardImage(|region|, magic, fill)
  {
    if |region| >= 4 {
      MismatchesZero(region[4..], fill);
      assert region == region[..4] + region[4..];
      if region == GuardImage(|region|, magic, fill) {
        assert region[..4] == magic;
        assert region[4..] == Filled(|region| - 4, fill);
      }
    } else {
      MismatchesZero(region, fill);
    }
  }

  /** `memset(a + start, b, n)` */
  method MemSet(a: array<Byte>, start: nat, n: nat, b: Byte)
    requires start + n <= a.Length
    modifies a
    ensures a[start..start + n] == Filled(n, b)
    ensures forall k :: 0 <= k < a.Length && !(start <= k < start + n) ==> a[k] == old(a[k])
  {
    for i := 0 to n
      invariant forall k :: start <= k < start + i ==> a[k] == b
      invariant forall k :: 0 <= k < a.Length && !(start <= k < start + i) ==> a[k] == old(a[k])
    {
      a[start + i] := b;
    }
  }

  /** `fill_guard_region(a + start, size, magic, fill)` */
  method FillGuardRegion(a: array<Byte>, start: nat, size: nat, magic: seq<Byte>, fill: Byte)
    requires start + size <= a.Length && |magic| == 4
    modifies a
    ensures a[start..start + size] == GuardImage(size, magic, fill)
    ensures forall k :: 0 <= k < a.Length && !(start <= k < start + size) ==> a[k] == old(a[k])
  {
    if size >= 4 {
      a[start], a[start + 1], a[start + 2], a[start + 3] := magic[0], magic[1], magic[2], magic[3];
      MemSet(a, start + 4, size - 4, fill);
      assert a[start..start + size] == a[start..start + 4] + a[start + 4..start + size];
    } else {
      MemSet(a, start, size, fill);
    }
  }

  /** The loop `for (i = 0; i < n; i++) if (p[i] != fill) errors++;` over
      `a + start`. */
  method CountMismatches(a: array<Byte>, start: nat, n: nat, fill: Byte) returns (count: nat)
    requires start + n <= a.Length
    ensures count == Mismatches(a[start..start + n], fill)
  {
    count := 0;
    for i := 0 to n
      invariant count == Mismatches(a[start..start + i], fill)
    {
      assert a[start..start + i + 1][..i] == a[start..start + i];
      if a[start + i] != fill {
        count := count + 1;
      }
    }
  }

  /** `check_guard_region(a + start, size, magic, fill, ...)` */
  method CheckGuardRegion(a: array<Byte>, start: nat, size: nat, magic: seq<Byte>, fill: Byte) returns (errors: nat)
    requires start + size <= a.Length && |magic| == 4
    ensures errors == GuardErrors(a[start..start + size], magic, fill)
  {
    errors := 0;
    var p, n := start, size;
    if size >= 4 {
      if a[start..start + 4] != magic {
        errors := errors + 1;
      }
      p, n := start + 4, size - 4;
    }
    var changed := CountMismatches(a, p, n, fill);
    errors := errors + changed;
    if size >= 4 {
      assert a[start..start + size][..4] == a[start..start + 4];
      assert a[start..start + size][4..] == a[p..p + n];
    } else {
      assert a[start..start + size] == a[p..p + n];
    }
  }

  /** `fill_buffer_aggressively(a + start, size)`: writes `i & 0xFF` to every
      byte, then reads them back and would abort on a mismatch. */
  method FillBufferAggressively(a: array<Byte>, start: nat, size: nat) returns (aborted: bool)
    requires start + size <= a.Length
    modifies a
    ensures !aborted
    ensures forall i :: 0 <= i < size ==> a[start + i] == i % 256
    ensures forall k :: 0 <= k < a.Length && !(start <= k < start + size) ==> a[k] == old(a[k])
  {
    for i := 0 to size
      invariant forall j :: 0 <= j < i ==> a[start + j] == j % 256
      invariant forall k :: 0 <= k < a.Length && !(start <= k < start + i) ==> a[k] == old(a[k])
    {
      a[start + i] := i % 256;
    }
    aborted := false;
    var i := 0;
    while i < size
      invariant 0 <= i <= size && !aborted
    {
      if a[start + i] != i % 256 {
        aborted := true;
        return;
      }
      i := i + 1;
    }
  }

  /** `guarded_buffer_t`: one allocation, with the head guard at offset 0, the
      user buffer at 64 and the tail guard at 64 + size. */
  class Guarded {
    var allocSize: nat
    var totalSize: nat
    var raw: array<Byte>
    var headMagic: nat
    var tailMagic: nat
    /** The platform's byte order for the stored magic words. */
    var order: ByteOrder

    predicate Valid()
      reads this
    {
      && raw.Length == totalSize == HeadGuardSize + allocSize + TailGuardSize
      && headMagic == GuardMagicHead && tailMagic == GuardMagicTail
    }

    /** `buffer - raw_alloc` */
    function BufferStart(): nat { HeadGuardSize }

    /** `tail_guard - raw_alloc` */
    function TailStart(): nat
      reads this
    {
      HeadGuardSize + allocSize
    }

    function Head(): seq<Byte>
      reads this, raw
      requires Valid()
    {
      raw[..HeadGuardSize]
    }

    function User(): seq<Byte>
      reads this, raw
      requires Valid()
    {
      raw[HeadGuardSize..TailStart()]
    }

    function Tail(): seq<Byte>
      reads this, raw
      requires Valid()
    {
      raw[TailStart()..]
    }

    /** Both guards hold what `fill_guard_region` put there. */
    predicate Intact()
      reads this, raw
      requires Valid()
    {
      && Head() == GuardImage(HeadGuardSize, HeadMagic(order), GuardFillByte)
      && Tail() == GuardImage(TailGuardSize, TailMagic(order), GuardFillByte)
    }

    /** `alloc_guarded_buffer(size)` (a failing malloc is not modelled). */
    constructor (size: nat, order: ByteOrder)
      ensures Valid() && fresh(raw) && allocSize == size && this.order == order
      ensures TailStart() == HeadGuardSize + size && totalSize == 64 + size + 256
      ensures Head() == GuardImage(HeadGuardSize, HeadMagic(order), GuardFillByte)
      ensures User() == Filled(size, BufferFillByte)
      ensures Tail() == GuardImage(TailGuardSize, TailMagic(order), GuardFillByte)
      ensures Intact()
    {
      var total := HeadGuardSize + size + TailGuardSize;
      var a := new Byte[total];
      FillGuardRegion(a, 0, HeadGuardSize, WordBytes(GuardMagicHead, order), GuardFillByte);
      MemSet(a, HeadGuardSize, size, BufferFillByte);
      FillGuardRegion(a, HeadGuardSize + size, TailGuardSize, WordBytes(GuardMagicTail, order), GuardFillByte);
      assert a[..HeadGuardSize] == a[0..HeadGuardSize];
      assert a[HeadGuardSize + size..] == a[HeadGuardSize + size..HeadGuardSize + size + TailGuardSize];
      allocSize, totalSize, raw := size, total, a;
      headMagic, tailMagic := GuardMagicHead, GuardMagicTail;
      this.order := order;
    }

    /** `free_guarded_buffer`: wipes every byte with 0xDD before the memory
        is released (the release itself is not modelled). */
    method Free()
      requires Valid()
      modifies raw
      ensures raw[..] == Filled(totalSize, WipeByte)
    {
      MemSet(raw, 0, totalSize, WipeByte);
      assert raw[..] == raw[0..totalSize];
    }

    /** `validate_buffer_integrity`: 0 when neither guard changed, else -1. */
    method ValidateIntegrity() returns (r: int)
      requires Valid()
      ensures r == (if GuardErrors(Head(), HeadMagic(order), GuardFillByte) == 0
                      && GuardErrors(Tail(), TailMagic(order), GuardFillByte) == 0 then 0 else -1)
      ensures r == 0 <==> Intact()
    {
      var tailStart := TailStart();
      var headErrors := CheckGuardRegion(raw, 0, HeadGuardSize, WordBytes(GuardMagicHead, order), GuardFillByte);
      assert raw[0..HeadGuardSize] == Head();
      var tailErrors := CheckGuardRegion(raw, tailStart, TailGuardSize, WordBytes(GuardMagicTail, order), GuardFillByte);
      assert raw[tailStart..tailStart + TailGuardSize] == Tail();
      r := if headErrors == 0 && tailErrors == 0 then 0 else -1;
      GuardErrorsZero(Head(), HeadMagic(order), GuardFillByte);
      GuardErrorsZero(Tail(), TailMagic(order), GuardFillByte);
    }
  }

  /** A write that stays inside the user buffer leaves the guards as they were. */
  lemma UserWritesKeepGuards(g: Guarded, before: seq<Byte>)
    requires g.Valid() && |before| == g.totalSize
    requires before[..HeadGuardSize] == GuardImage(HeadGuardSize, HeadMagic(g.order), GuardFillByte)
    requires before[g.TailStart()..] == GuardImage(TailGuardSize, TailMagic(g.order), GuardFillByte)
    requires forall k :: 0 <= k < g.totalSize && !(HeadGuardSize <= k < g.TailStart()) ==> g.raw[k] == before[k]
    ensures g.Intact()
  {
    assert g.Head() == before[..HeadGuardSize];
    assert g.Tail() == before[g.TailStart()..];
  }

  /** `test_buffer_size_assumption_violation`, its safe half: a 256-byte
      buffer filled over exactly its own size still passes the integrity
      check. */
  method SafeAccess(order: ByteOrder) returns (integrity: int)
    ensures integrity == 0
  {
    var gb := new Guarded(256, order);
    ghost var before := gb.raw[..];
    var aborted := FillBufferAggressively(gb.raw, HeadGuardSize, 256);
    UserWritesKeepGuards(gb, before);
    integrity := gb.ValidateIntegrity();
    gb.Free();
  }

  // ---------------------------------------------------------------------
  // validate_group_pointers
  // ---------------------------------------------------------------------

  /** The `gr_name` check: out of range, or in range but with no NUL between
      it and the end of the buffer (`strnlen` reaching its limit). */
  function NameErrors(name: Ptr, buf: seq<Byte>): (n: nat)
    ensures n <= 1
  {
    if name.Null? then 0
    else if !InBuffer(name.offset, |buf|) then 1
    else if 0 !in buf[name.offset..] then 1
    else 0
  }

  /** One error for a non-NULL pointer outside the buffer. */
  function PtrErrors(p: Ptr, bufsize: nat): (n: nat)
    ensures n == 1 <==> Outside(p, bufsize)
  {
    if Outside(p, bufsize) then 1 else 0
  }

  /** The member loop from the slot at offset `slot` on: the first slot that
      lies past the end of the buffer adds one error and ends the loop; before
      that every member string outside the buffer adds one. */
  function SlotErrors(members: seq<int>, slot: int, ptrSize: nat, bufsize: nat): nat {
    if members == [] then 0
    else if slot >= bufsize then 1
    else (if !InBuffer(members[0], bufsize) then 1 else 0) + SlotErrors(members[1..], slot + ptrSize, ptrSize, bufsize)
  }

  /** What `validate_group_pointers(grp, buf, bufsize)` returns; `ptrSize` is
      `sizeof(char *)`. */
  function StressPointerErrors(g: GroupView, buf: seq<Byte>, ptrSize: nat): nat {
    NameErrors(g.name, buf) + PtrErrors(g.passwd, |buf|)
      + (if g.mem.Null? then 0
         else if Outside(g.mem, |buf|) then 1
         else SlotErrors(g.members, g.mem.offset, ptrSize, |buf|))
  }

  /** Every pointer the library handed back lies in the buffer: the name with
      its terminating NUL, the password, the member array's slots and the
      member strings. */
  ghost predicate WellPlaced(g: GroupView, buf: seq<Byte>, ptrSize: nat) {
    && (g.name.Addr? ==> InBuffer(g.name.offset, |buf|) && 0 in buf[g.name.offset..])
    && !Outside(g.passwd, |buf|)
    && (g.mem.Addr? ==>
          && InBuffer(g.mem.offset, |buf|)
          && forall k :: 0 <= k < |g.members| ==>
               g.mem.offset + k * ptrSize < |buf| && InBuffer(g.members[k], |buf|))
  }

  lemma {:induction false} SlotErrorsZero(members: seq<int>, slot: int, ptrSize: nat, bufsize: nat)
    ensures SlotErrors(members, slot, ptrSize, bufsize) == 0 <==>
      forall k :: 0 <= k < |members| ==> slot + k * ptrSize < bufsize && InBuffer(members[k], bufsize)
  {
    if members != [] {
      SlotErrorsZero(members[1..], slot + ptrSize, ptrSize, bufsize);
      var rest := members[1..];
      if SlotErrors(members, slot, ptrSize, bufsize) == 0 {
        forall k | 1 <= k < |members|
          ensures slot + k * ptrSize < bufsize && InBuffer(members[k], bufsize)
        {
          assert members[k] == rest[k - 1];
          assert slot + k * ptrSize == slot + ptrSize + (k - 1) * ptrSize;
        }
      } else if forall k :: 0 <= k < |members| ==> slot + k * ptrSize < bufsize && InBuffer(members[k], bufsize) {
        assert slot + 0 * ptrSize < bufsize;
        forall k | 0 <= k < |rest|
          ensures slot + ptrSize + k * ptrSize < bufsize && InBuffer(rest[k], bufsize)
        {
          assert rest[k] == members[k + 1];
          assert slot + ptrSize + k * ptrSize == slot + (k + 1) * ptrSize;
        }
      }
    }
  }

  /** `validate_group_pointers` finds no error exactly when every pointer is
      well placed. */
  lemma StressPointerErrorsZero(g: GroupView, buf: seq<Byte>, ptrSize: nat)
    ensures StressPointerErrors(g, buf, ptrSize) == 0 <==> WellPlaced(g, buf, ptrSize)
  {
    if g.mem.Addr? {
      SlotErrorsZero(g.members, g.mem.offset, ptrSize, |buf|);
    }
  }

  /** `strnlen(a + p, maxLen)` */
  method StrnLen(a: array<Byte>, p: nat, maxLen: nat) returns (len: nat)
    requires p + maxLen <= a.Length
    ensures len <= maxLen
    ensures forall i :: p <= i < p + len ==> a[i] != 0
    ensures len < maxLen ==> a[p + len] == 0
    ensures len == maxLen <==> 0 !in a[p..p + maxLen]
  {
    len := 0;
    while len < maxLen && a[p + len] != 0
      invariant len <= maxLen
      invariant forall i :: p <= i < p + len ==> a[i] != 0
    {
      len := len + 1;
    }
    ghost var w := a[p..p + maxLen];
    assert forall i :: 0 <= i < maxLen ==> w[i] == a[p + i];
  }

  /** `validate_group_pointers(grp, buf, buf->Length)`: the loop over the
      member slots stops at the first slot past the end. */
  method ValidateGroupPointers(g: GroupView, buf: array<Byte>, ptrSize: nat) returns (errors: nat)
    ensures errors == StressPointerErrors(g, buf[..], ptrSize)
  {
    errors := 0;
    var bufsize := buf.Length;
    if g.name.Addr? {
      if !InBuffer(g.name.offset, bufsize) {
        errors := errors + 1;
      } else {
        var maxLen := bufsize - g.name.offset;
        var len := StrnLen(buf, g.name.offset, maxLen);
        assert buf[g.name.offset..g.name.offset + maxLen] == buf[..][g.name.offset..];
        if len == maxLen {
          errors := errors + 1;
        }
      }
    }
    if Outside(g.passwd, bufsize) {
      errors := errors + 1;
    }
    if g.mem.Addr? {
      if Outside(g.mem, bufsize) {
        errors := errors + 1;
      } else {
        ghost var base := errors;
        var k := 0;
        var slot := g.mem.offset;
        while k < |g.members|
          invariant 0 <= k <= |g.members| && slot == g.mem.offset + k * ptrSize
          invariant base + SlotErrors(g.members, g.mem.offset, ptrSize, bufsize)
                    == errors + SlotErrors(g.members[k..], slot, ptrSize, bufsize)
        {
          assert g.members[k..][1..] == g.members[k + 1..];
          if slot >= bufsize {
            errors := errors + 1;
            break;
          }
          if !InBuffer(g.members[k], bufsize) {
            errors := errors + 1;
          }
          k, slot := k + 1, slot + ptrSize;
        }
      }
    }
  }

  /** The sizes `test_progressive_sizing` tries. */
  const StressSizes: seq<nat> := [64, 128, 256, 512, 1024, 2048, 4096, 8192, 16384, 32768, 65536]

  lemma StressSizesDoubling()
    ensures Doubling(StressSizes) && |StressSizes| == 11
    ensures StressSizes[0] == 64 && StressSizes[10] == 65536
  {
  }

  /** `test_progressive_sizing`: one fresh guarded buffer per attempt, the
      previous one wiped and freed; the loop ends with the failure message
      exactly when the outcome is `AllTooSmall`. */
  method ProgressiveSizing(lookup: nat -> Lookup, order: ByteOrder) returns (attempts: nat, outcome: Outcome)
    ensures attempts == Attempts(StressSizes, lookup)
    ensures outcome == ProgressiveOutcome(StressSizes, lookup)
  {
    attempts, outcome := GuardedProgressive(StressSizes, lookup, order);
  }

  /** The loop of `test_progressive_sizing` over any list of sizes. */
  method GuardedProgressive(sizes: seq<nat>, lookup: nat -> Lookup, order: ByteOrder) returns (attempts: nat, outcome: Outcome)
    ensures attempts == Attempts(sizes, lookup)
    ensures outcome == ProgressiveOutcome(sizes, lookup)
  {
    var gb: Guarded? := null;
    var i := 0;
    attempts := 0;
    outcome := AllTooSmall;
    while i < |sizes|
      invariant 0 <= i <= |sizes| && attempts == i
      invariant ProgressiveOutcome(sizes[i..], lookup) == ProgressiveOutcome(sizes, lookup)
      invariant Attempts(sizes[i..], lookup) + i == Attempts(sizes, lookup)
      invariant gb != null ==> gb.Valid() && fresh(gb.raw)
    {
      attempts := attempts + 1;
      if gb != null {
        gb.Free();
      }
      gb := new Guarded(sizes[i], order);
      MemSet(gb.raw, HeadGuardSize, gb.allocSize, BufferFillByte);
      var l := lookup(sizes[i]);
      if l.ret == ERANGE {
        assert sizes[i..][1..] == sizes[i + 1..];
        i := i + 1;
        continue;
      }
      outcome := Settle(sizes[i], l);
      break;
    }
    if gb != null {
      gb.Free();
    }
  }
}
