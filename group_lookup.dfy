/**
 * What the getgrent test programs (getgrent_buffer_stress_test.c,
 * getgrent_test_suite.c, getgrent_test.c) see of the group database.
 *
 * `getgrnam_r` is a libc service outside the model: each test receives its
 * answer for a buffer size as a `Lookup` value.  A `struct group` the call
 * filled in is seen through `GroupView`, with every pointer written as an
 * offset from the start of the caller's buffer.
 */
module GroupLookup {
  import opened Text

  /** `ERANGE` in AIX's <errno.h>. */
  const ERANGE: int := 34

  /** What `getgrnam_r(name, &grp, buf, size, &result)` returns: its error
      code, and whether `result` is non-NULL. */
  datatype Lookup = Lookup(ret: int, found: bool)

  /** How a progressive sizing loop ends. */
  datatype Outcome =
    | AllTooSmall                          // every size gave ERANGE
    | LookupError(code: int, size: nat)    // some other error code: stop
    | NotFound(size: nat)                  // success, but no such group: stop
    | Found(size: nat)                     // success with a group: stop

  /** The outcome of the first size that did not give ERANGE. */
  function Settle(size: nat, l: Lookup): (o: Outcome)
    requires l.ret != ERANGE
    ensures !o.AllTooSmall? && o.size == size
    ensures o.Found? <==> l.ret == 0 && l.found
    ensures o.LookupError? <==> l.ret != 0
  {
    if l.ret != 0 then LookupError(l.ret, size)
    else if !l.found then NotFound(size)
    else Found(size)
  }

  /** The loops of `test_progressive_sizing`, `test_lookup_progressive` and
      `test_progressive`: try the sizes in order, go on after ERANGE and stop
      at anything else. */
  function ProgressiveOutcome(sizes: seq<nat>, lookup: nat -> Lookup): Outcome {
    if sizes == [] then AllTooSmall
    else if lookup(sizes[0]).ret == ERANGE then ProgressiveOutcome(sizes[1..], lookup)
    else Settle(sizes[0], lookup(sizes[0]))
  }

  /** The number of sizes those loops try. */
  function Attempts(sizes: seq<nat>, lookup: nat -> Lookup): (n: nat)
    ensures n <= |sizes|
  {
    if sizes == [] then 0
    else if lookup(sizes[0]).ret == ERANGE then 1 + Attempts(sizes[1..], lookup)
    else 1
  }

  /** The loop ends in failure exactly when every size gave ERANGE; otherwise
      it stopped at the first size that did not, after trying every size
      before it. */
  lemma {:induction false} ProgressiveMeaning(sizes: seq<nat>, lookup: nat -> Lookup)
    ensures var o, n := ProgressiveOutcome(sizes, lookup), Attempts(sizes, lookup);
      && (o.AllTooSmall? <==> forall j :: 0 <= j < |sizes| ==> lookup(sizes[j]).ret == ERANGE)
      && (o.AllTooSmall? ==> n == |sizes|)
      && (!o.AllTooSmall? ==>
            && 1 <= n
            && (forall j :: 0 <= j < n - 1 ==> lookup(sizes[j]).ret == ERANGE)
            && lookup(sizes[n - 1]).ret != ERANGE
            && o == Settle(sizes[n - 1], lookup(sizes[n - 1])))
  {
    if sizes != [] {
      ProgressiveMeaning(sizes[1..], lookup);
      if lookup(sizes[0]).ret == ERANGE {
        forall j | 1 <= j < |sizes| ensures sizes[j] == sizes[1..][j - 1] {}
      }
    }
  }

  /** Every size of the list is twice the one before. */
  predicate Doubling(sizes: seq<nat>) {
    forall j :: 0 < j < |sizes| ==> sizes[j] == 2 * sizes[j - 1]
  }

  /** A doubling list is strictly increasing, so the loops try larger
      buffers only. */
  lemma {:induction false} DoublingIncreases(sizes: seq<nat>, i: nat, j: nat)
    requires i < j < |sizes|
    requires Doubling(sizes) && 0 < sizes[0]
    ensures sizes[i] < sizes[j]
    decreases j
  {
    if 0 < i {
      DoublingIncreases(sizes, 0, i);
    }
    if i + 1 < j {
      DoublingIncreases(sizes, i, j - 1);
    }
  }

  // ---------------------------------------------------------------------
  // struct group, seen from the caller's buffer
  // ---------------------------------------------------------------------

  /** A pointer field: NULL, or an address written as an offset from the
      start of the caller's buffer (negative before it). */
  datatype Ptr = Null | Addr(offset: int)

  /** A filled-in `struct group`: `gr_name`, `gr_passwd`, `gr_mem`, and the
      non-NULL values read from `gr_mem[0]`, `gr_mem[1]`, ... up to the NULL
      that ends the array. */
  datatype GroupView = GroupView(name: Ptr, passwd: Ptr, mem: Ptr, members: seq<int>)

  /** `buf <= p && p < buf + bufsize` */
  predicate InBuffer(p: int, bufsize: nat) {
    0 <= p < bufsize
  }

  /** A non-NULL pointer that lies outside the buffer. */
  predicate Outside(p: Ptr, bufsize: nat) {
    p.Addr? && !InBuffer(p.offset, bufsize)
  }

  /** The member count the programs compute by walking `gr_mem` up to NULL;
      0 when `gr_mem` itself is NULL. */
  function MemberCount(g: GroupView): nat {
    if g.mem.Null? then 0 else |g.members|
  }

  // ---------------------------------------------------------------------
  // size_t
  // ---------------------------------------------------------------------

  /** `size_t` on the 32-bit AIX target: arithmetic is modulo 2^32. */
  const SizeModulus: nat := 0x1_0000_0000

  /** `(size_t)v` */
  function SizeT(v: int): (r: nat)
    ensures r < SizeModulus
    ensures 0 <= v < SizeModulus ==> r == v
  {
    v % SizeModulus
  }

  /** `bufsize = (size_t)atoi(arg); if (bufsize < 32) bufsize = 32;`, as
      getgrent_test.c and getgrent_test_suite.c write it.  The clamp runs
      after the cast, so a negative argument wraps to a size near 2^32 and
      is not raised to 32. */
  function BufSizeArgAsWritten(arg: string): (b: nat)
    ensures 32 <= b < SizeModulus
    ensures 32 <= Atoi(arg) < SizeModulus ==> b == Atoi(arg)
    ensures 0 <= Atoi(arg) < 32 ==> b == 32
    ensures -(SizeModulus - 32) <= Atoi(arg) < 0 ==> b == SizeModulus + Atoi(arg)
  {
    var b := SizeT(Atoi(arg));
    if b < 32 then 32 else b
  }

  /** `-b` (and the buffer-size argument of getgrent_test_suite.c) as
      evidently intended: values below 32 (negative ones included)
      become 32. */
  function BufSizeArg(arg: string): (b: nat)
    ensures b >= 32
    ensures Atoi(arg) >= 32 ==> b == Atoi(arg)
  {
    var n := Atoi(arg);
    if n < 32 then 32 else n
  }

  /** On every non-negative argument the clamp as written and the corrected
      one agree; they differ only on negative ones. */
  lemma BufSizeArgAgrees(arg: string)
    requires 0 <= Atoi(arg) < SizeModulus
    ensures BufSizeArgAsWritten(arg) == BufSizeArg(arg)
  {
  }

  /** For every value `atoi` can return on a 32-bit `int`, the corrected
      size and the guarded total 64 + size + 256 fit in `size_t`. */
  lemma BufSizeArgFits(arg: string)
    requires -0x8000_0000 <= Atoi(arg) < 0x8000_0000
    ensures 320 + BufSizeArg(arg) < SizeModulus
    ensures SizeT(320 + BufSizeArg(arg)) == 320 + BufSizeArg(arg)
  {
  }
}
