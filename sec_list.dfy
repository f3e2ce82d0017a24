/**
 * The AIX SEC_LIST format that getgrent_test_suite.c and
 * create_test_groups.c hand to `putgroupattr(..., S_USERS, ..., SEC_LIST)`:
 * every string followed by a NUL, and one more NUL after the last
 * ("user1\0user2\0\0").
 */
module SecList {
  import opened Text

  const NUL: char := 0 as char

  /** A string C can store in the list: non-empty and without NUL (an empty
      one would read as the terminator). */
  predicate ValidName(name: string) {
    |name| > 0 && NUL !in name
  }

  /** The strings, each followed by its NUL, without the final NUL. */
  function Entries(names: seq<string>): (r: seq<char>)
    ensures |r| == EntriesLength(names)
  {
    if names == [] then [] else Entries(names[..|names| - 1]) + names[|names| - 1] + [NUL]
  }

  /** `sum(strlen(name) + 1)`: the sizing pass. */
  function EntriesLength(names: seq<string>): nat {
    if names == [] then 0 else EntriesLength(names[..|names| - 1]) + |names[|names| - 1]| + 1
  }

  /** The whole list, double NUL included. */
  function Encode(names: seq<string>): (r: seq<char>)
    ensures |r| == EntriesLength(names) + 1 && r[|r| - 1] == NUL
  {
    Entries(names) + [NUL]
  }

  lemma {:induction false} EntriesAppend(a: seq<string>, b: seq<string>)
    ensures Entries(a + b) == Entries(a) + Entries(b)
    decreases |b|
  {
    if b == [] {
      assert a + b == a;
    } else {
      var b' := b[..|b| - 1];
      assert (a + b)[..|a + b| - 1] == a + b';
      EntriesAppend(a, b');
    }
  }

  /** The number of characters before the first NUL (`strlen`); `|s|` when
      there is none. */
  function StrLen(s: seq<char>): (k: nat)
    ensures k <= |s|
    ensures forall i :: 0 <= i < k ==> s[i] != NUL
    ensures k < |s| ==> s[k] == NUL
  {
    if s == [] || s[0] == NUL then 0 else 1 + StrLen(s[1..])
  }

  /** The strings a reader walking `p += strlen(p) + 1` sees before the empty
      string.  A list with no terminating NUL ends the walk at its end. */
  function Decode(list: seq<char>): (names: seq<string>)
    ensures forall i :: 0 <= i < |names| ==> ValidName(names[i])
    decreases |list|
  {
    if list == [] || list[0] == NUL then []
    else
      var k := StrLen(list);
      if k == |list| then [list]
      else [list[..k]] + Decode(list[k + 1..])
  }

  /** Reading back a list gives the strings it was built from. */
  lemma {:induction false} DecodeEncode(names: seq<string>)
    requires forall i :: 0 <= i < |names| ==> ValidName(names[i])
    ensures Decode(Encode(names)) == names
  {
    if names != [] {
      var first, rest := names[0], names[1..];
      EntriesAppend([first], rest);
      assert [first] + rest == names;
      assert Entries([first]) == first + [NUL] by {
        assert [first][..0] == [];
      }
      var list := Encode(names);
      assert list == first + [NUL] + Encode(rest);
      StrLenOfName(first, Encode(rest));
      assert list[|first| + 1..] == Encode(rest);
      assert list[..|first|] == first;
      DecodeEncode(rest);
    }
  }

  lemma {:induction false} StrLenOfName(name: string, rest: seq<char>)
    requires NUL !in name
    ensures StrLen(name + [NUL] + rest) == |name|
  {
    if name != [] {
      assert (name + [NUL] + rest)[1..] == name[1..] + [NUL] + rest;
      StrLenOfName(name[1..], rest);
    }
  }

  /** `strcpy(a + p, name)`: the name and its NUL. */
  method CopyName(a: array<char>, p: nat, name: string)
    requires p + |name| + 1 <= a.Length
    modifies a
    ensures a[p..p + |name| + 1] == name + [NUL]
    ensures forall k :: 0 <= k < a.Length && !(p <= k < p + |name| + 1) ==> a[k] == old(a[k])
  {
    for j := 0 to |name|
      invariant forall k :: p <= k < p + j ==> a[k] == name[k - p]
      invariant forall k :: 0 <= k < a.Length && !(p <= k < p + j) ==> a[k] == old(a[k])
    {
      a[p + j] := name[j];
    }
    a[p + |name|] := NUL;
  }

  /** One step of a writer: appending a name at `p` extends the written
      prefix by that name's entry. */
  lemma EntriesStep(a: seq<char>, p: nat, names: seq<string>, i: nat)
    requires i < |names| && p == EntriesLength(names[..i]) && p + |names[i]| + 1 <= |a|
    requires a[..p] == Entries(names[..i]) && a[p..p + |names[i]| + 1] == names[i] + [NUL]
    ensures a[..p + |names[i]| + 1] == Entries(names[..i + 1])
  {
    assert names[..i + 1][..i] == names[..i];
    assert a[..p + |names[i]| + 1] == a[..p] + a[p..p + |names[i]| + 1];
  }

  lemma {:induction false} EntriesLengthPrefix(names: seq<string>, i: nat)
    requires i <= |names|
    ensures EntriesLength(names[..i]) <= EntriesLength(names)
  {
    if i < |names| {
      var n := |names|;
      assert names[..n - 1][..i] == names[..i];
      EntriesLengthPrefix(names[..n - 1], i);
    } else {
      assert names[..i] == names;
    }
  }

  /** `%04d` never yields a NUL, so a name built from a C string prefix and
      a number is a valid list entry. */
  lemma Pad4Valid(prefix: string, i: int, limit: nat)
    requires NUL !in prefix && limit >= 4
    ensures ValidName(Truncate(prefix + Pad4(i), limit))
  {
    var digits := NatToString(if i < 0 then -i else i);
    ZeroPadDigits(digits, if i < 0 then 3 else 4);
    var s := prefix + Pad4(i);
    assert NUL !in Pad4(i) by {
      if i < 0 {
        assert Pad4(i) == "-" + ZeroPad(digits, 3);
      }
    }
    var r := Truncate(s, limit);
    assert forall k :: 0 <= k < |r| ==> r[k] == s[k];
  }

  /** One `strcpy` of the writing pass. */
  method WriteEntry(list: array<char>, p: nat, ghost names: seq<string>, ghost i: nat, name: string)
    requires i < |names| && name == names[i]
    requires p == EntriesLength(names[..i]) && p + |name| + 1 < list.Length
    requires list[..p] == Entries(names[..i])
    modifies list
    ensures list[..p + |name| + 1] == Entries(names[..i + 1])
  {
    assert names[..i + 1][..i] == names[..i];
    ghost var before := list[..];
    CopyName(list, p, name);
    assert list[..p] == before[..p];
    EntriesStep(list[..], p, names, i);
  }

  /** `strcpy(ptr, name); ptr += strlen(name) + 1;` in a buffer sized for
      the whole list. */
  method AppendEntry(list: array<char>, p: nat, ghost names: seq<string>, ghost i: nat, name: string) returns (q: nat)
    requires i < |names| && name == names[i]
    requires p == EntriesLength(names[..i]) && p <= EntriesLength(names) < list.Length
    requires list[..p] == Entries(names[..i])
    modifies list
    ensures q == EntriesLength(names[..i + 1]) && q < list.Length
    ensures list[..q] == Entries(names[..i + 1])
  {
    EntriesLengthPrefix(names, i + 1);
    assert names[..i + 1][..i] == names[..i];
    WriteEntry(list, p, names, i, name);
    q := p + |name| + 1;
  }

  /** `*p = '\0'`: the final NUL closes the list. */
  method Terminate(list: array<char>, p: nat, ghost names: seq<string>)
    requires p < list.Length && list[..p] == Entries(names)
    modifies list
    ensures list[..p + 1] == Encode(names)
  {
    list[p] := NUL;
    assert list[..p + 1] == list[..p] + [list[p]];
  }

  /** Names of at most `k` characters take at most `k + 1` bytes each. */
  lemma {:induction false} EntriesLengthBound(names: seq<string>, k: nat)
    requires forall i :: 0 <= i < |names| ==> |names[i]| <= k
    ensures EntriesLength(names) <= |names| * (k + 1)
  {
    if names != [] {
      var init := names[..|names| - 1];
      assert forall i :: 0 <= i < |init| ==> init[i] == names[i];
      EntriesLengthBound(init, k);
    }
  }
}
