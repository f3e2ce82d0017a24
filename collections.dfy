/**
 * Python's ordered dictionaries (insertion-ordered association lists with
 * distinct keys) and `sorted(...)` of a set of strings.
 */
module Collections {
  import opened Text

  // ---------------------------------------------------------------------
  // Dictionaries keyed by strings
  // ---------------------------------------------------------------------

  /** A Python `dict` with string keys: entries in insertion order. */
  type Dict<V> = seq<(string, V)>

  function Keys<V>(d: Dict<V>): (r: seq<string>)
    ensures |r| == |d|
    ensures forall i :: 0 <= i < |d| ==> r[i] == d[i].0
  {
    seq(|d|, i requires 0 <= i < |d| => d[i].0)
  }

  predicate Distinct<T(==)>(s: seq<T>) {
    forall i, j :: 0 <= i < j < |s| ==> s[i] != s[j]
  }

  predicate HasKey<V>(d: Dict<V>, k: string) {
    k in Keys(d)
  }

  /** `d.get(k)`: the value of the first entry with key `k`. */
  function Get<V>(d: Dict<V>, k: string): Option<V> {
    if d == [] then None
    else if d[0].0 == k then Some(d[0].1)
    else Get(d[1..], k)
  }

  /** A lookup finds a value exactly when the key is present, and the value found is stored under that key. */
  lemma {:induction false} GetFound<V>(d: Dict<V>, k: string)
    ensures Get(d, k).None? <==> !HasKey(d, k)
    ensures Get(d, k).Some? ==> (k, Get(d, k).value) in d
  {
    if d == [] {
      assert Keys(d) == [];
    } else if d[0].0 == k {
      assert Keys(d)[0] == k;
    } else {
      var t := d[1..];
      GetFound(t, k);
      KeysCons(d[0], t);
      assert d == [d[0]] + t;
      assert HasKey(d, k) == HasKey(t, k);
      assert Get(d, k) == Get(t, k);
      if Get(t, k).Some? {
        assert (k, Get(t, k).value) in t;
      }
    }
  }

  /** Python's `==` on two dicts: every key of either has the same value in
      both, whatever the order of the entries. */
  predicate SameDict<V(==)>(a: Dict<V>, b: Dict<V>) {
    && (forall i :: 0 <= i < |a| ==> Get(b, a[i].0) == Get(a, a[i].0))
    && (forall j :: 0 <= j < |b| ==> Get(a, b[j].0) == Get(b, b[j].0))
  }

  /** Two dicts are equal exactly when every lookup agrees. */
  lemma SameDictMeaning<V>(a: Dict<V>, b: Dict<V>)
    ensures SameDict(a, b) <==> forall k :: Get(a, k) == Get(b, k)
  {
    if SameDict(a, b) {
      forall k
        ensures Get(a, k) == Get(b, k)
      {
        GetFound(a, k);
        GetFound(b, k);
        if Get(a, k).Some? {
          var i :| 0 <= i < |a| && a[i] == (k, Get(a, k).value);
          assert Get(b, a[i].0) == Get(a, a[i].0);
        }
      }
    } else if exists i :: 0 <= i < |a| && Get(b, a[i].0) != Get(a, a[i].0) {
      var i :| 0 <= i < |a| && Get(b, a[i].0) != Get(a, a[i].0);
      assert Get(a, a[i].0) != Get(b, a[i].0);
    } else {
      var j :| 0 <= j < |b| && Get(a, b[j].0) != Get(b, b[j].0);
      assert Get(a, b[j].0) != Get(b, b[j].0);
    }
  }

  /** `d[k] = v`: an existing key keeps its position, a new key goes last. */
  function Put<V>(d: Dict<V>, k: string, v: V): Dict<V>
  {
    if d == [] then [(k, v)]
    else if d[0].0 == k then [(k, v)] + d[1..]
    else [d[0]] + Put(d[1..], k, v)
  }

  /** Assigning keeps the order of the keys and adds a new key at the end. */
  lemma {:induction false} PutKeys<V>(d: Dict<V>, k: string, v: V)
    ensures Keys(Put(d, k, v)) == if HasKey(d, k) then Keys(d) else Keys(d) + [k]
  {
    if d == [] {
      assert Keys([(k, v)]) == [k];
    } else if d[0].0 == k {
      KeysCons(d[0], d[1..]);
      KeysCons((k, v), d[1..]);
      assert d == [d[0]] + d[1..];
    } else {
      PutKeys(d[1..], k, v);
      KeysCons(d[0], d[1..]);
      KeysCons(d[0], Put(d[1..], k, v));
      assert d == [d[0]] + d[1..];
      assert HasKey(d, k) == HasKey(d[1..], k);
    }
  }

  lemma KeysCons<V>(e: (string, V), t: Dict<V>)
    ensures Keys([e] + t) == [e.0] + Keys(t)
  {
  }

  lemma {:induction false} PutAbsent<V>(d: Dict<V>, k: string, v: V)
    requires !HasKey(d, k)
    ensures Put(d, k, v) == d + [(k, v)]
  {
    if d != [] {
      PutAbsent(d[1..], k, v);
    }
  }

  /** A non-empty sequence is its prefix followed by its last element. */
  lemma SplitLast<T>(s: seq<T>)
    requires s != []
    ensures s[..|s| - 1] + [s[|s| - 1]] == s
  {
  }

  /** A prefix one longer is the shorter prefix followed by one element. */
  lemma TakeOneMore<T>(s: seq<T>, n: nat)
    requires 0 < n <= |s|
    ensures s[..n] == s[..n - 1] + [s[n - 1]]
  {
  }

  /** The last key of a dictionary does not occur before it. */
  lemma LastKeyFresh<V>(d: Dict<V>)
    requires d != [] && Distinct(Keys(d))
    ensures !HasKey(d[..|d| - 1], d[|d| - 1].0)
    ensures Distinct(Keys(d[..|d| - 1]))
  {
    var init := d[..|d| - 1];
    assert Keys(init) == Keys(d)[..|d| - 1];
  }

  lemma {:induction false} PutGet<V>(d: Dict<V>, k: string, v: V, k': string)
    ensures Get(Put(d, k, v), k') == if k' == k then Some(v) else Get(d, k')
  {
    if d != [] && d[0].0 != k {
      PutGet(d[1..], k, v, k');
    }
  }

  /** The dictionary without key `k` (`{x: v for x, v in d.items() if x != k}`). */
  function Remove<V>(d: Dict<V>, k: string): (r: Dict<V>)
    ensures !HasKey(r, k)
    ensures forall i :: 0 <= i < |r| ==> r[i] in d
  {
    if d == [] then []
    else if d[0].0 == k then Remove(d[1..], k)
    else [d[0]] + Remove(d[1..], k)
  }

  lemma {:induction false} RemoveGet<V>(d: Dict<V>, k: string, k': string)
    requires k' != k
    ensures Get(Remove(d, k), k') == Get(d, k')
  {
    if d != [] {
      RemoveGet(d[1..], k, k');
    }
  }

  /** Every entry of `Put(d, k, v)` is `(k, v)` or an entry of `d`. */
  lemma {:induction false} PutEntries<V>(d: Dict<V>, k: string, v: V)
    ensures forall i :: 0 <= i < |Put(d, k, v)| ==> Put(d, k, v)[i] == (k, v) || Put(d, k, v)[i] in d
  {
    if d != [] && d[0].0 != k {
      PutEntries(d[1..], k, v);
      var t := Put(d[1..], k, v);
      assert Put(d, k, v) == [d[0]] + t;
      forall i | 0 <= i < |t| ensures t[i] == (k, v) || t[i] in d {
        if t[i] != (k, v) { assert t[i] in d[1..]; }
      }
    }
  }

  lemma PutKeepsDistinct<V>(d: Dict<V>, k: string, v: V)
    requires Distinct(Keys(d))
    ensures Distinct(Keys(Put(d, k, v)))
  {
    PutKeys(d, k, v);
  }

  /** Python's `set(s)`. */
  function Elements(s: seq<string>): set<string> {
    set x | x in s
  }

  /** A list without repetitions has as many elements as its set. */
  lemma {:induction false} DistinctCardinality(s: seq<string>)
    requires Distinct(s)
    ensures |Elements(s)| == |s|
  {
    if s != [] {
      var init := s[..|s| - 1];
      assert Distinct(init);
      DistinctCardinality(init);
      SplitLast(s);
      assert Elements(s) == Elements(init) + {s[|s| - 1]};
    }
  }

  /** The names `exclude` does not mention, in order. */
  function Without(names: seq<string>, exclude: seq<string>): seq<string> {
    if names == [] then []
    else
      Without(names[..|names| - 1], exclude)
      + (if names[|names| - 1] in exclude then [] else [names[|names| - 1]])
  }

  lemma {:induction false} WithoutMeaning(names: seq<string>, exclude: seq<string>)
    ensures forall x :: x in Without(names, exclude) <==> x in names && x !in exclude
    ensures Distinct(names) ==> Distinct(Without(names, exclude))
  {
    if names != [] {
      var init := names[..|names| - 1];
      WithoutMeaning(init, exclude);
      SplitLast(names);
      if Distinct(names) {
        assert Distinct(init);
        assert names[|names| - 1] !in init;
      }
    }
  }

  /** The dictionary `base` after `d[k] = v` for each key `k` of `keys[..n]` in
      turn for which `f(k)` yields a value `v`. */
  function Gather<V>(keys: seq<string>, n: nat, f: string -> Option<V>, base: Dict<V>): Dict<V>
    requires n <= |keys|
  {
    if n == 0 then base
    else
      var prior := Gather(keys, n - 1, f, base);
      var k := keys[n - 1];
      if f(k).Some? then Put(prior, k, f(k).value) else prior
  }

  /** A gathered key maps to what `f` yields for it; every other key keeps its value in `base`. */
  lemma {:induction false} GatherGet<V>(keys: seq<string>, n: nat, f: string -> Option<V>, base: Dict<V>, k: string)
    requires n <= |keys|
    ensures k in keys[..n] && f(k).Some? ==> Get(Gather(keys, n, f, base), k) == f(k)
    ensures !(k in keys[..n] && f(k).Some?) ==> Get(Gather(keys, n, f, base), k) == Get(base, k)
  {
    if n == 0 {
      assert keys[..n] == [];
    } else {
      var prior := Gather(keys, n - 1, f, base);
      var k' := keys[n - 1];
      var g := Gather(keys, n, f, base);
      GatherGet(keys, n - 1, f, base, k);
      TakeOneMore(keys, n);
      if f(k').Some? {
        assert g == Put(prior, k', f(k').value);
        PutGet(prior, k', f(k').value, k);
      } else {
        assert g == prior;
      }
    }
  }

  /** One more key gathered. */
  lemma GatherStep<V>(keys: seq<string>, n: nat, f: string -> Option<V>, base: Dict<V>)
    requires n < |keys|
    ensures Gather(keys, n + 1, f, base)
      == if f(keys[n]).Some? then Put(Gather(keys, n, f, base), keys[n], f(keys[n]).value) else Gather(keys, n, f, base)
  {
  }

  lemma PutNonEmpty<V>(d: Dict<V>, k: string, v: V)
    ensures Put(d, k, v) != []
  {
  }

  /** When `f` yields nothing for any key, gathering leaves `base` as it was. */
  lemma {:induction false} GatherNothing<V>(keys: seq<string>, n: nat, f: string -> Option<V>, base: Dict<V>)
    requires n <= |keys|
    requires forall i :: 0 <= i < n ==> f(keys[i]).None?
    ensures Gather(keys, n, f, base) == base
  {
    if n > 0 {
      GatherNothing(keys, n - 1, f, base);
    }
  }

  // ---------------------------------------------------------------------
  // Python string order and sorted sets
  // ---------------------------------------------------------------------

  /** Python's `a < b` on strings: lexicographic by code point. */
  predicate Below(a: string, b: string)
    decreases |a|
  {
    b != [] && (a == [] || a[0] < b[0] || (a[0] == b[0] && Below(a[1..], b[1..])))
  }

  lemma {:induction false} BelowIrreflexive(a: string)
    ensures !Below(a, a)
  {
    if a != [] { BelowIrreflexive(a[1..]); }
  }

  lemma {:induction false} BelowTransitive(a: string, b: string, c: string)
    requires Below(a, b) && Below(b, c)
    ensures Below(a, c)
    decreases |a|
  {
    if a != [] && a[0] == b[0] && b[0] == c[0] {
      BelowTransitive(a[1..], b[1..], c[1..]);
    }
  }

  lemma {:induction false} BelowTotal(a: string, b: string)
    requires a != b
    ensures Below(a, b) || Below(b, a)
    decreases |a|
  {
    if a != [] && b != [] && a[0] == b[0] {
      assert a == [a[0]] + a[1..] && b == [b[0]] + b[1..];
      BelowTotal(a[1..], b[1..]);
    }
  }

  predicate StrictlySorted(s: seq<string>) {
    forall i, j :: 0 <= i < j < |s| ==> Below(s[i], s[j])
  }

  /** Inserts `x` into a strictly sorted sequence unless it is already there. */
  function InsertUnique(x: string, s: seq<string>): seq<string> {
    if s == [] then [x]
    else if x == s[0] then s
    else if Below(x, s[0]) then [x] + s
    else [s[0]] + InsertUnique(x, s[1..])
  }

  lemma {:induction false} InsertUniqueCorrect(x: string, s: seq<string>)
    requires StrictlySorted(s)
    ensures StrictlySorted(InsertUnique(x, s))
    ensures forall y :: y in InsertUnique(x, s) <==> y in s || y == x
  {
    if s == [] || x == s[0] {
    } else if Below(x, s[0]) {
      forall j | 0 < j < |s| ensures Below(x, s[j]) { BelowTransitive(x, s[0], s[j]); }
    } else {
      BelowTotal(x, s[0]);
      var t := InsertUnique(x, s[1..]);
      InsertUniqueCorrect(x, s[1..]);
      forall j | 0 <= j < |t| ensures Below(s[0], t[j]) {
        assert t[j] in s[1..] || t[j] == x;
      }
      assert forall y :: y in s <==> y == s[0] || y in s[1..] by {
        assert s == [s[0]] + s[1..];
      }
    }
  }

  /** Python's `sorted(set(s))`. */
  function SortedSet(s: seq<string>): seq<string> {
    if s == [] then [] else InsertUnique(s[|s| - 1], SortedSet(s[..|s| - 1]))
  }

  lemma {:induction false} SortedSetCorrect(s: seq<string>)
    ensures StrictlySorted(SortedSet(s))
    ensures forall x :: x in SortedSet(s) <==> x in s
  {
    if s != [] {
      var init := s[..|s| - 1];
      SortedSetCorrect(init);
      InsertUniqueCorrect(s[|s| - 1], SortedSet(init));
      assert s == init + [s[|s| - 1]];
    }
  }

  lemma StrictlySortedDistinct(s: seq<string>)
    requires StrictlySorted(s)
    ensures Distinct(s)
  {
    forall i, j | 0 <= i < j < |s| ensures s[i] != s[j] {
      if s[i] == s[j] { BelowIrreflexive(s[i]); }
    }
  }
}
