/** Keyed writes of a batch of rows into a table (a finite map from primary
    key to row): `INSERT … ON CONFLICT DO UPDATE` over a list (`PutEach`),
    and plain `INSERT` over a list inside a transaction, which fails on the
    first key that is already present (`InsertEach`). */
module Keyed {

  /** Index of the last item whose key is `k`, or -1. */
  function LastIndex<K(==), I>(items: seq<I>, key: I -> K, k: K): (r: int)
    ensures -1 <= r < |items|
    ensures r >= 0 ==> key(items[r]) == k
    ensures forall j :: r < j < |items| ==> key(items[j]) != k
    ensures r < 0 ==> forall j :: 0 <= j < |items| ==> key(items[j]) != k
  {
    if items == [] then -1
    else if key(items[|items| - 1]) == k then |items| - 1
    else LastIndex(items[..|items| - 1], key, k)
  }

  /** The last item of `a + b` with key `k` is the last one in `b`, or when
      `b` has none, the last one in `a`. */
  lemma {:induction false} LastIndexConcat<K, I>(a: seq<I>, b: seq<I>, key: I -> K, k: K)
    ensures LastIndex(a + b, key, k)
            == if LastIndex(b, key, k) >= 0 then |a| + LastIndex(b, key, k) else LastIndex(a, key, k)
  {
    if b == [] {
      assert a + b == a;
    } else {
      assert (a + b)[..|a + b| - 1] == a + b[..|b| - 1];
      LastIndexConcat(a, b[..|b| - 1], key, k);
    }
  }

  /** The table after writing `items` in list order, each overwriting the
      row with the same key. */
  function PutAll<K, V, I>(m: map<K, V>, items: seq<I>, key: I -> K, val: I -> V): map<K, V>
  {
    if items == [] then m
    else PutAll(m, items[..|items| - 1], key, val)[key(items[|items| - 1]) := val(items[|items| - 1])]
  }

  /** After a batch of upserts the last item written for a key wins; a key no
      item names keeps its row, or stays absent. */
  lemma {:induction false} PutAllAt<K, V, I>(m: map<K, V>, items: seq<I>, key: I -> K, val: I -> V, k: K)
    ensures var r := PutAll(m, items, key, val);
            var j := LastIndex(items, key, k);
            if j >= 0 then k in r && r[k] == val(items[j])
            else (k in r <==> k in m) && (k in m ==> r[k] == m[k])
  {
    if items != [] {
      PutAllAt(m, items[..|items| - 1], key, val, k);
    }
  }

  /** Writing `a + b` is writing `a`, then `b`. */
  lemma {:induction false} PutAllConcat<K, V, I>(m: map<K, V>, a: seq<I>, b: seq<I>, key: I -> K, val: I -> V)
    ensures PutAll(m, a + b, key, val) == PutAll(PutAll(m, a, key, val), b, key, val)
  {
    if b == [] {
      assert a + b == a;
    } else {
      assert (a + b)[..|a + b| - 1] == a + b[..|b| - 1];
      PutAllConcat(m, a, b[..|b| - 1], key, val);
    }
  }

  /** No item's key is in `m` and no two items share a key. */
  ghost predicate FreshKeys<K, V, I>(m: map<K, V>, items: seq<I>, key: I -> K) {
    && (forall i :: 0 <= i < |items| ==> key(items[i]) !in m)
    && (forall i, j :: 0 <= i < j < |items| ==> key(items[i]) != key(items[j]))
  }

  /** Upserts `items` one after the other. */
  method PutEach<K, V, I>(m: map<K, V>, items: seq<I>, key: I -> K, val: I -> V) returns (r: map<K, V>)
    ensures r == PutAll(m, items, key, val)
  {
    r := m;
    var i := 0;
    while i < |items|
      invariant 0 <= i <= |items|
      invariant r == PutAll(m, items[..i], key, val)
    {
      assert items[..i + 1][..i] == items[..i];
      r := r[key(items[i]) := val(items[i])];
      i := i + 1;
    }
    assert items[..i] == items;
  }

  /** The state of `InsertEach` after the first `i` items went in. */
  ghost predicate Inserted<K, V, I>(m: map<K, V>, items: seq<I>, key: I -> K, val: I -> V, i: nat, r: map<K, V>) {
    && i <= |items|
    && r == PutAll(m, items[..i], key, val)
    && FreshKeys(m, items[..i], key)
    && r.Keys == m.Keys + set j | 0 <= j < i :: key(items[j])
  }

  lemma InsertNext<K, V, I>(m: map<K, V>, items: seq<I>, key: I -> K, val: I -> V, i: nat, r: map<K, V>)
    requires Inserted(m, items, key, val, i, r) && i < |items| && key(items[i]) !in r
    ensures Inserted(m, items, key, val, i + 1, r[key(items[i]) := val(items[i])])
  {
    assert items[..i + 1][..i] == items[..i];
    forall j | 0 <= j < i ensures key(items[j]) != key(items[i]) {
      assert key(items[j]) in r;
    }
  }

  lemma InsertClash<K, V, I>(m: map<K, V>, items: seq<I>, key: I -> K, val: I -> V, i: nat, r: map<K, V>)
    requires Inserted(m, items, key, val, i, r) && i < |items| && key(items[i]) in r
    ensures !FreshKeys(m, items, key)
  {
    var k := key(items[i]);
    if k !in m {
      var j :| 0 <= j < i && key(items[j]) == k;
      assert key(items[j]) == key(items[i]);
    }
  }

  /** Inserts `items` one after the other; the first key already present
      makes the insert fail (`ok` false) and the partial table is dropped. */
  method InsertEach<K(==), V, I>(m: map<K, V>, items: seq<I>, key: I -> K, val: I -> V)
    returns (ok: bool, r: map<K, V>)
    ensures ok <==> FreshKeys(m, items, key)
    ensures ok ==> r == PutAll(m, items, key, val)
  {
    r := m;
    var i := 0;
    assert items[..0] == [];
    while i < |items|
      invariant Inserted(m, items, key, val, i, r)
    {
      if key(items[i]) in r {
        InsertClash(m, items, key, val, i, r);
        return false, r;
      }
      InsertNext(m, items, key, val, i, r);
      r := r[key(items[i]) := val(items[i])];
      i := i + 1;
    }
    assert items[..i] == items;
    ok := true;
  }
}
