/** A table of rows seen through a key: the dictionary that its rows make up. */
module Indexed {
  type Uuid = nat

  /** No two counted rows share a key. */
  ghost predicate UniqueKey<R, K(!new)>(rows: map<Uuid, R>, counts: R -> bool, key: R -> K) {
    forall u, w {:trigger key(rows[u]), key(rows[w])} ::
      u in rows && w in rows && counts(rows[u]) && counts(rows[w]) && key(rows[u]) == key(rows[w]) ==> u == w
  }

  /** `m` holds exactly the values of the counted rows, under their keys. */
  ghost predicate IsIndex<R, K(!new), V>(rows: map<Uuid, R>, counts: R -> bool, key: R -> K, val: (Uuid, R) -> V,
      m: map<K, V>) {
    && (forall u :: u in rows && counts(rows[u]) ==> key(rows[u]) in m && m[key(rows[u])] == val(u, rows[u]))
    && (forall k :: k in m ==> exists u :: u in rows && counts(rows[u]) && key(rows[u]) == k)
  }

  lemma IndexUnique<R, K(!new), V>(rows: map<Uuid, R>, counts: R -> bool, key: R -> K, val: (Uuid, R) -> V,
      m: map<K, V>, m': map<K, V>)
    requires IsIndex(rows, counts, key, val, m) && IsIndex(rows, counts, key, val, m')
    ensures m == m'
  {}

  /** Row `r` at `u` replaces the row with its key, or no row has its key. */
  ghost predicate Takes<R, K(!new)>(rows: map<Uuid, R>, counts: R -> bool, key: R -> K, u: Uuid, r: R) {
    && counts(r)
    && if u in rows then counts(rows[u]) && key(rows[u]) == key(r)
       else forall w :: w in rows && counts(rows[w]) ==> key(rows[w]) != key(r)
  }

  lemma UniquePut<R, K(!new)>(rows: map<Uuid, R>, counts: R -> bool, key: R -> K, u: Uuid, r: R)
    requires UniqueKey(rows, counts, key) && Takes(rows, counts, key, u, r)
    ensures UniqueKey(rows[u := r], counts, key)
  {}

  lemma IndexPut<R, K(!new), V>(rows: map<Uuid, R>, counts: R -> bool, key: R -> K, val: (Uuid, R) -> V, m: map<K, V>,
      u: Uuid, r: R)
    requires UniqueKey(rows, counts, key) && Takes(rows, counts, key, u, r)
    requires IsIndex(rows, counts, key, val, m)
    ensures IsIndex(rows[u := r], counts, key, val, m[key(r) := val(u, r)])
  {
    var rows' := rows[u := r];
    assert rows'[u] == r;
    assert forall w :: w in rows && counts(rows[w]) && w != u ==> key(rows[w]) != key(r);
    forall k | k in m && k != key(r) ensures exists w :: w in rows' && counts(rows'[w]) && key(rows'[w]) == k {
      var w :| w in rows && counts(rows[w]) && key(rows[w]) == k;
      assert rows'[w] == rows[w];
    }
  }

  /** `rows'` is `rows` without the counted rows of key `k`. */
  ghost predicate Without<R, K(!new)>(rows: map<Uuid, R>, counts: R -> bool, key: R -> K, k: K, rows': map<Uuid, R>) {
    && (forall u :: u in rows' ==> u in rows && rows'[u] == rows[u])
    && (forall u :: u in rows ==> (u in rows' <==> !(counts(rows[u]) && key(rows[u]) == k)))
  }

  lemma UniqueDelete<R, K(!new)>(rows: map<Uuid, R>, counts: R -> bool, key: R -> K, k: K, rows': map<Uuid, R>)
    requires UniqueKey(rows, counts, key) && Without(rows, counts, key, k, rows')
    ensures UniqueKey(rows', counts, key)
  {}

  lemma IndexDelete<R, K(!new), V>(rows: map<Uuid, R>, counts: R -> bool, key: R -> K, val: (Uuid, R) -> V,
      m: map<K, V>, k: K, rows': map<Uuid, R>)
    requires IsIndex(rows, counts, key, val, m) && Without(rows, counts, key, k, rows')
    ensures IsIndex(rows', counts, key, val, m - {k})
  {
    forall j | j in m - {k} ensures exists w :: w in rows' && counts(rows'[w]) && key(rows'[w]) == j {
      var w :| w in rows && counts(rows[w]) && key(rows[w]) == j;
      assert w in rows';
    }
  }

  lemma UniqueSame<R, K(!new)>(rows: map<Uuid, R>, counts: R -> bool, key: R -> K, key': R -> K)
    requires UniqueKey(rows, counts, key) && forall u :: u in rows ==> key'(rows[u]) == key(rows[u])
    ensures UniqueKey(rows, counts, key')
  {
    forall u, w | u in rows && w in rows && counts(rows[u]) && counts(rows[w]) && key'(rows[u]) == key'(rows[w])
      ensures u == w
    {
      assert key(rows[u]) == key(rows[w]);
    }
  }

  lemma IndexNewKey<R, K(!new), V>(rows: map<Uuid, R>, counts: R -> bool, key: R -> K, val: (Uuid, R) -> V,
      key': R -> K, m: map<K, V>)
    requires IsIndex(rows, counts, key, val, m)
    requires forall u {:trigger key(rows[u])} {:trigger key'(rows[u])} :: u in rows ==> key'(rows[u]) == key(rows[u])
    ensures IsIndex(rows, counts, key', val, m)
  {
    forall k | k in m ensures exists u :: u in rows && counts(rows[u]) && key'(rows[u]) == k {
      var u :| u in rows && counts(rows[u]) && key(rows[u]) == k;
      assert key'(rows[u]) == k;
    }
  }

  lemma IndexNewVal<R, K(!new), V>(rows: map<Uuid, R>, counts: R -> bool, key: R -> K, val: (Uuid, R) -> V,
      val': (Uuid, R) -> V, m: map<K, V>)
    requires IsIndex(rows, counts, key, val, m)
    requires forall u {:trigger val(u, rows[u])} {:trigger val'(u, rows[u])} :: u in rows ==>
      val'(u, rows[u]) == val(u, rows[u])
    ensures IsIndex(rows, counts, key, val', m)
  {}

  /** A present key is held by a row, and the other way around. */
  lemma IndexHas<R, K(!new), V>(rows: map<Uuid, R>, counts: R -> bool, key: R -> K, val: (Uuid, R) -> V, m: map<K, V>,
      k: K)
    requires IsIndex(rows, counts, key, val, m)
    ensures k in m <==> exists u :: u in rows && counts(rows[u]) && key(rows[u]) == k
  {}

  /** Rows that are not `mine` are the same in both tables. */
  ghost predicate RowsKept<R>(a: map<Uuid, R>, b: map<Uuid, R>, mine: R -> bool) {
    && (forall u :: u in a && !mine(a[u]) ==> u in b && b[u] == a[u])
    && (forall u :: u in b && !mine(b[u]) ==> u in a && a[u] == b[u])
  }

  lemma RowsKeptTrans<R(!new)>(a: map<Uuid, R>, b: map<Uuid, R>, c: map<Uuid, R>, mine: R -> bool, mine': R -> bool)
    requires RowsKept(a, b, mine) && RowsKept(b, c, mine') && forall r :: mine(r) ==> mine'(r)
    ensures RowsKept(a, c, mine')
  {}

  lemma RowsKeptRefl<R>(a: map<Uuid, R>, mine: R -> bool)
    ensures RowsKept(a, a, mine)
  {}

  lemma RowsKeptPut<R>(a: map<Uuid, R>, u: Uuid, r: R, mine: R -> bool)
    requires mine(r) && (u in a ==> mine(a[u]))
    ensures RowsKept(a, a[u := r], mine)
  {}

  lemma RowsKeptDelete<R>(a: map<Uuid, R>, b: map<Uuid, R>, mine: R -> bool)
    requires forall u :: u in b ==> u in a && b[u] == a[u]
    requires forall u :: u in a && u !in b ==> mine(a[u])
    ensures RowsKept(a, b, mine)
  {}

  lemma RowsKeptWeaken<R>(a: map<Uuid, R>, b: map<Uuid, R>, mine: R -> bool, mine': R -> bool)
    requires RowsKept(a, b, mine)
    requires forall u :: u in a && mine(a[u]) ==> mine'(a[u])
    requires forall u :: u in b && mine(b[u]) ==> mine'(b[u])
    ensures RowsKept(a, b, mine')
  {}

  lemma IndexSame<R, K(!new), V>(rows: map<Uuid, R>, rows': map<Uuid, R>, counts: R -> bool, key: R -> K,
      val: (Uuid, R) -> V, m: map<K, V>)
    requires IsIndex(rows, counts, key, val, m)
    requires forall u :: u in rows && counts(rows[u]) ==> u in rows' && rows'[u] == rows[u]
    requires forall u :: u in rows' && counts(rows'[u]) ==> u in rows && rows[u] == rows'[u]
    ensures IsIndex(rows', counts, key, val, m)
  {
    forall k | k in m ensures exists u :: u in rows' && counts(rows'[u]) && key(rows'[u]) == k {
      var u :| u in rows && counts(rows[u]) && key(rows[u]) == k;
      assert u in rows';
    }
  }

  lemma RowsKeptWiden<R(!new)>(a: map<Uuid, R>, b: map<Uuid, R>, mine: R -> bool, mine': R -> bool)
    requires RowsKept(a, b, mine) && forall r :: mine(r) ==> mine'(r)
    ensures RowsKept(a, b, mine')
  {}

  /** Values may change at row `u` alone: the index changes at that row's key alone. */
  lemma IndexReplace<R, K(!new), V>(rows: map<Uuid, R>, counts: R -> bool, key: R -> K, val: (Uuid, R) -> V,
      val': (Uuid, R) -> V, m: map<K, V>, u: Uuid)
    requires IsIndex(rows, counts, key, val, m) && UniqueKey(rows, counts, key) && u in rows && counts(rows[u])
    requires forall w :: w in rows && w != u ==> val'(w, rows[w]) == val(w, rows[w])
    ensures IsIndex(rows, counts, key, val', m[key(rows[u]) := val'(u, rows[u])])
  {}

  lemma UniqueSubset<R, K(!new)>(rows: map<Uuid, R>, rows': map<Uuid, R>, counts: R -> bool, key: R -> K)
    requires UniqueKey(rows, counts, key)
    requires forall u :: u in rows' ==> u in rows && rows'[u] == rows[u]
    ensures UniqueKey(rows', counts, key)
  {}
}
