/** Sizes of sets, and identifiers that a table does not use yet. */
module Sets {
  lemma {:induction false} SubsetSize<T>(a: set<T>, b: set<T>)
    requires a <= b
    ensures |a| <= |b|
  {
    if a != {} {
      var x :| x in a;
      SubsetSize(a - {x}, b - {x});
    }
  }

  lemma FreshExists(s: set<nat>) returns (u: nat)
    ensures forall x :: x in s ==> x < u
  {
    u := 0;
    if s != {} {
      var x :| x in s;
      var w := FreshExists(s - {x});
      u := if x < w then w else x + 1;
      assert forall y :: y in s ==> y == x || y in s - {x};
    }
  }

  /** A new identifier: any value the table does not use. */
  method Fresh<R>(rows: map<nat, R>) returns (u: nat)
    ensures u !in rows
  {
    ghost var w := FreshExists(rows.Keys);
    assert w !in rows;
    u :| u !in rows;
  }
}
