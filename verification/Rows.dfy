/** Desired-state rows of the application database: the shared upsert, delete and replace loops
    (app/api/voice_features.py:60-83, 272-287, app/api/provisioning.py:67-97). */
module Rows {
  import opened Indexed
  import opened Sets

  /** A row of one feature table; `domain` is its voice_domain_id. */
  datatype Row<+F> = Row(domain: Uuid, number: string, fields: F)

  ghost predicate RowsOk<F>(rows: map<Uuid, Row<F>>) {
    forall u, w {:trigger rows[u].number, rows[w].number} ::
      u in rows && w in rows && rows[u].domain == rows[w].domain && rows[u].number == rows[w].number ==> u == w
  }

  /** The rows of domain `d`, by number. */
  function Table<F>(rows: map<Uuid, Row<F>>, d: Uuid): map<string, F>
    requires RowsOk(rows)
  {
    map u | u in rows && rows[u].domain == d :: rows[u].number := rows[u].fields
  }

  function OfTable<F>(d: Uuid): Row<F> -> bool { (r: Row<F>) => r.domain == d }
  function NumberOf<F>(): Row<F> -> string { (r: Row<F>) => r.number }
  function FieldsOf<F>(): (Uuid, Row<F>) -> F { (u: Uuid, r: Row<F>) => r.fields }

  lemma TableHas<F>(rows: map<Uuid, Row<F>>, d: Uuid)
    requires RowsOk(rows)
    ensures IsIndex(rows, OfTable(d), NumberOf(), FieldsOf(), Table(rows, d)) && UniqueKey(rows, OfTable(d), NumberOf())
  {}

  // A map that holds the rows of `d` and nothing else is the table.
  lemma TableIs<F>(rows: map<Uuid, Row<F>>, d: Uuid, m: map<string, F>)
    requires RowsOk(rows) && IsIndex(rows, OfTable(d), NumberOf(), FieldsOf(), m)
    ensures Table(rows, d) == m
  {
    TableHas(rows, d);
    IndexUnique(rows, OfTable(d), NumberOf(), FieldsOf(), m, Table(rows, d));
    hide RowsOk, Table, IsIndex;
  }

  lemma NoRows<F>(rows: map<Uuid, Row<F>>, d: Uuid)
    requires RowsOk(rows)
    ensures Table(rows, d) == map[] <==> forall u :: u in rows ==> rows[u].domain != d
    ensures Table(rows, d).Keys == {} <==> forall u :: u in rows ==> rows[u].domain != d
  {
    TableHas(rows, d);
    hide RowsOk, Table, UniqueKey;
    var m := Table(rows, d);
    forall u | u in rows && rows[u].domain == d ensures rows[u].number in m {
      assert OfTable(d)(rows[u]) && NumberOf()(rows[u]) == rows[u].number;
    }
    if m.Keys == {} {
      assert m == map[];
    }
    if forall u :: u in rows ==> rows[u].domain != d {
      assert m == map[];
    }
  }

  lemma TableSame<F>(rows: map<Uuid, Row<F>>, rows': map<Uuid, Row<F>>, e: Uuid)
    requires RowsOk(rows) && RowsOk(rows')
    requires forall u :: u in rows && rows[u].domain == e ==> u in rows' && rows'[u] == rows[u]
    requires forall u :: u in rows' && rows'[u].domain == e ==> u in rows && rows[u] == rows'[u]
    ensures Table(rows', e) == Table(rows, e)
  {
    TableHas(rows, e);
    hide RowsOk, Table, UniqueKey;
    IndexSame(rows, rows', OfTable(e), NumberOf(), FieldsOf(), Table(rows, e));
    TableIs(rows', e, Table(rows, e));
  }

  /** Row `r` replaces the row of its domain and number, or there was none. */
  ghost predicate Fits<F>(rows: map<Uuid, Row<F>>, u: Uuid, r: Row<F>) {
    if u in rows then rows[u].domain == r.domain && rows[u].number == r.number
    else forall w :: w in rows ==> !(rows[w].domain == r.domain && rows[w].number == r.number)
  }

  lemma TablePut<F>(rows: map<Uuid, Row<F>>, u: Uuid, r: Row<F>)
    requires RowsOk(rows) && Fits(rows, u, r)
    ensures RowsOk(rows[u := r])
    ensures Table(rows[u := r], r.domain) == Table(rows, r.domain)[r.number := r.fields]
    ensures forall e :: e != r.domain ==> Table(rows[u := r], e) == Table(rows, e)
  {
    PutOk(rows, u, r);
    PutInto(rows, u, r);
    hide RowsOk, Table, Fits;
    forall e | e != r.domain ensures Table(rows[u := r], e) == Table(rows, e) {
      PutBeside(rows, u, r, e);
    }
  }

  lemma PutBeside<F>(rows: map<Uuid, Row<F>>, u: Uuid, r: Row<F>, e: Uuid)
    requires RowsOk(rows) && RowsOk(rows[u := r]) && Fits(rows, u, r) && e != r.domain
    ensures Table(rows[u := r], e) == Table(rows, e)
  {
    hide RowsOk, Table;
    TableSame(rows, rows[u := r], e);
  }

  lemma PutInto<F>(rows: map<Uuid, Row<F>>, u: Uuid, r: Row<F>)
    requires RowsOk(rows) && RowsOk(rows[u := r]) && Fits(rows, u, r)
    ensures Table(rows[u := r], r.domain) == Table(rows, r.domain)[r.number := r.fields]
  {
    var m := Table(rows, r.domain);
    TableHas(rows, r.domain);
    assert Takes(rows, OfTable(r.domain), NumberOf(), u, r);
    hide RowsOk, Table, UniqueKey, Takes, IsIndex;
    IndexPut(rows, OfTable(r.domain), NumberOf(), FieldsOf(), m, u, r);
    TableIs(rows[u := r], r.domain, m[r.number := r.fields]);
  }

  lemma PutOk<F>(rows: map<Uuid, Row<F>>, u: Uuid, r: Row<F>)
    requires RowsOk(rows) && Fits(rows, u, r)
    ensures RowsOk(rows[u := r])
  {}

  lemma TableDrop<F>(rows: map<Uuid, Row<F>>, u: Uuid)
    requires RowsOk(rows) && u in rows
    ensures RowsOk(rows - {u})
    ensures Table(rows - {u}, rows[u].domain) == Table(rows, rows[u].domain) - {rows[u].number}
    ensures forall e :: e != rows[u].domain ==> Table(rows - {u}, e) == Table(rows, e)
  {
    var rows', d, m := rows - {u}, rows[u].domain, Table(rows, rows[u].domain);
    assert RowsOk(rows');
    TableHas(rows, d);
    assert Without(rows, OfTable(d), NumberOf(), rows[u].number, rows');
    hide RowsOk, Table, UniqueKey, Without, IsIndex;
    IndexDelete(rows, OfTable(d), NumberOf(), FieldsOf(), m, rows[u].number, rows');
    TableIs(rows', d, m - {rows[u].number});
    forall e | e != d ensures Table(rows', e) == Table(rows, e) {
      TableSame(rows, rows', e);
    }
  }

  /** The other domains' tables are the same. */
  ghost predicate OnlyTable<F(!new)>(rows: map<Uuid, Row<F>>, rows': map<Uuid, Row<F>>, d: Uuid)
    requires RowsOk(rows) && RowsOk(rows')
  {
    && (forall e :: e != d ==> Table(rows', e) == Table(rows, e))
    && (forall u :: u in rows' && rows'[u].domain != d ==> u in rows && rows[u] == rows'[u])
  }

  lemma OnlyTableTrans<F(!new)>(a: map<Uuid, Row<F>>, b: map<Uuid, Row<F>>, c: map<Uuid, Row<F>>, d: Uuid)
    requires RowsOk(a) && RowsOk(b) && RowsOk(c) && OnlyTable(a, b, d) && OnlyTable(b, c, d)
    ensures OnlyTable(a, c, d)
  {
    hide RowsOk, Table;
  }

  /** Change the row of this number, or add one. */
  method Upsert<F(!new)>(rows: map<Uuid, Row<F>>, d: Uuid, number: string, fields: F) returns (rows': map<Uuid, Row<F>>)
    requires RowsOk(rows)
    ensures RowsOk(rows') && Table(rows', d) == Table(rows, d)[number := fields] && OnlyTable(rows, rows', d)
  {
    hide RowsOk, Table;
    if u :| u in rows && rows[u].domain == d && rows[u].number == number {
      TablePut(rows, u, rows[u].(fields := fields));
      return rows[u := rows[u].(fields := fields)];
    }
    var u := Fresh(rows);
    TablePut(rows, u, Row(d, number, fields));
    return rows[u := Row(d, number, fields)];
  }

  lemma NoRow<F>(rows: map<Uuid, Row<F>>, d: Uuid, number: string)
    requires RowsOk(rows) && forall u :: u in rows ==> !(rows[u].domain == d && rows[u].number == number)
    ensures Table(rows, d) - {number} == Table(rows, d)
  {
    assert number !in Table(rows, d);
  }

  /** Remove the row of this number, if there is one. */
  method Delete<F(!new)>(rows: map<Uuid, Row<F>>, d: Uuid, number: string) returns (rows': map<Uuid, Row<F>>)
    requires RowsOk(rows)
    ensures RowsOk(rows') && Table(rows', d) == Table(rows, d) - {number} && OnlyTable(rows, rows', d)
  {
    if u :| u in rows && rows[u].domain == d && rows[u].number == number {
      TableDrop(rows, u);
      hide RowsOk, Table;
      return rows - {u};
    }
    NoRow(rows, d, number);
    hide RowsOk, Table;
    return rows;
  }

  /** Delete the rows of domain `d` whose number is not in `keep`. */
  method Trim<F(!new)>(rows: map<Uuid, Row<F>>, d: Uuid, keep: set<string>) returns (rows': map<Uuid, Row<F>>)
    requires RowsOk(rows)
    ensures RowsOk(rows') && OnlyTable(rows, rows', d)
    ensures Table(rows', d) == map n | n in Table(rows, d) && n in keep :: Table(rows, d)[n]
  {
    hide RowsOk, Table, OnlyTable;
    rows' := rows;
    SameTable(rows, d);
    var todo := set u | u in rows && rows[u].domain == d;
    while todo != {}
      invariant RowsOk(rows') && OnlyTable(rows, rows', d)
      invariant forall u :: u in todo ==> u in rows' && rows'[u] == rows[u] && rows[u].domain == d
      invariant forall u :: u in rows' ==> u in rows && rows'[u] == rows[u]
      invariant forall u :: u in rows && u !in todo ==> (u in rows' <==> rows[u].domain != d || rows[u].number in keep)
    {
      var u :| u in todo;
      if rows[u].number !in keep {
        DropOnly(rows, rows', d, u);
        rows' := rows' - {u};
      }
      todo := todo - {u};
    }
    TrimmedTable(rows, rows', d, keep);
  }

  lemma SameTable<F(!new)>(rows: map<Uuid, Row<F>>, d: Uuid)
    requires RowsOk(rows)
    ensures OnlyTable(rows, rows, d)
  {
    hide RowsOk, Table;
  }

  lemma DropOnly<F(!new)>(rows: map<Uuid, Row<F>>, rows': map<Uuid, Row<F>>, d: Uuid, u: Uuid)
    requires RowsOk(rows) && RowsOk(rows') && OnlyTable(rows, rows', d) && u in rows' && rows'[u].domain == d
    ensures RowsOk(rows' - {u}) && OnlyTable(rows, rows' - {u}, d)
  {
    TableDrop(rows', u);
    hide RowsOk, Table;
  }

  lemma TrimmedTable<F>(rows: map<Uuid, Row<F>>, rows': map<Uuid, Row<F>>, d: Uuid, keep: set<string>)
    requires RowsOk(rows) && RowsOk(rows')
    requires forall u :: u in rows' ==> u in rows && rows'[u] == rows[u]
    requires forall u :: u in rows ==> (u in rows' <==> rows[u].domain != d || rows[u].number in keep)
    ensures Table(rows', d) == map n | n in Table(rows, d) && n in keep :: Table(rows, d)[n]
  {
    forall n | n in Table(rows, d) && n in keep ensures n in Table(rows', d) {
      var w :| w in rows && rows[w].domain == d && rows[w].number == n;
      assert w in rows';
    }
  }

  // ------------------------------------------------------------ whole payloads

  /** For each number the last entry that names it. */
  function LastOf<F>(intents: seq<(string, F)>): map<string, F> {
    if intents == [] then map[]
    else LastOf(intents[..|intents| - 1])[intents[|intents| - 1].0 := intents[|intents| - 1].1]
  }

  /** A number is there if it is named, with the fields of the last entry that names it. */
  lemma {:induction false} LastEntryWins<F>(intents: seq<(string, F)>, n: string)
    ensures n in LastOf(intents) <==> exists i :: 0 <= i < |intents| && intents[i].0 == n
    ensures n in LastOf(intents) ==>
        exists i :: 0 <= i < |intents| && intents[i].0 == n && LastOf(intents)[n] == intents[i].1
            && forall j :: i < j < |intents| ==> intents[j].0 != n
  {
    if intents != [] {
      var init, k := intents[..|intents| - 1], |intents| - 1;
      LastEntryWins(init, n);
      assert forall i :: 0 <= i < k ==> init[i] == intents[i];
      if intents[k].0 != n && n in LastOf(init) {
        var i :| 0 <= i < |init| && init[i].0 == n && LastOf(init)[n] == init[i].1 && forall j :: i < j < |init| ==>
            init[j].0 != n;
        assert intents[i].0 == n && forall j :: i < j < |intents| ==> intents[j].0 != n;
      }
      if intents[k].0 == n {
        assert LastOf(intents)[n] == intents[k].1;
      }
    }
  }

  lemma NextIntent<F>(base: map<string, F>, intents: seq<(string, F)>, i: nat)
    requires i < |intents|
    ensures base + LastOf(intents[..i + 1]) == (base + LastOf(intents[..i]))[intents[i].0 := intents[i].1]
  {
    assert intents[..i + 1][..i] == intents[..i] && intents[..i + 1][i] == intents[i];
  }

  /** Make the rows of domain `d` exactly the intents: trim, then upsert each in order. */
  method Replace<F(!new)>(rows: map<Uuid, Row<F>>, d: Uuid,
      intents: seq<(string, F)>) returns (rows': map<Uuid, Row<F>>)
    requires RowsOk(rows)
    ensures RowsOk(rows') && Table(rows', d) == LastOf(intents) && OnlyTable(rows, rows', d)
  {
    hide RowsOk, Table;
    var desired := set i | 0 <= i < |intents| :: intents[i].0;
    rows' := Trim(rows, d, desired);
    ghost var base := Table(rows', d);
    assert intents[..0] == [] && base + map[] == base;
    for i := 0 to |intents|
      invariant RowsOk(rows') && Table(rows', d) == base + LastOf(intents[..i]) && OnlyTable(rows, rows', d)
    {
      ghost var before := rows';
      rows' := Upsert(rows', d, intents[i].0, intents[i].1);
      OnlyTableTrans(rows, before, rows', d);
      NextIntent(base, intents, i);
    }
    assert intents[..|intents|] == intents;
    forall n | n in base ensures n in LastOf(intents) {
      LastEntryWins(intents, n);
    }
    assert base + LastOf(intents) == LastOf(intents);
  }
}
