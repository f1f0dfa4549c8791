/** Sequences that enumerate a set of texts, and the sorted one among them. */
module Orders {
  function Elems(s: seq<string>): set<string> {
    set x | x in s
  }

  predicate Distinct(s: seq<string>) {
    forall i, j :: 0 <= i < j < |s| ==> s[i] != s[j]
  }

  predicate Enumerates(order: seq<string>, s: set<string>) {
    Elems(order) == s && Distinct(order)
  }

  lemma {:induction false} EnumeratesSize(order: seq<string>, s: set<string>)
    requires Enumerates(order, s)
    ensures |order| == |s|
  {
    if order != [] {
      var n := |order| - 1;
      forall x ensures x in Elems(order[..n]) <==> x in s - {order[n]} {
        if x in s && x != order[n] {
          var i :| 0 <= i < |order| && order[i] == x;
          assert order[..n][i] == x;
        }
      }
      EnumeratesSize(order[..n], s - {order[n]});
    }
  }

  lemma EnumeratesNext(order: seq<string>, s: set<string>, x: string)
    requires Enumerates(order, s) && x !in s
    ensures Enumerates(order + [x], s + {x})
  {
    assert forall i :: 0 <= i < |order| ==> order[i] in Elems(order);
    forall y | y in s + {x} ensures y in Elems(order + [x]) {
      if y != x {
        var i :| 0 <= i < |order| && order[i] == y;
        assert (order + [x])[i] == y;
      } else {
        assert (order + [x])[|order|] == x;
      }
    }
  }

  /** The order in which a loop happens to take the elements of a set. */
  method AnyOrder(s: set<string>) returns (order: seq<string>)
    ensures Enumerates(order, s)
  {
    order := [];
    var todo := s;
    while todo != {}
      invariant todo <= s && Enumerates(order, s - todo)
    {
      var x :| x in todo;
      EnumeratesNext(order, s - todo, x);
      assert s - (todo - {x}) == s - todo + {x};
      order, todo := order + [x], todo - {x};
    }
    assert s - {} == s;
  }

  lemma ElemsNext(order: seq<string>, j: nat)
    requires Distinct(order) && j < |order|
    ensures order[j] !in Elems(order[..j]) && order[j] in Elems(order)
    ensures Elems(order[..j + 1]) == Elems(order[..j]) + {order[j]}
    ensures Elems(order[..j]) <= Elems(order)
    ensures order[..j + 1] == order[..j] + [order[j]] && order[j] !in order[..j]
  {
    assert order[..j + 1] == order[..j] + [order[j]];
  }

  lemma ElemsAll(order: seq<string>)
    ensures Elems(order[..|order|]) == Elems(order) && Elems(order[..0]) == {}
  {
    assert order[..|order|] == order;
  }

  // ------------------------------------------------------------ sorted order

  /** The order of texts, character by character. */
  predicate AtMost(a: string, b: string) {
    a == [] || (b != [] && (a[0] < b[0] || (a[0] == b[0] && AtMost(a[1..], b[1..]))))
  }

  lemma {:induction false} AtMostOrders(a: string, b: string)
    ensures AtMost(a, b) || AtMost(b, a)
    ensures AtMost(a, b) && AtMost(b, a) ==> a == b
  {
    if a != [] && b != [] {
      AtMostOrders(a[1..], b[1..]);
      assert a == [a[0]] + a[1..] && b == [b[0]] + b[1..];
    }
  }

  lemma {:induction false} AtMostTrans(a: string, b: string, c: string)
    requires AtMost(a, b) && AtMost(b, c)
    ensures AtMost(a, c)
  {
    if a != [] && b != [] && c != [] && a[0] == b[0] == c[0] {
      AtMostTrans(a[1..], b[1..], c[1..]);
    }
  }

  predicate IsLeast(x: string, s: set<string>) {
    x in s && forall y :: y in s ==> AtMost(x, y)
  }

  lemma {:induction false} LeastExists(s: set<string>)
    requires s != {}
    ensures exists x :: IsLeast(x, s)
  {
    var x :| x in s;
    AtMostOrders(x, x);
    if s == {x} {
      assert IsLeast(x, s);
    } else {
      LeastExists(s - {x});
      var y :| IsLeast(y, s - {x});
      AtMostOrders(x, y);
      if AtMost(x, y) {
        forall z | z in s ensures AtMost(x, z) {
          if z != x { AtMostTrans(x, y, z); }
        }
        assert IsLeast(x, s);
      } else {
        assert IsLeast(y, s);
      }
    }
  }

  lemma LeastOnce(s: set<string>)
    ensures forall x, y :: IsLeast(x, s) && IsLeast(y, s) ==> x == y
  {
    forall x, y | IsLeast(x, s) && IsLeast(y, s) ensures x == y {
      AtMostOrders(x, y);
    }
  }

  predicate InOrder(order: seq<string>) {
    forall i, j :: 0 <= i < j < |order| ==> AtMost(order[i], order[j])
  }

  lemma LeastFirst(x: string, rest: seq<string>, s: set<string>)
    requires IsLeast(x, s) && Enumerates(rest, s - {x}) && InOrder(rest)
    ensures Enumerates([x] + rest, s) && InOrder([x] + rest)
  {
    hide AtMost;
    assert forall i :: 0 <= i < |rest| ==> rest[i] in Elems(rest);
    assert Elems([x] + rest) == {x} + Elems(rest);
  }

  function Sorted(s: set<string>): (order: seq<string>)
    ensures Enumerates(order, s) && InOrder(order)
  {
    hide IsLeast, Enumerates, InOrder;
    if s == {} then NothingToOrder(); []
    else
      LeastExists(s);
      LeastOnce(s);
      LeastIn(s);
      var x :| x in s && IsLeast(x, s);
      LeastFirst(x, Sorted(s - {x}), s);
      [x] + Sorted(s - {x})
  }

  lemma NothingToOrder()
    ensures Enumerates([], {}) && InOrder([])
  {}

  lemma LeastIn(s: set<string>)
    ensures forall x :: IsLeast(x, s) ==> x in s
  {}
}
