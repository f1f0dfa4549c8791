/** What a prefix of a script has done: to numbers no longer desired, to dialplans and to queues. */
module Fates {
  import opened Names
  import opened Orders
  import opened Tables
  import opened CallCenter
  import opened Transactions
  import opened Client
  import opened Models
  import opened Scripts

  // ------------------------------------------------- what is gone after `ops`

  lemma OtherKeyStep(v: View, m: Model, op: Op, n: string)
    ensures n !in m.exts ==> (Key(m.dom, n) in Effect(v, m, op).exts <==> Key(m.dom, n) in v.exts && op != DropE(n))
    ensures op != PutB(n) ==> (Key(m.dom, n) in Effect(v, m, op).boxes <==> Key(m.dom, n) in v.boxes && op != DropB(n))
  {
    hide FeatureName, XmlFor, Numbers, Elems;
  }

  lemma OtherQueueStep(v: View, m: Model, op: Op, n: string)
    requires n !in m.queues && m.dom in v.domains
    ensures m.dom in Effect(v, m, op).domains
    ensures Key(m.dom, n) in Effect(v, m, op).queues <==> Key(m.dom, n) in v.queues && op != DropQ(n)
  {
    hide FeatureName, XmlFor, Numbers, Elems;
  }

  /** A number that is not desired has its extension until it is deleted. */
  lemma {:induction false} ExtensionFate(v: View, m: Model, ops: seq<Op>, n: string)
    requires n !in m.exts
    ensures Key(m.dom, n) in RunOps(v, m, ops).exts <==> Key(m.dom, n) in v.exts && DropE(n) !in ops
  {
    hide Effect;
    if ops != [] {
      var k := |ops| - 1;
      ExtensionFate(v, m, ops[..k], n);
      assert ops == ops[..k] + [ops[k]];
      OtherKeyStep(RunOps(v, m, ops[..k]), m, ops[k], n);
    }
  }

  /** And so it is with its voicemail box. */
  lemma {:induction false} BoxFate(v: View, m: Model, ops: seq<Op>, n: string)
    requires PutB(n) !in ops
    ensures Key(m.dom, n) in RunOps(v, m, ops).boxes <==> Key(m.dom, n) in v.boxes && DropB(n) !in ops
  {
    hide Effect;
    if ops != [] {
      var k := |ops| - 1;
      assert ops == ops[..k] + [ops[k]];
      BoxFate(v, m, ops[..k], n);
      OtherKeyStep(RunOps(v, m, ops[..k]), m, ops[k], n);
    }
  }

  lemma {:induction false} QueueFate(v: View, m: Model, ops: seq<Op>, n: string)
    requires n !in m.queues && m.dom in v.domains
    ensures m.dom in RunOps(v, m, ops).domains
    ensures Key(m.dom, n) in RunOps(v, m, ops).queues <==> Key(m.dom, n) in v.queues && DropQ(n) !in ops
  {
    hide Effect;
    if ops != [] {
      var k := |ops| - 1;
      QueueFate(v, m, ops[..k], n);
      assert ops == ops[..k] + [ops[k]];
      OtherQueueStep(RunOps(v, m, ops[..k]), m, ops[k], n);
    }
  }

  /** A feature dialplan that is not wanted is there until it is deleted. */
  lemma {:induction false} PlanFate(v: View, m: Model, ops: seq<Op>, k: Kind, n: string)
    requires k != CallQueue && n !in Numbers(m, k)
    ensures FeatureName(k, m.dom, n) in RunOps(v, m, ops).plans <==>
            FeatureName(k, m.dom, n) in v.plans && DropP(FeatureName(k, m.dom, n)) !in ops
  {
    if ops != [] {
      var i := |ops| - 1;
      hide Effect, FeatureName, Numbers;
      PlanFate(v, m, ops[..i], k, n);
      assert ops == ops[..i] + [ops[i]];
      PlanStep(RunOps(v, m, ops[..i]), m, ops[i], k, n);
    }
  }

  lemma PlanStep(v: View, m: Model, op: Op, k: Kind, n: string)
    requires k != CallQueue && n !in Numbers(m, k)
    ensures FeatureName(k, m.dom, n) in Effect(v, m, op).plans <==>
            FeatureName(k, m.dom, n) in v.plans && op != DropP(FeatureName(k, m.dom, n))
  {
    forall k', n' | FeatureName(k', m.dom, n') == FeatureName(k, m.dom, n) ensures k' == k && n' == n {
      NameInjectiveInDomain(m.dom, k', n', k, n);
    }
    NotRouting(k, m.dom, n);
    hide FeatureName, XmlFor, Numbers, Elems;
  }

  // ----------------------------------------------------- where an op stands

  lemma OpsDiffer(m: Model, l: Loop, x: string, t: nat, y: string, u: nat)
    requires t < Width(l) && u < Width(l) && OpsFor(m, l, x)[t] == OpsFor(m, l, y)[u]
    ensures x == y && t == u
  {}

  // An index within a loop, taken apart.
  lemma LoopIndex(m: Model, l: Loop, order: seq<string>, i: nat) returns (j: nat, t: nat)
    requires i < |LoopOps(m, l, order)|
    ensures j < |order| && t < Width(l) && i == Width(l) * j + t
    ensures LoopOps(m, l, order)[i] == OpsFor(m, l, order[j])[t]
  {
    hide LoopOps, OpsFor;
    LoopSize(m, l, order);
    if l == Stale {
      j, t := i / 2, i % 2;
    } else {
      j, t := i, 0;
    }
    LoopAt(m, l, order, j, t);
  }

  lemma InTheMiddle<T>(pre: seq<T>, mid: seq<T>, post: seq<T>, i: nat)
    requires i < |pre + mid + post| && (pre + mid + post)[i] !in pre && (pre + mid + post)[i] !in post
    ensures |pre| <= i < |pre| + |mid| && (pre + mid + post)[i] == mid[i - |pre|]
  {
    var all := pre + mid + post;
    assert forall k :: 0 <= k < |pre| ==> all[k] == pre[k];
    assert forall k :: |pre| + |mid| <= k < |all| ==> all[k] == post[k - |pre| - |mid|];
  }

  /** An op that only the loop has was made once its place in the script was passed. */
  lemma MadeIff(pre: seq<Op>, m: Model, l: Loop, order: seq<string>, post: seq<Op>, done: nat, j: nat, t: nat)
    requires Distinct(order) && j < |order| && t < Width(l)
    requires OpsFor(m, l, order[j])[t] !in pre && OpsFor(m, l, order[j])[t] !in post
    requires done <= |pre + LoopOps(m, l, order) + post|
    ensures OpsFor(m, l, order[j])[t] in (pre + LoopOps(m, l, order) + post)[..done] <==>
      done > |pre| + Width(l) * j + t
  {
    hide OpsFor, LoopOps;
    var op, loop := OpsFor(m, l, order[j])[t], LoopOps(m, l, order);
    var all := pre + loop + post;
    LoopAt(m, l, order, j, t);
    var at := |pre| + Width(l) * j + t;
    assert all[at] == loop[Width(l) * j + t] == op;
    if done > at {
      assert all[..done][at] == op;
    }
    if op in all[..done] {
      var i :| 0 <= i < done && all[i] == op;
      InTheMiddle(pre, loop, post, i);
      var j', t' := LoopIndex(m, l, order, i - |pre|);
      OpsDiffer(m, l, order[j'], t', order[j], t);
    }
  }

  /** No extension is deleted, and boxes only of desired numbers are touched. */
  ghost predicate Spares(m: Model, ops: seq<Op>) {
    forall op :: op in ops ==> !op.DropE? && (op.DropB? || op.PutB? ==> op.n in m.exts)
  }

  lemma SparesBoth(m: Model, a: seq<Op>, b: seq<Op>)
    requires Spares(m, a) && Spares(m, b)
    ensures Spares(m, a + b)
  {}

  lemma {:induction false} LoopSpares(m: Model, l: Loop, order: seq<string>)
    requires l != Stale && (l == Boxes ==> Elems(order) <= m.exts.Keys)
    ensures Spares(m, LoopOps(m, l, order))
  {
    if order != [] {
      var k := |order| - 1;
      assert order[k] in Elems(order);
      assert Elems(order[..k]) <= Elems(order);
      LoopSpares(m, l, order[..k]);
      SparesBoth(m, LoopOps(m, l, order[..k]), OpsFor(m, l, order[k]));
    }
  }

  /** Everything of a script after the extensions. */
  function RestOf(m: Model, o: Choice): seq<Op> {
    SharedOps(m) + (PlanOps(m, o) + QueueOps(m, o))
  }

  lemma RestSpares(m: Model, o: Choice)
    ensures Spares(m, RestOf(m, o))
  {
    hide LoopOps, Spares, Sorted, Elems;
    LoopSpares(m, Boxes, Sorted(m.exts.Keys));
    LoopSpares(m, Features(Conference), o.conferences);
    LoopSpares(m, Features(RingGroup), o.rings);
    LoopSpares(m, Features(Ivr), o.ivrs);
    LoopSpares(m, Drift, o.drift);
    LoopSpares(m, Queues, o.queues);
    LoopSpares(m, Extra, o.extra);
    ConstantsSpare(m);
    SparesBoth(m, LoopOps(m, Boxes, Sorted(m.exts.Keys)), [SetDir] + [SetRouting]);
    SparesBoth(m, LoopOps(m, Features(Conference), o.conferences), LoopOps(m, Features(RingGroup), o.rings));
    SparesBoth(m, LoopOps(m, Features(Conference), o.conferences) + LoopOps(m, Features(RingGroup), o.rings),
      LoopOps(m, Features(Ivr), o.ivrs));
    SparesBoth(m, [Look], LoopOps(m, Drift, o.drift));
    SparesBoth(m, KindOps(m, o), [Look] + LoopOps(m, Drift, o.drift));
    SparesBoth(m, [Look], LoopOps(m, Extra, o.extra));
    SparesBoth(m, LoopOps(m, Queues, o.queues), [Look] + LoopOps(m, Extra, o.extra));
    SparesBoth(m, PlanOps(m, o), QueueOps(m, o));
    SparesBoth(m, SharedOps(m), PlanOps(m, o) + QueueOps(m, o));
  }

  lemma ConstantsSpare(m: Model)
    ensures Spares(m, [Look]) && Spares(m, [SetDir] + [SetRouting]) && Spares(m, [])
  {}

  lemma {:induction false} LoopHas(m: Model, l: Loop, order: seq<string>, op: Op)
    ensures op in LoopOps(m, l, order) ==> exists x :: x in Elems(order) && op in OpsFor(m, l, x)
  {
    if order != [] {
      var k := |order| - 1;
      assert order[k] in Elems(order) && Elems(order[..k]) <= Elems(order);
      LoopHas(m, l, order[..k], op);
      hide OpsFor;
    }
  }

  lemma ScriptParts(v: View, m: Model, o: Choice)
    ensures Script(v, m, o) == [Look] + LoopOps(m, Exts, Sorted(m.exts.Keys)) + LoopOps(m, Stale, Sorted(StaleIn(v, m)))
        + RestOf(m, o)
    ensures |LoopOps(m, Exts, Sorted(m.exts.Keys))| == |m.exts|
    ensures |LoopOps(m, Stale, Sorted(StaleIn(v, m)))| == 2 * |StaleIn(v, m)|
    ensures |Sorted(StaleIn(v, m))| == |StaleIn(v, m)|
  {
    hide LoopOps, SharedOps, PlanOps, QueueOps, StaleIn, Sorted, Enumerates;
    LoopSize(m, Exts, Sorted(m.exts.Keys));
    LoopSize(m, Stale, Sorted(StaleIn(v, m)));
    EnumeratesSize(Sorted(m.exts.Keys), m.exts.Keys);
    EnumeratesSize(Sorted(StaleIn(v, m)), StaleIn(v, m));
    assert |m.exts.Keys| == |m.exts|;
  }

  /** The stale number at place `j` of the sorted order: when its two deletions are made. */
  lemma StaleMade(v: View, m: Model, o: Choice, done: nat, j: nat)
    requires done <= |Script(v, m, o)| && j < |StaleIn(v, m)|
    ensures |Sorted(StaleIn(v, m))| == |StaleIn(v, m)|
    ensures var n := Sorted(StaleIn(v, m))[j];
      && (DropE(n) in Script(v, m, o)[..done] <==> done > 1 + |m.exts| + 2 * j)
      && (DropB(n) in Script(v, m, o)[..done] <==> done > 1 + |m.exts| + 2 * j + 1)
      && PutB(n) !in Script(v, m, o)[..done] && n in StaleIn(v, m)
  {
    hide LoopOps, RestOf, Script, Sorted, StaleIn, Elems, Distinct;
    var order := Sorted(StaleIn(v, m));
    ScriptParts(v, m, o);
    var n := order[j];
    ListedStale(v, m, j);
    var pre, post := [Look] + LoopOps(m, Exts, Sorted(m.exts.Keys)), RestOf(m, o);
    RestSpares(m, o);
    LoopHas(m, Exts, Sorted(m.exts.Keys), DropE(n));
    LoopHas(m, Exts, Sorted(m.exts.Keys), DropB(n));
    LoopHas(m, Exts, Sorted(m.exts.Keys), PutB(n));
    LoopHas(m, Stale, order, PutB(n));
    assert PutB(n) !in Script(v, m, o);
    assert OpsFor(m, Stale, n) == [DropE(n), DropB(n)];
    MadeIff(pre, m, Stale, order, post, done, j, 0);
    MadeIff(pre, m, Stale, order, post, done, j, 1);
  }

  lemma ListedStale(v: View, m: Model, j: nat)
    requires j < |Sorted(StaleIn(v, m))|
    ensures Sorted(StaleIn(v, m))[j] in StaleIn(v, m) && Sorted(StaleIn(v, m))[j] !in m.exts
  {
    hide Sorted;
    assert Sorted(StaleIn(v, m))[j] in Elems(Sorted(StaleIn(v, m)));
  }
}
