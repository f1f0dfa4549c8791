/** The client calls of a whole reconcile, in order: what a run does is a prefix of its script
    (app/services/reconcile/voice.py:84-183). */
module Scripts {
  import opened Names
  import opened Orders
  import opened Tables
  import opened Steps
  import opened CallCenter
  import opened Transactions
  import opened Client
  import opened Models
  import opened Progress

  /** One client call of a run. */
  datatype Op =
    | Look
    | PutE(n: string) | DropE(n: string)
    | PutB(n: string) | DropB(n: string)
    | SetDir | SetRouting
    | PutP(k: Kind, n: string) | DropP(name: string)
    | PutQ(n: string) | DropQ(n: string)

  ghost function Effect(v: View, m: Model, op: Op): View {
    match op
    case Look => v
    case PutE(n) => if n in m.exts then PutExt(v, m.dom, n, m.exts[n].display) else v
    case DropE(n) => DropExt(v, m.dom, n)
    case PutB(n) => PutBox(v, m.dom, n, n)
    case DropB(n) => DropBox(v, m.dom, n)
    case SetDir => PutDir(v, SWITCH_VOICEMAIL_DIR)
    case SetRouting => PutPlan(v, m.dom, ROUTING_NAME, RoutingXml(m.recording), RoutingTag)
    case PutP(k, n) =>
      if n in Numbers(m, k) then PutPlan(v, m.dom, FeatureName(k, m.dom, n), XmlFor(m, k, n), FeatureTag(m.dom)) else v
    case DropP(name) => DropPlan(v, name)
    case PutQ(n) => if n in m.queues then PutQueue(v, m.dom, n, m.queues[n].strategy, Elems(m.queues[n].agents)) else v
    case DropQ(n) => DropQueue(v, m.dom, n)
  }

  /** The view after these calls. */
  ghost function RunOps(v: View, m: Model, ops: seq<Op>): View {
    if ops == [] then v else Effect(RunOps(v, m, ops[..|ops| - 1]), m, ops[|ops| - 1])
  }

  lemma {:induction false} RunBoth(v: View, m: Model, a: seq<Op>, b: seq<Op>)
    ensures RunOps(v, m, a + b) == RunOps(RunOps(v, m, a), m, b)
  {
    hide Effect;
    if b == [] {
      assert a + b == a;
    } else {
      var k := |b| - 1;
      assert (a + b)[..|a + b| - 1] == a + b[..k];
      RunBoth(v, m, a, b[..k]);
    }
  }

  // ------------------------------------------------------------------ loops

  /** The loops of a run, by what they do for each entry. */
  datatype Loop = Exts | Stale | Boxes | Features(k: Kind) | Drift | Queues | Extra

  function OpsFor(m: Model, l: Loop, n: string): (ops: seq<Op>)
    ensures |ops| == Width(l)
  {
    match l
    case Exts => [PutE(n)]
    case Stale => [DropE(n), DropB(n)]
    case Boxes => [if n in m.exts && m.exts[n].voicemail then PutB(n) else DropB(n)]
    case Features(k) => [PutP(k, n)]
    case Drift => [DropP(n)]
    case Queues => [PutQ(n)]
    case Extra => [DropQ(n)]
  }

  function Width(l: Loop): nat {
    if l == Stale then 2 else 1
  }

  function LoopOps(m: Model, l: Loop, order: seq<string>): (ops: seq<Op>) {
    if order == [] then [] else LoopOps(m, l, order[..|order| - 1]) + OpsFor(m, l, order[|order| - 1])
  }

  lemma {:induction false} LoopSize(m: Model, l: Loop, order: seq<string>)
    ensures |LoopOps(m, l, order)| == Width(l) * |order|
  {
    if order != [] {
      LoopSize(m, l, order[..|order| - 1]);
    }
  }

  lemma {:induction false} LoopAt(m: Model, l: Loop, order: seq<string>, j: nat, t: nat)
    requires j < |order| && t < Width(l)
    ensures |LoopOps(m, l, order)| == Width(l) * |order| && Width(l) * j + t < Width(l) * |order|
    ensures LoopOps(m, l, order)[Width(l) * j + t] == OpsFor(m, l, order[j])[t]
  {
    LoopSize(m, l, order);
    LoopSize(m, l, order[..|order| - 1]);
    if j < |order| - 1 {
      LoopAt(m, l, order[..|order| - 1], j, t);
    }
  }

  lemma {:induction false} LoopPrefix(m: Model, l: Loop, order: seq<string>, j: nat)
    requires j <= |order|
    ensures LoopOps(m, l, order[..j]) <= LoopOps(m, l, order)
  {
    if j < |order| {
      LoopPrefix(m, l, order[..|order| - 1], j);
      assert order[..|order| - 1][..j] == order[..j];
    } else {
      assert order[..j] == order;
    }
  }

  lemma LoopNext(m: Model, l: Loop, order: seq<string>, j: nat)
    requires j < |order|
    ensures LoopOps(m, l, order[..j + 1]) == LoopOps(m, l, order[..j]) + OpsFor(m, l, order[j])
  {
    assert order[..j + 1][..j] == order[..j];
  }

  // ---------------------------------------------------------------- scripts

  /** The numbers with an extension row in domain `m.dom`. */
  function Had(v: View, m: Model): set<string> {
    NumbersIn(v.exts, m.dom)
  }

  /** Numbers that have an extension and are no longer desired. */
  function StaleIn(v: View, m: Model): set<string> {
    Had(v, m) - m.exts.Keys
  }

  /** Dialplans marked as features of the domain that are not wanted. */
  ghost function DriftIn(v: View, m: Model): set<string> {
    ManagedIn(v, m.dom) - WantedNames(m)
  }

  function ExtraIn(v: View, m: Model): set<string> {
    NumbersIn(v.queues, m.dom) - m.queues.Keys
  }

  /** The order in which the loops over unsorted rows and sets went. */
  datatype Choice = Choice(conferences: seq<string>, rings: seq<string>, ivrs: seq<string>,
                           drift: seq<string>, queues: seq<string>, extra: seq<string>)

  ghost predicate ChoiceOk(o: Choice, v: View, m: Model) {
    && Enumerates(o.conferences, Numbers(m, Conference)) && Enumerates(o.rings, Numbers(m, RingGroup))
    && Enumerates(o.ivrs, Numbers(m, Ivr)) && Enumerates(o.queues, m.queues.Keys)
    && Enumerates(o.drift, DriftIn(v, m)) && Enumerates(o.extra, ExtraIn(v, m))
  }

  ghost function SomeChoice(v: View, m: Model): (o: Choice)
    ensures ChoiceOk(o, v, m)
  {
    Choice(Sorted(Numbers(m, Conference)), Sorted(Numbers(m, RingGroup)), Sorted(Numbers(m, Ivr)),
           Sorted(DriftIn(v, m)), Sorted(m.queues.Keys), Sorted(ExtraIn(v, m)))
  }

  function ExtOps(v: View, m: Model): seq<Op> {
    [Look] + LoopOps(m, Exts, Sorted(m.exts.Keys)) + LoopOps(m, Stale, Sorted(StaleIn(v, m)))
  }

  function SharedOps(m: Model): seq<Op> {
    if m.active then LoopOps(m, Boxes, Sorted(m.exts.Keys)) + ([SetDir] + [SetRouting]) else []
  }

  function KindOps(m: Model, o: Choice): seq<Op> {
    LoopOps(m, Features(Conference), o.conferences) + LoopOps(m, Features(RingGroup), o.rings)
        + LoopOps(m, Features(Ivr), o.ivrs)
  }

  function PlanOps(m: Model, o: Choice): seq<Op> {
    KindOps(m, o) + ([Look] + LoopOps(m, Drift, o.drift))
  }

  function QueueOps(m: Model, o: Choice): seq<Op> {
    LoopOps(m, Queues, o.queues) + ([Look] + LoopOps(m, Extra, o.extra))
  }

  /** Everything an undisturbed run does. */
  function Script(v: View, m: Model, o: Choice): seq<Op> {
    ExtOps(v, m) + (SharedOps(m) + (PlanOps(m, o) + QueueOps(m, o)))
  }

  // --------------------------------------------------- what was run of them

  /** A stretch of a run made the calls `ops`, all of them, or up to the one that met an outage. */
  ghost predicate Ran(s: Snap, s': Snap, m: Model, ops: seq<Op>, ok: bool) {
    var done := s'.calls - s.calls - (if ok then 0 else 1);
    && 0 <= done <= |ops| && (ok <==> done == |ops|)
    && s'.view == RunOps(s.view, m, ops[..done])
  }

  lemma RanNothing(s: Snap, m: Model)
    ensures Ran(s, s, m, [], true)
  {}

  lemma RanStart(s: Snap, m: Model, l: Loop)
    ensures forall order: seq<string> :: Ran(s, s, m, LoopOps(m, l, order[..0]), true)
  {
    RanNothing(s, m);
  }

  lemma RanOne(s: Snap, s': Snap, m: Model, actual: set<string>, outage: nat -> bool, ok: bool, op: Op)
    requires Did(s, s', m, actual, outage, ok, Effect(s.view, m, op))
    ensures Ran(s, s', m, [op], ok)
  {
    hide Advanced, Effect, Quiet;
    assert [op][..0] == [] && [op][..1] == [op];
    assert RunOps(s.view, m, [op]) == Effect(s.view, m, op);
  }

  lemma RanLook(s: Snap, s': Snap, m: Model, ok: bool)
    requires s' == s.(calls := s.calls + 1)
    ensures Ran(s, s', m, [Look], ok)
  {
    assert [Look][..0] == [] && [Look][..1] == [Look];
    assert RunOps(s.view, m, [Look]) == Effect(s.view, m, Look) == s.view;
  }

  lemma RanTrans(s: Snap, s1: Snap, s2: Snap, m: Model, a: seq<Op>, b: seq<Op>, ok: bool)
    requires Ran(s, s1, m, a, true) && Ran(s1, s2, m, b, ok)
    ensures Ran(s, s2, m, a + b, ok)
  {
    hide Effect;
    var done := s2.calls - s1.calls - (if ok then 0 else 1);
    assert a[..|a|] == a && (a + b)[..|a| + done] == a + b[..done];
    RunBoth(s.view, m, a, b[..done]);
  }

  lemma RanCut(s: Snap, s': Snap, m: Model, a: seq<Op>, b: seq<Op>)
    requires Ran(s, s', m, a, false)
    ensures Ran(s, s', m, a + b, false)
  {
    hide Effect;
    var done := s'.calls - s.calls - 1;
    assert (a + b)[..done] == a[..done];
  }

  lemma RanNext(s: Snap, s1: Snap, s2: Snap, m: Model, l: Loop, order: seq<string>, j: nat, ok: bool)
    requires j < |order| && Ran(s, s1, m, LoopOps(m, l, order[..j]), true) && Ran(s1, s2, m, OpsFor(m, l, order[j]), ok)
    ensures if ok then Ran(s, s2, m, LoopOps(m, l, order[..j + 1]), true)
        else Ran(s, s2, m, LoopOps(m, l, order), false)
  {
    hide Ran, LoopOps, OpsFor;
    LoopNext(m, l, order, j);
    RanTrans(s, s1, s2, m, LoopOps(m, l, order[..j]), OpsFor(m, l, order[j]), ok);
    if !ok {
      LoopPrefix(m, l, order, j + 1);
      var a, b := LoopOps(m, l, order[..j + 1]), LoopOps(m, l, order);
      RanCut(s, s2, m, a, b[|a|..]);
      assert a + b[|a|..] == b;
    }
  }

  lemma RanAll(s: Snap, s': Snap, m: Model, l: Loop, order: seq<string>)
    requires Ran(s, s', m, LoopOps(m, l, order[..|order|]), true)
    ensures Ran(s, s', m, LoopOps(m, l, order), true)
  {
    assert order[..|order|] == order;
  }
}
