/** Taking a customer off the PBX: what a run towards nothing leaves behind when it is cut short
    (app/api/provisioning.py:134-158, app/services/reconcile/voice.py:84-175). */
module Removal {
  import opened Names
  import opened Orders
  import opened Tables
  import opened Steps
  import opened CallCenter
  import opened Transactions
  import opened Client
  import opened Models
  import opened Progress
  import opened Scripts
  import opened Reconcile
  import opened Voice
  import opened Fates
  import opened Outcomes

  /** An active customer with no models left. */
  ghost predicate AsksNothing(m: Model) {
    m.active && m.exts == map[] && forall k :: Numbers(m, k) == {}
  }

  /** The last call, counted from the start of the run, that removes something from the share;
      with nothing to remove there is none. */
  function LastRemoval(v: View, d: string): int {
    var exts, plans, queues := |NumbersIn(v.exts, d)|, |ManagedIn(v, d)|, |NumbersIn(v.queues, d)|;
    if queues > 0 then 2 * exts + plans + queues + 4
    else if plans > 0 then 2 * exts + plans + 3
    else 2 * exts - 1
  }

  lemma AllIsStale(v: View, m: Model)
    requires AsksNothing(m)
    ensures StaleIn(v, m) == NumbersIn(v.exts, m.dom) && DriftIn(v, m) == ManagedIn(v, m.dom)
    ensures ExtraIn(v, m) == NumbersIn(v.queues, m.dom)
  {
    hide FeatureName, ManagedIn, NumbersIn;
    QueueKeys(m);
    assert m.exts.Keys == {} && m.queues.Keys == {};
    assert WantedNames(m) == {};
  }

  // The parts of the script around the two later loops.
  function BeforeDrift(v: View, m: Model): seq<Op> {
    [Look] + LoopOps(m, Stale, Sorted(StaleIn(v, m))) + ([SetDir] + [SetRouting]) + [Look]
  }

  lemma ScriptToNothing(v: View, m: Model, o: Choice)
    requires AsksNothing(m) && ChoiceOk(o, v, m)
    ensures Script(v, m, o) == BeforeDrift(v, m) + LoopOps(m, Drift, o.drift) + ([Look] + LoopOps(m, Extra, o.extra))
    ensures |BeforeDrift(v, m)| == 2 * |StaleIn(v, m)| + 4
    ensures |o.drift| == |DriftIn(v, m)| == |LoopOps(m, Drift, o.drift)|
    ensures |o.extra| == |ExtraIn(v, m)| == |LoopOps(m, Extra, o.extra)|
    ensures |m.exts| == 0
  {
    hide StaleIn, DriftIn, ExtraIn, Elems, Distinct, LoopOps, Sorted, Numbers, OpsFor;
    NothingOrdered(m, o, v);
    EnumeratesSize(o.drift, DriftIn(v, m));
    EnumeratesSize(o.extra, ExtraIn(v, m));
    LoopSize(m, Drift, o.drift);
    LoopSize(m, Extra, o.extra);
    LoopSize(m, Stale, Sorted(StaleIn(v, m)));
    EnumeratesSize(Sorted(StaleIn(v, m)), StaleIn(v, m));
    Flatten([Look], LoopOps(m, Stale, Sorted(StaleIn(v, m))), [SetDir] + [SetRouting], LoopOps(m, Drift, o.drift),
      LoopOps(m, Extra, o.extra));
  }

  lemma Flatten<T>(l: seq<T>, s: seq<T>, t: seq<T>, d: seq<T>, x: seq<T>)
    ensures (l + [] + s) + (([] + t) + (([] + [] + [] + (l + d)) + ([] + (l + x)))) == (l + s + t + l) + d + (l + x)
  {}

  lemma NothingOrdered(m: Model, o: Choice, v: View)
    requires AsksNothing(m) && ChoiceOk(o, v, m)
    ensures LoopOps(m, Exts, Sorted(m.exts.Keys)) == [] && LoopOps(m, Boxes, Sorted(m.exts.Keys)) == [] && |m.exts| == 0
    ensures LoopOps(m, Features(Conference), o.conferences) == [] && LoopOps(m, Features(RingGroup), o.rings) == []
    ensures LoopOps(m, Features(Ivr), o.ivrs) == [] && LoopOps(m, Queues, o.queues) == []
  {
    hide DriftIn, ExtraIn, Elems, Distinct;
    assert |m.exts.Keys| == 0;
    QueueKeys(m);
    EnumeratesSize(Sorted(m.exts.Keys), m.exts.Keys);
    EnumeratesSize(o.conferences, Numbers(m, Conference));
    EnumeratesSize(o.rings, Numbers(m, RingGroup));
    EnumeratesSize(o.ivrs, Numbers(m, Ivr));
    EnumeratesSize(o.queues, m.queues.Keys);
  }

  // -------------------------------------------------------- when each is made

  lemma DriftMade(v: View, m: Model, o: Choice, done: nat, j: nat)
    requires AsksNothing(m) && ChoiceOk(o, v, m) && done <= |Script(v, m, o)| && j < |o.drift|
    ensures DropP(o.drift[j]) in Script(v, m, o)[..done] <==> done > 2 * |StaleIn(v, m)| + 4 + j
  {
    hide StaleIn, DriftIn, ExtraIn, LoopOps, Sorted, Elems;
    ScriptToNothing(v, m, o);
    hide Script;
    var op := DropP(o.drift[j]);
    LoopHas(m, Stale, Sorted(StaleIn(v, m)), op);
    LoopHas(m, Extra, o.extra, op);
    assert OpsFor(m, Drift, o.drift[j]) == [op];
    MadeIff(BeforeDrift(v, m), m, Drift, o.drift, [Look] + LoopOps(m, Extra, o.extra), done, j, 0);
  }

  lemma ExtraMade(v: View, m: Model, o: Choice, done: nat, j: nat)
    requires AsksNothing(m) && ChoiceOk(o, v, m) && done <= |Script(v, m, o)| && j < |o.extra|
    ensures DropQ(o.extra[j]) in Script(v, m, o)[..done] <==> done > 2 * |StaleIn(v, m)| + |DriftIn(v, m)| + 5 + j
  {
    hide StaleIn, DriftIn, ExtraIn, LoopOps, Sorted, Elems;
    ScriptToNothing(v, m, o);
    hide Script;
    var op := DropQ(o.extra[j]);
    LoopHas(m, Stale, Sorted(StaleIn(v, m)), op);
    LoopHas(m, Drift, o.drift, op);
    assert OpsFor(m, Extra, o.extra[j]) == [op];
    var pre := BeforeDrift(v, m) + LoopOps(m, Drift, o.drift) + [Look];
    assert pre + LoopOps(m, Extra, o.extra) + [] == Script(v, m, o) by {
      assert Script(v, m, o) == BeforeDrift(v, m) + LoopOps(m, Drift, o.drift) + ([Look] + LoopOps(m, Extra, o.extra));
    }
    MadeIff(pre, m, Extra, o.extra, [], done, j, 0);
  }

  // ------------------------------------------------------------ what is left

  lemma ExtensionsLeft(v: View, m: Model, o: Choice, done: nat)
    requires AsksNothing(m) && ChoiceOk(o, v, m) && done <= |Script(v, m, o)|
    ensures (exists n :: Key(m.dom, n) in RunOps(v, m, Script(v, m, o)[..done]).exts) <==>
      done <= 2 * |StaleIn(v, m)| - 1
  {
    hide StaleIn, DriftIn, ExtraIn, LoopOps, Script, RunOps, ChoiceOk;
    assert |m.exts| == 0;
    var ops := Script(v, m, o)[..done];
    if n :| Key(m.dom, n) in RunOps(v, m, ops).exts {
      ExtensionFate(v, m, ops, n);
      StaleHad(v, m, n);
      var j := StalePlace(v, m, n);
      StaleMade(v, m, o, done, j);
    }
    if done <= 2 * |StaleIn(v, m)| - 1 {
      var j := |StaleIn(v, m)| - 1;
      StaleMade(v, m, o, done, j);
      var n := Sorted(StaleIn(v, m))[j];
      StaleHad(v, m, n);
      ExtensionFate(v, m, ops, n);
    }
  }

  ghost predicate FeatureLeft(names: iset<string>, v: View, d: string) {
    exists k, n :: k != CallQueue && Mine(names, d, n) && FeatureName(k, d, n) in v.plans
  }

  // The domain's features are what the run finds as drift.
  lemma FeatureIsDrift(names: iset<string>, v: View, m: Model, k: Kind, n: string)
    requires AsksNothing(m) && Orderly(names, v, m.dom) && k != CallQueue && Mine(names, m.dom, n)
    requires FeatureName(k, m.dom, n) in v.plans
    ensures FeatureName(k, m.dom, n) in DriftIn(v, m)
  {
    hide Mine, FeatureName, Numbers;
    IsWanted(m, k, n);
  }

  lemma DriftIsFeature(names: iset<string>, v: View, m: Model, name: string) returns (k: Kind, n: string)
    requires Orderly(names, v, m.dom) && name in DriftIn(v, m)
    ensures k != CallQueue && Mine(names, m.dom, n) && name == FeatureName(k, m.dom, n) && name in v.plans
  {
    assert IsOwnFeature(names, name, m.dom);
    k, n :| k != CallQueue && Mine(names, m.dom, n) && name == FeatureName(k, m.dom, n);
  }

  lemma FeaturesLeft(names: iset<string>, v: View, m: Model, o: Choice, done: nat)
    requires AsksNothing(m) && ChoiceOk(o, v, m) && done <= |Script(v, m, o)| && Orderly(names, v, m.dom)
    ensures FeatureLeft(names, RunOps(v, m, Script(v, m, o)[..done]), m.dom) <==>
            |DriftIn(v, m)| > 0 && done <= 2 * |StaleIn(v, m)| + |DriftIn(v, m)| + 3
  {
    hide StaleIn, DriftIn, ExtraIn, LoopOps, Script, RunOps, Orderly, Mine, FeatureName;
    var ops := Script(v, m, o)[..done];
    var w := RunOps(v, m, ops);
    EnumeratesSize(o.drift, DriftIn(v, m));
    if k, n :| k != CallQueue && Mine(names, m.dom, n) && FeatureName(k, m.dom, n) in w.plans {
      PlanFate(v, m, ops, k, n);
      FeatureIsDrift(names, v, m, k, n);
      var j := PlaceIn(o.drift, FeatureName(k, m.dom, n));
      DriftMade(v, m, o, done, j);
    }
    if |o.drift| > 0 && done <= 2 * |StaleIn(v, m)| + |o.drift| + 3 {
      var j := |o.drift| - 1;
      assert o.drift[j] in Elems(o.drift);
      var k, n := DriftIsFeature(names, v, m, o.drift[j]);
      DriftMade(v, m, o, done, j);
      PlanFate(v, m, ops, k, n);
    }
  }

  lemma PlaceIn(order: seq<string>, x: string) returns (j: nat)
    requires x in Elems(order)
    ensures j < |order| && order[j] == x
  {
    j :| 0 <= j < |order| && order[j] == x;
  }

  lemma ExtraHas(v: View, m: Model, n: string)
    ensures n in ExtraIn(v, m) <==> Key(m.dom, n) in v.queues && n !in m.queues
  {
    if Key(m.dom, n) in v.queues {
      assert Key(m.dom, n).number in NumbersIn(v.queues, m.dom);
    }
    if n in ExtraIn(v, m) {
      var k :| k in v.queues && k.dom == m.dom && k.number == n;
      assert k == Key(m.dom, n);
    }
  }

  lemma QueuesLeft(v: View, m: Model, o: Choice, done: nat)
    requires AsksNothing(m) && ChoiceOk(o, v, m) && done <= |Script(v, m, o)|
    requires (ExtraIn(v, m) != {} ==> m.dom in v.domains)
    ensures (exists n :: Key(m.dom, n) in RunOps(v, m, Script(v, m, o)[..done]).queues) <==>
            |ExtraIn(v, m)| > 0 && done <= 2 * |StaleIn(v, m)| + |DriftIn(v, m)| + |ExtraIn(v, m)| + 4
  {
    hide StaleIn, DriftIn, ExtraIn, LoopOps, Script, RunOps;
    var ops := Script(v, m, o)[..done];
    EnumeratesSize(o.extra, ExtraIn(v, m));
    QueueKeys(m);
    if n :| Key(m.dom, n) in RunOps(v, m, ops).queues {
      ExtraHas(v, m, n);
      QueueOnlyGoes(v, m, ops, n);
      QueueFate(v, m, ops, n);
      var j := PlaceIn(o.extra, n);
      ExtraMade(v, m, o, done, j);
    }
    if |o.extra| > 0 && done <= 2 * |StaleIn(v, m)| + |DriftIn(v, m)| + |o.extra| + 4 {
      var j := |o.extra| - 1;
      assert o.extra[j] in Elems(o.extra);
      ExtraHas(v, m, o.extra[j]);
      ExtraMade(v, m, o, done, j);
      QueueFate(v, m, ops, o.extra[j]);
    }
  }

  lemma {:induction false} QueueOnlyGoes(v: View, m: Model, ops: seq<Op>, n: string)
    requires n !in m.queues && Key(m.dom, n) in RunOps(v, m, ops).queues
    ensures Key(m.dom, n) in v.queues
  {
    hide Effect;
    if ops != [] {
      var k := |ops| - 1;
      QueueComesFrom(RunOps(v, m, ops[..k]), m, ops[k], n);
      QueueOnlyGoes(v, m, ops[..k], n);
    }
  }

  lemma QueueComesFrom(v: View, m: Model, op: Op, n: string)
    requires n !in m.queues && Key(m.dom, n) in Effect(v, m, op).queues
    ensures Key(m.dom, n) in v.queues
  {
    hide FeatureName, XmlFor, Numbers, Elems;
  }

  lemma ShareEmpty(names: iset<string>, v: View, d: string)
    requires Orderly(names, v, d)
    ensures Project(names, v, d) != EMPTY <==>
      (exists n :: Key(d, n) in v.exts) || FeatureLeft(names, v, d) || (exists n :: Key(d, n) in v.queues)
  {
    hide Mine, FeatureName;
    var p := Project(names, v, d);
    assert p == EMPTY <==> p.exts == imap[] && p.plans == imap[] && p.queues == imap[];
    assert p.exts == imap[] <==> !exists n :: Key(d, n) in v.exts by {
      if n :| Key(d, n) in v.exts { assert n in p.exts; }
    }
    assert p.queues == imap[] <==> !exists n :: Key(d, n) in v.queues by {
      if n :| Key(d, n) in v.queues { assert n in p.queues; }
    }
    if k, n :| k != CallQueue && Mine(names, d, n) && FeatureName(k, d, n) in v.plans {
      assert (k, n) in p.plans;
    }
    if q :| q in p.plans {
      assert Mine(names, d, q.1) && FeatureName(q.0, d, q.1) in v.plans;
      assert q.0 == CallQueue ==> Key(d, q.1) in v.queues;
    } else {
      assert p.plans == imap[];
    }
  }

  /** Something of the share of domain `d` is left, exactly when the first outage from call `calls`
      on comes no later than the last call that removes something. */
  ghost predicate Leaves(names: iset<string>, outage: nat -> bool, calls: nat, before: View, after: View, d: string) {
    Project(names, after, d) != EMPTY <==>
        exists at: nat :: FirstOutage(outage, calls, at) && at - calls <= LastRemoval(before, d)
  }

  /** A run that is to take everything from a tenant leaves something of its share on the PBX
      exactly when the first outage comes no later than its last removing call. */
  lemma LeftBehindIff(names: iset<string>, s: Snap, s': Snap, m: Model, outage: nat -> bool, status: SyncStatus)
    requires Reconciled(s, s', m, outage, status) && AsksNothing(m) && m.dom in names && Orderly(names, s.view, m.dom)
    requires ExtraIn(s.view, m) != {} ==> m.dom in s.view.domains
    ensures Leaves(names, outage, s.calls, s.view, s'.view, m.dom)
  {
    hide Reconciled, Orderly, StaleIn, DriftIn, ExtraIn, Script, RunOps, ChoiceOk, Between, Project, FeatureLeft;
    hide FirstOutage;
    ReconciledBetween(s, s', m, outage, status);
    assert NumbersMine(names, m);
    OrderlyStays(names, s.view, s'.view, m, Had(s.view, m), m.dom);
    ShareEmpty(names, s'.view, m.dom);
    var o, done := RunCalls(s, s', m, outage, status);
    ScriptToNothing(s.view, m, o);
    AllIsStale(s.view, m);
    ExtensionsLeft(s.view, m, o, done);
    FeaturesLeft(names, s.view, m, o, done);
    QueuesLeft(s.view, m, o, done);
    assert Project(names, s'.view, m.dom) != EMPTY <==> done <= LastRemoval(s.view, m.dom);
    if status == Error {
      assert FirstOutage(outage, s.calls, s.calls + done);
      forall at: nat | FirstOutage(outage, s.calls, at) ensures at == s.calls + done {
        OneFirst(outage, s.calls, at, s.calls + done);
      }
    } else {
      forall at: nat | FirstOutage(outage, s.calls, at) ensures at >= s.calls + done {
        NotBefore(outage, s.calls, s.calls + done, at);
      }
    }
  }

  /** Some voicemail box of domain `d` is left, exactly when it had one without an extension, or
      the first outage comes no later than the delete_voicemail of a number that has one. */
  ghost predicate LeavesBoxes(outage: nat -> bool, calls: nat, before: View, after: View, d: string) {
    (exists n :: Key(d, n) in after.boxes) <==>
      (exists n :: Key(d, n) in before.boxes && Key(d, n) !in before.exts)
      || (exists at: nat, j: nat :: FirstOutage(outage, calls, at) && BoxLate(before, d, calls, at, j))
  }

  /** The number at place `j` of the sorted order has a box, and its delete_voicemail was not made
      when call `at` met the outage. */
  ghost predicate BoxLate(v: View, d: string, calls: nat, at: nat, j: nat) {
    && j < |Sorted(NumbersIn(v.exts, d))| && at <= calls + 2 * j + 2
    && Key(d, Sorted(NumbersIn(v.exts, d))[j]) in v.boxes
  }

  // The number at place `j`: its box is left exactly when its second deletion was not made.
  lemma BoxAt(v: View, m: Model, o: Choice, calls: nat, done: nat, j: nat)
    requires AsksNothing(m) && ChoiceOk(o, v, m) && done <= |Script(v, m, o)| && j < |Sorted(StaleIn(v, m))|
    ensures Key(m.dom, Sorted(StaleIn(v, m))[j]) in RunOps(v, m, Script(v, m, o)[..done]).boxes <==>
            BoxLate(v, m.dom, calls, calls + done, j)
  {
    hide StaleIn, DriftIn, ExtraIn, Script, RunOps, ChoiceOk, Sorted;
    AllIsStale(v, m);
    EnumeratesSize(Sorted(StaleIn(v, m)), StaleIn(v, m));
    assert |m.exts| == 0;
    StaleMade(v, m, o, done, j);
    BoxFate(v, m, Script(v, m, o)[..done], Sorted(StaleIn(v, m))[j]);
  }

  /** The same run leaves voicemail boxes behind on a wider condition. */
  lemma BoxesLeftIff(s: Snap, s': Snap, m: Model, outage: nat -> bool, status: SyncStatus)
    requires Reconciled(s, s', m, outage, status) && AsksNothing(m)
    ensures LeavesBoxes(outage, s.calls, s.view, s'.view, m.dom)
  {
    hide Reconciled, StaleIn, DriftIn, ExtraIn, Script, RunOps, ChoiceOk, Sorted, BoxLate, FirstOutage;
    var v, w := s.view, s'.view;
    AllIsStale(v, m);
    var o, done := RunCalls(s, s', m, outage, status);
    if n :| Key(m.dom, n) in w.boxes {
      StaleHad(v, m, n);
      if n in StaleIn(v, m) {
        var j := StalePlace(v, m, n);
        BoxAt(v, m, o, s.calls, done, j);
        LateWasCut(s, m, o, done, j, status);
        assert FirstOutage(outage, s.calls, s.calls + done);
      } else {
        BoxOfNeither(s, s', m, outage, status, n);
      }
    }
    if n :| Key(m.dom, n) in v.boxes && Key(m.dom, n) !in v.exts {
      StaleHad(v, m, n);
      BoxOfNeither(s, s', m, outage, status, n);
    }
    if at: nat, j: nat :| FirstOutage(outage, s.calls, at) && BoxLate(v, m.dom, s.calls, at, j) {
      LatePlace(v, m, s.calls, at, j);
      FirstIsDone(s, m, o, outage, status, done, at, j);
      BoxAt(v, m, o, s.calls, done, j);
      LateHasBox(v, m, s.calls, at, j);
    }
  }

  lemma LateWasCut(s: Snap, m: Model, o: Choice, done: nat, j: nat, status: SyncStatus)
    requires AsksNothing(m) && ChoiceOk(o, s.view, m) && BoxLate(s.view, m.dom, s.calls, s.calls + done, j)
    requires status == Synced <==> done == |Script(s.view, m, o)|
    ensures status == Error
  {
    hide Sorted, DriftIn, ExtraIn, Script, ChoiceOk;
    LatePlace(s.view, m, s.calls, s.calls + done, j);
    StaleCalls(s.view, m, o, j);
  }

  lemma LateHasBox(v: View, m: Model, calls: nat, at: nat, j: nat)
    requires AsksNothing(m) && BoxLate(v, m.dom, calls, at, j)
    ensures j < |Sorted(StaleIn(v, m))| && Key(m.dom, Sorted(StaleIn(v, m))[j]) in v.boxes
  {
    hide Sorted, StaleIn, DriftIn, ExtraIn;
    AllIsStale(v, m);
  }

  lemma LatePlace(v: View, m: Model, calls: nat, at: nat, j: nat)
    requires AsksNothing(m) && BoxLate(v, m.dom, calls, at, j)
    ensures j < |Sorted(StaleIn(v, m))| == |StaleIn(v, m)| && at <= calls + 2 * j + 2 && |m.exts| == 0
  {
    hide Sorted, StaleIn, DriftIn, ExtraIn;
    AllIsStale(v, m);
    EnumeratesSize(Sorted(StaleIn(v, m)), StaleIn(v, m));
  }

  // An outage that early is where the run stopped.
  lemma FirstIsDone(s: Snap, m: Model, o: Choice, outage: nat -> bool, status: SyncStatus, done: nat, at: nat, j: nat)
    requires AsksNothing(m) && FirstOutage(outage, s.calls, at) && BoxLate(s.view, m.dom, s.calls, at, j)
    requires status == Synced ==> done == |Script(s.view, m, o)| && Clear(outage, s.calls, s.calls + done)
    requires status == Error ==> FirstOutage(outage, s.calls, s.calls + done)
    ensures at == s.calls + done
  {
    hide Sorted, Script, StaleIn, DriftIn, ExtraIn;
    LatePlace(s.view, m, s.calls, at, j);
    StaleCalls(s.view, m, o, j);
    NotBefore(outage, s.calls, s.calls + done, at);
    if status == Error {
      OneFirst(outage, s.calls, at, s.calls + done);
    }
  }

  lemma NotBefore(outage: nat -> bool, from: nat, to: nat, at: nat)
    requires FirstOutage(outage, from, at)
    ensures Clear(outage, from, to) ==> at >= to
  {}

  /** What a run towards nothing leaves, boxes included. */
  ghost predicate LeavesAll(names: iset<string>, outage: nat -> bool, calls: nat, before: View, after: View,
      d: string) {
    Leaves(names, outage, calls, before, after, d) && LeavesBoxes(outage, calls, before, after, d)
  }

  lemma EverythingLeft(names: iset<string>, s: Snap, s': Snap, m: Model, outage: nat -> bool, status: SyncStatus)
    requires Reconciled(s, s', m, outage, status) && AsksNothing(m) && m.dom in names && Orderly(names, s.view, m.dom)
    requires ExtraIn(s.view, m) != {} ==> m.dom in s.view.domains
    ensures LeavesAll(names, outage, s.calls, s.view, s'.view, m.dom)
  {
    hide Reconciled, AsksNothing, Orderly, ExtraIn, Leaves, LeavesBoxes;
    LeftBehindIff(names, s, s', m, outage, status);
    BoxesLeftIff(s, s', m, outage, status);
  }
}
