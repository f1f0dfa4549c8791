/** One whole run of the reconciler for one customer (app/services/reconcile/voice.py:42-195). */
module Voice {
  import opened Names
  import opened Orders
  import opened Tables
  import opened CallCenter
  import opened Transactions
  import opened Client
  import opened Models
  import opened Progress
  import opened Scripts
  import opened Reconcile

  datatype SyncStatus = Synced | Error

  /** The PBX matches the model. */
  ghost predicate Settled(v: View, m: Model) {
    && SettledExts(v, m) && (m.active ==> SettledBoxes(v, m) && SettledShared(v, m))
    && SettledPlans(v, m) && SettledQueues(v, m)
  }

  // --------------------------------------------------------------- extensions

  lemma ExtsSettled(a: View, b: View, c: View, m: Model)
    requires ExtsBetween(a.exts, b.exts, m) && HasExts(b, m, m.exts.Keys)
    requires OnlyStale(b, c, m.dom, StaleIn(a, m)) && Cleared(c, m.dom, StaleIn(a, m))
    ensures SettledExts(c, m)
  {
    hide DisplayNames;
    forall k | k in c.exts && k.dom == m.dom ensures k.number in m.exts {
      assert Key(m.dom, k.number) == k;
      assert k.number !in m.exts && k in b.exts ==> k in a.exts && k.number in Had(a, m);
    }
  }

  lemma NothingStale(v: View, m: Model)
    requires SettledExts(v, m)
    ensures StaleIn(v, m) == {}
  {
    hide DisplayNames;
  }

  lemma HadValid(v: View, m: Model)
    requires NumbersOk(v)
    ensures forall n :: n in Had(v, m) ==> ValidToken(n)
  {
    hide ValidToken;
  }

  // After the listing and the loop that creates or refreshes.
  ghost predicate ExtsReady(s: Snap, s2: Snap, m: Model, outage: nat -> bool, ok: bool) {
    && Advanced(s, s2, m, Had(s.view, m), outage, ok) && OnlyExts(s.view, s2.view)
    && (ok ==> HasExts(s2.view, m, m.exts.Keys))
    && (SettledExts(s.view, m) && (m.exts != map[] ==> m.dom in s.view.domains) ==> Quiet(s, s2))
  }

  lemma AfterExts(s: Snap, s1: Snap, s2: Snap, m: Model, outage: nat -> bool, ok: bool)
    requires s1 == s.(calls := s.calls + 1) && Advanced(s, s1, m, Had(s.view, m), outage, true)
    requires ExtsDone(s1, s2, m, Had(s.view, m), outage, ok, m.exts.Keys)
    ensures ExtsReady(s, s2, m, outage, ok)
  {
    hide HasExts, SettledExts, Advanced;
    AdvancedTrans(s, s1, s2, m, Had(s.view, m), outage, ok);
  }

  lemma AfterStale(s: Snap, s2: Snap, s3: Snap, m: Model, outage: nat -> bool, ok: bool)
    requires ExtsReady(s, s2, m, outage, true)
    requires StaleDone(s2, s3, m, Had(s.view, m), outage, ok, StaleIn(s.view, m), StaleIn(s.view, m))
    ensures Advanced(s, s3, m, Had(s.view, m), outage, ok) && s3.view.plans == s.view.plans
    ensures s3.view.queues == s.view.queues
    ensures ok ==> SettledExts(s3.view, m)
    ensures SettledExts(s.view, m) && (m.exts != map[] ==> m.dom in s.view.domains) ==> Quiet(s, s3)
  {
    hide OthersKept, PlansKept, Touched, LoginsKept, ExtsBetween, BoxesBetween, PlansBetween, LinksBetween;
    hide QueuesBetween, NumbersIn, HasExts;
    hide Cleared, SettledExts;
    assert ExtsBetween(s.view.exts, s2.view.exts, m);
    assert s3.view.plans == s2.view.plans && s3.view.queues == s2.view.queues;
    hide Advanced, OnlyStale;
    AdvancedTrans(s, s2, s3, m, Had(s.view, m), outage, ok);
    if ok {
      ExtsSettled(s.view, s2.view, s3.view, m);
    }
    if SettledExts(s.view, m) {
      NothingStale(s.view, m);
    }
  }

  /** List, create or refresh, then delete what is stale. */
  method SyncExtensions(c: FusionpbxClient, m: Model) returns (ok: bool)
    requires c.Valid() && ValidModel(m)
    modifies c
    ensures c.Valid() && Advanced(old(Now(c)), Now(c), m, Had(old(c.view), m), c.outage, ok)
    ensures Ran(old(Now(c)), Now(c), m, ExtOps(old(c.view), m), ok)
    ensures ok ==> SettledExts(c.view, m)
    ensures c.view.plans == old(c.view).plans && c.view.queues == old(c.view).queues
    ensures SettledExts(old(c.view), m) && (m.exts != map[] ==> m.dom in old(c.view).domains) ==>
      Quiet(old(Now(c)), Now(c))
  {
    hide WellFormed, Shows, ValidDomain, ValidToken, ValidTokens, SettledExts, NumbersIn;
    hide ExtsDone, StaleDone, Advanced, Ran, LoopOps;
    ghost var s, had := Now(c), Had(c.view, m);
    ghost var puts, drops := LoopOps(m, Exts, Sorted(m.exts.Keys)), LoopOps(m, Stale, Sorted(StaleIn(c.view, m)));
    var r := c.ListExtensions(m.dom);
    ghost var s1 := Now(c);
    CallLooked(s, s1, m, had, c.outage);
    RanLook(s, s1, m, r.Ok?);
    if !r.Ok? {
      RanCut(s, s1, m, [Look], puts);
      RanCut(s, s1, m, [Look] + puts, drops);
      return false;
    }
    HadValid(c.view, m);
    hide ValidModel, NumbersOk, ExtsReady;
    var delta := ComputeDelta(m.exts.Keys, r.value);
    ok := ApplyExtensions(c, m, had);
    ghost var s2 := Now(c);
    AfterExts(s, s1, s2, m, c.outage, ok);
    RanTrans(s, s1, s2, m, [Look], puts, ok);
    if !ok {
      RanCut(s, s2, m, [Look] + puts, drops);
      ReadyCut(s, s2, m, c.outage);
      return;
    }
    ok := DropStale(c, m, had, delta.toDelete);
    AfterStale(s, s2, Now(c), m, c.outage, ok);
    RanTrans(s, s2, Now(c), m, [Look] + puts, drops, ok);
  }

  lemma ReadyCut(s: Snap, s2: Snap, m: Model, outage: nat -> bool)
    requires ExtsReady(s, s2, m, outage, false)
    ensures Advanced(s, s2, m, Had(s.view, m), outage, false) && s2.view.plans == s.view.plans
    ensures s2.view.queues == s.view.queues
    ensures SettledExts(s.view, m) && (m.exts != map[] ==> m.dom in s.view.domains) ==> Quiet(s, s2)
  {
    hide Advanced, SettledExts, Had;
  }

  // ------------------------------------------------------ boxes, shared rows

  /** Voicemail boxes and the rows that all customers share. */
  method SyncShared(c: FusionpbxClient, m: Model, ghost actual: set<string>) returns (ok: bool)
    requires c.Valid() && ValidModel(m)
    modifies c
    ensures c.Valid() && Advanced(old(Now(c)), Now(c), m, actual, c.outage, ok)
    ensures Ran(old(Now(c)), Now(c), m, LoopOps(m, Boxes, Sorted(m.exts.Keys)) + ([SetDir] + [SetRouting]), ok)
    ensures c.view.exts == old(c.view).exts && c.view.queues == old(c.view).queues
    ensures old(c.view).plans.Keys <= c.view.plans.Keys
    ensures ok ==> SettledBoxes(c.view, m) && SettledShared(c.view, m)
    ensures SettledBoxes(old(c.view), m) && SettledShared(old(c.view), m) ==> Quiet(old(Now(c)), Now(c))
  {
    hide WellFormed, Shows, NumbersOk, ValidModel, Advanced, HasBoxes, SettledBoxes, Ran, LoopOps;
    ghost var s := Now(c);
    ghost var boxes, rest := LoopOps(m, Boxes, Sorted(m.exts.Keys)), [SetDir] + [SetRouting];
    ok := ApplyVoicemail(c, m, actual);
    if !ok {
      RanCut(s, Now(c), m, boxes, rest);
      return;
    }
    ghost var s1 := Now(c);
    BoxesSettled(s1.view, m);
    hide SettledShared;
    ok := ApplyShared(c, m, actual);
    SameBoxes(s1.view, c.view, m);
    SharedKeys(s1, Now(c), m, actual, c.outage, ok);
    RanTrans(s, s1, Now(c), m, boxes, rest, ok);
    AdvancedTrans(s, s1, Now(c), m, actual, c.outage, ok);
  }

  lemma SharedKeys(s: Snap, s': Snap, m: Model, actual: set<string>, outage: nat -> bool, ok: bool)
    requires SharedDone(s, s', m, actual, outage, ok)
    ensures s.view.plans.Keys <= s'.view.plans.Keys
  {
    hide OthersKept, PlansKept, Touched, LoginsKept, ExtsBetween, BoxesBetween, LinksBetween, QueuesBetween;
    hide SettledShared, WantedName, XmlFor;
  }

  lemma BoxesSettled(v: View, m: Model)
    ensures HasBoxes(v, m, m.exts.Keys) <==> SettledBoxes(v, m)
  {}

  lemma SameBoxes(a: View, b: View, m: Model)
    requires a.boxes == b.boxes
    ensures SettledBoxes(a, m) <==> SettledBoxes(b, m)
  {}

  // ---------------------------------------------------------------- dialplans

  lemma ManagedDroppable(v: View, m: Model)
    requires TagsFit(v, m.dom)
    ensures forall name :: name in DriftIn(v, m) ==> Droppable(v, m, name)
  {
    forall name | name in DriftIn(v, m) ensures Droppable(v, m, name) {
      assert IsFeatureName(name, m.dom);
      var k, n :| k != CallQueue && name == FeatureName(k, m.dom, n);
      IsWanted(m, k, n);
      WantedIff(m, k, n);
      hide FeatureName, WantedNames, Numbers, WantedName, IsFeatureName;
    }
  }

  lemma DriftGone(a: View, b: View, m: Model)
    requires OnlyDropped(a, b, DriftIn(a, m))
    ensures OnlyWantedPlans(b, m)
  {
    hide WantedNames;
    assert forall name :: name in b.plans && b.plans[name].tag == FeatureTag(m.dom) ==> name in ManagedIn(a, m.dom);
  }

  lemma NoDrift(v: View, m: Model)
    ensures OnlyWantedPlans(v, m) <==> DriftIn(v, m) == {}
  {
    hide WantedNames;
    assert forall name :: name in ManagedIn(v, m.dom) <==> name in v.plans && v.plans[name].tag == FeatureTag(m.dom);
    if DriftIn(v, m) == {} {
      assert forall name :: name in ManagedIn(v, m.dom) ==> name in DriftIn(v, m) || name in WantedNames(m);
    }
  }

  // Steps that only write wanted dialplans leave the drift to be found later.
  lemma SameDrift(a: View, b: View, m: Model)
    requires PlansBetween(a, b, m) && a.plans.Keys <= b.plans.Keys
    ensures DriftIn(b, m) == DriftIn(a, m)
  {
    forall name | name in b.plans && name !in a.plans && b.plans[name].tag == FeatureTag(m.dom)
      ensures name in WantedNames(m)
    {
      var k, n :| n in Numbers(m, k) && name == FeatureName(k, m.dom, n);
      IsWanted(m, k, n);
      hide FeatureName, Numbers, WantedNames, XmlFor;
    }
    hide FeatureName, WantedName, WantedNames, Droppable, Numbers, XmlFor;
  }

  /** List the managed dialplans of the domain and delete all but the desired ones. */
  method DropManaged(c: FusionpbxClient, m: Model, ghost actual: set<string>, desired: set<string>) returns (ok: bool,
      ghost drift: seq<string>)
    requires c.Valid() && ValidModel(m) && TagsFit(c.view, m.dom) && desired == WantedNames(m)
    modifies c
    ensures c.Valid() && Advanced(old(Now(c)), Now(c), m, actual, c.outage, ok) && Keeps(old(c.view), c.view, m)
    ensures Enumerates(drift, DriftIn(old(c.view), m))
    ensures Ran(old(Now(c)), Now(c), m, [Look] + LoopOps(m, Drift, drift), ok)
    ensures ok ==> OnlyWantedPlans(c.view, m)
    ensures OnlyWantedPlans(old(c.view), m) ==> Quiet(old(Now(c)), Now(c))
    ensures c.view.queues == old(c.view).queues
  {
    hide WellFormed, Shows, NumbersOk, ValidDomain, ValidToken, ValidTokens, ManagedIn, WantedNames, OnlyWantedPlans;
    hide TagsFit, OnlyDropped, Droppable;
    hide SettledKind, SettledShared, Ran, LoopOps, Enumerates;
    ghost var s := Now(c);
    NoDrift(s.view, m);
    drift := Sorted(DriftIn(s.view, m));
    var r := c.ListManagedDialplans(m.dom);
    CallLooked(s, Now(c), m, actual, c.outage);
    RanLook(s, Now(c), m, r.Ok?);
    if !r.Ok? {
      RanCut(s, Now(c), m, [Look], LoopOps(m, Drift, drift));
      return false, drift;
    }
    ghost var s1 := Now(c);
    hide ValidModel, Advanced;
    ManagedDroppable(c.view, m);
    ok, drift := DropDrift(c, m, actual, r.value - desired);
    AdvancedTrans(s, s1, Now(c), m, actual, c.outage, ok);
    RanTrans(s, s1, Now(c), m, [Look], LoopOps(m, Drift, drift), ok);
    if ok {
      DriftGone(s1.view, c.view, m);
    }
  }

  lemma KeepsSettled(a: View, b: View, m: Model)
    requires Keeps(a, b, m)
    ensures forall k :: SettledKind(a, m, k) ==> SettledKind(b, m, k)
  {
    hide SettledKind;
  }

  // One kind of feature after another: what has been done so far, and under which script.
  ghost predicate PlansDone(s: Snap, s': Snap, m: Model, actual: set<string>, outage: nat -> bool, ok: bool,
      ops: seq<Op>) {
    && Advanced(s, s', m, actual, outage, ok) && Keeps(s.view, s'.view, m) && Ran(s, s', m, ops, ok)
    && s'.view.queues == s.view.queues
  }

  lemma PlansNext(s: Snap, s1: Snap, s2: Snap, m: Model, actual: set<string>, outage: nat -> bool, ok: bool,
      a: seq<Op>, b: seq<Op>)
    requires PlansDone(s, s1, m, actual, outage, true, a) && PlansDone(s1, s2, m, actual, outage, ok, b)
    ensures PlansDone(s, s2, m, actual, outage, ok, a + b)
  {
    hide Advanced, Keeps, Ran;
    AdvancedTrans(s, s1, s2, m, actual, outage, ok);
    KeepsTrans(s.view, s1.view, s2.view, m);
    RanTrans(s, s1, s2, m, a, b, ok);
  }

  lemma PlansCut(s: Snap, s': Snap, m: Model, actual: set<string>, outage: nat -> bool, a: seq<Op>, b: seq<Op>)
    requires PlansDone(s, s', m, actual, outage, false, a)
    ensures PlansDone(s, s', m, actual, outage, false, a + b)
  {
    hide Advanced, Keeps, Ran;
    RanCut(s, s', m, a, b);
  }

  lemma KindPlans(s: Snap, s': Snap, m: Model, k: Kind, actual: set<string>, outage: nat -> bool, ok: bool,
      order: seq<string>)
    requires KindDone(s, s', m, k, actual, outage, ok, Numbers(m, k))
    requires Ran(s, s', m, LoopOps(m, Features(k), order), ok)
    ensures PlansDone(s, s', m, actual, outage, ok, LoopOps(m, Features(k), order))
    ensures s.view.plans.Keys <= s'.view.plans.Keys
    ensures ok ==> SettledKind(s'.view, m, k)
    ensures SettledKind(s.view, m, k) && m.dom in s.view.domains ==> Quiet(s, s')
  {
    hide Advanced, Keeps, Ran, HasPlans, LoopOps;
  }

  /** Create the conferences, ring groups and IVRs, and collect their names. */
  method SyncKinds(c: FusionpbxClient, m: Model, ghost actual: set<string>) returns (ok: bool, names: set<string>,
      ghost o: Choice)
    requires c.Valid() && ValidModel(m)
    modifies c
    ensures c.Valid() && ChoiceOk(o, old(c.view), m)
    ensures PlansDone(old(Now(c)), Now(c), m, actual, c.outage, ok, KindOps(m, o))
    ensures old(c.view).plans.Keys <= c.view.plans.Keys
    ensures ok ==> names == WantedNames(m)
    ensures ok ==>
      SettledKind(c.view, m, Conference) && SettledKind(c.view, m, RingGroup) && SettledKind(c.view, m, Ivr)
    ensures SettledPlans(old(c.view), m) && m.dom in old(c.view).domains ==> Quiet(old(Now(c)), Now(c))
  {
    hide WellFormed, Shows, NumbersOk, ValidModel, Keeps, OnlyWantedPlans, SettledKind, Numbers, NamesFor, KindDone;
    hide PlansDone, Advanced;
    hide Ran, LoopOps, Enumerates, DriftIn, ExtraIn;
    ghost var s := Now(c);
    o, names := SomeChoice(s.view, m), {};
    ghost var order;
    var conferences, rings, ivrs;
    ok, conferences, order := ApplyKind(c, m, actual, Conference);
    o := o.(conferences := order);
    ghost var s1 := Now(c);
    ghost var a, b, d := LoopOps(m, Features(Conference), o.conferences), LoopOps(m, Features(RingGroup),
      o.rings), LoopOps(m, Features(Ivr), o.ivrs);
    KindPlans(s, s1, m, Conference, actual, c.outage, ok, order);
    if !ok {
      PlansCut(s, s1, m, actual, c.outage, a, b);
      PlansCut(s, s1, m, actual, c.outage, a + b, d);
      return;
    }
    ok, rings, order := ApplyKind(c, m, actual, RingGroup);
    o, b := o.(rings := order), LoopOps(m, Features(RingGroup), order);
    ghost var s2 := Now(c);
    KindPlans(s1, s2, m, RingGroup, actual, c.outage, ok, order);
    PlansNext(s, s1, s2, m, actual, c.outage, ok, a, b);
    if !ok {
      PlansCut(s, s2, m, actual, c.outage, a + b, d);
      return;
    }
    ok, ivrs, order := ApplyKind(c, m, actual, Ivr);
    o, d := o.(ivrs := order), LoopOps(m, Features(Ivr), order);
    KindPlans(s2, Now(c), m, Ivr, actual, c.outage, ok, order);
    PlansNext(s, s2, Now(c), m, actual, c.outage, ok, a + b, d);
    KindsSettled(s1, s2, Now(c), m, actual, c.outage, ok, b, d);
    names := conferences + rings + ivrs;
  }

  lemma KindsSettled(s1: Snap, s2: Snap, s3: Snap, m: Model, actual: set<string>, outage: nat -> bool, ok: bool,
      a: seq<Op>, b: seq<Op>)
    requires PlansDone(s1, s2, m, actual, outage, true, a) && PlansDone(s2, s3, m, actual, outage, ok, b)
    ensures SettledKind(s1.view, m, Conference) ==> SettledKind(s3.view, m, Conference)
    ensures SettledKind(s2.view, m, RingGroup) ==> SettledKind(s3.view, m, RingGroup)
  {
    hide SettledKind, SettledShared, OnlyWantedPlans, Advanced, Ran;
  }

  lemma StillFits(s: Snap, s': Snap, m: Model, actual: set<string>, outage: nat -> bool, ok: bool)
    requires Advanced(s, s', m, actual, outage, ok) && TagsFit(s.view, m.dom)
    ensures TagsFit(s'.view, m.dom)
    ensures s.view.plans.Keys <= s'.view.plans.Keys ==> DriftIn(s'.view, m) == DriftIn(s.view, m)
  {
    hide TagsFit, PlansBetween, DriftIn, OthersKept, PlansKept, LoginsKept;
    TagsStayFit(s.view, s'.view, m, m.dom);
    if s.view.plans.Keys <= s'.view.plans.Keys {
      SameDrift(s.view, s'.view, m);
    }
  }

  /** The wanted features, then the managed dialplans beyond them. */
  method SyncPlans(c: FusionpbxClient, m: Model, ghost actual: set<string>) returns (ok: bool, ghost o: Choice)
    requires c.Valid() && ValidModel(m) && TagsFit(c.view, m.dom)
    modifies c
    ensures c.Valid() && PlansDone(old(Now(c)), Now(c), m, actual, c.outage, ok, PlanOps(m, o))
    ensures ChoiceOk(o, old(c.view), m)
    ensures ok ==> SettledPlans(c.view, m)
    ensures SettledPlans(old(c.view), m) && m.dom in old(c.view).domains ==> Quiet(old(Now(c)), Now(c))
  {
    hide WellFormed, Shows, NumbersOk, ValidModel, TagsFit, Keeps, OnlyWantedPlans, SettledKind, Numbers, Advanced;
    hide Ran, LoopOps, KindOps, Enumerates, DriftIn, ExtraIn, WantedNames;
    ghost var s := Now(c);
    var names;
    ok, names, o := SyncKinds(c, m, actual);
    ghost var s1 := Now(c);
    if !ok {
      PlansCut(s, s1, m, actual, c.outage, KindOps(m, o), [Look] + LoopOps(m, Drift, o.drift));
      return;
    }
    StillFits(s, s1, m, actual, c.outage, true);
    ghost var drift;
    ok, drift := DropManaged(c, m, actual, names);
    ghost var kinds := KindOps(m, o);
    SameKindOps(m, o, drift);
    o := o.(drift := drift);
    PlansNext(s, s1, Now(c), m, actual, c.outage, ok, kinds, [Look] + LoopOps(m, Drift, drift));
    KeepsSettled(s1.view, c.view, m);
  }

  lemma SameKindOps(m: Model, o: Choice, drift: seq<string>)
    ensures KindOps(m, o.(drift := drift)) == KindOps(m, o)
  {
    hide LoopOps;
  }

  lemma TwoSteps(s: Snap, s1: Snap, s2: Snap, m: Model, actual: set<string>, outage: nat -> bool, ok: bool)
    requires Advanced(s, s1, m, actual, outage, true) && Keeps(s.view, s1.view, m)
    requires Advanced(s1, s2, m, actual, outage, ok) && Keeps(s1.view, s2.view, m)
    ensures Advanced(s, s2, m, actual, outage, ok) && Keeps(s.view, s2.view, m)
  {
    hide Advanced, Keeps, ValidModel;
    AdvancedTrans(s, s1, s2, m, actual, outage, ok);
    KeepsTrans(s.view, s1.view, s2.view, m);
  }

  // ------------------------------------------------------------------- queues

  lemma QueuesSettled(v: View, m: Model)
    requires HasQueues(v, m, m.queues.Keys) && SettledKind(v, m, CallQueue)
    requires ExtraIn(v, m) == {}
    ensures SettledQueues(v, m)
  {
    hide ValidModel, StateFor, SettledKind;
    forall k | k in v.queues && k.dom == m.dom ensures k.number in m.queues {
      assert k.number in ExtraIn(v, m) || k.number in m.queues;
    }
  }

  lemma NoExtraQueues(v: View, m: Model)
    requires SettledQueues(v, m)
    ensures ExtraIn(v, m) == {}
  {
    hide ValidModel, StateFor, SettledKind;
  }

  lemma ExtraQueuesGone(a: View, b: View, d: string, wanted: set<string>)
    requires (forall k :: k in b.queues ==> k in a.queues) && QueuesGone(b, d, NumbersIn(a.queues, d) - wanted)
    ensures NumbersIn(b.queues, d) - wanted == {}
  {
    forall n | n in NumbersIn(b.queues, d) ensures n in wanted {
      assert Key(d, n) in b.queues;
      assert n in NumbersIn(a.queues, d);
    }
  }

  lemma QueueNumbersValid(c: FusionpbxClient, m: Model)
    requires c.Valid()
    ensures forall n :: n in ExtraIn(c.view, m) ==> ValidToken(n) && Key(m.dom, n) in c.view.queues
    ensures ExtraIn(c.view, m) != {} ==> m.dom in c.view.domains
  {
    hide ValidToken, WellFormed;
    if m.dom !in c.view.domains {
      assert forall u :: u in c.db.domains ==> c.db.domains[u] in c.db.domains.Values;
      NoDomainNoKeys(c.db, c.view, m.dom);
    }
    hide Shows;
    assert forall k :: k in c.view.queues && k.dom == m.dom ==> k == Key(m.dom, k.number);
  }

  /** List the queues of the domain and delete all but the desired ones. */
  method DropOtherQueues(c: FusionpbxClient, m: Model, ghost actual: set<string>) returns (ok: bool,
      ghost extra: seq<string>)
    requires c.Valid() && ValidModel(m)
    modifies c
    ensures c.Valid() && Advanced(old(Now(c)), Now(c), m, actual, c.outage, ok) && Keeps(old(c.view), c.view, m)
    ensures Enumerates(extra, ExtraIn(old(c.view), m))
    ensures Ran(old(Now(c)), Now(c), m, [Look] + LoopOps(m, Extra, extra), ok)
    ensures HasQueues(old(c.view), m, m.queues.Keys) ==> HasQueues(c.view, m, m.queues.Keys)
    ensures ok ==> ExtraIn(c.view, m) == {}
    ensures ExtraIn(old(c.view), m) == {} ==> Quiet(old(Now(c)), Now(c))
  {
    hide WellFormed, Shows, NumbersOk, ValidDomain, ValidToken, ValidTokens, NumbersIn, QueuesGone, HasQueues;
    hide SettledKind, SettledShared, OnlyWantedPlans, Ran, LoopOps, Enumerates;
    ghost var s := Now(c);
    extra := Sorted(ExtraIn(s.view, m));
    var r := c.ListQueues(m.dom);
    CallLooked(s, Now(c), m, actual, c.outage);
    RanLook(s, Now(c), m, r.Ok?);
    if !r.Ok? {
      RanCut(s, Now(c), m, [Look], LoopOps(m, Extra, extra));
      return false, extra;
    }
    ghost var s1 := Now(c);
    hide ValidModel, Advanced;
    QueueNumbersValid(c, m);
    ok, extra := DropQueues(c, m, actual, r.value - m.queues.Keys);
    AdvancedTrans(s, s1, Now(c), m, actual, c.outage, ok);
    RanTrans(s, s1, Now(c), m, [Look], LoopOps(m, Extra, extra), ok);
    if ok {
      ExtraQueuesGone(s1.view, c.view, m.dom, m.queues.Keys);
    }
  }

  lemma SameExtra(a: View, b: View, m: Model)
    requires QueuesBetween(a.queues, b.queues, m) && a.queues.Keys <= b.queues.Keys
    ensures ExtraIn(b, m) == ExtraIn(a, m)
  {
    hide StateFor;
    forall k | k in b.queues && k.dom == m.dom && k.number !in m.queues ensures k in a.queues {
      assert k == Key(m.dom, k.number);
    }
  }

  lemma QueuesReady(s: Snap, s': Snap, m: Model, actual: set<string>, outage: nat -> bool)
    requires QueuesDone(s, s', m, actual, outage, true, m.queues.Keys)
    ensures HasQueues(s'.view, m, m.queues.Keys) && SettledKind(s'.view, m, CallQueue)
    ensures ExtraIn(s'.view, m) == ExtraIn(s.view, m)
  {
    hide OthersKept, PlansKept, LoginsKept, ExtsBetween, BoxesBetween, PlansBetween, LinksBetween, Keeps, HasQueues;
    hide HasPlans, ExtraIn;
    assert QueuesBetween(s.view.queues, s'.view.queues, m);
    hide Advanced, QueuesBetween;
    SameExtra(s.view, s'.view, m);
    QueueKeys(m);
  }

  /** Ensure the wanted queues, then delete the others. */
  method SyncQueues(c: FusionpbxClient, m: Model, ghost actual: set<string>) returns (ok: bool,
      ghost order: seq<string>, ghost extra: seq<string>)
    requires c.Valid() && ValidModel(m)
    modifies c
    ensures c.Valid() && Advanced(old(Now(c)), Now(c), m, actual, c.outage, ok) && Keeps(old(c.view), c.view, m)
    ensures Enumerates(order, m.queues.Keys) && Enumerates(extra, ExtraIn(old(c.view), m))
    ensures Ran(old(Now(c)), Now(c), m, LoopOps(m, Queues, order) + ([Look] + LoopOps(m, Extra, extra)), ok)
    ensures ok ==> SettledQueues(c.view, m)
    ensures SettledQueues(old(c.view), m) && (m.queues != map[] ==> m.dom in old(c.view).domains) ==>
      Quiet(old(Now(c)), Now(c))
  {
    hide WellFormed, Shows, NumbersOk, ValidModel, Keeps, HasQueues, SettledKind, NumbersIn, Advanced, SettledQueues;
    hide Ran, LoopOps, Enumerates, ExtraIn;
    ghost var s := Now(c);
    extra := Sorted(ExtraIn(s.view, m));
    if SettledQueues(s.view, m) {
      NoExtraQueues(s.view, m);
    }
    ok, order := ApplyQueues(c, m, actual);
    if !ok {
      RanCut(s, Now(c), m, LoopOps(m, Queues, order), [Look] + LoopOps(m, Extra, extra));
      return;
    }
    ghost var s1 := Now(c);
    QueuesReady(s, s1, m, actual, c.outage);
    ok, extra := DropOtherQueues(c, m, actual);
    TwoSteps(s, s1, Now(c), m, actual, c.outage, ok);
    RanTrans(s, s1, Now(c), m, LoopOps(m, Queues, order), [Look] + LoopOps(m, Extra, extra), ok);
    if ok {
      KeepsSettled(s1.view, c.view, m);
      QueuesSettled(c.view, m);
    }
  }

  lemma QueueKeys(m: Model)
    ensures Numbers(m, CallQueue) == m.queues.Keys
  {}

  // -------------------------------------------------------------- the whole run

  lemma KeepsBase(a: View, b: View, m: Model)
    requires Keeps(a, b, m)
    ensures SettledExts(a, m) ==> SettledExts(b, m)
    ensures SettledBoxes(a, m) ==> SettledBoxes(b, m)
    ensures SettledShared(a, m) ==> SettledShared(b, m)
    ensures SettledPlans(a, m) ==> SettledPlans(b, m)
  {
    hide ValidModel, SettledShared, OnlyWantedPlans, SettledKind, DisplayNames;
  }

  lemma SameExts(a: View, b: View, m: Model)
    requires b.exts == a.exts
    ensures SettledExts(a, m) ==> SettledExts(b, m)
  {}

  /** The branch of an active customer. */
  method SyncActive(c: FusionpbxClient, m: Model, ghost actual: set<string>) returns (ok: bool, ghost o: Choice)
    requires c.Valid() && ValidModel(m) && m.active && TagsFit(c.view, m.dom)
    modifies c
    ensures c.Valid() && Advanced(old(Now(c)), Now(c), m, actual, c.outage, ok)
    ensures ChoiceOk(o, old(c.view), m)
    ensures Ran(old(Now(c)), Now(c), m, SharedOps(m) + (PlanOps(m, o) + QueueOps(m, o)), ok)
    ensures ok && SettledExts(old(c.view), m) ==> Settled(c.view, m)
    ensures Settled(old(c.view), m) ==> Quiet(old(Now(c)), Now(c))
  {
    hide WellFormed, Shows, NumbersOk, ValidModel, TagsFit, Keeps, SettledExts, SettledBoxes, SettledPlans;
    hide SettledQueues;
    hide OthersKept, PlansKept, LoginsKept, Between, Ran, LoopOps, PlanOps, Enumerates, DriftIn, ExtraIn, Advanced;
    ghost var s := Now(c);
    o := SomeChoice(s.view, m);
    ok := SyncShared(c, m, actual);
    ghost var s1 := Now(c);
    if !ok {
      RanCut(s, s1, m, SharedOps(m), PlanOps(m, o) + QueueOps(m, o));
      return;
    }
    SameExts(s.view, s1.view, m);
    StillFits(s, s1, m, actual, c.outage, true);
    SameExtraQueues(s.view, s1.view, m);
    assert m.dom in s1.view.domains by { DomainFromShared(s1.view, m); }
    hide SettledShared;
    ok, o := SyncPlans(c, m, actual);
    ghost var s2 := Now(c);
    ghost var plans := PlanOps(m, o);
    AdvancedTrans(s, s1, s2, m, actual, c.outage, ok);
    RanTrans(s, s1, s2, m, SharedOps(m), plans, ok);
    if !ok {
      RanCut(s, s2, m, SharedOps(m) + plans, QueueOps(m, o));
      assert SharedOps(m) + plans + QueueOps(m, o) == SharedOps(m) + (plans + QueueOps(m, o));
      return;
    }
    KeepsBase(s1.view, s2.view, m);
    KeepsDomain(s1.view, s2.view, m);
    SameExtraQueues(s1.view, s2.view, m);
    ghost var order, extra;
    ok, order, extra := SyncQueues(c, m, actual);
    SamePlanOps(m, o, order, extra);
    o := o.(queues := order, extra := extra);
    AdvancedTrans(s, s2, Now(c), m, actual, c.outage, ok);
    RanTrans(s, s2, Now(c), m, SharedOps(m) + plans, QueueOps(m, o), ok);
    assert SharedOps(m) + plans + QueueOps(m, o) == SharedOps(m) + (plans + QueueOps(m, o));
    KeepsBase(s2.view, c.view, m);
  }

  lemma SamePlanOps(m: Model, o: Choice, order: seq<string>, extra: seq<string>)
    ensures PlanOps(m, o.(queues := order, extra := extra)) == PlanOps(m, o)
  {
    hide LoopOps;
  }

  lemma SameExtraQueues(a: View, b: View, m: Model)
    requires b.queues == a.queues
    ensures ExtraIn(b, m) == ExtraIn(a, m)
  {}

  lemma KeepsDomain(a: View, b: View, m: Model)
    requires Keeps(a, b, m) && SettledShared(a, m)
    ensures m.dom in b.domains
  {
    hide ValidModel, OnlyWantedPlans, SettledKind;
  }

  /** The branch of a suspended customer: no feature entry point may remain. */
  method SyncSuspended(c: FusionpbxClient, m: Model, ghost actual: set<string>) returns (ok: bool, ghost o: Choice)
    requires c.Valid() && ValidModel(m) && !m.active && m == Effective(m) && TagsFit(c.view, m.dom)
    modifies c
    ensures c.Valid() && Advanced(old(Now(c)), Now(c), m, actual, c.outage, ok)
    ensures ChoiceOk(o, old(c.view), m)
    ensures Ran(old(Now(c)), Now(c), m, SharedOps(m) + (PlanOps(m, o) + QueueOps(m, o)), ok)
    ensures ok && SettledExts(old(c.view), m) ==> Settled(c.view, m)
    ensures Settled(old(c.view), m) ==> Quiet(old(Now(c)), Now(c))
  {
    hide WellFormed, Shows, NumbersOk, ValidModel, TagsFit, Keeps, SettledExts, SettledQueues, Advanced;
    hide OnlyWantedPlans, HasQueues;
    hide Ran, LoopOps, Enumerates, DriftIn, ExtraIn, SharedOps, PlanOps, QueueOps, WantedNames;
    ghost var s := Now(c);
    NothingWanted(m);
    o := SomeChoice(s.view, m);
    ghost var drift, extra;
    ok, drift := DropManaged(c, m, actual, {});
    o := o.(drift := drift);
    ghost var s1 := Now(c);
    SuspendedScript(s.view, m, o);
    if !ok {
      RanCut(s, s1, m, [Look] + LoopOps(m, Drift, o.drift), [Look] + LoopOps(m, Extra, o.extra));
      return;
    }
    NoKinds(s1.view, m);
    KeepsBase(s.view, s1.view, m);
    SameExtraQueues(s.view, s1.view, m);
    ok, extra := DropOtherQueues(c, m, actual);
    o := o.(extra := extra);
    SuspendedScript(s.view, m, o);
    AdvancedTrans(s, s1, Now(c), m, actual, c.outage, ok);
    RanTrans(s, s1, Now(c), m, [Look] + LoopOps(m, Drift, o.drift), [Look] + LoopOps(m, Extra, o.extra), ok);
    KeepsBase(s1.view, c.view, m);
    NoKinds(c.view, m);
    if ok {
      QueuesSettled(c.view, m);
    }
    if SettledQueues(s.view, m) {
      NoExtraQueues(s.view, m);
    }
  }

  // Nothing is wanted, so only the two listings and the deletions are left of the script.
  lemma SuspendedScript(v: View, m: Model, o: Choice)
    requires !m.active && m == Effective(m) && ChoiceOk(o, v, m)
    ensures SharedOps(m) + (PlanOps(m, o) + QueueOps(m, o)) == [Look] + LoopOps(m, Drift, o.drift)
        + ([Look] + LoopOps(m, Extra, o.extra))
  {
    hide DriftIn, ExtraIn, Enumerates, LoopOps;
    NothingListed(o.conferences, m.conferences);
    NothingListed(o.rings, m.rings.Keys);
    NothingListed(o.ivrs, m.ivrs.Keys);
    NothingListed(o.queues, m.queues.Keys);
    NoLoop(m);
    PlainScript([Look] + LoopOps(m, Drift, o.drift), [Look] + LoopOps(m, Extra, o.extra));
  }

  lemma NothingListed(order: seq<string>, s: set<string>)
    requires Enumerates(order, s) && s == {}
    ensures order == []
  {
    EnumeratesSize(order, s);
  }

  lemma NoLoop(m: Model)
    ensures forall l :: LoopOps(m, l, []) == []
  {}

  lemma PlainScript<T>(a: seq<T>, b: seq<T>)
    ensures [] + (([] + [] + [] + a) + ([] + b)) == a + b
  {}

  lemma NothingWanted(m: Model)
    requires m == Effective(m) && !m.active
    ensures WantedNames(m) == {} && m.queues.Keys == {}
  {
    hide FeatureName;
    assert m.rings.Keys == {} && m.ivrs.Keys == {};
  }

  lemma NoKinds(v: View, m: Model)
    requires m == Effective(m) && !m.active
    ensures SettledKind(v, m, Conference) && SettledKind(v, m, RingGroup) && SettledKind(v, m, Ivr)
    ensures SettledKind(v, m, CallQueue)
    ensures HasQueues(v, m, m.queues.Keys)
  {
    hide ValidModel, FeatureName, XmlFor;
  }

  lemma EffectiveValid(m: Model)
    requires ValidModel(m)
    ensures ValidModel(Effective(m)) && Effective(Effective(m)) == Effective(m)
    ensures m.active ==> Effective(m) == m
  {
    hide ValidDomain, ValidToken, ValidTokens, IvrText.ValidOptions;
  }

  /** Everything one run guarantees, whatever the outage schedule: the tables stay well formed,
      other customers' rows and the logins of desired extensions stay, every state lies between
      start and goal, and the status tells whether some call met an outage; a synced run ends
      settled, a run from a settled PBX touches nothing, and what was done is a prefix of the
      script, the whole of it exactly when the run is synced. */
  ghost predicate Reconciled(s: Snap, s': Snap, m: Model, outage: nat -> bool, status: SyncStatus) {
    && Advanced(s, s', m, Had(s.view, m), outage, status == Synced)
    && (status == Synced ==> Settled(s'.view, m))
    && (Settled(s.view, m) ==> Quiet(s, s'))
    && exists o :: ChoiceOk(o, s.view, m) && Ran(s, s', m, Script(s.view, m, o), status == Synced)
  }

  lemma SettledStart(v: View, m: Model)
    requires !m.active ==> m.exts == map[]
    ensures Settled(v, m) ==> SettledExts(v, m) && (m.exts != map[] ==> m.dom in v.domains)
  {
    hide SettledExts, SettledBoxes, SettledPlans, SettledQueues;
  }

  lemma RunStopped(s: Snap, s1: Snap, m: Model, outage: nat -> bool)
    requires (!m.active ==> m.exts == map[])
    requires Advanced(s, s1, m, Had(s.view, m), outage, false) && Ran(s, s1, m, ExtOps(s.view, m), false)
    requires SettledExts(s.view, m) && (m.exts != map[] ==> m.dom in s.view.domains) ==> Quiet(s, s1)
    ensures Reconciled(s, s1, m, outage, Error)
  {
    hide Advanced, Ran, Settled, SettledExts, Had, ExtOps, SharedOps, PlanOps, QueueOps, ChoiceOk, Quiet;
    SettledStart(s.view, m);
    var o := SomeChoice(s.view, m);
    RanCut(s, s1, m, ExtOps(s.view, m), SharedOps(m) + (PlanOps(m, o) + QueueOps(m, o)));
    assert Ran(s, s1, m, Script(s.view, m, o), false);
  }

  lemma DomainFromShared(v: View, m: Model)
    requires SettledShared(v, m)
    ensures m.dom in v.domains
  {}

  lemma RunWentOn(s: Snap, s1: Snap, s2: Snap, m: Model, outage: nat -> bool, ok: bool, o: Choice)
    requires (!m.active ==> m.exts == map[])
    requires Advanced(s, s1, m, Had(s.view, m), outage, true) && Ran(s, s1, m, ExtOps(s.view, m), true)
    requires SettledExts(s.view, m) && (m.exts != map[] ==> m.dom in s.view.domains) ==> Quiet(s, s1)
    requires Advanced(s1, s2, m, Had(s.view, m), outage, ok) && (ok ==> Settled(s2.view, m))
    requires ChoiceOk(o, s.view, m) && Ran(s1, s2, m, SharedOps(m) + (PlanOps(m, o) + QueueOps(m, o)), ok)
    requires Settled(s1.view, m) ==> Quiet(s1, s2)
    ensures Reconciled(s, s2, m, outage, if ok then Synced else Error)
  {
    hide Advanced, Ran, Settled, SettledExts, Had, ExtOps, SharedOps, PlanOps, QueueOps, ChoiceOk;
    SettledStart(s.view, m);
    RanTrans(s, s1, s2, m, ExtOps(s.view, m), SharedOps(m) + (PlanOps(m, o) + QueueOps(m, o)), ok);
    assert Ran(s, s2, m, Script(s.view, m, o), ok);
    AdvancedTrans(s, s1, s2, m, Had(s.view, m), outage, ok);
  }

  lemma SameChoice(a: View, b: View, m: Model, o: Choice)
    requires b.plans == a.plans && b.queues == a.queues && ChoiceOk(o, b, m)
    ensures ChoiceOk(o, a, m)
  {
    hide Numbers, Enumerates, WantedNames;
    assert DriftIn(b, m) == DriftIn(a, m) && ExtraIn(b, m) == ExtraIn(a, m);
  }

  /** One run for one customer, whatever calls meet an outage. */
  method ReconcileVoice(c: FusionpbxClient, m: Model) returns (status: SyncStatus)
    requires c.Valid() && ValidModel(m) && TagsFit(c.view, m.dom)
    modifies c
    ensures c.Valid() && ValidModel(Effective(m)) && Reconciled(old(Now(c)), Now(c), Effective(m), c.outage, status)
  {
    EffectiveValid(m);
    hide WellFormed, Shows, NumbersOk, ValidModel, TagsFit, SettledExts, Settled, Had, Reconciled, Ran, ExtOps;
    hide SharedOps, PlanOps, QueueOps, ChoiceOk;
    hide Advanced;
    ghost var s := Now(c);
    var e := Effective(m);
    var ok := SyncExtensions(c, e);
    ghost var s1 := Now(c);
    if !ok {
      RunStopped(s, s1, e, c.outage);
      return Error;
    }
    StillFits(s, s1, e, Had(s.view, e), c.outage, true);
    ghost var o;
    if m.active {
      ok, o := SyncActive(c, e, Had(s.view, e));
    } else {
      ok, o := SyncSuspended(c, e, Had(s.view, e));
    }
    SameChoice(s.view, s1.view, e, o);
    RunWentOn(s, s1, Now(c), e, c.outage, ok, o);
    return if ok then Synced else Error;
  }
}
