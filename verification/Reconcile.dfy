/** The reconciler: desired models against the live PBX, phase by phase, each phase a loop of
    separately committed client calls (app/services/reconcile/voice.py). */
module Reconcile {
  import opened Names
  import opened Orders
  import opened Sets
  import opened Indexed
  import opened Tables
  import opened Steps
  import opened CallCenter
  import opened Transactions
  import opened Client
  import opened Models
  import opened Progress
  import opened Scripts

  datatype Delta = Delta(toCreate: set<string>, toDelete: set<string>)

  function ComputeDelta(desired: set<string>, actual: set<string>): (r: Delta)
    ensures actual - r.toDelete + r.toCreate == desired
    ensures r.toDelete !! desired && r.toCreate !! actual
  {
    Delta(desired - actual, actual - desired)
  }

  // Everything but the extensions of this domain is as it was.
  ghost predicate OnlyExts(a: View, b: View) {
    b.boxes == a.boxes && b.plans == a.plans && b.queues == a.queues && b.dir == a.dir
  }

  ghost predicate HasExts(v: View, m: Model, done: set<string>) {
    forall n :: n in done && n in m.exts ==> Key(m.dom, n) in v.exts && v.exts[Key(m.dom, n)] == DisplayNames(m.exts[n])
  }

  lemma PutExtFacts(v: View, m: Model, done: set<string>, n: string)
    requires n in m.exts && HasExts(v, m, done)
    ensures var w := PutExt(v, m.dom, n, m.exts[n].display);
      && HasExts(w, m, done + {n}) && OnlyExts(v, w) && m.dom in w.domains
      && (SettledExts(v, m) && m.dom in v.domains ==> w == v)
  {
    var w := PutExt(v, m.dom, n, m.exts[n].display);
    if SettledExts(v, m) && m.dom in v.domains {
      assert w.exts == v.exts;
      assert w.domains == v.domains;
    }
  }

  // The state of the loop after the extensions in `done`.
  ghost predicate ExtsDone(s: Snap, s': Snap, m: Model, actual: set<string>, outage: nat -> bool, ok: bool,
      done: set<string>) {
    && Advanced(s, s', m, actual, outage, ok) && OnlyExts(s.view, s'.view)
    && (forall k :: k in s.view.exts ==> k in s'.view.exts)
    && (ok ==> HasExts(s'.view, m, done))
    && (SettledExts(s.view, m) && (m.exts != map[] ==> m.dom in s.view.domains) ==> Quiet(s, s'))
  }

  lemma ExtsStart(s: Snap, m: Model, actual: set<string>, outage: nat -> bool)
    ensures ExtsDone(s, s, m, actual, outage, true, {})
  {
    AdvancedNothing(s, m, actual, outage);
    hide Advanced, SettledExts;
  }

  lemma ExtsStep(s: Snap, s1: Snap, s2: Snap, m: Model, actual: set<string>, outage: nat -> bool, ok: bool,
      done: set<string>, n: string)
    requires n in m.exts && ExtsDone(s, s1, m, actual, outage, true, done)
    requires Did(s1, s2, m, actual, outage, ok, PutExt(s1.view, m.dom, n, m.exts[n].display))
    ensures ExtsDone(s, s2, m, actual, outage, ok, done + {n}) && Ran(s1, s2, m, OpsFor(m, Exts, n), ok)
  {
    hide Advanced, SettledExts, HasExts, OnlyExts;
    assert forall k :: k in s1.view.exts ==> k in PutExt(s1.view, m.dom, n, m.exts[n].display).exts;
    RanOne(s1, s2, m, actual, outage, ok, PutE(n));
    hide PutExt, Ran;
    PutExtFacts(s1.view, m, done, n);
    OnlyExtsTrans(s.view, s1.view, s2.view);
    AdvancedTrans(s, s1, s2, m, actual, outage, ok);
  }

  lemma OnlyExtsTrans(a: View, b: View, c: View)
    requires OnlyExts(a, b) && (OnlyExts(b, c) || c == b)
    ensures OnlyExts(a, c)
  {}

  /** Create the missing extensions and refresh the names of the others. */
  method ApplyExtensions(c: FusionpbxClient, m: Model, ghost actual: set<string>) returns (ok: bool)
    requires c.Valid() && ValidModel(m)
    modifies c
    ensures c.Valid() && ExtsDone(old(Now(c)), Now(c), m, actual, c.outage, ok, m.exts.Keys)
    ensures Ran(old(Now(c)), Now(c), m, LoopOps(m, Exts, Sorted(m.exts.Keys)), ok)
  {
    hide ValidModel, WellFormed, Shows, NumbersOk, ExtsDone, Did, Ran, LoopOps, OpsFor, Elems, Distinct;
    ghost var s := Now(c);
    ExtsStart(s, m, actual, c.outage);
    RanStart(s, m, Exts);
    var order := Sorted(m.exts.Keys);
    ElemsAll(order);
    for j := 0 to |order|
      invariant c.Valid() && ExtsDone(s, Now(c), m, actual, c.outage, true, Elems(order[..j]))
      invariant Ran(s, Now(c), m, LoopOps(m, Exts, order[..j]), true)
    {
      ElemsNext(order, j);
      ghost var s1 := Now(c);
      ok := DoExtension(c, m, actual, order[j]);
      ExtsStep(s, s1, Now(c), m, actual, c.outage, ok, Elems(order[..j]), order[j]);
      RanNext(s, s1, Now(c), m, Exts, order, j, ok);
      if !ok {
        ExtsCut(s, Now(c), m, actual, c.outage, Elems(order[..j + 1]));
        return;
      }
    }
    RanAll(s, Now(c), m, Exts, order);
    return true;
  }

  lemma ExtsCut(s: Snap, s': Snap, m: Model, actual: set<string>, outage: nat -> bool, done: set<string>)
    requires ExtsDone(s, s', m, actual, outage, false, done)
    ensures forall all :: ExtsDone(s, s', m, actual, outage, false, all)
  {
    hide Advanced, SettledExts, OnlyExts;
  }

  // -------------------------------------------------------- stale extensions

  // Extensions and boxes outside `stale` are as they were, and so is everything else.
  ghost predicate OnlyStale(a: View, b: View, d: string, stale: set<string>) {
    && b.plans == a.plans && b.queues == a.queues && b.dir == a.dir
    && (forall k: Key :: !(k.dom == d && k.number in stale) ==>
          (k in b.exts <==> k in a.exts) && (k in a.exts ==> b.exts[k] == a.exts[k])
              && (k in b.boxes <==> k in a.boxes))
  }

  predicate Gone(v: View, d: string, n: string) {
    Key(d, n) !in v.exts && Key(d, n) !in v.boxes
  }

  predicate Cleared(v: View, d: string, done: set<string>) {
    forall n :: n in done ==> Gone(v, d, n)
  }

  // The state of the loop after the stale numbers in `done`.
  ghost predicate StaleDone(s: Snap, s': Snap, m: Model, actual: set<string>, outage: nat -> bool, ok: bool,
      stale: set<string>, done: set<string>) {
    && Advanced(s, s', m, actual, outage, ok) && OnlyStale(s.view, s'.view, m.dom, stale)
    && (ok ==> Cleared(s'.view, m.dom, done))
    && (stale == {} ==> Quiet(s, s'))
  }

  lemma StaleStart(s: Snap, m: Model, actual: set<string>, outage: nat -> bool, stale: set<string>)
    ensures StaleDone(s, s, m, actual, outage, true, stale, {})
  {
    AdvancedNothing(s, m, actual, outage);
    hide Advanced;
  }

  lemma DropTwoFacts(a: View, b: View, d: string, stale: set<string>, done: set<string>, n: string)
    requires n in stale && OnlyStale(a, b, d, stale) && Cleared(b, d, done)
    ensures OnlyStale(a, DropExt(b, d, n), d, stale)
    ensures var f := DropBox(DropExt(b, d, n), d, n); OnlyStale(a, f, d, stale) && Cleared(f, d, done + {n})
  {}

  // The deletion of one stale number met an outage at its first or its second call.
  lemma StaleStopped(s: Snap, s1: Snap, s2: Snap, m: Model, actual: set<string>, outage: nat -> bool,
      stale: set<string>, done: set<string>, n: string)
    requires n in stale && StaleDone(s, s1, m, actual, outage, true, stale, done)
    requires Did(s1, s2, m, actual, outage, false, DropExt(s1.view, m.dom, n))
    ensures StaleDone(s, s2, m, actual, outage, false, stale, stale) && Ran(s1, s2, m, OpsFor(m, Stale, n), false)
  {
    hide Advanced, OnlyStale, Cleared;
    AdvancedTrans(s, s1, s2, m, actual, outage, false);
    RanOne(s1, s2, m, actual, outage, false, DropE(n));
    hide Ran;
    RanCut(s1, s2, m, [DropE(n)], [DropB(n)]);
    assert [DropE(n)] + [DropB(n)] == OpsFor(m, Stale, n);
  }

  lemma StaleStep(s: Snap, s1: Snap, s2: Snap, s3: Snap, m: Model, actual: set<string>, outage: nat -> bool, ok: bool,
      stale: set<string>, done: set<string>, n: string)
    requires n in stale && StaleDone(s, s1, m, actual, outage, true, stale, done)
    requires Did(s1, s2, m, actual, outage, true, DropExt(s1.view, m.dom, n))
    requires Did(s2, s3, m, actual, outage, ok, DropBox(s2.view, m.dom, n))
    ensures StaleDone(s, s3, m, actual, outage, ok, stale, done + {n}) && Ran(s1, s3, m, OpsFor(m, Stale, n), ok)
  {
    hide Advanced, OnlyStale, Cleared;
    RanOne(s1, s2, m, actual, outage, true, DropE(n));
    RanOne(s2, s3, m, actual, outage, ok, DropB(n));
    hide DropExt, DropBox, Ran;
    RanTrans(s1, s2, s3, m, [DropE(n)], [DropB(n)], ok);
    assert [DropE(n)] + [DropB(n)] == OpsFor(m, Stale, n);
    DropTwoFacts(s.view, s1.view, m.dom, stale, done, n);
    AdvancedTrans(s, s1, s2, m, actual, outage, true);
    AdvancedTrans(s, s2, s3, m, actual, outage, ok);
  }

  /** Delete each stale extension and then its voicemail box, in sorted order. */
  method DropStale(c: FusionpbxClient, m: Model, ghost actual: set<string>, stale: set<string>) returns (ok: bool)
    requires c.Valid() && ValidModel(m) && stale <= actual && stale !! m.exts.Keys
    requires forall n :: n in stale ==> ValidToken(n)
    modifies c
    ensures c.Valid() && StaleDone(old(Now(c)), Now(c), m, actual, c.outage, ok, stale, stale)
    ensures Ran(old(Now(c)), Now(c), m, LoopOps(m, Stale, Sorted(stale)), ok)
  {
    hide ValidModel, WellFormed, Shows, NumbersOk, StaleDone, Did, ValidToken, Ran, LoopOps, OpsFor, Elems, Distinct;
    ghost var s := Now(c);
    StaleStart(s, m, actual, c.outage, stale);
    RanStart(s, m, Stale);
    var order := Sorted(stale);
    ElemsAll(order);
    for j := 0 to |order|
      invariant c.Valid() && StaleDone(s, Now(c), m, actual, c.outage, true, stale, Elems(order[..j]))
      invariant Ran(s, Now(c), m, LoopOps(m, Stale, order[..j]), true)
    {
      ElemsNext(order, j);
      ghost var s1 := Now(c);
      ok := DoDropExtension(c, m, actual, order[j]);
      if !ok {
        StaleStopped(s, s1, Now(c), m, actual, c.outage, stale, Elems(order[..j]), order[j]);
        RanNext(s, s1, Now(c), m, Stale, order, j, ok);
        return;
      }
      ghost var s2 := Now(c);
      ok := DoDropBox(c, m, actual, order[j]);
      StaleStep(s, s1, s2, Now(c), m, actual, c.outage, ok, stale, Elems(order[..j]), order[j]);
      RanNext(s, s1, Now(c), m, Stale, order, j, ok);
      if !ok {
        StaleCut(s, Now(c), m, actual, c.outage, stale, Elems(order[..j + 1]));
        return;
      }
    }
    RanAll(s, Now(c), m, Stale, order);
    return true;
  }

  lemma StaleCut(s: Snap, s': Snap, m: Model, actual: set<string>, outage: nat -> bool, stale: set<string>,
      done: set<string>)
    requires StaleDone(s, s', m, actual, outage, false, stale, done)
    ensures StaleDone(s, s', m, actual, outage, false, stale, stale)
  {
    hide Advanced, OnlyStale;
  }

  // --------------------------------------------------------- voicemail boxes

  ghost predicate OnlyBoxes(a: View, b: View, m: Model) {
    && b.exts == a.exts && b.plans == a.plans && b.queues == a.queues && b.dir == a.dir
    && (forall k: Key :: !(k.dom == m.dom && k.number in m.exts) ==> (k in b.boxes <==> k in a.boxes))
  }

  ghost predicate HasBoxes(v: View, m: Model, done: set<string>) {
    forall n :: n in done && n in m.exts ==> (Key(m.dom, n) in v.boxes <==> m.exts[n].voicemail)
  }

  ghost predicate BoxesDone(s: Snap, s': Snap, m: Model, actual: set<string>, outage: nat -> bool, ok: bool,
      done: set<string>) {
    && Advanced(s, s', m, actual, outage, ok) && OnlyBoxes(s.view, s'.view, m)
    && (ok ==> HasBoxes(s'.view, m, done))
    && (SettledBoxes(s.view, m) && m.dom in s.view.domains ==> Quiet(s, s'))
  }

  lemma BoxesStart(s: Snap, m: Model, actual: set<string>, outage: nat -> bool)
    ensures BoxesDone(s, s, m, actual, outage, true, {})
  {
    AdvancedNothing(s, m, actual, outage);
    hide Advanced, SettledBoxes;
  }

  function BoxCall(v: View, m: Model, n: string): View
    requires n in m.exts
  {
    if m.exts[n].voicemail then PutBox(v, m.dom, n, n) else DropBox(v, m.dom, n)
  }

  lemma BoxCallFacts(v: View, m: Model, done: set<string>, n: string)
    requires n in m.exts && HasBoxes(v, m, done)
    ensures var w := BoxCall(v, m, n);
      && HasBoxes(w, m, done + {n}) && OnlyBoxes(v, w, m)
      && (SettledBoxes(v, m) && m.dom in v.domains ==> w == v)
  {
    DropAbsent(v, m.dom, n);
    assert m.dom in v.domains ==> v.domains + {m.dom} == v.domains;
  }

  lemma BoxesStep(s: Snap, s1: Snap, s2: Snap, m: Model, actual: set<string>, outage: nat -> bool, ok: bool,
      done: set<string>, n: string)
    requires n in m.exts && BoxesDone(s, s1, m, actual, outage, true, done)
    requires Did(s1, s2, m, actual, outage, ok, BoxCall(s1.view, m, n))
    ensures BoxesDone(s, s2, m, actual, outage, ok, if ok then done + {n} else m.exts.Keys)
    ensures Ran(s1, s2, m, OpsFor(m, Boxes, n), ok)
  {
    hide Advanced, SettledBoxes, HasBoxes;
    RanOne(s1, s2, m, actual, outage, ok, if m.exts[n].voicemail then PutB(n) else DropB(n));
    hide BoxCall, Ran;
    BoxCallFacts(s1.view, m, done, n);
    AdvancedTrans(s, s1, s2, m, actual, outage, ok);
  }

  /** Give each desired extension a voicemail box, or take it away, as its model says. */
  method ApplyVoicemail(c: FusionpbxClient, m: Model, ghost actual: set<string>) returns (ok: bool)
    requires c.Valid() && ValidModel(m)
    modifies c
    ensures c.Valid() && BoxesDone(old(Now(c)), Now(c), m, actual, c.outage, ok, m.exts.Keys)
    ensures Ran(old(Now(c)), Now(c), m, LoopOps(m, Boxes, Sorted(m.exts.Keys)), ok)
  {
    hide WellFormed, Shows, NumbersOk, BoxesDone, Did, ValidToken, ValidTokens, ValidDomain, Ran, LoopOps, OpsFor;
    hide Elems, Distinct;
    ghost var s := Now(c);
    BoxesStart(s, m, actual, c.outage);
    RanStart(s, m, Boxes);
    var order := Sorted(m.exts.Keys);
    ElemsAll(order);
    for j := 0 to |order|
      invariant c.Valid() && BoxesDone(s, Now(c), m, actual, c.outage, true, Elems(order[..j]))
      invariant Ran(s, Now(c), m, LoopOps(m, Boxes, order[..j]), true)
    {
      ElemsNext(order, j);
      var n := order[j];
      ghost var s1 := Now(c);
      if m.exts[n].voicemail {
        ok := DoBox(c, m, actual, n);
      } else {
        ok := DoDropBox(c, m, actual, n);
      }
      BoxesStep(s, s1, Now(c), m, actual, c.outage, ok, Elems(order[..j]), n);
      RanNext(s, s1, Now(c), m, Boxes, order, j, ok);
      if !ok { return; }
    }
    RanAll(s, Now(c), m, Boxes, order);
    return true;
  }

  // -------------------------------------------------------------- shared rows

  ghost predicate SharedDone(s: Snap, s': Snap, m: Model, actual: set<string>, outage: nat -> bool, ok: bool) {
    && Advanced(s, s', m, actual, outage, ok)
    && s'.view.exts == s.view.exts && s'.view.boxes == s.view.boxes && s'.view.queues == s.view.queues
    && (forall name :: name != ROUTING_NAME ==>
          (name in s'.view.plans <==> name in s.view.plans)
          && (name in s.view.plans ==> s'.view.plans[name] == s.view.plans[name]))
    && (ok ==> SettledShared(s'.view, m))
    && (SettledShared(s.view, m) ==> Quiet(s, s'))
  }

  lemma SharedFacts(v: View, m: Model)
    ensures var w := PutDir(v, SWITCH_VOICEMAIL_DIR);
      var x := PutPlan(w, m.dom, ROUTING_NAME, RoutingXml(m.recording), RoutingTag);
      SettledShared(x, m) && (SettledShared(v, m) ==> w == v && x == v)
  {
    if SettledShared(v, m) {
      assert v.dir[() := SWITCH_VOICEMAIL_DIR] == v.dir;
      PutPlanSame(v, m.dom, ROUTING_NAME, RoutingXml(m.recording), RoutingTag);
    }
  }

  /** Set the voicemail directory of the switch, then the shared routing dialplan. */
  method ApplyShared(c: FusionpbxClient, m: Model, ghost actual: set<string>) returns (ok: bool)
    requires c.Valid() && ValidModel(m)
    modifies c
    ensures c.Valid() && SharedDone(old(Now(c)), Now(c), m, actual, c.outage, ok)
    ensures Ran(old(Now(c)), Now(c), m, [SetDir] + [SetRouting], ok)
  {
    hide WellFormed, Shows, NumbersOk, ValidModel, Advanced, SettledShared, Ran;
    ghost var s := Now(c);
    SharedFacts(s.view, m);
    ok := DoSwitch(c, m, actual);
    ghost var s1 := Now(c);
    RanOne(s, s1, m, actual, c.outage, ok, SetDir);
    if !ok {
      RanCut(s, s1, m, [SetDir], [SetRouting]);
      return;
    }
    ok := DoRouting(c, m, actual);
    RanOne(s1, Now(c), m, actual, c.outage, ok, SetRouting);
    RanTrans(s, s1, Now(c), m, [SetDir], [SetRouting], ok);
    AdvancedTrans(s, s1, Now(c), m, actual, c.outage, ok);
  }

  // --------------------------------------------------------------- dialplans

  /** A step on dialplans or queues keeps the rest, and whatever is settled stays settled. */
  ghost predicate Keeps(a: View, b: View, m: Model) {
    && b.exts == a.exts && b.boxes == a.boxes && b.dir == a.dir
    && (forall k :: SettledKind(a, m, k) ==> SettledKind(b, m, k))
    && (SettledShared(a, m) ==> SettledShared(b, m))
    && (OnlyWantedPlans(a, m) ==> OnlyWantedPlans(b, m))
  }

  // A step that writes the wanted XML under one wanted name loses nothing that was settled.
  lemma WantedXmlKeeps(v: View, w: View, m: Model, k: Kind, n: string, k': Kind, done: set<string>)
    requires n in Numbers(m, k)
    requires FeatureName(k, m.dom, n) in w.plans && w.plans[FeatureName(k, m.dom, n)].xml == XmlFor(m, k, n)
    requires forall name :: name in v.plans && name != FeatureName(k, m.dom, n) ==>
      name in w.plans && w.plans[name] == v.plans[name]
    requires HasPlans(v, m, k', done)
    ensures HasPlans(w, m, k', if k' == k then done + {n} else done)
  {
    hide FeatureName, XmlFor, Numbers;
    forall n' | FeatureName(k', m.dom, n') == FeatureName(k, m.dom, n) ensures k' == k && n' == n {
      NameInjectiveInDomain(m.dom, k', n', k, n);
    }
  }

  lemma PutPlanSettles(v: View, w: View, m: Model, k: Kind, n: string)
    requires n in Numbers(m, k)
    requires w == PutPlan(v, m.dom, FeatureName(k, m.dom, n), XmlFor(m, k, n), TagFor(k, m.dom))
    ensures forall k' :: SettledKind(v, m, k') ==> SettledKind(w, m, k')
    ensures forall done :: HasPlans(v, m, k, done) ==> HasPlans(w, m, k, done + {n})
  {
    hide ValidModel, FeatureName, XmlFor, Numbers, HasPlans;
    forall k' | SettledKind(v, m, k') ensures SettledKind(w, m, k') {
      WantedXmlKeeps(v, w, m, k, n, k', Numbers(m, k'));
      assert k' == k ==> Numbers(m, k') + {n} == Numbers(m, k');
    }
    forall done | HasPlans(v, m, k, done) ensures HasPlans(w, m, k, done + {n}) {
      WantedXmlKeeps(v, w, m, k, n, k, done);
    }
  }

  lemma PutPlanShared(v: View, m: Model, k: Kind, n: string, xml: Xml)
    requires n in Numbers(m, k)
    ensures var w := PutPlan(v, m.dom, FeatureName(k, m.dom, n), xml, TagFor(k, m.dom));
      (SettledShared(v, m) ==> SettledShared(w, m)) && (OnlyWantedPlans(v, m) ==> OnlyWantedPlans(w, m))
  {
    NotRouting(k, m.dom, n);
    IsWanted(m, k, n);
    hide FeatureName, Numbers, WantedNames;
  }

  lemma IsWanted(m: Model, k: Kind, n: string)
    ensures FeatureName(k, m.dom, n) in WantedNames(m) <==> k != CallQueue && n in Numbers(m, k)
  {
    if FeatureName(k, m.dom, n) in WantedNames(m) {
      var k', n' :| k' != CallQueue && n' in Numbers(m, k') && FeatureName(k', m.dom, n') == FeatureName(k, m.dom, n);
      NameInjectiveInDomain(m.dom, k', n', k, n);
    }
    hide FeatureName;
  }

  lemma PutPlanKeeps(v: View, m: Model, k: Kind, n: string, done: set<string>)
    requires n in Numbers(m, k) && HasPlans(v, m, k, done)
    ensures var w := PutPlan(v, m.dom, FeatureName(k, m.dom, n), XmlFor(m, k, n), TagFor(k, m.dom));
      && Keeps(v, w, m) && w.queues == v.queues && HasPlans(w, m, k, done + {n}) && v.plans.Keys <= w.plans.Keys
      && (SettledKind(v, m, k) && m.dom in v.domains ==> w == v)
  {
    hide ValidModel, FeatureName, XmlFor, Numbers, SettledShared, OnlyWantedPlans;
    PutPlanSettles(v, PutPlan(v, m.dom, FeatureName(k, m.dom, n), XmlFor(m, k, n), TagFor(k, m.dom)), m, k, n);
    PutPlanShared(v, m, k, n, XmlFor(m, k, n));
    if m.dom in v.domains {
      PutPlanSame(v, m.dom, FeatureName(k, m.dom, n), XmlFor(m, k, n), TagFor(k, m.dom));
    }
  }

  ghost predicate KindDone(s: Snap, s': Snap, m: Model, k: Kind, actual: set<string>, outage: nat -> bool, ok: bool,
      done: set<string>) {
    && Advanced(s, s', m, actual, outage, ok) && Keeps(s.view, s'.view, m) && s'.view.queues == s.view.queues
    && (ok ==> HasPlans(s'.view, m, k, done)) && s.view.plans.Keys <= s'.view.plans.Keys
    && (SettledKind(s.view, m, k) && m.dom in s.view.domains ==> Quiet(s, s'))
  }

  lemma KindStart(s: Snap, m: Model, k: Kind, actual: set<string>, outage: nat -> bool)
    ensures KindDone(s, s, m, k, actual, outage, true, {})
  {
    AdvancedNothing(s, m, actual, outage);
    hide Advanced, SettledKind, SettledShared, OnlyWantedPlans, ValidModel;
  }

  lemma FeatureRan(s: Snap, s': Snap, m: Model, k: Kind, actual: set<string>, outage: nat -> bool, ok: bool, n: string)
    requires n in Numbers(m, k)
    requires Did(s, s', m, actual, outage, ok,
        PutPlan(s.view, m.dom, FeatureName(k, m.dom, n), XmlFor(m, k, n), FeatureTag(m.dom)))
    ensures Ran(s, s', m, OpsFor(m, Features(k), n), ok)
  {
    hide Advanced, Quiet, PutPlan, FeatureName, XmlFor, Numbers;
    RanOne(s, s', m, actual, outage, ok, PutP(k, n));
  }

  lemma KindSettled(v: View, w: View, m: Model, k: Kind)
    requires Keeps(v, w, m)
    ensures SettledKind(v, m, k) ==> SettledKind(w, m, k)
  {
    hide SettledKind, SettledShared, OnlyWantedPlans;
  }

  lemma KindStep(s: Snap, s1: Snap, s2: Snap, m: Model, k: Kind, actual: set<string>, outage: nat -> bool, ok: bool,
      done: set<string>, n: string)
    requires k != CallQueue && n in Numbers(m, k) && KindDone(s, s1, m, k, actual, outage, true, done)
    requires Did(s1, s2, m, actual, outage, ok,
        PutPlan(s1.view, m.dom, FeatureName(k, m.dom, n), XmlFor(m, k, n), FeatureTag(m.dom)))
    ensures KindDone(s, s2, m, k, actual, outage, ok, if ok then done + {n} else Numbers(m, k))
    ensures Ran(s1, s2, m, OpsFor(m, Features(k), n), ok)
  {
    hide Advanced, Keeps, SettledKind, HasPlans, PutPlan, FeatureName, XmlFor, Numbers, Ran, Effect;
    FeatureRan(s1, s2, m, k, actual, outage, ok, n);
    PutPlanKeeps(s1.view, m, k, n, done);
    if ok {
      KeepsTrans(s.view, s1.view, s2.view, m);
    } else {
      assert s2.view == s1.view;
    }
    assert TagFor(k, m.dom) == FeatureTag(m.dom);
    KindSettled(s.view, s1.view, m, k);
    AdvancedTrans(s, s1, s2, m, actual, outage, ok);
  }

  lemma NextName(d: string, k: Kind, numbers: set<string>, n: string)
    ensures NamesFor(d, k, numbers + {n}) == NamesFor(d, k, numbers) + {FeatureName(k, d, n)}
  {
    hide FeatureName;
  }

  /** Create every wanted conference, ring group or IVR and collect the dialplan names. */
  method ApplyKind(c: FusionpbxClient, m: Model, ghost actual: set<string>, k: Kind) returns (ok: bool,
      names: set<string>, ghost order: seq<string>)
    requires c.Valid() && ValidModel(m) && k != CallQueue
    modifies c
    ensures c.Valid() && KindDone(old(Now(c)), Now(c), m, k, actual, c.outage, ok, Numbers(m, k))
    ensures Enumerates(order, Numbers(m, k)) && Ran(old(Now(c)), Now(c), m, LoopOps(m, Features(k), order), ok)
    ensures ok ==> names == NamesFor(m.dom, k, Numbers(m, k))
  {
    hide ValidModel, WellFormed, Shows, NumbersOk, KindDone, Did, FeatureName, PutPlan, XmlFor, Numbers, NamesFor, Ran;
    hide LoopOps, OpsFor, Elems, Distinct;
    ghost var s := Now(c);
    KindStart(s, m, k, actual, c.outage);
    RanStart(s, m, Features(k));
    names := {};
    assert NamesFor(m.dom, k, {}) == {} by { NoNames(m.dom, k); }
    var rows := AnyOrder(Numbers(m, k));
    order := rows;
    ElemsAll(rows);
    for j := 0 to |rows|
      invariant c.Valid() && KindDone(s, Now(c), m, k, actual, c.outage, true, Elems(rows[..j]))
      invariant names == NamesFor(m.dom, k, Elems(rows[..j]))
      invariant Ran(s, Now(c), m, LoopOps(m, Features(k), rows[..j]), true)
    {
      ElemsNext(rows, j);
      ghost var s1 := Now(c);
      ok := DoFeature(c, m, actual, k, rows[j]);
      KindStep(s, s1, Now(c), m, k, actual, c.outage, ok, Elems(rows[..j]), rows[j]);
      RanNext(s, s1, Now(c), m, Features(k), rows, j, ok);
      if !ok { return; }
      NextName(m.dom, k, Elems(rows[..j]), rows[j]);
      names := names + {FeatureName(k, m.dom, rows[j])};
    }
    RanAll(s, Now(c), m, Features(k), rows);
    ok := true;
  }

  lemma NoNames(d: string, k: Kind)
    ensures NamesFor(d, k, {}) == {}
  {
    hide FeatureName;
  }

  // -------------------------------------------------------------------- drift

  ghost predicate OnlyDropped(a: View, b: View, done: set<string>) {
    && (forall name :: name in b.plans ==> name in a.plans && b.plans[name] == a.plans[name])
    && (forall name :: name in done ==> name !in b.plans)
  }

  lemma DropPlanKeeps(v: View, m: Model, name: string)
    requires !WantedName(m, name) && name != ROUTING_NAME
    ensures Keeps(v, DropPlan(v, name), m)
  {
    forall k, n | n in Numbers(m, k) ensures FeatureName(k, m.dom, n) != name {
      WantedIff(m, k, n);
    }
    hide FeatureName, Numbers, XmlFor, WantedName, WantedNames;
  }

  lemma DropPlanDropped(a: View, b: View, name: string, done: set<string>)
    requires OnlyDropped(a, b, done)
    ensures OnlyDropped(a, DropPlan(b, name), done + {name}) && DropPlan(b, name).queues == b.queues
  {}

  lemma KeepsTrans(a: View, b: View, c: View, m: Model)
    requires Keeps(a, b, m) && Keeps(b, c, m)
    ensures Keeps(a, c, m)
  {
    hide SettledKind, SettledShared, OnlyWantedPlans, ValidModel;
  }

  ghost predicate DriftDone(s: Snap, s': Snap, m: Model, actual: set<string>, outage: nat -> bool, ok: bool,
      extra: set<string>, done: set<string>) {
    && Advanced(s, s', m, actual, outage, ok) && Keeps(s.view, s'.view, m) && s'.view.queues == s.view.queues
    && (ok ==> OnlyDropped(s.view, s'.view, done))
    && (extra == {} ==> Quiet(s, s'))
  }

  lemma DriftStart(s: Snap, m: Model, actual: set<string>, outage: nat -> bool, extra: set<string>)
    ensures DriftDone(s, s, m, actual, outage, true, extra, {})
  {
    AdvancedNothing(s, m, actual, outage);
    hide Advanced, SettledKind, SettledShared, OnlyWantedPlans, ValidModel;
  }

  lemma DriftStep(s: Snap, s1: Snap, s2: Snap, m: Model, actual: set<string>, outage: nat -> bool, ok: bool,
      extra: set<string>, done: set<string>, name: string)
    requires Droppable(s1.view, m, name) && name in extra
    requires DriftDone(s, s1, m, actual, outage, true, extra, done)
    requires Did(s1, s2, m, actual, outage, ok, DropPlan(s1.view, name))
    ensures DriftDone(s, s2, m, actual, outage, ok, extra, if ok then done + {name} else extra)
    ensures Ran(s1, s2, m, OpsFor(m, Drift, name), ok)
  {
    hide Advanced, Keeps, OnlyDropped, WantedName, IsQueueIn;
    RanOne(s1, s2, m, actual, outage, ok, DropP(name));
    hide Ran, DropPlan;
    DropPlanKeeps(s1.view, m, name);
    DropPlanDropped(s.view, s1.view, name, done);
    AdvancedTrans(s, s1, s2, m, actual, outage, ok);
    if ok {
      KeepsTrans(s.view, s1.view, s2.view, m);
    }
  }

  // What is still to be deleted stays deletable.
  lemma StillDrift(v: View, m: Model, name: string, other: string)
    requires name != other
    ensures Droppable(DropPlan(v, name), m, other) <==> Droppable(v, m, other)
  {
    hide WantedName, FeatureName;
  }

  /** Delete managed dialplans that are not wanted. */
  method DropDrift(c: FusionpbxClient, m: Model, ghost actual: set<string>, extra: set<string>) returns (ok: bool,
      ghost order: seq<string>)
    requires c.Valid() && forall name :: name in extra ==> Droppable(c.view, m, name)
    modifies c
    ensures c.Valid() && DriftDone(old(Now(c)), Now(c), m, actual, c.outage, ok, extra, extra)
    ensures Enumerates(order, extra) && Ran(old(Now(c)), Now(c), m, LoopOps(m, Drift, order), ok)
  {
    hide WellFormed, Shows, NumbersOk, DriftDone, Did, Droppable, Ran, LoopOps, OpsFor, Elems, Distinct, Quiet;
    hide Advanced;
    ghost var s := Now(c);
    DriftStart(s, m, actual, c.outage, extra);
    RanStart(s, m, Drift);
    var names := AnyOrder(extra);
    order := names;
    ElemsAll(names);
    for j := 0 to |names|
      invariant c.Valid() && DriftDone(s, Now(c), m, actual, c.outage, true, extra, Elems(names[..j]))
      invariant Ran(s, Now(c), m, LoopOps(m, Drift, names[..j]), true)
      invariant forall name :: name in extra && name !in Elems(names[..j]) ==> Droppable(c.view, m, name)
    {
      ElemsNext(names, j);
      ghost var s1 := Now(c);
      ok := DoDropPlan(c, m, actual, names[j]);
      DriftStep(s, s1, Now(c), m, actual, c.outage, ok, extra, Elems(names[..j]), names[j]);
      RanNext(s, s1, Now(c), m, Drift, names, j, ok);
      if !ok { return; }
      assert c.view == DropPlan(s1.view,
          names[j]) by { DidView(s1, Now(c), m, actual, c.outage, DropPlan(s1.view, names[j])); }
      forall name | name in extra && name !in Elems(names[..j + 1]) ensures Droppable(c.view, m, name) {
        StillDrift(s1.view, m, names[j], name);
      }
    }
    RanAll(s, Now(c), m, Drift, names);
    ok := true;
  }

  lemma DidView(s: Snap, s': Snap, m: Model, actual: set<string>, outage: nat -> bool, w: View)
    requires Did(s, s', m, actual, outage, true, w)
    ensures s'.view == w
  {
    hide Advanced, Quiet;
  }

  // ------------------------------------------------------------------- queues

  ghost predicate HasQueues(v: View, m: Model, done: set<string>) {
    forall n :: n in done && n in m.queues ==>
        Key(m.dom, n) in v.queues && v.queues[Key(m.dom, n)] == StateFor(m.queues[n])
  }

  function QueueCall(v: View, m: Model, n: string): View
    requires n in m.queues
  {
    PutQueue(v, m.dom, n, m.queues[n].strategy, Elems(m.queues[n].agents))
  }

  lemma QueueRowKeeps(v: View, m: Model, done: set<string>, n: string)
    requires n in m.queues && HasQueues(v, m, done) && HasPlans(v, m, CallQueue, done)
    ensures var w := WithQueue(WithDomain(v, m.dom), m.dom, n, m.queues[n].strategy, Elems(m.queues[n].agents));
      && Keeps(v, w, m) && HasQueues(w, m, done + {n}) && HasPlans(w, m, CallQueue, done) && m.dom in w.domains
      && v.queues.Keys <= w.queues.Keys
      && (SettledQueues(v, m) && m.dom in v.domains ==> w == v)
  {
    hide ValidModel, FeatureName, XmlFor, Numbers, Elems;
    var w := WithQueue(WithDomain(v, m.dom), m.dom, n, m.queues[n].strategy, Elems(m.queues[n].agents));
    assert forall k :: SettledKind(v, m, k) ==> SettledKind(w, m, k);
    if SettledQueues(v, m) && m.dom in v.domains {
      assert w.queues == v.queues;
      assert w.domains == v.domains;
    }
  }

  lemma PutQueueKeeps(v: View, m: Model, done: set<string>, n: string)
    requires n in m.queues && HasQueues(v, m, done) && HasPlans(v, m, CallQueue, done)
    ensures var w := QueueCall(v, m, n);
      && Keeps(v, w, m) && HasQueues(w, m, done + {n}) && HasPlans(w, m, CallQueue, done + {n})
      && v.queues.Keys <= w.queues.Keys
      && (SettledQueues(v, m) && m.dom in v.domains ==> w == v)
  {
    var w := WithQueue(WithDomain(v, m.dom), m.dom, n, m.queues[n].strategy, Elems(m.queues[n].agents));
    hide ValidModel, FeatureName, Elems, HasPlans, Keeps;
    QueueRowKeeps(v, m, done, n);
    PutPlanKeeps(w, m, CallQueue, n, done);
    KeepsTrans(v, w, QueueCall(v, m, n), m);
  }

  ghost predicate QueuesDone(s: Snap, s': Snap, m: Model, actual: set<string>, outage: nat -> bool, ok: bool,
      done: set<string>) {
    && Advanced(s, s', m, actual, outage, ok) && Keeps(s.view, s'.view, m)
    && (ok ==> HasQueues(s'.view, m, done) && HasPlans(s'.view, m, CallQueue, done))
    && s.view.queues.Keys <= s'.view.queues.Keys
    && (SettledQueues(s.view, m) && (m.queues != map[] ==> m.dom in s.view.domains) ==> Quiet(s, s'))
  }

  lemma QueuesStart(s: Snap, m: Model, actual: set<string>, outage: nat -> bool)
    ensures QueuesDone(s, s, m, actual, outage, true, {})
  {
    AdvancedNothing(s, m, actual, outage);
    hide Advanced, SettledKind, SettledShared, OnlyWantedPlans, ValidModel, SettledQueues;
  }

  lemma QueuesStep(s: Snap, s1: Snap, s2: Snap, m: Model, actual: set<string>, outage: nat -> bool, ok: bool,
      done: set<string>, n: string)
    requires n in m.queues && QueuesDone(s, s1, m, actual, outage, true, done)
    requires Did(s1, s2, m, actual, outage, ok, QueueCall(s1.view, m, n))
    ensures QueuesDone(s, s2, m, actual, outage, ok, if ok then done + {n} else m.queues.Keys)
    ensures Ran(s1, s2, m, OpsFor(m, Queues, n), ok)
  {
    hide Advanced, Keeps, ValidModel, HasPlans, HasQueues, SettledQueues, PutQueue, Elems;
    RanOne(s1, s2, m, actual, outage, ok, PutQ(n));
    hide QueueCall, Ran;
    PutQueueKeeps(s1.view, m, done, n);
    AdvancedTrans(s, s1, s2, m, actual, outage, ok);
    if ok {
      KeepsTrans(s.view, s1.view, s2.view, m);
    }
  }

  /** Ensure every wanted queue with its strategy and agents. */
  method ApplyQueues(c: FusionpbxClient, m: Model, ghost actual: set<string>) returns (ok: bool,
      ghost order: seq<string>)
    requires c.Valid() && ValidModel(m)
    modifies c
    ensures c.Valid() && QueuesDone(old(Now(c)), Now(c), m, actual, c.outage, ok, m.queues.Keys)
    ensures Enumerates(order, m.queues.Keys) && Ran(old(Now(c)), Now(c), m, LoopOps(m, Queues, order), ok)
  {
    hide ValidModel, WellFormed, Shows, NumbersOk, QueuesDone, Did, PutQueue, Elems, Distinct, Ran, LoopOps, OpsFor;
    ghost var s := Now(c);
    QueuesStart(s, m, actual, c.outage);
    RanStart(s, m, Queues);
    var rows := AnyOrder(m.queues.Keys);
    order := rows;
    ElemsAll(rows);
    for j := 0 to |rows|
      invariant c.Valid() && QueuesDone(s, Now(c), m, actual, c.outage, true, Elems(rows[..j]))
      invariant Ran(s, Now(c), m, LoopOps(m, Queues, rows[..j]), true)
    {
      ElemsNext(rows, j);
      ghost var s1 := Now(c);
      ok := DoQueue(c, m, actual, rows[j]);
      QueuesStep(s, s1, Now(c), m, actual, c.outage, ok, Elems(rows[..j]), rows[j]);
      RanNext(s, s1, Now(c), m, Queues, rows, j, ok);
      if !ok { return; }
    }
    RanAll(s, Now(c), m, Queues, rows);
    ok := true;
  }

  // ------------------------------------------------------------- stale queues

  ghost predicate QueuesGone(v: View, d: string, done: set<string>) {
    forall n :: n in done ==> Key(d, n) !in v.queues
  }

  ghost predicate DropQueuesDone(s: Snap, s': Snap, m: Model, actual: set<string>, outage: nat -> bool, ok: bool,
      extra: set<string>, done: set<string>) {
    && Advanced(s, s', m, actual, outage, ok) && Keeps(s.view, s'.view, m)
    && (HasQueues(s.view, m, m.queues.Keys) ==> HasQueues(s'.view, m, m.queues.Keys))
    && (forall k :: k in s'.view.queues ==> k in s.view.queues)
    && (ok ==> QueuesGone(s'.view, m.dom, done))
    && (extra == {} ==> Quiet(s, s'))
  }

  lemma DropQueuesStart(s: Snap, m: Model, actual: set<string>, outage: nat -> bool, extra: set<string>)
    ensures DropQueuesDone(s, s, m, actual, outage, true, extra, {})
  {
    AdvancedNothing(s, m, actual, outage);
    hide Advanced, SettledKind, SettledShared, OnlyWantedPlans, ValidModel;
  }

  lemma DropQueueKeeps(v: View, m: Model, n: string)
    requires n !in m.queues && m.dom in v.domains
    ensures var w := DropQueue(v, m.dom, n);
      && Keeps(v, w, m) && w.queues == v.queues - {Key(m.dom, n)}
  {
    var w := v.(queues := v.queues - {Key(m.dom, n)});
    WantedIff(m, CallQueue, n);
    DropPlanKeeps(w, m, FeatureName(CallQueue, m.dom, n));
    hide FeatureName, XmlFor, WantedName, WantedNames;
  }

  lemma DropQueueRest(v: View, w: View, m: Model, n: string, done: set<string>)
    requires n !in m.queues && QueuesGone(v, m.dom, done)
    requires w.queues == v.queues - {Key(m.dom, n)} || w == v
    ensures HasQueues(v, m, m.queues.Keys) ==> HasQueues(w, m, m.queues.Keys)
    ensures w.queues == v.queues - {Key(m.dom, n)} ==> QueuesGone(w, m.dom, done + {n})
  {
    hide StateFor;
  }

  lemma DropQueuesStep(s: Snap, s1: Snap, s2: Snap, m: Model, actual: set<string>, outage: nat -> bool, ok: bool,
      extra: set<string>, done: set<string>, n: string)
    requires n !in m.queues && n in extra && m.dom in s.view.domains
    requires DropQueuesDone(s, s1, m, actual, outage, true, extra, done)
    requires Did(s1, s2, m, actual, outage, ok, DropQueue(s1.view, m.dom, n))
    ensures DropQueuesDone(s, s2, m, actual, outage, ok, extra, if ok then done + {n} else extra)
    ensures Ran(s1, s2, m, OpsFor(m, Extra, n), ok)
  {
    hide Keeps, DropQueue, HasQueues, QueuesGone, OthersKept, PlansKept, LoginsKept, ExtsBetween, BoxesBetween;
    hide PlansBetween, LinksBetween, QueuesBetween, Touched;
    assert m.dom in s1.view.domains;
    hide Advanced;
    RanOne(s1, s2, m, actual, outage, ok, DropQ(n));
    hide Ran;
    DropQueueKeeps(s1.view, m, n);
    DropQueueRest(s1.view, s2.view, m, n, done);
    AdvancedTrans(s, s1, s2, m, actual, outage, ok);
    if ok {
      KeepsTrans(s.view, s1.view, s2.view, m);
    }
  }

  lemma OtherQueueStays(s: Snap, s': Snap, m: Model, actual: set<string>, outage: nat -> bool, n: string)
    requires Did(s, s', m, actual, outage, true, DropQueue(s.view, m.dom, n))
    ensures forall x :: x != n && Key(m.dom, x) in s.view.queues ==> Key(m.dom, x) in s'.view.queues
  {
    hide Advanced, Quiet, FeatureName;
  }

  /** Delete the queues of the domain that are not wanted. */
  method DropQueues(c: FusionpbxClient, m: Model, ghost actual: set<string>, extra: set<string>) returns (ok: bool,
      ghost order: seq<string>)
    requires c.Valid() && ValidModel(m) && extra !! m.queues.Keys && (extra != {} ==> m.dom in c.view.domains)
    requires forall n :: n in extra ==> ValidToken(n) && Key(m.dom, n) in c.view.queues
    modifies c
    ensures c.Valid() && DropQueuesDone(old(Now(c)), Now(c), m, actual, c.outage, ok, extra, extra)
    ensures Enumerates(order, extra) && Ran(old(Now(c)), Now(c), m, LoopOps(m, Extra, order), ok)
  {
    hide ValidModel, WellFormed, Shows, NumbersOk, DropQueuesDone, Did, DropQueue, ValidToken, Ran, LoopOps, OpsFor;
    hide Elems, Distinct;
    ghost var s := Now(c);
    DropQueuesStart(s, m, actual, c.outage, extra);
    RanStart(s, m, Extra);
    var numbers := AnyOrder(extra);
    order := numbers;
    ElemsAll(numbers);
    for j := 0 to |numbers|
      invariant c.Valid() && DropQueuesDone(s, Now(c), m, actual, c.outage, true, extra, Elems(numbers[..j]))
      invariant Ran(s, Now(c), m, LoopOps(m, Extra, numbers[..j]), true)
      invariant forall n :: n in extra && n !in Elems(numbers[..j]) ==> Key(m.dom, n) in c.view.queues
    {
      ElemsNext(numbers, j);
      ghost var s1 := Now(c);
      ok := DoDropQueue(c, m, actual, numbers[j]);
      DropQueuesStep(s, s1, Now(c), m, actual, c.outage, ok, extra, Elems(numbers[..j]), numbers[j]);
      RanNext(s, s1, Now(c), m, Extra, numbers, j, ok);
      if !ok { return; }
      OtherQueueStays(s1, Now(c), m, actual, c.outage, numbers[j]);
    }
    RanAll(s, Now(c), m, Extra, numbers);
    ok := true;
  }
}
