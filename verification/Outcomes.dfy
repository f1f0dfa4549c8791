/** What reconciling achieves, said about the PBX as a tenant sees it: convergence, retry after
    a failure, the voicemail boxes a failure leaves behind, and the neighbours' peace. */
module Outcomes {
  import opened Names
  import opened Orders
  import opened Indexed
  import opened Tables
  import opened CallCenter
  import opened Transactions
  import opened Dialplans
  import opened Client
  import opened Models
  import opened EndState
  import opened Progress
  import opened Scripts
  import opened Fates
  import opened Reconcile
  import opened Voice
  import IvrText

  /** One tenant's share of the PBX; uuids, secrets and mailbox passwords are forgotten. */
  datatype Projection = Projection(
    exts: imap<string, ExtNames>, plans: imap<(Kind, string), Xml>, queues: imap<string, QueueState>)

  /** The share of domain `d` when the domains `names` live on one PBX: its extensions and queues,
      and the dialplans of the numbers that are its own. */
  ghost function Project(names: iset<string>, v: View, d: string): Projection {
    Projection(
      imap n | Key(d, n) in v.exts :: v.exts[Key(d, n)],
      imap p: (Kind, string) | Mine(names, d, p.1) && FeatureName(p.0, d, p.1) in v.plans ::
        v.plans[FeatureName(p.0, d, p.1)].xml,
      imap n | Key(d, n) in v.queues :: v.queues[Key(d, n)])
  }

  const EMPTY: Projection := Projection(imap[], imap[], imap[])

  /** The numbers of all wanted dialplans are the domain's own. */
  ghost predicate NumbersMine(names: iset<string>, m: Model) {
    forall k, n :: n in Numbers(m, k) ==> Mine(names, m.dom, n)
  }

  ghost predicate IsOwnFeature(names: iset<string>, name: string, d: string) {
    exists k, n :: k != CallQueue && Mine(names, d, n) && name == FeatureName(k, d, n)
  }

  /** The dialplans of domain `d` are marked as its features, and only they are; a queue
      dialplan has its queue, and queue numbers are the domain's own. */
  ghost predicate Orderly(names: iset<string>, v: View, d: string) {
    && (forall name :: name in v.plans && v.plans[name].tag == FeatureTag(d) ==> IsOwnFeature(names, name, d))
    && (forall k, n :: k != CallQueue && Mine(names, d, n) && FeatureName(k, d, n) in v.plans ==>
          v.plans[FeatureName(k, d, n)].tag == FeatureTag(d))
    && (forall n :: Mine(names, d, n) && FeatureName(CallQueue, d, n) in v.plans ==> Key(d, n) in v.queues)
    && (forall k :: k in v.queues && k.dom == d ==> Mine(names, d, k.number))
  }

  lemma OrderlyFits(names: iset<string>, v: View, d: string)
    requires Orderly(names, v, d)
    ensures TagsFit(v, d)
  {
    forall name | name in v.plans && v.plans[name].tag == FeatureTag(d) ensures IsFeatureName(name, d) {
      assert IsOwnFeature(names, name, d);
    }
  }

  /** Numbers without a hyphen are always the domain's own. */
  lemma HyphenFreeNumbers(names: iset<string>, m: Model)
    requires ValidModel(m) && forall k, n :: n in Numbers(m, k) ==> '-' !in n
    ensures NumbersMine(names, m)
  {
    hide ValidModel;
    forall k, n | n in Numbers(m, k) ensures Mine(names, m.dom, n) {
      NumberValid(m, k, n);
      HyphenFreeMine(names, m.dom, n);
    }
  }

  /** So are all numbers in a domain that no other one continues by a hyphen. */
  lemma ApartNumbers(names: iset<string>, m: Model)
    requires ValidModel(m) && forall b :: b in names ==> ValidDomain(b) && !HyphenExtends(m.dom, b)
    ensures NumbersMine(names, m)
  {
    assert ValidDomain(m.dom);
    hide ValidModel, ValidDomain, HyphenExtends;
    forall k, n | n in Numbers(m, k) ensures Mine(names, m.dom, n) {
      NumberValid(m, k, n);
      ApartMine(names, m.dom, n);
    }
  }

  /** The share that the desired state asks for. */
  ghost function Desired(m: Model): Projection {
    Projection(
      imap n | n in m.exts :: DisplayNames(m.exts[n]),
      imap p: (Kind, string) | p.1 in Numbers(m, p.0) :: XmlFor(m, p.0, p.1),
      imap n | n in m.queues :: StateFor(m.queues[n]))
  }

  lemma ExtsIff(names: iset<string>, v: View, m: Model)
    ensures SettledExts(v, m) <==> Project(names, v, m.dom).exts == Desired(m).exts
  {
    hide ValidModel, DisplayNames, FeatureName, XmlFor, Numbers, StateFor;
    var a, b := Project(names, v, m.dom).exts, Desired(m).exts;
    if a == b {
      forall n | n in m.exts ensures Key(m.dom, n) in v.exts && v.exts[Key(m.dom, n)] == DisplayNames(m.exts[n]) {
        assert n in b;
        assert n in a && a[n] == b[n];
      }
      forall k | k in v.exts && k.dom == m.dom ensures k.number in m.exts {
        assert k == Key(m.dom, k.number);
        assert k.number in a;
        assert k.number in b;
      }
    }
    if SettledExts(v, m) {
      assert forall n :: Key(m.dom, n) in v.exts <==> n in m.exts;
      assert a == b;
    }
  }

  lemma QueuesIff(names: iset<string>, v: View, m: Model)
    requires SettledKind(v, m, CallQueue)
    ensures SettledQueues(v, m) <==> Project(names, v, m.dom).queues == Desired(m).queues
  {
    hide ValidModel, DisplayNames, FeatureName, XmlFor, Numbers, StateFor, SettledKind;
    var a, b := Project(names, v, m.dom).queues, Desired(m).queues;
    if a == b {
      forall n | n in m.queues ensures Key(m.dom, n) in v.queues && v.queues[Key(m.dom, n)] == StateFor(m.queues[n]) {
        assert n in b;
        assert n in a && a[n] == b[n];
      }
      forall k | k in v.queues && k.dom == m.dom ensures k.number in m.queues {
        assert k == Key(m.dom, k.number);
        assert k.number in a;
        assert k.number in b;
      }
    }
    if SettledQueues(v, m) {
      assert forall n :: Key(m.dom, n) in v.queues <==> n in m.queues;
      assert a == b;
    }
  }

  /** Every wanted dialplan is right and no other one exists. */
  ghost predicate PlansExact(names: iset<string>, v: View, m: Model) {
    && (forall k :: SettledKind(v, m, k))
    && (forall k, n :: Mine(names, m.dom, n) && FeatureName(k, m.dom, n) in v.plans ==> n in Numbers(m, k))
  }

  lemma PlansIff(names: iset<string>, v: View, m: Model)
    requires NumbersMine(names, m)
    ensures PlansExact(names, v, m) <==> Project(names, v, m.dom).plans == Desired(m).plans
  {
    hide DisplayNames, FeatureName, XmlFor, Numbers, StateFor, Mine;
    var a, b := Project(names, v, m.dom).plans, Desired(m).plans;
    if a == b {
      forall k, n | n in Numbers(m, k)
        ensures FeatureName(k, m.dom, n) in v.plans && v.plans[FeatureName(k, m.dom, n)].xml == XmlFor(m, k, n)
      {
        assert (k, n) in b;
        assert (k, n) in a && a[(k, n)] == b[(k, n)];
      }
      forall k, n | Mine(names, m.dom, n) && FeatureName(k, m.dom, n) in v.plans ensures n in Numbers(m, k) {
        assert (k, n) in a;
        assert (k, n) in b;
      }
    }
    if PlansExact(names, v, m) {
      forall p: (Kind, string)
        ensures p in a <==> p in b
        ensures p in b ==> a[p] == b[p]
      {
        assert SettledKind(v, m, p.0);
      }
      assert a == b;
    }
  }

  // What is marked is wanted, and a queue dialplan has its queue: nothing but wanted dialplans is left.
  lemma ExactIff(names: iset<string>, v: View, m: Model)
    requires Orderly(names, v, m.dom)
    ensures SettledPlans(v, m) && SettledQueues(v, m) ==> PlansExact(names, v, m)
    ensures PlansExact(names, v, m) ==> SettledPlans(v, m) && SettledKind(v, m, CallQueue)
  {
    hide SettledKind, FeatureName, StateFor, Mine, WantedNames, Numbers;
    if SettledPlans(v, m) && SettledQueues(v, m) {
      forall k, n | Mine(names, m.dom, n) && FeatureName(k, m.dom, n) in v.plans ensures n in Numbers(m, k) {
        IsWanted(m, k, n);
        QueueKeys(m);
      }
      forall k ensures SettledKind(v, m, k) {
        assert k == Conference || k == RingGroup || k == Ivr || k == CallQueue;
      }
    }
    if PlansExact(names, v, m) {
      forall name | name in v.plans && v.plans[name].tag == FeatureTag(m.dom) ensures name in WantedNames(m) {
        assert IsOwnFeature(names, name, m.dom);
        var k, n :| k != CallQueue && Mine(names, m.dom, n) && name == FeatureName(k, m.dom, n);
        IsWanted(m, k, n);
      }
    }
  }

  /** A PBX is settled exactly when the tenant's share of it equals the desired share. */
  lemma SettledIff(names: iset<string>, v: View, m: Model)
    requires NumbersMine(names, m) && Orderly(names, v, m.dom)
    ensures SettledExts(v, m) && SettledPlans(v, m) && SettledQueues(v, m) <==> Project(names, v, m.dom) == Desired(m)
  {
    hide SettledExts, SettledPlans, SettledQueues, PlansExact, SettledKind, Orderly, NumbersMine;
    ExtsIff(names, v, m);
    PlansIff(names, v, m);
    ExactIff(names, v, m);
    if SettledKind(v, m, CallQueue) {
      QueuesIff(names, v, m);
    }
    ProjectionParts(names, v, m);
    hide Project, Desired;
  }

  lemma ProjectionParts(names: iset<string>, v: View, m: Model)
    ensures Project(names, v, m.dom) == Desired(m) <==>
      Project(names, v, m.dom).exts == Desired(m).exts && Project(names, v, m.dom).plans == Desired(m).plans
          && Project(names, v, m.dom).queues == Desired(m).queues
  {
    hide ValidModel, DisplayNames, FeatureName, XmlFor, Numbers, StateFor;
  }

  // ------------------------------------------- what the desired share provides

  lemma DesiredExts(names: iset<string>, v: View, m: Model)
    requires Project(names, v, m.dom) == Desired(m)
    ensures ExtsServed(v, m)
  {
    hide FeatureName, Numbers, XmlFor, StateFor, Mine;
    forall n ensures Key(m.dom, n) in v.exts <==> n in m.exts {
      assert n in Project(names, v, m.dom).exts <==> n in Desired(m).exts;
    }
    forall n | n in m.exts ensures AllNamed(v.exts[Key(m.dom, n)], m.exts[n].display) {
      assert Project(names, v, m.dom).exts[n] == Desired(m).exts[n];
    }
  }

  lemma DesiredAt(names: iset<string>, v: View, m: Model, k: Kind)
    requires Project(names, v, m.dom) == Desired(m)
    ensures OnlyAt(names, v, m.dom, k, Numbers(m, k))
    ensures forall n :: n in Numbers(m, k) ==>
      FeatureName(k, m.dom, n) in v.plans && v.plans[FeatureName(k, m.dom, n)].xml == XmlFor(m, k, n)
  {
    hide FeatureName, Numbers, XmlFor, StateFor, Mine, DisplayNames;
    forall n
      ensures Mine(names, m.dom, n) && FeatureName(k, m.dom, n) in v.plans <==> n in Numbers(m, k)
      ensures n in Numbers(m, k) ==> v.plans[FeatureName(k, m.dom, n)].xml == XmlFor(m, k, n)
    {
      assert (k, n) in Project(names, v, m.dom).plans <==> (k, n) in Desired(m).plans;
      assert n in Numbers(m, k) ==> Project(names, v, m.dom).plans[(k, n)] == Desired(m).plans[(k, n)];
    }
  }

  lemma DesiredRings(names: iset<string>, v: View, m: Model)
    requires ValidModel(m) && Project(names, v, m.dom) == Desired(m)
    ensures RingsServed(names, v, m)
  {
    hide Project, Desired, FeatureName, OnlyAt, SaysRing, RingGroupPlan, ValidDomain, ValidToken, ValidTokens;
    DesiredAt(names, v, m, RingGroup);
    forall n | n in m.rings
      ensures SaysRing(XmlFor(m, RingGroup, n), m.dom, n, m.rings[n].members, m.rings[n].strategy, m.rings[n].timeout)
    {
      RingSays(m.dom, n, m.rings[n].members, m.rings[n].strategy, m.rings[n].timeout);
    }
    assert forall n :: n in m.rings ==> n in Numbers(m, RingGroup);
    assert Numbers(m, RingGroup) == m.rings.Keys;
    hide XmlFor, Numbers;
  }

  lemma DesiredIvrs(names: iset<string>, v: View, m: Model)
    requires ValidModel(m) && Project(names, v, m.dom) == Desired(m)
    ensures IvrsServed(names, v, m)
  {
    hide Project, Desired, FeatureName, OnlyAt, SaysIvr, IvrPlan, ValidDomain, ValidToken, IvrText.ValidOptions;
    DesiredAt(names, v, m, Ivr);
    forall n | n in m.ivrs ensures SaysIvr(XmlFor(m, Ivr, n), m.dom, n, m.ivrs[n].options, m.ivrs[n].greeting) {
      IvrSays(m.dom, n, m.ivrs[n].options, m.ivrs[n].greeting);
    }
    assert forall n :: n in m.ivrs ==> n in Numbers(m, Ivr);
    assert Numbers(m, Ivr) == m.ivrs.Keys;
    hide XmlFor, Numbers;
  }

  lemma DesiredRooms(names: iset<string>, v: View, m: Model)
    requires Project(names, v, m.dom) == Desired(m)
    ensures RoomsServed(names, v, m)
  {
    hide Project, Desired, FeatureName, OnlyAt, ConfRoom;
    DesiredAt(names, v, m, Conference);
    assert Numbers(m, Conference) == m.conferences;
  }

  lemma DesiredStates(names: iset<string>, v: View, m: Model)
    requires Project(names, v, m.dom) == Desired(m)
    ensures forall n :: Key(m.dom, n) in v.queues <==> n in m.queues
    ensures forall n :: n in m.queues ==> v.queues[Key(m.dom, n)] == StateFor(m.queues[n])
  {
    hide FeatureName, Mine, DisplayNames, XmlFor, Numbers, StateFor;
    forall n
      ensures Key(m.dom, n) in v.queues <==> n in m.queues
      ensures n in m.queues ==> v.queues[Key(m.dom, n)] == StateFor(m.queues[n])
    {
      assert n in Project(names, v, m.dom).queues <==> n in Desired(m).queues;
      assert n in m.queues ==> Project(names, v, m.dom).queues[n] == Desired(m).queues[n];
    }
  }

  lemma DesiredQueues(names: iset<string>, v: View, m: Model)
    requires Project(names, v, m.dom) == Desired(m)
    ensures QueuesServed(names, v, m)
  {
    hide FeatureName, Project, Desired, OnlyAt;
    DesiredAt(names, v, m, CallQueue);
    DesiredStates(names, v, m);
    assert Numbers(m, CallQueue) == m.queues.Keys;
    forall n | n in m.queues ensures Queued(v, m.dom, n, m.queues[n].agents, m.queues[n].strategy) {
      assert n in Numbers(m, CallQueue) && XmlFor(m, CallQueue, n).QueueXml?;
    }
  }

  /** A PBX with the desired share provides what the lists of the desired state name, read back
      from its rows, and nothing besides. */
  lemma DesiredProvides(names: iset<string>, v: View, m: Model)
    requires ValidModel(m) && Project(names, v, m.dom) == Desired(m)
    ensures Provides(names, v, m)
  {
    hide ValidModel, Project, Desired, ExtsServed, RoomsServed, RingsServed, IvrsServed, QueuesServed;
    DesiredExts(names, v, m);
    DesiredRooms(names, v, m);
    DesiredRings(names, v, m);
    DesiredIvrs(names, v, m);
    DesiredQueues(names, v, m);
  }

  /** With the share of a suspended customer it provides nothing. */
  lemma DesiredServes(names: iset<string>, v: View, m: Model)
    requires ValidModel(m) && Project(names, v, m.dom) == Desired(Effective(m)) && SettledBoxes(v, Effective(m))
    ensures InService(names, v, m)
  {
    hide Project, Desired, FeatureName, Mine, ValidDomain, ValidToken, ValidTokens, IvrText.ValidOptions;
    if m.active {
      hide Provides, ValidModel;
      DesiredProvides(names, v, m);
    } else {
      var none := Effective(m);
      hide RingsServed, IvrsServed, RoomsServed;
      assert ValidModel(none);
      DesiredExts(names, v, none);
      DesiredQueues(names, v, none);
      forall k, n | Mine(names, m.dom, n) ensures FeatureName(k, m.dom, n) !in v.plans {
        DesiredAt(names, v, none, k);
        assert Numbers(none, k) == {};
      }
    }
  }

  // -------------------------------------------------------------- convergence

  /** Every run of every tenant leaves the dialplans of all in order. */
  lemma OrderlyStays(names: iset<string>, a: View, b: View, m: Model, actual: set<string>, d: string)
    requires Between(a, b, m, actual) && m.dom in names && d in names && NumbersMine(names, m)
    requires Orderly(names, a, d)
    ensures Orderly(names, b, d)
  {
    hide ExtsBetween, BoxesBetween, LinksBetween, QueuesBetween;
    NewNames(names, a, b, m, d);
    OrderlyQueues(names, a, b, m, actual, d);
    hide PlansBetween, Mine, FeatureName, NumbersMine;
    forall name | name in b.plans && b.plans[name].tag == FeatureTag(d) ensures IsOwnFeature(names, name, d) {
      assert name in a.plans && a.plans[name].tag == FeatureTag(d) ==> IsOwnFeature(names, name, d);
      hide IsOwnFeature;
    }
  }

  // Names that a run brings: those of its own model, under its own marks.
  lemma NewNames(names: iset<string>, a: View, b: View, m: Model, d: string)
    requires PlansBetween(a, b, m) && m.dom in names && d in names && NumbersMine(names, m)
    ensures forall name :: name in a.plans && name in b.plans ==> a.plans[name].tag == b.plans[name].tag
    ensures forall name :: name in b.plans && name !in a.plans && b.plans[name].tag == FeatureTag(d) ==>
      IsOwnFeature(names, name, d)
    ensures forall k, n :: Mine(names, d, n) && FeatureName(k, d, n) in b.plans && FeatureName(k, d, n) !in a.plans ==>
      d == m.dom && n in Numbers(m, k) && b.plans[FeatureName(k, d, n)].tag == TagFor(k, d)
  {
    hide Mine, XmlFor, Droppable;
    forall name | name in b.plans && name !in a.plans && b.plans[name].tag == FeatureTag(d)
      ensures IsOwnFeature(names, name, d)
    {
      var k, n :| n in Numbers(m, k) && name == FeatureName(k, m.dom, n);
      hide FeatureName, Numbers;
    }
    forall k, n | Mine(names, d, n) && FeatureName(k, d, n) in b.plans && FeatureName(k, d, n) !in a.plans
      ensures d == m.dom && n in Numbers(m, k) && b.plans[FeatureName(k, d, n)].tag == TagFor(k, d)
    {
      NotRouting(k, d, n);
      var k', n' :| n' in Numbers(m, k') && FeatureName(k, d, n) == FeatureName(k', m.dom, n');
      OneOwner(names, k, d, n, k', m.dom, n');
      hide FeatureName, Numbers;
    }
  }

  lemma OrderlyQueues(names: iset<string>, a: View, b: View, m: Model, actual: set<string>, d: string)
    requires Between(a, b, m, actual) && m.dom in names && d in names && NumbersMine(names, m)
    requires Orderly(names, a, d)
    ensures forall n :: Mine(names, d, n) && FeatureName(CallQueue, d, n) in b.plans ==> Key(d, n) in b.queues
    ensures forall k :: k in b.queues && k.dom == d ==> Mine(names, d, k.number)
  {
    hide ExtsBetween, BoxesBetween, Mine, IsOwnFeature, StateFor;
    NewNames(names, a, b, m, d);
    hide PlansBetween, FeatureName;
    forall k | k in b.queues && k.dom == d ensures Mine(names, d, k.number) {
      assert k == Key(d, k.number);
      QueueKeys(m);
    }
    hide NumbersMine, Numbers;
  }

  /** Every undesired dialplan under one of the domain's own names is marked as its feature, or is
      that of a listed queue, which the run deletes. */
  ghost predicate Removable(names: iset<string>, v: View, m: Model) {
    forall k, n :: Mine(names, m.dom, n) && n !in Numbers(m, k) && FeatureName(k, m.dom, n) in v.plans ==>
      v.plans[FeatureName(k, m.dom, n)].tag == FeatureTag(m.dom) || (k == CallQueue && Key(m.dom, n) in v.queues)
  }

  // An undesired dialplan that cannot be removed stays.
  lemma UnremovableStays(v: View, w: View, m: Model, k: Kind, n: string)
    requires PlansBetween(v, w, m) && n !in Numbers(m, k) && FeatureName(k, m.dom, n) in v.plans
    requires v.plans[FeatureName(k, m.dom, n)].tag != FeatureTag(m.dom)
    requires !(k == CallQueue && Key(m.dom, n) in v.queues)
    ensures FeatureName(k, m.dom, n) in w.plans
  {
    var name := FeatureName(k, m.dom, n);
    if IsQueueIn(v, m.dom, name) {
      var n' :| Key(m.dom, n') in v.queues && name == FeatureName(CallQueue, m.dom, n');
      NameInjectiveInDomain(m.dom, k, n, CallQueue, n');
    }
    hide FeatureName, WantedName, Numbers, XmlFor;
  }

  // A removable one is gone from a settled PBX.
  lemma RemovableGone(v: View, w: View, m: Model, actual: set<string>, k: Kind, n: string)
    requires Between(v, w, m, actual) && SettledPlans(w, m) && SettledQueues(w, m) && TagsFit(v, m.dom)
    requires n !in Numbers(m, k) && FeatureName(k, m.dom, n) in v.plans
    requires v.plans[FeatureName(k, m.dom, n)].tag == FeatureTag(m.dom) || (k == CallQueue && Key(m.dom, n) in v.queues)
    ensures FeatureName(k, m.dom, n) !in w.plans
  {
    hide ExtsBetween, BoxesBetween, QueuesBetween, SettledKind, StateFor, WantedNames, XmlFor;
    var name := FeatureName(k, m.dom, n);
    IsWanted(m, k, n);
    QueueKeys(m);
    assert forall x :: x in v.plans && x in w.plans ==> v.plans[x].tag == w.plans[x].tag;
    assert k == CallQueue ==> Key(m.dom, n) !in w.queues;
    hide FeatureName, PlansBetween, Numbers, WantedName;
  }

  /** A synced run ends with exactly the desired share exactly when it started without undesired
      dialplans under the domain's own names that it cannot know for its own. */
  lemma ConvergesIff(names: iset<string>, s: Snap, s': Snap, m: Model, outage: nat -> bool)
    requires NumbersMine(names, m) && TagsFit(s.view, m.dom) && Reconciled(s, s', m, outage, Synced)
    ensures Project(names, s'.view, m.dom) == Desired(m) <==> Removable(names, s.view, m)
    ensures Project(names, s'.view, m.dom).exts == Desired(m).exts
    ensures Project(names, s'.view, m.dom).queues == Desired(m).queues
  {
    hide Reconciled, Project, Desired, NumbersMine, TagsFit, SettledExts, SettledKind, PlansExact, Between, Mine;
    hide FeatureName;
    var v, w := s.view, s'.view;
    ReconciledBetween(s, s', m, outage, Synced);
    BetweenPlans(v, w, m, Had(v, m));
    SyncedSettled(s, s', m, outage);
    ExtsIff(names, w, m);
    AllKinds(w, m);
    QueuesIff(names, w, m);
    PlansIff(names, w, m);
    ProjectionParts(names, w, m);
    hide SettledPlans, SettledQueues, PlansBetween, Numbers;
    if Removable(names, v, m) {
      forall k, n | Mine(names, m.dom, n) && FeatureName(k, m.dom, n) in w.plans ensures n in Numbers(m, k) {
        if n !in Numbers(m, k) {
          UndesiredWasThere(v, w, m, k, n);
          RemovableGone(v, w, m, Had(v, m), k, n);
        }
      }
      ExactFrom(names, w, m);
    } else {
      var k, n :| Mine(names, m.dom, n) && n !in Numbers(m, k) && FeatureName(k, m.dom, n) in v.plans
        && v.plans[FeatureName(k, m.dom, n)].tag != FeatureTag(m.dom) && !(k == CallQueue && Key(m.dom, n) in v.queues);
      UnremovableStays(v, w, m, k, n);
      NotExact(names, w, m, k, n);
    }
  }

  lemma UndesiredWasThere(v: View, w: View, m: Model, k: Kind, n: string)
    requires PlansBetween(v, w, m) && n !in Numbers(m, k) && FeatureName(k, m.dom, n) in w.plans
    ensures FeatureName(k, m.dom, n) in v.plans
  {
    WantedIff(m, k, n);
    hide FeatureName, WantedName, Numbers, XmlFor, Droppable;
  }

  lemma AllKinds(v: View, m: Model)
    requires SettledPlans(v, m) && SettledQueues(v, m)
    ensures forall k :: SettledKind(v, m, k)
  {
    hide SettledKind, WantedNames, StateFor;
    forall k ensures SettledKind(v, m, k) {
      assert k == Conference || k == RingGroup || k == Ivr || k == CallQueue;
    }
  }

  lemma ExactFrom(names: iset<string>, v: View, m: Model)
    requires forall k :: SettledKind(v, m, k)
    requires forall k, n :: Mine(names, m.dom, n) && FeatureName(k, m.dom, n) in v.plans ==> n in Numbers(m, k)
    ensures PlansExact(names, v, m)
  {
    hide SettledKind, Mine, FeatureName, Numbers;
  }

  lemma NotExact(names: iset<string>, v: View, m: Model, k: Kind, n: string)
    requires Mine(names, m.dom, n) && FeatureName(k, m.dom, n) in v.plans && n !in Numbers(m, k)
    ensures !PlansExact(names, v, m)
  {
    hide SettledKind, Mine, FeatureName, Numbers;
  }

  lemma SyncedSettled(s: Snap, s': Snap, m: Model, outage: nat -> bool)
    requires Reconciled(s, s', m, outage, Synced)
    ensures SettledExts(s'.view, m) && SettledPlans(s'.view, m) && SettledQueues(s'.view, m)
    ensures m.active ==> SettledBoxes(s'.view, m) && SettledShared(s'.view, m)
  {
    hide Advanced, SettledExts, SettledPlans, SettledQueues, SettledBoxes, SettledShared, ChoiceOk, Ran;
  }

  lemma OrderlyRemovable(names: iset<string>, v: View, m: Model)
    requires Orderly(names, v, m.dom)
    ensures Removable(names, v, m)
  {
    hide Mine, FeatureName, Numbers, IsOwnFeature;
  }

  /** So it ends from any PBX whose dialplans are in order. */
  lemma Converges(names: iset<string>, s: Snap, s': Snap, m: Model, outage: nat -> bool)
    requires NumbersMine(names, m) && m.dom in names && Orderly(names, s.view, m.dom)
    requires Reconciled(s, s', m, outage, Synced)
    ensures Project(names, s'.view, m.dom) == Desired(m) && Orderly(names, s'.view, m.dom)
    ensures SettledBoxes(s'.view, m) || !m.active
    ensures m.active ==> SettledShared(s'.view, m)
    ensures ValidModel(m) ==> Provides(names, s'.view, m)
  {
    hide Reconciled, Project, Desired, NumbersMine, Orderly, TagsFit, Between, Removable, SettledBoxes, SettledShared;
    hide ValidModel, Provides;
    ReconciledBetween(s, s', m, outage, Synced);
    OrderlyStays(names, s.view, s'.view, m, Had(s.view, m), m.dom);
    OrderlyFits(names, s.view, m.dom);
    OrderlyRemovable(names, s.view, m);
    ConvergesIff(names, s, s', m, outage);
    SyncedSettled(s, s', m, outage);
    if ValidModel(m) {
      DesiredProvides(names, s'.view, m);
    }
  }

  /** A run right after a synced one changes no row, reloads nothing and sends no command. */
  lemma SecondRunIsQuiet(s: Snap, s1: Snap, s2: Snap, m: Model, outage: nat -> bool, status: SyncStatus)
    requires Reconciled(s, s1, m, outage, Synced) && Reconciled(s1, s2, m, outage, status)
    ensures Quiet(s1, s2)
  {
    hide Advanced, Settled, Ran, ChoiceOk;
  }

  /** Nothing desired that was there at the start is ever missing, not even after a failure. */
  lemma NoOutageForTenant(names: iset<string>, s: Snap, s': Snap, m: Model, outage: nat -> bool, status: SyncStatus)
    requires Reconciled(s, s', m, outage, status)
    ensures forall n :: n in Project(names, s.view, m.dom).exts && n in m.exts ==>
      n in Project(names, s'.view, m.dom).exts
    ensures forall p: (Kind, string) :: p in Project(names, s.view, m.dom).plans && p.1 in Numbers(m, p.0) ==>
      p in Project(names, s'.view, m.dom).plans
    ensures forall n :: n in Project(names, s.view, m.dom).queues && n in m.queues ==>
      n in Project(names, s'.view, m.dom).queues
    ensures forall n :: n in m.exts && m.exts[n].voicemail && Key(m.dom, n) in s.view.boxes ==>
      Key(m.dom, n) in s'.view.boxes
    ensures LoginsKept(s.db, s'.db, m)
  {
    hide OthersKept, PlansKept, Touched, LoginsKept, Clear, Settled, Ran, ChoiceOk, Mine, LinksBetween;
    forall k, n | n in Numbers(m, k) && FeatureName(k, m.dom, n) in s.view.plans
      ensures FeatureName(k, m.dom, n) in s'.view.plans
    {
      WantedIff(m, k, n);
    }
    hide FeatureName, Numbers, PlansBetween;
  }

  /** Once the share is as desired, no run and no cut can move it. */
  lemma DesiredStays(names: iset<string>, a: View, b: View, m: Model, actual: set<string>)
    requires Between(a, b, m, actual) && Project(names, a, m.dom) == Desired(m)
    ensures Project(names, b, m.dom) == Desired(m)
    ensures SettledBoxes(a, m) ==> SettledBoxes(b, m)
  {
    hide ExtsBetween, PlansBetween, QueuesBetween, LinksBetween, SettledExts;
    ExtsIff(names, a, m);
    ExtsIff(names, b, m);
    DesiredExtsStay(a, b, m);
    DesiredQueuesStay(names, a, b, m);
    DesiredPlansStay(names, a, b, m);
    ProjectionParts(names, b, m);
    assert SettledBoxes(a, m) ==> SettledBoxes(b, m);
    hide Project, Desired, BoxesBetween;
  }

  lemma DesiredExtsStay(a: View, b: View, m: Model)
    requires ExtsBetween(a.exts, b.exts, m) && SettledExts(a, m)
    ensures SettledExts(b, m)
  {
    hide DisplayNames;
    forall k | k in b.exts && k.dom == m.dom ensures k.number in m.exts {
      assert k == Key(m.dom, k.number);
    }
  }

  lemma DesiredQueuesStay(names: iset<string>, a: View, b: View, m: Model)
    requires QueuesBetween(a.queues, b.queues, m) && Project(names, a, m.dom).queues == Desired(m).queues
    ensures Project(names, b, m.dom).queues == Desired(m).queues
  {
    hide FeatureName, Mine, Numbers, XmlFor, DisplayNames, StateFor;
    var pa, pb, d := Project(names, a, m.dom).queues, Project(names, b, m.dom).queues, Desired(m).queues;
    forall n ensures n in pb <==> n in d {
      assert n in pa <==> n in d;
    }
    forall n | n in pb ensures pb[n] == d[n] {
      assert n in pa && pa[n] == d[n];
    }
  }

  lemma DesiredPlanStays(names: iset<string>, a: View, b: View, m: Model, p: (Kind, string))
    requires PlansBetween(a, b, m) && Project(names, a, m.dom).plans == Desired(m).plans
    ensures p in Project(names, b, m.dom).plans <==> p in Desired(m).plans
    ensures p in Desired(m).plans ==> Project(names, b, m.dom).plans[p] == Desired(m).plans[p]
  {
    WantedIff(m, p.0, p.1);
    hide FeatureName, Mine, Numbers, XmlFor, WantedName;
    assert p in Project(names, a, m.dom).plans <==> p in Desired(m).plans;
    assert p in Desired(m).plans ==> Project(names, a, m.dom).plans[p] == Desired(m).plans[p];
  }

  lemma DesiredPlansStay(names: iset<string>, a: View, b: View, m: Model)
    requires PlansBetween(a, b, m) && Project(names, a, m.dom).plans == Desired(m).plans
    ensures Project(names, b, m.dom).plans == Desired(m).plans
  {
    hide PlansBetween, Project, Desired;
    forall p: (Kind, string)
      ensures p in Project(names, b, m.dom).plans <==> p in Desired(m).plans
      ensures p in Desired(m).plans ==> Project(names, b, m.dom).plans[p] == Desired(m).plans[p]
    {
      DesiredPlanStays(names, a, b, m, p);
    }
  }

  // ------------------------------------------------------- failure and retry

  /** The run deleted the extension of `n` and left its voicemail box behind. */
  predicate Stranded(a: View, b: View, m: Model, n: string) {
    n !in m.exts && Key(m.dom, n) in a.exts && Key(m.dom, n) !in b.exts && Key(m.dom, n) in b.boxes
  }

  /** Call `at` is the first from call `from` on that finds the database down. */
  ghost predicate FirstOutage(outage: nat -> bool, from: nat, at: nat) {
    from <= at && outage(at) && Clear(outage, from, at)
  }

  /** The run makes the calls of its script up to the first outage: it is synced exactly when all
      of them find the database up. */
  lemma RunCalls(s: Snap, s': Snap, m: Model, outage: nat -> bool, status: SyncStatus) returns (o: Choice, done: nat)
    requires Reconciled(s, s', m, outage, status)
    ensures ChoiceOk(o, s.view, m) && done <= |Script(s.view, m, o)|
    ensures s'.view == RunOps(s.view, m, Script(s.view, m, o)[..done])
    ensures status == Synced <==> done == |Script(s.view, m, o)|
    ensures status == Synced <==> Clear(outage, s.calls, s.calls + |Script(s.view, m, o)|)
    ensures status == Synced ==> s'.calls == s.calls + done && Clear(outage, s.calls, s.calls + done)
    ensures status == Error ==> s'.calls == s.calls + done + 1 && FirstOutage(outage, s.calls, s.calls + done)
  {
    hide OthersKept, PlansKept, Touched, Between, LoginsKept, Settled, ChoiceOk, Quiet, Script;
    o :| ChoiceOk(o, s.view, m) && Ran(s, s', m, Script(s.view, m, o), status == Synced);
    done := s'.calls - s.calls - if status == Synced then 0 else 1;
    if status == Error {
      assert Clear(outage, s.calls, s'.calls - 1) && !Clear(outage, s.calls, s'.calls);
      assert outage(s'.calls - 1);
    }
  }

  lemma OneFirst(outage: nat -> bool, from: nat, a: nat, b: nat)
    requires FirstOutage(outage, from, a) && FirstOutage(outage, from, b)
    ensures a == b
  {}

  lemma StaleHad(v: View, m: Model, n: string)
    ensures n in StaleIn(v, m) <==> Key(m.dom, n) in v.exts && n !in m.exts
  {
    if n in StaleIn(v, m) {
      var k :| k in v.exts && k.dom == m.dom && k.number == n;
      assert k == Key(m.dom, n);
    } else if Key(m.dom, n) in v.exts {
      assert Key(m.dom, n).number in Had(v, m);
    }
  }

  lemma StalePlace(v: View, m: Model, n: string) returns (j: nat)
    requires n in StaleIn(v, m)
    ensures |Sorted(StaleIn(v, m))| == |StaleIn(v, m)|
    ensures j < |StaleIn(v, m)| && Sorted(StaleIn(v, m))[j] == n
  {
    hide StaleIn, Sorted;
    EnumeratesSize(Sorted(StaleIn(v, m)), StaleIn(v, m));
    assert n in Elems(Sorted(StaleIn(v, m)));
    j :| 0 <= j < |Sorted(StaleIn(v, m))| && Sorted(StaleIn(v, m))[j] == n;
  }

  /** The run meets its first outage at the delete_voicemail call for the stale number `n`, which
      has a box and stands at place `j` of the sorted order. */
  ghost predicate StrandsAt(s: Snap, m: Model, outage: nat -> bool, j: nat, n: string) {
    && j < |Sorted(StaleIn(s.view, m))| && Sorted(StaleIn(s.view, m))[j] == n && Key(m.dom, n) in s.view.boxes
    && FirstOutage(outage, s.calls, s.calls + 1 + |m.exts| + 2 * j + 1)
  }

  /** A run strands the voicemail box of a number exactly when the first outage hits its second
      deletion, and then it strands no other box. */
  lemma StrandedIff(s: Snap, s': Snap, m: Model, outage: nat -> bool, status: SyncStatus)
    requires Reconciled(s, s', m, outage, status)
    ensures forall n :: Stranded(s.view, s'.view, m, n) <==> exists j: nat :: StrandsAt(s, m, outage, j, n)
    ensures forall n, n' :: Stranded(s.view, s'.view, m, n) && Stranded(s.view, s'.view, m, n') ==> n == n'
  {
    hide Reconciled, Stranded, StrandsAt;
    forall n | Stranded(s.view, s'.view, m, n) ensures exists j: nat :: StrandsAt(s, m, outage, j, n) {
      var j := StrandedAt(s, s', m, outage, status, n);
    }
    forall n, j: nat | StrandsAt(s, m, outage, j, n) ensures Stranded(s.view, s'.view, m, n) {
      AtStrands(s, s', m, outage, status, j, n);
    }
    forall n, n' | Stranded(s.view, s'.view, m, n) && Stranded(s.view, s'.view, m, n') ensures n == n' {
      var i := StrandedAt(s, s', m, outage, status, n);
      var j := StrandedAt(s, s', m, outage, status, n');
      OnePlace(s, m, outage, i, n, j, n');
    }
  }

  lemma OnePlace(s: Snap, m: Model, outage: nat -> bool, i: nat, n: string, j: nat, n': string)
    requires StrandsAt(s, m, outage, i, n) && StrandsAt(s, m, outage, j, n')
    ensures n == n'
  {
    hide StaleIn, Sorted, FirstOutage;
    OneFirst(outage, s.calls, s.calls + 1 + |m.exts| + 2 * i + 1, s.calls + 1 + |m.exts| + 2 * j + 1);
  }

  lemma StrandedAt(s: Snap, s': Snap, m: Model, outage: nat -> bool, status: SyncStatus, n: string) returns (j: nat)
    requires Reconciled(s, s', m, outage, status) && Stranded(s.view, s'.view, m, n)
    ensures StrandsAt(s, m, outage, j, n)
  {
    hide Reconciled, StaleIn, Sorted, FirstOutage, Script, ChoiceOk, RunOps;
    var o, done := RunCalls(s, s', m, outage, status);
    StaleHad(s.view, m, n);
    j := StalePlace(s.view, m, n);
    StaleMade(s.view, m, o, done, j);
    ExtensionFate(s.view, m, Script(s.view, m, o)[..done], n);
    BoxFate(s.view, m, Script(s.view, m, o)[..done], n);
    assert done == 1 + |m.exts| + 2 * j + 1;
    assert status == Error by { StaleMade(s.view, m, o, |Script(s.view, m, o)|, j); StaleCalls(s.view, m, o, j); }
  }

  lemma StaleCalls(v: View, m: Model, o: Choice, j: nat)
    requires j < |StaleIn(v, m)|
    ensures |Script(v, m, o)| > 1 + |m.exts| + 2 * j + 1
  {
    hide LoopOps, StaleIn, RestOf, Script, Sorted;
    ScriptParts(v, m, o);
  }

  lemma AtStrands(s: Snap, s': Snap, m: Model, outage: nat -> bool, status: SyncStatus, j: nat, n: string)
    requires Reconciled(s, s', m, outage, status) && StrandsAt(s, m, outage, j, n)
    ensures Stranded(s.view, s'.view, m, n)
  {
    hide Reconciled, StaleIn, Sorted, Script, ChoiceOk, RunOps;
    var o, done := RunCalls(s, s', m, outage, status);
    EnumeratesSize(Sorted(StaleIn(s.view, m)), StaleIn(s.view, m));
    StaleCalls(s.view, m, o, j);
    StaleMade(s.view, m, o, done, j);
    StaleHad(s.view, m, n);
    ExtensionFate(s.view, m, Script(s.view, m, o)[..done], n);
    BoxFate(s.view, m, Script(s.view, m, o)[..done], n);
    if status == Error {
      OneFirst(outage, s.calls, s.calls + done, s.calls + 1 + |m.exts| + 2 * j + 1);
    }
  }

  /** A synced run removes the box of every number that it found with an extension and without
      a model, and touches no box of other undesired numbers. */
  lemma BoxesOfOthers(s: Snap, s': Snap, m: Model, outage: nat -> bool, n: string)
    requires Reconciled(s, s', m, outage, Synced) && n !in m.exts
    ensures Key(m.dom, n) in s'.view.boxes <==> Key(m.dom, n) in s.view.boxes && n !in StaleIn(s.view, m)
  {
    hide Reconciled, StaleIn, Sorted, Script, ChoiceOk, RunOps;
    var o, done := RunCalls(s, s', m, outage, Synced);
    if n in StaleIn(s.view, m) {
      var j := StalePlace(s.view, m, n);
      StaleCalls(s.view, m, o, j);
      StaleMade(s.view, m, o, done, j);
      BoxFate(s.view, m, Script(s.view, m, o)[..done], n);
    } else {
      BoxOfNeither(s, s', m, outage, Synced, n);
    }
  }

  lemma BoxOfNeither(s: Snap, s': Snap, m: Model, outage: nat -> bool, status: SyncStatus, n: string)
    requires Reconciled(s, s', m, outage, status) && n !in m.exts && n !in StaleIn(s.view, m)
    ensures Key(m.dom, n) in s'.view.boxes <==> Key(m.dom, n) in s.view.boxes
    ensures n !in StaleIn(s'.view, m)
  {
    hide OthersKept, PlansKept, Touched, LoginsKept, Clear, Settled, PlansBetween, LinksBetween, QueuesBetween, Ran;
    hide ChoiceOk;
    StaleHad(s.view, m, n);
    StaleHad(s'.view, m, n);
    assert n !in Had(s.view, m) || n in StaleIn(s.view, m);
  }

  /** A chain of runs for one model, whatever each of them met. */
  ghost predicate Chain(runs: seq<Snap>, m: Model, outages: seq<nat -> bool>, statuses: seq<SyncStatus>) {
    && |runs| == |outages| + 1 == |statuses| + 1
    && forall i :: 0 <= i < |outages| ==> Reconciled(runs[i], runs[i + 1], m, outages[i], statuses[i])
  }

  ghost predicate StrandedBy(runs: seq<Snap>, m: Model, n: string, i: nat) {
    i + 1 < |runs| && Stranded(runs[i].view, runs[i + 1].view, m, n)
  }

  /** Some run of the chain stranded the box of `n`. */
  ghost predicate StrandedIn(runs: seq<Snap>, m: Model, n: string) {
    exists i: nat :: StrandedBy(runs, m, n, i)
  }

  // A number stays without an extension once it is; until then no run stranded its box.
  ghost predicate BoxStory(runs: seq<Snap>, m: Model, n: string)
    requires |runs| > 0
  {
    var first, last := runs[0].view, runs[|runs| - 1].view;
    if n !in StaleIn(first, m) then
      && n !in StaleIn(last, m) && !StrandedIn(runs, m, n)
      && (Key(m.dom, n) in last.boxes <==> Key(m.dom, n) in first.boxes)
    else if n in StaleIn(last, m) then !StrandedIn(runs, m, n)
    else Key(m.dom, n) in last.boxes <==> StrandedIn(runs, m, n)
  }

  lemma ChainPrefix(runs: seq<Snap>, m: Model, outages: seq<nat -> bool>, statuses: seq<SyncStatus>)
    requires Chain(runs, m, outages, statuses) && |outages| > 0
    ensures var k := |outages| - 1;
      && Chain(runs[..k + 1], m, outages[..k], statuses[..k])
      && Reconciled(runs[k], runs[k + 1], m, outages[k], statuses[k])
  {
    hide Reconciled;
  }

  lemma StrandedNext(runs: seq<Snap>, m: Model, n: string)
    requires |runs| > 1
    ensures var k := |runs| - 2;
      StrandedIn(runs, m, n) <==> StrandedIn(runs[..k + 1], m, n) || Stranded(runs[k].view, runs[k + 1].view, m, n)
  {
    hide Stranded;
    var k := |runs| - 2;
    forall i: nat ensures StrandedBy(runs, m, n, i) <==>
        StrandedBy(runs[..k + 1], m, n, i) || (i == k && Stranded(runs[k].view, runs[k + 1].view, m, n))
    {
      if i + 1 < k + 1 {
        assert runs[..k + 1][i] == runs[i] && runs[..k + 1][i + 1] == runs[i + 1];
      }
    }
    assert Stranded(runs[k].view, runs[k + 1].view, m, n) ==> StrandedBy(runs, m, n, k);
    hide StrandedBy;
    if i: nat :| StrandedBy(runs, m, n, i) {
      assert StrandedBy(runs[..k + 1], m, n, i) || (i == k && Stranded(runs[k].view, runs[k + 1].view, m, n));
    }
    var before := runs[..k + 1];
    if i: nat :| StrandedBy(before, m, n, i) {
      assert StrandedBy(runs, m, n, i);
    }
  }

  lemma BoxStoryNext(runs: seq<Snap>, m: Model, outage: nat -> bool, status: SyncStatus, n: string)
    requires |runs| > 1 && n !in m.exts && BoxStory(runs[..|runs| - 1], m, n)
    requires Reconciled(runs[|runs| - 2], runs[|runs| - 1], m, outage, status)
    ensures BoxStory(runs, m, n)
  {
    hide Reconciled, StaleIn, StrandedIn;
    var k := |runs| - 2;
    StrandedNext(runs, m, n);
    assert runs[..k + 1][k] == runs[k] && runs[..k + 1][0] == runs[0];
    StaleHad(runs[k].view, m, n);
    StaleHad(runs[k + 1].view, m, n);
    if n !in StaleIn(runs[k].view, m) {
      BoxOfNeither(runs[k], runs[k + 1], m, outage, status, n);
    }
  }

  lemma {:induction false} ChainBoxes(runs: seq<Snap>, m: Model, outages: seq<nat -> bool>, statuses: seq<SyncStatus>,
      n: string)
    requires Chain(runs, m, outages, statuses) && n !in m.exts
    ensures BoxStory(runs, m, n)
    decreases |outages|
  {
    ChainSize(runs, m, outages, statuses);
    hide Chain, Reconciled;
    if |runs| > 1 {
      hide BoxStory;
      var k := |outages| - 1;
      ChainPrefix(runs, m, outages, statuses);
      ChainBoxes(runs[..k + 1], m, outages[..k], statuses[..k], n);
      BoxStoryNext(runs, m, outages[k], statuses[k], n);
    } else {
      NoRunsNoStory(runs, m, n);
    }
  }

  lemma NoRunsNoStory(runs: seq<Snap>, m: Model, n: string)
    requires |runs| == 1 && n !in m.exts
    ensures BoxStory(runs, m, n)
  {
    hide StaleIn, Stranded;
  }

  lemma ChainSize(runs: seq<Snap>, m: Model, outages: seq<nat -> bool>, statuses: seq<SyncStatus>)
    requires Chain(runs, m, outages, statuses)
    ensures |runs| == |outages| + 1 == |statuses| + 1
  {
    hide Reconciled;
  }

  lemma {:induction false} ChainOrderly(names: iset<string>, runs: seq<Snap>, m: Model, outages: seq<nat -> bool>,
      statuses: seq<SyncStatus>)
    requires Chain(runs, m, outages, statuses) && NumbersMine(names, m) && m.dom in names
    requires Orderly(names, runs[0].view, m.dom)
    ensures Orderly(names, runs[|runs| - 1].view, m.dom)
    decreases |outages|
  {
    hide Reconciled, NumbersMine, Orderly, Between;
    if |outages| > 0 {
      var k := |outages| - 1;
      ChainPrefix(runs, m, outages, statuses);
      ChainOrderly(names, runs[..k + 1], m, outages[..k], statuses[..k]);
      ReconciledBetween(runs[k], runs[k + 1], m, outages[k], statuses[k]);
      OrderlyStays(names, runs[k].view, runs[k + 1].view, m, Had(runs[k].view, m), m.dom);
    }
  }

  lemma ChainEnd(names: iset<string>, runs: seq<Snap>, m: Model, outages: seq<nat -> bool>, statuses: seq<SyncStatus>)
    requires NumbersMine(names, m) && m.dom in names && Chain(runs, m, outages, statuses)
    requires |runs| > 1 && statuses[|statuses| - 1] == Synced && Orderly(names, runs[0].view, m.dom)
    ensures Project(names, runs[|runs| - 1].view, m.dom) == Desired(m) && StaleIn(runs[|runs| - 1].view, m) == {}
  {
    ChainSize(runs, m, outages, statuses);
    hide Chain, Reconciled, Orderly, NumbersMine, Project, Desired, StaleIn, SettledExts;
    var k := |outages| - 1;
    ChainPrefix(runs, m, outages, statuses);
    assert runs[..k + 1][0] == runs[0] && runs[..k + 1][k] == runs[k];
    ChainOrderly(names, runs[..k + 1], m, outages[..k], statuses[..k]);
    Converges(names, runs[k], runs[k + 1], m, outages[k]);
    SyncedSettled(runs[k], runs[k + 1], m, outages[k]);
    NothingStale(runs[k + 1].view, m);
  }

  /** Any number of failed runs followed by a synced one reach the share that a single synced run
      reaches; voicemail boxes of numbers no longer desired differ by the stranded ones alone. */
  lemma RetriesConverge(names: iset<string>, runs: seq<Snap>, clean: Snap, m: Model, outages: seq<nat -> bool>,
      calm: nat -> bool, statuses: seq<SyncStatus>)
    requires NumbersMine(names, m) && m.dom in names && Chain(runs, m, outages, statuses)
    requires |runs| > 1 && statuses[|statuses| - 1] == Synced && Orderly(names, runs[0].view, m.dom)
    requires Reconciled(runs[0], clean, m, calm, Synced)
    ensures var last := runs[|runs| - 1].view;
      && Project(names, last, m.dom) == Project(names, clean.view, m.dom) == Desired(m)
      && forall n :: n !in m.exts ==>
           (Key(m.dom, n) in last.boxes <==> Key(m.dom, n) in clean.view.boxes || StrandedIn(runs, m, n))
    ensures ValidModel(m) ==> Provides(names, runs[|runs| - 1].view, m)
  {
    hide Reconciled, Orderly, NumbersMine, Project, Desired, StaleIn, StrandedIn, Chain, ValidModel, Provides;
    ChainEnd(names, runs, m, outages, statuses);
    Converges(names, runs[0], clean, m, calm);
    var last := runs[|runs| - 1].view;
    if ValidModel(m) {
      DesiredProvides(names, last, m);
    }
    forall n | n !in m.exts
      ensures Key(m.dom, n) in last.boxes <==> Key(m.dom, n) in clean.view.boxes || StrandedIn(runs, m, n)
    {
      ChainBoxes(runs, m, outages, statuses, n);
      BoxesOfOthers(runs[0], clean, m, calm, n);
    }
  }

  /** In particular one failed run and then a synced one. */
  lemma RetryConverges(names: iset<string>, s: Snap, s1: Snap, s2: Snap, clean: Snap, m: Model, outage: nat -> bool,
      calm: nat -> bool, status: SyncStatus)
    requires NumbersMine(names, m) && m.dom in names && Orderly(names, s.view, m.dom)
    requires Reconciled(s, s1, m, outage, status) && Reconciled(s1, s2, m, outage, Synced)
    requires Reconciled(s, clean, m, calm, Synced)
    ensures Project(names, s2.view, m.dom) == Project(names, clean.view, m.dom) == Desired(m)
    ensures forall n :: n !in m.exts ==>
      (Key(m.dom, n) in s2.view.boxes <==> Key(m.dom, n) in clean.view.boxes || Stranded(s.view, s1.view, m, n))
  {
    hide Reconciled, Orderly, NumbersMine, Project, Desired, Stranded;
    var runs := [s, s1, s2];
    assert Chain(runs, m, [outage, outage], [status, Synced]);
    RetriesConverge(names, runs, clean, m, [outage, outage], calm, [status, Synced]);
    forall n | n !in m.exts ensures StrandedIn(runs, m, n) <==> Stranded(s.view, s1.view, m, n) {
      SyncedStrandsNone(s1, s2, m, outage, n);
      assert StrandedBy(runs, m, n, 0) <==> Stranded(s.view, s1.view, m, n);
      assert StrandedBy(runs, m, n, 1) <==> Stranded(s1.view, s2.view, m, n);
    }
  }

  lemma SyncedStrandsNone(s: Snap, s': Snap, m: Model, outage: nat -> bool, n: string)
    requires Reconciled(s, s', m, outage, Synced)
    ensures !Stranded(s.view, s'.view, m, n)
  {
    hide Reconciled, StaleIn;
    if n !in m.exts {
      BoxesOfOthers(s, s', m, outage, n);
      StaleHad(s.view, m, n);
    }
  }

  lemma ReconciledKeeps(s: Snap, s': Snap, m: Model, outage: nat -> bool, status: SyncStatus)
    requires Reconciled(s, s', m, outage, status)
    ensures OthersKept(s.db, s'.db, m.dom) && s.commands <= s'.commands && s.calls <= s'.calls
  {
    hide Between, OthersKept, PlansKept, Touched, LoginsKept, Clear, Settled, Ran, ChoiceOk, Had;
  }

  lemma ReconciledBetween(s: Snap, s': Snap, m: Model, outage: nat -> bool, status: SyncStatus)
    requires Reconciled(s, s', m, outage, status)
    ensures Between(s.view, s'.view, m, Had(s.view, m))
  {
    hide Between, OthersKept, PlansKept, Touched, LoginsKept, Clear, Settled, Ran, ChoiceOk, Had;
  }

  // --------------------------------------------------------------- neighbours

  /** A run never touches a dialplan of another tenant. */
  lemma NotTouched(names: iset<string>, v: View, m: Model, b: string, k: Kind, n: string)
    requires m.dom in names && b in names && b != m.dom && NumbersMine(names, m)
    requires Orderly(names, v, m.dom) && Orderly(names, v, b) && Mine(names, b, n) && FeatureName(k, b, n) in v.plans
    ensures FeatureName(k, b, n) !in Touched(v, m)
  {
    var name := FeatureName(k, b, n);
    NotRouting(k, b, n);
    if WantedName(m, name) {
      var k', n' :| n' in Numbers(m, k') && name == FeatureName(k', m.dom, n');
      OneOwner(names, k, b, n, k', m.dom, n');
    }
    if IsQueueIn(v, m.dom, name) {
      var n' :| Key(m.dom, n') in v.queues && name == FeatureName(CallQueue, m.dom, n');
      assert Mine(names, m.dom, Key(m.dom, n').number);
      OneOwner(names, k, b, n, CallQueue, m.dom, n');
    }
    if v.plans[name].tag == FeatureTag(m.dom) {
      assert IsOwnFeature(names, name, m.dom);
      var k', n' :| k' != CallQueue && Mine(names, m.dom, n') && name == FeatureName(k', m.dom, n');
      OneOwner(names, k, b, n, k', m.dom, n');
    }
    hide Mine, FeatureName, NumbersMine, Numbers;
  }

  function NotExtOf(domains: map<Uuid, string>, b: string): ExtensionRow -> bool {
    (r: ExtensionRow) => !OfDomain(domains, r.domain, b)
  }
  function NotBoxOf(domains: map<Uuid, string>, b: string): VoicemailRow -> bool {
    (r: VoicemailRow) => !OfDomain(domains, r.domain, b)
  }
  function NotQueueOf(domains: map<Uuid, string>, b: string): QueueRow -> bool {
    (r: QueueRow) => !OfDomain(domains, r.domain, b)
  }
  function NotAgentOf(domains: map<Uuid, string>, b: string): AgentRow -> bool {
    (r: AgentRow) => !OfDomain(domains, r.domain, b)
  }
  function NotTierOf(domains: map<Uuid, string>, b: string): TierRow -> bool {
    (r: TierRow) => !OfDomain(domains, r.domain, b)
  }
  ghost function NotPlanIn(names: iset<string>): DialplanRow -> bool {
    (r: DialplanRow) => !(r.isPublic && r.name in names)
  }

  /** The dialplan names of domain `b` that the PBX has. */
  ghost function PlanNames(names: iset<string>, v: View, b: string): iset<string> {
    iset name | name in v.plans && IsShareName(names, name, b)
  }

  ghost predicate IsShareName(names: iset<string>, name: string, b: string) {
    exists k, n :: Mine(names, b, n) && name == FeatureName(k, b, n)
  }

  /** Rows of tenant `b` are the same before and after, its dialplans `plans` among them. */
  ghost predicate TenantRowsSame(t: Db, t': Db, b: string, plans: iset<string>) {
    && RowsKept(t.extensions, t'.extensions, NotExtOf(t'.domains, b))
    && RowsKept(t.voicemails, t'.voicemails, NotBoxOf(t'.domains, b))
    && RowsKept(t.queues, t'.queues, NotQueueOf(t'.domains, b))
    && RowsKept(t.agents, t'.agents, NotAgentOf(t'.domains, b))
    && RowsKept(t.tiers, t'.tiers, NotTierOf(t'.domains, b))
    && RowsKept(t.dialplans, t'.dialplans, NotPlanIn(plans))
  }

  lemma TablesOfOthers(t: Db, t': Db, a: string, b: string, touched: iset<string>, plans: iset<string>)
    requires OthersKept(t, t', a) && PlansKept(t, t', touched) && a != b && touched !! plans
    ensures TenantRowsSame(t, t', b, plans)
  {
    hide RowsKept;
    RowsKeptWiden(t.extensions, t'.extensions, ExtMine(t'.domains, a), NotExtOf(t'.domains, b));
    RowsKeptWiden(t.voicemails, t'.voicemails, BoxMine(t'.domains, a), NotBoxOf(t'.domains, b));
    RowsKeptWiden(t.queues, t'.queues, QueueMine(t'.domains, a), NotQueueOf(t'.domains, b));
    RowsKeptWiden(t.agents, t'.agents, AgentMine(t'.domains, a), NotAgentOf(t'.domains, b));
    RowsKeptWiden(t.tiers, t'.tiers, TierMine(t'.domains, a), NotTierOf(t'.domains, b));
    assert forall r :: PlanNamed(touched)(r) ==> NotPlanIn(plans)(r);
    RowsKeptWiden(t.dialplans, t'.dialplans, PlanNamed(touched), NotPlanIn(plans));
  }

  /** Every row of another tenant stays the same, its dialplans with them. */
  lemma NeighbourRowsKept(names: iset<string>, s: Snap, s': Snap, m: Model, outage: nat -> bool, status: SyncStatus,
      b: string)
    requires Reconciled(s, s', m, outage, status) && m.dom in names && b in names && b != m.dom && NumbersMine(names, m)
    requires Orderly(names, s.view, m.dom) && Orderly(names, s.view, b)
    ensures TenantRowsSame(s.db, s'.db, b, PlanNames(names, s.view, b))
  {
    hide OthersKept, PlansKept, Between, LoginsKept, Settled, Ran, ChoiceOk, Touched, Orderly, NumbersMine;
    forall name | name in PlanNames(names, s.view, b) ensures name !in Touched(s.view, m) {
      var k, n :| Mine(names, b, n) && name == FeatureName(k, b, n);
      NotTouched(names, s.view, m, b, k, n);
    }
    hide Mine, PlanNames;
    TablesOfOthers(s.db, s'.db, m.dom, b, Touched(s.view, m), PlanNames(names, s.view, b));
  }

  lemma NeighbourPlans(names: iset<string>, v: View, w: View, m: Model, b: string, k: Kind, n: string)
    requires PlansBetween(v, w, m) && m.dom in names && b in names && b != m.dom && NumbersMine(names, m)
    requires Orderly(names, v, m.dom) && Orderly(names, v, b) && Mine(names, b, n)
    ensures FeatureName(k, b, n) in w.plans <==> FeatureName(k, b, n) in v.plans
    ensures FeatureName(k, b, n) in v.plans ==> w.plans[FeatureName(k, b, n)] == v.plans[FeatureName(k, b, n)]
  {
    hide Orderly;
    var name := FeatureName(k, b, n);
    if name in v.plans {
      NotTouched(names, v, m, b, k, n);
      hide WantedName, Droppable, Mine, FeatureName, NumbersMine, Numbers;
    } else if name in w.plans {
      NewNames(names, v, w, m, b);
      hide PlansBetween, Mine, FeatureName, NumbersMine, Numbers;
    }
  }

  lemma NeighbourKeys(names: iset<string>, v: View, w: View, m: Model, actual: set<string>, b: string)
    requires Between(v, w, m, actual) && m.dom != b
    ensures Project(names, w, b).exts == Project(names, v, b).exts
    ensures Project(names, w, b).queues == Project(names, v, b).queues
    ensures forall n :: Key(b, n) in w.boxes <==> Key(b, n) in v.boxes
  {
    hide PlansBetween, LinksBetween, FeatureName, Mine, BoxesBetween, QueuesBetween, ExtsBetween;
    OtherKeys(v, w, m, actual, b);
    assert Project(names, w, b).exts == Project(names, v, b).exts;
    assert Project(names, w, b).queues == Project(names, v, b).queues;
  }

  lemma OtherKeys(v: View, w: View, m: Model, actual: set<string>, b: string)
    requires Between(v, w, m, actual) && m.dom != b
    ensures forall n :: Key(b, n) in w.exts <==> Key(b, n) in v.exts
    ensures forall n :: Key(b, n) in v.exts ==> w.exts[Key(b, n)] == v.exts[Key(b, n)]
    ensures forall n :: Key(b, n) in w.queues <==> Key(b, n) in v.queues
    ensures forall n :: Key(b, n) in v.queues ==> w.queues[Key(b, n)] == v.queues[Key(b, n)]
    ensures forall n :: Key(b, n) in w.boxes <==> Key(b, n) in v.boxes
  {
    hide PlansBetween, LinksBetween, DisplayNames, StateFor;
  }

  /** Another tenant sees its own share of the PBX unchanged, after every run and every cut. */
  lemma NeighbourSeesNothing(names: iset<string>, v: View, w: View, m: Model, actual: set<string>, b: string)
    requires Between(v, w, m, actual) && m.dom in names && b in names && b != m.dom && NumbersMine(names, m)
    requires Orderly(names, v, m.dom) && Orderly(names, v, b)
    ensures Project(names, w, b) == Project(names, v, b)
    ensures Orderly(names, w, b)
    ensures forall n :: Key(b, n) in w.boxes <==> Key(b, n) in v.boxes
  {
    hide PlansBetween, ExtsBetween, BoxesBetween, QueuesBetween, LinksBetween, FeatureName, Mine, Orderly, NumbersMine;
    OrderlyStays(names, v, w, m, actual, b);
    NeighbourKeys(names, v, w, m, actual, b);
    forall k, n | Mine(names, b, n)
      ensures FeatureName(k, b, n) in w.plans <==> FeatureName(k, b, n) in v.plans
      ensures FeatureName(k, b, n) in v.plans ==> w.plans[FeatureName(k, b, n)] == v.plans[FeatureName(k, b, n)]
    {
      NeighbourPlans(names, v, w, m, b, k, n);
    }
    assert Project(names, w, b).plans == Project(names, v, b).plans;
  }

  /** Two tenants of any names: a run whose numbers hold no hyphen leaves every row of the other
      tenant and every dialplan of its numbers without a hyphen. */
  lemma IsolatedHyphenFree(s: Snap, s': Snap, m: Model, outage: nat -> bool, status: SyncStatus, b: string, k: Kind,
      n: string)
    requires Reconciled(s, s', m, outage, status) && ValidModel(m) && b != m.dom
    requires forall k, n :: n in Numbers(m, k) ==> '-' !in n
    requires Orderly(iset{m.dom, b}, s.view, m.dom) && Orderly(iset{m.dom, b}, s.view, b)
    requires ValidToken(n) && '-' !in n
    ensures TenantRowsSame(s.db, s'.db, b, PlanNames(iset{m.dom, b}, s.view, b))
    ensures FeatureName(k, b, n) in s'.view.plans <==> FeatureName(k, b, n) in s.view.plans
    ensures FeatureName(k, b, n) in s.view.plans ==>
      s'.view.plans[FeatureName(k, b, n)] == s.view.plans[FeatureName(k, b, n)]
  {
    hide Reconciled, ValidModel, Orderly, NumbersMine, Between, TenantRowsSame, PlanNames, Mine, FeatureName;
    hide ValidToken, Numbers;
    var names := iset{m.dom, b};
    HyphenFreeNumbers(names, m);
    HyphenFreeMine(names, b, n);
    Isolated(names, s, s', m, outage, status, b, k, n);
  }

  lemma Isolated(names: iset<string>, s: Snap, s': Snap, m: Model, outage: nat -> bool, status: SyncStatus, b: string,
      k: Kind, n: string)
    requires Reconciled(s, s', m, outage, status) && m.dom in names && b in names && b != m.dom && NumbersMine(names, m)
    requires Orderly(names, s.view, m.dom) && Orderly(names, s.view, b) && Mine(names, b, n)
    ensures TenantRowsSame(s.db, s'.db, b, PlanNames(names, s.view, b))
    ensures FeatureName(k, b, n) in s'.view.plans <==> FeatureName(k, b, n) in s.view.plans
    ensures FeatureName(k, b, n) in s.view.plans ==>
      s'.view.plans[FeatureName(k, b, n)] == s.view.plans[FeatureName(k, b, n)]
  {
    hide Reconciled, Orderly, NumbersMine, Between, TenantRowsSame, PlanNames, Mine, FeatureName;
    NeighbourRowsKept(names, s, s', m, outage, status, b);
    ReconciledBetween(s, s', m, outage, status);
    BetweenPlans(s.view, s'.view, m, Had(s.view, m));
    NeighbourPlans(names, s.view, s'.view, m, b, k, n);
  }

  lemma BetweenPlans(v: View, w: View, m: Model, actual: set<string>)
    requires Between(v, w, m, actual)
    ensures PlansBetween(v, w, m)
  {
    hide PlansBetween, ExtsBetween, BoxesBetween, QueuesBetween, LinksBetween;
  }

  /** The same for all numbers, when neither domain continues the other by a hyphen. */
  lemma IsolatedApart(s: Snap, s': Snap, m: Model, outage: nat -> bool, status: SyncStatus, b: string, k: Kind,
      n: string)
    requires Reconciled(s, s', m, outage, status) && ValidModel(m) && ValidDomain(b) && b != m.dom
    requires !MayCollide(m.dom, b)
    requires Orderly(iset{m.dom, b}, s.view, m.dom) && Orderly(iset{m.dom, b}, s.view, b)
    requires ValidToken(n)
    ensures TenantRowsSame(s.db, s'.db, b, PlanNames(iset{m.dom, b}, s.view, b))
    ensures FeatureName(k, b, n) in s'.view.plans <==> FeatureName(k, b, n) in s.view.plans
    ensures FeatureName(k, b, n) in s.view.plans ==>
      s'.view.plans[FeatureName(k, b, n)] == s.view.plans[FeatureName(k, b, n)]
  {
    hide Reconciled, Orderly, NumbersMine, TenantRowsSame, PlanNames, Mine, FeatureName, ValidToken, ValidDomain;
    hide AllTokens, RingsValid, IvrsValid, QueuesValid;
    var names := iset{m.dom, b};
    assert ValidDomain(m.dom) && !HyphenExtends(m.dom, m.dom) && !HyphenExtends(b, b) && !HyphenExtends(m.dom, b)
        && !HyphenExtends(b, m.dom);
    hide HyphenExtends, ValidModel;
    ApartNumbers(names, m);
    ApartMine(names, b, n);
    Isolated(names, s, s', m, outage, status, b, k, n);
  }
}
