/** One reconcile step at a time: each client call of a run stays between the start and the
    desired end, writes only dialplan rows of wanted or droppable names and keeps the logins of
    desired extensions. */
module Progress {
  import opened Names
  import opened Orders
  import opened Indexed
  import opened Tables
  import opened Steps
  import opened CallCenter
  import opened Transactions
  import opened Dialplans
  import opened Client
  import opened Models

  // ------------------------------------------------ single calls and the view

  // A step that leaves dialplans alone and loses no queue.
  lemma PlansSame(v: View, w: View, m: Model)
    requires w.plans == v.plans && v.queues.Keys <= w.queues.Keys
    ensures PlansBetween(v, w, m) && LinksBetween(v, w, m)
  {
    hide WantedName, Droppable, FeatureName, Numbers, XmlFor;
  }

  lemma ExtsPut(a: map<Key, ExtNames>, m: Model, n: string)
    requires n in m.exts
    ensures ExtsBetween(a, a[Key(m.dom, n) := DisplayNames(m.exts[n])], m)
  {
    hide DisplayNames;
  }

  lemma BetweenPutExt(v: View, m: Model, actual: set<string>, n: string)
    requires n in m.exts
    ensures Between(v, PutExt(v, m.dom, n, m.exts[n].display), m, actual)
  {
    hide ExtsBetween, BoxesBetween, QueuesBetween, PlansBetween, LinksBetween;
    ExtsPut(v.exts, m, n);
    BetweenRefl(v, m, actual);
    PlansSame(v, PutExt(v, m.dom, n, m.exts[n].display), m);
  }

  lemma BetweenDropExt(v: View, m: Model, actual: set<string>, n: string)
    requires n !in m.exts
    ensures Between(v, DropExt(v, m.dom, n), m, actual)
  {
    hide DisplayNames, BoxesBetween, QueuesBetween, PlansBetween, LinksBetween;
    BetweenRefl(v, m, actual);
    PlansSame(v, DropExt(v, m.dom, n), m);
    assert ExtsBetween(v.exts, DropExt(v, m.dom, n).exts, m);
  }

  lemma BetweenPutBox(v: View, m: Model, actual: set<string>, n: string, password: string)
    requires n in m.exts && m.exts[n].voicemail
    ensures Between(v, PutBox(v, m.dom, n, password), m, actual)
  {
    BetweenRefl(v, m, actual);
    PlansSame(v, PutBox(v, m.dom, n, password), m);
    hide ExtsBetween, PlansBetween, QueuesBetween, LinksBetween;
  }

  lemma BetweenDropBox(v: View, m: Model, actual: set<string>, n: string)
    requires if n in m.exts then !m.exts[n].voicemail else n in actual
    ensures Between(v, DropBox(v, m.dom, n), m, actual)
  {
    BetweenRefl(v, m, actual);
    PlansSame(v, DropBox(v, m.dom, n), m);
    hide ExtsBetween, PlansBetween, QueuesBetween, LinksBetween;
  }

  lemma BetweenDir(v: View, m: Model, actual: set<string>, dir: string)
    ensures Between(v, PutDir(v, dir), m, actual)
  {
    BetweenRefl(v, m, actual);
    PlansSame(v, PutDir(v, dir), m);
    hide ExtsBetween, BoxesBetween, PlansBetween, QueuesBetween, LinksBetween;
  }

  lemma NumberValid(m: Model, k: Kind, n: string)
    requires ValidModel(m) && n in Numbers(m, k)
    ensures ValidToken(n)
  {
    hide ValidToken, ValidTokens, ValidDomain, IvrText.ValidOptions;
  }

  lemma PlansBetweenPut(v: View, m: Model, k: Kind, n: string)
    requires n in Numbers(m, k)
    ensures PlansBetween(v, PutPlan(v, m.dom, FeatureName(k, m.dom, n), XmlFor(m, k, n), TagFor(k, m.dom)), m)
  {
    var name := FeatureName(k, m.dom, n);
    WantedIff(m, k, n);
    forall k', n' | FeatureName(k', m.dom, n') == name ensures k' == k && n' == n {
      NameInjectiveInDomain(m.dom, k', n', k, n);
    }
    hide WantedName, Droppable, FeatureName, Numbers, XmlFor;
  }

  lemma LinksBetweenPut(v: View, m: Model, k: Kind, n: string, xml: Xml)
    requires k == CallQueue ==> Key(m.dom, n) in v.queues
    ensures LinksBetween(v, PutPlan(v, m.dom, FeatureName(k, m.dom, n), xml, TagFor(k, m.dom)), m)
  {
    forall n' | FeatureName(CallQueue, m.dom, n') == FeatureName(k, m.dom, n) ensures k == CallQueue && n' == n {
      NameInjectiveInDomain(m.dom, CallQueue, n', k, n);
    }
    hide FeatureName;
  }

  lemma BetweenPutPlan(v: View, m: Model, actual: set<string>, k: Kind, n: string)
    requires n in Numbers(m, k) && (k == CallQueue ==> Key(m.dom, n) in v.queues)
    ensures Between(v, PutPlan(v, m.dom, FeatureName(k, m.dom, n), XmlFor(m, k, n), TagFor(k, m.dom)), m, actual)
  {
    BetweenRefl(v, m, actual);
    PlansBetweenPut(v, m, k, n);
    LinksBetweenPut(v, m, k, n, XmlFor(m, k, n));
    hide ExtsBetween, BoxesBetween, PlansBetween, QueuesBetween, LinksBetween, FeatureName, XmlFor, Numbers;
  }

  lemma BetweenRouting(v: View, m: Model, actual: set<string>, xml: Xml)
    ensures Between(v, PutPlan(v, m.dom, ROUTING_NAME, xml, RoutingTag), m, actual)
  {
    BetweenRefl(v, m, actual);
    hide ExtsBetween, BoxesBetween, QueuesBetween;
    forall k, n ensures FeatureName(k, m.dom, n) != ROUTING_NAME {
      NotRouting(k, m.dom, n);
    }
    hide WantedName, Droppable, FeatureName, Numbers;
  }

  lemma BetweenDropPlan(v: View, m: Model, actual: set<string>, name: string)
    requires Droppable(v, m, name)
    ensures Between(v, DropPlan(v, name), m, actual)
  {
    BetweenRefl(v, m, actual);
    hide ExtsBetween, BoxesBetween, QueuesBetween, WantedName, Droppable, FeatureName, Numbers, XmlFor;
  }

  lemma BetweenWithQueue(v: View, m: Model, actual: set<string>, n: string)
    requires n in m.queues
    ensures Between(v, WithQueue(WithDomain(v, m.dom), m.dom, n, m.queues[n].strategy, Elems(m.queues[n].agents)), m,
        actual)
  {
    hide Elems, PlansBetween, LinksBetween;
    BetweenRefl(v, m, actual);
    PlansSame(v, WithQueue(WithDomain(v, m.dom), m.dom, n, m.queues[n].strategy, Elems(m.queues[n].agents)), m);
    hide ExtsBetween, BoxesBetween;
  }

  lemma BetweenPutQueue(v: View, m: Model, actual: set<string>, n: string)
    requires n in m.queues
    ensures Between(v, PutQueue(v, m.dom, n, m.queues[n].strategy, Elems(m.queues[n].agents)), m, actual)
  {
    hide Between, Elems, FeatureName;
    var w := WithQueue(WithDomain(v, m.dom), m.dom, n, m.queues[n].strategy, Elems(m.queues[n].agents));
    BetweenWithQueue(v, m, actual, n);
    BetweenPutPlan(w, m, actual, CallQueue, n);
    BetweenTrans(v, w, PutQueue(v, m.dom, n, m.queues[n].strategy, Elems(m.queues[n].agents)), m, actual);
  }

  lemma QueueDroppable(v: View, m: Model, n: string)
    requires n !in m.queues && Key(m.dom, n) in v.queues
    ensures Droppable(v, m, FeatureName(CallQueue, m.dom, n))
  {
    WantedIff(m, CallQueue, n);
    assert IsQueueIn(v, m.dom, FeatureName(CallQueue, m.dom, n));
    hide FeatureName, WantedName, IsQueueIn;
  }

  lemma QueueDropped(v: View, m: Model, n: string)
    requires n !in m.queues && Key(m.dom, n) in v.queues
    ensures var w := DropQueue(v, m.dom, n); PlansBetween(v, w, m) && LinksBetween(v, w, m)
  {
    QueueDroppable(v, m, n);
    forall n' | FeatureName(CallQueue, m.dom, n') == FeatureName(CallQueue, m.dom, n) ensures n' == n {
      NameInjectiveInDomain(m.dom, CallQueue, n', CallQueue, n);
    }
    hide WantedName, Droppable, FeatureName, Numbers, XmlFor;
  }

  lemma BetweenDropQueue(v: View, m: Model, actual: set<string>, n: string)
    requires n !in m.queues && Key(m.dom, n) in v.queues
    ensures Between(v, DropQueue(v, m.dom, n), m, actual)
  {
    hide ExtsBetween, BoxesBetween, PlansBetween, LinksBetween, FeatureName, StateFor;
    BetweenRefl(v, m, actual);
    QueueDropped(v, m, n);
  }

  // --------------------------------------------------------- stretches of a run

  datatype Snap = Snap(db: Db, view: View, reloads: nat, commands: seq<Command>, calls: nat)

  ghost function Now(c: FusionpbxClient): Snap
    reads c
  {
    Snap(c.db, c.view, c.reloads, c.commands, c.calls)
  }

  /** No call numbered from `lo` up to `hi` finds the database unreachable. */
  ghost predicate Clear(outage: nat -> bool, lo: nat, hi: nat) {
    forall i: nat :: lo <= i < hi ==> !outage(i)
  }

  function WantedRow(domains: map<Uuid, string>, m: Model): ExtensionRow -> bool {
    (r: ExtensionRow) => OfDomain(domains, r.domain, m.dom) && r.number in m.exts
  }

  /** Desired extensions that had a row keep it, with its uuid and secret: phones stay registered. */
  ghost predicate LoginsKept(t: Db, t': Db, m: Model) {
    SecretsKept(t.extensions, t'.extensions, WantedRow(t.domains, m))
  }

  /** A stretch of a run: what it did, and whether it met an outage, which then ended it. */
  ghost predicate Advanced(s: Snap, s': Snap, m: Model, actual: set<string>, outage: nat -> bool, ok: bool) {
    && s.calls <= s'.calls && (ok <==> Clear(outage, s.calls, s'.calls))
    && (!ok ==> s.calls < s'.calls && Clear(outage, s.calls, s'.calls - 1))
    && OthersKept(s.db, s'.db, m.dom) && PlansKept(s.db, s'.db, Touched(s.view, m))
    && Between(s.view, s'.view, m, actual)
    && LoginsKept(s.db, s'.db, m) && s.commands <= s'.commands
  }

  /** Nothing was written, reloaded or sent. */
  ghost predicate Quiet(s: Snap, s': Snap) {
    s'.db == s.db && s'.view == s.view && s'.reloads == s.reloads && s'.commands == s.commands
  }

  /** One call: it turned the view into `w`, or it met an outage and did nothing. */
  ghost predicate Did(s: Snap, s': Snap, m: Model, actual: set<string>, outage: nat -> bool, ok: bool, w: View) {
    && Advanced(s, s', m, actual, outage, ok)
    && s'.calls == s.calls + 1 && s'.view == (if ok then w else s.view)
    && (s'.view == s.view ==> Quiet(s, s'))
  }

  lemma LoginsTrans(a: Db, b: Db, c: Db, m: Model)
    requires LoginsKept(a, b, m) && LoginsKept(b, c, m) && OthersKept(a, b, m.dom)
    ensures LoginsKept(a, c, m)
  {
    hide RowsKept;
  }

  lemma AdvancedTrans(s: Snap, s1: Snap, s2: Snap, m: Model, actual: set<string>, outage: nat -> bool, ok: bool)
    requires Advanced(s, s1, m, actual, outage, true) && Advanced(s1, s2, m, actual, outage, ok)
    ensures Advanced(s, s2, m, actual, outage, ok)
  {
    hide OthersKept, PlansKept, Between, LoginsKept, Touched;
    OthersKeptTrans(s.db, s1.db, s2.db, m.dom);
    TouchedShrinks(s.view, s1.view, m, actual);
    PlansKeptTrans(s.db, s1.db, s2.db, Touched(s.view, m), Touched(s1.view, m));
    BetweenTrans(s.view, s1.view, s2.view, m, actual);
    LoginsTrans(s.db, s1.db, s2.db, m);
  }

  lemma AdvancedNothing(s: Snap, m: Model, actual: set<string>, outage: nat -> bool)
    ensures Advanced(s, s, m, actual, outage, true)
  {
    OthersKeptRefl(s.db, m.dom);
    SamePlansKept(s.db, s.db, Touched(s.view, m));
    BetweenRefl(s.view, m, actual);
    SecretsSome(s.db.extensions, WantedRow(s.db.domains, m));
    hide OthersKept, PlansKept, Between, SecretsKept, Touched;
  }

  // A call that found the database down, or only looked.
  lemma CallLooked(s: Snap, s': Snap, m: Model, actual: set<string>, outage: nat -> bool)
    requires s' == s.(calls := s.calls + 1)
    ensures Advanced(s, s', m, actual, outage, !outage(s.calls)) && Quiet(s, s')
  {
    OthersKeptRefl(s.db, m.dom);
    SamePlansKept(s.db, s.db, Touched(s.view, m));
    BetweenRefl(s.view, m, actual);
    SecretsSome(s.db.extensions, WantedRow(s.db.domains, m));
    hide OthersKept, PlansKept, Between, SecretsKept, Touched;
  }

  lemma CallWrote(s: Snap, s': Snap, m: Model, actual: set<string>, outage: nat -> bool, names: iset<string>)
    requires s'.calls == s.calls + 1 && !outage(s.calls) && OthersKept(s.db, s'.db, m.dom)
    requires PlansKept(s.db, s'.db, names) && names <= Touched(s.view, m)
    requires Between(s.view, s'.view, m, actual) && LoginsKept(s.db, s'.db, m) && s.commands <= s'.commands
    ensures Advanced(s, s', m, actual, outage, true)
  {
    hide OthersKept, PlansKept, Between, LoginsKept, Touched;
    PlansKeptWiden(s.db, s'.db, names, Touched(s.view, m));
  }

  lemma TouchesName(v: View, m: Model, name: string)
    requires name == ROUTING_NAME || WantedName(m, name) || Droppable(v, m, name)
    ensures iset{name} <= Touched(v, m)
  {
    hide WantedName, Droppable;
  }

  lemma SameExtensionRows(t: Db, t': Db, m: Model)
    requires t'.extensions == t.extensions
    ensures LoginsKept(t, t', m)
  {}

  // ------------------------------------------------------------ the calls made

  method DoExtension(c: FusionpbxClient, m: Model, ghost actual: set<string>, n: string) returns (ok: bool)
    requires c.Valid() && ValidModel(m) && n in m.exts
    modifies c
    ensures c.Valid()
    ensures Did(old(Now(c)), Now(c), m, actual, c.outage, ok, PutExt(old(c.view), m.dom, n, m.exts[n].display))
  {
    hide ValidDomain, ValidToken, ValidTokens, WellFormed, Shows, OthersKept, PlansKept, Touched, Between, SecretsKept;
    hide PutExt, NumbersOk, IsRowOf;
    ghost var s := Now(c);
    var r := c.CreateExtension(m.dom, n, m.exts[n].display);
    ok := r.Ok?;
    if ok {
      BetweenPutExt(s.view, m, actual, n);
      SecretsWeaken(s.db.extensions, c.db.extensions, AnyRow(), WantedRow(s.db.domains, m));
      CallWrote(s, Now(c), m, actual, c.outage, iset{});
    } else {
      CallLooked(s, Now(c), m, actual, c.outage);
    }
    hide Advanced;
  }

  lemma SecretsWeaken(rows: map<Uuid, ExtensionRow>, rows': map<Uuid, ExtensionRow>, mine: ExtensionRow -> bool,
      mine': ExtensionRow -> bool)
    requires SecretsKept(rows, rows', mine) && forall r :: mine'(r) ==> mine(r)
    ensures SecretsKept(rows, rows', mine')
  {
    hide SameLogin;
  }

  method DoDropExtension(c: FusionpbxClient, m: Model, ghost actual: set<string>, n: string) returns (ok: bool)
    requires c.Valid() && ValidModel(m) && n !in m.exts && ValidToken(n)
    modifies c
    ensures c.Valid() && Did(old(Now(c)), Now(c), m, actual, c.outage, ok, DropExt(old(c.view), m.dom, n))
  {
    hide ValidDomain, ValidToken, ValidTokens, WellFormed, Shows, OthersKept, PlansKept, Touched, Between, SecretsKept;
    hide DropExt, NumbersOk;
    ghost var s := Now(c);
    var r := c.DeleteExtension(m.dom, n);
    ok := r.Ok?;
    if ok {
      BetweenDropExt(s.view, m, actual, n);
      DropAbsent(s.view, m.dom, n);
      SecretsWeaken(s.db.extensions, c.db.extensions, NotNumber(s.db.domains, m.dom, n), WantedRow(s.db.domains, m));
      CallWrote(s, Now(c), m, actual, c.outage, iset{});
    } else {
      CallLooked(s, Now(c), m, actual, c.outage);
    }
    hide Advanced;
  }

  method DoBox(c: FusionpbxClient, m: Model, ghost actual: set<string>, n: string) returns (ok: bool)
    requires c.Valid() && ValidModel(m) && n in m.exts && m.exts[n].voicemail
    modifies c
    ensures c.Valid() && Did(old(Now(c)), Now(c), m, actual, c.outage, ok, PutBox(old(c.view), m.dom, n, n))
  {
    hide ValidDomain, ValidToken, ValidTokens, WellFormed, Shows, OthersKept, PlansKept, Touched, Between, SecretsKept;
    hide NumbersOk;
    ghost var s := Now(c);
    var r := c.EnsureVoicemail(m.dom, n, "");
    ok := r.Ok?;
    if ok {
      BetweenPutBox(s.view, m, actual, n, n);
      SameExtensionRows(s.db, c.db, m);
      CallWrote(s, Now(c), m, actual, c.outage, iset{});
    } else {
      CallLooked(s, Now(c), m, actual, c.outage);
    }
    hide Advanced;
  }

  method DoDropBox(c: FusionpbxClient, m: Model, ghost actual: set<string>, n: string) returns (ok: bool)
    requires c.Valid() && ValidModel(m) && ValidToken(n) && if n in m.exts then !m.exts[n].voicemail else n in actual
    modifies c
    ensures c.Valid() && Did(old(Now(c)), Now(c), m, actual, c.outage, ok, DropBox(old(c.view), m.dom, n))
  {
    hide ValidDomain, ValidToken, ValidTokens, WellFormed, Shows, OthersKept, PlansKept, Touched, Between, SecretsKept;
    hide NumbersOk;
    ghost var s := Now(c);
    var r := c.DeleteVoicemail(m.dom, n);
    ok := r.Ok?;
    if ok {
      BetweenDropBox(s.view, m, actual, n);
      DropAbsent(s.view, m.dom, n);
      SameExtensionRows(s.db, c.db, m);
      CallWrote(s, Now(c), m, actual, c.outage, iset{});
    } else {
      CallLooked(s, Now(c), m, actual, c.outage);
    }
    hide Advanced;
  }

  method DoSwitch(c: FusionpbxClient, m: Model, ghost actual: set<string>) returns (ok: bool)
    requires c.Valid()
    modifies c
    ensures c.Valid() && Did(old(Now(c)), Now(c), m, actual, c.outage, ok, PutDir(old(c.view), SWITCH_VOICEMAIL_DIR))
  {
    hide WellFormed, Shows, OthersKept, PlansKept, Touched, Between, SecretsKept, NumbersOk;
    ghost var s := Now(c);
    var r := c.EnsureSwitchSettings(m.dom);
    ok := r.Ok?;
    if ok {
      BetweenDir(s.view, m, actual, SWITCH_VOICEMAIL_DIR);
      SameExtensionRows(s.db, c.db, m);
      CallWrote(s, Now(c), m, actual, c.outage, iset{});
    } else {
      CallLooked(s, Now(c), m, actual, c.outage);
    }
    hide Advanced;
  }

  method DoRouting(c: FusionpbxClient, m: Model, ghost actual: set<string>) returns (ok: bool)
    requires c.Valid() && ValidModel(m)
    modifies c
    ensures c.Valid()
    ensures Did(old(Now(c)), Now(c), m, actual, c.outage, ok,
        PutPlan(old(c.view), m.dom, ROUTING_NAME, RoutingXml(m.recording), RoutingTag))
  {
    hide ValidDomain, ValidToken, ValidTokens, WellFormed, Shows, OthersKept, PlansKept, Touched, Between, SecretsKept;
    hide NumbersOk;
    ghost var s := Now(c);
    var r := c.EnsureRouting(m.dom, m.recording);
    ok := r.Ok?;
    if ok {
      BetweenRouting(s.view, m, actual, RoutingXml(m.recording));
      SameExtensionRows(s.db, c.db, m);
      TouchesName(s.view, m, ROUTING_NAME);
      CallWrote(s, Now(c), m, actual, c.outage, iset{ROUTING_NAME});
    } else {
      CallLooked(s, Now(c), m, actual, c.outage);
    }
    hide Advanced;
  }

  /** Apply one wanted conference, ring group or IVR. */
  method DoFeature(c: FusionpbxClient, m: Model, ghost actual: set<string>, k: Kind, n: string) returns (ok: bool)
    requires c.Valid() && ValidModel(m) && k != CallQueue && n in Numbers(m, k)
    modifies c
    ensures c.Valid() && Did(old(Now(c)), Now(c), m, actual, c.outage, ok,
                             PutPlan(old(c.view), m.dom, FeatureName(k, m.dom, n), XmlFor(m, k, n), FeatureTag(m.dom)))
  {
    hide ValidDomain, ValidToken, ValidTokens, WellFormed, Shows, OthersKept, PlansKept, Touched, Between, SecretsKept;
    hide NumbersOk, PutPlan, FeatureName;
    hide IvrText.ValidOptions, IvrPlan, RingGroupPlan, ConferencePlan;
    ghost var s := Now(c);
    var r;
    match k {
      case Conference => r := c.CreateConference(m.dom, n);
      case RingGroup => r := c.CreateRingGroup(m.dom, n, m.rings[n].members, m.rings[n].strategy, m.rings[n].timeout);
      case Ivr => r := c.CreateIvr(m.dom, n, m.ivrs[n].options, m.ivrs[n].greeting);
    }
    ok := r.Ok?;
    if ok {
      PutPlanAdvances(s, Now(c), m, actual, c.outage, k, n);
    } else {
      CallLooked(s, Now(c), m, actual, c.outage);
    }
    hide Advanced;
  }

  lemma PutPlanAdvances(s: Snap, s': Snap, m: Model, actual: set<string>, outage: nat -> bool, k: Kind, n: string)
    requires k != CallQueue && n in Numbers(m, k)
    requires s'.calls == s.calls + 1 && !outage(s.calls) && OthersKept(s.db, s'.db, m.dom)
    requires s'.db.extensions == s.db.extensions && s'.commands == s.commands
    requires PlansKept(s.db, s'.db, iset{FeatureName(k, m.dom, n)})
    requires s'.view == PutPlan(s.view, m.dom, FeatureName(k, m.dom, n), XmlFor(m, k, n), FeatureTag(m.dom))
    ensures Advanced(s, s', m, actual, outage, true)
  {
    BetweenPutPlan(s.view, m, actual, k, n);
    WantedIff(m, k, n);
    TouchesName(s.view, m, FeatureName(k, m.dom, n));
    hide PutPlan, FeatureName, OthersKept, PlansKept, Between, Numbers, XmlFor, WantedName, Advanced, LoginsKept;
    SameExtensionRows(s.db, s'.db, m);
    CallWrote(s, s', m, actual, outage, iset{FeatureName(k, m.dom, n)});
  }

  /** Remove a managed dialplan that is not wanted. */
  method DoDropPlan(c: FusionpbxClient, m: Model, ghost actual: set<string>, name: string) returns (ok: bool)
    requires c.Valid() && Droppable(c.view, m, name)
    modifies c
    ensures c.Valid() && Did(old(Now(c)), Now(c), m, actual, c.outage, ok, DropPlan(old(c.view), name))
  {
    hide WellFormed, Shows, OthersKept, PlansKept, Touched, Between, SecretsKept, NumbersOk, Droppable;
    ghost var s := Now(c);
    var r := c.DeleteDialplan(name);
    ok := r.Ok?;
    if ok {
      BetweenDropPlan(s.view, m, actual, name);
      OnlyPlansKept(s.db, c.db, m.dom);
      DropPlanPresent(s.view, name);
      SameExtensionRows(s.db, c.db, m);
      TouchesName(s.view, m, name);
      CallWrote(s, Now(c), m, actual, c.outage, iset{name});
    } else {
      CallLooked(s, Now(c), m, actual, c.outage);
    }
    hide Advanced;
  }

  lemma DropPlanPresent(v: View, name: string)
    ensures DropPlan(v, name) == v <==> name !in v.plans
  {
    if name !in v.plans {
      DropPlanAbsent(v, name);
    }
  }

  method DoQueue(c: FusionpbxClient, m: Model, ghost actual: set<string>, n: string) returns (ok: bool)
    requires c.Valid() && ValidModel(m) && n in m.queues
    modifies c
    ensures c.Valid() && Did(old(Now(c)), Now(c), m, actual, c.outage, ok,
                             PutQueue(old(c.view), m.dom, n, m.queues[n].strategy, Elems(m.queues[n].agents)))
  {
    hide ValidDomain, ValidToken, ValidTokens, WellFormed, Shows, OthersKept, PlansKept, Touched, Between, SecretsKept;
    hide NumbersOk, PutQueue, Elems, OtherQueuesKept, NoNewOrphans, FeatureName, WantedName;
    ghost var s := Now(c);
    var r := c.EnsureQueue(m.dom, n, m.queues[n].agents, m.queues[n].strategy);
    ok := r.Ok?;
    if ok {
      BetweenPutQueue(s.view, m, actual, n);
      WantedIff(m, CallQueue, n);
      TouchesName(s.view, m, FeatureName(CallQueue, m.dom, n));
      SameExtensionRows(s.db, c.db, m);
      CallWrote(s, Now(c), m, actual, c.outage, iset{FeatureName(CallQueue, m.dom, n)});
    } else {
      CallLooked(s, Now(c), m, actual, c.outage);
    }
    hide Advanced;
  }

  method DoDropQueue(c: FusionpbxClient, m: Model, ghost actual: set<string>, n: string) returns (ok: bool)
    requires c.Valid() && ValidModel(m) && ValidToken(n) && n !in m.queues && Key(m.dom, n) in c.view.queues
    modifies c
    ensures c.Valid() && Did(old(Now(c)), Now(c), m, actual, c.outage, ok, DropQueue(old(c.view), m.dom, n))
  {
    hide ValidDomain, ValidToken, ValidTokens, WellFormed, Shows, OthersKept, PlansKept, Touched, Between, SecretsKept;
    hide NumbersOk, DropQueue, OtherQueuesKept, NoNewOrphans, FeatureName, WantedName, Droppable;
    ghost var s := Now(c);
    var r := c.DeleteQueue(m.dom, n);
    ok := r.Ok?;
    if ok {
      BetweenDropQueue(s.view, m, actual, n);
      QueueDroppable(s.view, m, n);
      TouchesName(s.view, m, FeatureName(CallQueue, m.dom, n));
      SameExtensionRows(s.db, c.db, m);
      CallWrote(s, Now(c), m, actual, c.outage, iset{FeatureName(CallQueue, m.dom, n)});
    } else {
      CallLooked(s, Now(c), m, actual, c.outage);
    }
    hide Advanced;
  }
}
