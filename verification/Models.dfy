/** The desired state of one customer, what it means for the PBX to match it, and what every
    intermediate state of a reconcile keeps (app/services/reconcile/voice.py, app/models/voice.py). */
module Models {
  import opened Names
  import opened Orders
  import opened Tables
  import opened Steps
  import opened CallCenter
  import opened Transactions
  import opened Dialplans
  import opened Client
  import IvrText

  datatype ExtModel = ExtModel(display: string, voicemail: bool)
  datatype RingModel = RingModel(members: seq<string>, strategy: string, timeout: int)
  datatype IvrModel = IvrModel(options: map<string, string>, greeting: string)
  datatype QueueModel = QueueModel(agents: seq<string>, name: string, strategy: string)

  datatype Model = Model(
    dom: string, active: bool, recording: bool,
    exts: map<string, ExtModel>,
    conferences: set<string>,
    rings: map<string, RingModel>,
    ivrs: map<string, IvrModel>,
    queues: map<string, QueueModel>)

  ghost predicate AllTokens(numbers: set<string>) {
    forall n :: n in numbers ==> ValidToken(n)
  }

  ghost predicate RingsValid(rings: map<string, RingModel>) {
    forall n :: n in rings ==> ValidToken(n) && rings[n].members != [] && ValidTokens(rings[n].members)
  }

  ghost predicate IvrsValid(ivrs: map<string, IvrModel>) {
    forall n :: n in ivrs ==> ValidToken(n) && IvrText.ValidOptions(ivrs[n].options)
  }

  ghost predicate QueuesValid(queues: map<string, QueueModel>) {
    forall n :: n in queues ==> ValidToken(n) && queues[n].agents != [] && ValidTokens(queues[n].agents)
  }

  /** What the API validators enforce on stored rows. */
  ghost predicate ValidModel(m: Model) {
    && ValidDomain(m.dom) && AllTokens(m.exts.Keys) && AllTokens(m.conferences)
    && RingsValid(m.rings) && IvrsValid(m.ivrs) && QueuesValid(m.queues)
  }

  /** A suspended customer is reconciled towards nothing; the model itself is kept. */
  function Effective(m: Model): Model {
    if m.active then m
    else m.(exts := map[], conferences := {}, rings := map[], ivrs := map[], queues := map[])
  }

  function Numbers(m: Model, k: Kind): set<string> {
    match k
    case Conference => m.conferences
    case RingGroup => m.rings.Keys
    case Ivr => m.ivrs.Keys
    case CallQueue => m.queues.Keys
  }

  /** The dialplan a wanted feature or queue has to get. */
  ghost function XmlFor(m: Model, k: Kind, n: string): Xml
    requires n in Numbers(m, k)
  {
    match k
    case Conference => ConferencePlan(m.dom, n)
    case RingGroup => RingGroupPlan(m.dom, n, m.rings[n].members, m.rings[n].strategy, m.rings[n].timeout)
    case Ivr => if IvrText.ValidOptions(m.ivrs[n].options) then IvrPlan(m.dom, n, m.ivrs[n].options, m.ivrs[n].greeting)
        else OtherXml("")
    case CallQueue => QueueXml(FeatureName(CallQueue, m.dom, n), m.dom, n)
  }

  function TagFor(k: Kind, d: string): Tag {
    if k == CallQueue then QueueTag(d) else FeatureTag(d)
  }

  function DisplayNames(e: ExtModel): ExtNames {
    ExtNames(e.display, e.display, e.display)
  }

  function StateFor(q: QueueModel): QueueState {
    QueueState(q.strategy, Elems(q.agents))
  }

  // ------------------------------------------- dialplans and who manages them

  /** Some conference, ring group, IVR or queue of the model has this dialplan name. */
  ghost predicate WantedName(m: Model, name: string) {
    exists k, n :: n in Numbers(m, k) && name == FeatureName(k, m.dom, n)
  }

  lemma WantedIff(m: Model, k: Kind, n: string)
    ensures WantedName(m, FeatureName(k, m.dom, n)) <==> n in Numbers(m, k)
    ensures FeatureName(k, m.dom, n) != ROUTING_NAME
  {
    NotRouting(k, m.dom, n);
    if WantedName(m, FeatureName(k, m.dom, n)) {
      var k', n' :| n' in Numbers(m, k') && FeatureName(k, m.dom, n) == FeatureName(k', m.dom, n');
      NameInjectiveInDomain(m.dom, k, n, k', n');
    }
    hide FeatureName;
  }

  /** The rows marked as features of `d` are named so, and not as its queues or the routing. */
  ghost predicate TagsFit(v: View, d: string) {
    forall name :: name in v.plans && v.plans[name].tag == FeatureTag(d) ==> IsFeatureName(name, d)
  }

  ghost predicate IsFeatureName(name: string, d: string) {
    exists k, n :: k != CallQueue && name == FeatureName(k, d, n)
  }

  ghost predicate IsQueueIn(v: View, d: string, name: string) {
    exists n :: Key(d, n) in v.queues && name == FeatureName(CallQueue, d, n)
  }

  /** A dialplan that a run may delete: marked as a feature of the domain, or of a listed queue,
      and not wanted. */
  ghost predicate Droppable(v: View, m: Model, name: string) {
    && name != ROUTING_NAME && !WantedName(m, name)
    && ((name in v.plans && v.plans[name].tag == FeatureTag(m.dom)) || IsQueueIn(v, m.dom, name))
  }

  /** All dialplan names that a run from `v` may write or delete. */
  ghost function Touched(v: View, m: Model): iset<string> {
    iset name | name == ROUTING_NAME || WantedName(m, name) || Droppable(v, m, name)
  }

  // ------------------------------------------------------------------ settled

  ghost predicate SettledExts(v: View, m: Model) {
    && (forall n :: n in m.exts ==> Key(m.dom, n) in v.exts && v.exts[Key(m.dom, n)] == DisplayNames(m.exts[n]))
    && (forall k :: k in v.exts && k.dom == m.dom ==> k.number in m.exts)
  }

  ghost predicate SettledBoxes(v: View, m: Model) {
    forall n :: n in m.exts ==> (Key(m.dom, n) in v.boxes <==> m.exts[n].voicemail)
  }

  ghost predicate SettledShared(v: View, m: Model) {
    && m.dom in v.domains
    && () in v.dir && v.dir[()] == SWITCH_VOICEMAIL_DIR
    && ROUTING_NAME in v.plans && v.plans[ROUTING_NAME].xml == RoutingXml(m.recording)
  }

  /** The wanted dialplans of kind `k` among the numbers in `done` are there as they should be. */
  ghost predicate HasPlans(v: View, m: Model, k: Kind, done: set<string>) {
    forall n :: n in done && n in Numbers(m, k) ==>
      FeatureName(k, m.dom, n) in v.plans && v.plans[FeatureName(k, m.dom, n)].xml == XmlFor(m, k, n)
  }

  function NamesFor(d: string, k: Kind, numbers: set<string>): set<string> {
    set n | n in numbers :: FeatureName(k, d, n)
  }

  /** The names that a run collects while it creates the features. */
  ghost function WantedNames(m: Model): set<string> {
    NamesFor(m.dom, Conference, Numbers(m, Conference)) + NamesFor(m.dom, RingGroup, Numbers(m, RingGroup))
    + NamesFor(m.dom, Ivr, Numbers(m, Ivr))
  }

  ghost predicate SettledKind(v: View, m: Model, k: Kind) {
    HasPlans(v, m, k, Numbers(m, k))
  }

  /** Every dialplan marked as a feature of the domain is a wanted one. */
  ghost predicate OnlyWantedPlans(v: View, m: Model) {
    forall name :: name in v.plans && v.plans[name].tag == FeatureTag(m.dom) ==> name in WantedNames(m)
  }

  ghost predicate SettledPlans(v: View, m: Model) {
    SettledKind(v, m, Conference) && SettledKind(v, m, RingGroup) && SettledKind(v, m, Ivr) && OnlyWantedPlans(v, m)
  }

  ghost predicate SettledQueues(v: View, m: Model) {
    && SettledKind(v, m, CallQueue)
    && (forall n :: n in m.queues ==> Key(m.dom, n) in v.queues && v.queues[Key(m.dom, n)] == StateFor(m.queues[n]))
    && (forall k :: k in v.queues && k.dom == m.dom ==> k.number in m.queues)
  }

  // ---------------------------------------- what holds between start and cut

  ghost predicate ExtsBetween(a: map<Key, ExtNames>, b: map<Key, ExtNames>, m: Model) {
    && (forall k: Key :: k.dom != m.dom ==> (k in a <==> k in b) && (k in a ==> a[k] == b[k]))
    && (forall n :: n in m.exts && Key(m.dom, n) in a ==> Key(m.dom, n) in b)
    && (forall n :: n !in m.exts && Key(m.dom, n) in b ==> Key(m.dom, n) in a && b[Key(m.dom, n)] == a[Key(m.dom, n)])
    && (forall n :: n in m.exts && Key(m.dom, n) in b ==>
          b[Key(m.dom, n)] == DisplayNames(m.exts[n]) || (Key(m.dom, n) in a && b[Key(m.dom, n)] == a[Key(m.dom, n)]))
  }

  /** `actual` are the numbers that had an extension when the run began. */
  ghost predicate BoxesBetween(a: map<Key, string>, b: map<Key, string>, m: Model, actual: set<string>) {
    && (forall k: Key :: k.dom != m.dom ==> (k in a <==> k in b))
    && (forall k :: k in a && k in b ==> a[k] == b[k])
    && (forall n :: n in m.exts && m.exts[n].voicemail && Key(m.dom, n) in a ==> Key(m.dom, n) in b)
    && (forall n :: (n !in m.exts || !m.exts[n].voicemail) && Key(m.dom, n) in b ==> Key(m.dom, n) in a)
    && (forall n :: n !in m.exts && n !in actual && Key(m.dom, n) in a ==> Key(m.dom, n) in b)
  }

  ghost predicate PlansBetween(a: View, b: View, m: Model) {
    && (forall name :: name in a.plans && name !in b.plans ==> Droppable(a, m, name))
    && (forall name :: name in b.plans && (name !in a.plans || b.plans[name] != a.plans[name]) ==>
          name == ROUTING_NAME || WantedName(m, name))
    && (forall k, n :: n in Numbers(m, k) && FeatureName(k, m.dom, n) in b.plans ==>
          b.plans[FeatureName(k, m.dom, n)].xml == XmlFor(m, k, n)
          || (FeatureName(k, m.dom, n) in a.plans
              && b.plans[FeatureName(k, m.dom, n)].xml == a.plans[FeatureName(k, m.dom, n)].xml))
    && (forall name :: name in a.plans && name in b.plans ==> a.plans[name].tag == b.plans[name].tag)
    && (forall k, n ::
          n in Numbers(m, k) && FeatureName(k, m.dom, n) in b.plans && FeatureName(k, m.dom, n) !in a.plans ==>
          b.plans[FeatureName(k, m.dom, n)].tag == TagFor(k, m.dom))
    && (ROUTING_NAME in b.plans && ROUTING_NAME !in a.plans ==> b.plans[ROUTING_NAME].tag == RoutingTag)
  }

  /** A queue dialplan without its queue is never left by a run. */
  ghost predicate LinksBetween(a: View, b: View, m: Model) {
    forall n :: FeatureName(CallQueue, m.dom, n) in b.plans && Key(m.dom, n) !in b.queues ==>
      FeatureName(CallQueue, m.dom, n) in a.plans && Key(m.dom, n) !in a.queues
  }

  ghost predicate QueuesBetween(a: map<Key, QueueState>, b: map<Key, QueueState>, m: Model) {
    && (forall k: Key :: k.dom != m.dom ==> (k in a <==> k in b) && (k in a ==> a[k] == b[k]))
    && (forall n :: n in m.queues && Key(m.dom, n) in a ==> Key(m.dom, n) in b)
    && (forall n :: n !in m.queues && Key(m.dom, n) in b ==> Key(m.dom, n) in a && b[Key(m.dom, n)] == a[Key(m.dom, n)])
    && (forall n :: n in m.queues && Key(m.dom, n) in b ==>
          b[Key(m.dom, n)] == StateFor(m.queues[n]) || (Key(m.dom, n) in a && b[Key(m.dom, n)] == a[Key(m.dom, n)]))
  }

  /** How far one reconcile towards `m` can have moved the view: a preorder, so it holds of
      every state that a run passes through. */
  ghost predicate Between(a: View, b: View, m: Model, actual: set<string>) {
    && a.domains <= b.domains <= a.domains + {m.dom}
    && ExtsBetween(a.exts, b.exts, m)
    && BoxesBetween(a.boxes, b.boxes, m, actual)
    && PlansBetween(a, b, m) && LinksBetween(a, b, m)
    && QueuesBetween(a.queues, b.queues, m)
  }

  lemma BetweenRefl(a: View, m: Model, actual: set<string>)
    ensures Between(a, a, m, actual)
  {
    hide FeatureName, Numbers, XmlFor, WantedName, Droppable;
  }

  lemma DroppableBefore(a: View, b: View, m: Model, name: string)
    requires PlansBetween(a, b, m) && QueuesBetween(a.queues, b.queues, m) && Droppable(b, m, name)
    ensures Droppable(a, m, name)
  {
    hide XmlFor, WantedName, QueuesBetween;
    if IsQueueIn(b, m.dom, name) {
      var n :| Key(m.dom, n) in b.queues && name == FeatureName(CallQueue, m.dom, n);
      WantedIff(m, CallQueue, n);
      assert Key(m.dom, n) in a.queues by { StaleQueue(a, b, m, n); }
    }
    hide FeatureName;
  }

  lemma StaleQueue(a: View, b: View, m: Model, n: string)
    requires QueuesBetween(a.queues, b.queues, m) && n !in Numbers(m, CallQueue) && Key(m.dom, n) in b.queues
    ensures Key(m.dom, n) in a.queues
  {}

  lemma TouchedShrinks(a: View, b: View, m: Model, actual: set<string>)
    requires Between(a, b, m, actual)
    ensures Touched(b, m) <= Touched(a, m)
  {
    hide WantedName, Droppable, PlansBetween, QueuesBetween, LinksBetween, ExtsBetween, BoxesBetween;
    forall name | Droppable(b, m, name) ensures Droppable(a, m, name) {
      DroppableBefore(a, b, m, name);
    }
  }

  lemma NotDroppable(v: View, m: Model, name: string)
    requires name == ROUTING_NAME || WantedName(m, name)
    ensures !Droppable(v, m, name)
  {
    hide WantedName;
  }

  lemma PlansBetweenTrans(a: View, b: View, c: View, m: Model)
    requires PlansBetween(a, b, m) && PlansBetween(b, c, m) && QueuesBetween(a.queues, b.queues, m)
    ensures PlansBetween(a, c, m)
  {
    hide FeatureName, Numbers, XmlFor, WantedName, Droppable, QueuesBetween;
    forall name ensures Droppable(b, m, name) ==> Droppable(a, m, name) {
      if Droppable(b, m, name) {
        DroppableBefore(a, b, m, name);
      }
    }
    forall k, n ensures WantedName(m, FeatureName(k, m.dom, n)) <==> n in Numbers(m, k) {
      WantedIff(m, k, n);
    }
    forall name | name == ROUTING_NAME || WantedName(m, name) ensures !Droppable(a, m, name) && !Droppable(b, m, name) {
      NotDroppable(a, m, name);
      NotDroppable(b, m, name);
    }
  }

  lemma LinksBetweenTrans(a: View, b: View, c: View, m: Model)
    requires LinksBetween(a, b, m) && LinksBetween(b, c, m)
    ensures LinksBetween(a, c, m)
  {
    hide FeatureName;
  }

  lemma BoxesBetweenTrans(a: map<Key, string>, b: map<Key, string>, c: map<Key, string>, m: Model, actual: set<string>)
    requires BoxesBetween(a, b, m, actual) && BoxesBetween(b, c, m, actual)
    ensures BoxesBetween(a, c, m, actual)
  {}

  lemma ExtsBetweenTrans(a: map<Key, ExtNames>, b: map<Key, ExtNames>, c: map<Key, ExtNames>, m: Model)
    requires ExtsBetween(a, b, m) && ExtsBetween(b, c, m)
    ensures ExtsBetween(a, c, m)
  {}

  lemma QueuesBetweenTrans(a: map<Key, QueueState>, b: map<Key, QueueState>, c: map<Key, QueueState>, m: Model)
    requires QueuesBetween(a, b, m) && QueuesBetween(b, c, m)
    ensures QueuesBetween(a, c, m)
  {}

  /** Marks of any domain keep fitting, whoever is reconciled. */
  lemma TagsStayFit(a: View, b: View, m: Model, d: string)
    requires PlansBetween(a, b, m) && TagsFit(a, d)
    ensures TagsFit(b, d)
  {
    forall name | name in b.plans && b.plans[name].tag == FeatureTag(d) ensures IsFeatureName(name, d) {
      if name !in a.plans && name != ROUTING_NAME {
        var k, n :| n in Numbers(m, k) && name == FeatureName(k, m.dom, n);
        hide FeatureName, Numbers;
        assert b.plans[name].tag == TagFor(k, m.dom);
      } else {
        hide FeatureName, Numbers, XmlFor, WantedName, Droppable, IsFeatureName;
      }
    }
  }

  lemma BetweenTrans(a: View, b: View, c: View, m: Model, actual: set<string>)
    requires Between(a, b, m, actual) && Between(b, c, m, actual)
    ensures Between(a, c, m, actual)
  {
    ExtsBetweenTrans(a.exts, b.exts, c.exts, m);
    BoxesBetweenTrans(a.boxes, b.boxes, c.boxes, m, actual);
    PlansBetweenTrans(a, b, c, m);
    LinksBetweenTrans(a, b, c, m);
    QueuesBetweenTrans(a.queues, b.queues, c.queues, m);
    hide ExtsBetween, BoxesBetween, PlansBetween, QueuesBetween, LinksBetween;
  }
}
