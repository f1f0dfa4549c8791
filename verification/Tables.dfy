/** The foreign FusionPBX tables the client writes, row by row, and the view of them
    that callers reason with (app/services/fusionpbx/client.py:53-182). */
module Tables {
  import opened Names
  import opened Indexed

  // -------------------------------------------------------------------- rows

  datatype ExtensionRow = ExtensionRow(
    domain: Uuid, number: string, secret: nat,
    callerIdName: string, outboundName: string, directoryName: string)

  datatype VoicemailRow = VoicemailRow(domain: Uuid, id: string, password: string)

  /** The dialplan XML, by the values its template is filled with. */
  datatype Xml =
    | ConferenceXml(name: string, dom: string, number: string, room: string)
    | RingGroupXml(name: string, dom: string, number: string, bridge: string, timeout: int)
    | IvrXml(name: string, dom: string, number: string, greeting: string, digits: string, target: string)
    | QueueXml(name: string, dom: string, number: string)
    | RoutingXml(recording: bool)
    | OtherXml(text: string)

  /** The description column, which marks who manages a dialplan row. */
  datatype Tag = FeatureTag(dom: string) | QueueTag(dom: string) | RoutingTag | OtherTag(text: string)

  datatype DialplanRow = DialplanRow(
    name: string, isPublic: bool, number: string, order: int, xml: Xml, tag: Tag)

  datatype SettingRow = SettingRow(
    category: string, subcategory: string, name: string, value: string, enabled: bool)

  datatype QueueRow = QueueRow(domain: Uuid, extension: string, name: string, strategy: string)

  datatype AgentRow = AgentRow(domain: Uuid, agentId: string, name: string, contact: string)

  datatype TierRow = TierRow(
    domain: Uuid, queue: Uuid, agent: Uuid, queueName: string, agentName: string, level: int, position: int)

  /** The database. A uuid identifies a row within its table. */
  datatype Db = Db(
    domains: map<Uuid, string>,
    extensions: map<Uuid, ExtensionRow>,
    voicemails: map<Uuid, VoicemailRow>,
    dialplans: map<Uuid, DialplanRow>,
    settings: map<Uuid, SettingRow>,
    queues: map<Uuid, QueueRow>,
    agents: map<Uuid, AgentRow>,
    tiers: map<Uuid, TierRow>)

  // -------------------------------------------------------------------- view

  datatype Key = Key(dom: string, number: string)
  datatype ExtNames = ExtNames(callerId: string, outbound: string, directory: string)
  datatype Plan = Plan(xml: Xml, tag: Tag)
  datatype QueueState = QueueState(strategy: string, agents: set<string>)

  /** What the tables say, by domain name and number, with uuids and secrets forgotten. */
  datatype View = View(
    domains: set<string>,
    exts: map<Key, ExtNames>,
    boxes: map<Key, string>,
    plans: map<string, Plan>,
    dir: map<(), string>,
    queues: map<Key, QueueState>)

  function NameOf(domains: map<Uuid, string>, u: Uuid): string {
    if u in domains then domains[u] else ""
  }

  predicate OfDomain(domains: map<Uuid, string>, u: Uuid, d: string) {
    u in domains && domains[u] == d
  }

  function All<R>(): R -> bool {
    r => true
  }

  function ExtKey(domains: map<Uuid, string>): ExtensionRow -> Key {
    (r: ExtensionRow) => Key(NameOf(domains, r.domain), r.number)
  }

  function ExtVal(): (Uuid, ExtensionRow) -> ExtNames {
    (u: Uuid, r: ExtensionRow) => ExtNames(r.callerIdName, r.outboundName, r.directoryName)
  }

  function BoxKey(domains: map<Uuid, string>): VoicemailRow -> Key {
    (r: VoicemailRow) => Key(NameOf(domains, r.domain), r.id)
  }

  function BoxVal(): (Uuid, VoicemailRow) -> string {
    (u: Uuid, r: VoicemailRow) => r.password
  }

  function IsPublic(): DialplanRow -> bool {
    (r: DialplanRow) => r.isPublic
  }

  function PlanKey(): DialplanRow -> string {
    (r: DialplanRow) => r.name
  }

  function PlanVal(): (Uuid, DialplanRow) -> Plan {
    (u: Uuid, r: DialplanRow) => Plan(r.xml, r.tag)
  }

  function IsVoicemailDir(): SettingRow -> bool {
    (r: SettingRow) => r.category == "switch" && r.subcategory == "voicemail" && r.name == "dir"
  }

  function DirKey(): SettingRow -> () {
    (r: SettingRow) => ()
  }

  function DirVal(): (Uuid, SettingRow) -> string {
    (u: Uuid, r: SettingRow) => r.value
  }

  function QueueKey(domains: map<Uuid, string>): QueueRow -> Key {
    (r: QueueRow) => Key(NameOf(domains, r.domain), r.extension)
  }

  function AgentsOf(tiers: map<Uuid, TierRow>, q: Uuid): set<string> {
    set x | x in tiers && tiers[x].queue == q :: tiers[x].agentName
  }

  function QueueVal(tiers: map<Uuid, TierRow>): (Uuid, QueueRow) -> QueueState {
    (u: Uuid, r: QueueRow) => QueueState(r.strategy, AgentsOf(tiers, u))
  }

  function AgentKey(domains: map<Uuid, string>): AgentRow -> Key {
    (r: AgentRow) => Key(NameOf(domains, r.domain), r.agentId)
  }

  function TierPair(): TierRow -> (Uuid, Uuid) {
    (r: TierRow) => (r.queue, r.agent)
  }

  /** The view a database shows; ShowsOnlyOne proves there is just one. */
  ghost predicate Shows(t: Db, v: View) {
    && v.domains == t.domains.Values
    && IsIndex(t.extensions, All(), ExtKey(t.domains), ExtVal(), v.exts)
    && IsIndex(t.voicemails, All(), BoxKey(t.domains), BoxVal(), v.boxes)
    && IsIndex(t.dialplans, IsPublic(), PlanKey(), PlanVal(), v.plans)
    && IsIndex(t.settings, IsVoicemailDir(), DirKey(), DirVal(), v.dir)
    && IsIndex(t.queues, All(), QueueKey(t.domains), QueueVal(t.tiers), v.queues)
  }

  lemma ShowsOnlyOne(t: Db, v: View, w: View)
    requires Shows(t, v) && Shows(t, w)
    ensures v == w
  {
    hide IsIndex;
    IndexUnique(t.extensions, All(), ExtKey(t.domains), ExtVal(), v.exts, w.exts);
    IndexUnique(t.voicemails, All(), BoxKey(t.domains), BoxVal(), v.boxes, w.boxes);
    IndexUnique(t.dialplans, IsPublic(), PlanKey(), PlanVal(), v.plans, w.plans);
    IndexUnique(t.settings, IsVoicemailDir(), DirKey(), DirVal(), v.dir, w.dir);
    IndexUnique(t.queues, All(), QueueKey(t.domains), QueueVal(t.tiers), v.queues, w.queues);
  }

  // ---------------------------------------------------------- well-formedness

  ghost predicate DomainsOk(domains: map<Uuid, string>) {
    forall u, w :: u in domains && w in domains && domains[u] == domains[w] ==> u == w
  }

  ghost predicate ExtensionsOk(domains: map<Uuid, string>, rows: map<Uuid, ExtensionRow>) {
    (forall u :: u in rows ==> rows[u].domain in domains) && UniqueKey(rows, All(), ExtKey(domains))
  }

  ghost predicate VoicemailsOk(domains: map<Uuid, string>, rows: map<Uuid, VoicemailRow>) {
    (forall u :: u in rows ==> rows[u].domain in domains) && UniqueKey(rows, All(), BoxKey(domains))
  }

  ghost predicate QueuesOk(domains: map<Uuid, string>, rows: map<Uuid, QueueRow>) {
    (forall u :: u in rows ==> rows[u].domain in domains) && UniqueKey(rows, All(), QueueKey(domains))
  }

  ghost predicate AgentsOk(domains: map<Uuid, string>, rows: map<Uuid, AgentRow>) {
    (forall u :: u in rows ==> rows[u].domain in domains) && UniqueKey(rows, All(), AgentKey(domains))
  }

  /** The tier joins an existing queue and agent of its own domain, under their names. */
  predicate TierRefOk(queues: map<Uuid, QueueRow>, agents: map<Uuid, AgentRow>, r: TierRow) {
    && r.queue in queues && r.agent in agents
    && queues[r.queue].domain == r.domain == agents[r.agent].domain
    && queues[r.queue].extension == r.queueName
    && agents[r.agent].agentId == r.agentName
  }

  ghost predicate TiersOk(queues: map<Uuid, QueueRow>, agents: map<Uuid, AgentRow>, tiers: map<Uuid, TierRow>) {
    (forall x :: x in tiers ==> TierRefOk(queues, agents, tiers[x])) && UniqueKey(tiers, All(), TierPair())
  }

  ghost predicate CallCenterOk(domains: map<Uuid, string>, queues: map<Uuid, QueueRow>, agents: map<Uuid, AgentRow>,
      tiers: map<Uuid, TierRow>) {
    QueuesOk(domains, queues) && AgentsOk(domains, agents) && TiersOk(queues, agents, tiers)
  }

  ghost predicate WellFormed(t: Db) {
    && DomainsOk(t.domains)
    && ExtensionsOk(t.domains, t.extensions)
    && VoicemailsOk(t.domains, t.voicemails)
    && UniqueKey(t.dialplans, IsPublic(), PlanKey())
    && UniqueKey(t.settings, IsVoicemailDir(), DirKey())
    && CallCenterOk(t.domains, t.queues, t.agents, t.tiers)
  }

  function ReferencedAgents(tiers: map<Uuid, TierRow>): set<Uuid> {
    set x | x in tiers :: tiers[x].agent
  }

  /** Agents that no tier refers to. */
  function Orphans(t: Db): set<Uuid> {
    t.agents.Keys - ReferencedAgents(t.tiers)
  }

  // ------------------------------------------------- rows of everybody else

  function ExtMine(domains: map<Uuid, string>, d: string): ExtensionRow -> bool {
    (r: ExtensionRow) => OfDomain(domains, r.domain, d)
  }
  function BoxMine(domains: map<Uuid, string>, d: string): VoicemailRow -> bool {
    (r: VoicemailRow) => OfDomain(domains, r.domain, d)
  }
  function QueueMine(domains: map<Uuid, string>, d: string): QueueRow -> bool {
    (r: QueueRow) => OfDomain(domains, r.domain, d)
  }
  function AgentMine(domains: map<Uuid, string>, d: string): AgentRow -> bool {
    (r: AgentRow) => OfDomain(domains, r.domain, d)
  }
  function TierMine(domains: map<Uuid, string>, d: string): TierRow -> bool {
    (r: TierRow) => OfDomain(domains, r.domain, d)
  }
  ghost function PlanNamed(names: iset<string>): DialplanRow -> bool {
    (r: DialplanRow) => r.isPublic && r.name in names
  }

  ghost predicate DomainRowsKept(a: map<Uuid, string>, b: map<Uuid, string>, d: string) {
    && (forall u :: u in a ==> u in b && b[u] == a[u])
    && (forall u :: u in b ==> u in a || b[u] == d)
  }

  /** Every row of every other domain is the same, dialplans and the shared switch row aside. */
  ghost predicate OthersKept(a: Db, b: Db, d: string) {
    && DomainRowsKept(a.domains, b.domains, d)
    && RowsKept(a.extensions, b.extensions, ExtMine(b.domains, d))
    && RowsKept(a.voicemails, b.voicemails, BoxMine(b.domains, d))
    && RowsKept(a.settings, b.settings, IsVoicemailDir())
    && RowsKept(a.queues, b.queues, QueueMine(b.domains, d))
    && RowsKept(a.agents, b.agents, AgentMine(b.domains, d))
    && RowsKept(a.tiers, b.tiers, TierMine(b.domains, d))
  }

  /** Only public dialplan rows of these names may differ. */
  ghost predicate PlansKept(a: Db, b: Db, names: iset<string>) {
    RowsKept(a.dialplans, b.dialplans, PlanNamed(names))
  }

  lemma PlansKeptTrans(a: Db, b: Db, c: Db, names: iset<string>, names': iset<string>)
    requires PlansKept(a, b, names) && PlansKept(b, c, names') && names' <= names
    ensures PlansKept(a, c, names)
  {
    RowsKeptWiden(b.dialplans, c.dialplans, PlanNamed(names'), PlanNamed(names));
    RowsKeptTrans(a.dialplans, b.dialplans, c.dialplans, PlanNamed(names), PlanNamed(names));
  }

  lemma PlansKeptWiden(a: Db, b: Db, names: iset<string>, names': iset<string>)
    requires PlansKept(a, b, names) && names <= names'
    ensures PlansKept(a, b, names')
  {
    RowsKeptWiden(a.dialplans, b.dialplans, PlanNamed(names), PlanNamed(names'));
  }

  lemma SamePlansKept(a: Db, b: Db, names: iset<string>)
    requires b.dialplans == a.dialplans
    ensures PlansKept(a, b, names)
  {}

  lemma OthersKeptTrans(a: Db, b: Db, c: Db, d: string)
    requires OthersKept(a, b, d) && OthersKept(b, c, d)
    ensures OthersKept(a, c, d)
  {
    hide RowsKept;
    RowsKeptTrans(a.extensions, b.extensions, c.extensions, ExtMine(b.domains, d), ExtMine(c.domains, d));
    RowsKeptTrans(a.voicemails, b.voicemails, c.voicemails, BoxMine(b.domains, d), BoxMine(c.domains, d));
    RowsKeptTrans(a.queues, b.queues, c.queues, QueueMine(b.domains, d), QueueMine(c.domains, d));
    RowsKeptTrans(a.agents, b.agents, c.agents, AgentMine(b.domains, d), AgentMine(c.domains, d));
    RowsKeptTrans(a.tiers, b.tiers, c.tiers, TierMine(b.domains, d), TierMine(c.domains, d));
    RowsKeptTrans(a.settings, b.settings, c.settings, IsVoicemailDir(), IsVoicemailDir());
  }

  lemma OthersKeptRefl(t: Db, d: string)
    ensures OthersKept(t, t, d)
  {
    SameRowsKept(t, t.domains, d);
    hide RowsKept;
  }

  /** Tables that a statement does not touch keep everybody's rows. */
  lemma SameRowsKept(t: Db, domains: map<Uuid, string>, d: string)
    ensures RowsKept(t.extensions, t.extensions, ExtMine(domains, d))
    ensures RowsKept(t.voicemails, t.voicemails, BoxMine(domains, d))
    ensures RowsKept(t.settings, t.settings, IsVoicemailDir())
    ensures RowsKept(t.queues, t.queues, QueueMine(domains, d))
    ensures RowsKept(t.agents, t.agents, AgentMine(domains, d))
    ensures RowsKept(t.tiers, t.tiers, TierMine(domains, d))
  {}
}
