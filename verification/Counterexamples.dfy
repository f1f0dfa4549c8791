/** Concrete runs in which a failed reconcile leaves something behind. */
module Counterexamples {
  import opened Names
  import opened Orders
  import opened Indexed
  import opened Tables
  import opened CallCenter
  import opened Transactions
  import opened Client
  import opened Models
  import opened Progress
  import opened Scripts
  import opened Reconcile
  import opened Voice
  import opened Outcomes
  import opened Removal
  import opened Rows
  import opened Intents
  import opened Provisioning
  import opened Runtime
  import opened QueueEffects

  const TENANT := "a.b"

  function OneBox(d: string): Db {
    Db(map[0 := d], map[0 := ExtensionRow(0, "100", 0, "", "", "")], map[0 := VoicemailRow(0, "100", "100")],
       map[], map[], map[], map[], map[])
  }

  function OneBoxView(d: string): View {
    View({d}, map[Key(d, "100") := ExtNames("", "", "")], map[Key(d, "100") := "100"], map[], map[], map[])
  }

  function NoModels(): Model {
    Model(TENANT, true, false, map[], {}, map[], map[], map[])
  }

  lemma OneBoxWellFormed(d: string)
    ensures WellFormed(OneBox(d))
  {}

  lemma OneBoxShows(d: string)
    ensures Shows(OneBox(d), OneBoxView(d))
  {
    var t := OneBox(d);
    assert ExtKey(t.domains)(t.extensions[0]) == Key(d, "100");
    assert BoxKey(t.domains)(t.voicemails[0]) == Key(d, "100");
    assert t.domains[0] == d;
    assert t.domains.Values == {d};
  }

  lemma OneNumberOk(d: string)
    requires ValidToken("100")
    ensures NumbersOk(OneBoxView(d))
  {
    hide ValidToken;
  }

  lemma TenantValid()
    ensures ValidDomain(TENANT) && ValidModel(NoModels()) && ValidToken("100")
  {
    assert FirstDot("a.b") == 1 by {
      assert "a.b"[1..] == ".b";
    }
    assert "a.b"[..1] == "a" && "a.b"[2..] == "b";
    assert FirstDot("b") == 1;
    assert ValidLabels("b");
    assert TENANT[1] == '.';
  }

  /** The database fails once, at the third call, which is the delete_voicemail after a
      delete_extension: the next run is synced and yet the box of the deleted number stays. */
  method StrandedBox() returns (c: FusionpbxClient, first: SyncStatus, second: SyncStatus)
    ensures fresh(c) && c.Valid()
    ensures first == Error && second == Synced
    ensures Key(TENANT, "100") in c.view.boxes && Key(TENANT, "100") !in c.view.exts
  {
    OneBoxWellFormed(TENANT);
    OneBoxShows(TENANT);
    TenantValid();
    hide WellFormed, Shows, NumbersOk, ValidModel, ValidDomain, ValidToken, TagsFit, Reconciled, PlansBetween;
    OneNumberOk(TENANT);
    var m := NoModels();
    c := new FusionpbxClient(OneBox(TENANT), OneBoxView(TENANT), (i: nat) => i == 2);
    assert TagsFit(c.view, TENANT) by { NoPlansFit(); }
    EffectiveValid(m);
    ghost var s := Now(c);
    first := ReconcileVoice(c, m);
    ghost var s1 := Now(c);
    OnlyStaleNumber();
    FirstRunStrands(s, s1, m, c.outage, first);
    ReconciledBetween(s, s1, m, c.outage, first);
    TagsStayFit(s.view, s1.view, m, TENANT);
    second := ReconcileVoice(c, m);
    SecondRunKeeps(s1, Now(c), m, c.outage, second);
  }

  lemma NoPlansFit()
    ensures TagsFit(OneBoxView(TENANT), TENANT)
  {
    hide FeatureName;
  }

  lemma OnlyStaleNumber()
    ensures NumbersIn(OneBoxView(TENANT).exts, TENANT) == StaleIn(OneBoxView(TENANT), NoModels()) == {"100"}
    ensures Sorted({"100"}) == ["100"]
  {
    var v, m := OneBoxView(TENANT), NoModels();
    assert Key(TENANT, "100") in v.exts;
    assert forall k :: k in v.exts ==> k == Key(TENANT, "100");
    assert m.exts.Keys == {};
    hide Sorted;
    var order := Sorted({"100"});
    EnumeratesSize(order, {"100"});
    assert order[0] in Elems(order);
  }

  lemma FirstRunStrands(s: Snap, s1: Snap, m: Model, outage: nat -> bool, first: SyncStatus)
    requires m == NoModels() && s.view == OneBoxView(TENANT) && s.calls == 0
    requires forall i :: outage(i) <==> i == 2
    requires Reconciled(s, s1, m, outage, first)
    ensures first == Error && s1.calls == 3 && Stranded(s.view, s1.view, m, "100")
  {
    hide Reconciled, StaleIn, Sorted, Stranded, Script, ChoiceOk, RunOps;
    OnlyStaleNumber();
    assert |m.exts| == 0 && m.dom == TENANT;
    assert FirstOutage(outage, 0, 2);
    assert StrandsAt(s, m, outage, 0, "100");
    StrandedIff(s, s1, m, outage, first);
    var o, done := RunCalls(s, s1, m, outage, first);
    StaleCalls(s.view, m, o, 0);
    assert outage(2);
    if first == Error {
      OneFirst(outage, 0, done, 2);
    }
  }

  lemma SecondRunKeeps(s1: Snap, s2: Snap, m: Model, outage: nat -> bool, second: SyncStatus)
    requires m == NoModels() && s1.calls == 3
    requires forall i :: outage(i) <==> i == 2
    requires Reconciled(s1, s2, m, outage, second)
    requires Key(TENANT, "100") in s1.view.boxes && Key(TENANT, "100") !in s1.view.exts
    ensures second == Synced
    ensures Key(TENANT, "100") in s2.view.boxes && Key(TENANT, "100") !in s2.view.exts
  {
    hide Reconciled, StaleIn, Script, ChoiceOk, RunOps;
    assert "100" !in m.exts && m.dom == TENANT;
    var o, done := RunCalls(s1, s2, m, outage, second);
    StaleHad(s1.view, m, "100");
    StaleHad(s2.view, m, "100");
    BoxOfNeither(s1, s2, m, outage, second, "100");
  }

  // ------------------------------------------------- a customer that is not gone

  const CUSTOMER := "acme"

  function OneCustomer(): Store {
    Store(map[0 := DomainRow(CUSTOMER, TENANT, true, false, None)],
          map[0 := Row(0, "100", ExtModel("", true))], map[], map[], map[], map[])
  }

  lemma OneCustomerStored()
    ensures StoreOk(OneCustomer()) && forall id :: id in OneCustomer().domains ==> id == 0
  {
    var s := OneCustomer();
    assert RowsOk(s.exts) && RowsOk(s.conferences) && RowsOk(s.rings) && RowsOk(s.ivrs) && RowsOk(s.queues);
    hide RowsOk;
  }

  lemma NoneIn<F>(d: Uuid)
    ensures RowsOk<F>(map[]) && Table<F>(map[], d) == map[]
  {}

  lemma OneRowTable(rows: map<Uuid, Row<ExtModel>>, d: Uuid, number: string)
    requires RowsOk(rows) && forall u :: u in rows ==> rows[u].number == number
    ensures Table(rows, d).Keys <= {number}
  {}

  // A domain whose only table with rows is the one of extensions.
  lemma OnlyExtensions(s: Store, id: Uuid)
    requires StoreOk(s) && id in s.domains
    requires s.conferences == map[] && s.rings == map[] && s.ivrs == map[] && s.queues == map[]
    requires forall u :: u in s.exts ==> s.exts[u].number == "100"
    ensures var m := ModelOf(s, id);
      && m.dom == s.domains[id].name && m.exts.Keys <= {"100"}
      && m.conferences == {} && m.rings == map[] && m.ivrs == map[] && m.queues == map[]
  {
    hide RowsOk, Table, RowsHoused, UniqueDomains;
    OneRowTable(s.exts, id, "100");
    NoneIn<()>(id);
    NoneIn<RingModel>(id);
    NoneIn<IvrModel>(id);
    NoneIn<QueueModel>(id);
  }

  lemma OneExtensionValid(m: Model)
    requires m.dom == TENANT && m.exts.Keys <= {"100"} && m.conferences == {} && m.rings == map[] && m.ivrs == map[]
    requires m.queues == map[]
    ensures ValidModel(m) && forall k :: Numbers(m, k) == {}
  {
    TenantValid();
    hide ValidDomain, ValidToken;
    assert forall n :: n in m.exts.Keys ==> n == "100";
  }

  lemma OneCustomerOk()
    ensures StoreOk(OneCustomer()) && forall id :: id in OneCustomer().domains ==> id == 0
    ensures ModelOf(OneCustomer(), 0).dom == TENANT && ValidModel(ModelOf(OneCustomer(), 0))
    ensures forall k :: Numbers(ModelOf(OneCustomer(), 0), k) == {}
  {
    hide ModelOf, ValidModel, StoreOk;
    OneCustomerStored();
    OnlyExtensions(OneCustomer(), 0);
    OneExtensionValid(ModelOf(OneCustomer(), 0));
  }

  lemma OneCustomerWorld(names: iset<string>)
    requires names == iset{TENANT}
    ensures World(OneCustomer(), OneBoxView(TENANT), names)
  {
    OneCustomerOk();
    TenantValid();
    hide StoreOk, ModelOf, ValidModel, ValidDomain, Mine, FeatureName;
  }

  /** The database fails at the first call of a deprovisioning: the customer is gone from the
      application, no later run will be made for it, and its extension is still on the PBX. */
  method LeftBehind() returns (c: FusionpbxClient, api: VoiceApi)
    ensures fresh(c) && fresh(api) && api.client == c && api.Ready() && StoreOk(api.s)
    ensures AccountOf(api.s, CUSTOMER) == None && api.s.domains == map[]
    ensures Project(api.names, c.view, TENANT) != EMPTY
  {
    OneBoxWellFormed(TENANT);
    OneBoxShows(TENANT);
    TenantValid();
    hide WellFormed, Shows, NumbersOk, ValidDomain, ValidToken, World, StoreOk, AccountOf, Project, LastRemoval;
    hide ModelOf;
    OneNumberOk(TENANT);
    c := new FusionpbxClient(OneBox(TENANT), OneBoxView(TENANT), (i: nat) => i == 0);
    OneCustomerWorld(iset{TENANT});
    api := new VoiceApi(OneCustomer(), c, iset{TENANT});
    OneCustomerOk();
    AccountIs(OneCustomer(), 0);
    ghost var s := api.s;
    var found := api.Deprovision(CUSTOMER);
    assert FirstOutage(c.outage, 0, 0);
    OneRemoval();
    NobodyElse(s, api.s);
  }

  lemma NoKeys<V>(d: string)
    ensures NumbersIn<V>(map[], d) == {}
  {}

  lemma OneRemoval()
    ensures LastRemoval(OneBoxView(TENANT), TENANT) == 1
  {
    OnlyStaleNumber();
    var v := OneBoxView(TENANT);
    NoKeys<QueueState>(TENANT);
    hide NumbersIn;
    assert ManagedIn(v, TENANT) == {};
    assert |{"100"}| == 1;
  }

  lemma NobodyElse(s: Store, s': Store)
    requires StoreOk(s) && StoreOk(s') && s == OneCustomer() && AccountOf(s', CUSTOMER) == None
    requires OtherAccounts(s, s', CUSTOMER)
    ensures s'.domains == map[]
  {
    hide StoreOk, ModelOf, AccountOf;
    if id :| id in s'.domains {
      var customer := s'.domains[id].customer;
      AccountIs(s', id);
      assert customer != CUSTOMER;
      assert forall j :: !IsCustomer(s, j, customer);
      NoAccount(s, customer);
    }
  }

  // ----------------------------------------------- an agent that cannot join

  function OneQueue(d: string): Db {
    Db(map[0 := d], map[], map[], map[], map[], map[0 := QueueRow(0, "800", "800", "ring-all")],
       map[0 := AgentRow(0, "1", "1", "user/1@a.b")], map[0 := TierRow(0, 0, 0, "800", "1", 1, 1)])
  }

  function OneQueueView(d: string): View {
    View({d}, map[], map[], map[], map[], map[Key(d, "800") := QueueState("ring-all", {"1"})])
  }

  lemma OneQueueWellFormed(d: string)
    ensures WellFormed(OneQueue(d))
  {}

  lemma OneQueueShows(d: string)
    ensures Shows(OneQueue(d), OneQueueView(d))
  {
    var t := OneQueue(d);
    assert t.domains[0] == d && t.domains.Values == {d};
    assert AgentsOf(t.tiers, 0) == {"1"} by { assert t.tiers[0].agentName == "1"; }
    assert QueueKey(t.domains)(t.queues[0]) == Key(d, "800");
    hide AgentsOf;
  }

  lemma OneQueueOk()
    ensures ValidDomain(TENANT) && ValidToken("800") && ValidTokens(["1", "2"]) && NumbersOk(OneQueueView(TENANT))
  {
    TenantValid();
    assert ValidToken("800") && ValidToken("1") && ValidToken("2");
    hide ValidDomain, ValidToken, ValidModel;
  }

  lemma TwoAgents()
    ensures Elems(["1", "2"]) == {"1", "2"} && Reloads(OneQueueView(TENANT), TENANT, "800", "random", {"1", "2"})
    ensures forall desired :: Elems(desired) == {"1", "2"} ==>
      JoinsUnloaded(OneQueueView(TENANT), TENANT, "800", "random", desired)
  {
    assert ["1", "2"][0] == "1" && ["1", "2"][1] == "2";
    assert "ring-all"[1] != "random"[1] && "1"[0] != "2"[0];
    hide Elems;
  }

  lemma MirrorsRows(t: Db, v: View)
    requires t == OneQueue(TENANT) && v == OneQueueView(TENANT)
    ensures HoldsRows(RuntimeOf(t, TENANT), v, t, TENANT, "800")
  {
    assert 0 in QueuesOf(t, TENANT);
    assert t.queues[0].extension == "800";
  }

  // What the runtime makes of the commands, whatever uuid the new agent got.
  lemma TierIsRefused(t: Db, t': Db, desired: seq<string>, cmds: seq<Command>)
    requires t == OneQueue(TENANT) && Distinct(desired) && Elems(desired) == {"1", "2"}
    requires QueueAnnounced(OneQueueView(TENANT), t, t', TENANT, "800", desired, "random", cmds)
    ensures !AllAccepted(RuntimeOf(t, TENANT), cmds)
    ensures Run(RuntimeOf(t, TENANT), cmds).tiers == RuntimeOf(t, TENANT).tiers
  {
    var v, m := OneQueueView(TENANT), RuntimeOf(t, TENANT);
    TwoAgents();
    MirrorsRows(t, v);
    hide QueueAnnounced, HoldsRows, JoinsUnloaded, AllAccepted, Run, RuntimeOf, Elems, Distinct, Reloads, AgentsSet;
    hide Sends;
    EnsureQueueAccepted(m, v, t, t', TENANT, "800", desired, "random", cmds);
  }

  /** The runtime mirrors the tables; one ensure_queue changes the strategy and adds agent 2. The
      tables then hold both agents, and the runtime has refused the new tier. */
  method RefusedTier() returns (c: FusionpbxClient, ghost before: Memory)
    ensures fresh(c) && c.Valid() && before == RuntimeOf(OneQueue(TENANT), TENANT)
    ensures Key(TENANT, "800") in c.view.queues && c.view.queues[Key(TENANT, "800")] == QueueState("random", {"1", "2"})
    ensures !AllAccepted(before, c.commands) && Run(before, c.commands).tiers == before.tiers
  {
    hide WellFormed, Shows, NumbersOk, ValidDomain, ValidToken, ValidTokens, QueueAnnounced, Elems, AllAccepted, Run;
    hide RuntimeOf, OthersKept, PlansKept, OtherQueuesKept, NoNewOrphans, PutQueue, Dedup, OneQueue, OneQueueView;
    hide Distinct, Reloads, JoinsUnloaded;
    OneQueueWellFormed(TENANT);
    OneQueueShows(TENANT);
    OneQueueOk();
    ghost var v := OneQueueView(TENANT);
    TwoAgents();
    before := RuntimeOf(OneQueue(TENANT), TENANT);
    c := new FusionpbxClient(OneQueue(TENANT), v, (i: nat) => false);
    ghost var t := c.db;
    var agents := ["1", "2"];
    var r := c.EnsureQueue(TENANT, "800", agents, "random");
    assert c.commands[0..] == c.commands;
    TierIsRefused(t, c.db, Dedup(agents), c.commands);
    PutQueueHas(v, TENANT, "800", "random", {"1", "2"});
  }

  lemma PutQueueHas(v: View, d: string, number: string, strategy: string, agents: set<string>)
    ensures Key(d, number) in PutQueue(v, d, number, strategy, agents).queues
    ensures PutQueue(v, d, number, strategy, agents).queues[Key(d, number)] == QueueState(strategy, agents)
  {}
}
