/** The provisioning API as a whole: every handler edits the desired state, reconciles and
    commits, or rolls back (app/api/provisioning.py, app/api/voice_features.py). */
module Provisioning {
  import opened Names
  import opened Indexed
  import opened Tables
  import opened CallCenter
  import opened Transactions
  import opened Client
  import opened Models
  import opened EndState
  import opened Progress
  import opened Scripts
  import opened Removal
  import opened Voice
  import opened Outcomes
  import opened Rows
  import opened Intents
  import opened Recovery
  import Runtime

  // -------------------------------------------------- all tenants on one PBX

  /** Every domain name that a customer may be given. */
  ghost predicate AllValid(names: iset<string>) {
    forall a :: a in names ==> ValidDomain(a)
  }

  ghost predicate AllOrderly(names: iset<string>, v: View) {
    forall a :: a in names ==> Orderly(names, v, a)
  }

  ghost predicate ModelsValid(names: iset<string>, s: Store)
    requires StoreOk(s)
  {
    forall id :: id in s.domains ==>
        s.domains[id].name in names && ValidModel(ModelOf(s, id)) && NumbersMine(names, ModelOf(s, id))
  }

  /** The PBX holds exactly the share that this domain's desired state asks for, and a voicemail
      box for each extension exactly when its setting says so. */
  ghost predicate Matches(names: iset<string>, s: Store, v: View, id: Uuid)
    requires StoreOk(s) && id in s.domains
  {
    && Project(names, v, s.domains[id].name) == Desired(Effective(ModelOf(s, id)))
    && SettledBoxes(v, Effective(ModelOf(s, id)))
  }

  /** A synced status is never a lie, whoever was served since; domain `but` is exempt. */
  ghost predicate SyncedMatch(names: iset<string>, s: Store, v: View, but: Option<Uuid>)
    requires StoreOk(s)
  {
    forall id :: id in s.domains && Some(id) != but && s.domains[id].status == Some(Synced) ==> Matches(names, s, v, id)
  }

  ghost predicate World(s: Store, v: View, names: iset<string>) {
    StoreOk(s) && AllValid(names) && AllOrderly(names, v) && ModelsValid(names, s) && SyncedMatch(names, s, v, None)
  }

  // While domain `id` is being served.
  ghost predicate Serving(s: Store, v: View, names: iset<string>, id: Uuid) {
    && StoreOk(s) && AllValid(names) && AllOrderly(names, v) && ModelsValid(names, s)
    && id in s.domains && SyncedMatch(names, s, v, Some(id))
  }

  lemma NamesDiffer(s: Store, a: Uuid, b: Uuid)
    requires StoreOk(s) && a in s.domains && b in s.domains && a != b
    ensures s.domains[a].name != s.domains[b].name
  {
    hide RowsHoused;
  }

  lemma EffectiveDom(m: Model)
    ensures Effective(m).dom == m.dom
  {}

  lemma EffectiveMine(names: iset<string>, m: Model)
    requires NumbersMine(names, m)
    ensures NumbersMine(names, Effective(m))
  {
    hide Mine;
  }

  lemma RunKeepsOrder(names: iset<string>, v: View, w: View, m: Model, actual: set<string>)
    requires AllOrderly(names, v) && m.dom in names && NumbersMine(names, m) && Between(v, w, m, actual)
    ensures AllOrderly(names, w)
  {
    hide Orderly, NumbersMine, Between;
    forall a | a in names ensures Orderly(names, w, a) {
      OrderlyStays(names, v, w, m, actual, a);
    }
  }

  lemma BoxesSame(v: View, w: View, m: Model)
    requires forall n :: Key(m.dom, n) in w.boxes <==> Key(m.dom, n) in v.boxes
    ensures SettledBoxes(v, m) <==> SettledBoxes(w, m)
  {}

  lemma RunKeepsMatches(s: Store, v: View, w: View, names: iset<string>, id: Uuid, actual: set<string>, j: Uuid)
    requires StoreOk(s) && AllOrderly(names, v) && ModelsValid(names, s) && id in s.domains && j in s.domains && j != id
    requires Between(v, w, Effective(ModelOf(s, id)), actual)
    ensures Matches(names, s, v, j) ==> Matches(names, s, w, j)
  {
    NamesDiffer(s, id, j);
    EffectiveDom(ModelOf(s, id));
    EffectiveDom(ModelOf(s, j));
    hide Between, ValidModel, RowsHoused, UniqueDomains, Effective, Project, Desired, Orderly, NumbersMine;
    hide SettledBoxes;
    EffectiveMine(names, ModelOf(s, id));
    NeighbourSeesNothing(names, v, w, Effective(ModelOf(s, id)), actual, s.domains[j].name);
    BoxesSame(v, w, Effective(ModelOf(s, j)));
  }

  /** A run for one domain, whatever became of it, leaves everybody else's guarantees intact. */
  lemma RunKeepsOthers(s: Store, v: View, w: View, names: iset<string>, id: Uuid, actual: set<string>)
    requires Serving(s, v, names, id) && Between(v, w, Effective(ModelOf(s, id)), actual)
    ensures Serving(s, w, names, id)
  {
    EffectiveDom(ModelOf(s, id));
    hide Between, AllValid, StoreOk, Matches, Effective, ValidModel, AllOrderly, NumbersMine;
    EffectiveMine(names, ModelOf(s, id));
    RunKeepsOrder(names, v, w, Effective(ModelOf(s, id)), actual);
    forall j | j in s.domains && j != id ensures Matches(names, s, v, j) ==> Matches(names, s, w, j) {
      RunKeepsMatches(s, v, w, names, id, actual, j);
    }
  }

  /** The same when the request fails afterwards and the store is rolled back. */
  lemma RolledBack(s: Store, v: View, w: View, names: iset<string>, id: Uuid, actual: set<string>)
    requires World(s, v, names) && id in s.domains
    requires Between(v, w, Effective(ModelOf(s, id)), actual)
    ensures World(s, w, names)
  {
    EffectiveDom(ModelOf(s, id));
    hide Between, AllValid, StoreOk, Effective, ValidModel, AllOrderly, Project, Desired, NumbersMine, SettledBoxes;
    RunKeepsOthers(s, v, w, names, id, actual);
    if Matches(names, s, v, id) {
      DesiredStays(names, v, w, Effective(ModelOf(s, id)), actual);
    }
  }

  lemma Serves(s: Store, s1: Store, v: View, names: iset<string>, id: Uuid)
    requires World(s, v, names) && StoreOk(s1) && OthersIntact(s, s1, id) && id in s1.domains
    requires forall j :: j in s1.domains && j != id ==> j in s.domains
    requires s1.domains[id].name in names && ValidModel(ModelOf(s1, id)) && NumbersMine(names, ModelOf(s1, id))
    ensures Serving(s1, v, names, id)
  {
    hide AllValid, StoreOk, ValidModel, AllOrderly, Project, Desired, Effective, ModelOf;
  }

  // ------------------------------------------------------------------ accounts

  /** What the store says about one customer. */
  datatype Account = Account(model: Model, status: Option<SyncStatus>)

  ghost predicate IsCustomer(s: Store, id: Uuid, customer: string) {
    id in s.domains && s.domains[id].customer == customer
  }

  ghost function AccountOf(s: Store, customer: string): Option<Account>
    requires StoreOk(s)
  {
    if exists id :: IsCustomer(s, id, customer) then
      var id :| IsCustomer(s, id, customer);
      Some(Account(ModelOf(s, id), s.domains[id].status))
    else None
  }

  lemma AccountIs(s: Store, id: Uuid)
    requires StoreOk(s) && id in s.domains
    ensures AccountOf(s, s.domains[id].customer) == Some(Account(ModelOf(s, id), s.domains[id].status))
  {
    hide RowsHoused, ModelOf;
    assert IsCustomer(s, id, s.domains[id].customer);
  }

  /** Every other customer's account is the same. */
  ghost predicate OtherAccounts(s: Store, s': Store, customer: string)
    requires StoreOk(s) && StoreOk(s')
  {
    forall c :: c != customer ==> AccountOf(s', c) == AccountOf(s, c)
  }

  lemma NoAccount(s: Store, customer: string)
    requires StoreOk(s) && forall id :: !IsCustomer(s, id, customer)
    ensures AccountOf(s, customer) == None
  {
    hide StoreOk, ModelOf;
  }

  lemma OthersAccounted(s: Store, s': Store, id: Uuid, customer: string)
    requires StoreOk(s) && StoreOk(s') && OthersIntact(s, s', id)
    requires forall j :: j in s'.domains && j != id ==> j in s.domains
    requires (id in s.domains ==> s.domains[id].customer == customer)
        && (id in s'.domains ==> s'.domains[id].customer == customer)
    ensures OtherAccounts(s, s', customer)
  {
    hide StoreOk, ModelOf, AccountOf;
    forall c | c != customer ensures AccountOf(s', c) == AccountOf(s, c) {
      if j :| IsCustomer(s, j, c) {
        AccountIs(s, j);
        AccountIs(s', j);
      } else {
        assert forall j :: !IsCustomer(s', j, c) by {
          forall j | IsCustomer(s', j, c) ensures IsCustomer(s, j, c) {}
        }
        NoAccount(s, c);
        NoAccount(s', c);
      }
    }
  }

  function WithStatus(s: Store, id: Uuid, status: SyncStatus): Store
    requires id in s.domains
  {
    s.(domains := s.domains[id := s.domains[id].(status := Some(status))])
  }

  lemma StatusSet(s: Store, id: Uuid, status: SyncStatus)
    requires StoreOk(s) && id in s.domains
    ensures StoreOk(WithStatus(s, id, status)) && OthersIntact(s, WithStatus(s, id, status), id)
    ensures ModelOf(WithStatus(s, id, status), id) == ModelOf(s, id)
  {
    hide RowsOk, RowsHoused, UniqueDomains, Table, OnlyTable;
    var s' := WithStatus(s, id, status);
    SameTables(s, id);
    assert TablesKept(s, s', id) && OnlyDomain(s, s', id);
    KeptStoreOk(s, s', id);
    KeptOthers(s, s', id);
  }

  lemma MatchesSame(names: iset<string>, s: Store, s': Store, v: View, id: Uuid)
    requires StoreOk(s) && StoreOk(s') && id in s.domains && id in s'.domains
    requires ModelOf(s', id) == ModelOf(s, id) && s'.domains[id].name == s.domains[id].name
    ensures Matches(names, s, v, id) <==> Matches(names, s', v, id)
  {
    hide StoreOk, ModelOf, Project, Desired, Effective;
  }

  lemma Committed(s: Store, v: View, names: iset<string>, id: Uuid, status: SyncStatus)
    requires Serving(s, v, names, id) && (status == Synced ==> Matches(names, s, v, id))
    ensures World(WithStatus(s, id, status), v, names)
  {
    hide AllValid, StoreOk, ValidModel, AllOrderly, ModelOf, Matches;
    var s' := WithStatus(s, id, status);
    StatusSet(s, id, status);
    forall j | j in s.domains ensures Matches(names, s, v, j) <==> Matches(names, s', v, j) {
      MatchesSame(names, s, s', v, j);
    }
  }

  /** Working copy `s1` serves `customer` as domain `id`; nobody else's rows differ from `s`. */
  ghost predicate Started(s: Store, s1: Store, id: Uuid, customer: string)
    requires StoreOk(s)
  {
    && StoreOk(s1) && IsCustomer(s1, id, customer) && OthersIntact(s, s1, id)
    && (forall j :: j in s1.domains && j != id ==> j in s.domains)
    && (id in s.domains ==> s.domains[id].customer == customer)
  }

  lemma StartedSame(s: Store, id: Uuid, customer: string)
    requires StoreOk(s) && IsCustomer(s, id, customer)
    ensures Started(s, s, id, customer)
  {
    hide StoreOk, ModelOf;
  }

  lemma StartedEdit(s: Store, s1: Store, s2: Store, id: Uuid, customer: string)
    requires StoreOk(s) && Started(s, s1, id, customer) && StoreOk(s2) && OnlyDomain(s1, s2, id)
    requires OthersIntact(s1, s2, id)
    ensures Started(s, s2, id, customer) && s2.domains[id].name == s1.domains[id].name
  {
    hide StoreOk, ModelOf;
  }

  lemma StartedServes(s: Store, s1: Store, v: View, names: iset<string>, id: Uuid, customer: string)
    requires World(s, v, names) && Started(s, s1, id, customer)
    requires s1.domains[id].name in names && ValidModel(ModelOf(s1, id)) && NumbersMine(names, ModelOf(s1, id))
    ensures Serving(s1, v, names, id)
  {
    hide World, Serving, ValidModel, ModelOf, StoreOk;
    assert StoreOk(s) by { WorldOk(s, v, names); }
    Serves(s, s1, v, names, id);
  }

  lemma WorldOk(s: Store, v: View, names: iset<string>)
    requires World(s, v, names)
    ensures StoreOk(s) && AllValid(names) && ModelsValid(names, s)
  {
    hide StoreOk, AllValid, ModelsValid, AllOrderly, SyncedMatch;
  }

  lemma Accounted(s: Store, s1: Store, id: Uuid, customer: string, status: SyncStatus)
    requires StoreOk(s) && Started(s, s1, id, customer)
    ensures StoreOk(WithStatus(s1, id, status))
    ensures AccountOf(WithStatus(s1, id, status), customer) == Some(Account(ModelOf(s1, id), Some(status)))
    ensures OtherAccounts(s, WithStatus(s1, id, status), customer)
  {
    hide StoreOk, ModelOf, AccountOf, OtherAccounts;
    var s' := WithStatus(s1, id, status);
    StatusSet(s1, id, status);
    AccountIs(s', id);
    assert OthersIntact(s, s', id);
    OthersAccounted(s, s', id, customer);
  }

  // The PBX went some way towards the desired state `m`.
  ghost predicate Moved(v: View, w: View, m: Model) {
    exists actual :: Between(v, w, Effective(m), actual)
  }

  lemma AfterMove(s: Store, v: View, w: View, names: iset<string>, id: Uuid)
    requires World(s, v, names) && id in s.domains && AllOrderly(names, w) && Moved(v, w, ModelOf(s, id))
    ensures World(s, w, names)
  {
    hide Between, AllValid, StoreOk, Effective, ValidModel, SyncedMatch, NumbersMine;
    assert s.domains[id].name in names;
    hide World;
    var actual :| Between(v, w, Effective(ModelOf(s, id)), actual);
    RolledBack(s, v, w, names, id, actual);
  }

  lemma ServingFits(s: Store, v: View, names: iset<string>, id: Uuid)
    requires Serving(s, v, names, id)
    ensures AllOrderly(names, v)
  {
    hide AllOrderly;
  }

  lemma WorldServes(s: Store, v: View, names: iset<string>, id: Uuid)
    requires World(s, v, names) && id in s.domains
    ensures Serving(s, v, names, id) && ValidDomain(s.domains[id].name)
  {
    hide StoreOk, ModelOf, Matches, AllOrderly, ValidDomain, ValidModel;
  }

  /** From command `from` on, what was sent puts the queues, agents and tiers of every active domain
      back into any runtime; the domains in `todo` are exempt. */
  ghost predicate Recovered(s: Store, todo: set<Uuid>, cmds: seq<Command>, from: nat, t: Db) {
    forall id :: id in s.domains && id !in todo && s.domains[id].active ==> Sent(cmds, from, t, s.domains[id].name)
  }

  lemma NobodyYet(s: Store, cmds: seq<Command>, from: nat, t: Db, outage: nat -> bool, now: nat)
    ensures Recovered(s, s.domains.Keys, cmds, from, t)
    ensures AskedFor(s, map[], now, now) && AllAsked(s, s.domains.Keys, map[], outage)
  {}

  lemma RecoveredNext(s: Store, todo: set<Uuid>, cmds: seq<Command>, from: nat, t: Db, cmds': seq<Command>, t': Db,
      id: Uuid)
    requires StoreOk(s) && id in s.domains && Recovered(s, todo, cmds, from, t)
    requires cmds <= cmds' && from <= |cmds| && OthersKept(t, t', s.domains[id].name)
    requires s.domains[id].active ==> Sent(cmds', |cmds|, t', s.domains[id].name)
    ensures Recovered(s, todo - {id}, cmds', from, t')
  {
    hide OthersKept, Sent, StoreOk;
    forall j | j in s.domains && j !in todo - {id} && s.domains[j].active
      ensures Sent(cmds', from, t', s.domains[j].name)
    {
      if j == id {
        SentLonger(cmds', |cmds|, t', s.domains[j].name, cmds', from);
      } else {
        NamesDiffer(s, id, j);
        StaysSent(cmds, from, t, s.domains[j].name, cmds', t', s.domains[id].name);
      }
    }
  }

  /** The calls, by their number, that asked for the runtime resyncs of these domains. */
  ghost predicate AskedFor(s: Store, asked: map<Uuid, nat>, lo: nat, hi: nat) {
    forall id :: id in asked ==> id in s.domains && s.domains[id].active && lo <= asked[id] < hi
  }

  ghost predicate AllAsked(s: Store, todo: set<Uuid>, asked: map<Uuid, nat>, outage: nat -> bool) {
    && (forall id :: id in s.domains && id !in todo && s.domains[id].active ==> id in asked)
    && (forall id :: id in asked ==> !outage(asked[id]))
  }

  // The calls asked for so far, with the one for domain `id` if it is active.
  ghost function Asking(s: Store, asked: map<Uuid, nat>, id: Uuid, slot: nat): map<Uuid, nat>
    requires id in s.domains
  {
    if s.domains[id].active then asked[id := slot] else asked
  }

  lemma AskedNext(s: Store, todo: set<Uuid>, asked: map<Uuid, nat>, outage: nat -> bool, lo: nat, mid: nat, hi: nat,
      id: Uuid, slot: nat)
    requires id in s.domains && lo <= mid <= hi
    requires AskedFor(s, asked, lo, mid) && AllAsked(s, todo, asked, outage)
    requires s.domains[id].active ==> mid <= slot < hi
    ensures AskedFor(s, Asking(s, asked, id, slot), lo, hi)
    ensures (s.domains[id].active ==> !outage(slot)) ==> AllAsked(s, todo - {id}, Asking(s, asked, id, slot), outage)
    ensures s.domains[id].active && outage(slot) ==> AskedDown(Asking(s, asked, id, slot), outage)
  {}

  /** One of these calls met an outage. */
  ghost predicate AskedDown(asked: map<Uuid, nat>, outage: nat -> bool) {
    exists id :: id in asked && outage(asked[id])
  }

  /** A customer that is active was put back from command `from` on. */
  ghost predicate Rebuilt(s: Store, customer: string, cmds: seq<Command>, from: nat, t: Db) {
    forall id :: IsCustomer(s, id, customer) && s.domains[id].active ==> Sent(cmds, from, t, s.domains[id].name)
  }

  lemma RebuiltOne(s: Store, id: Uuid, customer: string, status: SyncStatus, cmds: seq<Command>, from: nat, t: Db)
    requires StoreOk(s) && IsCustomer(s, id, customer)
    requires s.domains[id].active ==> Sent(cmds, from, t, s.domains[id].name)
    ensures Rebuilt(WithStatus(s, id, status), customer, cmds, from, t)
  {
    OneCustomer(s, id, customer, status);
    hide StoreOk, Sent;
  }

  lemma OneCustomer(s: Store, id: Uuid, customer: string, status: SyncStatus)
    requires StoreOk(s) && IsCustomer(s, id, customer)
    ensures forall j :: IsCustomer(WithStatus(s, id, status), j, customer) ==> j == id
  {
    hide RowsOk, RowsHoused;
  }

  lemma NothingDesired(name: string, recording: bool)
    ensures var m := NewModel(name).(recording := recording); Effective(m) == m && AsksNothing(m) && Desired(m) == EMPTY
  {
    hide XmlFor;
    var m := NewModel(name).(recording := recording);
    assert forall p: (Kind, string) :: p.1 !in Numbers(m, p.0);
    assert Desired(m).plans == imap[];
  }

  /** A customer is gone from the store, and of its share of the PBX something is left exactly
      when an outage came before the last call that removes something. */
  ghost predicate Removed(names: iset<string>, s: Store, s': Store, v: View, v': View, customer: string, found: bool,
      outage: nat -> bool, calls: nat) {
    && StoreOk(s) && StoreOk(s') && AccountOf(s', customer) == None
    && if !found then AccountOf(s, customer) == None && s' == s
       else AccountOf(s, customer).Some? && OtherAccounts(s, s', customer)
            && LeavesAll(names, outage, calls, v, v', AccountOf(s, customer).value.model.dom)
  }

  lemma NotThere(names: iset<string>, s: Store, v: View, customer: string, outage: nat -> bool, calls: nat)
    requires StoreOk(s) && AccountOf(s, customer) == None
    ensures Removed(names, s, s, v, v, customer, false, outage, calls)
  {
    hide StoreOk, AccountOf, LeavesAll;
  }

  lemma ClearedServes(s: Store, s1: Store, v: View, names: iset<string>, id: Uuid, customer: string)
    requires World(s, v, names) && id in s.domains && Started(s, s, id, customer) && StoreOk(s1)
    requires OnlyDomain(s, s1, id) && OthersIntact(s, s1, id)
    requires ModelOf(s1, id) == NewModel(s.domains[id].name).(recording := s.domains[id].recording)
    ensures Started(s, s1, id, customer) && Serving(s1, v, names, id)
  {
    hide StoreOk, World, Serving, ModelOf, ValidModel, Started;
    WorldOk(s, v, names);
    StartedEdit(s, s, s1, id, customer);
    NameKnown(s, v, names, id);
    NewModelValid(s.domains[id].name);
    RecordingValid(NewModel(s.domains[id].name), s.domains[id].recording);
    StartedServes(s, s1, v, names, id, customer);
  }

  lemma RecordingValid(m: Model, recording: bool)
    requires ValidModel(m)
    ensures ValidModel(m.(recording := recording))
  {}

  lemma NameKnown(s: Store, v: View, names: iset<string>, id: Uuid)
    requires World(s, v, names) && id in s.domains
    ensures s.domains[id].name in names && ValidDomain(s.domains[id].name)
  {
    hide StoreOk, ModelOf, AllOrderly, SyncedMatch, ValidDomain, ValidModel;
  }

  lemma RemovedWorld(s: Store, s1: Store, s2: Store, v: View, v': View, names: iset<string>, id: Uuid,
      customer: string, outage: nat -> bool, calls: nat)
    requires StoreOk(s) && IsCustomer(s, id, customer) && IsCustomer(s1, id, customer) && Started(s, s1, id, customer)
    requires s1.domains[id].name == s.domains[id].name
    requires Serving(s1, v', names, id) && LeavesAll(names, outage, calls, v, v', s.domains[id].name)
    requires StoreOk(s2) && s2 == s1.(domains := s1.domains - {id}) && OthersIntact(s1, s2, id)
    ensures World(s2, v', names) && Removed(names, s, s2, v, v', customer, true, outage, calls)
  {
    hide StoreOk, ModelOf, Serving, World, AccountOf, OtherAccounts, Matches, Started, LeavesAll;
    ServingHas(s1, v', names, id);
    RemovedStillWorld(s1, s2, v', names, id);
    AccountIs(s, id);
    ModelName(s, id);
    NoneLeft(s1, s2, id, customer);
    StartedRemoved(s, s1, s2, id, customer);
  }

  lemma StartedRemoved(s: Store, s1: Store, s2: Store, id: Uuid, customer: string)
    requires StoreOk(s) && Started(s, s1, id, customer) && id in s.domains
    requires StoreOk(s2) && s2 == s1.(domains := s1.domains - {id}) && OthersIntact(s1, s2, id)
    ensures IsCustomer(s, id, customer) && IsCustomer(s1, id, customer) && OtherAccounts(s, s2, customer)
  {
    hide StoreOk, ModelOf, AccountOf, OtherAccounts;
    assert OthersIntact(s, s2, id);
    OthersAccounted(s, s2, id, customer);
  }

  lemma NoneLeft(s1: Store, s2: Store, id: Uuid, customer: string)
    requires StoreOk(s1) && StoreOk(s2) && IsCustomer(s1, id, customer) && s2 == s1.(domains := s1.domains - {id})
    ensures AccountOf(s2, customer) == None
  {
    assert forall j :: !IsCustomer(s2, j, customer) by {
      hide RowsHoused, RowsOk;
    }
    hide StoreOk, AccountOf;
    NoAccount(s2, customer);
  }

  lemma RemovedStillWorld(s1: Store, s2: Store, v: View, names: iset<string>, id: Uuid)
    requires Serving(s1, v, names, id)
    requires StoreOk(s2) && s2 == s1.(domains := s1.domains - {id}) && OthersIntact(s1, s2, id)
    ensures World(s2, v, names)
  {
    hide StoreOk, ModelOf, AllValid, AllOrderly, ValidModel, Project, Desired, Effective;
  }

  /** A resync keeps the desired state and sets the status, or is rolled back. */
  ghost predicate Resynced(s: Store, s': Store, customer: string, a: Answer) {
    && StoreOk(s) && StoreOk(s')
    && match AccountOf(s, customer)
       case None => a == NotFound && s' == s
       case Some(account) =>
         if a == PbxDown then s' == s
         else
           a.Answered? && AccountOf(s', customer) == Some(account.(status := Some(a.status)))
           && OtherAccounts(s, s', customer)
  }

  lemma ResyncedBy(s: Store, id: Uuid, customer: string, status: SyncStatus)
    requires StoreOk(s) && Started(s, s, id, customer)
    ensures Resynced(s, WithStatus(s, id, status), customer, Answered(status))
    ensures Resynced(s, s, customer, PbxDown)
  {
    hide StoreOk, ModelOf, AccountOf, OtherAccounts;
    AccountIs(s, id);
    Accounted(s, s, id, customer, status);
  }

  lemma NotFoundThere(s: Store, customer: string)
    requires StoreOk(s) && AccountOf(s, customer) == None
    ensures Resynced(s, s, customer, NotFound)
  {
    hide StoreOk, AccountOf;
  }

  /** The working copy `w` differs from `s` in statuses alone; domains outside `todo` have theirs. */
  ghost predicate StatusesOnly(s: Store, w: Store, todo: set<Uuid>)
    requires StoreOk(s) && StoreOk(w)
  {
    && w.domains.Keys == s.domains.Keys
    && forall id :: id in s.domains ==>
        ModelOf(w, id) == ModelOf(s, id) && w.domains[id].customer == s.domains[id].customer
            && (id !in todo ==> w.domains[id].status.Some?)
  }

  predicate AllSynced(s: Store, ids: set<Uuid>) {
    forall id :: id in ids && id in s.domains ==> s.domains[id].status == Some(Synced)
  }

  lemma StatusesStart(s: Store)
    requires StoreOk(s)
    ensures StatusesOnly(s, s, s.domains.Keys) && AllSynced(s, s.domains.Keys - s.domains.Keys)
  {
    hide StoreOk, ModelOf;
  }

  lemma StatusesHave(s: Store, w: Store, todo: set<Uuid>, id: Uuid)
    requires StoreOk(s) && StoreOk(w) && StatusesOnly(s, w, todo) && id in todo && todo <= s.domains.Keys
    ensures id in w.domains && ModelOf(w, id) == ModelOf(s, id)
    ensures w.domains[id].name == s.domains[id].name && w.domains[id].active == s.domains[id].active
  {
    hide RowsOk, RowsHoused, UniqueDomains, Table;
    assert ModelOf(w, id) == ModelOf(s, id);
  }

  lemma EndStatuses(s: Store, w: Store)
    requires StoreOk(s) && StoreOk(w) && StatusesOnly(s, w, {})
    ensures AllSynced(w, s.domains.Keys - {}) ==> AllSynced(w, w.domains.Keys)
  {
    hide StoreOk, ModelOf;
  }

  lemma NextStatus(s: Store, w: Store, todo: set<Uuid>, id: Uuid, status: SyncStatus)
    requires StoreOk(s) && StoreOk(w) && StatusesOnly(s, w, todo) && id in todo && id in w.domains
    ensures StoreOk(WithStatus(w, id, status)) && StatusesOnly(s, WithStatus(w, id, status), todo - {id})
    ensures AllSynced(w, s.domains.Keys - todo) && status == Synced ==>
      AllSynced(WithStatus(w, id, status), s.domains.Keys - (todo - {id}))
  {
    hide StoreOk, ModelOf;
    StatusSet(w, id, status);
  }

  // ------------------------------------------------- numbers that writes bring

  /** The write brings a dialplan of kind `k` at number `n`. */
  predicate Brings(e: Event, k: Kind, n: string) {
    match e
    case PutFeatures(cs, rs, vs, qs) => n in Numbers(Intended(NewModel(""), e), k)
    case PostConference(n') => k == Conference && n == n'
    case PostRing(n', _) => k == RingGroup && n == n'
    case PostIvr(n', _) => k == Ivr && n == n'
    case PostQueue(n', _) => k == CallQueue && n == n'
    case _ => false
  }

  /** A valid write names a known domain and brings only numbers that have one owner. */
  ghost predicate EventFits(names: iset<string>, e: Event) {
    ValidEvent(e) ==> (e.PutDomain? ==> e.name in names) && forall d, k, n :: d in names && Brings(e, k, n) ==>
        Mine(names, d, n)
  }

  lemma BroughtNumbers(m: Model, e: Event, k: Kind, n: string)
    ensures n in Numbers(Intended(m, e), k) ==> n in Numbers(m, k) || Brings(e, k, n)
  {
    hide LastOf, Merged;
  }

  lemma IntendedMine(names: iset<string>, m: Model, e: Event)
    requires NumbersMine(names, m) && m.dom in names && ValidEvent(e) && EventFits(names, e)
    requires Intended(m, e).dom == m.dom
    ensures NumbersMine(names, Intended(m, e))
  {
    hide ValidEvent, Intended, Brings, Mine, Numbers;
    forall k, n | n in Numbers(Intended(m, e), k) ensures Mine(names, m.dom, n) {
      BroughtNumbers(m, e, k, n);
    }
  }

  lemma BroughtValid(e: Event, k: Kind, n: string)
    requires ValidEvent(e) && Brings(e, k, n)
    ensures ValidToken(n)
  {
    match e {
      case PutFeatures(cs, rs, vs, qs) =>
        hide ValidToken, LastOf, ValidEntries, ValidRing, ValidIvr, ValidQueue;
        match k {
          case Conference => LastOfValid(cs, (f: ()) => true, n);
          case RingGroup => LastOfValid(rs, ValidRing, n);
          case Ivr => LastOfValid(vs, ValidIvr, n);
          case CallQueue => LastOfValid(qs, ValidQueue, n);
        }
      case _ => ApiNumberValid(n);
    }
  }

  /** Every domain name that the validators accept. */
  ghost const ALL_DOMAINS: iset<string> := iset d | ValidDomain(d)

  /** On one PBX with customers of any names whatever, numbers without a hyphen always fit. */
  lemma HyphenFreeFits(e: Event)
    requires forall k, n :: Brings(e, k, n) ==> '-' !in n
    ensures EventFits(ALL_DOMAINS, e)
  {
    hide Brings, ValidDomain, Mine;
    if ValidEvent(e) {
      forall d, k, n | d in ALL_DOMAINS && Brings(e, k, n) ensures Mine(ALL_DOMAINS, d, n) {
        hide ValidEvent;
        BroughtValid(e, k, n);
        HyphenFreeMine(ALL_DOMAINS, d, n);
      }
      assert e.PutDomain? ==> ValidDomain(e.name);
    }
  }

  /** Among domains of which none continues another by a hyphen, all numbers fit. */
  lemma ApartFits(names: iset<string>, e: Event)
    requires forall a, b :: a in names && b in names ==> ValidDomain(a) && !HyphenExtends(a, b)
    requires e.PutDomain? ==> e.name in names
    ensures EventFits(names, e)
  {
    hide Brings, ValidDomain, Mine, HyphenExtends, ValidEvent;
    if ValidEvent(e) {
      forall d, k, n | d in names && Brings(e, k, n) ensures Mine(names, d, n) {
        BroughtValid(e, k, n);
        ApartMine(names, d, n);
      }
    }
  }

  // ------------------------------------------------------------------ handlers

  /** What a caller gets: the outcome of the reconcile, or why nothing was committed. */
  datatype Answer = Answered(status: SyncStatus) | Invalid | NotFound | Conflict | NameTaken | PbxDown

  class VoiceApi {
    var s: Store
    const client: FusionpbxClient
    /** The domains that may ever be given to a customer. */
    ghost const names: iset<string>

    ghost predicate Ready()
      reads this, client
    {
      client.Valid() && World(s, client.view, names)
    }

    constructor (s: Store, client: FusionpbxClient, ghost names: iset<string>)
      requires client.Valid() && World(s, client.view, names)
      ensures Ready() && this.s == s && this.client == client && this.names == names
    {
      this.s, this.client, this.names := s, client, names;
    }

    /** Reconcile the working copy `s1` for one domain and commit it with the new status. */
    method Sync(s1: Store, id: Uuid) returns (status: SyncStatus)
      requires client.Valid() && Serving(s1, client.view, names, id)
      modifies this`s, client
      ensures Ready() && s == WithStatus(s1, id, status)
      ensures status == Synced ==> Matches(names, s1, client.view, id)
      ensures (forall i :: !client.outage(i)) ==> status == Synced
    {
      hide StoreOk, FusionpbxClient.Valid, Serving, World, Matches, Effective, ModelOf, OthersKept;
      ServingHas(s1, client.view, names, id);
      status := ServeDomain(s1, id);
      Committed(s1, client.view, names, id, status);
      s := WithStatus(s1, id, status);
    }

    /** The reconcile call of a handler: it keeps everybody's guarantees. */
    method ServeDomain(s1: Store, id: Uuid) returns (status: SyncStatus)
      requires client.Valid() && Serving(s1, client.view, names, id)
      modifies client
      ensures client.Valid() && Serving(s1, client.view, names, id)
      ensures status == Synced ==> Matches(names, s1, client.view, id)
      ensures Moved(old(client.view), client.view, ModelOf(s1, id))
      ensures AsksNothing(Effective(ModelOf(s1, id))) ==>
        LeavesAll(names, client.outage, old(client.calls), old(client.view), client.view, s1.domains[id].name)
      ensures (forall i :: !client.outage(i)) ==> status == Synced
      ensures OthersKept(old(client.db), client.db, s1.domains[id].name)
      ensures old(client.commands) <= client.commands && old(client.calls) <= client.calls
    {
      ghost var before, m := Now(client), Effective(ModelOf(s1, id));
      ServingReady(s1, client.view, names, id);
      hide AllValid, ValidModel, Project, Desired, Settled, FusionpbxClient.Valid, StoreOk, Serving, TagsFit;
      hide Reconciled, Orderly, NumbersMine, LeavesAll, AsksNothing, ModelOf, Between, OthersKept, Provides;
      QueuesHoused(client, m);
      status := ReconcileVoice(client, ModelOf(s1, id));
      ReconciledBetween(before, Now(client), m, client.outage, status);
      ReconciledKeeps(before, Now(client), m, client.outage, status);
      RunKeepsOthers(s1, before.view, client.view, names, id, Had(before.view, m));
      assert Moved(before.view, client.view, ModelOf(s1, id));
      if forall i :: !client.outage(i) {
        NeverDown(before, Now(client), m, client.outage, status);
      }
      if AsksNothing(m) {
        EverythingLeft(names, before, Now(client), m, client.outage, status);
      }
      if status == Synced {
        SyncedMatches(s1, names, id, before, Now(client), client.outage);
      }
    }

    /** Send the runtime commands of one domain, if the database can be reached. */
    method Rebuild(name: string) returns (up: bool)
      requires client.Valid() && ValidDomain(name)
      modifies client
      ensures client.Valid() && client.view == old(client.view) && client.db == old(client.db)
      ensures old(client.commands) <= client.commands && client.calls == old(client.calls) + 1
      ensures up ==> Sent(client.commands, |old(client.commands)|, client.db, name)
      ensures up <==> !client.outage(old(client.calls))
    {
      hide WellFormed, Shows, NumbersOk, ValidDomain, Runtime.Adds, Runtime.RuntimeOf, Sent;
      var r := client.ResyncQueues(name);
      up := r.Ok?;
      if up {
        SentNow(client.commands, |old(client.commands)|, client.db, name);
      }
    }

    /** Remove a customer from the PBX, and its row whatever became of that. */
    method Deprovision(customer: string) returns (found: bool)
      requires Ready()
      modifies this`s, client
      ensures Ready()
      ensures Removed(names, old(s), s, old(client.view), client.view, customer, found, client.outage,
          old(client.calls))
      ensures !found ==> Untouched()
    {
      hide FusionpbxClient.Valid, World, ModelOf, StoreOk, Removed, AccountOf;
      WorldOk(s, client.view, names);
      if id :| id in s.domains && s.domains[id].customer == customer {
        RemoveCustomer(id, customer);
        return true;
      }
      NoAccount(s, customer);
      NotThere(names, s, client.view, customer, client.outage, client.calls);
      return false;
    }

    method RemoveCustomer(id: Uuid, customer: string)
      requires Ready() && IsCustomer(s, id, customer)
      modifies this`s, client
      ensures Ready()
      ensures Removed(names, old(s), s, old(client.view), client.view, customer, true, client.outage, old(client.calls))
    {
      hide FusionpbxClient.Valid, World, Serving, Matches, ModelOf, StoreOk, Removed, Started, OthersIntact, Moved;
      hide LeavesAll, AsksNothing, Effective;
      ghost var v, calls := client.view, client.calls;
      WorldOk(s, client.view, names);
      StartedSame(s, id, customer);
      var s1 := ClearModels(s, id);
      ClearedServes(s, s1, client.view, names, id, customer);
      NothingDesired(s.domains[id].name, s.domains[id].recording);
      var status := ServeDomain(s1, id);
      var s2 := RemoveDomain(s1, id);
      RemovedWorld(s, s1, s2, v, client.view, names, id, customer, client.outage, calls);
      s := s2;
    }

    /** Reconcile one domain and, when it is active, send the commands for its runtime. `slot` is
        the number of the call that asked for them. */
    method Recover(w: Store, id: Uuid) returns (up: bool, status: SyncStatus, ghost slot: nat)
      requires client.Valid() && World(s, client.view, names) && World(w, client.view, names)
      requires StoreOk(s) && StoreOk(w) && id in s.domains && id in w.domains && ModelOf(w, id) == ModelOf(s, id)
      modifies client
      ensures client.Valid() && World(s, client.view, names) && Serving(w, client.view, names, id)
      ensures status == Synced ==> Matches(names, w, client.view, id)
      ensures OthersKept(old(client.db), client.db, w.domains[id].name)
      ensures old(client.commands) <= client.commands && old(client.calls) <= client.calls
      ensures up <==> w.domains[id].active ==> !client.outage(slot)
      ensures w.domains[id].active ==> old(client.calls) <= slot && slot + 1 == client.calls
      ensures !up ==> MetOutage()
      ensures up && w.domains[id].active ==>
        Sent(client.commands, |old(client.commands)|, client.db, w.domains[id].name)
      ensures (forall i :: !client.outage(i)) ==> up && status == Synced
    {
      hide FusionpbxClient.Valid, World, Serving, Matches, ModelOf, StoreOk, Moved, Sent, OthersKept;
      hide AsksNothing, LeavesAll, Effective, ValidDomain;
      ghost var v, from := client.view, |client.commands|;
      WorldServes(w, v, names, id);
      status := ServeDomain(w, id);
      ServingFits(w, client.view, names, id);
      AfterMove(s, v, client.view, names, id);
      up, slot := true, client.calls;
      if w.domains[id].active {
        ghost var sent := client.commands;
        up := Rebuild(w.domains[id].name);
        if up {
          SentLonger(client.commands, |sent|, client.db, w.domains[id].name, client.commands, from);
        }
      }
    }

    /** Re-apply one customer's desired state and rebuild its runtime queues. */
    method ResyncDomain(customer: string) returns (a: Answer)
      requires Ready()
      modifies this`s, client
      ensures Ready() && Resynced(old(s), s, customer, a)
      ensures a == NotFound ==> Untouched()
      ensures a.Answered? ==> Rebuilt(s, customer, client.commands, |old(client.commands)|, client.db)
      ensures a == PbxDown ==> MetOutage()
      ensures a.Answered? && (forall i :: !client.outage(i)) ==> a.status == Synced
    {
      hide FusionpbxClient.Valid, World, Serving, Matches, ModelOf, StoreOk, Resynced, Started, AccountOf;
      hide Rebuilt, OthersIntact, MetOutage;
      WorldOk(s, client.view, names);
      if id :| id in s.domains && s.domains[id].customer == customer {
        a := ResyncCustomer(id, customer);
        return;
      }
      NoAccount(s, customer);
      NotFoundThere(s, customer);
      return NotFound;
    }

    method ResyncCustomer(id: Uuid, customer: string) returns (a: Answer)
      requires Ready() && IsCustomer(s, id, customer)
      modifies this`s, client
      ensures Ready() && Resynced(old(s), s, customer, a) && a != NotFound
      ensures a.Answered? ==> Rebuilt(s, customer, client.commands, |old(client.commands)|, client.db)
      ensures a == PbxDown ==> MetOutage()
      ensures a.Answered? && (forall i :: !client.outage(i)) ==> a.status == Synced
    {
      hide FusionpbxClient.Valid, World, Serving, Matches, ModelOf, StoreOk, Resynced, Started, AccountOf;
      hide Sent, OthersKept, Rebuilt, OthersIntact, MetOutage;
      WorldOk(s, client.view, names);
      StartedSame(s, id, customer);
      var up, status, slot := Recover(s, id);
      ResyncedBy(s, id, customer, status);
      if !up { return PbxDown; }
      Committed(s, client.view, names, id, status);
      RebuiltOne(s, id, customer, status, client.commands, |old(client.commands)|, client.db);
      s := WithStatus(s, id, status);
      return Answered(status);
    }

    /** Fleet recovery: every domain in turn. It succeeds exactly when no runtime resync met an outage,
        and then every active domain's part was sent for its runtime; otherwise all of it is rolled
        back. Without any outage every customer ends synced. */
    method ResyncAll() returns (ok: bool, ghost asked: map<Uuid, nat>)
      requires Ready()
      modifies this`s, client
      ensures Ready() && StoreOk(old(s)) && StoreOk(s)
      ensures if ok then StatusesOnly(old(s), s, {}) else s == old(s)
      ensures (forall i :: !client.outage(i)) ==> ok && AllSynced(s, s.domains.Keys)
      ensures old(client.commands) <= client.commands
      ensures ok ==> Recovered(old(s), {}, client.commands, |old(client.commands)|, client.db)
      ensures AskedFor(old(s), asked, old(client.calls), client.calls)
      ensures if ok then AllAsked(old(s), {}, asked, client.outage) else AskedDown(asked, client.outage)
    {
      hide FusionpbxClient.Valid, World, Serving, Matches, ModelOf, StoreOk, Sent, StatusesOnly, OthersKept;
      hide AllSynced, Recovered, AskedFor, AllAsked, AskedDown, Asking;
      WorldOk(s, client.view, names);
      var w, todo := s, s.domains.Keys;
      asked := map[];
      StatusesStart(s);
      ghost var from := |client.commands|;
      NobodyYet(s, client.commands, from, client.db, client.outage, client.calls);
      while todo != {}
        invariant client.Valid() && World(s, client.view, names) && World(w, client.view, names) && s == old(s)
        invariant StoreOk(w) && todo <= s.domains.Keys && StatusesOnly(s, w, todo)
        invariant (forall i :: !client.outage(i)) ==> AllSynced(w, s.domains.Keys - todo)
        invariant old(client.commands) <= client.commands && old(client.calls) <= client.calls
        invariant Recovered(s, todo, client.commands, from, client.db)
        invariant AskedFor(s, asked, old(client.calls), client.calls) && AllAsked(s, todo, asked, client.outage)
      {
        var id :| id in todo;
        ghost var t, sent, calls := client.db, client.commands, client.calls;
        StatusesHave(s, w, todo, id);
        var up, status, slot := Recover(w, id);
        AskedNext(s, todo, asked, client.outage, old(client.calls), calls, client.calls, id, slot);
        asked := Asking(s, asked, id, slot);
        if !up { return false, asked; }
        RecoveredNext(s, todo, sent, from, t, client.commands, client.db, id);
        Committed(w, client.view, names, id, status);
        NextStatus(s, w, todo, id, status);
        w := WithStatus(w, id, status);
        todo := todo - {id};
      }
      EndStatuses(s, w);
      s := w;
      return true, asked;
    }

    /** The state of the store and the client is as it was. */
    twostate predicate Untouched()
      reads this, client
    {
      s == old(s) && client.Untouched() && client.calls == old(client.calls)
    }

    /** The last call that was made found the database down. */
    twostate predicate MetOutage()
      reads client
    {
      old(client.calls) < client.calls && client.outage(client.calls - 1)
    }

    /** One write of one customer. It is refused as a whole, or the desired state becomes the
        intended one and the answer tells whether the PBX matches it; a synced answer means that
        the customer is in service as the stored rows say. */
    method Handle(customer: string, e: Event) returns (a: Answer)
      requires Ready() && EventFits(names, e)
      modifies this`s, client
      ensures Ready()
      ensures Handled(old(s), s, customer, e, a)
      ensures !a.Answered? ==> Untouched()
      ensures a.Answered? <==> Welcome(old(s), customer, e)
      ensures a.Answered? && (forall i :: !client.outage(i)) ==> a.status == Synced
      ensures a == Answered(Synced) ==> CustomerServed(names, s, customer, client.view)
    {
      hide FusionpbxClient.Valid, World, Serving, Matches, ModelOf, Intended, ValidEvent, StoreOk, Started, ValidModel;
      hide Refusal, Handled, Brings, Mine, NumbersMine, Welcome, CustomerServed;
      WorldOk(s, client.view, names);
      WelcomeIff(s, customer, e);
      var s1, id;
      a, s1, id := Locate(s, customer, e);
      if !a.Answered? {
        Refused(s, customer, e);
        return;
      }
      BaseReady(s, s1, client.view, names, id, customer, e);
      var s2 := Edit(s1, id, e);
      IntendedValid(ModelOf(s1, id), e);
      ModelName(s1, id);
      ModelName(s2, id);
      IntendedMine(names, ModelOf(s1, id), e);
      StartedEdit(s, s1, s2, id, customer);
      StartedServes(s, s2, client.view, names, id, customer);
      ghost var s0 := s;
      var status := Sync(s2, id);
      HandledDone(s0, s2, id, customer, e, status);
      if status == Synced {
        SyncedServed(s0, s2, s, client.view, names, id, customer);
      }
      return Answered(status);
    }
  }

  /** A write is refused as a whole, or the customer's desired state becomes the intended one,
      with the outcome of the reconcile, and everybody else's account stays. */
  ghost predicate Handled(s: Store, s': Store, customer: string, e: Event, a: Answer) {
    && StoreOk(s) && StoreOk(s')
    && if !a.Answered? then s' == s && a == Refusal(s, customer, e)
       else
         && Refusal(s, customer, e).Answered?
         && AccountOf(s', customer) == Some(Account(Intended(BaseModel(s, customer, e), e), Some(a.status)))
         && OtherAccounts(s, s', customer)
  }

  /** No other customer has this domain. */
  ghost predicate NameFree(s: Store, name: string)
    requires StoreOk(s)
  {
    forall c :: AccountOf(s, c).Some? ==> AccountOf(s, c).value.model.dom != name
  }

  /** A valid write is let in: a put_domain of the customer's own domain, or of a free one when
      there is no account yet, and any other write of a customer that has an account. */
  ghost predicate Welcome(s: Store, customer: string, e: Event)
    requires StoreOk(s)
  {
    && ValidEvent(e)
    && match AccountOf(s, customer)
       case Some(account) => e.PutDomain? ==> e.name == account.model.dom
       case None => e.PutDomain? && NameFree(s, e.name)
  }

  lemma WelcomeIff(s: Store, customer: string, e: Event)
    requires StoreOk(s)
    ensures Welcome(s, customer, e) <==> Refusal(s, customer, e).Answered?
  {
    hide AccountOf, ValidEvent, StoreOk;
    if AccountOf(s, customer).None? && e.PutDomain? {
      FreeIff(s, e.name);
    }
  }

  lemma FreeIff(s: Store, name: string)
    requires StoreOk(s)
    ensures NameFree(s, name) <==> forall j :: j in s.domains ==> s.domains[j].name != name
  {
    hide StoreOk, AccountOf, ModelOf;
    forall j | j in s.domains ensures NameFree(s, name) ==> s.domains[j].name != name {
      AccountIs(s, j);
      ModelName(s, j);
    }
    forall c | AccountOf(s, c).Some?
      ensures exists j :: j in s.domains && s.domains[j].name == AccountOf(s, c).value.model.dom
    {
      if j :| IsCustomer(s, j, c) {
        AccountIs(s, j);
        ModelName(s, j);
      } else {
        NoAccount(s, c);
      }
    }
  }

  /** The customer has an account, and what its rows ask for is in service. */
  ghost predicate CustomerServed(names: iset<string>, s: Store, customer: string, v: View) {
    && StoreOk(s) && AccountOf(s, customer).Some?
    && InService(names, v, AccountOf(s, customer).value.model)
  }

  /** In every state, a customer with a synced status is in service. */
  lemma WorldInService(s: Store, v: View, names: iset<string>, id: Uuid)
    requires World(s, v, names) && id in s.domains && s.domains[id].status == Some(Synced)
    ensures CustomerServed(names, s, s.domains[id].customer, v)
  {
    hide AllOrderly, AllValid, ModelOf, StoreOk, ValidModel, NumbersMine, Project, Desired, Effective, SettledBoxes;
    hide InService, AccountOf;
    AccountIs(s, id);
    ModelName(s, id);
    assert Matches(names, s, v, id);
    DesiredServes(names, v, ModelOf(s, id));
  }

  lemma SyncedServed(s0: Store, s2: Store, s: Store, v: View, names: iset<string>, id: Uuid, customer: string)
    requires StoreOk(s0) && Started(s0, s2, id, customer) && s == WithStatus(s2, id, Synced) && World(s, v, names)
    ensures CustomerServed(names, s, customer, v)
  {
    hide World, CustomerServed, StoreOk, OthersIntact;
    WorldInService(s, v, names, id);
  }

  lemma Refused(s: Store, customer: string, e: Event)
    requires StoreOk(s) && !Refusal(s, customer, e).Answered?
    ensures Handled(s, s, customer, e, Refusal(s, customer, e))
  {
    hide StoreOk, AccountOf, Refusal;
  }

  lemma HandledDone(s: Store, s2: Store, id: Uuid, customer: string, e: Event, status: SyncStatus)
    requires StoreOk(s) && Refusal(s, customer, e).Answered? && Started(s, s2, id, customer)
    requires ModelOf(s2, id) == Intended(BaseModel(s, customer, e), e)
    ensures Handled(s, WithStatus(s2, id, status), customer, e, Answered(status))
  {
    hide StoreOk, AccountOf, Refusal, Started, OtherAccounts, ModelOf, Intended, BaseModel;
    Accounted(s, s2, id, customer, status);
  }

  /** Why a write is refused before it changes anything; Answered when it is not. */
  ghost function Refusal(s: Store, customer: string, e: Event): Answer
    requires StoreOk(s)
  {
    if !ValidEvent(e) then Invalid
    else
      match AccountOf(s, customer)
      case Some(account) => if e.PutDomain? && e.name != account.model.dom then Conflict else Answered(Synced)
      case None =>
        if !e.PutDomain? then NotFound
        else if exists j :: j in s.domains && s.domains[j].name == e.name then NameTaken
        else Answered(Synced)
  }

  /** The desired state a write starts from. */
  ghost function BaseModel(s: Store, customer: string, e: Event): Model
    requires StoreOk(s) && Refusal(s, customer, e).Answered?
  {
    match AccountOf(s, customer)
    case Some(account) => account.model
    case None => NewModel(e.name)
  }

  /** Look the customer up, refuse what has to be refused, or give the working copy to edit. */
  method Locate(s: Store, customer: string, e: Event) returns (a: Answer, s1: Store, id: Uuid)
    requires StoreOk(s)
    ensures a == Refusal(s, customer, e)
    ensures a.Answered? ==>
      Started(s, s1, id, customer) && ModelOf(s1, id) == BaseModel(s, customer, e) && ValidEvent(e)
    ensures a.Answered? ==> if id in s.domains then s1 == s
        else e.PutDomain? && s1.domains[id].name == e.name && ModelOf(s1, id) == NewModel(e.name)
    ensures a.Answered? && e.PutDomain? ==> s1.domains[id].name == e.name
  {
    hide StoreOk, ModelOf, AccountOf, ValidEvent, OthersIntact;
    a, s1, id := Answered(Synced), s, 0;
    if !ValidEvent(e) { return Invalid, s, 0; }
    if u :| u in s.domains && s.domains[u].customer == customer {
      id := u;
      AccountIs(s, id);
      ModelName(s, id);
      StartedSame(s, id, customer);
      if e.PutDomain? && e.name != s.domains[id].name { return Conflict, s, 0; }
    } else {
      NoAccount(s, customer);
      if !e.PutDomain? { return NotFound, s, 0; }
      if j :| j in s.domains && s.domains[j].name == e.name { return NameTaken, s, 0; }
      s1, id := AddDomain(s, customer, e.name);
    }
  }

  lemma ModelName(s: Store, id: Uuid)
    requires StoreOk(s) && id in s.domains
    ensures ModelOf(s, id).dom == s.domains[id].name
  {
    hide StoreOk;
  }

  lemma ServingHas(s: Store, v: View, names: iset<string>, id: Uuid)
    requires Serving(s, v, names, id)
    ensures StoreOk(s) && id in s.domains
  {}

  lemma BaseReady(s: Store, s1: Store, v: View, names: iset<string>, id: Uuid, customer: string, e: Event)
    requires World(s, v, names) && Started(s, s1, id, customer) && ValidEvent(e)
    requires if id in s.domains then s1 == s
        else e.PutDomain? && e.name in names && s1.domains[id].name == e.name && ModelOf(s1, id) == NewModel(e.name)
    ensures StoreOk(s1) && id in s1.domains && s1.domains[id].name in names && ValidModel(ModelOf(s1, id))
    ensures NumbersMine(names, ModelOf(s1, id))
  {
    hide StoreOk, ModelOf, AllOrderly, SyncedMatch, ValidEvent;
    if id in s.domains {
      hide ValidModel;
    } else {
      NewModelValid(e.name);
    }
  }

  lemma NewModelValid(name: string)
    requires ValidDomain(name)
    ensures ValidModel(NewModel(name))
  {
    hide ValidDomain;
  }

  lemma ServingReady(s: Store, v: View, names: iset<string>, id: Uuid)
    requires Serving(s, v, names, id)
    ensures StoreOk(s) && id in s.domains
    ensures var m := Effective(ModelOf(s, id));
      && ValidModel(ModelOf(s, id)) && ModelOf(s, id).dom == m.dom == s.domains[id].name && m.dom in names
      && NumbersMine(names, m) && Orderly(names, v, m.dom) && TagsFit(v, m.dom)
  {
    EffectiveDom(ModelOf(s, id));
    hide Orderly, NumbersMine, ValidModel, RowsHoused, RowsOk, UniqueDomains;
    EffectiveMine(names, ModelOf(s, id));
    OrderlyFits(names, v, s.domains[id].name);
  }

  lemma QueuesHoused(client: FusionpbxClient, m: Model)
    requires client.Valid()
    ensures ExtraIn(client.view, m) != {} ==> m.dom in client.view.domains
  {
    hide FusionpbxClient.Valid, ExtraIn;
    QueueNumbersValid(client, m);
  }

  lemma NeverDown(s: Snap, s': Snap, m: Model, outage: nat -> bool, status: SyncStatus)
    requires Reconciled(s, s', m, outage, status) && forall i :: !outage(i)
    ensures status == Synced
  {
    hide Reconciled, ChoiceOk, Script, RunOps;
    var o, done := RunCalls(s, s', m, outage, status);
  }

  lemma SyncedMatches(s1: Store, names: iset<string>, id: Uuid, before: Snap, after: Snap, outage: nat -> bool)
    requires StoreOk(s1) && id in s1.domains && Reconciled(before, after, Effective(ModelOf(s1, id)), outage, Synced)
    requires NumbersMine(names, Effective(ModelOf(s1, id))) && s1.domains[id].name in names
    requires Orderly(names, before.view, s1.domains[id].name)
    ensures Matches(names, s1, after.view, id)
  {
    ModelName(s1, id);
    EffectiveDom(ModelOf(s1, id));
    hide StoreOk, ModelOf, Effective, Reconciled, Orderly, NumbersMine, Project, Desired, SettledBoxes, Provides;
    Converges(names, before, after, Effective(ModelOf(s1, id)), outage);
    NoBoxesAsked(after.view, ModelOf(s1, id));
  }

  lemma NoBoxesAsked(v: View, m: Model)
    ensures !m.active ==> SettledBoxes(v, Effective(m))
    ensures Effective(m).active == m.active
  {}
}
