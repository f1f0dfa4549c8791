/** Whole histories of provisioning calls, of any customers in any order, and what they add up to. */
module History {
  import opened Names
  import opened Tables
  import opened Client
  import opened Models
  import opened EndState
  import opened Voice
  import opened Outcomes
  import opened Removal
  import opened Rows
  import opened Intents
  import opened Provisioning
  import opened Ledger

  /** The desired state a customer's write starts from. */
  function Base(account: Option<Account>, e: Event): Model {
    match account
    case Some(a) => a.model
    case None => if e.PutDomain? then NewModel(e.name) else NewModel("")
  }

  /** The PBX holds the share that the model asks for, and its voicemail boxes. */
  ghost predicate Holds(names: iset<string>, v: View, m: Model) {
    Project(names, v, m.dom) == Desired(Effective(m)) && SettledBoxes(v, Effective(m))
  }

  /** Unless its last reconcile failed, the PBX holds the account's share, and the customer is in
      service as the account says. */
  ghost predicate Served(names: iset<string>, account: Option<Account>, v: View) {
    account.Some? && account.value.status == Some(Synced) ==>
      Holds(names, v, account.value.model) && InService(names, v, account.value.model)
  }

  lemma WorldServed(s: Store, v: View, names: iset<string>, customer: string)
    requires World(s, v, names)
    ensures StoreOk(s) && Served(names, AccountOf(s, customer), v)
  {
    hide StoreOk, AllValid, AllOrderly, ModelsValid, Project, Desired, Effective, ModelOf, SettledBoxes, InService;
    if id :| IsCustomer(s, id, customer) {
      AccountIs(s, id);
      ModelName(s, id);
      if s.domains[id].status == Some(Synced) {
        WorldInService(s, v, names, id);
      }
    } else {
      NoAccount(s, customer);
    }
    hide AccountOf;
  }

  lemma HandledFolds(s: Store, s': Store, customer: string, e: Event, a: Answer, c: string)
    requires Handled(s, s', customer, e, a)
    ensures AccountOf(s', c) ==
      if c == customer && a.Answered? then Some(Account(Intended(Base(AccountOf(s, customer), e), e), Some(a.status)))
      else AccountOf(s, c)
  {
    hide StoreOk, AccountOf, Intended, ValidEvent;
  }

  lemma HandledOk(s: Store, s': Store, customer: string, e: Event, a: Answer)
    requires Handled(s, s', customer, e, a)
    ensures StoreOk(s) && StoreOk(s')
  {
    hide StoreOk, AccountOf, Refusal;
  }

  function ModelIn(account: Option<Account>): Option<Model> {
    match account
    case Some(a) => Some(a.model)
    case None => None
  }

  /** The call is about this customer. */
  predicate Concerns(call: Call, customer: string) {
    match call
    case Write(c, _) => c == customer
    case Deprovision(c) => c == customer
    case Resync(c) => c == customer
    case ResyncEveryone => true
  }

  /** There is no account whose last reconcile did not succeed. */
  predicate Current(account: Option<Account>) {
    account.Some? ==> account.value.status == Some(Synced)
  }

  /** The reply tells of an outage. */
  predicate Unlucky(r: Reply) {
    match r
    case Told(a) => a == PbxDown || a == Answered(Error)
    case Removal(_) => false
    case Fleet(ok) => !ok
  }

  /** One customer's account after one call; `calm` when no call of the client meets an outage. */
  ghost predicate AccountKept(x: Option<Account>, y: Option<Account>, call: Call, r: Reply, c: string, calm: bool) {
    && ModelIn(y) == Booked(ModelIn(x), call, r, c)
    && (Commits(call, r, c) ==> y.Some? && CommitNames(ModelIn(x), ModelIn(y), call.event))
    && (!Concerns(call, c) ==> y == x)
    && (calm && Current(x) ==> Current(y))
    && (Concerns(call, c) && Answers(r) ==> y.Some? && y.value.status == Some(r.answer.status))
  }

  predicate Answers(r: Reply) {
    r.Told? && r.answer.Answered?
  }

  /** A put_domain names the account's domain, and it is what opens an account. */
  predicate CommitNames(x: Option<Model>, y: Option<Model>, e: Event) {
    if e.PutDomain? then DomainIn(y) == Some(e.name) else x.Some? && DomainIn(y) == DomainIn(x)
  }

  // The store after one call, customer by customer.
  ghost predicate Kept(s: Store, s': Store, call: Call, r: Reply, calm: bool) {
    && StoreOk(s) && StoreOk(s') && (calm ==> !Unlucky(r))
    && forall c :: AccountKept(AccountOf(s, c), AccountOf(s', c), call, r, c, calm)
  }

  lemma WriteBooked(x: Option<Account>, y: Option<Account>, customer: string, e: Event, a: Answer, c: string,
      calm: bool)
    requires y == if c == customer && a.Answered? then Some(Account(Intended(Base(x, e), e), Some(a.status))) else x
    requires c == customer && a.Answered? ==>
      if e.PutDomain? then x.Some? ==> x.value.model.dom == e.name else x.Some?
    requires calm && a.Answered? ==> a.status == Synced
    ensures AccountKept(x, y, Write(customer, e), Told(a), c, calm)
  {
    if c == customer && a.Answered? {
      FlagsAfter(Base(x, e), e);
    }
    hide Intended;
  }

  lemma WriteKept(s: Store, s': Store, customer: string, e: Event, a: Answer, calm: bool)
    requires Handled(s, s', customer, e, a) && (calm && a.Answered? ==> a.status == Synced)
    ensures Kept(s, s', Write(customer, e), Told(a), calm)
  {
    hide StoreOk, AccountOf, Intended, Base, AccountKept;
    HandledOk(s, s', customer, e, a);
    Lets(s, customer, e);
    forall c ensures AccountKept(AccountOf(s, c), AccountOf(s', c), Write(customer, e), Told(a), c, calm) {
      HandledFolds(s, s', customer, e, a, c);
      WriteBooked(AccountOf(s, c), AccountOf(s', c), customer, e, a, c, calm);
    }
  }

  lemma Lets(s: Store, customer: string, e: Event)
    requires StoreOk(s)
    ensures Refusal(s, customer, e).Answered? ==>
      var x := AccountOf(s, customer);
      if e.PutDomain? then x.Some? ==> x.value.model.dom == e.name else x.Some?
    ensures Refusal(s, customer, e) != PbxDown
  {
    hide AccountOf, ValidEvent, StoreOk;
  }

  lemma RemovalKept(names: iset<string>, s: Store, s': Store, v: View, v': View, customer: string, found: bool,
      outage: nat -> bool, calls: nat, calm: bool)
    requires Removed(names, s, s', v, v', customer, found, outage, calls)
    ensures Kept(s, s', Deprovision(customer), Removal(found), calm)
  {
    hide StoreOk, AccountOf, LeavesAll;
  }

  lemma ResyncKept(s: Store, s': Store, customer: string, a: Answer, calm: bool)
    requires Resynced(s, s', customer, a) && (calm ==> a != PbxDown && (a.Answered? ==> a.status == Synced))
    ensures Kept(s, s', Resync(customer), Told(a), calm)
  {
    hide StoreOk, AccountOf;
  }

  lemma FleetKept(s: Store, s': Store, ok: bool, calm: bool)
    requires StoreOk(s) && StoreOk(s') && if ok then StatusesOnly(s, s', {}) else s' == s
    requires calm ==> ok && AllSynced(s', s'.domains.Keys)
    ensures Kept(s, s', ResyncEveryone, Fleet(ok), calm)
  {
    hide StoreOk, ModelOf, AccountOf;
    forall c ensures AccountKept(AccountOf(s, c), AccountOf(s', c), ResyncEveryone, Fleet(ok), c, calm) {
      if id :| IsCustomer(s, id, c) {
        AccountIs(s, id);
        if ok {
          AccountIs(s', id);
        }
      } else if ok {
        assert forall id :: IsCustomer(s', id, c) ==> IsCustomer(s, id, c);
        NoAccount(s, c);
        NoAccount(s', c);
      }
    }
  }

  ghost predicate Calm(api: VoiceApi)
    reads api.client
  {
    forall i :: !api.client.outage(i)
  }

  /** One call of the API. */
  method Perform(api: VoiceApi, call: Call) returns (r: Reply)
    requires api.Ready() && (call.Write? ==> EventFits(api.names, call.event))
    modifies api`s, api.client
    ensures api.Ready() && Kept(old(api.s), api.s, call, r, Calm(api))
  {
    hide FusionpbxClient.Valid, World, Kept, EventFits, Handled, Removed, Resynced, StatusesOnly, StoreOk, AllSynced;
    hide Recovered, AskedFor, AllAsked, AskedDown, Rebuilt, Welcome, CustomerServed;
    ghost var s, v, calls := api.s, api.client.view, api.client.calls;
    match call {
      case Write(customer, e) =>
        var a := api.Handle(customer, e);
        WriteKept(s, api.s, customer, e, a, Calm(api));
        r := Told(a);
      case Deprovision(customer) =>
        var found := api.Deprovision(customer);
        RemovalKept(api.names, s, api.s, v, api.client.view, customer, found, api.client.outage, calls, Calm(api));
        r := Removal(found);
      case Resync(customer) =>
        var a := api.ResyncDomain(customer);
        ResyncKept(s, api.s, customer, a, Calm(api));
        r := Told(a);
      case ResyncEveryone =>
        var ok, asked := api.ResyncAll();
        FleetKept(s, api.s, ok, Calm(api));
        r := Fleet(ok);
    }
  }

  ghost predicate CallsFit(names: iset<string>, calls: seq<Call>) {
    forall i :: 0 <= i < |calls| && calls[i].Write? ==> EventFits(names, calls[i].event)
  }

  /** One customer's account after the calls: its desired state is the book of its calls, field by
      field as the last of them that spoke of it said, and its status is what the last call about
      it answered; calls about others do not touch it, and without outages it stays synced. */
  ghost predicate AccountAfter(x: Option<Account>, y: Option<Account>, calls: seq<Call>, replies: seq<Reply>,
      c: string, calm: bool)
    requires |replies| == |calls|
  {
    && ModelIn(y) == Book(ModelIn(x), calls, replies, c)
    && Recorded(ModelIn(x), ModelIn(y), calls, replies, c)
    && ((forall i :: 0 <= i < |calls| ==> !Concerns(calls[i], c)) ==> y == x)
    && (calm && Current(x) ==> Current(y)) && StatusTold(y, calls, replies, c)
  }

  predicate LastAbout(calls: seq<Call>, i: nat, c: string)
    requires i < |calls|
  {
    Concerns(calls[i], c) && forall j :: i < j < |calls| ==> !Concerns(calls[j], c)
  }

  /** When the last call about the customer was answered with a status, that is the account's. */
  ghost predicate StatusTold(y: Option<Account>, calls: seq<Call>, replies: seq<Reply>, c: string)
    requires |replies| == |calls|
  {
    forall i :: 0 <= i < |calls| && LastAbout(calls, i, c) && Answers(replies[i]) ==>
        y.Some? && y.value.status == Some(replies[i].answer.status)
  }

  lemma StatusNext(y: Option<Account>, z: Option<Account>, calls: seq<Call>, replies: seq<Reply>, i: nat, r: Reply,
      c: string, calm: bool)
    requires i < |calls| && |replies| == i && StatusTold(y, calls[..i], replies, c)
    requires AccountKept(y, z, calls[i], r, c, calm)
    ensures StatusTold(z, calls[..i + 1], replies + [r], c)
  {
    hide Booked, CommitNames, Concerns;
    var before, after := calls[..i], calls[..i + 1];
    forall k | 0 <= k < |after| && LastAbout(after, k, c) && Answers((replies + [r])[k])
      ensures z.Some? && z.value.status == Some((replies + [r])[k].answer.status)
    {
      if k < i {
        assert !Concerns(after[i], c) && after[i] == calls[i] && z == y;
        assert before[k] == after[k] && forall j :: k < j < |before| ==> before[j] == after[j];
        assert LastAbout(before, k, c);
      }
    }
  }

  // The same before it is told field by field.
  ghost predicate AccountSoFar(x: Option<Account>, y: Option<Account>, calls: seq<Call>, replies: seq<Reply>,
      c: string, calm: bool)
    requires |replies| == |calls|
  {
    && ModelIn(y) == Book(ModelIn(x), calls, replies, c)
    && DomainIn(ModelIn(y)) == LastDomain(DomainIn(ModelIn(x)), calls, replies, c)
    && ((forall i :: 0 <= i < |calls| ==> !Concerns(calls[i], c)) ==> y == x)
    && (calm && Current(x) ==> Current(y)) && StatusTold(y, calls, replies, c)
  }

  lemma AccountNext(x: Option<Account>, y: Option<Account>, z: Option<Account>, calls: seq<Call>,
      replies: seq<Reply>, i: nat, r: Reply, c: string, calm: bool)
    requires i < |calls| && |replies| == i && AccountSoFar(x, y, calls[..i], replies, c, calm)
    requires AccountKept(y, z, calls[i], r, c, calm)
    ensures AccountSoFar(x, z, calls[..i + 1], replies + [r], c, calm)
  {
    hide Booked, Intended, Current, StatusTold;
    StatusNext(y, z, calls, replies, i, r, c, calm);
    BookNext(ModelIn(x), calls, replies, i, r, c);
    var before, after := calls[..i], calls[..i + 1];
    assert after[..i] == before && (replies + [r])[..i] == replies && after[i] == calls[i];
    DomainNext(ModelIn(y), ModelIn(z), calls[i], r, c);
    assert (forall j :: 0 <= j < |after| ==> !Concerns(after[j], c)) ==>
      !Concerns(after[i], c) && forall j :: 0 <= j < |before| ==> !Concerns(after[j], c);
    hide Book, Concerns;
  }

  lemma DomainNext(y: Option<Model>, z: Option<Model>, call: Call, r: Reply, c: string)
    requires z == Booked(y, call, r, c) && (Commits(call, r, c) ==> z.Some? && CommitNames(y, z, call.event))
    ensures DomainIn(z) ==
      if call == Deprovision(c) then None
      else if Commits(call, r, c) && call.event.PutDomain? then Some(call.event.name)
      else DomainIn(y)
  {
    hide Intended;
  }

  lemma AccountDone(x: Option<Account>, y: Option<Account>, calls: seq<Call>, replies: seq<Reply>, c: string,
      calm: bool)
    requires |replies| == |calls| && AccountSoFar(x, y, calls, replies, c, calm)
    ensures AccountAfter(x, y, calls, replies, c, calm)
  {
    hide Book, LastDomain, Current, Concerns, Recorded, StatusTold;
    BookIsRecorded(ModelIn(x), calls, replies, c);
  }

  /** Over every history of writes, deprovisionings and resyncs, each customer's desired state is
      what the book of its calls says, and each field of it what the last call about that field
      says. Every customer whose last reconcile was synced is in service accordingly, whatever
      others did before, between or after; without outages nothing else can happen. */
  method RunApi(api: VoiceApi, calls: seq<Call>) returns (replies: seq<Reply>)
    requires api.Ready() && CallsFit(api.names, calls)
    modifies api`s, api.client
    ensures api.Ready() && |replies| == |calls| && StoreOk(old(api.s)) && StoreOk(api.s)
    ensures forall c :: AccountAfter(AccountOf(old(api.s), c), AccountOf(api.s, c), calls, replies, c, Calm(api))
    ensures forall c :: Served(api.names, AccountOf(api.s, c), api.client.view)
    ensures Calm(api) ==> forall i :: 0 <= i < |replies| ==> !Unlucky(replies[i])
  {
    hide FusionpbxClient.Valid, World, StoreOk, AccountOf, EventFits, Kept, Booked, Served, AccountSoFar, AccountAfter;
    ghost var s0, calm := api.s, Calm(api);
    WorldOk(s0, api.client.view, api.names);
    replies := [];
    assert forall c :: AccountSoFar(AccountOf(s0, c), AccountOf(s0, c), calls[..0], [], c, calm) by {
      forall c ensures AccountSoFar(AccountOf(s0, c), AccountOf(s0, c), calls[..0], [], c, calm) {
        NoCalls(AccountOf(s0, c), c, calm);
      }
    }
    for i := 0 to |calls|
      invariant api.Ready() && |replies| == i && StoreOk(api.s) && Calm(api) == calm
      invariant forall c :: AccountSoFar(AccountOf(s0, c), AccountOf(api.s, c), calls[..i], replies, c, calm)
      invariant calm ==> forall j :: 0 <= j < i ==> !Unlucky(replies[j])
    {
      ghost var before := api.s;
      var r := Perform(api, calls[i]);
      KeptOk(before, api.s, calls[i], r, calm);
      forall c ensures AccountSoFar(AccountOf(s0, c), AccountOf(api.s, c), calls[..i + 1], replies + [r], c, calm) {
        AccountNext(AccountOf(s0, c), AccountOf(before, c), AccountOf(api.s, c), calls, replies, i, r, c, calm);
      }
      replies := replies + [r];
    }
    assert calls[..|calls|] == calls;
    forall c
      ensures AccountAfter(AccountOf(s0, c), AccountOf(api.s, c), calls, replies, c, calm)
      ensures Served(api.names, AccountOf(api.s, c), api.client.view)
    {
      AccountDone(AccountOf(s0, c), AccountOf(api.s, c), calls, replies, c, calm);
      WorldServed(api.s, api.client.view, api.names, c);
    }
  }

  lemma NoCalls(x: Option<Account>, c: string, calm: bool)
    ensures AccountSoFar(x, x, [], [], c, calm)
  {}

  lemma KeptOk(s: Store, s': Store, call: Call, r: Reply, calm: bool)
    requires Kept(s, s', call, r, calm)
    ensures StoreOk(s) && StoreOk(s') && (calm ==> !Unlucky(r))
    ensures forall c :: AccountKept(AccountOf(s, c), AccountOf(s', c), call, r, c, calm)
  {
    hide StoreOk, AccountOf, Booked, AccountKept;
  }

  // -------------------------------------------------------- suspend and resume

  /** A suspended customer is asked to have nothing on the PBX, and resuming asks for exactly
      what was desired before. */
  lemma SuspendedAsks(m: Model)
    requires m.active
    ensures Desired(Effective(Intended(m, SetActive(false)))) == EMPTY
    ensures Intended(Intended(m, SetActive(false)), SetActive(true)) == m && Effective(m) == m
    ensures Intended(m, SetActive(false)).dom == m.dom && !Intended(m, SetActive(false)).active
  {
    hide XmlFor, Merged, LastOf;
    var s := Effective(Intended(m, SetActive(false)));
    assert forall p: (Kind, string) :: p.1 !in Numbers(s, p.0);
    assert Desired(s).plans == imap[];
  }

  /** A customer is suspended and resumed, with any calls about other customers in between and
      afterwards. After a synced suspension nothing of its share is on the PBX, and after a
      synced resumption its share is the one its models asked for before, and it is in service. */
  method SuspendAndResume(api: VoiceApi, customer: string, between: seq<Call>, after: seq<Call>)
    returns (suspended: Answer, resumed: Answer, ghost meanwhile: View)
    requires api.Ready() && StoreOk(api.s) && AccountOf(api.s, customer).Some?
    requires AccountOf(api.s, customer).value.model.active
    requires CallsFit(api.names, between) && CallsFit(api.names, after)
    requires forall i :: 0 <= i < |between| ==> !Concerns(between[i], customer)
    requires forall i :: 0 <= i < |after| ==> !Concerns(after[i], customer)
    modifies api`s, api.client
    ensures api.Ready() && suspended.Answered? && resumed.Answered?
    ensures var m := AccountOf(old(api.s), customer).value.model;
      && (suspended.status == Synced ==> Project(api.names, meanwhile, m.dom) == EMPTY)
      && (resumed.status == Synced ==>
           Project(api.names, api.client.view, m.dom) == Desired(m) && SettledBoxes(api.client.view, m))
      && (suspended.status == Synced ==> NothingAt(api.names, meanwhile, m.dom))
      && (resumed.status == Synced ==>
           Provides(api.names, api.client.view, m) && BoxesServed(api.client.view, m))
    ensures Calm(api) ==> suspended.status == resumed.status == Synced
  {
    hide World, StoreOk, AccountOf, Intended, Project, Desired, Effective, Client.FusionpbxClient.Valid, EventFits;
    hide SettledBoxes, Holds, InService, NothingAt, Provides, Welcome, CustomerServed, Concerns, Book, Recorded;
    hide StatusTold, Unlucky, CallsFit;
    ghost var account := AccountOf(api.s, customer);
    ghost var m := account.value.model;
    ghost var off := Intended(m, SetActive(false));
    SuspendedAsks(m);
    ghost var s := api.s;
    SwitchFits(api.names);
    suspended := api.Handle(customer, SetActive(false));
    Switched(s, api.s, customer, false, suspended);
    s := api.s;
    var others := RunApi(api, between);
    assert AccountAfter(AccountOf(s, customer), AccountOf(api.s, customer), between, others, customer, Calm(api));
    assert Served(api.names, AccountOf(api.s, customer), api.client.view);
    meanwhile := api.client.view;
    HoldsShare(api.names, meanwhile, off);
    ServiceIs(api.names, meanwhile, off);
    s := api.s;
    resumed := api.Handle(customer, SetActive(true));
    Switched(s, api.s, customer, true, resumed);
    s := api.s;
    others := RunApi(api, after);
    assert AccountAfter(AccountOf(s, customer), AccountOf(api.s, customer), after, others, customer, Calm(api));
    assert Served(api.names, AccountOf(api.s, customer), api.client.view);
    HoldsShare(api.names, api.client.view, m);
    ServiceIs(api.names, api.client.view, m);
  }

  lemma ServiceIs(names: iset<string>, v: View, m: Model)
    ensures InService(names, v, m) ==> if m.active then Provides(names, v, m) && BoxesServed(v, m)
        else NothingAt(names, v, m.dom)
  {
    hide Provides, NothingAt, BoxesServed;
  }

  lemma HoldsShare(names: iset<string>, v: View, m: Model)
    ensures Holds(names, v, m) ==> Project(names, v, m.dom) == Desired(Effective(m)) && SettledBoxes(v, Effective(m))
  {
    hide Project, Desired, Effective, SettledBoxes;
  }

  lemma SwitchFits(names: iset<string>)
    ensures forall active :: EventFits(names, SetActive(active))
  {}

  lemma Switched(s: Store, s': Store, customer: string, active: bool, a: Answer)
    requires StoreOk(s) && StoreOk(s') && AccountOf(s, customer).Some? && Handled(s, s', customer, SetActive(active), a)
    ensures a.Answered?
    ensures AccountOf(s', customer) == Some(Account(Intended(AccountOf(s, customer).value.model, SetActive(active)),
        Some(a.status)))
  {
    hide StoreOk, AccountOf, Intended;
  }
}
