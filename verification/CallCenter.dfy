/** The call-center transactions: queues, the agents they share, and the tiers that join
    them (app/services/fusionpbx/client.py:850-1046, 1087-1157). */
module CallCenter {
  import opened Names
  import opened Sets
  import opened Orders
  import opened Indexed
  import opened Tables
  import opened Steps

  /** The runtime commands sent over ESL, by the values they carry. */
  datatype Command =
    | QueueLoad(queue: string, dom: string)
    | QueueUnload(queue: string, dom: string)
    | AgentAdd(agent: Uuid)
    | AgentContact(agent: Uuid, contact: string)
    | AgentStatus(agent: Uuid)
    | TierAdd(queue: string, dom: string, agent: Uuid, level: int, position: int)

  // -------------------------------------------------------------------- rows

  function QueueRowAt(d: string, number: string, domains: map<Uuid, string>): QueueRow -> bool {
    (r: QueueRow) => OfDomain(domains, r.domain, d) && r.extension == number
  }

  function TierOfQueue(d: string, number: string, domains: map<Uuid, string>): TierRow -> bool {
    (r: TierRow) => OfDomain(domains, r.domain, d) && r.queueName == number
  }

  /** A call about one queue leaves the rows and tiers of all other queues as they were. */
  ghost predicate OtherQueuesKept(t: Db, t': Db, d: string, number: string) {
    && RowsKept(t.queues, t'.queues, QueueRowAt(d, number, t'.domains))
    && RowsKept(t.tiers, t'.tiers, TierOfQueue(d, number, t'.domains))
  }

  /** An agent that loses its last tier is removed with it. */
  ghost predicate NoNewOrphans(agents: map<Uuid, AgentRow>, tiers: map<Uuid, TierRow>, agents': map<Uuid, AgentRow>,
      tiers': map<Uuid, TierRow>) {
    agents'.Keys - ReferencedAgents(tiers') <= agents.Keys - ReferencedAgents(tiers)
  }

  /** The copies of the agent and tier tables that a transaction works on. */
  ghost predicate TeamOk(t: Db, agents: map<Uuid, AgentRow>, tiers: map<Uuid, TierRow>) {
    AgentsOk(t.domains, agents) && TiersOk(t.queues, agents, tiers)
  }

  ghost predicate OthersTeamKept(t: Db, agents: map<Uuid, AgentRow>, tiers: map<Uuid, TierRow>, q: Uuid)
    requires q in t.queues
  {
    && RowsKept(t.agents, agents, (r: AgentRow) => r.domain == t.queues[q].domain)
    && RowsKept(t.tiers, tiers, (r: TierRow) => r.queue == q)
  }

  // Installing reworked agent and tier tables changes the view of queue `q` alone.
  lemma TeamShows(t: Db, v: View, q: Uuid, agents: map<Uuid, AgentRow>, tiers: map<Uuid, TierRow>)
    requires WellFormed(t) && Shows(t, v) && q in t.queues
    requires TeamOk(t, agents, tiers) && OthersTeamKept(t, agents, tiers, q)
    ensures var key := QueueKey(t.domains)(t.queues[q]);
      Shows(t.(agents := agents, tiers := tiers),
          v.(queues := v.queues[key := QueueState(t.queues[q].strategy, AgentsOf(tiers, q))]))
  {
    var key := QueueKey(t.domains)(t.queues[q]);
    var val, val' := QueueVal(t.tiers), QueueVal(tiers);
    var m' := v.queues[key := QueueState(t.queues[q].strategy, AgentsOf(tiers, q))];
    forall u | u in t.queues && u != q ensures AgentsOf(tiers, u) == AgentsOf(t.tiers, u) {
      OtherAgentsSame(t.tiers, tiers, q, u);
    }
    hide RowsKept, TeamOk, OthersTeamKept, AgentsOk, TiersOk, AgentsOf, ExtensionsOk, VoicemailsOk;
    IndexReplace(t.queues, All(), QueueKey(t.domains), val, val', v.queues, q);
    hide IsIndex, UniqueKey;
  }

  lemma OtherAgentsSame(tiers: map<Uuid, TierRow>, tiers': map<Uuid, TierRow>, q: Uuid, u: Uuid)
    requires RowsKept(tiers, tiers', (r: TierRow) => r.queue == q) && u != q
    ensures AgentsOf(tiers', u) == AgentsOf(tiers, u)
  {
    forall a | a in AgentsOf(tiers, u) ensures a in AgentsOf(tiers', u) {
      var x :| x in tiers && tiers[x].queue == u && tiers[x].agentName == a;
      assert x in tiers' && tiers'[x] == tiers[x];
    }
    forall a | a in AgentsOf(tiers', u) ensures a in AgentsOf(tiers, u) {
      var x :| x in tiers' && tiers'[x].queue == u && tiers'[x].agentName == a;
      assert x in tiers && tiers'[x] == tiers[x];
    }
  }

  lemma TeamOthers(t: Db, d: string, q: Uuid, agents: map<Uuid, AgentRow>, tiers: map<Uuid, TierRow>)
    requires WellFormed(t) && q in t.queues && OfDomain(t.domains, t.queues[q].domain, d)
    requires TeamOk(t, agents, tiers) && OthersTeamKept(t, agents, tiers, q)
    ensures OthersKept(t, t.(agents := agents, tiers := tiers), d)
    ensures OtherQueuesKept(t, t.(agents := agents, tiers := tiers), d, t.queues[q].extension)
  {
    hide ExtensionsOk, VoicemailsOk, UniqueKey, AgentsOk;
    SameRowsKept(t, t.domains, d);
    RowsKeptRefl(t.queues, QueueRowAt(d, t.queues[q].extension, t.domains));
    RowsKeptWeaken(t.agents, agents, (r: AgentRow) => r.domain == t.queues[q].domain, AgentMine(t.domains, d));
    TierRowsWeaken(t, d, q, agents, tiers);
    hide RowsKept, TiersOk, OthersTeamKept, DomainsOk;
  }

  lemma TierRowsWeaken(t: Db, d: string, q: Uuid, agents: map<Uuid, AgentRow>, tiers: map<Uuid, TierRow>)
    requires WellFormed(t) && q in t.queues && OfDomain(t.domains, t.queues[q].domain, d)
    requires TeamOk(t, agents, tiers) && OthersTeamKept(t, agents, tiers, q)
    ensures RowsKept(t.tiers, tiers, TierMine(t.domains, d))
    ensures RowsKept(t.tiers, tiers, TierOfQueue(d, t.queues[q].extension, t.domains))
  {
    hide ExtensionsOk, VoicemailsOk, UniqueKey, AgentsOk, DomainsOk;
  }

  // ------------------------------------------------------- dropping tiers

  function Refs(tiers: map<Uuid, TierRow>, a: Uuid): set<Uuid> {
    set y | y in tiers && tiers[y].agent == a
  }

  /** One tier goes, and its agent too when no other tier refers to it. */
  lemma DropTier(t: Db, agents: map<Uuid, AgentRow>, tiers: map<Uuid, TierRow>, x: Uuid)
    requires TeamOk(t, agents, tiers) && x in tiers
    ensures var a, tiers' := tiers[x].agent, tiers - {x};
      var agents' := if Refs(tiers', a) == {} then agents - {a} else agents;
      && TeamOk(t, agents', tiers')
      && NoNewOrphans(agents, tiers, agents', tiers')
      && a in agents && agents[a].domain == tiers[x].domain == t.queues[tiers[x].queue].domain
      && agents[a].agentId == tiers[x].agentName
  {
    var a, tiers' := tiers[x].agent, tiers - {x};
    assert TierRefOk(t.queues, agents, tiers[x]);
    forall y | y in tiers' ensures Refs(tiers', a) == {} ==> tiers'[y].agent != a {
      assert tiers'[y].agent == a ==> y in Refs(tiers', a);
    }
    forall b | b in agents && b != a && b !in ReferencedAgents(tiers') ensures b !in ReferencedAgents(tiers) {
      assert forall y :: y in tiers' ==> tiers'[y].agent in ReferencedAgents(tiers');
      assert forall y :: y in tiers ==> y in tiers' || tiers[y].agent == a;
    }
    if Refs(tiers', a) != {} {
      var y :| y in Refs(tiers', a);
      assert tiers'[y].agent == a && a in ReferencedAgents(tiers');
    }
  }

  function TiersOf(tiers: map<Uuid, TierRow>, q: Uuid): set<Uuid> {
    set x | x in tiers && tiers[x].queue == q
  }

  // What holds while the tiers in `todo` are still to be looked at.
  ghost predicate Removing(t: Db, q: Uuid, keep: set<string>, todo: set<Uuid>, agents: map<Uuid, AgentRow>,
      tiers: map<Uuid, TierRow>)
    requires q in t.queues
  {
    && (forall x :: x in todo ==> x in tiers && tiers[x].queue == q)
    && TeamOk(t, agents, tiers) && OthersTeamKept(t, agents, tiers, q)
    && NoNewOrphans(t.agents, t.tiers, agents, tiers)
    && KeptTiers(t.tiers, q, keep, todo, tiers) && KeptRows(t.agents, keep, agents)
  }

  /** Agent rows only go, and none whose agent is kept. */
  ghost predicate KeptRows(before: map<Uuid, AgentRow>, keep: set<string>, agents: map<Uuid, AgentRow>) {
    && (forall b :: b in agents ==> b in before && agents[b] == before[b])
    && (forall b :: b in before && before[b].agentId in keep ==> b in agents)
  }

  lemma KeptNames(before: map<Uuid, AgentRow>, keep: set<string>, agents: map<Uuid, AgentRow>, du: Uuid)
    requires KeptRows(before, keep, agents)
    ensures forall e :: e in keep ==> (e in AgentNames(agents, du) <==> e in AgentNames(before, du))
  {
    forall e | e in keep && e in AgentNames(before, du) ensures e in AgentNames(agents, du) {
      var b :| b in before && before[b].domain == du && before[b].agentId == e;
      assert b in agents;
    }
  }

  ghost predicate KeptTiers(before: map<Uuid, TierRow>, q: Uuid, keep: set<string>, todo: set<Uuid>,
      tiers: map<Uuid, TierRow>) {
    && (forall x :: x in tiers <==> x in before && (before[x].queue == q && x !in todo ==> before[x].agentName in keep))
    && (forall x :: x in tiers ==> tiers[x] == before[x])
  }

  lemma RemovingStep(t: Db, q: Uuid, keep: set<string>, todo: set<Uuid>, agents: map<Uuid, AgentRow>,
      tiers: map<Uuid, TierRow>, x: Uuid)
    requires q in t.queues && Removing(t, q, keep, todo, agents, tiers) && x in todo
    ensures tiers[x].agentName in keep ==> Removing(t, q, keep, todo - {x}, agents, tiers)
    ensures tiers[x].agentName !in keep ==>
      var a, tiers' := tiers[x].agent, tiers - {x};
      Removing(t, q, keep, todo - {x}, if Refs(tiers', a) == {} then agents - {a} else agents, tiers')
  {
    hide TeamOk, NoNewOrphans, OthersTeamKept;
    if tiers[x].agentName !in keep {
      RemovingDrop(t, q, keep, todo, agents, tiers, x);
    }
  }

  lemma RemovingDrop(t: Db, q: Uuid, keep: set<string>, todo: set<Uuid>, agents: map<Uuid, AgentRow>,
      tiers: map<Uuid, TierRow>, x: Uuid)
    requires q in t.queues && Removing(t, q, keep, todo, agents, tiers) && x in todo && tiers[x].agentName !in keep
    ensures var a, tiers' := tiers[x].agent, tiers - {x};
      Removing(t, q, keep, todo - {x}, if Refs(tiers', a) == {} then agents - {a} else agents, tiers')
  {
    hide TeamOk, NoNewOrphans, OthersTeamKept, RowsKept;
    var a, tiers' := tiers[x].agent, tiers - {x};
    var agents' := if Refs(tiers', a) == {} then agents - {a} else agents;
    DropTier(t, agents, tiers, x);
    assert KeptTiers(t.tiers, q, keep, todo - {x}, tiers');
    hide KeptTiers;
    RowsKeptDelete(agents, agents', (r: AgentRow) => r.domain == t.queues[q].domain);
    RowsKeptDelete(tiers, tiers', (r: TierRow) => r.queue == q);
    TeamStep(t, q, agents, tiers, agents', tiers');
  }

  /** Delete the tiers of queue `q` whose agents are not kept, and agents left without any tier. */
  method RemoveTiers(t: Db, q: Uuid, keep: set<string>) returns (agents: map<Uuid, AgentRow>,
      tiers: map<Uuid, TierRow>, removed: bool)
    requires WellFormed(t) && q in t.queues
    ensures TeamOk(t, agents, tiers) && OthersTeamKept(t, agents, tiers, q)
    ensures NoNewOrphans(t.agents, t.tiers, agents, tiers)
    ensures KeptTiers(t.tiers, q, keep, {}, tiers) && KeptRows(t.agents, keep, agents)
    ensures !removed ==> agents == t.agents && tiers == t.tiers
    ensures removed ==> !(AgentsOf(t.tiers, q) <= keep)
  {
    agents, tiers, removed := t.agents, t.tiers, false;
    var todo := TiersOf(t.tiers, q);
    TeamStart(t, q);
    while todo != {}
      invariant Removing(t, q, keep, todo, agents, tiers)
      invariant !removed ==> agents == t.agents && tiers == t.tiers
      invariant removed ==> !(AgentsOf(t.tiers, q) <= keep)
    {
      var x :| x in todo;
      RemovingStep(t, q, keep, todo, agents, tiers, x);
      RemovingHas(t, q, keep, todo, agents, tiers, x);
      hide Removing, WellFormed, AgentsOf;
      if tiers[x].agentName !in keep {
        var a := tiers[x].agent;
        tiers := tiers - {x};
        if |Refs(tiers, a)| == 0 {
          agents := agents - {a};
        }
        removed := true;
      }
      todo := todo - {x};
    }
  }

  lemma RemovingHas(t: Db, q: Uuid, keep: set<string>, todo: set<Uuid>, agents: map<Uuid, AgentRow>,
      tiers: map<Uuid, TierRow>, x: Uuid)
    requires q in t.queues && Removing(t, q, keep, todo, agents, tiers) && x in todo
    ensures x in tiers && tiers[x].agentName in AgentsOf(t.tiers, q)
  {
    hide TeamOk, OthersTeamKept, NoNewOrphans;
  }

  /** An agent row as ensure_queue writes it: the contact is what the runtime dials. */
  predicate AgentFits(r: AgentRow, d: string) {
    r.name == r.agentId && r.contact == "user/" + r.agentId + "@" + d
  }

  predicate TierFits(r: TierRow) {
    r.level == 1 && r.position == 1
  }

  /** Every agent and tier row is an unchanged old one or fits. */
  ghost predicate TeamFits(agents0: map<Uuid, AgentRow>, tiers0: map<Uuid, TierRow>, agents: map<Uuid, AgentRow>,
      tiers: map<Uuid, TierRow>, du: Uuid, d: string) {
    && (forall a :: a in agents ==>
         (a in agents0 && agents0[a] == agents[a]) || (agents[a].domain == du && AgentFits(agents[a], d)))
    && (forall x :: x in tiers ==> (x in tiers0 && tiers0[x] == tiers[x]) || TierFits(tiers[x]))
  }

  lemma TeamFitsRefl(agents: map<Uuid, AgentRow>, tiers: map<Uuid, TierRow>, du: Uuid, d: string)
    ensures TeamFits(agents, tiers, agents, tiers, du, d)
  {
    hide AgentFits, TierFits;
  }

  lemma TeamFitsTrans(agents0: map<Uuid, AgentRow>, tiers0: map<Uuid, TierRow>, agents1: map<Uuid, AgentRow>,
      tiers1: map<Uuid, TierRow>, agents: map<Uuid, AgentRow>, tiers: map<Uuid, TierRow>, du: Uuid, d: string)
    requires TeamFits(agents0, tiers0, agents1, tiers1, du, d) && TeamFits(agents1, tiers1, agents, tiers, du, d)
    ensures TeamFits(agents0, tiers0, agents, tiers, du, d)
  {
    hide AgentFits, TierFits;
  }

  lemma KeptFits(t: Db, q: Uuid, keep: set<string>, agents: map<Uuid, AgentRow>, tiers: map<Uuid, TierRow>, du: Uuid,
      d: string)
    requires KeptRows(t.agents, keep, agents) && KeptTiers(t.tiers, q, keep, {}, tiers)
    ensures TeamFits(t.agents, t.tiers, agents, tiers, du, d)
  {
    hide AgentFits, TierFits;
  }

  /** The same of whole databases: the new rows are agents and tiers of domain `d`, and fit. */
  ghost predicate NewRowsFit(t: Db, t': Db, d: string) {
    && (forall a :: a in t'.agents ==>
         (a in t.agents && t.agents[a] == t'.agents[a])
         || (OfDomain(t'.domains, t'.agents[a].domain, d) && AgentFits(t'.agents[a], d)))
    && (forall x :: x in t'.tiers ==> (x in t.tiers && t.tiers[x] == t'.tiers[x]) || TierFits(t'.tiers[x]))
  }

  /** A new queue row is named after its number. */
  ghost predicate NewQueuesNamed(t: Db, t': Db) {
    forall q :: q in t'.queues ==>
        t'.queues[q].name == if q in t.queues then t.queues[q].name else t'.queues[q].extension
  }

  lemma NewRowsFrom(t: Db, t': Db, du: Uuid, d: string)
    requires TeamFits(t.agents, t.tiers, t'.agents, t'.tiers, du, d) && OfDomain(t'.domains, du, d)
    ensures NewRowsFit(t, t', d)
  {
    hide AgentFits, TierFits;
  }

  lemma RowsFitFrom(t: Db, t2: Db, t': Db, d: string)
    requires t2.agents == t.agents && t2.tiers == t.tiers && NewRowsFit(t2, t', d)
    ensures NewRowsFit(t, t', d)
  {
    hide AgentFits, TierFits;
  }

  lemma NamedFrom(t: Db, t1: Db, t2: Db, t': Db)
    requires t1.queues == t.queues && NewQueuesNamed(t1, t2) && t'.queues == t2.queues
    ensures NewQueuesNamed(t, t')
  {}

  lemma TeamStart(t: Db, q: Uuid)
    requires WellFormed(t) && q in t.queues
    ensures TeamOk(t, t.agents, t.tiers) && OthersTeamKept(t, t.agents, t.tiers, q)
    ensures NoNewOrphans(t.agents, t.tiers, t.agents, t.tiers)
    ensures forall keep :: KeptTiers(t.tiers, q, keep, TiersOf(t.tiers, q), t.tiers)
  {
    hide ExtensionsOk, VoicemailsOk, UniqueKey;
  }

  lemma TeamStep(t: Db, q: Uuid, agents0: map<Uuid, AgentRow>, tiers0: map<Uuid, TierRow>, agents: map<Uuid, AgentRow>,
      tiers: map<Uuid, TierRow>)
    requires q in t.queues && OthersTeamKept(t, agents0, tiers0, q)
    requires NoNewOrphans(t.agents, t.tiers, agents0, tiers0) && NoNewOrphans(agents0, tiers0, agents, tiers)
    requires RowsKept(agents0, agents, (r: AgentRow) => r.domain == t.queues[q].domain)
    requires RowsKept(tiers0, tiers, (r: TierRow) => r.queue == q)
    ensures OthersTeamKept(t, agents, tiers, q) && NoNewOrphans(t.agents, t.tiers, agents, tiers)
  {
    RowsKeptTrans(t.agents, agents0, agents, (r: AgentRow) => r.domain == t.queues[q].domain,
      (r: AgentRow) => r.domain == t.queues[q].domain);
    RowsKeptTrans(t.tiers, tiers0, tiers, (r: TierRow) => r.queue == q, (r: TierRow) => r.queue == q);
    hide RowsKept, ReferencedAgents;
  }

  // -------------------------------------------------------- joining agents

  function NewAgents(agents: map<Uuid, AgentRow>, a: Uuid, row: AgentRow): map<Uuid, AgentRow> {
    if a in agents then agents else agents[a := row]
  }

  /** `a` is the agent row of `ext` in this domain, or a fresh uuid when there is none. */
  ghost predicate AgentFor(agents: map<Uuid, AgentRow>, du: Uuid, ext: string, a: Uuid) {
    if a in agents then agents[a].domain == du && agents[a].agentId == ext
    else forall b :: b in agents ==> !(agents[b].domain == du && agents[b].agentId == ext)
  }

  lemma NewAgentsOk(t: Db, q: Uuid, agents: map<Uuid, AgentRow>, ext: string, a: Uuid, row: AgentRow)
    requires WellFormed(t) && q in t.queues && AgentsOk(t.domains, agents)
    requires AgentFor(agents, t.queues[q].domain, ext, a) && row.domain == t.queues[q].domain && row.agentId == ext
    ensures AgentsOk(t.domains, NewAgents(agents, a, row))
  {
    hide ExtensionsOk, VoicemailsOk, UniqueKey, TiersOk;
    if a !in agents {
      UniquePut(agents, All(), AgentKey(t.domains), a, row);
    }
  }

  lemma NewTierOk(t: Db, q: Uuid, agents: map<Uuid, AgentRow>, agents': map<Uuid, AgentRow>, tiers: map<Uuid, TierRow>,
      x: Uuid, tier: TierRow)
    requires q in t.queues && TiersOk(t.queues, agents, tiers)
    requires x !in tiers && TierRefOk(t.queues, agents', tier) && tier.queue == q
    requires tier.agentName !in AgentsOf(tiers, q)
    requires forall b :: b in agents ==> b in agents' && agents'[b] == agents[b]
    ensures TiersOk(t.queues, agents', tiers[x := tier])
  {
    forall y | y in tiers ensures TierPair()(tiers[y]) != TierPair()(tier) && TierRefOk(t.queues, agents', tiers[y]) {
      assert TierRefOk(t.queues, agents, tiers[y]);
      assert tiers[y].queue == q ==> tiers[y].agentName in AgentsOf(tiers, q);
    }
    UniquePut(tiers, All(), TierPair(), x, tier);
    hide UniqueKey, AgentsOf;
  }

  lemma JoinAgents(tiers: map<Uuid, TierRow>, x: Uuid, tier: TierRow)
    requires x !in tiers
    ensures AgentsOf(tiers[x := tier], tier.queue) == AgentsOf(tiers, tier.queue) + {tier.agentName}
    ensures ReferencedAgents(tiers[x := tier]) == ReferencedAgents(tiers) + {tier.agent}
  {
    var tiers' := tiers[x := tier];
    assert tiers'[x] == tier;
    assert forall y :: y in tiers ==> tiers'[y] == tiers[y];
  }

  /** One agent joins queue `q`: its row is inserted when missing, then its tier. */
  lemma JoinAgent(t: Db, q: Uuid, agents: map<Uuid, AgentRow>, tiers: map<Uuid, TierRow>, a: Uuid, row: AgentRow,
      x: Uuid, tier: TierRow)
    requires WellFormed(t) && q in t.queues && TeamOk(t, agents, tiers)
    requires AgentFor(agents, t.queues[q].domain, row.agentId, a) && row.domain == t.queues[q].domain
    requires x !in tiers && row.agentId !in AgentsOf(tiers, q)
    requires tier.domain == t.queues[q].domain && tier.queue == q && tier.agent == a
    requires tier.queueName == t.queues[q].extension && tier.agentName == row.agentId
    ensures var agents', tiers' := NewAgents(agents, a, row), tiers[x := tier];
      && TeamOk(t, agents', tiers') && NoNewOrphans(agents, tiers, agents', tiers')
      && RowsKept(agents, agents', (r: AgentRow) => r.domain == t.queues[q].domain)
      && RowsKept(tiers, tiers', (r: TierRow) => r.queue == q)
      && AgentsOf(tiers', q) == AgentsOf(tiers, q) + {row.agentId}
  {
    var agents', tiers' := NewAgents(agents, a, row), tiers[x := tier];
    NewAgentsOk(t, q, agents, row.agentId, a, row);
    hide WellFormed, AgentsOk;
    assert TierRefOk(t.queues, agents', tier);
    NewTierOk(t, q, agents, agents', tiers, x, tier);
    JoinAgents(tiers, x, tier);
    hide TiersOk, AgentsOf, ReferencedAgents, TierRefOk, AgentFor;
  }

  function JoinCommands(a: Uuid, contact: string): seq<Command> {
    [AgentAdd(a), AgentContact(a, contact), AgentStatus(a)]
  }

  /** What is sent for one requested agent: its row when it is new, its tier when it is missing. */
  function JoinOne(a: Uuid, isNew: bool, missing: bool, d: string, number: string, ext: string): seq<Command> {
    (if isNew then JoinCommands(a, "user/" + ext + "@" + d) else [])
    + (if missing then [TierAdd(number, d, a, 1, 1)] else [])
  }

  /** What is sent for the requested agents in order: `ids` are their rows, `known` those that had
      a row before, `existing` those that already were in the queue. */
  function JoinList(desired: seq<string>, existing: set<string>, known: set<string>, ids: map<string, Uuid>, d: string,
      number: string): seq<Command>
    requires forall i :: 0 <= i < |desired| ==> desired[i] in ids
  {
    if desired == [] then []
    else
      var e := desired[|desired| - 1];
      JoinList(desired[..|desired| - 1], existing, known, ids, d, number)
          + JoinOne(ids[e], e !in known, e !in existing, d, number, e)
  }

  /** The agents of domain `du` that have a row. */
  function AgentNames(agents: map<Uuid, AgentRow>, du: Uuid): set<string> {
    set b | b in agents && agents[b].domain == du :: agents[b].agentId
  }

  /** `ids` gives the row of each agent in domain `du`. */
  ghost predicate IdsOk(ids: map<string, Uuid>, agents: map<Uuid, AgentRow>, du: Uuid) {
    forall e :: e in ids ==> ids[e] in agents && agents[ids[e]].agentId == e && agents[ids[e]].domain == du
  }

  /** Rows beyond `before` belong to agents in `prefix`, and who had a row keeps it. */
  ghost predicate OldRows(prefix: seq<string>, before: map<Uuid, AgentRow>, agents: map<Uuid, AgentRow>, du: Uuid,
      ids: map<string, Uuid>) {
    && (forall b :: b in agents && b !in before ==> agents[b].agentId in Elems(prefix))
    && (forall b :: b in before ==> b in agents && agents[b] == before[b])
    && (forall e :: e in ids && e in AgentNames(before, du) ==> ids[e] in before && before[ids[e]].domain == du)
  }

  // The commands for the agents in `prefix` are right; rows beyond `agents0` belong to them.
  ghost predicate Announced(prefix: seq<string>, existing: set<string>, agents0: map<Uuid, AgentRow>,
      agents: map<Uuid, AgentRow>, du: Uuid, ids: map<string, Uuid>, d: string, number: string, cmds: seq<Command>) {
    && ids.Keys == Elems(prefix) && IdsOk(ids, agents, du) && OldRows(prefix, agents0, agents, du, ids)
    && AgentNames(agents, du) == AgentNames(agents0, du) + Elems(prefix)
    && cmds == JoinList(prefix, existing, AgentNames(agents0, du), ids, d, number)
  }

  lemma {:induction false} JoinListSame(desired: seq<string>, existing: set<string>, known: set<string>,
      known': set<string>, ids: map<string, Uuid>, ids': map<string, Uuid>, d: string, number: string)
    requires forall i :: 0 <= i < |desired| ==>
      desired[i] in ids && desired[i] in ids' && ids'[desired[i]] == ids[desired[i]]
    requires forall i :: 0 <= i < |desired| ==> (desired[i] in known <==> desired[i] in known')
    ensures JoinList(desired, existing, known', ids', d, number) == JoinList(desired, existing, known, ids, d, number)
  {
    if desired != [] {
      JoinListSame(desired[..|desired| - 1], existing, known, known', ids, ids', d, number);
    }
  }

  lemma JoinListNext(prefix: seq<string>, existing: set<string>, known: set<string>, ids: map<string, Uuid>, d: string,
      number: string, ext: string, a: Uuid)
    requires ids.Keys == Elems(prefix) && ext !in Elems(prefix)
    ensures ids[ext := a].Keys == Elems(prefix + [ext]) == Elems(prefix) + {ext}
    ensures JoinList(prefix + [ext], existing, known, ids[ext := a], d, number)
         == JoinList(prefix, existing, known, ids, d, number)
             + JoinOne(a, ext !in known, ext !in existing, d, number, ext)
  {
    hide JoinOne;
    var next := prefix + [ext];
    JoinListSame(prefix, existing, known, known, ids, ids[ext := a], d, number);
    assert next[..|next| - 1] == prefix && next[|next| - 1] == ext;
  }

  lemma AnnouncedStart(existing: set<string>, agents: map<Uuid, AgentRow>, du: Uuid, d: string, number: string)
    ensures Announced([], existing, agents, agents, du, map[], d, number, [])
  {}

  lemma NamesPut(agents: map<Uuid, AgentRow>, agents': map<Uuid, AgentRow>, du: Uuid, ext: string, a: Uuid)
    requires a in agents' && agents'[a].agentId == ext && agents'[a].domain == du
    requires agents' == agents || (a !in agents && agents' == agents[a := agents'[a]])
    ensures AgentNames(agents', du) == AgentNames(agents, du) + {ext}
  {
    assert forall b :: b in agents ==> b in agents' && agents'[b] == agents[b];
  }

  lemma IdsPut(ids: map<string, Uuid>, agents: map<Uuid, AgentRow>, agents': map<Uuid, AgentRow>, du: Uuid,
      ext: string, a: Uuid)
    requires IdsOk(ids, agents, du) && a in agents' && agents'[a].agentId == ext && agents'[a].domain == du
    requires agents' == agents || (a !in agents && agents' == agents[a := agents'[a]])
    ensures IdsOk(ids[ext := a], agents', du)
  {}

  lemma OldRowsPut(prefix: seq<string>, before: map<Uuid, AgentRow>, agents: map<Uuid, AgentRow>,
      agents': map<Uuid, AgentRow>, du: Uuid, ids: map<string, Uuid>, ext: string, a: Uuid)
    requires OldRows(prefix, before, agents, du, ids) && ext !in Elems(prefix)
    requires a in agents' && agents'[a].agentId == ext && agents'[a].domain == du
    requires (ext in AgentNames(before, du) ==> a in agents)
    requires agents' == agents || (a !in agents && agents' == agents[a := agents'[a]])
    ensures OldRows(prefix + [ext], before, agents', du, ids[ext := a])
  {
    hide AgentNames;
    assert Elems(prefix + [ext]) == Elems(prefix) + {ext};
  }

  lemma AnnouncedStep(prefix: seq<string>, existing: set<string>, agents0: map<Uuid, AgentRow>,
      agents: map<Uuid, AgentRow>, du: Uuid, ids: map<string, Uuid>, d: string, number: string, cmds: seq<Command>,
      ext: string, a: Uuid, agents': map<Uuid, AgentRow>)
    requires Announced(prefix, existing, agents0, agents, du, ids, d, number, cmds) && ext !in Elems(prefix)
    requires a in agents' && agents'[a].agentId == ext && agents'[a].domain == du
    requires agents' == agents || (a !in agents && agents' == agents[a := agents'[a]])
    requires ext in AgentNames(agents, du) ==> a in agents
    ensures Announced(prefix + [ext], existing, agents0, agents', du, ids[ext := a], d, number,
                      cmds + JoinOne(a, ext !in AgentNames(agents, du), ext !in existing, d, number, ext))
  {
    hide JoinOne, AgentNames, IdsOk, JoinList, Elems, OldRows;
    NamesPut(agents, agents', du, ext, a);
    IdsPut(ids, agents, agents', du, ext, a);
    OldRowsPut(prefix, agents0, agents, agents', du, ids, ext, a);
    JoinListNext(prefix, existing, AgentNames(agents0, du), ids, d, number, ext, a);
  }

  // What holds once the agents in `done` have joined; the tables were `agents0` and `tiers0` before.
  ghost predicate Adding(t: Db, q: Uuid, agents0: map<Uuid, AgentRow>, tiers0: map<Uuid, TierRow>, done: set<string>,
      agents: map<Uuid, AgentRow>, tiers: map<Uuid, TierRow>)
    requires q in t.queues
  {
    && TeamOk(t, agents, tiers) && OthersTeamKept(t, agents, tiers, q)
    && NoNewOrphans(t.agents, t.tiers, agents, tiers)
    && AgentsOf(tiers, q) == AgentsOf(tiers0, q) + done
  }

  lemma HasAgentRow(t: Db, q: Uuid, agents: map<Uuid, AgentRow>, tiers: map<Uuid, TierRow>, ext: string, a: Uuid)
    requires q in t.queues && TeamOk(t, agents, tiers) && ext in AgentsOf(tiers, q)
    requires AgentFor(agents, t.queues[q].domain, ext, a)
    ensures a in agents
  {
    hide AgentsOk, UniqueKey;
    var x :| x in tiers && tiers[x].queue == q && tiers[x].agentName == ext;
    assert TierRefOk(t.queues, agents, tiers[x]);
  }

  lemma AddingStep(t: Db, q: Uuid, agents0: map<Uuid, AgentRow>, tiers0: map<Uuid, TierRow>, done: set<string>,
      agents: map<Uuid, AgentRow>, tiers: map<Uuid, TierRow>, a: Uuid, row: AgentRow, x: Uuid, tier: TierRow)
    requires WellFormed(t) && q in t.queues && Adding(t, q, agents0, tiers0, done, agents, tiers)
    requires AgentFor(agents, t.queues[q].domain, row.agentId, a) && row.domain == t.queues[q].domain
    requires row.agentId !in done && x !in tiers
    requires tier.domain == t.queues[q].domain && tier.queue == q && tier.agent == a
    requires tier.queueName == t.queues[q].extension && tier.agentName == row.agentId
    ensures if row.agentId in AgentsOf(tiers0, q) then a in agents
        && Adding(t, q, agents0, tiers0, done + {row.agentId}, agents, tiers)
            else Adding(t, q, agents0, tiers0, done + {row.agentId}, NewAgents(agents, a, row), tiers[x := tier])
  {
    if row.agentId in AgentsOf(tiers0, q) {
      HasAgentRow(t, q, agents, tiers, row.agentId, a);
      hide TeamOk, OthersTeamKept, NoNewOrphans, AgentFor, WellFormed, AgentsOf;
      assert AgentsOf(tiers0, q) + (done + {row.agentId}) == AgentsOf(tiers0, q) + done;
    } else {
      JoinAgent(t, q, agents, tiers, a, row, x, tier);
      TeamStep(t, q, agents, tiers, NewAgents(agents, a, row), tiers[x := tier]);
      hide TeamOk, OthersTeamKept, NoNewOrphans, AgentFor, WellFormed, AgentsOf, RowsKept;
    }
  }

  /** One pass of the loop over the requested agents. */
  method AddAgent(t: Db, q: Uuid, d: string, ghost agents0: map<Uuid, AgentRow>, ghost tiers0: map<Uuid, TierRow>,
      ghost done: set<string>, agents: map<Uuid, AgentRow>, tiers: map<Uuid, TierRow>, ext: string, present: bool)
    returns (agents': map<Uuid, AgentRow>, tiers': map<Uuid, TierRow>, cmds: seq<Command>, a: Uuid)
    requires WellFormed(t) && q in t.queues && Adding(t, q, agents0, tiers0, done, agents, tiers)
    requires ext !in done && (present <==> ext in AgentsOf(tiers0, q))
    ensures Adding(t, q, agents0, tiers0, done + {ext}, agents', tiers')
    ensures a in agents' && agents'[a].agentId == ext && agents'[a].domain == t.queues[q].domain
    ensures agents' == agents || (a !in agents && agents' == agents[a := agents'[a]])
    ensures cmds == JoinOne(a, ext !in AgentNames(agents, t.queues[q].domain), !present, d, t.queues[q].extension, ext)
    ensures ext in AgentNames(agents, t.queues[q].domain) ==> a in agents
    ensures if present then agents' == agents && tiers' == tiers && cmds == [] else cmds != []
    ensures TeamFits(agents, tiers, agents', tiers', t.queues[q].domain, d)
  {
    hide WellFormed, Adding, AgentsOf;
    var number, du := t.queues[q].extension, t.queues[q].domain;
    var row := AgentRow(du, ext, ext, "user/" + ext + "@" + d);
    agents', tiers', cmds := agents, tiers, [];
    if b :| b in agents && agents[b].domain == du && agents[b].agentId == ext {
      a := b;
    } else {
      a := Fresh(agents);
      agents' := agents[a := row];
      cmds := cmds + JoinCommands(a, row.contact);
    }
    var x := Fresh(tiers);
    var tier := TierRow(du, q, a, number, ext, 1, 1);
    AddingStep(t, q, agents0, tiers0, done, agents, tiers, a, row, x, tier);
    if !present {
      tiers' := tiers[x := tier];
      cmds := cmds + [TierAdd(number, d, a, 1, 1)];
    }
  }

  /** Insert the missing agents and tiers of queue `q`, in the requested order. */
  method AddAgents(t: Db, q: Uuid, d: string, agents0: map<Uuid, AgentRow>, tiers0: map<Uuid, TierRow>,
      desired: seq<string>, existing: set<string>)
    returns (agents: map<Uuid, AgentRow>, tiers: map<Uuid, TierRow>, cmds: seq<Command>, ghost ids: map<string, Uuid>)
    requires WellFormed(t) && q in t.queues && Distinct(desired)
    requires Adding(t, q, agents0, tiers0, {}, agents0, tiers0)
    requires AgentsOf(tiers0, q) == existing * Elems(desired)
    ensures Adding(t, q, agents0, tiers0, Elems(desired), agents, tiers)
    ensures Announced(desired, existing, agents0, agents, t.queues[q].domain, ids, d, t.queues[q].extension, cmds)
    ensures if Elems(desired) <= existing then agents == agents0 && tiers == tiers0 && cmds == [] else cmds != []
    ensures TeamFits(agents0, tiers0, agents, tiers, t.queues[q].domain, d)
  {
    agents, tiers, cmds, ids := agents0, tiers0, [], map[];
    ghost var number, du := t.queues[q].extension, t.queues[q].domain;
    AnnouncedStart(existing, agents, du, d, number);
    ElemsEnds(desired);
    TeamFitsRefl(agents, tiers, du, d);
    hide *;
    for i := 0 to |desired|
      invariant Adding(t, q, agents0, tiers0, Elems(desired[..i]), agents, tiers)
      invariant Announced(desired[..i], existing, agents0, agents, du, ids, d, number, cmds)
      invariant TeamFits(agents0, tiers0, agents, tiers, du, d)
      invariant cmds == [] ==> agents == agents0 && tiers == tiers0
      invariant cmds == [] <==> Elems(desired[..i]) <= existing
    {
      ElemsNext(desired, i);
      var ext := desired[i];
      assert ext in existing <==> ext in AgentsOf(tiers0, q);
      var agents', tiers', more, a := AddAgent(t, q, d, agents0, tiers0, Elems(desired[..i]), agents, tiers, ext,
        ext in existing);
      AnnouncedStep(desired[..i], existing, agents0, agents, du, ids, d, number, cmds, ext, a, agents');
      TeamFitsTrans(agents0, tiers0, agents, tiers, agents', tiers', du, d);
      agents, tiers, cmds, ids := agents', tiers', cmds + more, ids[ext := a];
    }
  }

  lemma ElemsEnds(s: seq<string>)
    ensures s[..0] == [] && s[..|s|] == s && Elems(s[..0]) == {}
  {
    assert s[..|s|] == s;
  }

  // ------------------------------------------------------------ whole queues

  function WithQueue(v: View, d: string, number: string, strategy: string, agents: set<string>): View {
    v.(queues := v.queues[Key(d, number) := QueueState(strategy, agents)])
  }

  function PutQueue(v: View, d: string, number: string, strategy: string, agents: set<string>): View {
    PutPlan(WithQueue(WithDomain(v, d), d, number, strategy, agents), d,
            FeatureName(CallQueue, d, number), QueueXml(FeatureName(CallQueue, d, number), d, number), QueueTag(d))
  }

  /** Nothing happens for a domain without a row, not even to a dialplan left behind. */
  function DropQueue(v: View, d: string, number: string): View {
    if d !in v.domains then v
    else DropPlan(v.(queues := v.queues - {Key(d, number)}), FeatureName(CallQueue, d, number))
  }

  lemma PutQueueRow(t: Db, v: View, q: Uuid, row: QueueRow, d: string)
    requires WellFormed(t) && Shows(t, v) && OfDomain(t.domains, row.domain, d)
    requires Takes(t.queues, All(), QueueKey(t.domains), q, row)
    requires q in t.queues ==> t.queues[q].domain == row.domain && t.queues[q].extension == row.extension
    ensures var t' := t.(queues := t.queues[q := row]);
      && WellFormed(t') && OthersKept(t, t', d) && OtherQueuesKept(t, t', d, row.extension)
      && Shows(t', WithQueue(v, d, row.extension, row.strategy, AgentsOf(t.tiers, q)))
  {
    hide UniqueKey, IsIndex, RowsKept, DomainsOk, ExtensionsOk, VoicemailsOk, AgentsOk;
    UniquePut(t.queues, All(), QueueKey(t.domains), q, row);
    IndexPut(t.queues, All(), QueueKey(t.domains), QueueVal(t.tiers), v.queues, q, row);
    RowsKeptPut(t.queues, q, row, QueueMine(t.domains, d));
    RowsKeptPut(t.queues, q, row, QueueRowAt(d, row.extension, t.domains));
    RowsKeptRefl(t.tiers, TierOfQueue(d, row.extension, t.domains));
    SameRowsKept(t, t.domains, d);
    TierRefsKept(t, q, row);
    hide TierRefOk, AgentsOf;
  }

  lemma TierRefsKept(t: Db, q: Uuid, row: QueueRow)
    requires TiersOk(t.queues, t.agents, t.tiers)
    requires q in t.queues ==> t.queues[q].domain == row.domain && t.queues[q].extension == row.extension
    ensures TiersOk(t.queues[q := row], t.agents, t.tiers)
  {
    hide UniqueKey;
  }

  lemma NoTiersYet(t: Db, q: Uuid)
    requires WellFormed(t) && q !in t.queues
    ensures AgentsOf(t.tiers, q) == {}
  {
    hide UniqueKey, ExtensionsOk, VoicemailsOk, AgentsOk;
    assert forall x :: x in t.tiers ==> TierRefOk(t.queues, t.agents, t.tiers[x]);
  }

  lemma QueueKnown(t: Db, v: View, q: Uuid, d: string)
    requires WellFormed(t) && Shows(t, v) && q in t.queues && OfDomain(t.domains, t.queues[q].domain, d)
    ensures var key := Key(d, t.queues[q].extension);
      key in v.queues && v.queues[key] == QueueState(t.queues[q].strategy, AgentsOf(t.tiers, q))
  {
    hide AgentsOf, UniqueKey;
  }

  lemma QueueUnknown(t: Db, v: View, du: Uuid, d: string, number: string)
    requires WellFormed(t) && Shows(t, v) && OfDomain(t.domains, du, d)
    requires forall q :: q in t.queues ==> !(t.queues[q].domain == du && t.queues[q].extension == number)
    ensures Key(d, number) !in v.queues
    ensures forall q, row: QueueRow :: q !in t.queues && row.domain == du && row.extension == number ==>
      Takes(t.queues, All(), QueueKey(t.domains), q, row)
  {
    hide AgentsOf, UniqueKey;
  }

  lemma OtherQueuesTrans(a: Db, b: Db, c: Db, d: string, number: string)
    requires OtherQueuesKept(a, b, d, number) && OtherQueuesKept(b, c, d, number)
    requires Extends(b.domains, c.domains)
    ensures OtherQueuesKept(a, c, d, number)
  {
    RowsKeptTrans(a.queues, b.queues, c.queues, QueueRowAt(d, number, b.domains), QueueRowAt(d, number, c.domains));
    RowsKeptTrans(a.tiers, b.tiers, c.tiers, TierOfQueue(d, number, b.domains), TierOfQueue(d, number, c.domains));
    hide RowsKept;
  }

  lemma OtherQueuesSame(a: Db, b: Db, d: string, number: string)
    requires b.queues == a.queues && b.tiers == a.tiers
    ensures OtherQueuesKept(a, b, d, number)
  {
    RowsKeptRefl(a.queues, QueueRowAt(d, number, b.domains));
    RowsKeptRefl(a.tiers, TierOfQueue(d, number, b.domains));
    hide RowsKept;
  }

  /** Select or insert the queue row and give it the strategy. */
  method EnsureQueueRow(t: Db, ghost v: View, d: string, du: Uuid, number: string, strategy: string)
    returns (t': Db, q: Uuid, inserted: bool, restyled: bool)
    requires WellFormed(t) && Shows(t, v) && OfDomain(t.domains, du, d)
    ensures WellFormed(t') && OthersKept(t, t', d) && OtherQueuesKept(t, t', d, number)
    ensures t' == t.(queues := t'.queues) && q in t'.queues
    ensures t'.queues[q].domain == du && t'.queues[q].extension == number && t'.queues[q].strategy == strategy
    ensures Shows(t', WithQueue(v, d, number, strategy, AgentsOf(t.tiers, q)))
    ensures inserted <==> Key(d, number) !in v.queues
    ensures restyled <==> !inserted && v.queues[Key(d, number)].strategy != strategy
    ensures !inserted ==> v.queues[Key(d, number)].agents == AgentsOf(t.tiers, q)
    ensures !inserted && !restyled ==> t' == t
    ensures inserted ==> AgentsOf(t.tiers, q) == {}
    ensures NewQueuesNamed(t, t')
  {
    hide WellFormed, Shows, OthersKept, OtherQueuesKept, AgentsOf;
    if u :| u in t.queues && t.queues[u].domain == du && t.queues[u].extension == number {
      q := u;
      QueueKnown(t, v, q, d);
      inserted, restyled := false, t.queues[q].strategy != strategy;
      PutQueueRow(t, v, q, t.queues[q].(strategy := strategy), d);
      assert !restyled ==> t.queues[q := t.queues[q].(strategy := strategy)] == t.queues;
      if restyled {
        t' := t.(queues := t.queues[q := t.queues[q].(strategy := strategy)]);
      } else {
        t' := t;
      }
    } else {
      QueueUnknown(t, v, du, d, number);
      q := Fresh(t.queues);
      inserted, restyled := true, false;
      t' := t.(queues := t.queues[q := QueueRow(du, number, number, strategy)]);
      PutQueueRow(t, v, q, QueueRow(du, number, number, strategy), d);
      NoTiersYet(t, q);
    }
  }

  lemma KeptAgents(tiers: map<Uuid, TierRow>, q: Uuid, keep: set<string>, tiers': map<Uuid, TierRow>)
    requires KeptTiers(tiers, q, keep, {}, tiers')
    ensures AgentsOf(tiers', q) == AgentsOf(tiers, q) * keep
    ensures tiers' == tiers ==> AgentsOf(tiers, q) <= keep
  {
    forall a | a in AgentsOf(tiers, q) * keep ensures a in AgentsOf(tiers', q) {
      var x :| x in tiers && tiers[x].queue == q && tiers[x].agentName == a;
      assert x in tiers';
    }
    forall a | a in AgentsOf(tiers', q) ensures a in AgentsOf(tiers, q) * keep {
      var x :| x in tiers' && tiers'[x].queue == q && tiers'[x].agentName == a;
      assert x in tiers;
    }
  }

  lemma AddingStart(t: Db, q: Uuid, agents: map<Uuid, AgentRow>, tiers: map<Uuid, TierRow>)
    requires q in t.queues && TeamOk(t, agents, tiers) && OthersTeamKept(t, agents, tiers, q)
    requires NoNewOrphans(t.agents, t.tiers, agents, tiers)
    ensures Adding(t, q, agents, tiers, {}, agents, tiers)
  {
    hide TeamOk, OthersTeamKept, NoNewOrphans;
  }

  lemma Install(t: Db, v: View, d: string, q: Uuid, agents: map<Uuid, AgentRow>, tiers: map<Uuid, TierRow>)
    requires WellFormed(t) && Shows(t, v) && q in t.queues && OfDomain(t.domains, t.queues[q].domain, d)
    requires TeamOk(t, agents, tiers) && OthersTeamKept(t, agents, tiers, q)
    ensures var t' := t.(agents := agents, tiers := tiers);
      && WellFormed(t') && OthersKept(t, t', d) && OtherQueuesKept(t, t', d, t.queues[q].extension)
      && Shows(t', WithQueue(v, d, t.queues[q].extension, t.queues[q].strategy, AgentsOf(tiers, q)))
  {
    TeamShows(t, v, q, agents, tiers);
    TeamOthers(t, d, q, agents, tiers);
    hide Shows, OthersKept, OtherQueuesKept, OthersTeamKept, AgentsOk, TiersOk, AgentsOf, ExtensionsOk, VoicemailsOk;
    hide UniqueKey;
  }

  /** Give queue `q` exactly the requested agents. */
  method SetAgents(t: Db, ghost v: View, d: string, q: Uuid, desired: seq<string>) returns (t': Db, cmds: seq<Command>,
      removed: bool, ghost ids: map<string, Uuid>)
    requires WellFormed(t) && Shows(t, v) && q in t.queues && OfDomain(t.domains, t.queues[q].domain, d)
    requires Distinct(desired)
    ensures WellFormed(t') && OthersKept(t, t', d) && OtherQueuesKept(t, t', d, t.queues[q].extension)
    ensures t' == t.(agents := t'.agents, tiers := t'.tiers)
    ensures Shows(t', WithQueue(v, d, t.queues[q].extension, t.queues[q].strategy, Elems(desired)))
    ensures NoNewOrphans(t.agents, t.tiers, t'.agents, t'.tiers)
    ensures removed <==> !(AgentsOf(t.tiers, q) <= Elems(desired))
    ensures cmds == [] <==> Elems(desired) <= AgentsOf(t.tiers, q)
    ensures !removed && cmds == [] ==> t' == t
    ensures JoinedIn(t.queues[q], t.agents, t'.agents, AgentsOf(t.tiers, q), d, desired, ids, cmds)
    ensures NewRowsFit(t, t', d)
  {
    hide WellFormed, Shows, OthersKept, OtherQueuesKept, OthersTeamKept, TeamOk, NoNewOrphans, KeptTiers, KeptRows;
    hide AgentsOf, Elems, Distinct, Announced, AgentNames, IdsOk, TeamFits, NewRowsFit;
    var existing := AgentsOf(t.tiers, q);
    var agents, tiers;
    agents, tiers, removed := RemoveTiers(t, q, Elems(desired));
    KeptAgents(t.tiers, q, Elems(desired), tiers);
    AddingStart(t, q, agents, tiers);
    KeptFits(t, q, Elems(desired), agents, tiers, t.queues[q].domain, d);
    ghost var left, leftTiers := agents, tiers;
    agents, tiers, cmds, ids := AddAgents(t, q, d, agents, tiers, desired, existing);
    JoinedFrom(t.agents, left, agents, t.queues[q].domain, desired, existing, ids, d, t.queues[q].extension, cmds);
    assert AgentsOf(tiers, q) == Elems(desired);
    Install(t, v, d, q, agents, tiers);
    TeamFitsTrans(t.agents, t.tiers, left, leftTiers, agents, tiers, t.queues[q].domain, d);
    t' := t.(agents := agents, tiers := tiers);
    NewRowsFrom(t, t', t.queues[q].domain, d);
  }

  /** `ids` are the agents' rows, and `cmds` announces those that were missing in the queue. */
  ghost predicate JoinedIn(row: QueueRow, before: map<Uuid, AgentRow>, agents: map<Uuid, AgentRow>,
      existing: set<string>, d: string, desired: seq<string>, ids: map<string, Uuid>, cmds: seq<Command>) {
    && ids.Keys == Elems(desired) && IdsOk(ids, agents, row.domain)
    && cmds == JoinList(desired, existing, AgentNames(before, row.domain), ids, d, row.extension)
    && (forall e :: e in ids && e in AgentNames(before, row.domain) ==>
         ids[e] in before && before[ids[e]].domain == row.domain)
  }

  lemma JoinedFrom(before: map<Uuid, AgentRow>, left: map<Uuid, AgentRow>, agents: map<Uuid, AgentRow>, du: Uuid,
      desired: seq<string>, existing: set<string>, ids: map<string, Uuid>, d: string, number: string,
      cmds: seq<Command>)
    requires KeptRows(before, Elems(desired), left)
    requires Announced(desired, existing, left, agents, du, ids, d, number, cmds)
    ensures ids.Keys == Elems(desired) && IdsOk(ids, agents, du)
    ensures cmds == JoinList(desired, existing, AgentNames(before, du), ids, d, number)
    ensures forall e :: e in ids && e in AgentNames(before, du) ==> ids[e] in before && before[ids[e]].domain == du
  {
    KeptNames(before, Elems(desired), left, du);
    assert forall i :: 0 <= i < |desired| ==> desired[i] in Elems(desired);
    hide AgentNames, IdsOk, KeptRows;
    JoinListSame(desired, existing, AgentNames(left, du), AgentNames(before, du), ids, ids, d, number);
  }

  /** The agents a queue had. */
  function OldAgents(v: View, d: string, number: string): set<string> {
    if Key(d, number) in v.queues then v.queues[Key(d, number)].agents else {}
  }

  /** A changed strategy or a lost agent makes the runtime drop the queue and load it again. */
  predicate Reloads(v: View, d: string, number: string, strategy: string, desired: set<string>) {
    && Key(d, number) in v.queues
    && (v.queues[Key(d, number)].strategy != strategy || !(OldAgents(v, d, number) <= desired))
  }

  /** The commands of one ensure_queue, in order. */
  function QueueCommands(isNew: bool, reload: bool, d: string, number: string, joins: seq<Command>): seq<Command> {
    var cmds := (if isNew then [QueueLoad(number, d)] else []) + joins;
    if reload then [QueueUnload(number, d)] + cmds + [QueueLoad(number, d)] else cmds
  }

  /** The agents of domain `d` that have a row. */
  ghost function KnownAgents(t: Db, d: string): set<string> {
    set b | b in t.agents && OfDomain(t.domains, t.agents[b].domain, d) :: t.agents[b].agentId
  }

  /** `ids` are the agents' rows in domain `d`, and `cmds` what has to be sent for them. */
  ghost predicate Sends(v: View, t: Db, t': Db, d: string, number: string, desired: seq<string>, strategy: string,
      cmds: seq<Command>, ids: map<string, Uuid>) {
    && ids.Keys == Elems(desired)
    && (forall e :: e in ids ==>
         ids[e] in t'.agents && t'.agents[ids[e]].agentId == e && OfDomain(t'.domains, t'.agents[ids[e]].domain, d))
    && (forall e :: e in ids && e in KnownAgents(t, d) ==>
         ids[e] in t.agents && OfDomain(t.domains, t.agents[ids[e]].domain, d))
    && cmds == QueueCommands(Key(d, number) !in v.queues, Reloads(v, d, number, strategy, Elems(desired)), d, number,
                             JoinList(desired, OldAgents(v, d, number), KnownAgents(t, d), ids, d, number))
  }

  ghost predicate QueueAnnounced(v: View, t: Db, t': Db, d: string, number: string, desired: seq<string>,
      strategy: string, cmds: seq<Command>) {
    exists ids :: Sends(v, t, t', d, number, desired, strategy, cmds, ids)
  }

  lemma KnownIn(t: Db, t1: Db, d: string, du: Uuid)
    requires WellFormed(t) && WellFormed(t1) && Extends(t.domains, t1.domains) && t1.agents == t.agents
    requires OfDomain(t1.domains, du, d)
    ensures KnownAgents(t, d) == AgentNames(t1.agents, du)
    ensures forall a :: a in t.agents && t.agents[a].domain == du ==> OfDomain(t.domains, du, d)
  {
    AgentsHoused(t);
    hide UniqueKey, ExtensionsOk, VoicemailsOk, CallCenterOk;
    assert forall b :: b in t.agents ==> (OfDomain(t.domains, t.agents[b].domain, d) <==> t.agents[b].domain == du);
  }

  lemma ReloadsIff(v: View, d: string, number: string, strategy: string, desired: set<string>, existing: set<string>,
      inserted: bool, restyled: bool, removed: bool)
    requires inserted <==> Key(d, number) !in v.queues
    requires restyled <==> !inserted && v.queues[Key(d, number)].strategy != strategy
    requires if inserted then existing == {} else v.queues[Key(d, number)].agents == existing
    requires removed <==> !(existing <= desired)
    ensures restyled || removed <==> Reloads(v, d, number, strategy, desired)
    ensures existing == OldAgents(v, d, number)
  {}

  lemma SendsFrom(v: View, t: Db, t': Db, d: string, du: Uuid, number: string, desired: seq<string>, strategy: string,
      isNew: bool, reload: bool, joins: seq<Command>, ids: map<string, Uuid>, row: QueueRow)
    requires KnownAgents(t, d) == AgentNames(t.agents, du) && OfDomain(t'.domains, du, d)
    requires forall a :: a in t.agents && t.agents[a].domain == du ==> OfDomain(t.domains, du, d)
    requires row.domain == du && row.extension == number
    requires JoinedIn(row, t.agents, t'.agents, OldAgents(v, d, number), d, desired, ids, joins)
    requires isNew <==> Key(d, number) !in v.queues
    requires reload <==> Reloads(v, d, number, strategy, Elems(desired))
    ensures QueueAnnounced(v, t, t', d, number, desired, strategy, QueueCommands(isNew, reload, d, number, joins))
  {
    hide JoinList, KnownAgents, AgentNames, Reloads, OldAgents;
    assert Sends(v, t, t', d, number, desired, strategy, QueueCommands(isNew, reload, d, number, joins), ids);
  }

  lemma AgentsHoused(t: Db)
    requires WellFormed(t)
    ensures forall b :: b in t.agents ==> t.agents[b].domain in t.domains
  {
    hide UniqueKey, ExtensionsOk, VoicemailsOk, TiersOk, QueuesOk, DomainsOk;
  }

  lemma PutQueueSame(v: View, d: string, number: string, strategy: string, agents: set<string>)
    ensures var w := PutQueue(v, d, number, strategy, agents);
      var name := FeatureName(CallQueue, d, number);
      && (w.queues == v.queues <==>
           Key(d, number) in v.queues && v.queues[Key(d, number)] == QueueState(strategy, agents))
      && (w.plans == v.plans <==> name in v.plans && v.plans[name].xml == QueueXml(name, d, number))
  {
    var w := PutQueue(v, d, number, strategy, agents);
    assert w.queues[Key(d, number)] == QueueState(strategy, agents);
    assert w.plans[FeatureName(CallQueue, d, number)].xml == QueueXml(FeatureName(CallQueue, d, number), d, number);
  }

  lemma OthersChain(t: Db, t1: Db, t2: Db, t3: Db, d: string, number: string)
    requires OthersKept(t, t1, d) && OthersKept(t1, t2, d) && OthersKept(t2, t3, d)
    requires t1 == t.(domains := t1.domains) && t2.domains == t1.domains == t3.domains
    requires OtherQueuesKept(t1, t2, d, number) && OtherQueuesKept(t2, t3, d, number)
    ensures OthersKept(t, t3, d) && OtherQueuesKept(t, t3, d, number)
  {
    OtherQueuesSame(t, t1, d, number);
    hide OthersKept, OtherQueuesKept;
    OthersKeptTrans(t, t1, t2, d);
    OthersKeptTrans(t, t2, t3, d);
    OtherQueuesTrans(t, t1, t2, d, number);
    OtherQueuesTrans(t, t2, t3, d, number);
  }

  /** The queue's row, agents and tiers, and the commands that announce them. */
  method EnsureTeam(t: Db, ghost v: View, d: string, number: string, desired: seq<string>, strategy: string)
    returns (t': Db, cmds: seq<Command>, changed: bool)
    requires WellFormed(t) && Shows(t, v) && Distinct(desired)
    ensures WellFormed(t') && Shows(t', WithQueue(WithDomain(v, d), d, number, strategy, Elems(desired)))
    ensures OthersKept(t, t', d) && OtherQueuesKept(t, t', d, number)
    ensures t'.extensions == t.extensions && t'.dialplans == t.dialplans
    ensures NoNewOrphans(t.agents, t.tiers, t'.agents, t'.tiers)
    ensures changed <==>
            !(Key(d, number) in v.queues && v.queues[Key(d, number)] == QueueState(strategy, Elems(desired)))
    ensures !changed ==> cmds == [] && t' == t.(domains := t'.domains)
    ensures d in v.domains && !changed ==> t' == t
    ensures QueueAnnounced(v, t, t', d, number, desired, strategy, cmds)
    ensures NewRowsFit(t, t', d) && NewQueuesNamed(t, t')
  {
    hide WellFormed, Shows, OthersKept, OtherQueuesKept, NoNewOrphans, AgentsOf, Elems, Distinct, JoinedIn;
    hide AgentNames, KnownAgents, QueueAnnounced, Reloads, OldAgents, NewRowsFit, NewQueuesNamed;
    var t1, du := EnsureDomainRow(t, v, d);
    ghost var v1 := WithDomain(v, d);
    var t2, q, inserted, restyled := EnsureQueueRow(t1, v1, d, du, number, strategy);
    ghost var v2 := WithQueue(v1, d, number, strategy, AgentsOf(t1.tiers, q));
    var joins, removed;
    ghost var ids;
    t', joins, removed, ids := SetAgents(t2, v2, d, q, desired);
    assert WithQueue(v2, d, number, strategy, Elems(desired)) == WithQueue(v1, d, number, strategy, Elems(desired));
    changed := inserted || restyled || removed || joins != [];
    cmds := (if inserted then [QueueLoad(number, d)] else []) + joins;
    if restyled || removed {
      cmds := [QueueUnload(number, d)] + cmds + [QueueLoad(number, d)];
    }
    KnownIn(t, t1, d, du);
    ReloadsIff(v, d, number, strategy, Elems(desired), AgentsOf(t1.tiers, q), inserted, restyled, removed);
    SendsFrom(v, t, t', d, du, number, desired, strategy, inserted, restyled || removed, joins, ids, t2.queues[q]);
    OthersChain(t, t1, t2, t', d, number);
    RowsFitFrom(t, t2, t', d);
    NamedFrom(t, t1, t2, t');
  }

  /** The whole ensure-queue transaction on a working copy; `desired` holds the de-duplicated agents. */
  method EnsureQueueRows(t: Db, ghost v: View, d: string, number: string, desired: seq<string>, strategy: string)
    returns (t': Db, cmds: seq<Command>, changed: bool)
    requires WellFormed(t) && Shows(t, v) && Distinct(desired)
    ensures WellFormed(t') && Shows(t', PutQueue(v, d, number, strategy, Elems(desired)))
    ensures OthersKept(t, t', d) && OtherQueuesKept(t, t', d, number)
    ensures t'.extensions == t.extensions && PlansKept(t, t', iset{FeatureName(CallQueue, d, number)})
    ensures NoNewOrphans(t.agents, t.tiers, t'.agents, t'.tiers)
    ensures var w := PutQueue(v, d, number, strategy, Elems(desired));
      && (changed <==> w.queues != v.queues || w.plans != v.plans)
      && (w.queues == v.queues ==> cmds == [])
      && (w == v ==> t' == t)
    ensures QueueAnnounced(v, t, t', d, number, desired, strategy, cmds)
    ensures NewRowsFit(t, t', d) && NewQueuesNamed(t, t')
    ensures PlanRowFits(t, t', FeatureName(CallQueue, d, number), number, 53)
  {
    hide WellFormed, Shows, OthersKept, OtherQueuesKept, NoNewOrphans, Elems, Distinct, FeatureName, PlansKept;
    hide QueueAnnounced, AgentFits, TierFits;
    ghost var v3 := WithQueue(WithDomain(v, d), d, number, strategy, Elems(desired));
    var t3;
    t3, cmds, changed := EnsureTeam(t, v, d, number, desired, strategy);
    var name := FeatureName(CallQueue, d, number);
    var replanned;
    t', replanned := EnsureDialplanRow(t3, v3, d, name, number, 53, QueueXml(name, d, number), QueueTag(d));
    SamePlansKept(t, t3, iset{name});
    PlansKeptTrans(t, t3, t', iset{name}, iset{name});
    OthersKeptTrans(t, t3, t', d);
    OtherQueuesSame(t3, t', d, number);
    OtherQueuesTrans(t, t3, t', d, number);
    SameAnnounced(v, t, t3, t', d, number, desired, strategy, cmds);
    PutQueueSame(v, d, number, strategy, Elems(desired));
    PutPlanSame(v3, d, name, QueueXml(name, d, number), QueueTag(d));
    changed := changed || replanned;
  }

  lemma SameAnnounced(v: View, t: Db, t3: Db, t': Db, d: string, number: string, desired: seq<string>,
      strategy: string, cmds: seq<Command>)
    requires QueueAnnounced(v, t, t3, d, number, desired, strategy, cmds) && t' == t3.(dialplans := t'.dialplans)
    ensures QueueAnnounced(v, t, t', d, number, desired, strategy, cmds)
  {
    hide JoinList, KnownAgents, Reloads, OldAgents;
    var ids :| Sends(v, t, t3, d, number, desired, strategy, cmds, ids);
    assert Sends(v, t, t', d, number, desired, strategy, cmds, ids);
  }

  // ---------------------------------------------------------- deleting queues

  function WithoutTiers(tiers: map<Uuid, TierRow>, q: Uuid): map<Uuid, TierRow> {
    map x | x in tiers && tiers[x].queue != q :: tiers[x]
  }

  // What holds while the agents in `todo` are still to be checked for references.
  ghost predicate Cleaning(t: Db, q: Uuid, tiers: map<Uuid, TierRow>, todo: set<Uuid>, agents: map<Uuid, AgentRow>)
    requires q in t.queues
  {
    && AgentsOk(t.domains, agents) && TiersOk(t.queues - {q}, agents, tiers)
    && RowsKept(t.agents, agents, (r: AgentRow) => r.domain == t.queues[q].domain)
    && agents.Keys - ReferencedAgents(tiers) - todo <= t.agents.Keys - ReferencedAgents(t.tiers)
    && todo <= ReferencedAgents(t.tiers)
    && (forall a :: a in todo && a in t.agents ==> t.agents[a].domain == t.queues[q].domain)
    && (forall a :: a in agents ==> a in t.agents && agents[a] == t.agents[a])
  }

  lemma CleaningStart(t: Db, q: Uuid)
    requires WellFormed(t) && q in t.queues
    ensures Cleaning(t, q, WithoutTiers(t.tiers, q),
                     set x | x in t.tiers && t.tiers[x].queue == q :: t.tiers[x].agent, t.agents)
  {
    hide ExtensionsOk, VoicemailsOk, DomainsOk;
    var tiers := WithoutTiers(t.tiers, q);
    var todo := set x | x in t.tiers && t.tiers[x].queue == q :: t.tiers[x].agent;
    assert TiersOk(t.queues - {q}, t.agents, tiers) by {
      assert forall x :: x in tiers ==> TierRefOk(t.queues, t.agents, t.tiers[x]);
    }
    forall a | a in todo && a in t.agents ensures t.agents[a].domain == t.queues[q].domain {
      var x :| x in t.tiers && t.tiers[x].queue == q && t.tiers[x].agent == a;
      assert TierRefOk(t.queues, t.agents, t.tiers[x]);
    }
    forall a | a in t.agents && a !in ReferencedAgents(tiers) && a !in todo ensures a !in ReferencedAgents(t.tiers) {
      assert forall x :: x in t.tiers && t.tiers[x].agent == a ==> x in tiers || a in todo;
      assert forall x :: x in tiers ==> tiers[x].agent in ReferencedAgents(tiers);
    }
  }

  lemma CleaningStep(t: Db, q: Uuid, tiers: map<Uuid, TierRow>, todo: set<Uuid>, agents: map<Uuid, AgentRow>, a: Uuid)
    requires q in t.queues && Cleaning(t, q, tiers, todo, agents) && a in todo
    ensures Cleaning(t, q, tiers, todo - {a}, if Refs(tiers, a) == {} then agents - {a} else agents)
  {
    if Refs(tiers, a) == {} {
      var agents' := agents - {a};
      forall x | x in tiers ensures TierRefOk(t.queues - {q}, agents', tiers[x]) {
        assert TierRefOk(t.queues - {q}, agents, tiers[x]);
        assert tiers[x].agent == a ==> x in Refs(tiers, a);
      }
      hide TierRefOk;
      UniqueSubset(agents, agents', All(), AgentKey(t.domains));
      hide UniqueKey;
    } else {
      var x :| x in Refs(tiers, a);
      assert a in ReferencedAgents(tiers) by { assert tiers[x].agent == a; }
      hide AgentsOk, TiersOk, RowsKept, Refs, ReferencedAgents;
    }
  }

  /** Delete queue `q` with its tiers, and the agents that no other tier refers to. */
  method RemoveQueue(t: Db, ghost v: View, d: string, q: Uuid) returns (t': Db)
    requires WellFormed(t) && Shows(t, v) && q in t.queues && OfDomain(t.domains, t.queues[q].domain, d)
    ensures var number := t.queues[q].extension;
      && WellFormed(t') && OthersKept(t, t', d) && OtherQueuesKept(t, t', d, number)
      && Shows(t', v.(queues := v.queues - {Key(d, number)}))
    ensures t' == t.(queues := t'.queues, agents := t'.agents, tiers := t'.tiers)
    ensures NoNewOrphans(t.agents, t.tiers, t'.agents, t'.tiers) && NewRowsFit(t, t', d)
  {
    hide WellFormed, Shows, OthersKept, OtherQueuesKept, Cleaning, NoNewOrphans, AgentFits, TierFits;
    var tiers := WithoutTiers(t.tiers, q);
    var agents := t.agents;
    var todo := set x | x in t.tiers && t.tiers[x].queue == q :: t.tiers[x].agent;
    CleaningStart(t, q);
    while todo != {}
      invariant Cleaning(t, q, tiers, todo, agents)
    {
      var a :| a in todo;
      CleaningStep(t, q, tiers, todo, agents, a);
      if |Refs(tiers, a)| == 0 {
        agents := agents - {a};
      }
      todo := todo - {a};
    }
    t' := t.(queues := t.queues - {q}, agents := agents, tiers := tiers);
    QueueGone(t, v, d, q, agents);
    CleanedFits(t, q, agents, t', d);
  }

  lemma CleanedFits(t: Db, q: Uuid, agents: map<Uuid, AgentRow>, t': Db, d: string)
    requires q in t.queues && Cleaning(t, q, WithoutTiers(t.tiers, q), {}, agents)
    requires t'.agents == agents && t'.tiers == WithoutTiers(t.tiers, q)
    ensures NewRowsFit(t, t', d)
  {
    hide AgentsOk, TiersOk, RowsKept, ReferencedAgents, AgentFits, TierFits;
  }

  lemma QueueGone(t: Db, v: View, d: string, q: Uuid, agents: map<Uuid, AgentRow>)
    requires WellFormed(t) && Shows(t, v) && q in t.queues && OfDomain(t.domains, t.queues[q].domain, d)
    requires Cleaning(t, q, WithoutTiers(t.tiers, q), {}, agents)
    ensures var t', number := t.(queues := t.queues - {q}, agents := agents, tiers := WithoutTiers(t.tiers, q)),
        t.queues[q].extension;
      && WellFormed(t') && OthersKept(t, t', d) && OtherQueuesKept(t, t', d, number)
      && Shows(t', v.(queues := v.queues - {Key(d, number)}))
      && NoNewOrphans(t.agents, t.tiers, t'.agents, t'.tiers)
  {
    QueueGoneShows(t, v, d, q);
    QueueGoneOthers(t, d, q, agents);
    UniqueSubset(t.queues, t.queues - {q}, All(), QueueKey(t.domains));
    SameRowsKept(t, t.domains, d);
    hide UniqueKey, IsIndex, RowsKept, DomainsOk, ExtensionsOk, VoicemailsOk, AgentsOk, TiersOk, WithoutTiers;
    hide ReferencedAgents, OtherQueuesKept;
  }

  lemma QueueGoneShows(t: Db, v: View, d: string, q: Uuid)
    requires WellFormed(t) && Shows(t, v) && q in t.queues && OfDomain(t.domains, t.queues[q].domain, d)
    ensures IsIndex(t.queues - {q}, All(), QueueKey(t.domains), QueueVal(WithoutTiers(t.tiers, q)),
        v.queues - {Key(d, t.queues[q].extension)})
  {
    hide IsIndex, ExtensionsOk, VoicemailsOk, AgentsOk, TiersOk, DomainsOk;
    var key, tiers := Key(d, t.queues[q].extension), WithoutTiers(t.tiers, q);
    assert QueueKey(t.domains)(t.queues[q]) == key;
    assert forall u :: u in t.queues && QueueKey(t.domains)(t.queues[u]) == QueueKey(t.domains)(t.queues[q]) ==> u == q;
    assert Without(t.queues, All(), QueueKey(t.domains), key, t.queues - {q});
    IndexDelete(t.queues, All(), QueueKey(t.domains), QueueVal(t.tiers), v.queues, key, t.queues - {q});
    forall u | u in t.queues - {q} ensures AgentsOf(tiers, u) == AgentsOf(t.tiers, u) {
      OtherAgentsSame(t.tiers, tiers, q, u);
    }
    hide AgentsOf, UniqueKey;
    IndexNewVal(t.queues - {q}, All(), QueueKey(t.domains), QueueVal(t.tiers), QueueVal(tiers), v.queues - {key});
  }

  lemma QueueGoneOthers(t: Db, d: string, q: Uuid, agents: map<Uuid, AgentRow>)
    requires WellFormed(t) && q in t.queues && OfDomain(t.domains, t.queues[q].domain, d)
    requires Cleaning(t, q, WithoutTiers(t.tiers, q), {}, agents)
    ensures var t' := t.(queues := t.queues - {q}, agents := agents, tiers := WithoutTiers(t.tiers, q));
      && RowsKept(t.queues, t'.queues, QueueMine(t.domains, d))
      && RowsKept(t.agents, t'.agents, AgentMine(t.domains, d))
      && RowsKept(t.tiers, t'.tiers, TierMine(t.domains, d)) && OtherQueuesKept(t, t', d, t.queues[q].extension)
  {
    var tiers := WithoutTiers(t.tiers, q);
    hide UniqueKey, ExtensionsOk, VoicemailsOk, AgentsOk, DomainsOk, ReferencedAgents;
    forall x | x in t.tiers && x !in tiers
      ensures OfDomain(t.domains, t.tiers[x].domain, d) && t.tiers[x].queueName == t.queues[q].extension
    {
      assert TierRefOk(t.queues, t.agents, t.tiers[x]);
    }
    RowsKeptDelete(t.tiers, tiers, TierMine(t.domains, d));
    RowsKeptDelete(t.tiers, tiers, TierOfQueue(d, t.queues[q].extension, t.domains));
    RowsKeptDelete(t.queues, t.queues - {q}, QueueMine(t.domains, d));
    RowsKeptDelete(t.queues, t.queues - {q}, QueueRowAt(d, t.queues[q].extension, t.domains));
    RowsKeptWeaken(t.agents, agents, (r: AgentRow) => r.domain == t.queues[q].domain, AgentMine(t.domains, d));
    hide RowsKept, TiersOk;
  }
}
