/** The in-memory call-center state of FreeSWITCH, as an explicit model of what its commands do,
    and the command list that rebuilds it (app/services/fusionpbx/client.py:1192-1242). */
module Runtime {
  import opened Names
  import opened Indexed
  import opened Tables
  import opened CallCenter

  datatype AgentState = AgentState(contact: string, available: bool)
  datatype RtTier = RtTier(queue: Key, agent: Uuid, level: int, position: int)
  datatype Memory = Memory(queues: set<Key>, agents: map<Uuid, AgentState>, tiers: set<RtTier>)

  predicate Joined(tiers: set<RtTier>, queue: Key, agent: Uuid) {
    exists x :: x in tiers && x.queue == queue && x.agent == agent
  }

  /** A tier needs its queue and its agent; agent settings need the agent. */
  predicate Accepts(m: Memory, c: Command) {
    match c
    case AgentContact(a, _) => a in m.agents
    case AgentStatus(a) => a in m.agents
    case TierAdd(q, d, a, _, _) => Key(d, q) in m.queues && a in m.agents
    case _ => true
  }

  /** Loading or adding what is already there changes nothing. */
  function Exec(m: Memory, c: Command): Memory {
    if !Accepts(m, c) then m
    else
      match c
      case QueueLoad(q, d) => m.(queues := m.queues + {Key(d, q)})
      case QueueUnload(q, d) => m.(queues := m.queues - {Key(d, q)})
      case AgentAdd(a) => if a in m.agents then m else m.(agents := m.agents[a := AgentState("", false)])
      case AgentContact(a, contact) => m.(agents := m.agents[a := m.agents[a].(contact := contact)])
      case AgentStatus(a) => m.(agents := m.agents[a := m.agents[a].(available := true)])
      case TierAdd(q, d, a, level, position) =>
        if Joined(m.tiers, Key(d, q), a) then m else m.(tiers := m.tiers + {RtTier(Key(d, q), a, level, position)})
  }

  function Run(m: Memory, cmds: seq<Command>): Memory {
    if cmds == [] then m else Exec(Run(m, cmds[..|cmds| - 1]), cmds[|cmds| - 1])
  }

  /** Every command is accepted at its turn. */
  predicate AllAccepted(m: Memory, cmds: seq<Command>) {
    cmds == [] || (AllAccepted(m, cmds[..|cmds| - 1]) && Accepts(Run(m, cmds[..|cmds| - 1]), cmds[|cmds| - 1]))
  }

  lemma RunOne(m: Memory, cmds: seq<Command>, c: Command)
    ensures Run(m, cmds + [c]) == Exec(Run(m, cmds), c)
    ensures AllAccepted(m, cmds + [c]) <==> AllAccepted(m, cmds) && Accepts(Run(m, cmds), c)
  {
    assert (cmds + [c])[..|cmds|] == cmds;
  }

  lemma {:induction false} RunTwo(m: Memory, a: seq<Command>, b: seq<Command>)
    ensures Run(m, a + b) == Run(Run(m, a), b)
    ensures AllAccepted(m, a + b) <==> AllAccepted(m, a) && AllAccepted(Run(m, a), b)
  {
    if b == [] {
      assert a + b == a;
    } else {
      var init, last := b[..|b| - 1], b[|b| - 1];
      RunTwo(m, a, init);
      RunOne(m, a + init, last);
      assert b == init + [last] && a + b == a + init + [last];
      RunOne(Run(m, a), init, last);
    }
  }

  /** Runtime state on top of `m`: agents are set, tiers are added unless their pair is there. */
  ghost function Merge(m: Memory, w: Memory): Memory {
    Memory(m.queues + w.queues, m.agents + w.agents, m.tiers + set x | x in w.tiers
        && !Joined(m.tiers, x.queue, x.agent))
  }

  /** The commands are accepted by every runtime and add exactly `w` to it. */
  ghost predicate Adds(cmds: seq<Command>, w: Memory) {
    forall m :: AllAccepted(m, cmds) && Run(m, cmds) == Merge(m, w)
  }

  const NOTHING := Memory({}, map[], {})

  lemma AddsNothing()
    ensures Adds([], NOTHING)
  {
    forall m: Memory ensures Merge(m, NOTHING) == m {
      assert m.agents + map[] == m.agents;
    }
  }

  lemma AddsQueue(cmds: seq<Command>, w: Memory, q: string, d: string)
    requires Adds(cmds, w)
    ensures Adds(cmds + [QueueLoad(q, d)], w.(queues := w.queues + {Key(d, q)}))
  {
    var w' := w.(queues := w.queues + {Key(d, q)});
    forall m ensures AllAccepted(m, cmds + [QueueLoad(q, d)]) && Run(m, cmds + [QueueLoad(q, d)]) == Merge(m, w') {
      RunOne(m, cmds, QueueLoad(q, d));
      assert Merge(m, w').queues == Merge(m, w).queues + {Key(d, q)};
    }
  }

  function AgentCommands(a: Uuid, contact: string): seq<Command> {
    [AgentAdd(a), AgentContact(a, contact), AgentStatus(a)]
  }

  lemma RunAgent(m: Memory, a: Uuid, contact: string)
    ensures AllAccepted(m, AgentCommands(a, contact))
    ensures Run(m, AgentCommands(a, contact)) == m.(agents := m.agents[a := AgentState(contact, true)])
  {
    var c0, c1, c2 := AgentAdd(a), AgentContact(a, contact), AgentStatus(a);
    RunOne(m, [], c0);
    RunOne(m, [c0], c1);
    RunOne(m, [c0, c1], c2);
    assert [] + [c0] == [c0] && [c0] + [c1] == [c0, c1] && [c0, c1] + [c2] == AgentCommands(a, contact);
    var m1 := Exec(m, c0);
    var m2 := Exec(m1, c1);
    assert Exec(m2, c2).agents == m.agents[a := AgentState(contact, true)];
  }

  lemma AddsAgent(cmds: seq<Command>, w: Memory, a: Uuid, contact: string)
    requires Adds(cmds, w)
    ensures Adds(cmds + AgentCommands(a, contact), w.(agents := w.agents[a := AgentState(contact, true)]))
  {
    var w' := w.(agents := w.agents[a := AgentState(contact, true)]);
    forall m ensures AllAccepted(m, cmds + AgentCommands(a, contact))
        && Run(m, cmds + AgentCommands(a, contact)) == Merge(m, w') {
      RunTwo(m, cmds, AgentCommands(a, contact));
      RunAgent(Run(m, cmds), a, contact);
      assert Merge(m, w').agents == Merge(m, w).agents[a := AgentState(contact, true)];
      hide AgentCommands;
    }
  }

  lemma AddsTier(cmds: seq<Command>, w: Memory, q: string, d: string, a: Uuid, level: int, position: int)
    requires Adds(cmds, w) && Key(d, q) in w.queues && a in w.agents && !Joined(w.tiers, Key(d, q), a)
    ensures Adds(cmds + [TierAdd(q, d, a, level, position)],
        w.(tiers := w.tiers + {RtTier(Key(d, q), a, level, position)}))
  {
    var c, x := TierAdd(q, d, a, level, position), RtTier(Key(d, q), a, level, position);
    var w' := w.(tiers := w.tiers + {x});
    forall m ensures AllAccepted(m, cmds + [c]) && Run(m, cmds + [c]) == Merge(m, w') {
      RunOne(m, cmds, c);
      var r := Run(m, cmds);
      assert Joined(r.tiers, x.queue, x.agent) <==> Joined(m.tiers, x.queue, x.agent);
      if Joined(m.tiers, x.queue, x.agent) {
        assert Merge(m, w').tiers == r.tiers;
      } else {
        assert Merge(m, w').tiers == r.tiers + {x};
      }
    }
  }

  // --------------------------------------------- the domain's rows as runtime

  function QueuesOf(t: Db, d: string): set<Uuid> {
    set q | q in t.queues && OfDomain(t.domains, t.queues[q].domain, d)
  }

  function AgentsIn(t: Db, d: string): set<Uuid> {
    set a | a in t.agents && OfDomain(t.domains, t.agents[a].domain, d)
  }

  function TiersIn(t: Db, d: string): set<Uuid> {
    set x | x in t.tiers && OfDomain(t.domains, t.tiers[x].domain, d)
  }

  function TierState(t: Db, d: string, x: Uuid): RtTier
    requires x in t.tiers
  {
    RtTier(Key(d, t.tiers[x].queueName), t.tiers[x].agent, t.tiers[x].level, t.tiers[x].position)
  }

  // The runtime image of some of the domain's rows.
  function ImageOf(t: Db, d: string, queues: set<Uuid>, agents: set<Uuid>, tiers: set<Uuid>): Memory
    requires queues <= t.queues.Keys && agents <= t.agents.Keys && tiers <= t.tiers.Keys
  {
    Memory(
      set q | q in queues :: Key(d, t.queues[q].extension),
      map a | a in agents :: AgentState(t.agents[a].contact, true),
      set x | x in tiers :: TierState(t, d, x))
  }

  /** What the domain's tables ask the runtime to hold. */
  function RuntimeOf(t: Db, d: string): Memory {
    ImageOf(t, d, QueuesOf(t, d), AgentsIn(t, d), TiersIn(t, d))
  }

  // Two tiers of one domain never stand for the same queue and agent.
  lemma TierPairs(t: Db, d: string, x: Uuid, y: Uuid)
    requires WellFormed(t) && x in TiersIn(t, d) && y in TiersIn(t, d)
    requires t.tiers[x].queueName == t.tiers[y].queueName && t.tiers[x].agent == t.tiers[y].agent
    ensures x == y
  {
    hide ExtensionsOk, VoicemailsOk, AgentsOk, DomainsOk;
    assert TierRefOk(t.queues, t.agents, t.tiers[x]) && TierRefOk(t.queues, t.agents, t.tiers[y]);
    assert QueueKey(t.domains)(t.queues[t.tiers[x].queue]) == QueueKey(t.domains)(t.queues[t.tiers[y].queue]);
    assert TierPair()(t.tiers[x]) == TierPair()(t.tiers[y]);
  }

  lemma TierReady(t: Db, d: string, done: set<Uuid>, x: Uuid)
    requires WellFormed(t) && done <= TiersIn(t, d) && x in TiersIn(t, d) && x !in done
    ensures var w := ImageOf(t, d, QueuesOf(t, d), AgentsIn(t, d), done);
      && Key(d, t.tiers[x].queueName) in w.queues && t.tiers[x].agent in w.agents
      && !Joined(w.tiers, Key(d, t.tiers[x].queueName), t.tiers[x].agent)
      && ImageOf(t, d, QueuesOf(t, d), AgentsIn(t, d), done + {x}) == w.(tiers := w.tiers + {TierState(t, d, x)})
  {
    var w := ImageOf(t, d, QueuesOf(t, d), AgentsIn(t, d), done);
    assert TierRefOk(t.queues, t.agents, t.tiers[x]) && t.tiers[x].queue in QueuesOf(t, d)
        && t.tiers[x].agent in AgentsIn(t, d) by {
      hide ExtensionsOk, VoicemailsOk, AgentsOk, UniqueKey;
    }
    if Joined(w.tiers, Key(d, t.tiers[x].queueName), t.tiers[x].agent) {
      var e :| e in w.tiers && e.queue == Key(d, t.tiers[x].queueName) && e.agent == t.tiers[x].agent;
      var y :| y in done && TierState(t, d, y) == e;
      TierPairs(t, d, x, y);
    }
    hide WellFormed, Joined;
    assert (w.tiers + {TierState(t, d, x)}) == set y | y in done + {x} :: TierState(t, d, y);
  }

  lemma QueueImage(t: Db, d: string, done: set<Uuid>, q: Uuid)
    requires done <= t.queues.Keys && q in t.queues
    ensures var w := ImageOf(t, d, done, {}, {});
      ImageOf(t, d, done + {q}, {}, {}) == w.(queues := w.queues + {Key(d, t.queues[q].extension)})
  {}

  lemma AgentImage(t: Db, d: string, queues: set<Uuid>, done: set<Uuid>, a: Uuid)
    requires queues <= t.queues.Keys && done <= t.agents.Keys && a in t.agents
    ensures var w := ImageOf(t, d, queues, done, {});
      ImageOf(t, d, queues, done + {a}, {}) == w.(agents := w.agents[a := AgentState(t.agents[a].contact, true)])
  {}

  /** The three loops of resync_queues: queues, then agents, then the tiers that join them. */
  method ResyncCommands(t: Db, d: string) returns (cmds: seq<Command>)
    requires WellFormed(t)
    ensures Adds(cmds, RuntimeOf(t, d))
  {
    hide WellFormed, Adds, ImageOf, Joined, QueuesOf, AgentsIn, TiersIn;
    cmds := [];
    AddsNothing();
    assert ImageOf(t, d, {}, {}, {}) == NOTHING by { EmptyImage(t, d); }
    var qs, ags, ts := QueuesOf(t, d), AgentsIn(t, d), TiersIn(t, d);
    RowsExist(t, d);
    assert qs - qs == {} && ags - ags == {} && ts - ts == {};
    while qs != {}
      invariant qs <= QueuesOf(t, d)
      invariant Adds(cmds, ImageOf(t, d, QueuesOf(t, d) - qs, {}, {}))
    {
      var q :| q in qs;
      QueueImage(t, d, QueuesOf(t, d) - qs, q);
      AddsQueue(cmds, ImageOf(t, d, QueuesOf(t, d) - qs, {}, {}), t.queues[q].extension, d);
      cmds := cmds + [QueueLoad(t.queues[q].extension, d)];
      assert QueuesOf(t, d) - (qs - {q}) == (QueuesOf(t, d) - qs) + {q};
      qs := qs - {q};
    }
    assert QueuesOf(t, d) - qs == QueuesOf(t, d);
    while ags != {}
      invariant ags <= AgentsIn(t, d)
      invariant Adds(cmds, ImageOf(t, d, QueuesOf(t, d), AgentsIn(t, d) - ags, {}))
    {
      var a :| a in ags;
      AgentImage(t, d, QueuesOf(t, d), AgentsIn(t, d) - ags, a);
      AddsAgent(cmds, ImageOf(t, d, QueuesOf(t, d), AgentsIn(t, d) - ags, {}), a, t.agents[a].contact);
      cmds := cmds + AgentCommands(a, t.agents[a].contact);
      assert AgentsIn(t, d) - (ags - {a}) == (AgentsIn(t, d) - ags) + {a};
      ags := ags - {a};
    }
    assert AgentsIn(t, d) - ags == AgentsIn(t, d);
    while ts != {}
      invariant ts <= TiersIn(t, d)
      invariant Adds(cmds, ImageOf(t, d, QueuesOf(t, d), AgentsIn(t, d), TiersIn(t, d) - ts))
    {
      var x :| x in ts;
      TierReady(t, d, TiersIn(t, d) - ts, x);
      var row := t.tiers[x];
      AddsTier(cmds, ImageOf(t, d, QueuesOf(t, d), AgentsIn(t, d), TiersIn(t, d) - ts), row.queueName, d, row.agent,
        row.level, row.position);
      cmds := cmds + [TierAdd(row.queueName, d, row.agent, row.level, row.position)];
      assert TiersIn(t, d) - (ts - {x}) == (TiersIn(t, d) - ts) + {x};
      ts := ts - {x};
    }
    assert TiersIn(t, d) - ts == TiersIn(t, d);
  }

  lemma EmptyImage(t: Db, d: string)
    ensures ImageOf(t, d, {}, {}, {}) == NOTHING
  {}

  lemma RowsExist(t: Db, d: string)
    ensures QueuesOf(t, d) <= t.queues.Keys && AgentsIn(t, d) <= t.agents.Keys && TiersIn(t, d) <= t.tiers.Keys
  {}

  // ------------------------------------------------------------- what it means

  /** On an empty runtime the list rebuilds exactly the domain's queues, agents and tiers. */
  lemma RebuildsFromNothing(cmds: seq<Command>, w: Memory)
    requires Adds(cmds, w)
    ensures AllAccepted(NOTHING, cmds) && Run(NOTHING, cmds) == w
  {
    assert Run(NOTHING, cmds) == Merge(NOTHING, w);
    assert map[] + w.agents == w.agents;
    assert forall x :: x in w.tiers ==> !Joined({}, x.queue, x.agent);
  }

  /** Running it again, on whatever runtime, changes nothing more. */
  lemma ReplayTwice(cmds: seq<Command>, w: Memory, m: Memory)
    requires Adds(cmds, w)
    ensures Run(Run(m, cmds), cmds) == Run(m, cmds) && AllAccepted(Run(m, cmds), cmds)
  {
    var r := Run(m, cmds);
    assert r == Merge(m, w);
    assert Run(r, cmds) == Merge(r, w);
    assert r.queues + w.queues == r.queues;
    assert r.agents + w.agents == r.agents;
    forall x | x in w.tiers ensures Joined(r.tiers, x.queue, x.agent) {
      assert Joined(m.tiers, x.queue, x.agent) || x in r.tiers;
    }
    assert Merge(r, w).tiers == r.tiers;
  }
}
