/** What the commands of one ensure_queue do to the runtime, and when the runtime refuses one of them
    (app/services/fusionpbx/client.py:888-1038). */
module QueueEffects {
  import opened Names
  import opened Orders
  import opened Indexed
  import opened Tables
  import opened CallCenter
  import opened Runtime

  function Contact(e: string, d: string): string {
    "user/" + e + "@" + d
  }

  /** Different agents have different rows. */
  ghost predicate IdsDiffer(ids: map<string, Uuid>) {
    forall e, e' :: e in ids && e' in ids && ids[e] == ids[e'] ==> e == e'
  }

  /** `e` is a new agent of the domain, or a new member of the queue. */
  predicate NewRow(prefix: seq<string>, known: set<string>, e: string) {
    e in prefix && e !in known
  }

  predicate NewMember(prefix: seq<string>, existing: set<string>, e: string) {
    e in prefix && e !in existing
  }

  // New agents are there, under their contacts; all others are as before.
  ghost predicate AgentsSet(m: Memory, r: Memory, prefix: seq<string>, known: set<string>, ids: map<string, Uuid>,
      d: string)
    requires Elems(prefix) <= ids.Keys
  {
    && (forall e :: NewRow(prefix, known, e) ==>
         ids[e] in r.agents && r.agents[ids[e]] == AgentState(Contact(e, d), true))
    && (forall a :: (forall e :: NewRow(prefix, known, e) ==> ids[e] != a) ==>
          (a in r.agents <==> a in m.agents) && (a in m.agents ==> r.agents[a] == m.agents[a]))
  }

  /** `x` is the missing tier of the new member `e`. */
  ghost predicate JoinsAs(tiers: set<RtTier>, prefix: seq<string>, existing: set<string>, ids: map<string, Uuid>,
      q: Key, e: string, x: RtTier)
    requires Elems(prefix) <= ids.Keys
  {
    NewMember(prefix, existing, e) && x == RtTier(q, ids[e], 1, 1) && !Joined(tiers, q, ids[e])
  }

  // No tier goes; while the queue is loaded, the missing tiers of its new members come.
  ghost predicate TiersAdded(m: Memory, r: Memory, prefix: seq<string>, existing: set<string>, ids: map<string, Uuid>,
      q: Key, loaded: bool)
    requires Elems(prefix) <= ids.Keys
  {
    forall x :: x in r.tiers <==>
      x in m.tiers || (loaded && exists e :: JoinsAs(m.tiers, prefix, existing, ids, q, e, x))
  }

  lemma RunJoin(m: Memory, a: Uuid, isNew: bool, missing: bool, d: string, number: string, e: string)
    requires isNew || a in m.agents
    ensures var cmds, q := JoinOne(a, isNew, missing, d, number, e), Key(d, number);
      var r := Run(m, cmds);
      && (AllAccepted(m, cmds) <==> q in m.queues || !missing)
      && r.queues == m.queues
      && r.agents == (if isNew then m.agents[a := AgentState(Contact(e, d), true)] else m.agents)
      && r.tiers == if missing && q in m.queues && !Joined(m.tiers, q, a) then m.tiers + {RtTier(q, a, 1, 1)}
          else m.tiers
  {
    hide Joined;
    var c := TierAdd(number, d, a, 1, 1);
    var agent := if isNew then JoinCommands(a, Contact(e, d)) else [];
    if isNew {
      RunAgent(m, a, Contact(e, d));
      assert agent == AgentCommands(a, Contact(e, d));
    }
    assert AllAccepted(m, agent);
    if missing {
      RunOne(m, agent, c);
      assert agent + [c] == JoinOne(a, isNew, missing, d, number, e);
    } else {
      assert agent + [] == agent;
    }
  }

  // After the agents in `prefix`.
  ghost predicate JoinsDone(m: Memory, r: Memory, prefix: seq<string>, existing: set<string>, known: set<string>,
      ids: map<string, Uuid>, q: Key)
    requires Elems(prefix) <= ids.Keys
  {
    && r.queues == m.queues && AgentsSet(m, r, prefix, known, ids, q.dom)
    && TiersAdded(m, r, prefix, existing, ids, q, q in m.queues)
  }

  ghost predicate OldIn(m: Memory, desired: seq<string>, known: set<string>, ids: map<string, Uuid>)
    requires Elems(desired) <= ids.Keys
  {
    forall e :: e in desired && e in known ==> ids[e] in m.agents
  }

  lemma AgentsNext(m: Memory, r: Memory, r': Memory, prefix: seq<string>, known: set<string>, ids: map<string, Uuid>,
      d: string, e: string)
    requires Elems(prefix + [e]) <= ids.Keys && IdsDiffer(ids) && e !in prefix && AgentsSet(m, r, prefix, known, ids, d)
    requires r'.agents == if e !in known then r.agents[ids[e] := AgentState(Contact(e, d), true)] else r.agents
    ensures AgentsSet(m, r', prefix + [e], known, ids, d)
  {
    assert forall x :: x in prefix + [e] <==> x in prefix || x == e;
    assert forall x :: x in prefix ==> x in Elems(prefix);
  }

  lemma TiersNext(m: Memory, r: Memory, r': Memory, prefix: seq<string>, existing: set<string>, ids: map<string, Uuid>,
      q: Key, loaded: bool, e: string)
    requires Elems(prefix + [e]) <= ids.Keys && IdsDiffer(ids) && e !in prefix
    requires TiersAdded(m, r, prefix, existing, ids, q, loaded)
    requires r'.tiers == if e !in existing && loaded
        && !Joined(r.tiers, q, ids[e]) then r.tiers + {RtTier(q, ids[e], 1, 1)} else r.tiers
    ensures TiersAdded(m, r', prefix + [e], existing, ids, q, loaded)
  {
    assert e in Elems(prefix + [e]) && forall x :: x in prefix ==> x in Elems(prefix + [e]);
    assert Joined(r.tiers, q, ids[e]) <==> Joined(m.tiers, q, ids[e]) by {
      forall x | x in r.tiers && x !in m.tiers ensures x.agent != ids[e] {
        var e' :| JoinsAs(m.tiers, prefix, existing, ids, q, e', x);
      }
    }
    hide Joined;
    forall x | x in r'.tiers && x !in m.tiers
      ensures loaded && exists e' :: JoinsAs(m.tiers, prefix + [e], existing, ids, q, e', x)
    {
      if x in r.tiers {
        var e' :| JoinsAs(m.tiers, prefix, existing, ids, q, e', x);
        assert JoinsAs(m.tiers, prefix + [e], existing, ids, q, e', x);
      } else {
        assert JoinsAs(m.tiers, prefix + [e], existing, ids, q, e, x);
      }
    }
    forall e', x | JoinsAs(m.tiers, prefix + [e], existing, ids, q, e', x) && loaded ensures x in r'.tiers {
      assert e' == e || JoinsAs(m.tiers, prefix, existing, ids, q, e', x);
    }
  }

  lemma {:induction false} JoinsStep(m: Memory, r: Memory, prefix: seq<string>, existing: set<string>,
      known: set<string>, ids: map<string, Uuid>, d: string, number: string, e: string)
    requires Elems(prefix + [e]) <= ids.Keys && IdsDiffer(ids) && e !in prefix && e in ids && Elems(prefix) <= ids.Keys
    requires e in known ==> ids[e] in m.agents
    requires JoinsDone(m, r, prefix, existing, known, ids, Key(d, number))
    ensures var more, q := JoinOne(ids[e], e !in known, e !in existing, d, number, e), Key(d, number);
      && (AllAccepted(r, more) <==> q in m.queues || e in existing)
      && JoinsDone(m, Run(r, more), prefix + [e], existing, known, ids, q)
  {
    hide AgentsSet, TiersAdded, JoinOne, Run, AllAccepted, IdsDiffer, Elems, Joined;
    var more, q := JoinOne(ids[e], e !in known, e !in existing, d, number, e), Key(d, number);
    if e in known {
      OldStays(m, r, prefix, known, ids, d, e);
    }
    RunJoin(r, ids[e], e !in known, e !in existing, d, number, e);
    AgentsNext(m, r, Run(r, more), prefix, known, ids, d, e);
    TiersNext(m, r, Run(r, more), prefix, existing, ids, q, q in m.queues, e);
  }

  /** The joining commands: they are accepted exactly when the queue is loaded or nobody is missing. */
  lemma {:induction false} RunJoins(m: Memory, desired: seq<string>, existing: set<string>, known: set<string>,
      ids: map<string, Uuid>, d: string, number: string)
    requires Elems(desired) <= ids.Keys && Distinct(desired) && IdsDiffer(ids) && OldIn(m, desired, known, ids)
    requires forall i :: 0 <= i < |desired| ==> desired[i] in ids
    ensures var cmds, q := JoinList(desired, existing, known, ids, d, number), Key(d, number);
      && (AllAccepted(m, cmds) <==> q in m.queues || Elems(desired) <= existing)
      && JoinsDone(m, Run(m, cmds), desired, existing, known, ids, q)
  {
    if desired != [] {
      var k := |desired| - 1;
      var prefix, e, q := desired[..k], desired[k], Key(d, number);
      ElemsNext(desired, k);
      assert desired == prefix + [e] && desired[..k + 1] == desired;
      assert OldIn(m, prefix, known, ids);
      hide JoinsDone, JoinOne, Run, AllAccepted, IdsDiffer, Elems;
      RunJoins(m, prefix, existing, known, ids, d, number);
      var before, more := JoinList(prefix, existing, known, ids, d, number), JoinOne(ids[e], e !in known,
        e !in existing, d, number, e);
      JoinsStep(m, Run(m, before), prefix, existing, known, ids, d, number, e);
      RunTwo(m, before, more);
      assert JoinList(desired, existing, known, ids, d, number) == before + more;
    } else {
      NothingJoined(m, existing, known, ids, Key(d, number));
    }
  }

  lemma NothingJoined(m: Memory, existing: set<string>, known: set<string>, ids: map<string, Uuid>, q: Key)
    ensures JoinsDone(m, m, [], existing, known, ids, q)
  {}

  lemma OldStays(m: Memory, r: Memory, prefix: seq<string>, known: set<string>, ids: map<string, Uuid>, d: string,
      e: string)
    requires Elems(prefix) <= ids.Keys && IdsDiffer(ids) && e !in prefix && e in ids
    requires AgentsSet(m, r, prefix, known, ids, d)
    requires ids[e] in m.agents
    ensures ids[e] in r.agents
  {
    assert forall e' :: NewRow(prefix, known, e') ==> e' in Elems(prefix);
  }

  // ----------------------------------------------------------- the whole call

  /** The runtime holds the domain's queue, if it has one, and its agents. */
  ghost predicate HoldsRows(m: Memory, v: View, t: Db, d: string, number: string) {
    (Key(d, number) in v.queues ==> Key(d, number) in m.queues) && forall a :: a in AgentsIn(t, d) ==> a in m.agents
  }

  /** Somebody joins the queue while it is unloaded for a reload. */
  predicate JoinsUnloaded(v: View, d: string, number: string, strategy: string, desired: seq<string>) {
    Reloads(v, d, number, strategy, Elems(desired)) && !(Elems(desired) <= OldAgents(v, d, number))
  }

  /** What the runtime holds afterwards: the queue; the new agents on top of the old ones; no tier
      less than before, and the tiers of new members unless the queue was reloaded. */
  ghost predicate RuntimeAfter(m: Memory, r: Memory, v: View, t: Db, d: string, number: string, strategy: string,
      desired: seq<string>, ids: map<string, Uuid>)
    requires Elems(desired) <= ids.Keys
  {
    && r.queues == m.queues + {Key(d, number)}
    && AgentsSet(m, r, desired, KnownAgents(t, d), ids, d)
    && TiersAdded(m, r, desired, OldAgents(v, d, number), ids, Key(d, number),
        !Reloads(v, d, number, strategy, Elems(desired)))
  }

  lemma LoadAround(m: Memory, joins: seq<Command>, d: string, number: string)
    ensures var load, unload, q := [QueueLoad(number, d)], [QueueUnload(number, d)], Key(d, number);
      var up, down := m.(queues := m.queues + {q}), m.(queues := m.queues - {q});
      && Run(m, load + joins) == Run(up, joins) && (AllAccepted(m, load + joins) <==> AllAccepted(up, joins))
      && (AllAccepted(m, unload + joins + load) <==> AllAccepted(down, joins))
      && Run(m, unload + joins + load) == (var r := Run(down, joins); r.(queues := r.queues + {q}))
  {
    var load, unload := [QueueLoad(number, d)], [QueueUnload(number, d)];
    RunOne(m, [], load[0]);
    RunOne(m, [], unload[0]);
    assert [] + load == load && [] + unload == unload;
    var down := Run(m, unload);
    RunOne(Run(down, joins), [], load[0]);
    hide Exec;
    RunTwo(m, load, joins);
    RunTwo(m, unload, joins);
    RunTwo(m, unload + joins, load);
  }

  /** The runtime accepts every command of one ensure_queue exactly when nobody joins the queue
      while it is unloaded; what the runtime then holds is known in both cases. */
  lemma EnsureQueueCommands(m: Memory, v: View, t: Db, d: string, number: string, desired: seq<string>,
      strategy: string, ids: map<string, Uuid>)
    requires Distinct(desired) && ids.Keys == Elems(desired) && IdsDiffer(ids)
    requires OldIn(m, desired, KnownAgents(t, d), ids)
    requires Key(d, number) in v.queues ==> Key(d, number) in m.queues
    requires forall i :: 0 <= i < |desired| ==> desired[i] in ids
    ensures var joins := JoinList(desired, OldAgents(v, d, number), KnownAgents(t, d), ids, d, number);
      var cmds := QueueCommands(Key(d, number) !in v.queues, Reloads(v, d, number, strategy, Elems(desired)), d,
        number, joins);
      && (AllAccepted(m, cmds) <==> !JoinsUnloaded(v, d, number, strategy, desired))
      && RuntimeAfter(m, Run(m, cmds), v, t, d, number, strategy, desired, ids)
  {
    hide KnownAgents, JoinList, Elems, Distinct, IdsDiffer, Run, AllAccepted, JoinsDone;
    var q, had, known := Key(d, number), OldAgents(v, d, number), KnownAgents(t, d);
    var joins := JoinList(desired, had, known, ids, d, number);
    var reload := Reloads(v, d, number, strategy, Elems(desired));
    var m1 := if reload then m.(queues := m.queues - {q}) else m.(queues := m.queues + {q});
    LoadAround(m, joins, d, number);
    RunJoins(m1, desired, had, known, ids, d, number);
    SameMemory(m, m1, Run(m1, joins), desired, had, known, ids, q);
    assert [] + joins == joins;
    assert q in v.queues ==> m.queues + {q} == m.queues;
  }

  // Loading and unloading touch neither agents nor tiers.
  lemma SameMemory(m: Memory, m1: Memory, r: Memory, desired: seq<string>, existing: set<string>, known: set<string>,
      ids: map<string, Uuid>, q: Key)
    requires Elems(desired) <= ids.Keys && m1.agents == m.agents && m1.tiers == m.tiers
    requires JoinsDone(m1, r, desired, existing, known, ids, q)
    ensures AgentsSet(m, r, desired, known, ids, q.dom) && TiersAdded(m, r, desired, existing, ids, q, q in m1.queues)
    ensures r.queues == m1.queues
  {
    hide Joined;
  }

  lemma SentIds(m: Memory, v: View, t: Db, t': Db, d: string, number: string, desired: seq<string>, strategy: string,
      cmds: seq<Command>, ids: map<string, Uuid>)
    requires Sends(v, t, t', d, number, desired, strategy, cmds, ids) && HoldsRows(m, v, t, d, number)
    ensures IdsDiffer(ids) && OldIn(m, desired, KnownAgents(t, d), ids) && forall i :: 0 <= i < |desired| ==>
      desired[i] in ids
  {
    hide JoinList, KnownAgents, Reloads;
    assert forall i :: 0 <= i < |desired| ==> desired[i] in Elems(desired);
    forall e | e in desired && e in KnownAgents(t, d) ensures ids[e] in m.agents {
      assert e in Elems(desired) && ids[e] in AgentsIn(t, d);
    }
  }

  /** Whatever ensure_queue sends, a runtime that holds the domain's rows accepts all of it exactly
      when nobody joins the queue while it is unloaded for a reload. Afterwards the queue is loaded
      and the new agents are there; a reload adds no tier, and no command ever deletes one. */
  lemma EnsureQueueAccepted(m: Memory, v: View, t: Db, t': Db, d: string, number: string, desired: seq<string>,
      strategy: string, cmds: seq<Command>)
    requires QueueAnnounced(v, t, t', d, number, desired, strategy, cmds) && Distinct(desired)
    requires HoldsRows(m, v, t, d, number)
    ensures AllAccepted(m, cmds) <==> !JoinsUnloaded(v, d, number, strategy, desired)
    ensures exists ids :: Sends(v, t, t', d, number, desired, strategy, cmds, ids)
                          && RuntimeAfter(m, Run(m, cmds), v, t, d, number, strategy, desired, ids)
  {
    var ids :| Sends(v, t, t', d, number, desired, strategy, cmds, ids);
    SentIds(m, v, t, t', d, number, desired, strategy, cmds, ids);
    hide Distinct, IdsDiffer, OldIn, KnownAgents, JoinList, QueueCommands, AllAccepted, Run, RuntimeAfter;
    hide JoinsUnloaded, AgentsIn;
    EnsureQueueCommands(m, v, t, d, number, desired, strategy, ids);
  }
}
