/** A FreeSWITCH restart after any queue calls: what resync_queues puts into an empty runtime is
    what those calls asked for (app/services/fusionpbx/client.py:850-1046, 1192-1242). */
module Restart {
  import opened Names
  import opened Orders
  import opened Indexed
  import opened Tables
  import opened Steps
  import opened CallCenter
  import opened Transactions
  import opened Client
  import opened Runtime
  import opened QueueRuns

  /** The queue is loaded; its tiers are one for each of these agents, all at level and position one,
      and each such agent is available under its own contact. */
  ghost predicate Staffed(m: Memory, q: Key, agents: set<string>) {
    && q in m.queues
    && (forall e :: e in agents ==> exists a :: Reaches(m, a, e, q.dom) && RtTier(q, a, 1, 1) in m.tiers)
    && (forall x :: x in m.tiers && x.queue == q ==>
         x.level == 1 && x.position == 1 && exists e :: e in agents && Reaches(m, x.agent, e, q.dom))
  }

  /** Runtime agent `a` is extension `e` of domain `d`, ready to be called. */
  predicate Reaches(m: Memory, a: Uuid, e: string, d: string) {
    a in m.agents && m.agents[a] == AgentState("user/" + e + "@" + d, true)
  }

  ghost predicate Absent(m: Memory, q: Key) {
    q !in m.queues && forall x :: x in m.tiers ==> x.queue != q
  }

  // The row behind a queue of the view.
  lemma QueueRowOf(t: Db, v: View, q: Key) returns (u: Uuid)
    requires Shows(t, v) && q in v.queues
    ensures u in t.queues && QueueKey(t.domains)(t.queues[u]) == q && v.queues[q].agents == AgentsOf(t.tiers, u)
  {
    hide AgentsOf;
    u :| u in t.queues && QueueKey(t.domains)(t.queues[u]) == q;
    assert All()(t.queues[u]);
  }

  lemma TierOf(t: Db, x: Uuid)
    requires WellFormed(t) && x in t.tiers
    ensures TierRefOk(t.queues, t.agents, t.tiers[x]) && t.tiers[x].domain in t.domains
  {
    hide UniqueKey, ExtensionsOk, VoicemailsOk, DomainsOk;
    assert TierRefOk(t.queues, t.agents, t.tiers[x]);
  }

  lemma OneQueueRow(t: Db, u: Uuid, w: Uuid)
    requires WellFormed(t) && u in t.queues && w in t.queues
    requires QueueKey(t.domains)(t.queues[u]) == QueueKey(t.domains)(t.queues[w])
    ensures u == w
  {
    hide ExtensionsOk, VoicemailsOk, AgentsOk, TiersOk, DomainsOk;
    assert All()(t.queues[u]) && All()(t.queues[w]);
  }

  // One tier of queue row `u`, as the runtime gets it.
  lemma TierShows(t: Db, u: Uuid, x: Uuid, d: string)
    requires WellFormed(t) && Standard(t) && x in t.tiers && t.tiers[x].queue == u && u in t.queues
    requires OfDomain(t.domains, t.queues[u].domain, d)
    ensures Reaches(RuntimeOf(t, d), t.tiers[x].agent, t.tiers[x].agentName, d)
    ensures RtTier(Key(d, t.queues[u].extension), t.tiers[x].agent, 1, 1) in RuntimeOf(t, d).tiers
  {
    TierOf(t, x);
    hide WellFormed;
    assert t.tiers[x].agent in AgentsIn(t, d) && x in TiersIn(t, d);
    assert TierState(t, d, x) == RtTier(Key(d, t.queues[u].extension), t.tiers[x].agent, 1, 1);
    assert AgentFits(t.agents[t.tiers[x].agent], d);
  }

  /** A queue of the view is staffed by the domain's runtime image. */
  lemma ViewStaffs(t: Db, v: View, q: Key)
    requires WellFormed(t) && Shows(t, v) && Standard(t) && q in v.queues && q.dom in v.domains
    ensures Staffed(RuntimeOf(t, q.dom), q, v.queues[q].agents)
  {
    var m, agents := RuntimeOf(t, q.dom), v.queues[q].agents;
    var u := QueueRowOf(t, v, q);
    RowHoused(t, u);
    hide WellFormed, Shows, Standard;
    assert u in QueuesOf(t, q.dom) && q in m.queues;
    forall e | e in agents ensures exists a :: Reaches(m, a, e, q.dom) && RtTier(q, a, 1, 1) in m.tiers {
      var x :| x in t.tiers && t.tiers[x].queue == u && t.tiers[x].agentName == e;
      TierShows(t, u, x, q.dom);
      assert Reaches(m, t.tiers[x].agent, e, q.dom);
    }
    forall y | y in m.tiers && y.queue == q
      ensures y.level == 1 && y.position == 1 && exists e :: e in agents && Reaches(m, y.agent, e, q.dom)
    {
      var x :| x in TiersIn(t, q.dom) && y == TierState(t, q.dom, x);
      TierOf(t, x);
      OneQueueRow(t, u, t.tiers[x].queue);
      TierShows(t, u, x, q.dom);
      TierStandard(t, x);
      assert t.tiers[x].agentName in agents;
    }
  }

  lemma TierStandard(t: Db, x: Uuid)
    requires Standard(t) && x in t.tiers
    ensures t.tiers[x].level == 1 && t.tiers[x].position == 1
  {
    hide AgentFits;
    assert TierFits(t.tiers[x]);
  }

  lemma RowHoused(t: Db, u: Uuid)
    requires WellFormed(t) && u in t.queues
    ensures t.queues[u].domain in t.domains
  {
    hide UniqueKey, ExtensionsOk, VoicemailsOk, AgentsOk, TiersOk, DomainsOk;
  }

  lemma ViewLacks(t: Db, v: View, q: Key)
    requires WellFormed(t) && Shows(t, v) && q !in v.queues
    ensures Absent(RuntimeOf(t, q.dom), q)
  {
    var m := RuntimeOf(t, q.dom);
    forall u | u in QueuesOf(t, q.dom) ensures t.queues[u].extension != q.number {
      RowShown(t, v, u);
    }
    hide WellFormed, Shows;
    forall y | y in m.tiers ensures y.queue != q {
      var x :| x in TiersIn(t, q.dom) && y == TierState(t, q.dom, x);
      TierOf(t, x);
      assert t.tiers[x].queue in QueuesOf(t, q.dom);
    }
  }

  lemma RowShown(t: Db, v: View, u: Uuid)
    requires Shows(t, v) && u in t.queues
    ensures QueueKey(t.domains)(t.queues[u]) in v.queues
  {
    assert All()(t.queues[u]);
  }

  /** Queue `k` of an empty runtime after the resync, told by the last call on it that got through. */
  ghost predicate Restaffed(m: Memory, before: View, ops: seq<QueueOp>, done: seq<bool>, k: Key)
    requires |done| == |ops|
  {
    match LastOn(ops, done, k)
    case None => if k in before.queues then Staffed(m, k, before.queues[k].agents) else Absent(m, k)
    case Some(EnsureOp(_, _, agents, _)) => Staffed(m, k, Elems(agents))
    case Some(DeleteOp(_, _)) => Absent(m, k)
  }

  lemma RestaffedFrom(t: Db, before: View, v: View, ops: seq<QueueOp>, done: seq<bool>, k: Key)
    requires WellFormed(t) && Shows(t, v) && Standard(t) && Housed(v) && |done| == |ops|
    requires AsLeft(before, v, ops, done, k)
    ensures Restaffed(RuntimeOf(t, k.dom), before, ops, done, k)
  {
    hide WellFormed, Shows, Standard, RuntimeOf, Staffed, Absent, LastOn, Elems;
    if k in v.queues {
      ViewStaffs(t, v, k);
    } else {
      ViewLacks(t, v, k);
    }
  }

  /** Any ensure and delete calls, then a restart of FreeSWITCH and a resync of domain `d`: the
      empty runtime accepts all that is sent, and afterwards each queue of the domain is staffed by
      exactly the agents that the last call on it asked for, under their own contacts and at level
      and position one, or is not there when that call deleted it. */
  method RunThenRestart(c: FusionpbxClient, ops: seq<QueueOp>, d: string)
    returns (done: seq<bool>, r: Result<(nat, nat)>, sent: seq<Command>)
    requires c.Valid() && Standard(c.db)
    modifies c
    ensures c.Valid() && Standard(c.db) && |done| == |ops|
    ensures r.Ok? ==> AllAccepted(NOTHING, sent)
    ensures r.Ok? ==> forall k: Key :: k.dom == d ==> Restaffed(Run(NOTHING, sent), old(c.view), ops, done, k)
  {
    hide WellFormed, Shows, NumbersOk, Standard, AsLeft, Restaffed, After, Orphans, RuntimeOf, Adds, AllAccepted, Run;
    hide Housed, ValidDomain;
    ghost var v := c.view;
    done := RunQueueOps(c, ops);
    var before := |c.commands|;
    r := c.ResyncQueues(d);
    sent := [];
    if r.Ok? {
      sent := c.commands[before..];
      RebuildsFromNothing(sent, RuntimeOf(c.db, d));
      forall k: Key | k.dom == d ensures Restaffed(Run(NOTHING, sent), v, ops, done, k) {
        RestaffedFrom(c.db, v, c.view, ops, done, k);
      }
    }
  }
}
