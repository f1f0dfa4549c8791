/** Any sequence of ensure_queue and delete_queue calls, over any queues and domains
    (app/services/fusionpbx/client.py:850-1046, 1104-1142). */
module QueueRuns {
  import opened Names
  import opened Orders
  import opened Indexed
  import opened Tables
  import opened Steps
  import opened CallCenter
  import opened Transactions
  import opened Client

  datatype QueueOp =
    | EnsureOp(d: string, number: string, agents: seq<string>, strategy: string)
    | DeleteOp(d: string, number: string)

  /** What a call that got through does to the view. */
  function Effect(v: View, op: QueueOp): View {
    match op
    case EnsureOp(d, n, agents, strategy) => PutQueue(v, d, n, strategy, Elems(agents))
    case DeleteOp(d, n) => DropQueue(v, d, n)
  }

  /** The view after the calls that got through, in order. */
  function After(v: View, ops: seq<QueueOp>, done: seq<bool>): View
    requires |done| == |ops|
  {
    if ops == [] then v
    else
      var w := After(v, ops[..|ops| - 1], done[..|ops| - 1]);
      if done[|ops| - 1] then Effect(w, ops[|ops| - 1]) else w
  }

  ghost predicate Acceptable(op: QueueOp) {
    && ValidDomain(op.d) && ValidToken(op.number)
    && (op.EnsureOp? ==> op.agents != [] && ValidTokens(op.agents))
  }

  method Call(c: FusionpbxClient, op: QueueOp) returns (done: bool)
    requires c.Valid()
    modifies c
    ensures c.Valid() && c.view == (if done then Effect(old(c.view), op) else old(c.view))
    ensures done <==> Acceptable(op) && !c.outage(old(c.calls))
    ensures done ==> OthersKept(old(c.db), c.db, op.d) && OtherQueuesKept(old(c.db), c.db, op.d, op.number)
    ensures if done then NewRowsFit(old(c.db), c.db, op.d) else c.db == old(c.db)
    ensures NoNewOrphans(old(c.db.agents), old(c.db.tiers), c.db.agents, c.db.tiers)
    ensures c.calls == old(c.calls) + Bumped(Acceptable(op))
  {
    hide WellFormed, Shows, NumbersOk, OthersKept, OtherQueuesKept, NoNewOrphans, ValidDomain, ValidToken, ValidTokens;
    hide PutQueue, DropQueue, Elems, NewRowsFit, Queued;
    match op {
      case EnsureOp(d, n, agents, strategy) =>
        var r := c.EnsureQueue(d, n, agents, strategy);
        done := r.Ok?;
      case DeleteOp(d, n) =>
        var r := c.DeleteQueue(d, n);
        done := r.Ok?;
    }
  }

  /** Every agent row has the contact, and every tier the place, that ensure_queue gives them. */
  ghost predicate Standard(t: Db) {
    && (forall a :: a in t.agents ==> AgentFits(t.agents[a], NameOf(t.domains, t.agents[a].domain)))
    && (forall x :: x in t.tiers ==> TierFits(t.tiers[x]))
  }

  lemma StandardKept(t: Db, t': Db, d: string)
    requires WellFormed(t) && Standard(t) && NewRowsFit(t, t', d) && OthersKept(t, t', d)
    ensures Standard(t')
  {
    AgentsHoused(t);
    hide WellFormed, RowsKept, AgentFits, TierFits;
  }

  lemma OrphansShrink(a: Db, b: Db, c: Db)
    requires Orphans(b) <= Orphans(a) && NoNewOrphans(b.agents, b.tiers, c.agents, c.tiers)
    ensures Orphans(c) <= Orphans(a)
  {
    hide ReferencedAgents;
  }

  lemma AfterNext(v: View, ops: seq<QueueOp>, done: seq<bool>, i: nat, ok: bool)
    requires i < |ops| && |done| == i
    ensures After(v, ops[..i + 1], done + [ok]) == (var w := After(v, ops[..i], done); if ok then Effect(w, ops[i])
        else w)
  {
    assert ops[..i + 1][..i] == ops[..i] && (done + [ok])[..i] == done;
  }

  /** The tables stay well formed (so every tier joins an existing queue and agent of its own
      domain, each pair once), no agent is left without a tier that was not so before, the view
      is the effect of the calls that got through, and each queue is as the last of them left it. */
  method RunQueueOps(c: FusionpbxClient, ops: seq<QueueOp>) returns (done: seq<bool>)
    requires c.Valid()
    modifies c
    ensures c.Valid() && |done| == |ops| && c.view == After(old(c.view), ops, done)
    ensures Orphans(c.db) <= Orphans(old(c.db))
    ensures Orphans(old(c.db)) == {} ==> c.db.agents.Keys == ReferencedAgents(c.db.tiers)
    ensures Housed(c.view) && forall k :: AsLeft(old(c.view), c.view, ops, done, k)
    ensures Standard(old(c.db)) ==> Standard(c.db)
  {
    hide WellFormed, Shows, NumbersOk, OthersKept, OtherQueuesKept, NoNewOrphans, Effect, Orphans, ValidDomain;
    hide ValidToken, Housed, AsLeft, Standard, NewRowsFit;
    ghost var v := c.view;
    ValidIsHoused(c);
    done := [];
    for i := 0 to |ops|
      invariant c.Valid() && |done| == i && c.view == After(v, ops[..i], done)
      invariant Orphans(c.db) <= Orphans(old(c.db))
      invariant Standard(old(c.db)) ==> Standard(c.db)
    {
      ghost var t := c.db;
      var ok := Call(c, ops[i]);
      AfterNext(v, ops, done, i, ok);
      OrphansShrink(old(c.db), t, c.db);
      if ok && Standard(t) {
        StandardKept(t, c.db, ops[i].d);
      }
      done := done + [ok];
    }
    assert ops[..|ops|] == ops;
    if Orphans(old(c.db)) == {} {
      NoOrphans(c.db);
    }
    ValidIsHoused(c);
    forall k ensures AsLeft(v, c.view, ops, done, k) {
      LastCallDecides(v, ops, done, k);
    }
  }

  lemma NoOrphans(t: Db)
    requires WellFormed(t) && Orphans(t) == {}
    ensures t.agents.Keys == ReferencedAgents(t.tiers)
  {
    hide UniqueKey, ExtensionsOk, VoicemailsOk, AgentsOk, QueuesOk, DomainsOk;
    forall a | a in ReferencedAgents(t.tiers) ensures a in t.agents {
      var x :| x in t.tiers && t.tiers[x].agent == a;
      assert TierRefOk(t.queues, t.agents, t.tiers[x]);
    }
    forall a | a in t.agents ensures a in ReferencedAgents(t.tiers) {
      assert a !in Orphans(t);
    }
  }

  // --------------------------------------------------- the last call decides

  function Target(op: QueueOp): Key {
    Key(op.d, op.number)
  }

  /** The last call on queue `k` that got through. */
  function LastOn(ops: seq<QueueOp>, done: seq<bool>, k: Key): (r: Option<QueueOp>)
    requires |done| == |ops|
  {
    if ops == [] then None
    else if done[|ops| - 1] && Target(ops[|ops| - 1]) == k then Some(ops[|ops| - 1])
    else LastOn(ops[..|ops| - 1], done[..|ops| - 1], k)
  }

  /** Queue `k` is as the last call on it that got through left it: gone, or with the strategy and
      exactly the de-duplicated agents of that call; without such a call it is untouched. */
  ghost predicate AsLeft(before: View, after: View, ops: seq<QueueOp>, done: seq<bool>, k: Key)
    requires |done| == |ops|
  {
    match LastOn(ops, done, k)
    case None =>
      && (k in after.queues <==> k in before.queues)
      && (k in before.queues ==> after.queues[k] == before.queues[k])
    case Some(EnsureOp(_, _, agents, strategy)) =>
      k in after.queues && after.queues[k] == QueueState(strategy, Elems(agents))
    case Some(DeleteOp(_, _)) => k !in after.queues
  }

  /** Every queue has a domain row. */
  ghost predicate Housed(v: View) {
    forall k :: k in v.queues ==> k.dom in v.domains
  }

  lemma ValidIsHoused(c: FusionpbxClient)
    requires c.Valid()
    ensures Housed(c.view)
  {
    hide WellFormed;
    forall k | k in c.view.queues ensures k.dom in c.view.domains {
      if k.dom !in c.view.domains {
        assert forall u :: u in c.db.domains ==> c.db.domains[u] in c.db.domains.Values;
        NoDomainNoKeys(c.db, c.view, k.dom);
      }
    }
  }

  lemma EffectOnQueues(v: View, op: QueueOp)
    requires Housed(v)
    ensures var w := Effect(v, op);
      && Housed(w)
      && (forall k :: k != Target(op) ==> (k in w.queues <==> k in v.queues) && (k in v.queues ==>
           w.queues[k] == v.queues[k]))
      && (if op.EnsureOp? then Target(op) in w.queues
          && w.queues[Target(op)] == QueueState(op.strategy, Elems(op.agents))
          else Target(op) !in w.queues)
  {
    hide FeatureName, Elems;
  }

  /** Each queue is as its last successful call left it. */
  lemma {:induction false} LastCallDecides(v: View, ops: seq<QueueOp>, done: seq<bool>, k: Key)
    requires |done| == |ops| && Housed(v)
    ensures Housed(After(v, ops, done))
    ensures AsLeft(v, After(v, ops, done), ops, done, k)
  {
    if ops != [] {
      var i := |ops| - 1;
      LastCallDecides(v, ops[..i], done[..i], k);
      if done[i] {
        EffectOnQueues(After(v, ops[..i], done[..i]), ops[i]);
        hide Effect;
      }
    }
  }
}
