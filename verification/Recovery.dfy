/** Runtime resyncs inside a longer stream of commands: what one of them put back stays what the
    tables ask for, whatever is reconciled or resynced for other domains afterwards
    (app/api/provisioning.py:167-201). */
module Recovery {
  import opened Indexed
  import opened Tables
  import opened CallCenter
  import Runtime

  /** Some stretch of the commands from number `from` on is accepted by every runtime and adds to it
      the queues, agents and tiers that the tables hold for domain `d`. */
  ghost predicate Sent(cmds: seq<Command>, from: nat, t: Db, d: string) {
    exists i, j :: from <= i <= j <= |cmds| && Runtime.Adds(cmds[i..j], Runtime.RuntimeOf(t, d))
  }

  lemma SentNow(cmds: seq<Command>, from: nat, t: Db, d: string)
    requires from <= |cmds| && Runtime.Adds(cmds[from..], Runtime.RuntimeOf(t, d))
    ensures Sent(cmds, from, t, d)
  {
    hide Runtime.Adds, Runtime.RuntimeOf;
    assert cmds[from..|cmds|] == cmds[from..];
  }

  lemma SameOwners(t: Db, t': Db, d: string, a: string)
    requires DomainRowsKept(t.domains, t'.domains, a) && a != d
    ensures forall u :: OfDomain(t'.domains, u, d) <==> OfDomain(t.domains, u, d)
    ensures forall u :: OfDomain(t'.domains, u, d) ==> !OfDomain(t'.domains, u, a)
  {}

  lemma SameQueues(t: Db, t': Db, d: string, a: string)
    requires OthersKept(t, t', a) && a != d
    ensures Runtime.QueuesOf(t', d) == Runtime.QueuesOf(t, d)
    ensures forall q :: q in Runtime.QueuesOf(t, d) ==> t'.queues[q] == t.queues[q]
  {
    SameOwners(t, t', d, a);
    hide DomainRowsKept;
    forall q ensures q in Runtime.QueuesOf(t', d) <==> q in Runtime.QueuesOf(t, d) {}
  }

  lemma SameAgents(t: Db, t': Db, d: string, a: string)
    requires OthersKept(t, t', a) && a != d
    ensures Runtime.AgentsIn(t', d) == Runtime.AgentsIn(t, d)
    ensures forall b :: b in Runtime.AgentsIn(t, d) ==> t'.agents[b] == t.agents[b]
  {
    SameOwners(t, t', d, a);
    hide DomainRowsKept;
    forall b ensures b in Runtime.AgentsIn(t', d) <==> b in Runtime.AgentsIn(t, d) {}
  }

  lemma SameTiers(t: Db, t': Db, d: string, a: string)
    requires OthersKept(t, t', a) && a != d
    ensures Runtime.TiersIn(t', d) == Runtime.TiersIn(t, d)
    ensures forall x :: x in Runtime.TiersIn(t, d) ==> t'.tiers[x] == t.tiers[x]
  {
    SameOwners(t, t', d, a);
    hide DomainRowsKept;
    forall x ensures x in Runtime.TiersIn(t', d) <==> x in Runtime.TiersIn(t, d) {}
  }

  /** Work on another domain does not change what the tables ask of this one's runtime. */
  lemma OthersRuntime(t: Db, t': Db, d: string, a: string)
    requires OthersKept(t, t', a) && a != d
    ensures Runtime.RuntimeOf(t', d) == Runtime.RuntimeOf(t, d)
  {
    SameQueues(t, t', d, a);
    SameAgents(t, t', d, a);
    SameTiers(t, t', d, a);
    hide OthersKept, Runtime.QueuesOf, Runtime.AgentsIn, Runtime.TiersIn;
  }

  /** So a domain that was rebuilt stays rebuilt while another one is served. */
  lemma StaysSent(cmds: seq<Command>, from: nat, t: Db, d: string, cmds': seq<Command>, t': Db, a: string)
    requires Sent(cmds, from, t, d) && cmds <= cmds' && OthersKept(t, t', a) && a != d
    ensures Sent(cmds', from, t', d)
  {
    OthersRuntime(t, t', d, a);
    hide OthersKept, Runtime.Adds, Runtime.RuntimeOf;
    var i, j :| from <= i <= j <= |cmds| && Runtime.Adds(cmds[i..j], Runtime.RuntimeOf(t, d));
    assert cmds'[i..j] == cmds[i..j];
  }

  /** More commands, or a count from further back, and the stretch is still among them. */
  lemma SentLonger(cmds: seq<Command>, from: nat, t: Db, d: string, cmds': seq<Command>, from': nat)
    requires Sent(cmds, from, t, d) && cmds <= cmds' && from' <= from
    ensures Sent(cmds', from', t, d)
  {
    hide Runtime.Adds, Runtime.RuntimeOf;
    var i, j :| from <= i <= j <= |cmds| && Runtime.Adds(cmds[i..j], Runtime.RuntimeOf(t, d));
    assert cmds'[i..j] == cmds[i..j];
  }
}
