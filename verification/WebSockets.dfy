/** The WebSocket registry of one node, and fan-out between nodes over a publish/subscribe channel
    (app/services/websocket_manager.py:22-190). */
module WebSockets {
  import opened Names

  type Person = nat
  type Socket = nat
  type NodeId = nat

  /** What sending to a socket meets. */
  datatype Health = Open | NotConnected | Raises

  type Registry = map<Person, set<Socket>>

  /** No person is registered without a socket, and no socket under two persons. */
  ghost predicate RegistryOk(reg: Registry) {
    && (forall p :: p in reg ==> reg[p] != {})
    && (forall p, q :: p in reg && q in reg && p != q ==> reg[p] !! reg[q])
  }

  function SocketsOf(reg: Registry, p: Person): set<Socket> {
    if p in reg then reg[p] else {}
  }

  function Add(reg: Registry, p: Person, ws: Socket): Registry {
    reg[p := SocketsOf(reg, p) + {ws}]
  }

  /** The registry with the sockets of `p` set to `left`; an empty set leaves no key. */
  function Keep(reg: Registry, p: Person, left: set<Socket>): Registry {
    if left == {} then reg - {p} else reg[p := left]
  }

  function OpenOnes(s: set<Socket>, health: Socket -> Health): set<Socket> {
    set ws | ws in s && health(ws) == Open
  }

  function NotDead(s: set<Socket>, health: Socket -> Health): set<Socket> {
    set ws | ws in s && health(ws) != Raises
  }

  /** Everyone registered, for a broadcast, or the sockets of one person. */
  function Audience(reg: Registry, target: Option<Person>): set<Socket> {
    match target
    case Some(p) => SocketsOf(reg, p)
    case None => set p, ws | p in reg && ws in reg[p] :: ws
  }

  /** The registry after a send to `target`: sockets that raised are gone. */
  function Cleaned(reg: Registry, target: Option<Person>, health: Socket -> Health): Registry {
    map p | p in reg && (target == None || target == Some(p) ==> NotDead(reg[p], health) != {}) ::
      if target == None || target == Some(p) then NotDead(reg[p], health) else reg[p]
  }

  datatype Message = Message(id: nat, sender: NodeId, person: Option<Person>)

  /** What arrives on the channel. */
  datatype Payload = Malformed | WithoutData | Valid(message: Message)

  class ConnectionManager {
    const nodeId: NodeId
    var connections: Registry
    /** Every (socket, message id) sent by this node, in order. */
    var sent: seq<(Socket, nat)>

    ghost predicate Ok()
      reads this
    {
      RegistryOk(connections)
    }

    constructor (nodeId: NodeId)
      ensures Ok() && connections == map[] && sent == [] && this.nodeId == nodeId
    {
      this.nodeId, connections, sent := nodeId, map[], [];
    }

    /** Register an accepted socket, which no one has registered yet. */
    method Connect(p: Person, ws: Socket)
      requires Ok() && ws !in Audience(connections, None)
      modifies this`connections
      ensures Ok() && connections == Add(old(connections), p, ws)
    {
      AddOk(connections, p, ws);
      hide RegistryOk, Audience;
      if p !in connections {
        connections := connections[p := {}];
      }
      connections := connections[p := connections[p] + {ws}];
    }

    method Disconnect(p: Person, ws: Socket)
      requires Ok()
      modifies this`connections
      ensures Ok() && connections == if p in old(connections) then Keep(old(connections), p, old(connections)[p] - {ws})
          else old(connections)
    {
      if p in connections {
        connections := connections[p := connections[p] - {ws}];
        if connections[p] == {} {
          connections := connections - {p};
        }
      }
    }

    /** One send to each of some sockets; those that raise are reported as dead. */
    method SendAll(targets: set<Socket>, id: nat, health: Socket -> Health) returns (dead: set<Socket>)
      modifies this`sent
      ensures SentOnce(old(sent), sent, OpenOnes(targets, health), id)
      ensures dead == targets - NotDead(targets, health)
    {
      var todo := targets;
      dead := {};
      ghost var done, before := {}, sent;
      SentNothing(before, id, health);
      hide SentOnce, OpenOnes, NotDead;
      while todo != {}
        invariant todo <= targets && done == targets - todo
        invariant dead == done - NotDead(done, health) && SentOnce(before, sent, OpenOnes(done, health), id)
      {
        var ws :| ws in todo;
        OneSocket(done, ws, health);
        SentMore(before, sent, OpenOnes(done, health), id, ws);
        match health(ws) {
          case Open => sent := sent + [(ws, id)];
          case NotConnected =>
          case Raises => dead := dead + {ws};
        }
        todo, done := todo - {ws}, done + {ws};
      }
      assert done == targets;
    }

    /** Send to each local socket of one person; forget the dead ones. */
    method SendToLocal(p: Person, id: nat, health: Socket -> Health)
      requires Ok()
      modifies this`connections, this`sent
      ensures Ok() && connections == Cleaned(old(connections), Some(p), health)
      ensures SentOnce(old(sent), sent, OpenOnes(SocketsOf(old(connections), p), health), id)
    {
      CleanedOne(connections, p, health);
      hide RegistryOk, SentOnce, OpenOnes, Cleaned;
      var dead := SendAll(SocketsOf(connections, p), id, health);
      if p in connections {
        DeadGone(connections[p], health);
        connections := connections[p := connections[p] - dead];
        if connections[p] == {} {
          connections := connections - {p};
        }
      }
    }

    /** Send to every local socket, person by person. */
    method BroadcastLocal(id: nat, health: Socket -> Health)
      requires Ok()
      modifies this`connections, this`sent
      ensures Ok() && connections == Cleaned(old(connections), None, health)
      ensures SentOnce(old(sent), sent, OpenOnes(Audience(old(connections), None), health), id)
    {
      var keys := connections.Keys;
      var todo := keys;
      ghost var reg, before := connections, sent;
      SentNothing(before, id, health);
      BroadcastStart(reg, health);
      hide SentOnce, OpenOnes, Cleaned, RegistryOk;
      while todo != {}
        invariant Ok() && todo <= keys == reg.Keys && BroadcastDone(reg, keys - todo, health, connections)
        invariant SentOnce(before, sent, OpenOnes(AudienceOf(reg, keys - todo), health), id)
      {
        var p :| p in todo;
        BroadcastStep(reg, keys - todo, p, health, connections);
        ghost var middle := sent;
        SendToLocal(p, id, health);
        SentBoth(before, middle, sent, OpenOnes(AudienceOf(reg, keys - todo), health), OpenOnes(reg[p], health), id);
        assert keys - (todo - {p}) == (keys - todo) + {p};
        todo := todo - {p};
      }
      assert keys - todo == keys;
      BroadcastEnd(reg, health, connections);
    }

    /** A message from the channel: its own messages come back and are ignored. */
    method HandleRedisMessage(raw: Payload, health: Socket -> Health)
      requires Ok()
      modifies this`connections, this`sent
      ensures Ok()
      ensures raw.Valid? && raw.message.sender != nodeId ==>
        connections == Cleaned(old(connections), raw.message.person, health)
        && SentOnce(old(sent), sent, OpenOnes(Audience(old(connections), raw.message.person), health), raw.message.id)
      ensures !(raw.Valid? && raw.message.sender != nodeId) ==> connections == old(connections) && sent == old(sent)
    {
      hide SentOnce, OpenOnes, Cleaned, RegistryOk;
      match raw {
        case Malformed =>
        case WithoutData =>
        case Valid(m) =>
          if m.sender == nodeId { return; }
          match m.person {
            case Some(p) => SendToLocal(p, m.id, health);
            case None => BroadcastLocal(m.id, health);
          }
      }
    }
  }

  lemma AddOk(reg: Registry, p: Person, ws: Socket)
    requires RegistryOk(reg) && ws !in Audience(reg, None)
    ensures RegistryOk(Add(reg, p, ws))
  {
    forall q, x | q in reg && x in reg[q] ensures x != ws {
      assert x in Audience(reg, None);
    }
    hide Audience;
  }

  lemma OneSocket(done: set<Socket>, ws: Socket, health: Socket -> Health)
    requires ws !in done
    ensures OpenOnes(done + {ws}, health) == OpenOnes(done, health) + if health(ws) == Open then {ws} else {}
    ensures (done + {ws}) - NotDead(done + {ws}, health) == done - NotDead(done, health)
        + if health(ws) == Raises then {ws} else {}
    ensures ws !in OpenOnes(done, health)
  {}

  lemma DeadGone(s: set<Socket>, health: Socket -> Health)
    ensures s - (s - NotDead(s, health)) == NotDead(s, health)
  {}

  /** The sockets of some persons. */
  function AudienceOf(reg: Registry, ps: set<Person>): set<Socket> {
    set p, ws | p in ps && p in reg && ws in reg[p] :: ws
  }

  /** The registry after the sends to the persons in `done`. */
  ghost predicate BroadcastDone(reg: Registry, done: set<Person>, health: Socket -> Health, now: Registry) {
    && (forall p :: p in now <==> p in reg && (p in done ==> NotDead(reg[p], health) != {}))
    && (forall p :: p in now ==> now[p] == if p in done then NotDead(reg[p], health) else reg[p])
  }

  lemma BroadcastStart(reg: Registry, health: Socket -> Health)
    ensures BroadcastDone(reg, reg.Keys - reg.Keys, health, reg)
    ensures AudienceOf(reg, reg.Keys - reg.Keys) == {} && OpenOnes({}, health) == {}
  {}

  lemma BroadcastStep(reg: Registry, done: set<Person>, p: Person, health: Socket -> Health, now: Registry)
    requires RegistryOk(reg) && BroadcastDone(reg, done, health, now) && p in reg && p !in done
    ensures SocketsOf(now, p) == reg[p] && BroadcastDone(reg, done + {p}, health, Cleaned(now, Some(p), health))
    ensures OpenOnes(AudienceOf(reg, done + {p}), health) == OpenOnes(AudienceOf(reg, done), health)
        + OpenOnes(reg[p], health)
    ensures OpenOnes(AudienceOf(reg, done), health) !! OpenOnes(reg[p], health)
  {
    NextAudience(reg, done, p);
    OpenUnion(AudienceOf(reg, done), reg[p], health);
    hide AudienceOf, RegistryOk, OpenOnes;
    NextRegistry(reg, done, p, health, now);
  }

  lemma OpenUnion(a: set<Socket>, b: set<Socket>, health: Socket -> Health)
    requires a !! b
    ensures OpenOnes(a + b, health) == OpenOnes(a, health) + OpenOnes(b, health)
    ensures OpenOnes(a, health) !! OpenOnes(b, health)
  {}

  lemma NextRegistry(reg: Registry, done: set<Person>, p: Person, health: Socket -> Health, now: Registry)
    requires BroadcastDone(reg, done, health, now) && p in reg && p !in done
    ensures SocketsOf(now, p) == reg[p] && BroadcastDone(reg, done + {p}, health, Cleaned(now, Some(p), health))
  {
    hide NotDead;
  }

  lemma NextAudience(reg: Registry, done: set<Person>, p: Person)
    requires RegistryOk(reg) && p in reg && p !in done
    ensures AudienceOf(reg, done + {p}) == AudienceOf(reg, done) + reg[p] && AudienceOf(reg, done) !! reg[p]
  {}

  lemma BroadcastEnd(reg: Registry, health: Socket -> Health, now: Registry)
    requires BroadcastDone(reg, reg.Keys, health, now)
    ensures now == Cleaned(reg, None, health) && AudienceOf(reg, reg.Keys) == Audience(reg, None)
  {}

  lemma CleanedOne(reg: Registry, p: Person, health: Socket -> Health)
    requires RegistryOk(reg)
    ensures Cleaned(reg, Some(p), health) == if p in reg then Keep(reg, p, NotDead(reg[p], health)) else reg
    ensures RegistryOk(Cleaned(reg, Some(p), health))
  {}

  /** `log'` is `log` and then message `id` to each socket of `to`, once. */
  ghost predicate SentOnce(log: seq<(Socket, nat)>, log': seq<(Socket, nat)>, to: set<Socket>, id: nat) {
    && log <= log' && |log'| == |log| + |to|
    && (forall ws :: ws in to ==> (ws, id) in log'[|log|..])
  }

  lemma SentNothing(log: seq<(Socket, nat)>, id: nat, health: Socket -> Health)
    ensures OpenOnes({}, health) == {} && NotDead({}, health) == {} && SentOnce(log, log, {}, id)
  {}

  lemma SentMore(log: seq<(Socket, nat)>, log': seq<(Socket, nat)>, to: set<Socket>, id: nat, ws: Socket)
    requires SentOnce(log, log', to, id) && ws !in to
    ensures SentOnce(log, log' + [(ws, id)], to + {ws}, id) && to + {} == to
  {
    assert (log' + [(ws, id)])[|log|..] == log'[|log|..] + [(ws, id)];
  }

  lemma SentBoth(a: seq<(Socket, nat)>, b: seq<(Socket, nat)>, c: seq<(Socket, nat)>, to: set<Socket>,
      more: set<Socket>, id: nat)
    requires SentOnce(a, b, to, id) && SentOnce(b, c, more, id) && to !! more
    ensures SentOnce(a, c, to + more, id)
  {
    assert c[|a|..] == b[|a|..] + c[|b|..];
    assert |to + more| == |to| + |more|;
  }

  // -------------------------------------------------------------- many nodes

  /** A message on its way to the local sockets of a node: from the channel, or the sender's own. */
  datatype Post = Post(node: NodeId, message: Message, remote: bool)

  /** All nodes and the channel; `received` and `twice` record who got which message, and got it again. */
  datatype Net = Net(
    nodes: map<NodeId, Registry>, posts: set<Post>, home: map<Socket, NodeId>, owner: map<Socket, Person>,
    messages: map<nat, Message>, received: set<(Socket, nat)>, twice: set<(Socket, nat)>)

  datatype Event =
    | Connecting(node: NodeId, person: Person, ws: Socket)
    | Disconnecting(node: NodeId, person: Person, ws: Socket)
    | Sending(node: NodeId, id: nat, target: Option<Person>, subscribers: set<NodeId>)
    | Delivering(post: Post, health: Socket -> Health)
    | Losing(post: Post)

  /** The sender ignores its own message when the channel brings it back. */
  predicate Counts(post: Post) {
    !(post.remote && post.message.sender == post.node)
  }

  function Deliveries(reg: Registry, m: Message, health: Socket -> Health): set<(Socket, nat)> {
    set ws | ws in OpenOnes(Audience(reg, m.person), health) :: (ws, m.id)
  }

  function Next(net: Net, e: Event): Net {
    match e
    case Connecting(n, p, ws) =>
      if n !in net.nodes || ws in net.home then net
      else net.(nodes := net.nodes[n := Add(net.nodes[n], p, ws)], home := net.home[ws := n],
          owner := net.owner[ws := p])
    case Disconnecting(n, p, ws) =>
      if n !in net.nodes || p !in net.nodes[n] then net
      else net.(nodes := net.nodes[n := Keep(net.nodes[n], p, net.nodes[n][p] - {ws})])
    case Sending(n, id, person, subscribers) =>
      if n !in net.nodes || id in net.messages then net
      else
        var m := Message(id, n, person);
        net.(posts := net.posts + {Post(n, m, false)} + set k | k in subscribers
            && k in net.nodes :: Post(k, m, true), messages := net.messages[id := m])
    case Delivering(post, health) =>
      if post !in net.posts || post.node !in net.nodes then net
      else if !Counts(post) then net.(posts := net.posts - {post})
      else
        var reg := net.nodes[post.node];
        var got := Deliveries(reg, post.message, health);
        net.(posts := net.posts - {post}, nodes := net.nodes[post.node := Cleaned(reg, post.message.person, health)],
             received := net.received + got, twice := net.twice + net.received * got)
    case Losing(post) => net.(posts := net.posts - {post})
  }

  function RunNet(net: Net, events: seq<Event>): Net {
    if events == [] then net else Next(RunNet(net, events[..|events| - 1]), events[|events| - 1])
  }

  /** Registered sockets are at home where they are registered, under their owner. */
  ghost predicate NodeAtHome(reg: Registry, n: NodeId, home: map<Socket, NodeId>, owner: map<Socket, Person>) {
    forall p, ws :: p in reg && ws in reg[p] ==> ws in home && home[ws] == n && ws in owner && owner[ws] == p
  }

  ghost predicate AtHome(nodes: map<NodeId, Registry>, home: map<Socket, NodeId>, owner: map<Socket, Person>) {
    forall n :: n in nodes ==> NodeAtHome(nodes[n], n, home, owner)
  }

  ghost predicate PostsOk(posts: set<Post>, messages: map<nat, Message>) {
    forall x :: x in posts ==>
      x.message.id in messages && messages[x.message.id] == x.message
      && (!x.remote ==> x.message.sender == x.node)
  }

  /** Who received a message was addressed by it, and nothing that counts is still on its way there. */
  ghost predicate ReceivedOk(net: Net) {
    forall r :: r in net.received ==>
      && r.1 in net.messages && r.0 in net.home && r.0 in net.owner
      && (net.messages[r.1].person == None || net.messages[r.1].person == Some(net.owner[r.0]))
      && forall x :: x in net.posts && x.message.id == r.1 && x.node == net.home[r.0] ==> !Counts(x)
  }

  ghost predicate NetOk(net: Net) {
    && (forall n :: n in net.nodes ==> RegistryOk(net.nodes[n]))
    && AtHome(net.nodes, net.home, net.owner) && PostsOk(net.posts, net.messages) && ReceivedOk(net) && net.twice == {}
  }

  lemma NewAtHome(reg: Registry, n: NodeId, k: NodeId, home: map<Socket, NodeId>, owner: map<Socket, Person>,
      p: Person, ws: Socket)
    requires NodeAtHome(reg, n, home, owner) && ws !in home
    ensures NodeAtHome(reg, n, home[ws := k], owner[ws := p])
    ensures NodeAtHome(Add(reg, p, ws), n, home[ws := n], owner[ws := p])
    ensures ws !in Audience(reg, None)
  {}

  lemma ConnectKeeps(net: Net, n: NodeId, p: Person, ws: Socket)
    requires NetOk(net) && n in net.nodes && ws !in net.home
    ensures NetOk(Next(net, Connecting(n, p, ws)))
  {
    hide RegistryOk, NodeAtHome, Audience, Counts, Add;
    forall k | k in net.nodes
      ensures NodeAtHome(net.nodes[k], k, net.home[ws := n], net.owner[ws := p])
    {
      NewAtHome(net.nodes[k], k, n, net.home, net.owner, p, ws);
    }
    NewAtHome(net.nodes[n], n, n, net.home, net.owner, p, ws);
    AddOk(net.nodes[n], p, ws);
  }

  lemma KeepOk(reg: Registry, n: NodeId, home: map<Socket, NodeId>, owner: map<Socket, Person>, p: Person, ws: Socket)
    requires RegistryOk(reg) && NodeAtHome(reg, n, home, owner) && p in reg
    ensures RegistryOk(Keep(reg, p, reg[p] - {ws})) && NodeAtHome(Keep(reg, p, reg[p] - {ws}), n, home, owner)
  {}

  lemma DisconnectKeeps(net: Net, n: NodeId, p: Person, ws: Socket)
    requires NetOk(net) && n in net.nodes && p in net.nodes[n]
    ensures NetOk(Next(net, Disconnecting(n, p, ws)))
  {
    hide RegistryOk, NodeAtHome, Counts, PostsOk, Keep;
    KeepOk(net.nodes[n], n, net.home, net.owner, p, ws);
  }

  lemma SendKeeps(net: Net, n: NodeId, id: nat, person: Option<Person>, subscribers: set<NodeId>)
    requires NetOk(net) && n in net.nodes && id !in net.messages
    ensures NetOk(Next(net, Sending(n, id, person, subscribers)))
  {
    hide RegistryOk, AtHome;
  }

  lemma AddressedOnly(net: Net, n: NodeId, m: Message, health: Socket -> Health, r: (Socket, nat))
    requires NetOk(net) && n in net.nodes && r in Deliveries(net.nodes[n], m, health)
    ensures r.1 == m.id && r.0 in net.home && net.home[r.0] == n && r.0 in net.owner
    ensures m.person == None || m.person == Some(net.owner[r.0])
  {
    hide PostsOk, ReceivedOk, RegistryOk;
  }

  lemma CleanedKeeps(reg: Registry, n: NodeId, home: map<Socket, NodeId>, owner: map<Socket, Person>,
      target: Option<Person>, health: Socket -> Health)
    requires RegistryOk(reg) && NodeAtHome(reg, n, home, owner)
    ensures RegistryOk(Cleaned(reg, target, health)) && NodeAtHome(Cleaned(reg, target, health), n, home, owner)
  {}

  lemma NewcomersOnly(net: Net, post: Post, health: Socket -> Health)
    requires NetOk(net) && post in net.posts && post.node in net.nodes && Counts(post)
    ensures forall r :: r in Deliveries(net.nodes[post.node], post.message, health) ==>
      r.1 == post.message.id && r.0 in net.home && net.home[r.0] == post.node && r.0 in net.owner && r !in net.received
      && (post.message.person == None || post.message.person == Some(net.owner[r.0]))
  {
    hide Deliveries, RegistryOk, NodeAtHome;
    forall r | r in Deliveries(net.nodes[post.node], post.message, health)
      ensures r.1 == post.message.id && r.0 in net.home && net.home[r.0] == post.node && r.0 in net.owner
      ensures r !in net.received
      ensures post.message.person == None || post.message.person == Some(net.owner[r.0])
    {
      AddressedOnly(net, post.node, post.message, health, r);
    }
  }

  lemma ReceivedAfter(net: Net, post: Post, health: Socket -> Health)
    requires NetOk(net) && post in net.posts && post.node in net.nodes && Counts(post)
    ensures ReceivedOk(Next(net, Delivering(post, health))) && Next(net, Delivering(post, health)).twice == {}
  {
    NewcomersOnly(net, post, health);
    hide RegistryOk, AtHome, Cleaned, Deliveries;
  }

  lemma DeliverKeeps(net: Net, post: Post, health: Socket -> Health)
    requires NetOk(net) && post in net.posts && post.node in net.nodes && Counts(post)
    ensures NetOk(Next(net, Delivering(post, health)))
  {
    hide RegistryOk, NodeAtHome, ReceivedOk, Cleaned, Deliveries;
    CleanedKeeps(net.nodes[post.node], post.node, net.home, net.owner, post.message.person, health);
    ReceivedAfter(net, post, health);
    hide Counts;
  }

  lemma StepKeeps(net: Net, e: Event)
    requires NetOk(net)
    ensures NetOk(Next(net, e))
  {
    match e
    case Connecting(n, p, ws) => if n in net.nodes && ws !in net.home { ConnectKeeps(net, n, p, ws); }
    case Disconnecting(n, p, ws) => if n in net.nodes && p in net.nodes[n] { DisconnectKeeps(net, n, p, ws); }
    case Sending(n, id, person, subscribers) => if n in net.nodes
        && id !in net.messages { SendKeeps(net, n, id, person, subscribers); }
    case Delivering(post, health) =>
      if post in net.posts && post.node in net.nodes && Counts(post) { DeliverKeeps(net, post, health); }
    case Losing(post) =>
  }

  /** Over every run of connects, disconnects, sends, deliveries and losses: no socket receives a
      message twice, a person's message reaches only that person's sockets, and no registry of
      any node keeps a person without sockets. */
  lemma {:induction false} FanOut(net: Net, events: seq<Event>)
    requires NetOk(net)
    ensures var now := RunNet(net, events);
      && now.twice == {}
      && (forall r :: r in now.received ==>
          r.1 in now.messages && r.0 in now.owner
              && (now.messages[r.1].person == None || now.messages[r.1].person == Some(now.owner[r.0])))
      && (forall n, p :: n in now.nodes && p in now.nodes[n] ==> now.nodes[n][p] != {})
    ensures NetOk(RunNet(net, events))
  {
    if events != [] {
      FanOut(net, events[..|events| - 1]);
      StepKeeps(RunNet(net, events[..|events| - 1]), events[|events| - 1]);
    }
    hide Next, AtHome, PostsOk;
  }
}
