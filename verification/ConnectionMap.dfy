/** The connection map and broadcasting over it. Go iterates a map in no particular order, so the methods
    below pick the next entry arbitrarily, and what they promise holds for every order. */
module ConnectionMap {
  import opened Text
  import opened Types
  import opened Reader
  import Memory
  import Validation

  // ------------------------------------------------------------ who is written to, by order

  // What broadcasting looks at in a connection.
  datatype Peer = Peer(connected: bool, username: string)

  predicate Matches(p: Peer, sender: string) {
    p.connected && EqualFold(p.username, sender)
  }

  predicate AnyMatch(order: seq<string>, peers: map<string, Peer>, sender: string) {
    exists k :: 0 <= k < |order| && order[k] in peers && Matches(peers[order[k]], sender)
  }

  // The addresses a chat broadcast writes to when it visits the map in this order: every connected one but
  // the first that matches the sender.
  function Recipients(order: seq<string>, peers: map<string, Peer>, sender: string): set<string> {
    if order == [] then {}
    else
      var front, a := order[..|order| - 1], order[|order| - 1];
      var before := Recipients(front, peers, sender);
      if a !in peers || !peers[a].connected then before
      else if Matches(peers[a], sender) && !AnyMatch(front, peers, sender) then before
      else before + {a}
  }

  function ConnectedIn(order: seq<string>, peers: map<string, Peer>): set<string> {
    set a | a in order && a in peers && peers[a].connected
  }

  function ConnectedPeers(peers: map<string, Peer>): set<string> {
    set a | a in peers && peers[a].connected
  }

  // The first match of an order, the only connected address left out.
  lemma {:induction false} AllButFirstMatch(order: seq<string>, peers: map<string, Peer>, sender: string)
    returns (skipped: set<string>)
    requires forall i, j :: 0 <= i < j < |order| ==> order[i] != order[j]
    ensures Recipients(order, peers, sender) == ConnectedIn(order, peers) - skipped
    ensures AnyMatch(order, peers, sender) ==>
      exists a :: skipped == {a} && a in order && a in peers && Matches(peers[a], sender)
    ensures !AnyMatch(order, peers, sender) ==> skipped == {}
  {
    if order == [] {
      skipped := {};
    } else {
      var front, a := order[..|order| - 1], order[|order| - 1];
      var earlier := AllButFirstMatch(front, peers, sender);
      assert a !in front && forall b :: b in order <==> b in front || b == a;
      LastMatch(order, peers, sender);
      ConnectedSnoc(order, peers);
      skipped := if a in peers && Matches(peers[a], sender) && !AnyMatch(front, peers, sender) then {a} else earlier;
      SkippedSnoc(order, peers, sender, earlier);
    }
  }

  lemma SkippedSnoc(order: seq<string>, peers: map<string, Peer>, sender: string, earlier: set<string>)
    requires order != []
    requires var front, a := order[..|order| - 1], order[|order| - 1];
      && a !in front && Recipients(front, peers, sender) == ConnectedIn(front, peers) - earlier
      && (forall b :: b in earlier ==> b in front)
      && (!AnyMatch(front, peers, sender) ==> earlier == {})
    ensures var front, a := order[..|order| - 1], order[|order| - 1];
      Recipients(order, peers, sender) == ConnectedIn(order, peers) -
        (if a in peers && Matches(peers[a], sender) && !AnyMatch(front, peers, sender) then {a} else earlier)
  {
    ConnectedSnoc(order, peers);
  }

  lemma LastMatch(order: seq<string>, peers: map<string, Peer>, sender: string)
    requires order != []
    ensures var front, a := order[..|order| - 1], order[|order| - 1];
      AnyMatch(order, peers, sender) <==> AnyMatch(front, peers, sender) || (a in peers && Matches(peers[a], sender))
  {
    var front := order[..|order| - 1];
    if k :| 0 <= k < |front| && front[k] in peers && Matches(peers[front[k]], sender) {
      assert order[k] == front[k];
    }
    if k :| 0 <= k < |order| && order[k] in peers && Matches(peers[order[k]], sender) {
      assert k < |front| ==> order[k] == front[k];
    }
  }

  // However the map is visited: pending connections are never written to, exactly one connected match is
  // left out if there is any, and so the number of attempts does not depend on the order.
  lemma {:induction false} AttemptsIndependentOfOrder(order: seq<string>, peers: map<string, Peer>, sender: string)
    requires Memory.Enumerates(order, peers.Keys)
    ensures Recipients(order, peers, sender) <= ConnectedPeers(peers)
    ensures
      var some := exists a :: a in peers && Matches(peers[a], sender);
      |Recipients(order, peers, sender)| == |ConnectedPeers(peers)| - (if some then 1 else 0)
  {
    var skipped := AllButFirstMatch(order, peers, sender);
    assert ConnectedIn(order, peers) == ConnectedPeers(peers);
    if a :| a in peers && Matches(peers[a], sender) {
      var k :| 0 <= k < |order| && order[k] == a;
      assert AnyMatch(order, peers, sender);
    }
  }

  // With a single case-insensitive match the recipients themselves do not depend on the order either.
  lemma {:induction false} SoleMatchIsLeftOut(order: seq<string>, peers: map<string, Peer>, sender: string, a: string)
    requires Memory.Enumerates(order, peers.Keys)
    requires a in peers && Matches(peers[a], sender)
    requires forall b :: b in peers && Matches(peers[b], sender) ==> b == a
    ensures Recipients(order, peers, sender) == ConnectedPeers(peers) - {a}
  {
    var skipped := AllButFirstMatch(order, peers, sender);
    assert ConnectedIn(order, peers) == ConnectedPeers(peers);
    var k :| 0 <= k < |order| && order[k] == a;
    assert AnyMatch(order, peers, sender);
  }

  lemma {:induction false} SomeEnumeration(keys: set<string>) returns (order: seq<string>)
    ensures Memory.Enumerates(order, keys)
    decreases |keys|
  {
    if keys == {} {
      order := [];
    } else {
      var k :| k in keys;
      var rest := SomeEnumeration(keys - {k});
      order := rest + [k];
      assert order[|order| - 1] == k;
      forall j | j in keys ensures j in order {
        assert j == k || j in rest;
      }
    }
  }

  // A connected address is spared in every order exactly when it is the only match.
  lemma {:induction false} SparedExactlyWhenSoleMatch(peers: map<string, Peer>, sender: string, a: string)
    requires a in peers && Matches(peers[a], sender)
    ensures (forall order :: Memory.Enumerates(order, peers.Keys) ==> a !in Recipients(order, peers, sender)) <==>
      (forall b :: b in peers && Matches(peers[b], sender) ==> b == a)
  {
    if b :| b in peers && Matches(peers[b], sender) && b != a {
      var rest := SomeEnumeration(peers.Keys - {a});
      var order := rest + [a];
      assert order[|order| - 1] == a;
      forall j | j in peers.Keys ensures j in order {
        assert j == a || j in rest;
      }
      assert Memory.Enumerates(order, peers.Keys);
      assert b in rest;
      assert AnyMatch(rest, peers, sender);
      assert order[..|order| - 1] == rest;
      assert a in Recipients(order, peers, sender);
    } else {
      forall order | Memory.Enumerates(order, peers.Keys) ensures a !in Recipients(order, peers, sender) {
        SoleMatchIsLeftOut(order, peers, sender, a);
      }
    }
  }

  // ------------------------------------------------------------------------ the objects

  class Connection {
    const ipAddr: string
    const accepts: nat -> bool  // what becomes of the k-th write: whether the network takes it
    var username: string
    var state: ConnectionState
    var writes: seq<string>     // the byte strings handed to the network connection, in order

    constructor (ipAddr: string, accepts: nat -> bool)
      ensures this.ipAddr == ipAddr && this.accepts == accepts && username == "" && state == Pending && writes == []
    {
      this.ipAddr, this.accepts := ipAddr, accepts;
      username, state, writes := "", Pending, [];
    }

    function Peek(): Peer
      reads `state, `username
    {
      Peer(state == Connected, username)
    }

    // A write on a network connection reports an error when it writes less than it was given.
    method Write(bytes: string) returns (n: nat, failed: bool)
      modifies this`writes
      ensures writes == old(writes) + [bytes]
      ensures n <= |bytes| && (n < |bytes| ==> failed)
      ensures failed <==> !accepts(|old(writes)|)
    {
      failed := !accepts(|writes|);
      writes := writes + [bytes];
      n :| 0 <= n <= |bytes| && (n < |bytes| ==> failed);
    }

    // Whether sending this text now would succeed.
    function Takes(text: string): bool
      reads `writes
    {
      text == "" || accepts(|writes|)
    }
  }

  // One attempt carries the whole buffer or fails, so the loop makes at most one; an empty buffer makes none.
  method WriteBytes(conn: Connection, buffer: string) returns (written: nat, failed: bool)
    modifies conn`writes
    ensures conn.writes == if buffer == "" then old(conn.writes) else old(conn.writes) + [buffer]
    ensures written == if failed then 0 else |buffer|
    ensures failed <==> !old(conn.Takes(buffer))
  {
    written, failed := 0, false;
    while written < |buffer|
      invariant !failed && (written == 0 || conn.accepts(|old(conn.writes)|))
      invariant written == 0 || written == |buffer|
      invariant conn.writes == if written == 0 then old(conn.writes) else old(conn.writes) + [buffer]
      decreases |buffer| - written
    {
      var n;
      n, failed := conn.Write(buffer);
      if failed {
        return written, true;
      }
      written := written + n;
    }
  }

  // A chat message as it goes out to a client.
  function Canonical(m: ChatMessage): string {
    "{" + m.sender + ":" + m.sentTime + "} " + m.contents + "\r\n"
  }

  // Read from the left, the text gives back the sender, the time and the contents.
  lemma CanonicalReads(m: ChatMessage)
    requires Validation.ValidateName(m.sender) && '}' !in m.sentTime
    ensures Validation.Cut(Canonical(m), '}') == ("{" + m.sender + ":" + m.sentTime, " " + m.contents + "\r\n")
    ensures Validation.Cut(m.sender + ":" + m.sentTime, ':') == (m.sender, m.sentTime)
  {
    var head, rest := "{" + m.sender + ":" + m.sentTime, " " + m.contents + "\r\n";
    assert Canonical(m) == head + ['}'] + rest;
    Validation.CutAtFirst(head, rest, '}');
    assert m.sender + ":" + m.sentTime == m.sender + [':'] + m.sentTime;
    Validation.CutAtFirst(m.sender, m.sentTime, ':');
  }

  class ConnectionMap {
    var connections: map<string, Connection>

    ghost predicate Valid()
      reads this
    {
      && (forall a :: a in connections ==> connections[a].ipAddr == a)
      && (forall a, b :: a in connections && b in connections && a != b ==> connections[a] != connections[b])
    }

    ghost function Peers(): map<string, Peer>
      reads this, connections.Values`state, connections.Values`username
    {
      map a | a in connections :: connections[a].Peek()
    }

    // What has been written to each connection so far.
    ghost function Written(): map<string, seq<string>>
      reads this, connections.Values`writes
    {
      map a | a in connections :: connections[a].writes
    }

    ghost function Network(): map<string, nat -> bool>
      reads this
    {
      map a | a in connections :: connections[a].accepts
    }

    constructor ()
      ensures Valid() && connections == map[]
    {
      connections := map[];
    }

    method AddConn(conn: Connection)
      requires Valid() && forall a :: a in connections && a != conn.ipAddr ==> connections[a] != conn
      modifies this
      ensures Valid() && connections == old(connections)[conn.ipAddr := conn]
    {
      connections := connections[conn.ipAddr := conn];
    }

    method RemoveConn(addr: string) returns (r: Outcome<()>)
      requires Valid()
      modifies this
      ensures Valid()
      ensures r == if addr in old(connections) then Done(()) else Crash(ConnectionMissing)
      ensures connections == old(connections) - {addr}
    {
      if addr !in connections {
        return Crash(ConnectionMissing);
      }
      connections := connections - {addr};
      r := Done(());
    }

    method MarkAsConnected(addr: string) returns (r: Outcome<()>)
      requires Valid()
      modifies connections.Values`state
      ensures Valid() && connections == old(connections)
      ensures r == if addr in connections then Done(()) else Crash(ConnectionMissing)
      ensures Peers() ==
        if addr in connections then old(Peers())[addr := old(Peers())[addr].(connected := true)] else old(Peers())
    {
      if addr !in connections {
        return Crash(ConnectionMissing);
      }
      connections[addr].state := Connected;
      r := Done(());
    }

    method HasConnectedParticipant(username: string) returns (found: bool)
      requires Valid()
      ensures found <==> exists a :: a in connections && connections[a].state == Connected && connections[a].username == username
    {
      var rest := connections.Keys;
      while rest != {}
        invariant rest <= connections.Keys
        invariant forall a :: a in connections && a !in rest ==>
          !(connections[a].state == Connected && connections[a].username == username)
        decreases |rest|
      {
        var a :| a in rest;
        if connections[a].state == Connected && connections[a].username == username {
          return true;
        }
        rest := rest - {a};
      }
      found := false;
    }

    method Empty() returns (empty: bool)
      ensures empty <==> connections == map[]
    {
      empty := |connections| == 0;
    }

    method KeyOrder() returns (order: seq<string>)
      ensures Memory.Enumerates(order, connections.Keys)
      ensures Peers() == old(Peers()) && Network() == old(Network()) && Written() == old(Written())
    {
      order := AnyOrder(connections.Keys);
    }

    // Each recipient gets exactly one write of the canonical text, nobody else gets any. The count returned
    // is always zero: the written length is compared with that of the bare contents, which is shorter.
    method BroadcastChat(m: ChatMessage) returns (sentCount: nat, ghost order: seq<string>)
      requires Valid()
      modifies connections.Values`writes
      ensures Memory.Enumerates(order, connections.Keys) && Peers() == old(Peers())
      ensures Written() == Delivered(old(Written()), Recipients(order, Peers(), m.sender), Canonical(m))
      ensures sentCount == 0
    {
      var keys := KeyOrder();
      order := keys;
      sentCount := SendToOthers(m, keys);
    }

    method SendToOthers(m: ChatMessage, order: seq<string>) returns (sentCount: nat)
      requires Valid() && Memory.Enumerates(order, connections.Keys)
      modifies connections.Values`writes
      ensures Peers() == old(Peers())
      ensures Written() == Delivered(old(Written()), Recipients(order, Peers(), m.sender), Canonical(m))
      ensures sentCount == 0
    {
      sentCount := 0;
      var senderWasSkipped := false;
      ghost var was := Written();
      VisitedNone(Peers(), m, was);
      for k := 0 to |order|
        invariant Peers() == old(Peers())
        invariant Visited(order[..k], Peers(), m, senderWasSkipped, was, Written())
        invariant sentCount == 0
      {
        var counted;
        senderWasSkipped, counted := VisitNext(order, k, m, senderWasSkipped, was);
        sentCount := sentCount + counted;
      }
      assert order[..|order|] == order;
    }

    // One turn of the chat loop.
    method SendChatTo(a: string, m: ChatMessage, skipped: bool) returns (skippedNow: bool, counted: nat)
      requires Valid() && a in connections
      modifies connections.Values`writes
      ensures Peers() == old(Peers())
      ensures skippedNow == (skipped || Matches(Peers()[a], m.sender))
      ensures Written() == Delivered(old(Written()), Adds(Peers()[a], a, m.sender, skipped), Canonical(m))
      ensures counted == 0
    {
      skippedNow, counted := skipped, 0;
      assert Peers()[a] == connections[a].Peek();
      if connections[a].state == Connected {
        if !skipped && EqualFold(connections[a].username, m.sender) {
          return true, 0;
        }
        var n, failed := WriteTo(a, Canonical(m));
        counted := Tally(!failed && n == |m.contents|);
      }
    }

    // The same turn, as progress of the whole loop.
    method VisitNext(order: seq<string>, k: nat, m: ChatMessage, skipped: bool, ghost was: map<string, seq<string>>)
      returns (skippedNow: bool, counted: nat)
      requires Valid() && Memory.Enumerates(order, connections.Keys) && k < |order|
      requires Visited(order[..k], Peers(), m, skipped, was, Written())
      modifies connections.Values`writes
      ensures Peers() == old(Peers())
      ensures Visited(order[..k + 1], Peers(), m, skippedNow, was, Written())
      ensures counted == 0
    {
      VisitOneMore(order, k, Peers(), m, skipped, was, Written());
      skippedNow, counted := SendChatTo(order[k], m, skipped);
    }

    method WriteTo(a: string, text: string) returns (n: nat, failed: bool)
      requires Valid() && a in connections
      modifies connections.Values`writes
      ensures Peers() == old(Peers())
      ensures Written() == Delivered(old(Written()), {a}, text)
      ensures n == if failed then 0 else |text|
      ensures failed <==> !old(connections[a].Takes(text))
    {
      var conn := connections[a];
      n, failed := WriteBytes(conn, text);
      forall b | b in connections
        ensures connections[b].writes ==
          if b == a && text != "" then old(connections[b].writes) + [text] else old(connections[b].writes)
      {
        assert b != a ==> connections[b] != conn;
      }
    }

    // A system message goes to its recipient if that is in the map, or, without a recipient, to everybody
    // who is connected. The count returned is that of the recipients to whom sending succeeds.
    method BroadcastSys(recipient: string, text: string) returns (sentCount: nat)
      requires Valid()
      modifies connections.Values`writes
      ensures Peers() == old(Peers())
      ensures Written() == Delivered(old(Written()), SysRecipients(recipient, Peers()), text)
      ensures sentCount == |SysRecipients(recipient, Peers()) * Takers(text, Network(), old(Written()))|
    {
      if recipient == "" {
        var keys := KeyOrder();
        sentCount := SendToConnected(text, keys, Peers(), Network(), Written());
        AllNotified(keys, Peers(), text, Network(), sentCount, old(Written()), Written());
      } else {
        sentCount := SendToOne(recipient, text);
      }
    }

    method SendToOne(recipient: string, text: string) returns (sentCount: nat)
      requires Valid() && recipient != ""
      modifies connections.Values`writes
      ensures Peers() == old(Peers())
      ensures Written() == Delivered(old(Written()), SysRecipients(recipient, Peers()), text)
      ensures sentCount == |SysRecipients(recipient, Peers()) * Takers(text, Network(), old(Written()))|
    {
      OneRecipient(recipient, Peers(), text, Network(), Written());
      sentCount := 0;
      if recipient in connections {
        var n, failed := WriteTo(recipient, text);
        sentCount := Tally(!failed && n == |text|);
      }
    }

    method SendToConnected(text: string, order: seq<string>, ghost peers: map<string, Peer>,
                           ghost network: map<string, nat -> bool>, ghost was: map<string, seq<string>>)
      returns (sentCount: nat)
      requires Valid() && Memory.Enumerates(order, connections.Keys)
      requires Peers() == peers && Network() == network && Written() == was
      modifies connections.Values`writes
      ensures Peers() == peers
      ensures Notified(order, peers, text, network, sentCount, was, Written())
    {
      sentCount := 0;
      NotifiedNone(peers, text, network, was);
      for k := 0 to |order|
        invariant Peers() == peers && Network() == network
        invariant Notified(order[..k], peers, text, network, sentCount, was, Written())
      {
        var sent := NotifyNext(order, k, text, peers, network, sentCount, was);
        sentCount := sentCount + sent;
      }
      assert order[..|order|] == order;
    }

    // One turn of the system message loop.
    method SendSysTo(a: string, text: string) returns (sent: nat)
      requires Valid() && a in connections
      modifies connections.Values`writes
      ensures Peers() == old(Peers())
      ensures Written() == Delivered(old(Written()), ConnectedAmong({a}, Peers()), text)
      ensures sent == if Peers()[a].connected && old(connections[a].Takes(text)) then 1 else 0
    {
      sent := 0;
      assert Peers()[a] == connections[a].Peek();
      if connections[a].state == Connected {
        assert ConnectedAmong({a}, Peers()) == {a};
        var n, failed := WriteTo(a, text);
        sent := Tally(!failed && n == |text|);
      }
    }

    // A connection that has not been visited yet takes the text exactly if it would have at the start.
    lemma TakesStill(order: seq<string>, k: nat, text: string, network: map<string, nat -> bool>,
                     count: nat, was: map<string, seq<string>>)
      requires Memory.Enumerates(order, connections.Keys) && k < |order| && Network() == network
      requires Notified(order[..k], Peers(), text, network, count, was, Written())
      ensures order[k] in connections
      ensures Takes(order[k], text, network, was) <==> connections[order[k]].Takes(text)
    {
      var a := order[k];
      assert a !in order[..k];
      assert Written()[a] == connections[a].writes == was[a];
    }

    // The same turn, as progress of the whole loop.
    method NotifyNext(order: seq<string>, k: nat, text: string, ghost peers: map<string, Peer>,
                      ghost network: map<string, nat -> bool>, ghost count: nat, ghost was: map<string, seq<string>>)
      returns (sent: nat)
      requires Valid() && Memory.Enumerates(order, connections.Keys) && k < |order|
      requires Peers() == peers && Network() == network
      requires Notified(order[..k], peers, text, network, count, was, Written())
      modifies connections.Values`writes
      ensures Peers() == peers && Network() == network
      ensures Notified(order[..k + 1], peers, text, network, count + sent, was, Written())
    {
      NotifyOneMore(order, k, peers, text, network, count, was, Written());
      TakesStill(order, k, text, network, count, was);
      sent := SendSysTo(order[k], text);
    }
  }

  // The order in which a map iteration happens to visit the keys.
  method AnyOrder(keys: set<string>) returns (order: seq<string>)
    ensures Memory.Enumerates(order, keys)
  {
    order := [];
    var rest := keys;
    while rest != {}
      invariant rest <= keys && Memory.Enumerates(order, keys - rest)
      decreases |rest|
    {
      var a :| a in rest;
      EnumeratesMore(order, a, keys - rest);
      assert keys - (rest - {a}) == keys - rest + {a};
      order, rest := order + [a], rest - {a};
    }
    assert keys - rest == keys;
  }

  // Whether the connection would take the text after these writes.
  predicate Takes(a: string, text: string, network: map<string, nat -> bool>, was: map<string, seq<string>>) {
    a in was && a in network && (text == "" || network[a](|was[a]|))
  }

  ghost function Takers(text: string, network: map<string, nat -> bool>, was: map<string, seq<string>>): set<string> {
    set a | a in was && Takes(a, text, network, was)
  }

  function ConnectedAmong(keys: set<string>, peers: map<string, Peer>): set<string> {
    set a | a in keys && a in peers && peers[a].connected
  }

  // To how many of the connected entries of this order the text can be sent.
  function Successes(order: seq<string>, peers: map<string, Peer>, text: string, network: map<string, nat -> bool>,
                     was: map<string, seq<string>>): nat {
    if order == [] then 0
    else
      var a := order[|order| - 1];
      Successes(order[..|order| - 1], peers, text, network, was) +
      (if a in peers && peers[a].connected && Takes(a, text, network, was) then 1 else 0)
  }

  // The system message loop's progress after visiting part of the order.
  ghost predicate Notified(order: seq<string>, peers: map<string, Peer>, text: string,
                           network: map<string, nat -> bool>, count: nat,
                           was: map<string, seq<string>>, now: map<string, seq<string>>) {
    && now == Delivered(was, ConnectedIn(order, peers), text)
    && count == Successes(order, peers, text, network, was)
  }

  lemma NotifiedNone(peers: map<string, Peer>, text: string, network: map<string, nat -> bool>, was: map<string, seq<string>>)
    ensures Notified([], peers, text, network, 0, was, was)
  {
  }

  lemma NotifyOneMore(order: seq<string>, k: nat, peers: map<string, Peer>, text: string,
                      network: map<string, nat -> bool>, count: nat,
                      was: map<string, seq<string>>, now: map<string, seq<string>>)
    requires Memory.Enumerates(order, peers.Keys) && k < |order|
    requires Notified(order[..k], peers, text, network, count, was, now)
    ensures
      var a := order[k];
      Notified(order[..k + 1], peers, text, network,
               count + (if peers[a].connected && Takes(a, text, network, was) then 1 else 0),
               was, Delivered(now, ConnectedAmong({a}, peers), text))
  {
    var a := order[k];
    assert order[..k + 1] == order[..k] + [a] && order[..k + 1][..k] == order[..k];
    assert a !in order[..k];
    ConnectedSnoc(order[..k + 1], peers);
    assert ConnectedAmong({a}, peers) == if peers[a].connected then {a} else {};
    DeliveredTwice(was, ConnectedIn(order[..k], peers), ConnectedAmong({a}, peers), text);
  }

  lemma {:induction false} CountSuccesses(order: seq<string>, peers: map<string, Peer>, text: string,
                                          network: map<string, nat -> bool>, was: map<string, seq<string>>)
    requires was.Keys == peers.Keys && forall i, j :: 0 <= i < j < |order| ==> order[i] != order[j]
    ensures Successes(order, peers, text, network, was) ==
      |ConnectedIn(order, peers) * Takers(text, network, was)|
  {
    if order == [] {
      assert ConnectedIn(order, peers) * Takers(text, network, was) == {};
    } else {
      var front, a := order[..|order| - 1], order[|order| - 1];
      CountSuccesses(front, peers, text, network, was);
      assert a !in front;
      ConnectedSnoc(order, peers);
      TakersMember(a, peers, text, network, was);
      OneMoreTaker(ConnectedIn(front, peers), Takers(text, network, was), a, a in peers && peers[a].connected);
    }
  }

  lemma TakersMember(a: string, peers: map<string, Peer>, text: string, network: map<string, nat -> bool>,
                     was: map<string, seq<string>>)
    requires was.Keys == peers.Keys
    ensures a in Takers(text, network, was) <==> Takes(a, text, network, was)
  {
  }

  lemma ConnectedSnoc(order: seq<string>, peers: map<string, Peer>)
    requires order != []
    ensures var front, a := order[..|order| - 1], order[|order| - 1];
      ConnectedIn(order, peers) ==
      ConnectedIn(front, peers) + (if a in peers && peers[a].connected then {a} else {})
  {
    assert order == order[..|order| - 1] + [order[|order| - 1]];
  }

  lemma OneMoreTaker(to: set<string>, takers: set<string>, a: string, connected: bool)
    requires a !in to
    ensures |(to + (if connected then {a} else {})) * takers| == |to * takers| + (if connected && a in takers then 1 else 0)
  {
    if connected && a in takers {
      assert (to + {a}) * takers == to * takers + {a};
    } else if connected {
      assert (to + {a}) * takers == to * takers;
    } else {
      assert to + {} == to;
    }
  }

  lemma AllNotified(order: seq<string>, peers: map<string, Peer>, text: string, network: map<string, nat -> bool>,
                    count: nat, was: map<string, seq<string>>, now: map<string, seq<string>>)
    requires Memory.Enumerates(order, peers.Keys) && was.Keys == peers.Keys
    requires Notified(order, peers, text, network, count, was, now)
    ensures now == Delivered(was, SysRecipients("", peers), text)
    ensures count == |SysRecipients("", peers) * Takers(text, network, was)|
  {
    assert ConnectedIn(order, peers) == ConnectedPeers(peers);
    CountSuccesses(order, peers, text, network, was);
  }

  lemma OneRecipient(a: string, peers: map<string, Peer>, text: string, network: map<string, nat -> bool>,
                     was: map<string, seq<string>>)
    requires a != "" && was.Keys == peers.Keys
    ensures SysRecipients(a, peers) == if a in peers then {a} else {}
    ensures |SysRecipients(a, peers) * Takers(text, network, was)| ==
      if a in peers && Takes(a, text, network, was) then 1 else 0
  {
    var to, takers := SysRecipients(a, peers), Takers(text, network, was);
    assert to == if a in peers then {a} else {};
    assert to * takers == if a in peers && Takes(a, text, network, was) then {a} else {};
  }

  // Every one of these addresses has been written to once more. Writing an empty text writes nothing.
  function Delivered(was: map<string, seq<string>>, to: set<string>, text: string): map<string, seq<string>> {
    map a | a in was :: if a in to && text != "" then was[a] + [text] else was[a]
  }

  lemma DeliveredTwice(was: map<string, seq<string>>, to: set<string>, add: set<string>, text: string)
    requires to !! add
    ensures Delivered(Delivered(was, to, text), add, text) == Delivered(was, to + add, text)
  {
  }

  function SysRecipients(recipient: string, peers: map<string, Peer>): set<string> {
    if recipient == "" then ConnectedPeers(peers) else set a | a in peers && a == recipient
  }

  // What visiting one more entry adds to the recipients.
  function Adds(p: Peer, a: string, sender: string, skipped: bool): set<string> {
    if p.connected && (skipped || !Matches(p, sender)) then {a} else {}
  }

  // The chat loop's progress after visiting part of the order.
  ghost predicate Visited(order: seq<string>, peers: map<string, Peer>, m: ChatMessage,
                          skipped: bool, was: map<string, seq<string>>, now: map<string, seq<string>>) {
    && skipped == AnyMatch(order, peers, m.sender)
    && now == Delivered(was, Recipients(order, peers, m.sender), Canonical(m))
  }

  lemma VisitedNone(peers: map<string, Peer>, m: ChatMessage, was: map<string, seq<string>>)
    ensures Visited([], peers, m, false, was, was)
  {
  }

  lemma VisitOneMore(order: seq<string>, k: nat, peers: map<string, Peer>, m: ChatMessage,
                     skipped: bool, was: map<string, seq<string>>, now: map<string, seq<string>>)
    requires Memory.Enumerates(order, peers.Keys) && k < |order|
    requires Visited(order[..k], peers, m, skipped, was, now)
    ensures var a := order[k];
      Visited(order[..k + 1], peers, m, skipped || Matches(peers[a], m.sender),
              was, Delivered(now, Adds(peers[a], a, m.sender, skipped), Canonical(m)))
  {
    var front, a := order[..k], order[k];
    assert order[..k + 1] == front + [a] && a !in front;
    NextRecipient(front, a, peers, m.sender);
    RecipientsAreListed(front, peers, m.sender);
    DeliveredTwice(was, Recipients(front, peers, m.sender), Adds(peers[a], a, m.sender, skipped), Canonical(m));
  }

  lemma {:induction false} NextRecipient(order: seq<string>, a: string, peers: map<string, Peer>, sender: string)
    requires a in peers
    ensures Recipients(order + [a], peers, sender) ==
      Recipients(order, peers, sender) + Adds(peers[a], a, sender, AnyMatch(order, peers, sender))
    ensures AnyMatch(order + [a], peers, sender) == (AnyMatch(order, peers, sender) || Matches(peers[a], sender))
  {
    var longer := order + [a];
    assert longer[..|longer| - 1] == order;
    assert longer[|order|] == a;
    LastMatch(longer, peers, sender);
  }

  lemma {:induction false} RecipientsAreListed(order: seq<string>, peers: map<string, Peer>, sender: string)
    ensures forall a :: a in Recipients(order, peers, sender) ==> a in order
  {
    if order != [] {
      RecipientsAreListed(order[..|order| - 1], peers, sender);
    }
  }

  lemma EnumeratesMore(order: seq<string>, a: string, keys: set<string>)
    requires Memory.Enumerates(order, keys) && a !in keys
    ensures Memory.Enumerates(order + [a], keys + {a}) && a !in order
  {
    assert (order + [a])[|order|] == a;
    forall k | k in keys ensures k in order + [a] {
      assert k in order;
    }
  }

  function Tally(sent: bool): nat {
    if sent then 1 else 0
  }
}
