/** Who a chat message can reach, in every reachable world and for every order in which the connection map may
    be visited. */
module SessionBroadcast {
  import opened Text
  import opened Types
  import opened Validation
  import opened IdleWatcher
  import opened Reader
  import opened Session
  import opened SessionInvariant
  import opened SessionHistory
  import opened SessionWitness
  import opened ConnectionMap
  import Memory

  function PeerOf(h: Handler): Peer {
    Peer(h.conn == Connected, h.participant.username)
  }

  // The connection map as broadcasting sees it.
  function PeersOf(s: World): map<string, Peer>
    requires MapOk(s)
  {
    map a | a in s.conns :: PeerOf(s.handlers[s.conns[a]])
  }

  // The sender of the message in the loop's hand, and what of it is frozen.
  lemma HandIsSenders(hash: Digest, s: World)
    requires HexShaped(hash) && Reachable(hash, s) && s.loop.HasChat?
    ensures MapOk(s) && s.loop.entry.from < |s.handlers|
    ensures var h := s.handlers[s.loop.entry.from];
      h.conn == Connected && s.loop.entry.msg.sender == h.participant.username
  {
    ReachableInv(hash, s);
    var e := s.loop.entry;
    var h := s.handlers[e.from];
    assert Accounted(s, e.from) && HandlerOk(h);
    assert InHand(s.loop, e.from) == [e.msg];
    var k := |Of(s.sent, e.from)|;
    assert h.stored[k] == e.msg;
  }

  // A chat message is written only to live connections with an account of their own. How many connections
  // are tried does not depend on the order, and is one less than all the connected ones if the sender is
  // still there or some other connection has its name in another letter case.
  lemma {:induction false} ChatReaches(hash: Digest, s: World, order: seq<string>)
    requires HexShaped(hash) && Reachable(hash, s) && s.loop.HasChat?
    requires Memory.Enumerates(order, s.conns.Keys)
    ensures MapOk(s)
    ensures
      var sender, to := s.loop.entry.msg.sender, Recipients(order, PeersOf(s), s.loop.entry.msg.sender);
      && (forall a :: a in to ==> a in s.conns && Speaks(s, s.conns[a]))
      && |to| == |ConnectedPeers(PeersOf(s))| -
           (if exists a :: a in PeersOf(s) && Matches(PeersOf(s)[a], sender) then 1 else 0)
  {
    HandIsSenders(hash, s);
    var peers, sender := PeersOf(s), s.loop.entry.msg.sender;
    AttemptsIndependentOfOrder(order, peers, sender);
    forall a | a in Recipients(order, peers, sender) ensures a in s.conns && Speaks(s, s.conns[a]) {
      assert peers[a].connected;
      HasAccount(hash, s, s.conns[a]);
    }
  }

  predicate Speaks(s: World, i: nat) {
    && i < |s.handlers| && Live(s.handlers[i]) && s.handlers[i].conn == Connected
    && s.handlers[i].participant.username in s.store.participants
  }

  lemma HasAccount(hash: Digest, s: World, i: nat)
    requires HexShaped(hash) && Reachable(hash, s) && i < |s.handlers|
    requires s.handlers[i].conn == Connected && Live(s.handlers[i])
    ensures Speaks(s, i)
  {
    ReachableInv(hash, s);
    assert OwnerOk(s, i);
    assert AccountOk(hash, s, s.handlers[i].participant.username);
  }

  // A live connected handler, other than i, whose username differs from handler i's in letter case at most.
  predicate Namesake(s: World, i: nat, j: nat)
    requires i < |s.handlers|
  {
    && j < |s.handlers| && j != i && Live(s.handlers[j]) && s.handlers[j].conn == Connected
    && EqualFold(s.handlers[j].participant.username, s.handlers[i].participant.username)
  }

  // The sender never gets its own message back, whatever the order, exactly when no other connection on line
  // has the same username up to letter case. Registration forbids only exact duplicates.
  lemma SenderSparedExactly(hash: Digest, s: World)
    requires HexShaped(hash) && Reachable(hash, s) && s.loop.HasChat?
    requires s.loop.entry.from < |s.handlers| && Live(s.handlers[s.loop.entry.from])
    ensures MapOk(s)
    ensures
      var i, msg := s.loop.entry.from, s.loop.entry.msg;
      (forall order :: Memory.Enumerates(order, s.conns.Keys) ==>
         s.handlers[i].addr !in Recipients(order, PeersOf(s), msg.sender)) <==>
      !exists j: nat :: Namesake(s, i, j)
  {
    HandIsSenders(hash, s);
    var i, sender, peers := s.loop.entry.from, s.loop.entry.msg.sender, PeersOf(s);
    var a := s.handlers[i].addr;
    NamesakesMatch(s, i);
    SparedExactlyWhenSoleMatch(peers, sender, a);
  }

  lemma NamesakesMatch(s: World, i: nat)
    requires MapOk(s) && i < |s.handlers| && Live(s.handlers[i]) && s.handlers[i].conn == Connected
    ensures
      var peers, a, u := PeersOf(s), s.handlers[i].addr, s.handlers[i].participant.username;
      && a in peers && Matches(peers[a], u)
      && ((exists j: nat :: Namesake(s, i, j)) <==> exists b :: b in peers && Matches(peers[b], u) && b != a)
  {
    var peers, a, u := PeersOf(s), s.handlers[i].addr, s.handlers[i].participant.username;
    assert s.conns[a] == i;
    if j: nat :| Namesake(s, i, j) {
      var b := s.handlers[j].addr;
      assert s.conns[b] == j;
      assert b in peers && Matches(peers[b], u) && b != a;
    }
    if b :| b in peers && Matches(peers[b], u) && b != a {
      assert Namesake(s, i, s.conns[b]);
    }
  }

  // -------------------------------------------------------------- two namesakes in the chat

  predicate Chatting(h: Handler) {
    h.at == Reading && h.conn == Connected && h.state == AcceptingMessages && h.watchers == [STARTED] && !h.closed
  }

  lemma TwoNamesakes(hash: Digest) returns (s: World)
    requires HexShaped(hash)
    ensures Ready(hash, s) && |s.handlers| == 2 && Chatting(s.handlers[0]) && Namesake(s, 0, 1)
  {
    InitialReady(hash);
    var f, g := SampleForms();
    var s1 := Connect(hash, INITIAL, "a", f);
    s := Joins(hash, s1, "b", g);
  }

  lemma Stores(hash: Digest, s: World, i: nat) returns (t: World)
    requires Ready(hash, s) && i < |s.handlers| && s.handlers[i].at == Reader.StoreMessage
    ensures Ready(hash, t) && |t.handlers| == |s.handlers| && t.handlers == s.handlers[i := t.handlers[i]]
    ensures t.handlers[i] == s.handlers[i].(at := t.handlers[i].at, stored := t.handlers[i].stored)
    ensures t.handlers[i].at.SendChat?
  {
    StepReach(hash, s, Go(i, "", ""));
    t := Next(hash, s, Go(i, "", "")).value;
  }

  // The abort signal is taken, the message is stored and the message loop takes it.
  lemma Utter(hash: Digest, s: World, i: nat) returns (t: World)
    requires Ready(hash, s) && i < |s.handlers| && s.handlers[i].at == AbortTimeout
    requires s.handlers[i].watchers == [STARTED] && s.handlers[i].state == AcceptingMessages
    ensures Reachable(hash, t) && t.loop.HasChat? && t.loop.entry.from == i
    ensures |t.handlers| == |s.handlers| && t.handlers == s.handlers[i := t.handlers[i]]
    ensures t.handlers[i] == s.handlers[i].(
      at := Reading, watchers := t.handlers[i].watchers, stored := t.handlers[i].stored)
  {
    StepReach(hash, s, Abort(i, 0));
    var s1 := Next(hash, s, Abort(i, 0)).value;
    var s2 := Stores(hash, s1, i);
    StepReach(hash, s2, HandChat(i));
    t := Next(hash, s2, HandChat(i)).value;
  }

  // A line typed into the chat, up to the message loop's taking it.
  lemma Chat(hash: Digest, s: World, i: nat, line: string) returns (t: World)
    requires Ready(hash, s) && i < |s.handlers| && Plain(line) && Chatting(s.handlers[i])
    ensures Reachable(hash, t) && t.loop.HasChat? && t.loop.entry.from == i
    ensures |t.handlers| == |s.handlers| && t.handlers == s.handlers[i := t.handlers[i]]
    ensures t.handlers[i] == s.handlers[i].(
      buffer := line, watchers := t.handlers[i].watchers, stored := t.handlers[i].stored)
  {
    var h := s.handlers[i];
    PlainLine(h.(buffer := line, at := Line), s.store.objects[h.channel]);
    var s1 := Type(hash, s, i, line, h.(buffer := line, at := AbortTimeout));
    t := Utter(hash, s1, i);
  }

  // The program does let this happen: a sender among its own message's recipients.
  lemma SenderMayHearItself(hash: Digest) returns (s: World, order: seq<string>)
    requires HexShaped(hash)
    ensures Reachable(hash, s) && MapOk(s) && s.loop.HasChat? && Memory.Enumerates(order, s.conns.Keys)
    ensures s.loop.entry.from < |s.handlers| && Live(s.handlers[s.loop.entry.from])
    ensures s.handlers[s.loop.entry.from].addr in Recipients(order, PeersOf(s), s.loop.entry.msg.sender)
  {
    SamplesArePlain();
    var s0 := TwoNamesakes(hash);
    s := Chat(hash, s0, 0, CHANNEL);
    assert Namesake(s, 0, 1);
    SenderSparedExactly(hash, s);
    order :| Memory.Enumerates(order, s.conns.Keys) &&
      s.handlers[0].addr in Recipients(order, PeersOf(s), s.loop.entry.msg.sender);
  }

  // ------------------------------------------------------- the loop's step on the map itself

  // The map of this world is that of the objects.
  ghost predicate IsMapOf(connMap: ConnectionMap, s: World)
    reads connMap, connMap.connections.Values`state, connMap.connections.Values`username
  {
    connMap.Valid() && MapOk(s) && connMap.Peers() == PeersOf(s)
  }

  // The message loop broadcasts the message in its hand: the session takes its step, and on the connections
  // themselves each recipient gets exactly one write of that message and nobody else gets any.
  method BroadcastInHand(connMap: ConnectionMap, msg: ChatMessage, ghost hash: Digest, ghost s: World)
    returns (sentCount: nat, ghost order: seq<string>)
    requires HexShaped(hash) && Reachable(hash, s) && s.panic.None? && s.loop.HasChat? && s.loop.entry.msg == msg
    requires IsMapOf(connMap, s)
    modifies connMap.connections.Values`writes
    ensures var t := Next(hash, s, Broadcast);
      t.Some? && Reachable(hash, t.value) && t.value.sent == s.sent + [s.loop.entry] && IsMapOf(connMap, t.value)
    ensures Memory.Enumerates(order, s.conns.Keys)
    ensures var to := Recipients(order, PeersOf(s), msg.sender);
      && connMap.Written() == Delivered(old(connMap.Written()), to, Canonical(msg))
      && forall a :: a in to ==> a in s.conns && Speaks(s, s.conns[a])
  {
    HandBroadcasts(hash, s);
    assert PeersOf(s).Keys == s.conns.Keys;
    sentCount, order := connMap.BroadcastChat(msg);
    ChatReaches(hash, s, order);
  }

  lemma HandBroadcasts(hash: Digest, s: World)
    requires HexShaped(hash) && Reachable(hash, s) && s.panic.None? && s.loop.HasChat?
    ensures MapOk(s)
    ensures var t := Next(hash, s, Broadcast);
      && t.Some? && Reachable(hash, t.value) && t.value.sent == s.sent + [s.loop.entry]
      && MapOk(t.value) && PeersOf(t.value) == PeersOf(s)
  {
    ReachableInv(hash, s);
    StepReach(hash, s, Broadcast);
  }

  // The message loop sends out the system message in its hand: to the client it is for, and, when it is the news
  // that somebody has left, to every connected client and to no pending one.
  method AnnounceInHand(connMap: ConnectionMap, recipient: string, text: string, ghost hash: Digest, ghost s: World)
    returns (sentCount: nat)
    requires HexShaped(hash) && Reachable(hash, s) && s.panic.None? && s.loop == HasSys(recipient)
    requires IsMapOf(connMap, s)
    modifies connMap.connections.Values`writes
    ensures var t := Next(hash, s, Broadcast);
      t == Some(s.(loop := Waiting)) && Reachable(hash, t.value) && IsMapOf(connMap, t.value)
    ensures connMap.Written().Keys == s.conns.Keys
    ensures forall a :: a in s.conns ==>
      connMap.Written()[a] == old(connMap.Written())[a] + (if IsTold(s, recipient, a) && text != "" then [text] else [])
  {
    HandAnnounces(hash, s);
    assert PeersOf(s).Keys == s.conns.Keys;
    sentCount := connMap.BroadcastSys(recipient, text);
    WhoIsTold(s, recipient, text, old(connMap.Written()));
  }

  // The client itself, or, without a recipient, whoever is connected.
  predicate IsTold(s: World, recipient: string, a: string) {
    && a in s.conns && s.conns[a] < |s.handlers|
    && if recipient == "" then s.handlers[s.conns[a]].conn == Connected else a == recipient
  }

  lemma WhoIsTold(s: World, recipient: string, text: string, was: map<string, seq<string>>)
    requires MapOk(s) && was.Keys == s.conns.Keys
    ensures forall a :: a in s.conns ==>
      Delivered(was, SysRecipients(recipient, PeersOf(s)), text)[a] ==
      was[a] + (if IsTold(s, recipient, a) && text != "" then [text] else [])
  {
    forall a | a in s.conns ensures a in SysRecipients(recipient, PeersOf(s)) <==> IsTold(s, recipient, a) {
      assert PeersOf(s)[a] == PeerOf(s.handlers[s.conns[a]]);
    }
  }

  lemma HandAnnounces(hash: Digest, s: World)
    requires HexShaped(hash) && Reachable(hash, s) && s.panic.None? && s.loop.HasSys?
    ensures var t := Next(hash, s, Broadcast);
      && t == Some(s.(loop := Waiting)) && Reachable(hash, t.value)
      && MapOk(s) && MapOk(t.value) && PeersOf(t.value) == PeersOf(s)
  {
    ReachableInv(hash, s);
    StepReach(hash, s, Broadcast);
  }
}
