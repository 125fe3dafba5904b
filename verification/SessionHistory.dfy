/** Theorems about what is stored and what is broadcast, in every reachable world. */
module SessionHistory {
  import opened Text
  import opened Types
  import opened Validation
  import opened Reader
  import opened Session
  import opened SessionInvariant
  import Memory

  ghost predicate Reachable(hash: Digest, s: World) {
    exists run :: Run(hash, INITIAL, run) == Some(s)
  }

  lemma ReachableInv(hash: Digest, s: World)
    requires HexShaped(hash) && Reachable(hash, s)
    ensures Inv(hash, s)
  {
    var run :| Run(hash, INITIAL, run) == Some(s);
    InitialInv(hash);
    RunKeepsInv(hash, INITIAL, run);
  }

  lemma HandlerInv(hash: Digest, s: World, i: nat)
    requires HexShaped(hash) && Reachable(hash, s) && i < |s.handlers|
    ensures RefsOk(s) && HandlerOk(s.handlers[i])
  {
    ReachableInv(hash, s);
  }

  lemma {:induction false} OfContains(log: seq<Entry>, k: nat)
    requires k < |log|
    ensures log[k].msg in Of(log, log[k].from)
  {
    if k < |log| - 1 {
      OfContains(log[..|log| - 1], k);
    }
  }

  // Every message in the history was stored by a connection that is marked connected, under the username of
  // that connection, which has an account; and none was filed under a channel.
  lemma OnlyAccountHoldersSpeak(hash: Digest, s: World, k: nat)
    requires HexShaped(hash) && Reachable(hash, s) && k < |s.store.chatHistory|
    ensures |s.log| == |s.store.chatHistory| && s.log[k].msg == s.store.chatHistory[k]
    ensures s.log[k].from < |s.handlers|
    ensures
      var h, m := s.handlers[s.log[k].from], s.store.chatHistory[k];
      && h.conn == Connected
      && m.sender == h.participant.username
      && m.sender in s.store.participants
      && s.store.participants[m.sender] == Memory.Account(hash, h.participant)
      && ValidateName(m.sender)
      && m.channel == ""
  {
    ReachableInv(hash, s);
    var i, m := s.log[k].from, s.store.chatHistory[k];
    OfContains(s.log, k);
    assert Accounted(s, i);
    assert m in s.handlers[i].stored;
    assert HandlerOk(s.handlers[i]);
    assert OwnerOk(s, i);
    assert AccountOk(hash, s, m.sender);
  }

  // Nothing is lost between storing and broadcasting, nothing is broadcast unstored: what has been stored has
  // been broadcast, is in the loop's hand, or is about to be handed over.
  lemma StoredBeforeBroadcast(hash: Digest, s: World)
    requires HexShaped(hash) && Reachable(hash, s)
    ensures |s.store.chatHistory| == |s.sent| + HandCount(s.loop) + UnsentCount(s.handlers)
    ensures forall i :: 0 <= i < |s.handlers| ==>
      s.handlers[i].stored == Of(s.sent, i) + InHand(s.loop, i) + Unsent(s.handlers[i])
    ensures forall i :: 0 <= i < |s.handlers| ==>
      Of(s.sent, i) <= s.handlers[i].stored && |s.handlers[i].stored| <= |Of(s.sent, i)| + 2
  {
    ReachableInv(hash, s);
    forall i | 0 <= i < |s.handlers|
      ensures s.handlers[i].stored == Of(s.sent, i) + InHand(s.loop, i) + Unsent(s.handlers[i])
    {
      assert Accounted(s, i);
    }
  }

  // An order-preserving merge: repeatedly, the last message of the whole is the last message of some part.
  ghost predicate MergeOf(whole: seq<ChatMessage>, parts: seq<seq<ChatMessage>>)
    decreases |whole|
  {
    if whole == [] then forall p :: 0 <= p < |parts| ==> parts[p] == []
    else
      var n := |whole| - 1;
      exists p :: 0 <= p < |parts| && EndsWith(parts[p], whole[n]) &&
        MergeOf(whole[..n], parts[p := parts[p][..|parts[p]| - 1]])
  }

  predicate EndsWith(part: seq<ChatMessage>, m: ChatMessage) {
    part != [] && part[|part| - 1] == m
  }

  function Parts(log: seq<Entry>, n: nat): seq<seq<ChatMessage>> {
    seq(n, i requires 0 <= i < n => Of(log, i))
  }

  lemma {:induction false} LogIsMerge(log: seq<Entry>, n: nat)
    requires forall k :: 0 <= k < |log| ==> log[k].from < n
    ensures MergeOf(Messages(log), Parts(log, n))
  {
    if log != [] {
      var front, last := log[..|log| - 1], log[|log| - 1];
      LogIsMerge(front, n);
      assert Messages(log)[..|log| - 1] == Messages(front);
      var p, parts := last.from, Parts(log, n);
      assert parts[p] == Of(front, p) + [last.msg];
      var shorter := parts[p := parts[p][..|parts[p]| - 1]];
      forall q | 0 <= q < n ensures shorter[q] == Of(front, q) {
        assert parts[q] == Of(front, q) + (if q == p then [last.msg] else []);
      }
      assert shorter == Parts(front, n);
      assert EndsWith(parts[p], Messages(log)[|log| - 1]);
    }
  }

  // The general history is an order-preserving merge of what the single connections stored.
  lemma HistoryIsMerge(hash: Digest, s: World)
    requires HexShaped(hash) && Reachable(hash, s)
    ensures MergeOf(s.store.chatHistory, seq(|s.handlers|, i requires 0 <= i < |s.handlers| => s.handlers[i].stored))
  {
    ReachableInv(hash, s);
    LogIsMerge(s.log, |s.handlers|);
    var parts := seq(|s.handlers|, i requires 0 <= i < |s.handlers| => s.handlers[i].stored);
    forall i | 0 <= i < |s.handlers| ensures parts[i] == Of(s.log, i) {
      assert Accounted(s, i);
    }
    assert parts == Parts(s.log, |s.handlers|);
  }

  // Two connections past registration never share a username, and each account is one connection's own
  // record with the password hashed.
  lemma UniqueRegistration(hash: Digest, s: World, i: nat, j: nat)
    requires HexShaped(hash) && Reachable(hash, s) && i < |s.handlers| && j < |s.handlers| && i != j
    requires Registered(s.handlers[i]) && Registered(s.handlers[j])
    ensures s.handlers[i].participant.username != s.handlers[j].participant.username
    ensures s.handlers[i].participant.username in s.store.participants
    ensures s.store.participants[s.handlers[i].participant.username] == Memory.Account(hash, s.handlers[i].participant)
  {
    ReachableInv(hash, s);
    assert OwnerOk(s, i) && OwnerOk(s, j);
    assert AccountOk(hash, s, s.handlers[i].participant.username);
  }

  // Conversely every account was inserted by some connection, whose record it still is; its name and e-mail
  // address passed validation.
  lemma EveryAccountHasAnOwner(hash: Digest, s: World, u: string)
    requires HexShaped(hash) && Reachable(hash, s) && u in s.store.participants
    ensures ValidateName(u) && ValidateEmail(s.store.participants[u].email)
    ensures exists i ::
      && 0 <= i < |s.handlers|
      && Registered(s.handlers[i])
      && s.store.participants[u] == Memory.Account(hash, s.handlers[i].participant)
  {
    ReachableInv(hash, s);
    assert AccountOk(hash, s, u);
    assert HandlerOk(s.handlers[s.owner[u]]);
  }

  predicate LiveAt(s: World, i: nat, addr: string) {
    i < |s.handlers| && Live(s.handlers[i]) && s.handlers[i].addr == addr
  }

  // Each address in the map is that of exactly one live handler and each live handler is in the map.
  lemma MapIsLiveHandlers(hash: Digest, s: World)
    requires HexShaped(hash) && Reachable(hash, s)
    ensures forall a :: a in s.conns <==> (exists i :: LiveAt(s, i, a))
    ensures forall a, i, j :: LiveAt(s, i, a) && LiveAt(s, j, a) ==> i == j
  {
    ReachableInv(hash, s);
    forall a | a in s.conns ensures LiveAt(s, s.conns[a], a) {
    }
  }

  // Whatever the interleaving, the process can only have panicked on a duplicate account, a duplicate
  // channel or a history request for an unknown channel; in particular no callback ever met an unexpected
  // state and no connection was missing from the map.
  lemma OnlyThreePanics(hash: Digest, s: World)
    requires HexShaped(hash) && Reachable(hash, s) && s.panic.Some?
    ensures s.panic.value in {ParticipantExists, ChannelExists, UnknownChannel}
  {
    ReachableInv(hash, s);
  }
}
