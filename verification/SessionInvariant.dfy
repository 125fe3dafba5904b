/** What every step of the session keeps, and hence what holds in every reachable world. */
module SessionInvariant {
  import opened Text
  import opened Types
  import opened Validation
  import opened IdleWatcher
  import opened Reader
  import opened Session
  import Memory

  predicate HandlersOk(s: World) {
    forall i :: 0 <= i < |s.handlers| ==> HandlerOk(s.handlers[i])
  }

  // The map's keys are exactly the addresses of the handlers that have not yet passed removal.
  predicate MapOk(s: World) {
    && (forall a :: a in s.conns ==>
          s.conns[a] < |s.handlers| && s.handlers[s.conns[a]].addr == a && Live(s.handlers[s.conns[a]]))
    && (forall i :: 0 <= i < |s.handlers| && Live(s.handlers[i]) ==>
          s.handlers[i].addr in s.conns && s.conns[s.handlers[i].addr] == i)
  }

  // Accounts and registered handlers correspond one to one, and each account is its owner's record with the
  // password hashed.
  predicate AccountsOk(hash: Digest, s: World) {
    && s.owner.Keys == s.store.participants.Keys
    && (forall u :: u in s.owner ==> AccountOk(hash, s, u))
    && (forall i :: 0 <= i < |s.handlers| ==> OwnerOk(s, i))
  }

  predicate AccountOk(hash: Digest, s: World, u: string) {
    && u in s.owner && u in s.store.participants && s.owner[u] < |s.handlers|
    && var h := s.handlers[s.owner[u]];
       && Registered(h)
       && h.participant.username == u
       && s.store.participants[u] == Memory.Account(hash, h.participant)
  }

  predicate OwnerOk(s: World, i: nat)
    requires i < |s.handlers|
  {
    var u := s.handlers[i].participant.username;
    Registered(s.handlers[i]) ==> u in s.owner && s.owner[u] == i
  }

  function Messages(log: seq<Entry>): seq<ChatMessage> {
    seq(|log|, k requires 0 <= k < |log| => log[k].msg)
  }

  // One handler's messages, in order.
  function Of(log: seq<Entry>, i: nat): seq<ChatMessage> {
    if log == [] then []
    else
      var last := log[|log| - 1];
      Of(log[..|log| - 1], i) + (if last.from == i then [last.msg] else [])
  }

  function InHand(loop: Loop, i: nat): seq<ChatMessage> {
    if loop.HasChat? && loop.entry.from == i then [loop.entry.msg] else []
  }

  function HandCount(loop: Loop): nat {
    if loop.HasChat? then 1 else 0
  }

  function UnsentCount(handlers: seq<Handler>): nat {
    if handlers == [] then 0
    else UnsentCount(handlers[..|handlers| - 1]) + |Unsent(handlers[|handlers| - 1])|
  }

  predicate LogOk(s: World) {
    && s.store.chatHistory == Messages(s.log)
    && (forall k :: 0 <= k < |s.log| ==> s.log[k].from < |s.handlers|)
    && (s.loop.HasChat? ==> s.loop.entry.from < |s.handlers|)
    && (forall k :: 0 <= k < |s.sent| ==> s.sent[k].from < |s.handlers|)
    && (forall i :: 0 <= i < |s.handlers| ==> Accounted(s, i))
    && |s.log| == |s.sent| + HandCount(s.loop) + UnsentCount(s.handlers)
  }

  // What handler i stored is what was broadcast for it, then what the loop holds of it, then what it has
  // stored but not yet handed over.
  predicate Accounted(s: World, i: nat)
    requires i < |s.handlers|
  {
    && s.handlers[i].stored == Of(s.log, i)
    && Of(s.log, i) == Of(s.sent, i) + InHand(s.loop, i) + Unsent(s.handlers[i])
  }

  predicate PanicOk(s: World) {
    s.panic.Some? ==> s.panic.value in {ParticipantExists, ChannelExists, UnknownChannel}
  }

  predicate Inv(hash: Digest, s: World) {
    && RefsOk(s)
    && HandlersOk(s)
    && MapOk(s)
    && AccountsOk(hash, s)
    && LogOk(s)
    && PanicOk(s)
  }

  // ------------------------------------------------------------------ counting lemmas

  lemma {:induction false} UnsentCountUpdate(handlers: seq<Handler>, i: nat, h: Handler)
    requires i < |handlers|
    ensures UnsentCount(handlers[i := h]) == UnsentCount(handlers) - |Unsent(handlers[i])| + |Unsent(h)|
  {
    var last := |handlers| - 1;
    if i == last {
      assert handlers[i := h][..last] == handlers[..last];
    } else {
      assert handlers[i := h][..last] == handlers[..last][i := h];
      UnsentCountUpdate(handlers[..last], i, h);
    }
  }

  lemma {:induction false} UnsentCountAppend(handlers: seq<Handler>, h: Handler)
    ensures UnsentCount(handlers + [h]) == UnsentCount(handlers) + |Unsent(h)|
  {
    assert (handlers + [h])[..|handlers|] == handlers;
  }

  lemma {:induction false} OfAppend(log: seq<Entry>, e: Entry, i: nat)
    ensures Of(log + [e], i) == Of(log, i) + (if e.from == i then [e.msg] else [])
  {
    assert (log + [e])[..|log|] == log;
  }

  lemma {:induction false} OfNobody(log: seq<Entry>, i: nat)
    requires forall k :: 0 <= k < |log| ==> log[k].from != i
    ensures Of(log, i) == []
  {
    if log != [] {
      OfNobody(log[..|log| - 1], i);
    }
  }

  // ---------------------------------------------------------------------- quiet steps

  lemma QuietMap(s: World, i: nat, h: Handler)
    requires MapOk(s) && i < |s.handlers| && Unnoticed(s.handlers[i], h)
    ensures MapOk(Put(s, i, h))
  {
  }

  lemma QuietAccounts(hash: Digest, s: World, i: nat, h: Handler)
    requires AccountsOk(hash, s) && i < |s.handlers| && Unnoticed(s.handlers[i], h)
    ensures AccountsOk(hash, Put(s, i, h))
  {
    var t := Put(s, i, h);
    forall u | u in t.owner ensures AccountOk(hash, t, u) {
      assert AccountOk(hash, s, u);
    }
    forall k | 0 <= k < |t.handlers| ensures OwnerOk(t, k) {
      assert OwnerOk(s, k);
    }
  }

  lemma QuietLog(s: World, i: nat, h: Handler)
    requires LogOk(s) && i < |s.handlers| && Unnoticed(s.handlers[i], h)
    ensures LogOk(Put(s, i, h))
  {
    UnsentCountUpdate(s.handlers, i, h);
    forall k | 0 <= k < |s.handlers| ensures Accounted(Put(s, i, h), k) {
      assert Accounted(s, k);
    }
  }

  predicate SameAccountsAndHistory(a: Memory.Store, b: Memory.Store) {
    a.participants == b.participants && a.chatHistory == b.chatHistory
  }

  lemma StoreSwap(hash: Digest, s: World, store: Memory.Store)
    requires MapOk(s) && AccountsOk(hash, s) && LogOk(s) && SameAccountsAndHistory(s.store, store)
    ensures MapOk(s.(store := store)) && AccountsOk(hash, s.(store := store)) && LogOk(s.(store := store))
  {
    var t := s.(store := store);
    forall u | u in t.owner ensures AccountOk(hash, t, u) {
      assert AccountOk(hash, s, u);
    }
    forall k | 0 <= k < |s.handlers| ensures Accounted(t, k) && OwnerOk(t, k) {
      assert Accounted(s, k) && OwnerOk(s, k);
    }
  }

  // A step that replaces one handler by one the shared state cannot tell apart, and grows or rewrites
  // channel records at most.
  lemma Quiet(hash: Digest, s: World, i: nat, h: Handler, store: Memory.Store)
    requires Inv(hash, s) && i < |s.handlers| && HandlerOk(h) && Unnoticed(s.handlers[i], h)
    requires SameAccountsAndHistory(s.store, store)
    requires store.WellFormed() && |s.store.objects| <= |store.objects| && h.channel < |store.objects|
    ensures Inv(hash, Put(s, i, h).(store := store))
  {
    QuietMap(s, i, h);
    QuietAccounts(hash, s, i, h);
    QuietLog(s, i, h);
    StoreSwap(hash, Put(s, i, h), store);
  }

  lemma QuietPut(hash: Digest, s: World, i: nat, h: Handler)
    requires Inv(hash, s) && i < |s.handlers| && HandlerOk(h) && Unnoticed(s.handlers[i], h)
    requires h.channel < |s.store.objects|
    ensures Inv(hash, Put(s, i, h))
  {
    Quiet(hash, s, i, h, s.store);
  }

  lemma QuietLoop(hash: Digest, s: World, loop: Loop)
    requires Inv(hash, s) && !s.loop.HasChat? && !loop.HasChat?
    ensures Inv(hash, s.(loop := loop))
  {
    var t := s.(loop := loop);
    forall u | u in t.owner ensures AccountOk(hash, t, u) {
      assert AccountOk(hash, s, u);
    }
    forall k | 0 <= k < |s.handlers| ensures Accounted(t, k) && OwnerOk(t, k) {
      assert Accounted(s, k) && OwnerOk(s, k);
    }
  }

  lemma FailKeeps(hash: Digest, s: World, panic: Panic)
    requires Inv(hash, s) && panic in {ParticipantExists, ChannelExists, UnknownChannel}
    ensures Inv(hash, Fail(s, panic))
  {
    var t := Fail(s, panic);
    forall u | u in t.owner ensures AccountOk(hash, t, u) {
      assert AccountOk(hash, s, u);
    }
    forall k | 0 <= k < |s.handlers| ensures Accounted(t, k) && OwnerOk(t, k) {
      assert Accounted(s, k) && OwnerOk(s, k);
    }
  }

  // -------------------------------------------------------------------- one step at a time

  lemma AcceptLog(s: World, h: Handler)
    requires LogOk(s) && h.stored == [] && Unsent(h) == []
    ensures LogOk(s.(handlers := s.handlers + [h]))
  {
    var t := s.(handlers := s.handlers + [h]);
    UnsentCountAppend(s.handlers, h);
    OfNobody(s.log, |s.handlers|);
    OfNobody(s.sent, |s.handlers|);
    forall k | 0 <= k < |t.handlers| ensures Accounted(t, k) {
      if k < |s.handlers| {
        assert Accounted(s, k);
      }
    }
  }

  lemma AcceptAccounts(hash: Digest, s: World, h: Handler)
    requires AccountsOk(hash, s) && !Registered(h)
    ensures AccountsOk(hash, s.(handlers := s.handlers + [h]))
  {
    var t := s.(handlers := s.handlers + [h]);
    forall u | u in t.owner ensures AccountOk(hash, t, u) {
      assert AccountOk(hash, s, u);
    }
    forall k | 0 <= k < |t.handlers| ensures OwnerOk(t, k) {
      if k < |s.handlers| {
        assert OwnerOk(s, k);
      }
    }
  }

  lemma AcceptMap(s: World, h: Handler)
    requires MapOk(s) && h.addr !in s.conns && Live(h)
    ensures MapOk(s.(handlers := s.handlers + [h], conns := s.conns[h.addr := |s.handlers|]))
  {
  }

  lemma AcceptShared(hash: Digest, s: World, h: Handler, store: Memory.Store)
    requires MapOk(s) && AccountsOk(hash, s) && LogOk(s)
    requires h.addr !in s.conns && Live(h) && !Registered(h) && h.stored == [] && Unsent(h) == []
    requires SameAccountsAndHistory(s.store, store)
    ensures
      var t := s.(handlers := s.handlers + [h], conns := s.conns[h.addr := |s.handlers|], store := store);
      MapOk(t) && AccountsOk(hash, t) && LogOk(t)
  {
    var s0 := s.(handlers := s.handlers + [h]);
    var s1 := s0.(conns := s.conns[h.addr := |s.handlers|]);
    AcceptMap(s, h);
    AcceptAccounts(hash, s, h);
    AccountsFrame(hash, s0, s1);
    AcceptLog(s, h);
    LogFrame(s0, s1);
    StoreSwap(hash, s1, store);
  }

  lemma AcceptKeeps(hash: Digest, s: World, addr: string)
    requires Inv(hash, s) && AcceptStep(s, addr).Some?
    ensures Inv(hash, AcceptStep(s, addr).value)
  {
    var h := NewHandler(addr, |s.store.objects|);
    NewHandlerOk(addr, |s.store.objects|);
    AcceptShared(hash, s, h, s.store.(objects := s.store.objects + [NoChannel]));
  }

  lemma LineKeeps(hash: Digest, s: World, i: nat)
    requires Inv(hash, s) && i < |s.handlers| && s.handlers[i].at == Line
    ensures Inv(hash, HandleLine(s, i))
  {
    var h := s.handlers[i];
    var record := s.store.objects[h.channel];
    LineMove(h, record);
    var turn := OnLine(h, record);
    Quiet(hash, s, i, turn.outcome.value, s.store.(objects := s.store.objects[h.channel := turn.record]));
  }

  lemma CheckNameKeeps(hash: Digest, s: World, i: nat, now: string)
    requires Inv(hash, s) && i < |s.handlers| && s.handlers[i].at == CheckName
    ensures Inv(hash, CheckNameStep(s, i, now))
  {
    var h := s.handlers[i];
    if h.participant.username in s.store.participants {
      SayMove(h, ThenEnter(Joining, SubstateNull));
      QuietPut(hash, s, i, Say(h, ThenEnter(Joining, SubstateNull)));
    } else {
      WatchedMove(h, now);
      QuietPut(hash, s, i, Watching(h, now).(at := Register));
    }
  }

  lemma WatchedMove(h: Handler, now: string)
    requires HandlerOk(h) && h.at == CheckName
    ensures var h' := Watching(h, now).(at := Register); HandlerOk(h') && Unnoticed(h, h')
  {
  }

  lemma RegisterAccounts(hash: Digest, s: World, i: nat, h: Handler)
    requires AccountsOk(hash, s) && i < |s.handlers|
    requires !Registered(s.handlers[i]) && Registered(h) && h.participant.username !in s.store.participants
    ensures
      var u := h.participant.username;
      var store := s.store.(participants := s.store.participants[u := Memory.Account(hash, h.participant)]);
      AccountsOk(hash, Put(s, i, h).(store := store, owner := s.owner[u := i]))
  {
    var u := h.participant.username;
    var store := s.store.(participants := s.store.participants[u := Memory.Account(hash, h.participant)]);
    var t := Put(s, i, h).(store := store, owner := s.owner[u := i]);
    forall v | v in t.owner ensures AccountOk(hash, t, v) {
      if v != u {
        assert AccountOk(hash, s, v);
      }
    }
    forall k | 0 <= k < |t.handlers| ensures OwnerOk(t, k) {
      assert OwnerOk(s, k);
    }
  }

  lemma MapFrame(s: World, t: World)
    requires MapOk(s) && t.conns == s.conns && |t.handlers| == |s.handlers|
    requires forall k :: 0 <= k < |s.handlers| ==>
      t.handlers[k].addr == s.handlers[k].addr && Live(t.handlers[k]) == Live(s.handlers[k])
    ensures MapOk(t)
  {
  }

  lemma LogFrame(s: World, t: World)
    requires LogOk(s) && t.log == s.log && t.sent == s.sent && t.loop == s.loop
    requires t.store.chatHistory == s.store.chatHistory && |t.handlers| == |s.handlers|
    requires forall k :: 0 <= k < |s.handlers| ==>
      t.handlers[k].stored == s.handlers[k].stored && Unsent(t.handlers[k]) == Unsent(s.handlers[k])
    requires UnsentCount(t.handlers) == UnsentCount(s.handlers)
    ensures LogOk(t)
  {
    forall k | 0 <= k < |t.handlers| ensures Accounted(t, k) {
      assert Accounted(s, k);
    }
  }

  lemma AccountsFrame(hash: Digest, s: World, t: World)
    requires AccountsOk(hash, s) && t.handlers == s.handlers && t.owner == s.owner
    requires t.store.participants == s.store.participants
    ensures AccountsOk(hash, t)
  {
    forall u | u in t.owner ensures AccountOk(hash, t, u) {
      assert AccountOk(hash, s, u);
    }
    forall k | 0 <= k < |t.handlers| ensures OwnerOk(t, k) {
      assert OwnerOk(s, k);
    }
  }

  lemma HandlersPut(s: World, t: World, i: nat, h: Handler)
    requires HandlersOk(s) && i < |s.handlers| && HandlerOk(h) && t.handlers == s.handlers[i := h]
    ensures HandlersOk(t)
  {
  }

  // Replacing a handler without touching its messages or its place in the map.
  lemma MapAndLogPut(s: World, t: World, i: nat, h: Handler)
    requires MapOk(s) && LogOk(s) && i < |s.handlers| && t.handlers == s.handlers[i := h]
    requires h.addr == s.handlers[i].addr && Live(h) == Live(s.handlers[i])
    requires h.stored == s.handlers[i].stored && Unsent(h) == Unsent(s.handlers[i])
    requires t.conns == s.conns && t.log == s.log && t.sent == s.sent && t.loop == s.loop
    requires t.store.chatHistory == s.store.chatHistory
    ensures MapOk(t) && LogOk(t)
  {
    UnsentCountUpdate(s.handlers, i, h);
    MapFrame(s, t);
    LogFrame(s, t);
  }

  function Inserted(hash: Digest, s: World, i: nat): World
    requires i < |s.handlers|
  {
    var h := s.handlers[i];
    var u := h.participant.username;
    Put(s, i, h.(at := ShowHistory)).(
      store := s.store.(participants := s.store.participants[u := Memory.Account(hash, h.participant)]),
      owner := s.owner[u := i])
  }

  lemma InsertKeeps(hash: Digest, s: World, i: nat)
    requires Inv(hash, s) && i < |s.handlers| && s.handlers[i].at == Register
    requires s.handlers[i].participant.username !in s.store.participants
    ensures Inv(hash, Inserted(hash, s, i))
  {
    assert HandlerOk(s.handlers[i]);
    InsertHandlers(hash, s, i);
    InsertShared(hash, s, i);
    InsertRefs(hash, s, i);
  }

  lemma InsertRefs(hash: Digest, s: World, i: nat)
    requires RefsOk(s) && i < |s.handlers|
    ensures RefsOk(Inserted(hash, s, i)) && Inserted(hash, s, i).panic == s.panic
  {
  }

  lemma InsertHandlers(hash: Digest, s: World, i: nat)
    requires HandlersOk(s) && i < |s.handlers| && s.handlers[i].at == Register
    ensures HandlersOk(Inserted(hash, s, i))
  {
    RegisteredMove(s.handlers[i]);
    HandlersPut(s, Inserted(hash, s, i), i, s.handlers[i].(at := ShowHistory));
  }

  lemma InsertShared(hash: Digest, s: World, i: nat)
    requires MapOk(s) && AccountsOk(hash, s) && LogOk(s) && i < |s.handlers| && s.handlers[i].at == Register
    requires s.handlers[i].participant.username !in s.store.participants && s.handlers[i].conn == Pending
    ensures var t := Inserted(hash, s, i); MapOk(t) && AccountsOk(hash, t) && LogOk(t)
  {
    var h' := s.handlers[i].(at := ShowHistory);
    MapAndLogPut(s, Inserted(hash, s, i), i, h');
    RegisterAccounts(hash, s, i, h');
  }

  lemma RegisterEffect(hash: Digest, s: World, i: nat)
    requires HexShaped(hash) && i < |s.handlers|
    ensures RegisterStep(hash, s, i) ==
      if s.handlers[i].participant.username in s.store.participants then Fail(s, ParticipantExists)
      else Inserted(hash, s, i)
  {
    assert ValidatePasswordSha256(hash(s.handlers[i].participant.password));
  }

  lemma RegisterKeeps(hash: Digest, s: World, i: nat)
    requires HexShaped(hash)
    requires Inv(hash, s) && i < |s.handlers| && s.handlers[i].at == Register
    ensures Inv(hash, RegisterStep(hash, s, i))
  {
    RegisterEffect(hash, s, i);
    if s.handlers[i].participant.username in s.store.participants {
      FailKeeps(hash, s, ParticipantExists);
    } else {
      InsertKeeps(hash, s, i);
    }
  }

  lemma MarkIsPut(s: World, i: nat)
    requires i < |s.handlers| && s.handlers[i].addr in s.conns && s.conns[s.handlers[i].addr] == i
    ensures MarkConnectedStep(s, i) ==
      Put(s, i, FinishIteration(UpdateState(s.handlers[i].(conn := Connected), AcceptingMessages, SubstateNull)))
  {
  }

  lemma MarkKeeps(hash: Digest, s: World, i: nat)
    requires Inv(hash, s) && i < |s.handlers| && s.handlers[i].at == MarkConnected
    ensures Inv(hash, MarkConnectedStep(s, i))
    ensures MarkConnectedStep(s, i).panic == s.panic
  {
    var h := s.handlers[i];
    assert s.conns[h.addr] == i;
    var h' := FinishIteration(UpdateState(h.(conn := Connected), AcceptingMessages, SubstateNull));
    MarkedMove(h);
    QuietPut(hash, s, i, h');
    MarkIsPut(s, i);
  }

  // A handler at a point of its own says something and will go on from there.
  lemma SayKeeps(hash: Digest, s: World, i: nat, after: After)
    requires Inv(hash, s) && i < |s.handlers| && Local(s.handlers[i].at) && AfterOk(s.handlers[i], after)
    requires !after.ThenMarkConnected? && !after.ThenGone?
    ensures Inv(hash, Put(s, i, Say(s.handlers[i], after)))
  {
    var h := s.handlers[i];
    assert HandlerOk(h);
    SayMove(h, after);
    QuietPut(hash, s, i, Say(h, after));
  }

  lemma RefuseChannelKeeps(hash: Digest, s: World, i: nat)
    requires Inv(hash, s) && i < |s.handlers| && s.handlers[i].at == CheckChannel
    ensures Inv(hash, Put(s, i, Say(s.handlers[i], ThenEnter(ProcessingMenu, SubstateNull))))
  {
    assert PointOk(s.handlers[i]);
    SayKeeps(hash, s, i, ThenEnter(ProcessingMenu, SubstateNull));
  }

  lemma ProposeChannelKeeps(hash: Digest, s: World, i: nat)
    requires Inv(hash, s) && i < |s.handlers| && s.handlers[i].at == CheckChannel
    ensures Inv(hash, Put(s, i, s.handlers[i].(at := RegisterChannel)))
  {
    var h := s.handlers[i];
    GoTo(h, RegisterChannel);
    QuietPut(hash, s, i, h.(at := RegisterChannel));
  }

  lemma RegisterChannelKeeps(hash: Digest, s: World, i: nat)
    requires Inv(hash, s) && i < |s.handlers| && s.handlers[i].at == RegisterChannel
    ensures Inv(hash, RegisterChannelStep(s, i))
  {
    var h := s.handlers[i];
    var record := s.store.objects[h.channel];
    if record.name in s.store.channels {
      FailKeeps(hash, s, ChannelExists);
    } else {
      EnterMove(h, AcceptingMessages, SubstateNull);
      Quiet(hash, s, i, FinishIteration(UpdateState(h, AcceptingMessages, SubstateNull)),
            s.store.RegisterChannel(record).value);
    }
  }

  lemma ListChannelsKeeps(hash: Digest, s: World, i: nat, after: After)
    requires Inv(hash, s) && i < |s.handlers| && s.handlers[i].at == ListChannels
    requires after == ThenAskChannelId || after == ThenNothing
    ensures Inv(hash, Put(s, i, Say(s.handlers[i], after)))
  {
    assert PointOk(s.handlers[i]);
    SayKeeps(hash, s, i, after);
  }

  lemma PickChannelKeeps(hash: Digest, s: World, i: nat, id: int, pick: string)
    requires Inv(hash, s) && i < |s.handlers| && s.handlers[i].at == PickChannel(id)
    requires PickChannelStep(s, i, id, pick).Some?
    ensures Inv(hash, PickChannelStep(s, i, id, pick).value)
  {
    if 0 < id < |s.store.channels| {
      PickedKeeps(hash, s, i, s.store.channels[pick]);
    } else {
      OutOfRangeKeeps(hash, s, i);
    }
  }

  lemma PickedKeeps(hash: Digest, s: World, i: nat, channel: nat)
    requires Inv(hash, s) && i < |s.handlers| && s.handlers[i].at.PickChannel? && channel < |s.store.objects|
    ensures Inv(hash, Put(s, i, s.handlers[i].(channel := channel, at := ShowChannel)))
  {
    PickMove(s.handlers[i], channel);
    QuietPut(hash, s, i, s.handlers[i].(channel := channel, at := ShowChannel));
  }

  lemma OutOfRangeKeeps(hash: Digest, s: World, i: nat)
    requires Inv(hash, s) && i < |s.handlers| && s.handlers[i].at.PickChannel?
    ensures Inv(hash, Put(s, i, Say(s.handlers[i], ThenEnter(ProcessingMenu, SubstateNull))))
  {
    assert PointOk(s.handlers[i]);
    SayKeeps(hash, s, i, ThenEnter(ProcessingMenu, SubstateNull));
  }

  lemma ShowHistoryKeeps(hash: Digest, s: World, i: nat, channel: string, after: After)
    requires Inv(hash, s) && i < |s.handlers|
    requires Moved(s.handlers[i], Say(s.handlers[i], after))
    ensures Inv(hash, ShowHistoryStep(s, i, channel, after))
  {
    QuietPut(hash, s, i, Say(s.handlers[i], after));
    FailKeeps(hash, s, UnknownChannel);
  }

  // The message a handler stores, whatever channel its connection points at.
  function Message(s: World, i: nat, now: string): ChatMessage
    requires i < |s.handlers|
  {
    ChatMessage(s.handlers[i].buffer, s.handlers[i].participant.username, "", now)
  }

  lemma StoreLog(s: World, i: nat, now: string)
    requires LogOk(s) && i < |s.handlers| && s.handlers[i].at == Reader.StoreMessage
    ensures
      var h, m := s.handlers[i], Message(s, i, now);
      LogOk(Put(s, i, h.(at := SendChat(m), stored := h.stored + [m])).(
        store := s.store.(chatHistory := s.store.chatHistory + [m]), log := s.log + [Entry(i, m)]))
  {
    var h, m := s.handlers[i], Message(s, i, now);
    var h' := h.(at := SendChat(m), stored := h.stored + [m]);
    var t := Put(s, i, h').(
      store := s.store.(chatHistory := s.store.chatHistory + [m]), log := s.log + [Entry(i, m)]);
    UnsentCountUpdate(s.handlers, i, h');
    assert Messages(t.log) == Messages(s.log) + [m];
    forall k | 0 <= k < |t.handlers| ensures Accounted(t, k) {
      assert Accounted(s, k);
      OfAppend(s.log, Entry(i, m), k);
    }
  }

  lemma StoreKeeps(hash: Digest, s: World, i: nat, now: string)
    requires Inv(hash, s) && i < |s.handlers| && s.handlers[i].at == Reader.StoreMessage
    ensures Inv(hash, StoreStep(s, i, now))
    ensures StoreStep(s, i, now).panic == s.panic
  {
    var h, m := s.handlers[i], Message(s, i, now);
    var h' := h.(at := SendChat(m), stored := h.stored + [m]);
    StoredMove(h, m);
    StoreShared(hash, s, i, now);
    HandlersPut(s, StoreStep(s, i, now), i, h');
  }

  lemma StoreShared(hash: Digest, s: World, i: nat, now: string)
    requires RefsOk(s) && MapOk(s) && AccountsOk(hash, s) && LogOk(s)
    requires i < |s.handlers| && s.handlers[i].at == Reader.StoreMessage && s.handlers[i].conn == Connected
    ensures var t := StoreStep(s, i, now);
      && MapOk(t) && AccountsOk(hash, t) && LogOk(t) && RefsOk(t) && t.panic == s.panic
      && var h, m := s.handlers[i], Message(s, i, now);
         t.handlers == s.handlers[i := h.(at := SendChat(m), stored := h.stored + [m])]
  {
    var h, m := s.handlers[i], Message(s, i, now);
    var h' := h.(at := SendChat(m), stored := h.stored + [m]);
    var t := StoreStep(s, i, now);
    StoreLog(s, i, now);
    MapFrame(s, t);
    QuietAccountsStored(hash, s, i, h');
    AccountsFrame(hash, Put(s, i, h'), t);
  }

  lemma QuietAccountsStored(hash: Digest, s: World, i: nat, h: Handler)
    requires AccountsOk(hash, s) && i < |s.handlers|
    requires Registered(h) == Registered(s.handlers[i]) && h.participant == s.handlers[i].participant
    ensures AccountsOk(hash, Put(s, i, h))
  {
    var t := Put(s, i, h);
    forall u | u in t.owner ensures AccountOk(hash, t, u) {
      assert AccountOk(hash, s, u);
    }
    forall k | 0 <= k < |t.handlers| ensures OwnerOk(t, k) {
      assert OwnerOk(s, k);
    }
  }

  lemma CancelKeeps(hash: Digest, s: World, i: nat)
    requires Inv(hash, s) && i < |s.handlers| && s.handlers[i].at == Cancel
    ensures Inv(hash, CancelStep(s, i)) && CancelStep(s, i).panic == s.panic
  {
    CancelMove(s.handlers[i]);
    QuietPut(hash, s, i, s.handlers[i].(cancelled := true, at := Close));
    CancelIsPut(s, i);
  }

  lemma CancelIsPut(s: World, i: nat)
    requires i < |s.handlers| && HandlerOk(s.handlers[i]) && s.handlers[i].at == Cancel
    ensures CancelStep(s, i) == Put(s, i, s.handlers[i].(cancelled := true, at := Close))
  {
  }

  lemma CloseKeeps(hash: Digest, s: World, i: nat)
    requires Inv(hash, s) && i < |s.handlers| && s.handlers[i].at == Close
    ensures Inv(hash, Put(s, i, s.handlers[i].(closed := true, at := Remove)))
  {
    CloseMove(s.handlers[i]);
    QuietPut(hash, s, i, s.handlers[i].(closed := true, at := Remove));
  }

  lemma RemoveMap(s: World, i: nat, h: Handler)
    requires MapOk(s) && i < |s.handlers| && Live(s.handlers[i]) && !Live(h) && h.addr == s.handlers[i].addr
    ensures MapOk(Put(s, i, h).(conns := s.conns - {h.addr}))
  {
  }

  lemma RemoveShared(hash: Digest, s: World, i: nat, h: Handler)
    requires MapOk(s) && AccountsOk(hash, s) && LogOk(s)
    requires i < |s.handlers| && Live(s.handlers[i]) && !Live(h) && s.handlers[i].at == Remove
    requires h == s.handlers[i].(at := h.at)
    requires Registered(h) == Registered(s.handlers[i])
    ensures var t := Put(s, i, h).(conns := s.conns - {h.addr}); MapOk(t) && AccountsOk(hash, t) && LogOk(t)
  {
    var t := Put(s, i, h).(conns := s.conns - {h.addr});
    RemoveMap(s, i, h);
    UnsentCountUpdate(s.handlers, i, h);
    LogFrame(s, t);
    QuietAccountsStored(hash, s, i, h);
    AccountsFrame(hash, Put(s, i, h), t);
  }

  lemma RemoveKeeps(hash: Digest, s: World, i: nat)
    requires Inv(hash, s) && i < |s.handlers| && s.handlers[i].at == Remove
    ensures Inv(hash, RemoveStep(s, i))
    ensures RemoveStep(s, i).panic == s.panic
  {
    var h := s.handlers[i];
    var h' := h.(at := SendSys("", ThenGone));
    RemoveMove(h);
    assert s.conns[h.addr] == i;
    RemoveShared(hash, s, i, h');
  }

  lemma NobodyAuthenticates(s: World, i: nat)
    requires HandlersOk(s) && i < |s.handlers|
    ensures s.handlers[i].at != Authenticate
  {
    assert HandlerOk(s.handlers[i]);
  }

  lemma WelcomeKeeps(hash: Digest, s: World, i: nat)
    requires Inv(hash, s) && i < |s.handlers| && s.handlers[i].at == ShowHistory
    ensures Inv(hash, ShowHistoryStep(s, i, "", ThenMarkConnected))
  {
    MoveTo(s.handlers[i], Say(s.handlers[i], ThenMarkConnected));
    ShowHistoryKeeps(hash, s, i, "", ThenMarkConnected);
  }

  lemma ShowMove(h: Handler, after: After)
    requires HandlerOk(h) && (h.at == ShowChannel || h.at.ShowNamed?)
    requires after == if h.at == ShowChannel then ThenEnter(AcceptingMessages, SubstateNull) else ThenNothing
    ensures Moved(h, Say(h, after))
  {
    SayMove(h, after);
  }

  lemma ShowChannelKeeps(hash: Digest, s: World, i: nat, channel: string, after: After)
    requires Inv(hash, s) && i < |s.handlers|
    requires s.handlers[i].at == ShowChannel || s.handlers[i].at.ShowNamed?
    requires after == if s.handlers[i].at == ShowChannel then ThenEnter(AcceptingMessages, SubstateNull) else ThenNothing
    ensures Inv(hash, ShowHistoryStep(s, i, channel, after))
  {
    ShowMove(s.handlers[i], after);
    ShowHistoryKeeps(hash, s, i, channel, after);
  }

  predicate ChannelPoint(at: HandlerPoint) {
    at == CheckChannel || at == RegisterChannel || at == ListChannels || at.PickChannel? || at == ShowChannel || at.ShowNamed?
  }

  // What the steps about channels come to.
  lemma GoChannelSteps(hash: Digest, s: World, i: nat, now: string, pick: string)
    requires RefsOk(s) && i < |s.handlers|
    ensures var h := s.handlers[i];
      && (h.at == CheckChannel ==> GoStep(hash, s, i, now, pick) == Some(
            if s.store.objects[h.channel].name in s.store.channels
            then Put(s, i, Say(h, ThenEnter(ProcessingMenu, SubstateNull)))
            else Put(s, i, h.(at := RegisterChannel))))
      && (h.at == RegisterChannel ==> GoStep(hash, s, i, now, pick) == Some(RegisterChannelStep(s, i)))
      && (h.at == ListChannels ==> GoStep(hash, s, i, now, pick) == Some(
            Put(s, i, Say(h, if |s.store.channels| > 0 then ThenAskChannelId else ThenNothing))))
      && (h.at.PickChannel? ==> GoStep(hash, s, i, now, pick) == PickChannelStep(s, i, h.at.id, pick))
      && (h.at == ShowChannel ==> GoStep(hash, s, i, now, pick) == Some(
            ShowHistoryStep(s, i, s.store.objects[h.channel].name, ThenEnter(AcceptingMessages, SubstateNull))))
      && (h.at.ShowNamed? ==> GoStep(hash, s, i, now, pick) == Some(ShowHistoryStep(s, i, h.at.channel, ThenNothing)))
  {
  }

  lemma GoCheckChannelKeeps(hash: Digest, s: World, i: nat, now: string, pick: string)
    requires Inv(hash, s) && i < |s.handlers| && GoStep(hash, s, i, now, pick).Some?
    requires s.handlers[i].at == CheckChannel
    ensures Inv(hash, GoStep(hash, s, i, now, pick).value)
  {
    GoChannelSteps(hash, s, i, now, pick);
    if s.store.objects[s.handlers[i].channel].name in s.store.channels {
      RefuseChannelKeeps(hash, s, i);
    } else {
      ProposeChannelKeeps(hash, s, i);
    }
  }

  lemma GoShowChannelKeeps(hash: Digest, s: World, i: nat, now: string, pick: string)
    requires Inv(hash, s) && i < |s.handlers| && GoStep(hash, s, i, now, pick).Some?
    requires s.handlers[i].at == ShowChannel
    ensures Inv(hash, GoStep(hash, s, i, now, pick).value)
  {
    GoChannelSteps(hash, s, i, now, pick);
    ShowChannelKeeps(hash, s, i, s.store.objects[s.handlers[i].channel].name, ThenEnter(AcceptingMessages, SubstateNull));
  }

  lemma GoShowNamedKeeps(hash: Digest, s: World, i: nat, now: string, pick: string)
    requires Inv(hash, s) && i < |s.handlers| && GoStep(hash, s, i, now, pick).Some?
    requires s.handlers[i].at.ShowNamed?
    ensures Inv(hash, GoStep(hash, s, i, now, pick).value)
  {
    GoChannelSteps(hash, s, i, now, pick);
    ShowChannelKeeps(hash, s, i, s.handlers[i].at.channel, ThenNothing);
  }

  lemma GoRegisterChannelKeeps(hash: Digest, s: World, i: nat, now: string, pick: string)
    requires Inv(hash, s) && i < |s.handlers| && GoStep(hash, s, i, now, pick).Some?
    requires s.handlers[i].at == RegisterChannel
    ensures Inv(hash, GoStep(hash, s, i, now, pick).value)
  {
    GoChannelSteps(hash, s, i, now, pick);
    RegisterChannelKeeps(hash, s, i);
  }

  lemma GoListChannelsKeeps(hash: Digest, s: World, i: nat, now: string, pick: string)
    requires Inv(hash, s) && i < |s.handlers| && GoStep(hash, s, i, now, pick).Some?
    requires s.handlers[i].at == ListChannels
    ensures Inv(hash, GoStep(hash, s, i, now, pick).value)
  {
    GoChannelSteps(hash, s, i, now, pick);
    ListChannelsKeeps(hash, s, i, if |s.store.channels| > 0 then ThenAskChannelId else ThenNothing);
  }

  lemma GoPickChannelKeeps(hash: Digest, s: World, i: nat, now: string, pick: string)
    requires Inv(hash, s) && i < |s.handlers| && GoStep(hash, s, i, now, pick).Some?
    requires s.handlers[i].at.PickChannel?
    ensures Inv(hash, GoStep(hash, s, i, now, pick).value)
  {
    GoChannelSteps(hash, s, i, now, pick);
    PickChannelKeeps(hash, s, i, s.handlers[i].at.id, pick);
  }

  lemma GoChannelKeeps(hash: Digest, s: World, i: nat, now: string, pick: string)
    requires Inv(hash, s) && i < |s.handlers| && GoStep(hash, s, i, now, pick).Some?
    requires ChannelPoint(s.handlers[i].at)
    ensures Inv(hash, GoStep(hash, s, i, now, pick).value)
  {
    match s.handlers[i].at
    case CheckChannel => GoCheckChannelKeeps(hash, s, i, now, pick);
    case RegisterChannel => GoRegisterChannelKeeps(hash, s, i, now, pick);
    case ListChannels => GoListChannelsKeeps(hash, s, i, now, pick);
    case PickChannel(_) => GoPickChannelKeeps(hash, s, i, now, pick);
    case ShowChannel => GoShowChannelKeeps(hash, s, i, now, pick);
    case ShowNamed(_) => GoShowNamedKeeps(hash, s, i, now, pick);
  }

  lemma GoRestKeeps(hash: Digest, s: World, i: nat, now: string, pick: string)
    requires HexShaped(hash) && Inv(hash, s) && i < |s.handlers| && !ChannelPoint(s.handlers[i].at)
    requires GoStep(hash, s, i, now, pick).Some?
    ensures Inv(hash, GoStep(hash, s, i, now, pick).value)
  {
    NobodyAuthenticates(s, i);
    match s.handlers[i].at
    case Line => LineKeeps(hash, s, i);
    case CheckName => CheckNameKeeps(hash, s, i, now);
    case Register => RegisterKeeps(hash, s, i);
    case ShowHistory => WelcomeKeeps(hash, s, i);
    case MarkConnected => MarkKeeps(hash, s, i);
    case StoreMessage => StoreKeeps(hash, s, i, now);
    case Cancel => CancelKeeps(hash, s, i);
    case Close => CloseKeeps(hash, s, i);
    case Remove => RemoveKeeps(hash, s, i);
    case _ =>
  }

  lemma GoKeeps(hash: Digest, s: World, i: nat, now: string, pick: string)
    requires HexShaped(hash)
    requires Inv(hash, s) && i < |s.handlers| && GoStep(hash, s, i, now, pick).Some?
    ensures Inv(hash, GoStep(hash, s, i, now, pick).value)
  {
    if ChannelPoint(s.handlers[i].at) {
      GoChannelKeeps(hash, s, i, now, pick);
    } else {
      GoRestKeeps(hash, s, i, now, pick);
    }
  }

  // ------------------------------------------------------------- rendezvous and watchers

  lemma HandChatLog(s: World, i: nat, h: Handler)
    requires LogOk(s) && i < |s.handlers| && s.handlers[i].at.SendChat? && s.loop == Waiting
    requires h.stored == s.handlers[i].stored && Unsent(h) == []
    ensures LogOk(Put(s, i, h).(loop := HasChat(Entry(i, s.handlers[i].at.msg))))
  {
    var t := Put(s, i, h).(loop := HasChat(Entry(i, s.handlers[i].at.msg)));
    UnsentCountUpdate(s.handlers, i, h);
    forall k | 0 <= k < |t.handlers| ensures Accounted(t, k) {
      assert Accounted(s, k);
    }
  }

  lemma HandChatKeeps(hash: Digest, s: World, i: nat)
    requires Inv(hash, s) && i < |s.handlers| && s.handlers[i].at.SendChat? && s.loop == Waiting
    ensures Inv(hash, Put(s, i, FinishIteration(s.handlers[i])).(loop := HasChat(Entry(i, s.handlers[i].at.msg))))
  {
    SentMove(s.handlers[i]);
    HandChatShared(hash, s, i, FinishIteration(s.handlers[i]));
  }

  lemma HandChatShared(hash: Digest, s: World, i: nat, h: Handler)
    requires MapOk(s) && AccountsOk(hash, s) && LogOk(s)
    requires i < |s.handlers| && s.handlers[i].at.SendChat? && s.loop == Waiting
    requires h == s.handlers[i].(at := Reading) && Registered(h) == Registered(s.handlers[i])
    ensures var t := Put(s, i, h).(loop := HasChat(Entry(i, s.handlers[i].at.msg)));
      MapOk(t) && AccountsOk(hash, t) && LogOk(t)
  {
    var t := Put(s, i, h).(loop := HasChat(Entry(i, s.handlers[i].at.msg)));
    HandChatLog(s, i, h);
    MapFrame(s, t);
    QuietAccountsStored(hash, s, i, h);
    AccountsFrame(hash, Put(s, i, h), t);
  }

  lemma BroadcastLog(s: World)
    requires LogOk(s) && s.loop.HasChat?
    ensures LogOk(s.(loop := Waiting, sent := s.sent + [s.loop.entry]))
  {
    var t := s.(loop := Waiting, sent := s.sent + [s.loop.entry]);
    forall k | 0 <= k < |t.handlers| ensures Accounted(t, k) {
      assert Accounted(s, k);
      OfAppend(s.sent, s.loop.entry, k);
    }
  }

  lemma BroadcastKeeps(hash: Digest, s: World)
    requires Inv(hash, s) && s.loop.HasChat?
    ensures Inv(hash, s.(loop := Waiting, sent := s.sent + [s.loop.entry]))
  {
    var t := s.(loop := Waiting, sent := s.sent + [s.loop.entry]);
    BroadcastLog(s);
    MapFrame(s, t);
    AccountsFrame(hash, s, t);
  }

  lemma HandSysKeeps(hash: Digest, s: World, i: nat)
    requires Inv(hash, s) && i < |s.handlers| && s.handlers[i].at.SendSys? && s.loop == Waiting
    ensures Inv(hash, Put(s, i, Resume(s.handlers[i], s.handlers[i].at.after)).(loop := HasSys(s.handlers[i].at.to)))
  {
    var h := s.handlers[i];
    ResumeMove(h);
    QuietPut(hash, s, i, Resume(h, h.at.after));
    QuietLoop(hash, Put(s, i, Resume(h, h.at.after)), HasSys(h.at.to));
  }

  lemma WatchMove(h: Handler, w: nat, l: Label)
    requires HandlerOk(h) && w < |h.watchers| && Watch(h, w, l).Some?
    ensures HandlerOk(Watch(h, w, l).value) && Unnoticed(h, Watch(h, w, l).value)
    ensures Watch(h, w, l).value.channel == h.channel && Watch(h, w, l).value.conn == h.conn
  {
    StepsKeepWatcherOk(h.watchers[w]);
    WatchersChange(h, Watch(h, w, l).value);
  }

  lemma WatchKeeps(hash: Digest, s: World, i: nat, w: nat, l: Label)
    requires Inv(hash, s) && WatchStep(s, i, w, l).Some?
    ensures Inv(hash, WatchStep(s, i, w, l).value)
  {
    WatchMove(s.handlers[i], w, l);
    QuietPut(hash, s, i, Watch(s.handlers[i], w, l).value);
  }

  // A handler can only get past the abort signal if it has a watcher, hence only if it is connected.
  lemma AbortMove(h: Handler, w: nat)
    requires HandlerOk(h) && h.at == AbortTimeout && w < |h.watchers| && h.watchers[w].at == Selecting
    ensures h.conn == Connected
    ensures var h' := h.(at := Reader.StoreMessage, watchers := h.watchers[w := TakeAbort(h.watchers[w])]);
      HandlerOk(h') && Unnoticed(h, h')
  {
    StepsKeepWatcherOk(h.watchers[w]);
  }

  lemma AbortKeeps(hash: Digest, s: World, i: nat, w: nat)
    requires Inv(hash, s) && AbortStep(s, i, w).Some?
    ensures Inv(hash, AbortStep(s, i, w).value)
  {
    var h := s.handlers[i];
    AbortMove(h, w);
    QuietPut(hash, s, i, h.(at := Reader.StoreMessage, watchers := h.watchers[w := TakeAbort(h.watchers[w])]));
  }

  lemma ReadKeeps(hash: Digest, s: World, i: nat, input: Input)
    requires Inv(hash, s) && i < |s.handlers| && s.handlers[i].at == Reading
    ensures Inv(hash, Put(s, i, OnRead(s.handlers[i], input)))
  {
    ReadMove(s.handlers[i], input);
    QuietPut(hash, s, i, OnRead(s.handlers[i], input));
  }

  lemma LoopKeeps(hash: Digest, s: World, l: Label)
    requires Inv(hash, s) && Next(hash, s, l).Some? && (l.HandSys? || l.HandChat? || l.Broadcast? || l.ShutDown?)
    ensures Inv(hash, Next(hash, s, l).value)
  {
    match l
    case HandSys(i) => HandSysKeeps(hash, s, i);
    case HandChat(i) => HandChatKeeps(hash, s, i);
    case Broadcast =>
      if s.loop.HasChat? {
        BroadcastKeeps(hash, s);
      } else {
        QuietLoop(hash, s, Waiting);
      }
    case ShutDown => QuietLoop(hash, s, Stopped);
  }

  lemma NextKeepsInv(hash: Digest, s: World, l: Label)
    requires HexShaped(hash) && Inv(hash, s) && Next(hash, s, l).Some?
    ensures Inv(hash, Next(hash, s, l).value)
  {
    match l
    case Accept(addr) => AcceptKeeps(hash, s, addr);
    case Read(i, input) => ReadKeeps(hash, s, i, input);
    case Go(i, now, pick) => GoKeeps(hash, s, i, now, pick);
    case HandSys(_) => LoopKeeps(hash, s, l);
    case HandChat(_) => LoopKeeps(hash, s, l);
    case Abort(i, w) => AbortKeeps(hash, s, i, w);
    case Broadcast => LoopKeeps(hash, s, l);
    case ShutDown => LoopKeeps(hash, s, l);
    case TimerFires(i, w) => WatchKeeps(hash, s, i, w, l);
    case WatchTick(i, w) => WatchKeeps(hash, s, i, w, l);
    case WatchDone(i, w) => WatchKeeps(hash, s, i, w, l);
    case WatchGo(i, w) => WatchKeeps(hash, s, i, w, l);
  }

  lemma {:induction false} RunKeepsInv(hash: Digest, s: World, run: seq<Label>)
    requires HexShaped(hash) && Inv(hash, s) && Run(hash, s, run).Some?
    ensures Inv(hash, Run(hash, s, run).value)
  {
    if run != [] {
      RunKeepsInv(hash, s, run[..|run| - 1]);
      NextKeepsInv(hash, Run(hash, s, run[..|run| - 1]).value, run[|run| - 1]);
    }
  }

  lemma InitialInv(hash: Digest)
    ensures Inv(hash, INITIAL)
  {
  }
}
