/** What one step can do to a handler and to the shared state, and hence what stays the same along every run. */
module SessionEvolution {
  import opened Validation
  import opened IdleWatcher
  import opened Reader
  import opened Session
  import opened SessionInvariant
  import opened SessionHistory
  import Memory

  predicate WatchersEvolve(a: seq<Watcher>, b: seq<Watcher>) {
    && |a| <= |b|
    && forall w :: 0 <= w < |a| && a[w].at == Returned ==> b[w].at == Returned
  }

  predicate Evolves(h: Handler, h': Handler) {
    && h'.addr == h.addr
    && (Registered(h) ==> Registered(h') && h'.participant == h.participant)
    && (h.conn == Connected ==> h'.conn == Connected)
    && (!Live(h) ==> !Live(h'))
    && (h.cancelled ==> h'.cancelled)
    && (h.closed ==> h'.closed)
    && h.stored <= h'.stored
    && WatchersEvolve(h.watchers, h'.watchers)
  }

  predicate HandlersEvolve(s: World, t: World) {
    && |s.handlers| <= |t.handlers|
    && forall i :: 0 <= i < |s.handlers| ==> Evolves(s.handlers[i], t.handlers[i])
  }

  predicate StoreEvolves(s: World, t: World) {
    && (forall u :: u in s.store.participants ==>
          u in t.store.participants && t.store.participants[u] == s.store.participants[u])
    && s.log <= t.log
    && s.sent <= t.sent
  }

  predicate WorldEvolves(s: World, t: World) {
    HandlersEvolve(s, t) && StoreEvolves(s, t)
  }

  lemma MovedEvolves(h: Handler, h': Handler)
    requires Moved(h, h')
    ensures Evolves(h, h')
  {
  }

  // ------------------------------------------------------------------------ one step

  lemma PutEvolves(s: World, t: World, i: nat, h: Handler)
    requires i < |s.handlers| && t.handlers == s.handlers[i := h] && Evolves(s.handlers[i], h)
    ensures HandlersEvolve(s, t)
  {
  }

  lemma SayEvolves(s: World, i: nat, after: After)
    requires i < |s.handlers| && BodyOk(s.handlers[i]) && Local(s.handlers[i].at) && AfterOk(s.handlers[i], after)
    requires !after.ThenMarkConnected? && !after.ThenGone?
    ensures HandlersEvolve(s, Put(s, i, Say(s.handlers[i], after)))
  {
    SayMove(s.handlers[i], after);
    MovedEvolves(s.handlers[i], Say(s.handlers[i], after));
  }

  lemma SignUpEvolves(hash: Digest, s: World, i: nat, now: string)
    requires i < |s.handlers| && HandlerOk(s.handlers[i])
    ensures s.handlers[i].at == CheckName ==> HandlersEvolve(s, CheckNameStep(s, i, now))
    ensures s.handlers[i].at == Register ==> HandlersEvolve(s, RegisterStep(hash, s, i))
    ensures s.handlers[i].at != Authenticate
  {
    var h := s.handlers[i];
    if h.at == CheckName {
      if h.participant.username in s.store.participants {
        SayEvolves(s, i, ThenEnter(Joining, SubstateNull));
      } else {
        PutEvolves(s, CheckNameStep(s, i, now), i, Watching(h, now).(at := Register));
      }
    }
  }

  lemma HistoryEvolves(s: World, i: nat, channel: string, after: After)
    requires RefsOk(s) && i < |s.handlers| && Moved(s.handlers[i], Say(s.handlers[i], after))
    ensures HandlersEvolve(s, ShowHistoryStep(s, i, channel, after))
  {
    MovedEvolves(s.handlers[i], Say(s.handlers[i], after));
  }

  lemma ShowEvolves(s: World, i: nat, channel: string)
    requires RefsOk(s) && i < |s.handlers| && HandlerOk(s.handlers[i])
    ensures s.handlers[i].at == ShowHistory ==> HandlersEvolve(s, ShowHistoryStep(s, i, channel, ThenMarkConnected))
    ensures s.handlers[i].at == ShowChannel ==>
      HandlersEvolve(s, ShowHistoryStep(s, i, channel, ThenEnter(AcceptingMessages, SubstateNull)))
    ensures s.handlers[i].at.ShowNamed? ==> HandlersEvolve(s, ShowHistoryStep(s, i, channel, ThenNothing))
  {
    var h := s.handlers[i];
    if h.at == ShowHistory {
      MoveTo(h, Say(h, ThenMarkConnected));
      HistoryEvolves(s, i, channel, ThenMarkConnected);
    } else if h.at == ShowChannel {
      SayMove(h, ThenEnter(AcceptingMessages, SubstateNull));
      HistoryEvolves(s, i, channel, ThenEnter(AcceptingMessages, SubstateNull));
    } else if h.at.ShowNamed? {
      SayMove(h, ThenNothing);
      HistoryEvolves(s, i, channel, ThenNothing);
    }
  }

  lemma CheckChannelEvolves(s: World, i: nat)
    requires RefsOk(s) && i < |s.handlers| && HandlerOk(s.handlers[i]) && s.handlers[i].at == CheckChannel
    ensures HandlersEvolve(s, Put(s, i, Say(s.handlers[i], ThenEnter(ProcessingMenu, SubstateNull))))
    ensures HandlersEvolve(s, Put(s, i, s.handlers[i].(at := RegisterChannel)))
  {
    SayEvolves(s, i, ThenEnter(ProcessingMenu, SubstateNull));
  }

  lemma RegisterChannelEvolves(s: World, i: nat)
    requires RefsOk(s) && i < |s.handlers| && HandlerOk(s.handlers[i]) && s.handlers[i].at == RegisterChannel
    ensures HandlersEvolve(s, RegisterChannelStep(s, i))
  {
    var h := s.handlers[i];
    EnterMove(h, AcceptingMessages, SubstateNull);
    MovedEvolves(h, FinishIteration(UpdateState(h, AcceptingMessages, SubstateNull)));
  }

  lemma PickChannelEvolves(s: World, i: nat, id: int, pick: string)
    requires RefsOk(s) && i < |s.handlers| && HandlerOk(s.handlers[i]) && s.handlers[i].at == PickChannel(id)
    requires PickChannelStep(s, i, id, pick).Some?
    ensures HandlersEvolve(s, PickChannelStep(s, i, id, pick).value)
  {
    SayEvolves(s, i, ThenEnter(ProcessingMenu, SubstateNull));
  }

  lemma LeaveEvolves(s: World, i: nat)
    requires i < |s.handlers| && HandlerOk(s.handlers[i])
    ensures s.handlers[i].at == Cancel ==> HandlersEvolve(s, CancelStep(s, i))
    ensures s.handlers[i].at == Close ==> HandlersEvolve(s, Put(s, i, s.handlers[i].(closed := true, at := Remove)))
    ensures s.handlers[i].at == Remove ==> HandlersEvolve(s, RemoveStep(s, i))
  {
  }

  lemma LineEvolves(s: World, i: nat)
    requires RefsOk(s) && i < |s.handlers| && HandlerOk(s.handlers[i]) && s.handlers[i].at == Line
    ensures HandlersEvolve(s, HandleLine(s, i))
  {
    var h := s.handlers[i];
    var turn := OnLine(h, s.store.objects[h.channel]);
    LineMove(h, s.store.objects[h.channel]);
    MovedEvolves(h, turn.outcome.value);
    PutEvolves(s, HandleLine(s, i), i, turn.outcome.value);
  }

  lemma MarkEvolves(s: World, i: nat)
    requires MapOk(s) && i < |s.handlers| && HandlerOk(s.handlers[i]) && s.handlers[i].at == MarkConnected
    ensures HandlersEvolve(s, MarkConnectedStep(s, i))
  {
    MarkIsPut(s, i);
    MarkedMove(s.handlers[i]);
  }

  lemma GoEvolves(hash: Digest, s: World, i: nat, now: string, pick: string)
    requires Inv(hash, s) && i < |s.handlers| && GoStep(hash, s, i, now, pick).Some?
    ensures HandlersEvolve(s, GoStep(hash, s, i, now, pick).value)
  {
    assert HandlerOk(s.handlers[i]);
    if ChannelPoint(s.handlers[i].at) {
      GoChannelEvolves(hash, s, i, now, pick);
    } else {
      GoRestEvolves(hash, s, i, now, pick);
    }
  }

  lemma GoChannelEvolves(hash: Digest, s: World, i: nat, now: string, pick: string)
    requires RefsOk(s) && i < |s.handlers| && HandlerOk(s.handlers[i]) && ChannelPoint(s.handlers[i].at)
    requires GoStep(hash, s, i, now, pick).Some?
    ensures HandlersEvolve(s, GoStep(hash, s, i, now, pick).value)
  {
    match s.handlers[i].at
    case CheckChannel => CheckChannelEvolves(s, i);
    case RegisterChannel => RegisterChannelEvolves(s, i);
    case ListChannels => SayEvolves(s, i, if |s.store.channels| > 0 then ThenAskChannelId else ThenNothing);
    case PickChannel(id) => PickChannelEvolves(s, i, id, pick);
    case ShowChannel => ShowEvolves(s, i, s.store.objects[s.handlers[i].channel].name);
    case ShowNamed(channel) => ShowEvolves(s, i, channel);
  }

  lemma GoRestEvolves(hash: Digest, s: World, i: nat, now: string, pick: string)
    requires RefsOk(s) && MapOk(s) && i < |s.handlers| && HandlerOk(s.handlers[i]) && !ChannelPoint(s.handlers[i].at)
    requires GoStep(hash, s, i, now, pick).Some?
    ensures HandlersEvolve(s, GoStep(hash, s, i, now, pick).value)
  {
    SignUpEvolves(hash, s, i, now);
    match s.handlers[i].at
    case Line => LineEvolves(s, i);
    case ShowHistory => ShowEvolves(s, i, "");
    case MarkConnected => MarkEvolves(s, i);
    case StoreMessage => StoreStepEvolves(s, i, now);
    case Cancel => LeaveEvolves(s, i);
    case Close => LeaveEvolves(s, i);
    case Remove => LeaveEvolves(s, i);
    case _ =>
  }

  lemma StoreStepEvolves(s: World, i: nat, now: string)
    requires RefsOk(s) && i < |s.handlers| && s.handlers[i].at == Reader.StoreMessage
    ensures HandlersEvolve(s, StoreStep(s, i, now))
  {
  }

  lemma WatchEvolves(s: World, i: nat, w: nat, l: Label)
    requires HandlersOk(s) && WatchStep(s, i, w, l).Some?
    ensures HandlersEvolve(s, WatchStep(s, i, w, l).value)
  {
    assert WatcherOk(s.handlers[i].watchers[w]);
    PutEvolves(s, WatchStep(s, i, w, l).value, i, Watch(s.handlers[i], w, l).value);
  }

  lemma ReadEvolves(s: World, i: nat, input: Input)
    requires i < |s.handlers| && HandlerOk(s.handlers[i]) && s.handlers[i].at == Reading
    ensures HandlersEvolve(s, Put(s, i, OnRead(s.handlers[i], input)))
  {
    ReadMove(s.handlers[i], input);
    MovedEvolves(s.handlers[i], OnRead(s.handlers[i], input));
  }

  lemma HandEvolves(s: World, i: nat, loop: Loop)
    requires i < |s.handlers| && HandlerOk(s.handlers[i])
    ensures s.handlers[i].at.SendSys? ==>
      HandlersEvolve(s, Put(s, i, Resume(s.handlers[i], s.handlers[i].at.after)).(loop := loop))
    ensures s.handlers[i].at.SendChat? ==>
      HandlersEvolve(s, Put(s, i, FinishIteration(s.handlers[i])).(loop := loop))
  {
    var h := s.handlers[i];
    if h.at.SendSys? {
      ResumeMove(h);
      MovedEvolves(h, Resume(h, h.at.after));
    } else if h.at.SendChat? {
      SentMove(h);
    }
  }

  lemma AbortEvolves(s: World, i: nat, w: nat)
    requires AbortStep(s, i, w).Some?
    ensures HandlersEvolve(s, AbortStep(s, i, w).value)
  {
  }

  lemma NextEvolves(hash: Digest, s: World, l: Label)
    requires Inv(hash, s) && Next(hash, s, l).Some?
    ensures HandlersEvolve(s, Next(hash, s, l).value)
  {
    match l
    case Read(i, input) => ReadEvolves(s, i, input);
    case Go(i, now, pick) => GoEvolves(hash, s, i, now, pick);
    case Abort(i, w) => AbortEvolves(s, i, w);
    case TimerFires(i, w) => WatchEvolves(s, i, w, l);
    case WatchTick(i, w) => WatchEvolves(s, i, w, l);
    case WatchDone(i, w) => WatchEvolves(s, i, w, l);
    case WatchGo(i, w) => WatchEvolves(s, i, w, l);
    case _ => LoopEvolves(hash, s, l);
  }

  lemma LoopEvolves(hash: Digest, s: World, l: Label)
    requires HandlersOk(s) && Next(hash, s, l).Some?
    requires l.Accept? || l.HandSys? || l.HandChat? || l.Broadcast? || l.ShutDown?
    ensures HandlersEvolve(s, Next(hash, s, l).value)
  {
    if l.HandSys? {
      HandEvolves(s, l.i, HasSys(s.handlers[l.i].at.to));
    } else if l.HandChat? {
      HandEvolves(s, l.i, HasChat(Entry(l.i, s.handlers[l.i].at.msg)));
    }
  }

  lemma StoreStepsEvolve(hash: Digest, s: World, i: nat, now: string)
    requires RefsOk(s) && i < |s.handlers|
    ensures StoreEvolves(s, RegisterStep(hash, s, i))
    ensures StoreEvolves(s, RegisterChannelStep(s, i))
    ensures StoreEvolves(s, StoreStep(s, i, now))
  {
  }

  lemma GoStoreEvolves(hash: Digest, s: World, i: nat, now: string, pick: string)
    requires RefsOk(s) && i < |s.handlers| && GoStep(hash, s, i, now, pick).Some?
    ensures StoreEvolves(s, GoStep(hash, s, i, now, pick).value)
  {
    var at := s.handlers[i].at;
    if at == Register || at == RegisterChannel || at == Reader.StoreMessage {
      StoreStepsEvolve(hash, s, i, now);
    } else {
      OtherStepsKeepLogs(hash, s, i, now, pick);
      SameLogsEvolve(s, GoStep(hash, s, i, now, pick).value);
    }
  }

  lemma SameLogsEvolve(s: World, t: World)
    requires t.store.participants == s.store.participants && t.log == s.log && t.sent == s.sent
    ensures StoreEvolves(s, t)
  {
  }

  lemma OtherStepsKeepLogs(hash: Digest, s: World, i: nat, now: string, pick: string)
    requires RefsOk(s) && i < |s.handlers| && GoStep(hash, s, i, now, pick).Some?
    requires s.handlers[i].at !in {Register, RegisterChannel, Reader.StoreMessage}
    ensures var t := GoStep(hash, s, i, now, pick).value;
      t.store.participants == s.store.participants && t.log == s.log && t.sent == s.sent
  {
  }

  lemma NextStoreEvolves(hash: Digest, s: World, l: Label)
    requires Next(hash, s, l).Some?
    ensures StoreEvolves(s, Next(hash, s, l).value)
  {
    if l.Go? {
      GoStoreEvolves(hash, s, l.i, l.now, l.pick);
    }
  }

  // ------------------------------------------------------------------------- all runs

  lemma EvolvesTransitive(a: Handler, b: Handler, c: Handler)
    requires Evolves(a, b) && Evolves(b, c)
    ensures Evolves(a, c)
  {
  }

  lemma {:induction false} RunEvolves(hash: Digest, s: World, run: seq<Label>)
    requires HexShaped(hash) && Inv(hash, s) && Run(hash, s, run).Some?
    ensures WorldEvolves(s, Run(hash, s, run).value)
  {
    if run != [] {
      var t := Run(hash, s, run[..|run| - 1]).value;
      var l := run[|run| - 1];
      RunEvolves(hash, s, run[..|run| - 1]);
      RunKeepsInv(hash, s, run[..|run| - 1]);
      NextEvolves(hash, t, l);
      NextStoreEvolves(hash, t, l);
      var r := Next(hash, t, l).value;
      forall i | 0 <= i < |s.handlers| ensures Evolves(s.handlers[i], r.handlers[i]) {
        EvolvesTransitive(s.handlers[i], t.handlers[i], r.handlers[i]);
      }
    }
  }

  // No stored account is ever overwritten or lost, and neither log ever loses an entry, whatever happens
  // between one connection's existence check and its insertion.
  lemma {:induction false} AccountsAreForever(hash: Digest, s: World, run: seq<Label>, u: string)
    requires HexShaped(hash) && Reachable(hash, s) && Run(hash, s, run).Some? && u in s.store.participants
    ensures var t := Run(hash, s, run).value;
      && u in t.store.participants && t.store.participants[u] == s.store.participants[u]
      && s.store.chatHistory <= t.store.chatHistory
  {
    ReachableInv(hash, s);
    RunEvolves(hash, s, run);
    RunKeepsInv(hash, s, run);
    HistoryGrows(s, Run(hash, s, run).value);
  }

  lemma HistoryGrows(s: World, t: World)
    requires LogOk(s) && LogOk(t) && s.log <= t.log
    ensures s.store.chatHistory <= t.store.chatHistory
  {
    assert Messages(s.log) == Messages(t.log)[..|s.log|];
  }

  // A connection that has been marked connected stays so with the same participant record, never again
  // joins, registers or logs in, and has exactly one idle watcher.
  lemma {:induction false} ConnectedIsForever(hash: Digest, s: World, run: seq<Label>, i: nat)
    requires HexShaped(hash) && Reachable(hash, s) && Run(hash, s, run).Some?
    requires i < |s.handlers| && s.handlers[i].conn == Connected
    ensures var t := Run(hash, s, run).value;
      && i < |t.handlers|
      && var h := t.handlers[i];
         && h.conn == Connected
         && h.participant == s.handlers[i].participant
         && h.state !in {Joining, Registration, Authentication}
         && |h.watchers| == 1
         && h.participant.username in t.store.participants
         && t.store.participants[h.participant.username] == Memory.Account(hash, h.participant)
  {
    ReachableInv(hash, s);
    RunEvolves(hash, s, run);
    RunKeepsInv(hash, s, run);
    var t := Run(hash, s, run).value;
    assert Evolves(s.handlers[i], t.handlers[i]);
    assert HandlerOk(t.handlers[i]) && OwnerOk(t, i);
    assert AccountOk(hash, t, t.handlers[i].participant.username);
  }

  // A handler leaves the map once and for all: after its removal its entry never comes back, even when the
  // address is handed out again.
  lemma {:induction false} RemovedOnce(hash: Digest, s: World, run: seq<Label>, i: nat)
    requires HexShaped(hash) && Reachable(hash, s) && Run(hash, s, run).Some?
    requires i < |s.handlers| && !Live(s.handlers[i])
    ensures var t := Run(hash, s, run).value;
      && i < |t.handlers| && !Live(t.handlers[i])
      && forall a :: a in t.conns ==> t.conns[a] != i
  {
    ReachableInv(hash, s);
    RunEvolves(hash, s, run);
    RunKeepsInv(hash, s, run);
    assert Evolves(s.handlers[i], Run(hash, s, run).value.handlers[i]);
  }
}
