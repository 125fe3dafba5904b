/** Handlers that wait for ever: at the abort signal, when nobody is there to take it, and before the message
    loop, once that has stopped. Both do happen, and nothing else keeps a handler that is not gone from ever
    going on. */
module SessionBlocked {
  import opened Text
  import opened Validation
  import opened IdleWatcher
  import opened Reader
  import opened Session
  import opened SessionInvariant
  import opened SessionHistory
  import opened SessionEvolution
  import opened SessionWatchers
  import opened SessionWitness
  import Memory

  // ------------------------------------------------------------------- at the abort signal

  // A client that never registered founds a channel, finds itself in the chat and types a line.
  lemma SomePendingChatterWaits(hash: Digest) returns (s: World)
    requires HexShaped(hash)
    ensures Reachable(hash, s) && s.panic.None? && |s.handlers| == 1
    ensures s.handlers[0].at == AbortTimeout && s.handlers[0].conn == Pending
    ensures !CanPass(hash, s, 0)
  {
    var s0 := PendingChatter(hash);
    s := TypesIntoChat(hash, s0, 0);
    HandlerInv(hash, s, 0);
    PendingAtAbort(s.handlers[0]);
    AbortPassesExactlyWhen(hash, s, 0);
  }

  lemma PendingChatter(hash: Digest) returns (s: World)
    ensures Ready(hash, s) && |s.handlers| == 1
    ensures var h := s.handlers[0]; h.at == Reading && h.conn == Pending && h.state == AcceptingMessages && !h.closed
  {
    InitialReady(hash);
    var name := SampleChannel();
    var s0 := Enter(hash, INITIAL, "a");
    var s1 := AskName(hash, s0, 0);
    var s2 := OpenMenu(hash, s1, 0);
    var s3 := StartChannel(hash, s2, 0);
    var s4 := NameChannel(hash, s3, 0, name);
    var s5 := DescribeChannel(hash, s4, 0, name);
    s := AddChannel(hash, s5, 0);
  }

  lemma TypesIntoChat(hash: Digest, s: World, i: nat) returns (t: World)
    requires Ready(hash, s) && i < |s.handlers|
    requires s.handlers[i].at == Reading && s.handlers[i].state == AcceptingMessages && !s.handlers[i].closed
    ensures Ready(hash, t) && Frame(s, t, i)
    ensures t.handlers[i] == s.handlers[i].(buffer := t.handlers[i].buffer, at := AbortTimeout)
  {
    var line := SampleChannel();
    var h := s.handlers[i].(buffer := line, at := Line);
    PlainLine(h, s.store.objects[h.channel]);
    t := Type(hash, s, i, line, h.(at := AbortTimeout));
  }

  // A registered client's line has arrived, but its watcher takes its tick before the line is handled.
  lemma SomeTimedOutChatterWaits(hash: Digest) returns (s: World)
    requires HexShaped(hash)
    ensures Reachable(hash, s) && s.panic.None? && |s.handlers| == 1
    ensures s.handlers[0].at == AbortTimeout && s.handlers[0].conn == Connected
    ensures !CanPass(hash, s, 0)
  {
    var line := SampleChannel();
    var s0 := ConnectedReader(hash);
    var s1 := Arrive(hash, s0, 0, line);
    var s2 := TimesOut(hash, s1, 0);
    var h := s2.handlers[0];
    PlainLine(h, s2.store.objects[h.channel]);
    s := Handle(hash, s2, 0, h.(at := AbortTimeout));
    assert !SomeoneListens(s.handlers[0]);
    AbortPassesExactlyWhen(hash, s, 0);
  }

  lemma TimesOut(hash: Digest, s: World, i: nat) returns (t: World)
    requires Ready(hash, s) && i < |s.handlers| && s.handlers[i].watchers == [STARTED]
    ensures Ready(hash, t) && t == Put(s, i, s.handlers[i].(watchers := [Watcher(Closing, false, 0)]))
  {
    var h := s.handlers[i];
    StepReach(hash, s, TimerFires(i, 0));
    var s1 := Next(hash, s, TimerFires(i, 0)).value;
    assert h.watchers[0 := Fire(STARTED)] == [Watcher(Selecting, false, 1)];
    assert s1 == Put(s, i, h.(watchers := [Watcher(Selecting, false, 1)]));
    t := Ticks(hash, s1, i);
    assert s1.handlers[i := t.handlers[i]] == s.handlers[i := t.handlers[i]];
  }

  lemma Ticks(hash: Digest, s: World, i: nat) returns (t: World)
    requires Ready(hash, s) && i < |s.handlers| && s.handlers[i].watchers == [Watcher(Selecting, false, 1)]
    ensures Ready(hash, t) && t == Put(s, i, s.handlers[i].(watchers := [Watcher(Closing, false, 0)]))
  {
    StepReach(hash, s, WatchTick(i, 0));
    t := Next(hash, s, WatchTick(i, 0)).value;
    var h := s.handlers[i];
    assert h.watchers[0 := TakeTick(h.watchers[0])] == [Watcher(Closing, false, 0)];
  }

  // -------------------------------------------------------------- after the loop has stopped

  predicate Offers(h: Handler) {
    h.at.SendSys? || h.at.SendChat?
  }

  predicate TakesNothing(l: Label) {
    !l.HandSys? && !l.HandChat? && !l.Broadcast?
  }

  predicate StaysStopped(s: World, t: World) {
    && t.loop == Stopped && t.sent == s.sent
    && |s.handlers| <= |t.handlers|
    && forall i :: 0 <= i < |s.handlers| && Offers(s.handlers[i]) ==> t.handlers[i].at == s.handlers[i].at
  }

  lemma StaysTransitive(s: World, t: World, r: World)
    requires StaysStopped(s, t) && StaysStopped(t, r)
    ensures StaysStopped(s, r)
  {
  }

  lemma StoppedStep(hash: Digest, s: World, l: Label)
    requires Inv(hash, s) && s.loop == Stopped && Next(hash, s, l).Some?
    ensures TakesNothing(l) && StaysStopped(s, Next(hash, s, l).value)
  {
    StoppedLoop(hash, s, l);
    NextEvolves(hash, s, l);
    forall i | 0 <= i < |s.handlers| && Offers(s.handlers[i])
      ensures Next(hash, s, l).value.handlers[i].at == s.handlers[i].at
    {
      if Actor(l) != Some(i) {
        OthersUntouched(hash, s, l, i);
      } else {
        OfferStays(hash, s, l, i);
      }
    }
  }

  lemma StoppedLoop(hash: Digest, s: World, l: Label)
    requires s.loop == Stopped && Next(hash, s, l).Some?
    ensures !l.HandSys? && !l.HandChat? && !l.Broadcast?
    ensures Next(hash, s, l).value.loop == Stopped && Next(hash, s, l).value.sent == s.sent
  {
  }

  lemma OfferStays(hash: Digest, s: World, l: Label, i: nat)
    requires s.loop == Stopped && Next(hash, s, l).Some? && Actor(l) == Some(i)
    requires i < |s.handlers| && Offers(s.handlers[i])
    ensures i < |Next(hash, s, l).value.handlers| && Next(hash, s, l).value.handlers[i].at == s.handlers[i].at
  {
  }

  lemma {:induction false} StoppedRun(hash: Digest, s: World, run: seq<Label>)
    requires HexShaped(hash) && Inv(hash, s) && s.loop == Stopped && Run(hash, s, run).Some?
    ensures StaysStopped(s, Run(hash, s, run).value)
  {
    if run != [] {
      var front := run[..|run| - 1];
      StoppedRun(hash, s, front);
      RunKeepsInv(hash, s, front);
      LastStep(hash, s, Run(hash, s, front).value, run[|run| - 1]);
    }
  }

  lemma LastStep(hash: Digest, s: World, t: World, l: Label)
    requires Inv(hash, t) && StaysStopped(s, t) && Next(hash, t, l).Some?
    ensures StaysStopped(s, Next(hash, t, l).value)
  {
    StoppedStep(hash, t, l);
    StaysTransitive(s, t, Next(hash, t, l).value);
  }

  lemma {:induction false} NothingTaken(hash: Digest, s: World, run: seq<Label>, k: nat)
    requires HexShaped(hash) && Inv(hash, s) && s.loop == Stopped && Run(hash, s, run).Some? && k < |run|
    ensures TakesNothing(run[k])
  {
    var front := run[..|run| - 1];
    if k < |front| {
      NothingTaken(hash, s, front, k);
    } else {
      StoppedRun(hash, s, front);
      LastIsEnabled(hash, s, run);
      StoppedTakesNothing(hash, s, Run(hash, s, front).value, run[k]);
    }
  }

  lemma {:induction false} LastIsEnabled(hash: Digest, s: World, run: seq<Label>)
    requires run != [] && Run(hash, s, run).Some?
    ensures var front := Run(hash, s, run[..|run| - 1]); front.Some? && Next(hash, front.value, run[|run| - 1]).Some?
  {
  }

  lemma StoppedTakesNothing(hash: Digest, s: World, t: World, l: Label)
    requires StaysStopped(s, t) && Next(hash, t, l).Some?
    ensures TakesNothing(l)
  {
    StoppedLoop(hash, t, l);
  }

  // Once the message loop has returned it stays away: in every continuation no message of any kind is taken or
  // broadcast any more, and whoever offers one stays at that point.
  lemma {:induction false} StoppedForever(hash: Digest, s: World, run: seq<Label>)
    requires HexShaped(hash) && Reachable(hash, s) && s.loop == Stopped && Run(hash, s, run).Some?
    ensures var t := Run(hash, s, run).value;
      && t.loop == Stopped && t.sent == s.sent
      && |s.handlers| <= |t.handlers|
      && forall i :: 0 <= i < |s.handlers| && Offers(s.handlers[i]) ==> t.handlers[i].at == s.handlers[i].at
    ensures forall k :: 0 <= k < |run| ==> !run[k].HandSys? && !run[k].HandChat? && !run[k].Broadcast?
  {
    ReachableInv(hash, s);
    StoppedRun(hash, s, run);
    forall k | 0 <= k < |run| ensures !run[k].HandSys? && !run[k].HandChat? && !run[k].Broadcast? {
      NothingTaken(hash, s, run, k);
    }
  }

  // -------------------------------------------------- exactly which handlers can ever go on

  // The handler's own steps: what its goroutine does, alone or in a rendezvous.
  predicate OwnStep(l: Label, i: nat) {
    (l.Read? || l.Go? || l.HandSys? || l.HandChat? || l.Abort?) && l.i == i
  }

  ghost predicate ActsIn(hash: Digest, s: World, i: nat, run: seq<Label>) {
    run != [] && Run(hash, s, run).Some? && OwnStep(run[|run| - 1], i)
  }

  // In some continuation the handler takes a step of its own.
  ghost predicate CanAct(hash: Digest, s: World, i: nat) {
    exists run :: ActsIn(hash, s, i, run)
  }

  // Waiting for a rendezvous that can no longer happen, or done.
  predicate Idled(s: World, i: nat)
    requires i < |s.handlers|
  {
    var h := s.handlers[i];
    || h.at == HandlerPoint.Gone
    || (h.at == AbortTimeout && !SomeoneListens(h))
    || (Offers(h) && s.loop == Stopped)
  }

  lemma ActsNow(hash: Digest, s: World, l: Label, i: nat)
    requires Next(hash, s, l).Some? && OwnStep(l, i)
    ensures CanAct(hash, s, i)
  {
    assert [l][..0] == [];
    assert Run(hash, s, []) == Some(s);
    assert ActsIn(hash, s, i, [l]);
  }

  lemma ActsLater(hash: Digest, s: World, l: Label, i: nat)
    requires Next(hash, s, l).Some? && CanAct(hash, Next(hash, s, l).value, i)
    ensures CanAct(hash, s, i)
  {
    var t := Next(hash, s, l).value;
    var run :| ActsIn(hash, t, i, run);
    RunFirst(hash, s, l, t, run);
    assert ([l] + run)[|run|] == run[|run| - 1];
    assert ActsIn(hash, s, i, [l] + run);
  }

  lemma OffererActs(hash: Digest, s: World, i: nat)
    requires RefsOk(s) && s.panic.None? && i < |s.handlers| && Offers(s.handlers[i]) && s.loop != Stopped
    ensures CanAct(hash, s, i)
    decreases if s.loop == Waiting then 0 else 1
  {
    if s.loop == Waiting {
      ActsNow(hash, s, if s.handlers[i].at.SendSys? then HandSys(i) else HandChat(i), i);
    } else {
      OffererActs(hash, Next(hash, s, Broadcast).value, i);
      ActsLater(hash, s, Broadcast, i);
    }
  }

  lemma ListenedToActs(hash: Digest, s: World, i: nat, w: nat)
    requires HexShaped(hash) && Inv(hash, s) && s.panic.None? && i < |s.handlers| && s.handlers[i].at == AbortTimeout
    requires w < |s.handlers[i].watchers| && CanListen(s.handlers[i].watchers[w])
    ensures CanAct(hash, s, i)
    decreases Distance(s.handlers[i].watchers[w])
  {
    var x := s.handlers[i].watchers[w];
    assert HandlerOk(s.handlers[i]);
    ListenerStep(hash, s, i, w);
    var l := ListenerLabel(i, w, x);
    if x.at == Selecting {
      ActsNow(hash, s, l, i);
    } else {
      NextKeepsInv(hash, s, l);
      ListenedToActs(hash, Next(hash, s, l).value, i, w);
      ActsLater(hash, s, l, i);
    }
  }

  lemma SomePick(store: Memory.Store) returns (pick: string)
    ensures |store.channels| > 0 ==> pick in store.channels
  {
    pick := "";
    if |store.channels| > 0 {
      pick :| pick in store.channels;
    }
  }

  // Everywhere else the handler's next step is enabled right away; a read can always fail.
  lemma OthersActNow(hash: Digest, s: World, i: nat)
    requires RefsOk(s) && s.panic.None? && i < |s.handlers|
    requires !Offers(s.handlers[i]) && s.handlers[i].at != AbortTimeout && s.handlers[i].at != HandlerPoint.Gone
    ensures CanAct(hash, s, i)
  {
    if s.handlers[i].at == Reading {
      ActsNow(hash, s, Read(i, Failed), i);
    } else {
      var pick := SomePick(s.store);
      GoEnabled(hash, s, i, pick);
      ActsNow(hash, s, Go(i, "", pick), i);
    }
  }

  lemma GoEnabled(hash: Digest, s: World, i: nat, pick: string)
    requires RefsOk(s) && i < |s.handlers| && (|s.store.channels| > 0 ==> pick in s.store.channels)
    requires !Offers(s.handlers[i])
    requires s.handlers[i].at !in {AbortTimeout, HandlerPoint.Gone, Reading}
    ensures GoStep(hash, s, i, "", pick).Some?
  {
  }

  // Once idled, idled in every continuation.
  lemma IdledStep(hash: Digest, s: World, l: Label, i: nat)
    requires Inv(hash, s) && i < |s.handlers| && Idled(s, i) && Next(hash, s, l).Some?
    ensures !OwnStep(l, i)
    ensures i < |Next(hash, s, l).value.handlers| && Idled(Next(hash, s, l).value, i)
  {
    IdledTakesNoStep(hash, s, l, i);
    if s.handlers[i].at == AbortTimeout {
      StuckStep(hash, s, l, i);
    } else if s.handlers[i].at == HandlerPoint.Gone {
      GoneStep(hash, s, l, i);
    } else {
      StoppedStep(hash, s, l);
    }
  }

  lemma IdledTakesNoStep(hash: Digest, s: World, l: Label, i: nat)
    requires i < |s.handlers| && Idled(s, i) && Next(hash, s, l).Some?
    ensures !OwnStep(l, i)
  {
    if l.Abort? && l.i == i {
      assert CanListen(s.handlers[i].watchers[l.w]);
    }
  }

  lemma GoneStep(hash: Digest, s: World, l: Label, i: nat)
    requires Inv(hash, s) && i < |s.handlers| && s.handlers[i].at == HandlerPoint.Gone && Next(hash, s, l).Some?
    requires !OwnStep(l, i)
    ensures var t := Next(hash, s, l).value; i < |t.handlers| && t.handlers[i].at == HandlerPoint.Gone
  {
    if Actor(l) != Some(i) {
      OthersUntouched(hash, s, l, i);
    }
  }

  lemma {:induction false} IdledRun(hash: Digest, s: World, run: seq<Label>, i: nat)
    requires HexShaped(hash) && Inv(hash, s) && i < |s.handlers| && Idled(s, i) && Run(hash, s, run).Some?
    ensures i < |Run(hash, s, run).value.handlers| && Idled(Run(hash, s, run).value, i)
    ensures run != [] ==> !OwnStep(run[|run| - 1], i)
  {
    if run != [] {
      var front := run[..|run| - 1];
      IdledRun(hash, s, front, i);
      RunKeepsInv(hash, s, front);
      IdledStep(hash, Run(hash, s, front).value, run[|run| - 1], i);
    }
  }

  // A handler can ever take another step of its own exactly when it is not gone, not at the abort signal with
  // nobody listening, and not offering a message to a loop that has stopped.
  lemma ActsAgainExactly(hash: Digest, s: World, i: nat)
    requires HexShaped(hash) && Reachable(hash, s) && s.panic.None? && i < |s.handlers|
    ensures CanAct(hash, s, i) <==>
      && s.handlers[i].at != HandlerPoint.Gone
      && !(s.handlers[i].at == AbortTimeout && !SomeoneListens(s.handlers[i]))
      && !(Offers(s.handlers[i]) && s.loop == Stopped)
  {
    ReachableInv(hash, s);
    if Idled(s, i) {
      if run :| ActsIn(hash, s, i, run) {
        IdledRun(hash, s, run, i);
      }
    } else {
      UnidledActs(hash, s, i);
    }
  }

  lemma UnidledActs(hash: Digest, s: World, i: nat)
    requires HexShaped(hash) && Inv(hash, s) && s.panic.None? && i < |s.handlers| && !Idled(s, i)
    ensures CanAct(hash, s, i)
  {
    if Offers(s.handlers[i]) {
      OffererActs(hash, s, i);
    } else if s.handlers[i].at == AbortTimeout {
      var w :| 0 <= w < |s.handlers[i].watchers| && CanListen(s.handlers[i].watchers[w]);
      ListenedToActs(hash, s, i, w);
    } else {
      OthersActNow(hash, s, i);
    }
  }

  // An offered message is ever taken exactly when the loop has not stopped.
  lemma OfferTakenExactlyWhen(hash: Digest, s: World, i: nat)
    requires HexShaped(hash) && Reachable(hash, s) && s.panic.None? && i < |s.handlers| && Offers(s.handlers[i])
    ensures CanAct(hash, s, i) <==> s.loop != Stopped
  {
    ActsAgainExactly(hash, s, i);
  }

  // The session timer fires with nobody connected. The listener still accepts, and the next client's handler
  // waits at its first prompt for ever.
  lemma SomeClientMeetsStoppedLoop(hash: Digest) returns (s: World)
    requires HexShaped(hash)
    ensures Reachable(hash, s) && s.panic.None? && s.loop == Stopped && |s.handlers| == 1
    ensures s.handlers[0] == NewHandler("a", 0) && Offers(s.handlers[0])
    ensures !CanAct(hash, s, 0)
  {
    InitialReady(hash);
    StepReach(hash, INITIAL, ShutDown);
    var s1 := Next(hash, INITIAL, ShutDown).value;
    StepReach(hash, s1, Accept("a"));
    s := Next(hash, s1, Accept("a")).value;
    ActsAgainExactly(hash, s, 0);
  }
}
