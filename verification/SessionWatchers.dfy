/** The idle watcher inside the session: its timer discipline, its winding down, and exactly when a reader
    that waits to send the abort signal can ever go on. */
module SessionWatchers {
  import opened Text
  import opened Types
  import opened Validation
  import opened IdleWatcher
  import opened Reader
  import opened Session
  import opened SessionInvariant
  import opened SessionHistory
  import Commands

  // In every reachable world a watcher at its select has its timer armed or exactly one undelivered tick,
  // and one that drains the timer's channel finds the tick there; there is at most one watcher.
  lemma TimerDiscipline(hash: Digest, s: World, i: nat, w: nat)
    requires HexShaped(hash) && Reachable(hash, s) && i < |s.handlers| && w < |s.handlers[i].watchers|
    ensures |s.handlers[i].watchers| == 1
    ensures var x := s.handlers[i].watchers[w];
      && (x.at == Selecting ==> (x.armed <==> x.ticks == 0) && x.ticks <= 1)
      && (x.at == Draining ==> CanAdvance(x) && x.ticks == 1 && !x.armed)
      && (x.at == Selecting || x.at == Returned || CanAdvance(x))
  {
    HandlerInv(hash, s, i);
    StepsKeepWatcherOk(s.handlers[i].watchers[w]);
  }

  function Actor(l: Label): Option<nat> {
    match l
    case Accept(_) => None
    case Broadcast => None
    case ShutDown => None
    case _ => Some(l.i)
  }

  lemma GoTouchesOne(hash: Digest, s: World, i: nat, now: string, pick: string, k: nat)
    requires RefsOk(s) && MapOk(s) && HandlersOk(s) && i < |s.handlers| && k < |s.handlers| && k != i
    requires GoStep(hash, s, i, now, pick).Some?
    ensures var t := GoStep(hash, s, i, now, pick).value;
      |t.handlers| == |s.handlers| && t.handlers[k] == s.handlers[k]
  {
    if s.handlers[i].at == MarkConnected {
      MarkTouchesOne(s, i, k);
    } else {
      GoTouchesNoOther(hash, s, i, now, pick, k);
    }
  }

  lemma MarkTouchesOne(s: World, i: nat, k: nat)
    requires MapOk(s) && HandlersOk(s) && i < |s.handlers| && k < |s.handlers| && k != i
    requires s.handlers[i].at == MarkConnected
    ensures var t := MarkConnectedStep(s, i); |t.handlers| == |s.handlers| && t.handlers[k] == s.handlers[k]
  {
    LiveIsMapped(s, i);
    MarkIsPut(s, i);
  }

  lemma GoTouchesNoOther(hash: Digest, s: World, i: nat, now: string, pick: string, k: nat)
    requires RefsOk(s) && i < |s.handlers| && k < |s.handlers| && k != i && s.handlers[i].at != MarkConnected
    requires GoStep(hash, s, i, now, pick).Some?
    ensures var t := GoStep(hash, s, i, now, pick).value;
      |t.handlers| == |s.handlers| && t.handlers[k] == s.handlers[k]
  {
  }

  lemma GoKeepsCount(hash: Digest, s: World, i: nat, now: string, pick: string)
    requires RefsOk(s) && i < |s.handlers| && GoStep(hash, s, i, now, pick).Some?
    ensures |GoStep(hash, s, i, now, pick).value.handlers| == |s.handlers|
  {
    if ChannelPoint(s.handlers[i].at) {
      GoChannelSteps(hash, s, i, now, pick);
    } else {
      OtherGoKeepsCount(hash, s, i, now, pick);
    }
  }

  lemma OtherGoKeepsCount(hash: Digest, s: World, i: nat, now: string, pick: string)
    requires RefsOk(s) && i < |s.handlers| && GoStep(hash, s, i, now, pick).Some? && !ChannelPoint(s.handlers[i].at)
    ensures |GoStep(hash, s, i, now, pick).value.handlers| == |s.handlers|
  {
  }

  // A step of one handler or of its watcher changes no other handler.
  lemma OthersUntouched(hash: Digest, s: World, l: Label, k: nat)
    requires Inv(hash, s) && Next(hash, s, l).Some? && k < |s.handlers| && Actor(l) != Some(k)
    ensures var t := Next(hash, s, l).value; k < |t.handlers| && t.handlers[k] == s.handlers[k]
  {
    if l.Go? {
      GoTouchesOne(hash, s, l.i, l.now, l.pick, k);
    } else {
      OtherStepsTouchOne(hash, s, l, k);
    }
  }

  lemma OtherStepsTouchOne(hash: Digest, s: World, l: Label, k: nat)
    requires Next(hash, s, l).Some? && !l.Go? && k < |s.handlers| && Actor(l) != Some(k)
    ensures var t := Next(hash, s, l).value; k < |t.handlers| && t.handlers[k] == s.handlers[k]
  {
  }

  // ------------------------------------------------------------------- winding down

  // Once its handler is leaving with the context cancelled, a watcher has at most six steps left: each of its
  // own steps uses one up, and no other step gives any back.
  lemma WatcherWindsDown(hash: Digest, s: World, l: Label, i: nat)
    requires HexShaped(hash) && Reachable(hash, s) && Next(hash, s, l).Some?
    requires i < |s.handlers| && |s.handlers[i].watchers| == 1
    requires s.handlers[i].state == Disconnecting && s.handlers[i].cancelled
    ensures var t := Next(hash, s, l).value;
      && i < |t.handlers| && |t.handlers[i].watchers| == 1
      && t.handlers[i].state == Disconnecting && t.handlers[i].cancelled
      && var before, after := StepsLeft(s.handlers[i].watchers[0]), StepsLeft(t.handlers[i].watchers[0]);
         if l in {WatchTick(i, 0), WatchDone(i, 0), WatchGo(i, 0)} then after < before else after == before
  {
    ReachableInv(hash, s);
    if Actor(l) != Some(i) {
      OthersUntouched(hash, s, l, i);
    } else if l.Go? {
      LeavingGo(hash, s, i, l.now, l.pick);
    } else {
      LeavingRest(s, Next(hash, s, l).value, l, i, hash);
    }
  }

  // Until such a watcher has returned, one of its steps is enabled.
  lemma WatcherNeverStalls(hash: Digest, s: World, i: nat)
    requires HexShaped(hash) && Reachable(hash, s) && s.panic.None?
    requires i < |s.handlers| && |s.handlers[i].watchers| == 1 && s.handlers[i].cancelled
    requires s.handlers[i].watchers[0].at != Returned
    ensures Next(hash, s, WatchDone(i, 0)).Some? || Next(hash, s, WatchGo(i, 0)).Some?
  {
    HandlerInv(hash, s, i);
    WatcherCanGo(s, s.handlers[i], i);
  }

  lemma WatcherCanGo(s: World, h: Handler, i: nat)
    requires i < |s.handlers| && s.handlers[i] == h && |h.watchers| == 1 && h.cancelled
    requires WatcherOk(h.watchers[0]) && h.watchers[0].at != Returned
    ensures WatchStep(s, i, 0, WatchDone(i, 0)).Some? || WatchStep(s, i, 0, WatchGo(i, 0)).Some?
  {
  }

  lemma LeavingRest(s: World, t: World, l: Label, i: nat, hash: Digest)
    requires Next(hash, s, l) == Some(t) && Actor(l) == Some(i) && !l.Go?
    requires i < |s.handlers| && HandlerOk(s.handlers[i]) && |s.handlers[i].watchers| == 1
    requires s.handlers[i].state == Disconnecting && s.handlers[i].cancelled
    ensures
      && i < |t.handlers| && |t.handlers[i].watchers| == 1
      && t.handlers[i].state == Disconnecting && t.handlers[i].cancelled
      && var before, after := StepsLeft(s.handlers[i].watchers[0]), StepsLeft(t.handlers[i].watchers[0]);
         if l in {WatchTick(i, 0), WatchDone(i, 0), WatchGo(i, 0)} then after < before else after == before
  {
    if l.WatchTick? || l.WatchDone? || l.WatchGo? {
      WatchCountsDown(s.handlers[i], l.w, l);
    } else if l.TimerFires? {
      TimerCountsNothing(s.handlers[i], l.w, l);
    } else {
      LeavingReader(hash, s, l, i);
    }
  }

  lemma TimerCountsNothing(h: Handler, w: nat, l: Label)
    requires |h.watchers| == 1 && w == 0 && l.TimerFires? && Watch(h, w, l).Some?
    ensures StepsLeft(Watch(h, w, l).value.watchers[0]) == StepsLeft(h.watchers[0])
    ensures |Watch(h, w, l).value.watchers| == 1
  {
  }

  lemma LeavingReader(hash: Digest, s: World, l: Label, i: nat)
    requires Next(hash, s, l).Some? && (l.Read? || l.HandSys? || l.HandChat? || l.Abort?) && l.i == i
    requires i < |s.handlers| && HandlerOk(s.handlers[i])
    requires s.handlers[i].state == Disconnecting && s.handlers[i].cancelled
    ensures var t := Next(hash, s, l).value;
      && i < |t.handlers| && t.handlers[i].watchers == s.handlers[i].watchers
      && t.handlers[i].state == Disconnecting && t.handlers[i].cancelled
  {
    LeavingPoint(s.handlers[i]);
  }

  lemma LeavingPoint(h: Handler)
    requires HandlerOk(h) && h.state == Disconnecting
    ensures h.at != Reading && h.at != AbortTimeout && !h.at.SendChat? && (h.at.SendSys? ==> h.at.after == ThenGone)
  {
  }

  lemma WatchCountsDown(h: Handler, w: nat, l: Label)
    requires |h.watchers| == 1 && w == 0 && Watch(h, w, l).Some?
    requires WatcherOk(h.watchers[0]) && !l.TimerFires?
    ensures StepsLeft(Watch(h, w, l).value.watchers[0]) < StepsLeft(h.watchers[0])
    ensures |Watch(h, w, l).value.watchers| == 1
  {
  }

  lemma LeavingGo(hash: Digest, s: World, i: nat, now: string, pick: string)
    requires Inv(hash, s) && i < |s.handlers| && GoStep(hash, s, i, now, pick).Some?
    requires s.handlers[i].state == Disconnecting && s.handlers[i].cancelled
    ensures var t := GoStep(hash, s, i, now, pick).value;
      && |t.handlers| == |s.handlers|
      && t.handlers[i].watchers == s.handlers[i].watchers
      && t.handlers[i].state == Disconnecting && t.handlers[i].cancelled
  {
    var h := s.handlers[i];
    assert HandlerOk(h);
    if h.at == Line {
      LeavingLine(h, s.store.objects[h.channel]);
    }
  }

  lemma LeavingLine(h: Handler, record: Channel)
    requires HandlerOk(h) && h.at == Line && h.state == Disconnecting
    ensures OnLine(h, record) == Turn(Done(h.(at := Cancel)), record)
  {
    assert Commands.Parse("") == Commands.NO_COMMAND;
  }

  // ------------------------------------------------------------- waiting to abort the timeout

  // A watcher that will, or may, be back at its select.
  predicate CanListen(w: Watcher) {
    w.at == Selecting || w.at == Aborted || w.at == Draining || w.at == Resetting
  }

  predicate SomeoneListens(h: Handler) {
    exists w :: 0 <= w < |h.watchers| && CanListen(h.watchers[w])
  }

  predicate Stuck(s: World, i: nat) {
    i < |s.handlers| && s.handlers[i].at == AbortTimeout && !SomeoneListens(s.handlers[i])
  }

  lemma StuckStep(hash: Digest, s: World, l: Label, i: nat)
    requires Inv(hash, s) && Next(hash, s, l).Some? && Stuck(s, i)
    ensures Stuck(Next(hash, s, l).value, i)
  {
    if Actor(l) != Some(i) {
      OthersUntouched(hash, s, l, i);
    } else {
      StuckAlone(hash, s, l, i);
    }
  }

  // While it waits, only its watchers move, and none of them comes back to its select.
  lemma StuckAlone(hash: Digest, s: World, l: Label, i: nat)
    requires Next(hash, s, l).Some? && Stuck(s, i) && Actor(l) == Some(i)
    ensures Stuck(Next(hash, s, l).value, i)
  {
    var h := s.handlers[i];
    assert forall w :: 0 <= w < |h.watchers| ==> !CanListen(h.watchers[w]);
    assert l.TimerFires? || l.WatchTick? || l.WatchDone? || l.WatchGo?;
    StuckWatch(h, l.w, l);
  }

  lemma StuckWatch(h: Handler, w: nat, l: Label)
    requires w < |h.watchers| && Watch(h, w, l).Some? && !SomeoneListens(h)
    ensures Watch(h, w, l).value.at == h.at && !SomeoneListens(Watch(h, w, l).value)
  {
    assert forall k :: 0 <= k < |h.watchers| ==> !CanListen(h.watchers[k]);
  }

  lemma {:induction false} StuckForever(hash: Digest, s: World, run: seq<Label>, i: nat)
    requires HexShaped(hash) && Inv(hash, s) && Run(hash, s, run).Some? && Stuck(s, i)
    ensures Stuck(Run(hash, s, run).value, i)
  {
    if run != [] {
      var front := run[..|run| - 1];
      StuckForever(hash, s, front, i);
      RunKeepsInv(hash, s, front);
      StuckStep(hash, Run(hash, s, front).value, run[|run| - 1], i);
    }
  }

  ghost predicate PassesIn(hash: Digest, s: World, i: nat, run: seq<Label>) {
    Run(hash, s, run).Some? && i < |Run(hash, s, run).value.handlers| &&
    Run(hash, s, run).value.handlers[i].at != AbortTimeout
  }

  ghost predicate CanPass(hash: Digest, s: World, i: nat) {
    exists run :: PassesIn(hash, s, i, run)
  }

  lemma {:induction false} RunFirst(hash: Digest, s: World, l: Label, t: World, run: seq<Label>)
    requires Next(hash, s, l) == Some(t)
    ensures Run(hash, s, [l] + run) == Run(hash, t, run)
  {
    var all := [l] + run;
    if run == [] {
      assert all[..0] == [] && all[0] == l;
      assert Run(hash, s, []) == Some(s);
    } else {
      var front := run[..|run| - 1];
      assert all[..|all| - 1] == [l] + front && all[|all| - 1] == run[|run| - 1];
      RunFirst(hash, s, l, t, front);
    }
  }

  lemma PassLater(hash: Digest, s: World, l: Label, i: nat)
    requires Next(hash, s, l).Some? && CanPass(hash, Next(hash, s, l).value, i)
    ensures CanPass(hash, s, i)
  {
    var t := Next(hash, s, l).value;
    var run :| PassesIn(hash, t, i, run);
    RunFirst(hash, s, l, t, run);
    assert PassesIn(hash, s, i, [l] + run);
  }

  // The step that brings a listening watcher nearer to taking the abort signal, or takes it.
  function ListenerLabel(i: nat, w: nat, x: Watcher): Label {
    if x.at == Selecting then Abort(i, w) else WatchGo(i, w)
  }

  lemma ListenerStep(hash: Digest, s: World, i: nat, w: nat)
    requires RefsOk(s) && s.panic.None? && i < |s.handlers| && s.handlers[i].at == AbortTimeout
    requires w < |s.handlers[i].watchers| && CanListen(s.handlers[i].watchers[w]) && WatcherOk(s.handlers[i].watchers[w])
    ensures
      var x := s.handlers[i].watchers[w];
      var r := Next(hash, s, ListenerLabel(i, w, x));
      && r.Some? && r.value.panic.None? && |r.value.handlers| == |s.handlers|
      && var h := r.value.handlers[i];
         if x.at == Selecting then h.at == Reader.StoreMessage
         else h.at == AbortTimeout && w < |h.watchers| && h.watchers[w] == Advance(x)
  {
  }

  lemma ListenerAdvances(hash: Digest, s: World, i: nat, w: nat)
    requires HexShaped(hash) && Inv(hash, s) && s.panic.None? && i < |s.handlers| && s.handlers[i].at == AbortTimeout
    requires w < |s.handlers[i].watchers| && CanListen(s.handlers[i].watchers[w])
    ensures CanPass(hash, s, i)
    decreases Distance(s.handlers[i].watchers[w])
  {
    var x := s.handlers[i].watchers[w];
    assert HandlerOk(s.handlers[i]);
    ListenerStep(hash, s, i, w);
    var l := ListenerLabel(i, w, x);
    var t := Next(hash, s, l).value;
    if x.at == Selecting {
      assert PassesIn(hash, t, i, []);
    } else {
      NextKeepsInv(hash, s, l);
      ListenerAdvances(hash, t, i, w);
    }
    PassLater(hash, s, l, i);
  }

  function Distance(w: Watcher): nat {
    match w.at
    case Aborted => 3
    case Draining => 2
    case Resetting => 1
    case _ => 0
  }

  // A reader waiting to hand over the abort signal can ever get past that point exactly when its connection
  // has a watcher that is not on its way out.
  lemma AbortPassesExactlyWhen(hash: Digest, s: World, i: nat)
    requires HexShaped(hash) && Reachable(hash, s) && s.panic.None?
    requires i < |s.handlers| && s.handlers[i].at == AbortTimeout
    ensures CanPass(hash, s, i) <==> SomeoneListens(s.handlers[i])
  {
    ReachableInv(hash, s);
    if SomeoneListens(s.handlers[i]) {
      var w :| 0 <= w < |s.handlers[i].watchers| && CanListen(s.handlers[i].watchers[w]);
      ListenerAdvances(hash, s, i, w);
    }
    if CanPass(hash, s, i) && !SomeoneListens(s.handlers[i]) {
      var run :| PassesIn(hash, s, i, run);
      StuckForever(hash, s, run, i);
    }
  }

  lemma {:induction false} FrozenForever(hash: Digest, s: World, run: seq<Label>, i: nat)
    requires HexShaped(hash) && Inv(hash, s) && Run(hash, s, run).Some?
    requires i < |s.handlers| && s.handlers[i].at == AbortTimeout && s.handlers[i].watchers == []
    ensures var t := Run(hash, s, run).value; i < |t.handlers| && t.handlers[i] == s.handlers[i]
  {
    if run != [] {
      var front := run[..|run| - 1];
      FrozenForever(hash, s, front, i);
      RunKeepsInv(hash, s, front);
      FrozenStep(hash, Run(hash, s, front).value, run[|run| - 1], i);
    }
  }

  lemma FrozenStep(hash: Digest, s: World, l: Label, i: nat)
    requires Inv(hash, s) && Next(hash, s, l).Some?
    requires i < |s.handlers| && s.handlers[i].at == AbortTimeout && s.handlers[i].watchers == []
    ensures var t := Next(hash, s, l).value; i < |t.handlers| && t.handlers[i] == s.handlers[i]
  {
    if Actor(l) != Some(i) {
      OthersUntouched(hash, s, l, i);
    } else {
      FrozenTakesNoStep(hash, s, l, i);
      assert false;
    }
  }

  lemma FrozenTakesNoStep(hash: Digest, s: World, l: Label, i: nat)
    requires i < |s.handlers| && s.handlers[i].at == AbortTimeout && s.handlers[i].watchers == [] && Actor(l) == Some(i)
    ensures Next(hash, s, l).None?
  {
  }

  // In particular a pending connection that reaches the chat and sends a line waits there for ever: it stays
  // in the map, frozen, and nothing it says is ever stored.
  lemma {:induction false} PendingChatterWaitsForever(hash: Digest, s: World, run: seq<Label>, i: nat)
    requires HexShaped(hash) && Reachable(hash, s) && Run(hash, s, run).Some?
    requires i < |s.handlers| && s.handlers[i].at == AbortTimeout && s.handlers[i].conn == Pending
    ensures var t := Run(hash, s, run).value;
      && i < |t.handlers| && t.handlers[i] == s.handlers[i]
      && t.handlers[i].addr in t.conns && t.conns[t.handlers[i].addr] == i
      && t.handlers[i].stored == []
  {
    ReachableInv(hash, s);
    PendingAtAbort(s.handlers[i]);
    FrozenForever(hash, s, run, i);
    RunKeepsInv(hash, s, run);
    LiveIsMapped(Run(hash, s, run).value, i);
  }

  lemma PendingAtAbort(h: Handler)
    requires HandlerOk(h) && h.at == AbortTimeout && h.conn == Pending
    ensures h.watchers == [] && h.stored == [] && Live(h)
  {
  }

  lemma LiveIsMapped(s: World, i: nat)
    requires MapOk(s) && i < |s.handlers| && Live(s.handlers[i])
    ensures s.handlers[i].addr in s.conns && s.conns[s.handlers[i].addr] == i
  {
  }
}
