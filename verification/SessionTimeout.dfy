/** What the idle timeout does to a connection: the watcher that takes its tick closes and cancels it, for good,
    and its reader then has no way but out. */
module SessionTimeout {
  import opened Text
  import opened Validation
  import opened IdleWatcher
  import opened Reader
  import opened Session
  import opened SessionInvariant
  import opened SessionHistory
  import opened SessionWatchers
  import opened SessionDialogue
  import SessionWitness

  // In every reachable world: a watcher past its closing point has the network connection closed, one that has
  // returned leaves the context cancelled, and one that has returned from its tick has it closed, too.
  lemma TimedOutIsCutOff(hash: Digest, s: World, i: nat, w: nat)
    requires HexShaped(hash) && Reachable(hash, s) && i < |s.handlers| && w < |s.handlers[i].watchers|
    ensures
      var h, x := s.handlers[i], s.handlers[i].watchers[w];
      && (x.at == Cancelling ==> h.closed)
      && (x.at == Returned ==> h.cancelled)
      && (x.at == Returned && TimedOut(x) ==> h.closed)
      && (TimedOut(x) ==> !x.armed)
  {
    HandlerInv(hash, s, i);
  }

  // A tick that is delivered can be taken. After that two steps remain, always possible: the first closes the
  // network connection, the second cancels the context, and they change nothing else.
  lemma TickCutsOff(hash: Digest, s: World, i: nat, w: nat)
    requires RefsOk(s) && s.panic.None? && i < |s.handlers| && w < |s.handlers[i].watchers|
    requires s.handlers[i].watchers[w].at == Selecting && s.handlers[i].watchers[w].ticks == 1
    ensures
      var h, x := s.handlers[i], s.handlers[i].watchers[w].(ticks := 0);
      var taken := Put(s, i, h.(watchers := h.watchers[w := x.(at := Closing)]));
      var closed := Put(s, i, h.(closed := true, watchers := h.watchers[w := x.(at := Cancelling)]));
      && Next(hash, s, WatchTick(i, w)) == Some(taken)
      && Next(hash, taken, WatchGo(i, w)) == Some(closed)
      && Next(hash, closed, WatchGo(i, w)) ==
         Some(Put(s, i, h.(closed := true, cancelled := true, watchers := h.watchers[w := x.(at := Returned)])))
  {
    var h, x := s.handlers[i], s.handlers[i].watchers[w].(ticks := 0);
    var taken := h.(watchers := h.watchers[w := x.(at := Closing)]);
    WatchGoes(hash, s, taken, i, w);
    var closed := h.(closed := true, watchers := h.watchers[w := x.(at := Cancelling)]);
    assert taken.watchers[w := x.(at := Cancelling)] == closed.watchers;
    WatchGoes(hash, s, closed, i, w);
    assert closed.watchers[w := x.(at := Returned)] == h.watchers[w := x.(at := Returned)];
  }

  lemma WatchGoes(hash: Digest, s: World, h: Handler, i: nat, w: nat)
    requires RefsOk(s) && s.panic.None? && i < |s.handlers| && h.channel == s.handlers[i].channel
    requires w < |h.watchers| && (h.watchers[w].at == Closing || h.watchers[w].at == Cancelling)
    ensures
      var x := h.watchers[w];
      Next(hash, Put(s, i, h), WatchGo(i, w)) == Some(Put(s, i,
        if x.at == Closing then h.(closed := true, watchers := h.watchers[w := x.(at := Cancelling)])
        else h.(cancelled := true, watchers := h.watchers[w := x.(at := Returned)])))
  {
    var t := Put(s, i, h);
    assert t.handlers[i] == h;
    var h' := Next(hash, t, WatchGo(i, w)).value.handlers[i];
    assert t.handlers[i := h'] == s.handlers[i := h'];
  }

  // ------------------------------------------------------------------------ for good

  predicate OutAt(s: World, i: nat, w: nat) {
    i < |s.handlers| && w < |s.handlers[i].watchers| && TimedOut(s.handlers[i].watchers[w])
  }

  lemma GoLeavesWatchers(hash: Digest, s: World, i: nat, now: string, pick: string)
    requires Inv(hash, s) && i < |s.handlers| && GoStep(hash, s, i, now, pick).Some?
    ensures var t := GoStep(hash, s, i, now, pick).value;
      i < |t.handlers| && s.handlers[i].watchers <= t.handlers[i].watchers
  {
    assert HandlerOk(s.handlers[i]);
    if s.handlers[i].at == Line {
      LineLeavesWatchers(s, i);
    } else if ChannelPoint(s.handlers[i].at) {
      ChannelLeavesWatchers(hash, s, i, now, pick);
    } else if s.handlers[i].at == MarkConnected {
      LiveIsMapped(s, i);
      MarkLeavesWatchers(s, i);
    } else {
      RestLeavesWatchers(hash, s, i, now, pick);
    }
  }

  lemma LineLeavesWatchers(s: World, i: nat)
    requires RefsOk(s) && i < |s.handlers| && HandlerOk(s.handlers[i]) && s.handlers[i].at == Line
    ensures var t := HandleLine(s, i); i < |t.handlers| && t.handlers[i].watchers == s.handlers[i].watchers
  {
    LineMove(s.handlers[i], s.store.objects[s.handlers[i].channel]);
  }

  lemma ChannelLeavesWatchers(hash: Digest, s: World, i: nat, now: string, pick: string)
    requires RefsOk(s) && i < |s.handlers| && GoStep(hash, s, i, now, pick).Some? && ChannelPoint(s.handlers[i].at)
    ensures var t := GoStep(hash, s, i, now, pick).value;
      i < |t.handlers| && t.handlers[i].watchers == s.handlers[i].watchers
  {
    GoChannelSteps(hash, s, i, now, pick);
  }

  lemma MarkLeavesWatchers(s: World, i: nat)
    requires i < |s.handlers| && s.handlers[i].addr in s.conns && s.conns[s.handlers[i].addr] == i
    ensures var t := MarkConnectedStep(s, i); i < |t.handlers| && t.handlers[i].watchers == s.handlers[i].watchers
  {
    MarkIsPut(s, i);
  }

  lemma RestLeavesWatchers(hash: Digest, s: World, i: nat, now: string, pick: string)
    requires RefsOk(s) && i < |s.handlers| && GoStep(hash, s, i, now, pick).Some?
    requires !ChannelPoint(s.handlers[i].at) && s.handlers[i].at != Line && s.handlers[i].at != MarkConnected
    ensures var t := GoStep(hash, s, i, now, pick).value;
      i < |t.handlers| && s.handlers[i].watchers <= t.handlers[i].watchers
  {
  }

  lemma OutStep(hash: Digest, s: World, l: Label, i: nat, w: nat)
    requires Inv(hash, s) && OutAt(s, i, w) && Next(hash, s, l).Some?
    ensures OutAt(Next(hash, s, l).value, i, w)
    ensures StepsLeft(Next(hash, s, l).value.handlers[i].watchers[w]) <= StepsLeft(s.handlers[i].watchers[w])
  {
    if Actor(l) != Some(i) {
      OthersUntouched(hash, s, l, i);
    } else if l.Go? {
      GoLeavesWatchers(hash, s, i, l.now, l.pick);
    } else {
      assert HandlerOk(s.handlers[i]);
      OutRest(hash, s, l, i, w);
    }
  }

  lemma OutRest(hash: Digest, s: World, l: Label, i: nat, w: nat)
    requires OutAt(s, i, w) && HandlerOk(s.handlers[i]) && Next(hash, s, l).Some? && Actor(l) == Some(i) && !l.Go?
    ensures OutAt(Next(hash, s, l).value, i, w)
    ensures StepsLeft(Next(hash, s, l).value.handlers[i].watchers[w]) <= StepsLeft(s.handlers[i].watchers[w])
  {
    if l.HandSys? || l.Read? {
      ClientLeavesWatchers(hash, s, l, i);
    } else {
      OutWatch(hash, s, l, i, w);
    }
  }

  lemma ClientLeavesWatchers(hash: Digest, s: World, l: Label, i: nat)
    requires i < |s.handlers| && HandlerOk(s.handlers[i]) && Next(hash, s, l).Some? && (l.HandSys? || l.Read?) && l.i == i
    ensures var t := Next(hash, s, l).value; i < |t.handlers| && t.handlers[i].watchers == s.handlers[i].watchers
  {
    if l.HandSys? {
      ResumeMove(s.handlers[i]);
    } else {
      ReadMove(s.handlers[i], l.input);
    }
  }

  lemma OutWatch(hash: Digest, s: World, l: Label, i: nat, w: nat)
    requires OutAt(s, i, w) && HandlerOk(s.handlers[i]) && Next(hash, s, l).Some? && Actor(l) == Some(i)
    requires !l.Go? && !l.HandSys? && !l.Read?
    ensures OutAt(Next(hash, s, l).value, i, w)
    ensures StepsLeft(Next(hash, s, l).value.handlers[i].watchers[w]) <= StepsLeft(s.handlers[i].watchers[w])
  {
    if l.TimerFires? || l.WatchTick? || l.WatchDone? || l.WatchGo? {
      WatchStaysOut(s.handlers[i], w, l.w, l);
    }
  }

  lemma WatchStaysOut(h: Handler, w: nat, v: nat, l: Label)
    requires HandlerOk(h) && w < |h.watchers| && TimedOut(h.watchers[w]) && v < |h.watchers| && Watch(h, v, l).Some?
    ensures var h' := Watch(h, v, l).value;
      w < |h'.watchers| && TimedOut(h'.watchers[w]) && StepsLeft(h'.watchers[w]) <= StepsLeft(h.watchers[w])
  {
    assert WatcherOk(h.watchers[w]);
  }

  lemma {:induction false} OutRun(hash: Digest, s: World, run: seq<Label>, i: nat, w: nat)
    requires HexShaped(hash) && Inv(hash, s) && Run(hash, s, run).Some? && OutAt(s, i, w)
    ensures OutAt(Run(hash, s, run).value, i, w)
    ensures StepsLeft(Run(hash, s, run).value.handlers[i].watchers[w]) <= StepsLeft(s.handlers[i].watchers[w])
  {
    if run != [] {
      var front := run[..|run| - 1];
      OutRun(hash, s, front, i, w);
      RunKeepsInv(hash, s, front);
      OutStep(hash, Run(hash, s, front).value, run[|run| - 1], i, w);
    }
  }

  // A timeout is final: in every continuation the watcher stays timed out, with at most the two steps to go that
  // close and cancel the connection, and once they are taken it is closed and cancelled.
  lemma {:induction false} TimeoutIsFinal(hash: Digest, s: World, run: seq<Label>, i: nat, w: nat)
    requires HexShaped(hash) && Reachable(hash, s) && Run(hash, s, run).Some? && OutAt(s, i, w)
    ensures
      var t := Run(hash, s, run).value;
      && OutAt(t, i, w)
      && StepsLeft(t.handlers[i].watchers[w]) <= StepsLeft(s.handlers[i].watchers[w]) <= 2
      && (StepsLeft(t.handlers[i].watchers[w]) == 0 ==> t.handlers[i].closed && t.handlers[i].cancelled)
  {
    ReachableInv(hash, s);
    OutRun(hash, s, run, i, w);
    RunKeepsInv(hash, s, run);
    StepsOut(s.handlers[i], w);
    StepsOutIn(Run(hash, s, run).value, i, w);
  }

  lemma StepsOut(h: Handler, w: nat)
    requires w < |h.watchers| && TimedOut(h.watchers[w])
    ensures StepsLeft(h.watchers[w]) <= 2
    ensures HandlerOk(h) && StepsLeft(h.watchers[w]) == 0 ==> h.closed && h.cancelled
  {
  }

  lemma StepsOutIn(s: World, i: nat, w: nat)
    requires HandlersOk(s) && OutAt(s, i, w)
    ensures StepsLeft(s.handlers[i].watchers[w]) == 0 ==> s.handlers[i].closed && s.handlers[i].cancelled
  {
    assert HandlerOk(s.handlers[i]);
    StepsOut(s.handlers[i], w);
  }

  // -------------------------------------------------------------------------- and out

  // A reader whose watcher has returned from its tick can only see its read fail, and the failure leads to the
  // notice that it has been idle for too long.
  lemma TimedOutReadFails(hash: Digest, s: World, i: nat, w: nat, input: Input)
    requires Steady(hash, s, i) && OutAt(s, i, w) && s.handlers[i].watchers[w].at == Returned
    requires s.handlers[i].at == Reading
    ensures Next(hash, s, Read(i, input)).Some? <==> input == Failed
    ensures
      var h := s.handlers[i];
      Next(hash, s, Read(i, Failed)) == Some(Put(s, i, h.(buffer := "", at := SendSys(h.addr, ThenIdleOut))))
  {
    HandlerInv(hash, s, i);
    TimedOutIsCutOff(hash, s, i, w);
    ReadFails(hash, s, i);
  }

  lemma {:induction false} RunMore(hash: Digest, s: World, run: seq<Label>, l: Label)
    ensures Run(hash, s, run + [l]) == match Run(hash, s, run) case None => None case Some(t) => Next(hash, t, l)
  {
    assert (run + [l])[..|run|] == run && (run + [l])[|run|] == l;
  }

  // Reached from s by these steps.
  ghost predicate By(hash: Digest, s: World, run: seq<Label>, t: World) {
    Reachable(hash, s) && Run(hash, s, run) == Some(t) && Reachable(hash, t)
  }

  lemma Then(hash: Digest, s: World, run: seq<Label>, t: World, l: Label)
    requires By(hash, s, run, t) && Next(hash, t, l).Some?
    ensures By(hash, s, run + [l], Next(hash, t, l).value)
  {
    RunMore(hash, s, run, l);
    var before :| Run(hash, INITIAL, before) == Some(t);
    RunMore(hash, INITIAL, before, l);
  }

  // With the loop waiting, these eight steps take such a reader, notice and all, off the map and out.
  lemma IdleClientLeaves(hash: Digest, s: World, i: nat, w: nat) returns (run: seq<Label>, t: World)
    requires Steady(hash, s, i) && OutAt(s, i, w) && s.handlers[i].watchers[w].at == Returned
    requires s.handlers[i].at == Reading && s.loop == Waiting
    ensures run == [Read(i, Failed), HandSys(i), Broadcast, Go(i, "", ""), Go(i, "", ""), Go(i, "", ""), Go(i, "", ""), HandSys(i)]
    ensures Run(hash, s, run) == Some(t) && t.panic.None? && i < |t.handlers|
    ensures t.handlers[i].at == HandlerPoint.Gone && t.handlers[i].state == Disconnecting && t.handlers[i].closed
    ensures t.loop == HasSys("") && t.conns == s.conns - {s.handlers[i].addr}
  {
    var h := s.handlers[i];
    var s3 := SaysIdle(hash, s, i, w);
    run := [Read(i, Failed), HandSys(i), Broadcast];
    var s4 := TakesLeave(hash, s3, i);
    Glue(hash, s, run, s3, [Go(i, "", ""), Go(i, "", ""), Go(i, "", ""), Go(i, "", "")], s4);
    run := run + [Go(i, "", ""), Go(i, "", ""), Go(i, "", ""), Go(i, "", "")];
    Entered(hash, s4, i);
    Then(hash, s, run, s4, HandSys(i));
    t := Next(hash, s4, HandSys(i)).value;
    run := run + [HandSys(i)];
  }

  lemma {:induction false} Glue(hash: Digest, s: World, run: seq<Label>, t: World, more: seq<Label>, r: World)
    requires By(hash, s, run, t) && By(hash, t, more, r)
    ensures By(hash, s, run + more, r)
  {
    RunsOn(hash, s, run, t, more);
  }

  lemma {:induction false} RunsOn(hash: Digest, s: World, run: seq<Label>, t: World, more: seq<Label>)
    requires Run(hash, s, run) == Some(t)
    ensures Run(hash, s, run + more) == Run(hash, t, more)
  {
    if more == [] {
      assert run + more == run;
    } else {
      var front, l := more[..|more| - 1], more[|more| - 1];
      RunsOn(hash, s, run, t, front);
      assert run + more == (run + front) + [l] && more == front + [l];
      RunMore(hash, s, run + front, l);
      RunMore(hash, t, front, l);
    }
  }

  lemma SaysIdle(hash: Digest, s: World, i: nat, w: nat) returns (t: World)
    requires Steady(hash, s, i) && OutAt(s, i, w) && s.handlers[i].watchers[w].at == Returned
    requires s.handlers[i].at == Reading && s.loop == Waiting
    ensures By(hash, s, [Read(i, Failed), HandSys(i), Broadcast], t)
    ensures t == Put(s, i, s.handlers[i].(buffer := "", state := Disconnecting, substate := SubstateNull, at := Line))
  {
    var s1 := FailsToRead(hash, s, i, w);
    t := HandsNotice(hash, s1, i);
    Glue(hash, s, [Read(i, Failed)], s1, [HandSys(i), Broadcast], t);
    assert [Read(i, Failed)] + [HandSys(i), Broadcast] == [Read(i, Failed), HandSys(i), Broadcast];
    assert s1.handlers[i := t.handlers[i]] == s.handlers[i := t.handlers[i]];
  }

  lemma FailsToRead(hash: Digest, s: World, i: nat, w: nat) returns (t: World)
    requires Steady(hash, s, i) && OutAt(s, i, w) && s.handlers[i].watchers[w].at == Returned
    requires s.handlers[i].at == Reading
    ensures By(hash, s, [Read(i, Failed)], t)
    ensures t == Put(s, i, s.handlers[i].(buffer := "", at := SendSys(s.handlers[i].addr, ThenIdleOut)))
  {
    TimedOutReadFails(hash, s, i, w, Failed);
    assert Run(hash, s, []) == Some(s) && By(hash, s, [], s);
    Then(hash, s, [], s, Read(i, Failed));
    assert [] + [Read(i, Failed)] == [Read(i, Failed)];
    t := Next(hash, s, Read(i, Failed)).value;
  }

  lemma HandsNotice(hash: Digest, s: World, i: nat) returns (t: World)
    requires Steady(hash, s, i) && s.loop == Waiting && s.handlers[i].at == SendSys(s.handlers[i].addr, ThenIdleOut)
    ensures By(hash, s, [HandSys(i), Broadcast], t)
    ensures t == Put(s, i, s.handlers[i].(state := Disconnecting, substate := SubstateNull, at := Line))
  {
    Entered(hash, s, i);
    assert Run(hash, s, []) == Some(s) && By(hash, s, [], s);
    Then(hash, s, [], s, HandSys(i));
    assert [] + [HandSys(i)] == [HandSys(i)] && [HandSys(i)] + [Broadcast] == [HandSys(i), Broadcast];
    var s1 := Next(hash, s, HandSys(i)).value;
    HandlerInv(hash, s1, i);
    Then(hash, s, [HandSys(i)], s1, Broadcast);
    t := Next(hash, s1, Broadcast).value;
  }

  lemma TwoGo(hash: Digest, s: World, i: nat, t: World, r: World)
    requires Reachable(hash, s) && Next(hash, s, Go(i, "", "")) == Some(t) && Next(hash, t, Go(i, "", "")) == Some(r)
    ensures By(hash, s, [Go(i, "", ""), Go(i, "", "")], r)
  {
    var l := Go(i, "", "");
    assert Run(hash, s, []) == Some(s) && By(hash, s, [], s);
    Then(hash, s, [], s, l);
    assert [] + [l] == [l] && [l] + [l] == [l, l];
    Then(hash, s, [l], t, l);
  }

  lemma CancelsItself(hash: Digest, s: World, i: nat) returns (t: World)
    requires Steady(hash, s, i) && s.handlers[i].at == Line && s.handlers[i].state == Disconnecting
    ensures By(hash, s, [Go(i, "", ""), Go(i, "", "")], t)
    ensures t == Put(s, i, s.handlers[i].(cancelled := true, at := Close))
  {
    Leaves(hash, s, i, "", "");
    var s1 := Put(s, i, s.handlers[i].(at := Cancel));
    t := Put(s, i, s.handlers[i].(cancelled := true, at := Close));
    SessionWitness.StepReach(hash, s, Go(i, "", ""));
    Leaves(hash, s1, i, "", "");
    assert s1.handlers[i := t.handlers[i]] == t.handlers;
    TwoGo(hash, s, i, s1, t);
  }

  lemma RemovesItself(hash: Digest, s: World, i: nat) returns (t: World)
    requires Steady(hash, s, i) && s.handlers[i].at == Close
    ensures By(hash, s, [Go(i, "", ""), Go(i, "", "")], t)
    ensures t == Put(s, i, s.handlers[i].(closed := true, at := SendSys("", ThenGone))).(
      conns := s.conns - {s.handlers[i].addr})
  {
    Leaves(hash, s, i, "", "");
    var s1 := Put(s, i, s.handlers[i].(closed := true, at := Remove));
    t := Put(s, i, s.handlers[i].(closed := true, at := SendSys("", ThenGone))).(conns := s.conns - {s.handlers[i].addr});
    SessionWitness.StepReach(hash, s, Go(i, "", ""));
    Leaves(hash, s1, i, "", "");
    assert s1.handlers[i := t.handlers[i]] == t.handlers;
    TwoGo(hash, s, i, s1, t);
  }

  // From a line of a reader that is disconnecting: cancel, close, remove.
  lemma TakesLeave(hash: Digest, s: World, i: nat) returns (t: World)
    requires Steady(hash, s, i) && s.handlers[i].at == Line && s.handlers[i].state == Disconnecting
    ensures By(hash, s, [Go(i, "", ""), Go(i, "", ""), Go(i, "", ""), Go(i, "", "")], t)
    ensures t == Put(s, i, s.handlers[i].(cancelled := true, closed := true, at := SendSys("", ThenGone))).(
      conns := s.conns - {s.handlers[i].addr})
  {
    var l := Go(i, "", "");
    var s1 := CancelsItself(hash, s, i);
    t := RemovesItself(hash, s1, i);
    Glue(hash, s, [l, l], s1, [l, l], t);
    assert [l, l] + [l, l] == [l, l, l, l];
    assert s1.handlers[i := t.handlers[i]] == s.handlers[i := t.handlers[i]];
  }
}
