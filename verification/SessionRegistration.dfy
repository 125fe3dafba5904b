/** Registration from the outside: what every account is, who gets as far as inserting one, and why an insertion
    can fail. */
module SessionRegistration {
  import opened Text
  import opened Types
  import opened Validation
  import opened IdleWatcher
  import opened Reader
  import opened Session
  import opened SessionInvariant
  import opened SessionHistory
  import opened SessionEvolution
  import opened SessionWatchers
  import opened SessionDialogue
  import SessionPanics

  // Every account is the record of a connection that has registered, with the password hashed; that password is
  // a strong one, the name and the e-mail address are valid.
  lemma EveryAccountIsProper(hash: Digest, s: World, u: string) returns (i: nat)
    requires HexShaped(hash) && Reachable(hash, s) && u in s.store.participants
    ensures i < |s.handlers| && Registered(s.handlers[i])
    ensures
      var p, account := s.handlers[i].participant, s.store.participants[u];
      && account.username == p.username == u && account.email == p.email && account.joinTime == p.joinTime
      && account.password == hash(p.password) && StrongPassword(p.password)
      && ValidateName(u) && ValidateEmail(p.email)
  {
    ReachableInv(hash, s);
    assert AccountOk(hash, s, u);
    i := s.owner[u];
    HandlerInv(hash, s, i);
    PasswordPolicy(s.handlers[i].participant.password);
  }

  // ------------------------------------------------------- only the check leads to the insertion

  predicate AtRegister(s: World, i: nat) {
    i < |s.handlers| && s.handlers[i].at == Register
  }

  // A step that brings a handler to the insertion is that handler's check of a name that is not taken; it starts
  // the one watcher and stamps the record.
  lemma ComesToRegister(hash: Digest, s: World, l: Label, i: nat)
    requires HexShaped(hash) && Reachable(hash, s) && Next(hash, s, l).Some?
    requires AtRegister(Next(hash, s, l).value, i) && !AtRegister(s, i)
    ensures l.Go? && l.i == i && i < |s.handlers| && s.handlers[i].at == CheckName
    ensures
      var h, h' := s.handlers[i], Next(hash, s, l).value.handlers[i];
      && h.participant.username !in s.store.participants && h.watchers == []
      && h' == h.(at := Register, participant := h.participant.(joinTime := l.now), watchers := [Watcher(Selecting, true, 0)])
  {
    ReachableInv(hash, s);
    if i < |s.handlers| {
      if Actor(l) != Some(i) {
        OthersUntouched(hash, s, l, i);
        assert false;
      }
      OnlyCheckLeads(hash, s, l, i);
      NameChecked(hash, s, i, l.now, l.pick);
    } else {
      NewcomerIsElsewhere(hash, s, l, i);
      assert false;
    }
  }

  lemma NewcomerIsElsewhere(hash: Digest, s: World, l: Label, i: nat)
    requires RefsOk(s) && Next(hash, s, l).Some? && |s.handlers| <= i < |Next(hash, s, l).value.handlers|
    ensures Next(hash, s, l).value.handlers[i].at != Register
  {
    if l.Go? {
      GoKeepsCount(hash, s, l.i, l.now, l.pick);
      assert false;
    }
  }

  // What keeps its watchers cannot come to the insertion, which has one.
  lemma MovedIsElsewhere(h: Handler, h': Handler)
    requires HandlerOk(h) && h.at != Register && Moved(h, h')
    ensures h'.at != Register
  {
  }

  lemma OnlyCheckLeads(hash: Digest, s: World, l: Label, i: nat)
    requires Inv(hash, s) && Next(hash, s, l).Some? && Actor(l) == Some(i) && i < |s.handlers|
    requires i < |Next(hash, s, l).value.handlers|
    requires s.handlers[i].at != Register && Next(hash, s, l).value.handlers[i].at == Register
    ensures l.Go? && s.handlers[i].at == CheckName
  {
    assert HandlerOk(s.handlers[i]);
    if l.Read? || l.HandSys? {
      ClientStepsElsewhere(hash, s, l, i);
    } else if l.Go? {
      if s.handlers[i].at != CheckName {
        GoElsewhere(hash, s, i, l.now, l.pick);
      }
    } else {
      OtherStepsElsewhere(hash, s, l, i);
    }
  }

  lemma ClientStepsElsewhere(hash: Digest, s: World, l: Label, i: nat)
    requires Next(hash, s, l).Some? && (l.Read? || l.HandSys?) && l.i == i && i < |s.handlers| && HandlerOk(s.handlers[i])
    requires s.handlers[i].at != Register
    ensures i < |Next(hash, s, l).value.handlers| && Next(hash, s, l).value.handlers[i].at != Register
  {
    var h := s.handlers[i];
    if l.Read? {
      ReadMove(h, l.input);
      MovedIsElsewhere(h, OnRead(h, l.input));
    } else {
      ResumeMove(h);
      MovedIsElsewhere(h, Resume(h, h.at.after));
    }
  }

  lemma OtherStepsElsewhere(hash: Digest, s: World, l: Label, i: nat)
    requires Next(hash, s, l).Some? && Actor(l) == Some(i) && i < |s.handlers| && HandlerOk(s.handlers[i])
    requires !l.Read? && !l.HandSys? && !l.Go? && s.handlers[i].at != Register
    ensures i < |Next(hash, s, l).value.handlers| && Next(hash, s, l).value.handlers[i].at != Register
  {
    if l.HandChat? {
      SentMove(s.handlers[i]);
    }
  }

  lemma GoElsewhere(hash: Digest, s: World, i: nat, now: string, pick: string)
    requires Inv(hash, s) && i < |s.handlers| && s.handlers[i].at != Register && s.handlers[i].at != CheckName
    requires GoStep(hash, s, i, now, pick).Some?
    ensures var t := GoStep(hash, s, i, now, pick).value; i < |t.handlers| && t.handlers[i].at != Register
  {
    if s.handlers[i].at == Line {
      LineElsewhere(s, i);
    } else if ChannelPoint(s.handlers[i].at) {
      ChannelElsewhere(hash, s, i, now, pick);
    } else if s.handlers[i].at == MarkConnected {
      MarkElsewhere(s, i);
    } else {
      RestElsewhere(hash, s, i, now, pick);
    }
  }

  lemma LineElsewhere(s: World, i: nat)
    requires RefsOk(s) && i < |s.handlers| && HandlerOk(s.handlers[i]) && s.handlers[i].at == Line
    ensures var t := HandleLine(s, i); i < |t.handlers| && t.handlers[i].at != Register
  {
    var h, record := s.handlers[i], s.store.objects[s.handlers[i].channel];
    LineMove(h, record);
    MovedIsElsewhere(h, OnLine(h, record).outcome.value);
  }

  lemma ChannelElsewhere(hash: Digest, s: World, i: nat, now: string, pick: string)
    requires RefsOk(s) && i < |s.handlers| && GoStep(hash, s, i, now, pick).Some? && ChannelPoint(s.handlers[i].at)
    ensures var t := GoStep(hash, s, i, now, pick).value; i < |t.handlers| && t.handlers[i].at != Register
  {
    GoChannelSteps(hash, s, i, now, pick);
  }

  lemma MarkElsewhere(s: World, i: nat)
    requires MapOk(s) && i < |s.handlers| && HandlerOk(s.handlers[i]) && s.handlers[i].at == MarkConnected
    ensures var t := MarkConnectedStep(s, i); i < |t.handlers| && t.handlers[i].at != Register
  {
    LiveIsMapped(s, i);
    MarkIsPut(s, i);
  }

  lemma RestElsewhere(hash: Digest, s: World, i: nat, now: string, pick: string)
    requires RefsOk(s) && i < |s.handlers| && GoStep(hash, s, i, now, pick).Some?
    requires !ChannelPoint(s.handlers[i].at) && s.handlers[i].at !in {Register, CheckName, Line, MarkConnected}
    ensures var t := GoStep(hash, s, i, now, pick).value; i < |t.handlers| && t.handlers[i].at != Register
  {
  }

  // ----------------------------------------------------------- why an insertion can fail

  // The world after the first k steps of a run.
  function WorldAt(hash: Digest, run: seq<Label>, k: nat): Option<World>
    requires k <= |run|
  {
    Run(hash, INITIAL, run[..k])
  }

  lemma {:induction false} PrefixRuns(hash: Digest, run: seq<Label>, k: nat)
    requires k <= |run| && Run(hash, INITIAL, run).Some?
    ensures WorldAt(hash, run, k).Some?
    ensures k < |run| ==> WorldAt(hash, run, k + 1) == Next(hash, WorldAt(hash, run, k).value, run[k])
    ensures Reachable(hash, WorldAt(hash, run, k).value)
    decreases |run|
  {
    if k == |run| {
      assert run[..k] == run;
    } else {
      var front := run[..|run| - 1];
      PrefixRuns(hash, front, k);
      assert front[..k] == run[..k];
      assert run[..k + 1][..k] == run[..k] && run[..k + 1][k] == run[k];
      if k + 1 <= |front| {
        assert front[..k + 1] == run[..k + 1];
      }
    }
  }

  // The only step that adds a name to the accounts is the insertion of that name by a handler.
  lemma OnlyInsertionAdds(hash: Digest, s: World, l: Label, u: string)
    requires HexShaped(hash) && Next(hash, s, l).Some?
    requires u !in s.store.participants && u in Next(hash, s, l).value.store.participants
    ensures l.Go? && AtRegister(s, l.i) && s.handlers[l.i].participant.username == u
  {
    if l.Go? && s.handlers[l.i].at == Register {
      SessionInvariant.RegisterEffect(hash, s, l.i);
    } else if l.Go? {
      OtherGoAddsNothing(hash, s, l.i, l.now, l.pick);
    } else {
      OtherStepsAddNothing(hash, s, l);
    }
  }

  lemma OtherGoAddsNothing(hash: Digest, s: World, i: nat, now: string, pick: string)
    requires RefsOk(s) && i < |s.handlers| && s.handlers[i].at != Register && GoStep(hash, s, i, now, pick).Some?
    ensures GoStep(hash, s, i, now, pick).value.store.participants == s.store.participants
  {
    if s.handlers[i].at == RegisterChannel {
      GoChannelSteps(hash, s, i, now, pick);
    } else if s.handlers[i].at != Reader.StoreMessage {
      OtherStepsKeepLogs(hash, s, i, now, pick);
    }
  }

  lemma OtherStepsAddNothing(hash: Digest, s: World, l: Label)
    requires Next(hash, s, l).Some? && !l.Go?
    ensures Next(hash, s, l).value.store.participants == s.store.participants
  {
  }

  // Where a run stands before its last step, and what that step does.
  lemma {:induction false} LastStepOf(hash: Digest, run: seq<Label>)
    requires run != [] && Run(hash, INITIAL, run).Some?
    ensures var n := |run| - 1;
      && WorldAt(hash, run, n) == Run(hash, INITIAL, run[..n]) && WorldAt(hash, run, n).Some?
      && Reachable(hash, WorldAt(hash, run, n).value)
      && Next(hash, WorldAt(hash, run, n).value, run[n]) == Run(hash, INITIAL, run)
      && WorldAt(hash, run, n + 1) == Run(hash, INITIAL, run)
  {
    PrefixRuns(hash, run, |run| - 1);
    assert run[..|run|] == run;
  }

  lemma SameBefore(hash: Digest, run: seq<Label>, k: nat)
    requires k < |run|
    ensures WorldAt(hash, run[..|run| - 1], k) == WorldAt(hash, run, k)
  {
    assert run[..|run| - 1][..k] == run[..k];
  }

  // At step m of the run handler run[m].i inserts this name.
  ghost predicate InsertedAt(hash: Digest, run: seq<Label>, m: nat, u: string) {
    && m < |run| && run[m].Go? && WorldAt(hash, run, m).Some? && WorldAt(hash, run, m + 1).Some?
    && var s := WorldAt(hash, run, m).value;
       && u !in s.store.participants && AtRegister(s, run[m].i) && s.handlers[run[m].i].participant.username == u
       && u in WorldAt(hash, run, m + 1).value.store.participants
  }

  lemma InsertedEarlier(hash: Digest, run: seq<Label>, m: nat, u: string)
    requires run != [] && InsertedAt(hash, run[..|run| - 1], m, u)
    ensures InsertedAt(hash, run, m, u) && m < |run| - 1
  {
    SameBefore(hash, run, m);
    SameBefore(hash, run, m + 1);
  }

  lemma {:induction false} InsertedBetween(hash: Digest, run: seq<Label>, k: nat, u: string) returns (m: nat)
    requires HexShaped(hash) && Run(hash, INITIAL, run).Some? && k <= |run|
    requires WorldAt(hash, run, k).Some? && u !in WorldAt(hash, run, k).value.store.participants
    requires u in Run(hash, INITIAL, run).value.store.participants
    ensures k <= m && InsertedAt(hash, run, m, u)
  {
    assert run[..|run|] == run;
    var n := |run| - 1;
    LastStepOf(hash, run);
    var s := WorldAt(hash, run, n).value;
    if u in s.store.participants {
      SameBefore(hash, run, k);
      m := InsertedBetween(hash, run[..n], k, u);
      InsertedEarlier(hash, run, m, u);
    } else {
      m := n;
      OnlyInsertionAdds(hash, s, run[n], u);
    }
  }

  // A handler at the insertion stays there, form and all, until its own step.
  lemma StaysAtRegister(hash: Digest, s: World, l: Label, i: nat)
    requires HexShaped(hash) && Reachable(hash, s) && Next(hash, s, l).Some? && AtRegister(s, i)
    requires Next(hash, s, l).value.panic.None? && AtRegister(Next(hash, s, l).value, i)
    ensures !(l.Go? && l.i == i) && Next(hash, s, l).value.handlers[i].participant == s.handlers[i].participant
  {
    if Actor(l) != Some(i) {
      ReachableInv(hash, s);
      OthersUntouched(hash, s, l, i);
    } else if l.Go? {
      InsertionLeaves(hash, s, i, l.now, l.pick);
    } else {
      OnlyWatched(hash, s, l, i);
    }
  }

  lemma InsertionLeaves(hash: Digest, s: World, i: nat, now: string, pick: string)
    requires HexShaped(hash) && RefsOk(s) && AtRegister(s, i)
    ensures var t := GoStep(hash, s, i, now, pick); t.Some? && (t.value.panic.Some? || !AtRegister(t.value, i))
  {
    SessionInvariant.RegisterEffect(hash, s, i);
  }

  lemma OnlyWatched(hash: Digest, s: World, l: Label, i: nat)
    requires Next(hash, s, l).Some? && AtRegister(s, i) && Actor(l) == Some(i) && !l.Go?
    ensures i < |Next(hash, s, l).value.handlers|
    ensures Next(hash, s, l).value.handlers[i].participant == s.handlers[i].participant
  {
  }

  // At step k of the run handler i checks this name and finds it free.
  ghost predicate CheckedAt(hash: Digest, run: seq<Label>, k: nat, i: nat, u: string) {
    && k < |run| && run[k].Go? && run[k].i == i && WorldAt(hash, run, k).Some? && WorldAt(hash, run, k + 1).Some?
    && var s := WorldAt(hash, run, k).value;
       && i < |s.handlers| && s.handlers[i].at == CheckName && s.handlers[i].participant.username == u
       && u !in s.store.participants && u !in WorldAt(hash, run, k + 1).value.store.participants
  }

  predicate IdleSince(run: seq<Label>, k: nat, i: nat) {
    forall m :: k < m < |run| ==> !(run[m].Go? && run[m].i == i)
  }

  lemma CheckedEarlier(hash: Digest, run: seq<Label>, k: nat, i: nat, u: string)
    requires run != [] && CheckedAt(hash, run[..|run| - 1], k, i, u) && IdleSince(run[..|run| - 1], k, i)
    requires !(run[|run| - 1].Go? && run[|run| - 1].i == i)
    ensures CheckedAt(hash, run, k, i, u) && IdleSince(run, k, i)
  {
    SameBefore(hash, run, k);
    SameBefore(hash, run, k + 1);
    assert forall m :: k < m < |run| - 1 ==> run[m] == run[..|run| - 1][m];
  }

  // Whoever is at the insertion has checked the name, which was free then, and has done nothing since.
  lemma {:induction false} CheckedBefore(hash: Digest, run: seq<Label>, i: nat, s: World) returns (k: nat)
    requires HexShaped(hash) && Run(hash, INITIAL, run) == Some(s) && s.panic.None? && AtRegister(s, i)
    ensures CheckedAt(hash, run, k, i, s.handlers[i].participant.username) && IdleSince(run, k, i)
  {
    assert run != [];
    LastStepOf(hash, run);
    var n := |run| - 1;
    var before := WorldAt(hash, run, n).value;
    if AtRegister(before, i) {
      k := CheckedBefore(hash, run[..n], i, before);
      StaysAtRegister(hash, before, run[n], i);
      CheckedEarlier(hash, run, k, i, s.handlers[i].participant.username);
    } else {
      k := n;
      ChecksNow(hash, before, run[n], i);
    }
  }

  lemma ChecksNow(hash: Digest, s: World, l: Label, i: nat)
    requires HexShaped(hash) && Reachable(hash, s) && Next(hash, s, l).Some?
    requires AtRegister(Next(hash, s, l).value, i) && !AtRegister(s, i)
    ensures l.Go? && l.i == i && i < |s.handlers| && s.handlers[i].at == CheckName
    ensures var u := Next(hash, s, l).value.handlers[i].participant.username;
      && s.handlers[i].participant.username == u
      && u !in s.store.participants && u !in Next(hash, s, l).value.store.participants
  {
    ComesToRegister(hash, s, l, i);
    NameChecked(hash, s, i, l.now, l.pick);
  }

  // A duplicate account stops the process only after a lost race: handler i found the name free at step k, and
  // another handler inserted it at step m, before i's own insertion at the end.
  lemma DuplicateMeansLostRace(hash: Digest, run: seq<Label>) returns (i: nat, u: string, k: nat, m: nat)
    requires HexShaped(hash) && Run(hash, INITIAL, run).Some?
    requires Run(hash, INITIAL, run).value.panic == Some(ParticipantExists)
    ensures run != [] && run[|run| - 1].Go? && run[|run| - 1].i == i
    ensures WorldAt(hash, run, |run| - 1).Some? && AtRegister(WorldAt(hash, run, |run| - 1).value, i)
    ensures WorldAt(hash, run, |run| - 1).value.handlers[i].participant.username == u
    ensures k < m < |run| - 1 && CheckedAt(hash, run, k, i, u) && InsertedAt(hash, run, m, u) && run[m].i != i
  {
    assert run != [];
    LastStepOf(hash, run);
    var n := |run| - 1;
    var s := WorldAt(hash, run, n).value;
    SessionPanics.StepPanicsOverHazard(hash, s, run[n]);
    i := run[n].i;
    u := s.handlers[i].participant.username;
    k := CheckedBefore(hash, run[..n], i, s);
    m := InsertedBetween(hash, run[..n], k + 1, u);
    assert run[..n][m] == run[m];
    InsertedEarlier(hash, run, m, u);
    CheckedAgain(hash, run, k, i, u);
  }

  lemma CheckedAgain(hash: Digest, run: seq<Label>, k: nat, i: nat, u: string)
    requires run != [] && CheckedAt(hash, run[..|run| - 1], k, i, u)
    ensures CheckedAt(hash, run, k, i, u)
  {
    SameBefore(hash, run, k);
    SameBefore(hash, run, k + 1);
  }
}
