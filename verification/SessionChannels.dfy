/** Channel records are shared: selecting a channel makes the connection point at the storage's own record, and
    creating a channel afterwards renames whatever record the connection points at. */
module SessionChannels {
  import opened Text
  import opened Types
  import opened Validation
  import opened Reader
  import opened Session
  import opened SessionInvariant
  import opened SessionHistory
  import opened SessionEvolution
  import opened SessionWatchers
  import opened SessionWitness
  import Commands
  import Memory

  // Every channel's record carries the name it is registered under.
  predicate NamesOk(store: Memory.Store)
    requires store.WellFormed()
  {
    forall c :: c in store.channels ==> store.objects[store.channels[c]].name == c
  }

  // The handler is about to take its line for the name of a new channel while it points at a registered
  // channel with another name.
  predicate Renames(s: World, i: nat)
    requires RefsOk(s)
  {
    && i < |s.handlers|
    && var h := s.handlers[i];
       && h.at == Line && h.state == CreatingChannel && h.substate == ReadingName
       && ProcessCommand(h).None?
       && h.channel in s.store.channels.Values && s.store.objects[h.channel].name != h.buffer
  }

  lemma OnlyNamingRenames(h: Handler, record: Channel)
    requires h.at == Line
    ensures OnLine(h, record).record.name ==
      if h.state == CreatingChannel && h.substate == ReadingName && ProcessCommand(h).None? then h.buffer
      else record.name
  {
  }

  // A step keeps the names in order exactly when it is not such a renaming.
  lemma NamesKeptExactly(hash: Digest, s: World, l: Label)
    requires HexShaped(hash) && Reachable(hash, s) && Next(hash, s, l).Some? && RefsOk(s) && NamesOk(s.store)
    ensures RefsOk(Next(hash, s, l).value)
    ensures NamesOk(Next(hash, s, l).value.store) <==> !(l.Go? && Renames(s, l.i))
  {
    ReachableInv(hash, s);
    NextKeepsInv(hash, s, l);
    if !l.Go? {
      RestNames(hash, s, l);
    } else {
      if s.handlers[l.i].at == Line {
        LineNames(s, l.i);
      } else {
        GoNames(hash, s, l.i, l.now, l.pick);
      }
    }
  }

  lemma RestNames(hash: Digest, s: World, l: Label)
    requires Next(hash, s, l).Some? && !l.Go? && RefsOk(s) && NamesOk(s.store)
    ensures Next(hash, s, l).value.store.WellFormed() && NamesOk(Next(hash, s, l).value.store)
  {
  }

  lemma LineNames(s: World, i: nat)
    requires RefsOk(s) && NamesOk(s.store) && i < |s.handlers| && s.handlers[i].at == Line && HandlerOk(s.handlers[i])
    ensures HandleLine(s, i).store.WellFormed()
    ensures NamesOk(HandleLine(s, i).store) <==> !Renames(s, i)
  {
    var h := s.handlers[i];
    LineMove(h, s.store.objects[h.channel]);
    OnlyNamingRenames(h, s.store.objects[h.channel]);
    if Renames(s, i) {
      var c :| c in s.store.channels && s.store.channels[c] == h.channel;
      assert HandleLine(s, i).store.channels == s.store.channels;
    }
  }

  lemma GoNames(hash: Digest, s: World, i: nat, now: string, pick: string)
    requires RefsOk(s) && NamesOk(s.store) && i < |s.handlers| && s.handlers[i].at != Line
    requires GoStep(hash, s, i, now, pick).Some?
    ensures GoStep(hash, s, i, now, pick).value.store.WellFormed()
    ensures NamesOk(GoStep(hash, s, i, now, pick).value.store)
  {
  }

  // -------------------------------------------------------------- a run in which it happens

  // The names are in order and handler i points at a record of its own.
  predicate Tidy(s: World, i: nat) {
    && RefsOk(s) && i < |s.handlers| && NamesOk(s.store)
    && s.handlers[i].channel !in s.store.channels.Values
  }

  lemma FrameTidy(s: World, t: World, i: nat)
    requires Tidy(s, i) && Frame(s, t, i) && RefsOk(t) && t.handlers[i].channel == s.handlers[i].channel
    ensures Tidy(t, i)
  {
  }

  predicate OthersSame(s: World, t: World, i: nat) {
    i < |s.handlers| && |t.handlers| == |s.handlers| && t.handlers == s.handlers[i := t.handlers[i]]
  }

  // The menu is opened and a new channel is named.
  lemma Names(hash: Digest, s: World, i: nat, line: string) returns (t: World)
    requires Ready(hash, s) && i < |s.handlers| && Talking(s.handlers[i]) && Plain(line)
    ensures Ready(hash, t) && Frame(s, t, i)
    ensures t.handlers[i] == s.handlers[i].(buffer := line, state := CreatingChannel, substate := ReadingChannelDesc)
    ensures t.store.objects[s.handlers[i].channel].name == line
  {
    var s1 := OpenMenu(hash, s, i);
    var s2 := StartChannel(hash, s1, i);
    t := NameChannel(hash, s2, i, line);
  }

  // It is described, too, and found valid and free.
  lemma Proposes(hash: Digest, s: World, i: nat, name: string) returns (t: World)
    requires Ready(hash, s) && i < |s.handlers| && Talking(s.handlers[i])
    requires ValidateName(name) && Plain(name) && name !in s.store.channels
    ensures Ready(hash, t) && Frame(s, t, i)
    ensures t.handlers[i] == s.handlers[i].(
      buffer := name, state := CreatingChannel, substate := ReadingChannelDesc, at := RegisterChannel)
    ensures t.store.objects[s.handlers[i].channel].name == name
  {
    var s1 := Names(hash, s, i, name);
    t := DescribeChannel(hash, s1, i, name);
  }

  lemma Founds(hash: Digest, s: World, i: nat, name: string) returns (t: World)
    requires Ready(hash, s) && Tidy(s, i) && Talking(s.handlers[i])
    requires ValidateName(name) && Plain(name) && name !in s.store.channels
    ensures Ready(hash, t) && Tidy(t, i) && Talking(t.handlers[i])
    ensures t.store.channels.Keys == s.store.channels.Keys + {name} && OthersSame(s, t, i)
  {
    var s1 := Proposes(hash, s, i, name);
    FrameTidy(s, s1, i);
    t := AddChannel(hash, s1, i);
  }

  predicate SameChannels(s: World, t: World) {
    t.store.channels == s.store.channels && t.store.objects == s.store.objects
  }

  // The second of the listed channels is chosen.
  lemma Chooses(hash: Digest, s: World, i: nat, pick: string) returns (t: World)
    requires Ready(hash, s) && RefsOk(s) && i < |s.handlers| && NamesOk(s.store)
    requires Talking(s.handlers[i]) && |s.store.channels| > 1 && pick in s.store.channels && pick != ""
    ensures Ready(hash, t) && OthersSame(s, t, i) && SameChannels(s, t) && Talking(t.handlers[i])
    ensures t.handlers[i].channel == s.store.channels[pick]
  {
    var s1 := OpenMenu(hash, s, i);
    var s2 := Select(hash, s1, i);
    var s3 := TypesOne(hash, s2, i);
    t := Shown(hash, s3, i, pick);
  }

  lemma TypesOne(hash: Digest, s: World, i: nat) returns (t: World)
    requires Ready(hash, s) && i < |s.handlers| && !s.handlers[i].closed
    requires s.handlers[i].at == Reading && s.handlers[i].state == SelectingChannel
    ensures Ready(hash, t) && OthersSame(s, t, i) && SameChannels(s, t)
    ensures t.handlers[i] == s.handlers[i].(at := HandlerPoint.PickChannel(1), buffer := "1")
  {
    var h := s.handlers[i];
    AtoiDecimal(1);
    assert Decimal(1) == "1";
    PlainLine(h.(buffer := "1", at := Line), s.store.objects[h.channel]);
    t := Type(hash, s, i, "1", h.(buffer := "1", at := HandlerPoint.PickChannel(1)));
    assert t.store.objects == s.store.objects;
  }

  lemma Picked(hash: Digest, s: World, i: nat, pick: string) returns (t: World)
    requires Ready(hash, s) && i < |s.handlers| && s.handlers[i].at == HandlerPoint.PickChannel(1)
    requires |s.store.channels| > 1 && pick in s.store.channels
    ensures Ready(hash, t) && OthersSame(s, t, i) && t.store == s.store
    ensures t.handlers[i] == s.handlers[i].(channel := s.store.channels[pick], at := ShowChannel)
  {
    StepReach(hash, s, Go(i, "", pick));
    t := Next(hash, s, Go(i, "", pick)).value;
  }

  lemma Shown(hash: Digest, s: World, i: nat, pick: string) returns (t: World)
    requires Ready(hash, s) && RefsOk(s) && i < |s.handlers| && NamesOk(s.store)
    requires s.handlers[i].at == HandlerPoint.PickChannel(1) && s.handlers[i].state == SelectingChannel
    requires s.handlers[i].conn == Connected && !s.handlers[i].closed
    requires |s.store.channels| > 1 && pick in s.store.channels && pick != ""
    ensures Ready(hash, t) && OthersSame(s, t, i) && SameChannels(s, t) && Talking(t.handlers[i])
    ensures t.handlers[i].channel == s.store.channels[pick]
  {
    var s1 := Picked(hash, s, i, pick);
    var s2 := ShowsSelected(hash, s1, i, pick);
    t := Deliver(hash, s2, i);
  }

  lemma ShowsSelected(hash: Digest, s: World, i: nat, pick: string) returns (t: World)
    requires Ready(hash, s) && RefsOk(s) && i < |s.handlers| && NamesOk(s.store) && s.handlers[i].at == ShowChannel
    requires pick in s.store.channels && pick != "" && s.handlers[i].channel == s.store.channels[pick]
    ensures Ready(hash, t) && t == Put(s, i, Say(s.handlers[i], ThenEnter(AcceptingMessages, SubstateNull)))
  {
    t := Proceed(hash, s, i);
  }

  const SECOND := "Butterflies"

  const THIRD := "Grasshoppers"

  lemma SampleChannels() returns (a: string, b: string, c: string)
    ensures ValidateName(a) && Plain(a) && ValidateName(b) && Plain(b) && ValidateName(c) && Plain(c)
    ensures a != b && a != c && b != c
  {
    SampleNames();
    SamplesArePlain();
    assert |SECOND| == 11 && SECOND[0] == 'B' && SECOND[10] == 's';
    assert |THIRD| == 12 && THIRD[0] == 'G' && THIRD[11] == 's';
    a, b, c := CHANNEL, SECOND, THIRD;
  }

  // Two channels, founded by one client; both clients are in the chat, the first one points at channel a.
  lemma TwoChannels(hash: Digest, a: string, b: string) returns (s: World)
    requires HexShaped(hash) && a != b
    requires ValidateName(a) && Plain(a) && ValidateName(b) && Plain(b)
    ensures Ready(hash, s) && RefsOk(s) && NamesOk(s.store) && s.store.channels.Keys == {a, b}
    ensures |s.handlers| == 2 && Talking(s.handlers[0]) && Talking(s.handlers[1])
    ensures s.handlers[0].channel == s.store.channels[a]
  {
    var s0 := TwoTalkers(hash);
    var s1 := Founds(hash, s0, 0, a);
    var s2 := Founds(hash, s1, 0, b);
    TwoKeys(s2.store.channels, a, b);
    s := Chooses(hash, s2, 0, a);
  }

  lemma TwoTalkers(hash: Digest) returns (s: World)
    requires HexShaped(hash)
    ensures Ready(hash, s) && Tidy(s, 0) && s.store.channels == map[]
    ensures |s.handlers| == 2 && Talking(s.handlers[0]) && Talking(s.handlers[1])
  {
    InitialReady(hash);
    var f, g := SampleForms();
    var s1 := Connect(hash, INITIAL, "a", f);
    s := Joins(hash, s1, "b", g);
  }

  // One of two channels is selected and a third name is given: it becomes the name of the record that is
  // registered under the selected one.
  lemma NamesCanGoWrong(hash: Digest) returns (s: World)
    requires HexShaped(hash)
    ensures Reachable(hash, s) && RefsOk(s) && !NamesOk(s.store)
  {
    var a, b, c := SampleChannels();
    var s1 := TwoChannels(hash, a, b);
    s := RenamesIt(hash, s1, 0, a, b);
  }

  lemma TwoKeys(channels: map<string, nat>, a: string, b: string)
    requires channels.Keys == {a, b} && a != b
    ensures |channels| == 2
  {
    assert |channels.Keys| == 2;
  }

  lemma RenamesIt(hash: Digest, s: World, i: nat, name: string, line: string) returns (t: World)
    requires Ready(hash, s) && i < |s.handlers| && Talking(s.handlers[i])
    requires name in s.store.channels && s.handlers[i].channel == s.store.channels[name] && line != name && Plain(line)
    ensures Reachable(hash, t) && RefsOk(t) && !NamesOk(t.store)
  {
    t := Names(hash, s, i, line);
    assert t.store.objects[t.store.channels[name]].name == line;
  }

  // The next client to select the renamed channel asks for the history of a name nobody registered.
  lemma RenamedChannelPanics(hash: Digest) returns (s: World)
    requires HexShaped(hash)
    ensures Reachable(hash, s) && s.panic == Some(UnknownChannel)
  {
    var a, b, c := SampleChannels();
    var s1 := TwoChannels(hash, a, b);
    var s2 := Names(hash, s1, 0, c);
    TwoKeys(s2.store.channels, a, b);
    var s3 := ComesTo(hash, s2, 1, a);
    StepReach(hash, s3, Go(1, "", ""));
    s := Next(hash, s3, Go(1, "", "")).value;
  }

  // From the chat to the point of showing the history of the channel selected.
  lemma ComesTo(hash: Digest, s: World, i: nat, pick: string) returns (t: World)
    requires Ready(hash, s) && i < |s.handlers| && Talking(s.handlers[i])
    requires |s.store.channels| > 1 && pick in s.store.channels
    ensures Ready(hash, t) && OthersSame(s, t, i) && SameChannels(s, t)
    ensures t.handlers[i].at == ShowChannel && t.handlers[i].channel == s.store.channels[pick]
  {
    var s1 := OpenMenu(hash, s, i);
    var s2 := Select(hash, s1, i);
    var s3 := TypesOne(hash, s2, i);
    t := Picked(hash, s3, i, pick);
  }

  // ---------------------------------------------------------- are registered names validated?

  // About to look up, or to register, the name on its record, which it has validated.
  predicate Proposing(h: Handler) {
    h.at == CheckChannel || h.at == RegisterChannel
  }

  // Every registered name is valid, and so is every name that is about to be registered.
  predicate Cleared(s: World)
    requires RefsOk(s)
  {
    && (forall c :: c in s.store.channels ==> ValidateName(c))
    && (forall i :: 0 <= i < |s.handlers| && Proposing(s.handlers[i]) ==>
          ValidateName(s.store.objects[s.handlers[i].channel].name))
  }

  // The handler is about to take an invalid line for the name of a new channel while another handler, which
  // has had the same record's name validated, is about to register it.
  predicate Undercuts(s: World, i: nat) {
    && i < |s.handlers|
    && var h := s.handlers[i];
       && h.at == Line && h.state == CreatingChannel && h.substate == ReadingName
       && ProcessCommand(h).None? && !ValidateName(h.buffer)
       && exists j :: 0 <= j < |s.handlers| && Proposing(s.handlers[j]) && s.handlers[j].channel == h.channel
  }

  lemma OnlyValidNamesProposed(h: Handler, record: Channel)
    requires h.at == Line && OnLine(h, record).outcome.Done? && Proposing(OnLine(h, record).outcome.value)
    ensures ValidateName(record.name) && OnLine(h, record).record.name == record.name
    ensures OnLine(h, record).outcome.value.channel == h.channel
  {
    if ProcessCommand(h).Some? {
      CommandsProposeNothing(h);
      assert false;
    } else {
      DispatchProposes(h, record);
    }
  }

  lemma DispatchProposes(h: Handler, record: Channel)
    requires Dispatch(h, record).outcome.Done? && Proposing(Dispatch(h, record).outcome.value)
    ensures h.state == CreatingChannel && ValidateName(record.name) && Dispatch(h, record).record.name == record.name
    ensures Dispatch(h, record).outcome.value.channel == h.channel
  {
    if h.state == CreatingChannel {
      CreationProposes(h, record);
    } else {
      OthersProposeNothing(h, record);
      assert false;
    }
  }

  lemma CreationProposes(h: Handler, record: Channel)
    requires h.state == CreatingChannel && OnCreateChannel(h, record).outcome.Done?
    requires Proposing(OnCreateChannel(h, record).outcome.value)
    ensures ValidateName(record.name) && OnCreateChannel(h, record).record.name == record.name
    ensures OnCreateChannel(h, record).outcome.value.channel == h.channel
  {
    FinishProposesNothing(h);
  }

  lemma OthersProposeNothing(h: Handler, record: Channel)
    requires h.state != CreatingChannel && Dispatch(h, record).outcome.Done?
    ensures !Proposing(Dispatch(h, record).outcome.value)
  {
    ChooseProposesNothing(h, OptionOf(Atoi(h.buffer).value));
    EnrolmentProposesNothing(h, record);
    FinishProposesNothing(h);
  }

  lemma ChooseProposesNothing(h: Handler, op: int)
    ensures !Proposing(Choose(h, op))
  {
  }

  lemma EnrolmentProposesNothing(h: Handler, record: Channel)
    ensures OnRegister(h, record).Done? ==> !Proposing(OnRegister(h, record).value)
    ensures OnAuthenticate(h, record).Done? ==> !Proposing(OnAuthenticate(h, record).value)
  {
  }

  lemma CommandsProposeNothing(h: Handler)
    requires ProcessCommand(h).Some?
    ensures !Proposing(ProcessCommand(h).value)
  {
    FinishProposesNothing(h);
    FinishProposesNothing(UpdateState(h, ProcessingMenu, SubstateNull));
    var result := Commands.Parse(h.buffer);
    if result.error.None? {
      match result.command
      case DisplayMenu =>
      case DisplayHistory =>
      case _ =>
    }
  }

  lemma FinishProposesNothing(h: Handler)
    ensures !Proposing(FinishIteration(h))
  {
  }

  lemma LineCleared(s: World, i: nat)
    requires RefsOk(s) && Cleared(s) && i < |s.handlers| && s.handlers[i].at == Line && HandlerOk(s.handlers[i])
    ensures RefsOk(HandleLine(s, i)) && (Cleared(HandleLine(s, i)) <==> !Undercuts(s, i))
  {
    var h, t := s.handlers[i], HandleLine(s, i);
    var record := s.store.objects[h.channel];
    LineMove(h, record);
    OnlyNamingRenames(h, record);
    if Proposing(t.handlers[i]) {
      OnlyValidNamesProposed(h, record);
    }
    if Undercuts(s, i) {
      var j :| 0 <= j < |s.handlers| && Proposing(s.handlers[j]) && s.handlers[j].channel == h.channel;
      assert t.handlers[j] == s.handlers[j];
    }
  }

  // No name is changed and nothing is newly proposed.
  predicate ProposesNothing(s: World, t: World) {
    && |s.store.objects| <= |t.store.objects|
    && (forall k :: 0 <= k < |s.store.objects| ==> t.store.objects[k].name == s.store.objects[k].name)
    && (forall k :: 0 <= k < |t.handlers| && Proposing(t.handlers[k]) ==>
          k < |s.handlers| && Proposing(s.handlers[k]) && t.handlers[k].channel == s.handlers[k].channel)
  }

  lemma ClearedCarries(s: World, t: World)
    requires RefsOk(s) && RefsOk(t) && Cleared(s) && ProposesNothing(s, t)
    requires forall c :: c in t.store.channels ==> ValidateName(c)
    ensures Cleared(t)
  {
  }

  lemma GoNamesOnly(hash: Digest, s: World, i: nat, now: string, pick: string)
    requires RefsOk(s) && i < |s.handlers| && s.handlers[i].at != Line
    requires GoStep(hash, s, i, now, pick).Some?
    ensures var t := GoStep(hash, s, i, now, pick).value;
      && |s.store.objects| <= |t.store.objects|
      && (forall k :: 0 <= k < |s.store.objects| ==> t.store.objects[k].name == s.store.objects[k].name)
      && (forall c :: c in t.store.channels ==>
            (c in s.store.channels ||
             (s.handlers[i].at == RegisterChannel && c == s.store.objects[s.handlers[i].channel].name)))
  {
  }

  lemma ChannelPointProposesNothing(hash: Digest, s: World, i: nat, now: string, pick: string)
    requires RefsOk(s) && i < |s.handlers| && GoStep(hash, s, i, now, pick).Some?
    requires ChannelPoint(s.handlers[i].at)
    ensures var t := GoStep(hash, s, i, now, pick).value;
      i < |t.handlers| && (Proposing(t.handlers[i]) ==>
        Proposing(s.handlers[i]) && t.handlers[i].channel == s.handlers[i].channel)
  {
    if s.handlers[i].at == RegisterChannel {
      FinishProposesNothing(UpdateState(s.handlers[i], AcceptingMessages, SubstateNull));
    }
  }

  lemma OtherPointProposesNothing(hash: Digest, s: World, i: nat, now: string, pick: string)
    requires RefsOk(s) && i < |s.handlers| && GoStep(hash, s, i, now, pick).Some?
    requires !ChannelPoint(s.handlers[i].at) && s.handlers[i].at != Line && s.handlers[i].at != MarkConnected
    ensures var t := GoStep(hash, s, i, now, pick).value;
      i < |t.handlers| && (Proposing(t.handlers[i]) ==>
        Proposing(s.handlers[i]) && t.handlers[i].channel == s.handlers[i].channel)
  {
  }

  lemma MarkProposesNothing(s: World, i: nat)
    requires MapOk(s) && i < |s.handlers| && HandlerOk(s.handlers[i]) && s.handlers[i].at == MarkConnected
    ensures var t := MarkConnectedStep(s, i); i < |t.handlers| && !Proposing(t.handlers[i])
  {
    LiveIsMapped(s, i);
    MarkIsPut(s, i);
  }

  lemma GoCleared(hash: Digest, s: World, i: nat, now: string, pick: string)
    requires HexShaped(hash) && Inv(hash, s) && Cleared(s) && i < |s.handlers| && s.handlers[i].at != Line
    requires GoStep(hash, s, i, now, pick).Some? && RefsOk(GoStep(hash, s, i, now, pick).value)
    ensures Cleared(GoStep(hash, s, i, now, pick).value)
  {
    var t := GoStep(hash, s, i, now, pick).value;
    GoNamesOnly(hash, s, i, now, pick);
    if s.handlers[i].at == MarkConnected {
      MarkProposesNothing(s, i);
    } else if ChannelPoint(s.handlers[i].at) {
      ChannelPointProposesNothing(hash, s, i, now, pick);
    } else {
      OtherPointProposesNothing(hash, s, i, now, pick);
    }
    GoKeepsCount(hash, s, i, now, pick);
    forall k | 0 <= k < |t.handlers| && k != i ensures t.handlers[k] == s.handlers[k] {
      GoTouchesOne(hash, s, i, now, pick, k);
    }
    ClearedCarries(s, t);
  }

  lemma RestCleared(hash: Digest, s: World, l: Label)
    requires Next(hash, s, l).Some? && !l.Go? && RefsOk(s) && Cleared(s) && RefsOk(Next(hash, s, l).value)
    ensures Cleared(Next(hash, s, l).value)
  {
    RestProposesNothing(hash, s, l);
    ClearedCarries(s, Next(hash, s, l).value);
  }

  lemma RestProposesNothing(hash: Digest, s: World, l: Label)
    requires Next(hash, s, l).Some? && !l.Go?
    ensures ProposesNothing(s, Next(hash, s, l).value) && Next(hash, s, l).value.store.channels == s.store.channels
  {
    if Actor(l).Some? {
      ActorProposesNothing(hash, s, l);
    }
  }

  lemma ActorProposesNothing(hash: Digest, s: World, l: Label)
    requires Next(hash, s, l).Some? && !l.Go? && Actor(l).Some?
    ensures ProposesNothing(s, Next(hash, s, l).value) && Next(hash, s, l).value.store == s.store
  {
    if l.HandSys? {
      ResumeProposesNothing(s.handlers[l.i], s.handlers[l.i].at.after);
    } else if l.HandChat? {
      FinishProposesNothing(s.handlers[l.i]);
    }
  }

  lemma ResumeProposesNothing(h: Handler, after: After)
    ensures !Proposing(Resume(h, after))
  {
  }

  // A step keeps all registered and proposed names valid exactly when it does not undercut a proposal.
  lemma ClearedKeptExactly(hash: Digest, s: World, l: Label)
    requires HexShaped(hash) && Reachable(hash, s) && Next(hash, s, l).Some? && RefsOk(s) && Cleared(s)
    ensures RefsOk(Next(hash, s, l).value)
    ensures Cleared(Next(hash, s, l).value) <==> !(l.Go? && Undercuts(s, l.i))
  {
    ReachableInv(hash, s);
    NextKeepsInv(hash, s, l);
    if l.Go? {
      if s.handlers[l.i].at == Line {
        LineCleared(s, l.i);
      } else {
        GoCleared(hash, s, l.i, l.now, l.pick);
      }
    } else {
      RestCleared(hash, s, l);
    }
  }

  const GENERAL := "general"

  lemma GeneralIsNoName()
    ensures !ValidateName(GENERAL) && Plain(GENERAL)
  {
    assert |GENERAL| == 7 && GENERAL[0] == 'g' && GENERAL[6] == 'l';
  }

  // Two clients select the same channel. One has a new name validated; the other gives the shared record
  // another name, which no validation would pass; the first registers that.
  lemma InvalidNameGetsRegistered(hash: Digest) returns (s: World)
    requires HexShaped(hash)
    ensures Reachable(hash, s) && GENERAL in s.store.channels && !ValidateName(GENERAL)
  {
    GeneralIsNoName();
    var a, b, c := SampleChannels();
    var s1 := TwoChannels(hash, a, b);
    TwoKeys(s1.store.channels, a, b);
    var s2 := Chooses(hash, s1, 1, a);
    var s3 := Proposes(hash, s2, 0, c);
    var s4 := Names(hash, s3, 1, GENERAL);
    s := AddChannel(hash, s4, 0);
  }
}
