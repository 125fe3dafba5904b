/** Runs that exhibit what is reachable: each of the sixteen reader situations, and each of the three panics. */
module SessionWitness {
  import opened Text
  import opened Types
  import opened Validation
  import opened IdleWatcher
  import opened Reader
  import opened Session
  import opened SessionInvariant
  import opened SessionHistory
  import Commands

  const NAME := "nasayer_777"
  const PASSWORD := "Afdsf988#@Nasayer"
  const EMAIL := "x@example.com"
  const CHANNEL := "Dragonflies"

  predicate Typeable(line: string) {
    0 < |line| <= 1024 && CleanEdges(line)
  }

  predicate Plain(line: string) {
    Typeable(line) && !Commands.IsCommandLine(line)
  }

  lemma SampleNames()
    ensures ValidateName(NAME) && ValidateName(CHANNEL)
  {
  }

  lemma SamplePassword()
    ensures ValidatePassword(PASSWORD)
  {
    assert IsDigit(PASSWORD[5]);
    assert IsLower(PASSWORD[1]);
    assert IsUpper(PASSWORD[0]);
    assert ListedSymbol(PASSWORD[9]);
  }

  lemma SampleHost()
    ensures HostName("example.com")
  {
    var labels := ["example", "com"];
    assert DomainLabels(labels);
    assert labels[1..] == ["com"];
    assert Join(labels, '.') == "example.com";
  }

  lemma SampleEmail()
    ensures ValidateEmail(EMAIL)
  {
    SampleHost();
    assert Atoms(["x"]) && Join(["x"], '.') == "x";
    MailboxAccepted("x", "example.com");
    assert "x" + "@" + "example.com" == EMAIL;
  }

  datatype Form = Form(name: string, email: string, password: string)

  predicate FormOk(f: Form) {
    && ValidateName(f.name) && ValidateEmail(f.email) && ValidatePassword(f.password)
    && Plain(f.name) && Plain(f.email) && Plain(f.password)
  }

  lemma SamplesArePlain()
    ensures Plain(NAME) && Plain(EMAIL) && Plain(PASSWORD) && Plain(CHANNEL)
  {
    assert |NAME| == 11 && NAME[0] == 'n' && NAME[10] == '7';
    assert |EMAIL| == 13 && EMAIL[0] == 'x' && EMAIL[12] == 'm';
    assert |PASSWORD| == 17 && PASSWORD[0] == 'A' && PASSWORD[16] == 'r';
    assert |CHANNEL| == 11 && CHANNEL[0] == 'D' && CHANNEL[10] == 's';
  }

  lemma SampleForm() returns (f: Form)
    ensures FormOk(f)
  {
    SampleNames();
    SamplePassword();
    SampleEmail();
    SamplesArePlain();
    f := Form(NAME, EMAIL, PASSWORD);
  }

  const NAMESAKE := "Nasayer_777"

  lemma SampleNamesake()
    ensures ValidateName(NAMESAKE) && Plain(NAMESAKE) && NAMESAKE != NAME && EqualFold(NAMESAKE, NAME)
  {
    assert |NAMESAKE| == 11 && NAMESAKE[0] == 'N' && NAMESAKE[10] == '7' && NAME[0] == 'n';
    assert ToLower(NAMESAKE) == NAME;
    assert ToLower(NAME) == NAME;
  }

  lemma SampleForms() returns (f: Form, g: Form)
    ensures FormOk(f) && FormOk(g) && f.name != g.name && EqualFold(g.name, f.name)
  {
    SamplesArePlain();
    SampleNames();
    SampleEmail();
    SamplePassword();
    SampleNamesake();
    f, g := Form(NAME, EMAIL, PASSWORD), Form(NAMESAKE, EMAIL, PASSWORD);
  }

  lemma SampleChannel() returns (name: string)
    ensures ValidateName(name) && Plain(name)
  {
    SampleNames();
    SamplesArePlain();
    name := CHANNEL;
  }

  lemma StepReach(hash: Digest, s: World, l: Label)
    requires Reachable(hash, s) && Next(hash, s, l).Some?
    ensures Reachable(hash, Next(hash, s, l).value)
  {
    var run :| Run(hash, INITIAL, run) == Some(s);
    assert (run + [l])[..|run|] == run;
    assert Run(hash, INITIAL, run + [l]) == Next(hash, s, l);
  }

  // A reachable world at rest: nothing in the loop's hand, no panic.
  ghost predicate Ready(hash: Digest, s: World) {
    Reachable(hash, s) && RefsOk(s) && s.panic.None? && s.loop == Waiting
  }

  // Only handler i and the channel records may differ.
  predicate Frame(s: World, t: World, i: nat) {
    && i < |s.handlers| && i < |t.handlers|
    && t.handlers == s.handlers[i := t.handlers[i]]
    && t.conns == s.conns
    && t.store.participants == s.store.participants
    && t.store.channels == s.store.channels
    && |t.store.objects| == |s.store.objects|
    && (forall k :: 0 <= k < |s.store.objects| && k != s.handlers[i].channel ==> t.store.objects[k] == s.store.objects[k])
  }

  // The message loop takes the handler's system message and sends it out.
  lemma Deliver(hash: Digest, s: World, i: nat) returns (t: World)
    requires Ready(hash, s) && i < |s.handlers| && s.handlers[i].at.SendSys?
    requires Resume(s.handlers[i], s.handlers[i].at.after).channel == s.handlers[i].channel
    ensures Ready(hash, t) && Frame(s, t, i) && t.store == s.store
    ensures t.handlers[i] == Resume(s.handlers[i], s.handlers[i].at.after)
  {
    StepReach(hash, s, HandSys(i));
    var mid := Next(hash, s, HandSys(i)).value;
    StepReach(hash, mid, Broadcast);
    t := Next(hash, mid, Broadcast).value;
  }

  // The client's line arrives.
  lemma Arrive(hash: Digest, s: World, i: nat, line: string) returns (t: World)
    requires Ready(hash, s) && i < |s.handlers| && s.handlers[i].at == Reading && !s.handlers[i].closed
    requires Typeable(line)
    ensures Ready(hash, t) && Frame(s, t, i) && t.store == s.store
    ensures t.handlers[i] == s.handlers[i].(buffer := line, at := Line)
  {
    TrimRecovers("", line, "");
    assert "" + line + "" == line;
    StepReach(hash, s, Read(i, Data(line)));
    t := Next(hash, s, Read(i, Data(line))).value;
  }

  // The reader handles it, without panicking.
  lemma Handle(hash: Digest, s: World, i: nat, h: Handler) returns (t: World)
    requires Ready(hash, s) && i < |s.handlers| && s.handlers[i].at == Line
    requires OnLine(s.handlers[i], s.store.objects[s.handlers[i].channel]).outcome == Done(h)
    requires h.channel == s.handlers[i].channel
    ensures Ready(hash, t) && Frame(s, t, i) && t.handlers[i] == h
    ensures t.store.objects[h.channel] == OnLine(s.handlers[i], s.store.objects[h.channel]).record
  {
    StepReach(hash, s, Go(i, "", ""));
    t := Next(hash, s, Go(i, "", "")).value;
  }

  lemma Type(hash: Digest, s: World, i: nat, line: string, h: Handler) returns (t: World)
    requires Ready(hash, s) && i < |s.handlers| && s.handlers[i].at == Reading && !s.handlers[i].closed
    requires Typeable(line)
    requires
      OnLine(s.handlers[i].(buffer := line, at := Line), s.store.objects[s.handlers[i].channel]).outcome == Done(h)
    requires h.channel == s.handlers[i].channel
    ensures Ready(hash, t) && Frame(s, t, i) && t.handlers[i] == h
    ensures t.store.objects[h.channel] ==
      OnLine(s.handlers[i].(buffer := line, at := Line), s.store.objects[h.channel]).record
  {
    var mid := Arrive(hash, s, i, line);
    t := Handle(hash, mid, i, h);
  }

  // A line that is no command, answered by a prompt that leads to the next situation.
  lemma Answer(hash: Digest, s: World, i: nat, line: string, h: Handler, after: After) returns (t: World)
    requires Ready(hash, s) && i < |s.handlers| && s.handlers[i].at == Reading && !s.handlers[i].closed
    requires Typeable(line)
    requires OnLine(s.handlers[i].(buffer := line, at := Line), s.store.objects[s.handlers[i].channel]).outcome
      == Done(Say(h, after))
    requires h.channel == s.handlers[i].channel && after.ThenEnter?
    ensures Ready(hash, t) && Frame(s, t, i)
    ensures t.handlers[i] == FinishIteration(UpdateState(Say(h, after), after.state, after.substate))
    ensures t.store.objects[h.channel] ==
      OnLine(s.handlers[i].(buffer := line, at := Line), s.store.objects[h.channel]).record
  {
    var mid := Type(hash, s, i, line, Say(h, after));
    t := Deliver(hash, mid, i);
  }

  // ------------------------------------------------------------------- what lines mean

  lemma {:induction false} MenuLine(h: Handler, k: nat, record: Channel)
    requires AtMenu(h.state) && k <= 6 && h.buffer == Decimal(k + 1)
    ensures OnLine(h, record) == Turn(Done(Choose(h, k)), record)
    ensures Typeable(Decimal(k + 1))
  {
    AtoiDecimal(k + 1);
    assert OptionOf(k + 1) == k;
  }

  lemma PlainLine(h: Handler, record: Channel)
    requires !AtMenu(h.state) && !Commands.IsCommandLine(h.buffer)
    ensures OnLine(h, record) == Dispatch(h, record)
  {
  }

  lemma MenuCommand()
    ensures Commands.Parse(":menu") == Commands.ParseResult(Commands.DisplayMenu, "", 0, None, true)
    ensures Typeable(":menu")
  {
    assert Commands.Print(":menu", []) == ":menu";
    Commands.PrintedParses(0, ":menu", []);
  }

  // ":history -channel nowhere"
  function AbsentChannelLine(): string {
    Commands.Print(":history", [Commands.Channel("nowhere")])
  }

  lemma AbsentLength()
    ensures 0 < |AbsentChannelLine()| <= 1024
  {
    var settings := [Commands.Channel("nowhere")];
    var words := [":history", Commands.CHANNEL, "nowhere"];
    assert settings[..0] == [];
    assert [":history"] + Commands.Words(settings) == words;
    assert words[1..] == [Commands.CHANNEL, "nowhere"];
    assert words[1..][1..] == ["nowhere"];
    assert Join(words[1..], ' ') == Commands.CHANNEL + " " + "nowhere";
  }

  lemma AbsentCommand()
    ensures Commands.Parse(AbsentChannelLine()) ==
      Commands.ParseResult(Commands.DisplayHistory, "nowhere", 0, None, true)
    ensures Typeable(AbsentChannelLine())
  {
    AbsentLength();
    Commands.PrintedParses(1, ":history", [Commands.Channel("nowhere")]);
  }

  lemma MenuCommandLine(h: Handler, record: Channel)
    requires !AtMenu(h.state) && h.buffer == ":menu"
    ensures OnLine(h, record) == Turn(Done(Say(UpdateState(h, ProcessingMenu, SubstateNull), ThenRead)), record)
  {
    MenuCommand();
  }

  // ---------------------------------------------------------------------- signing up

  lemma Enter(hash: Digest, s: World, addr: string) returns (t: World)
    requires Ready(hash, s) && addr !in s.conns && addr != ""
    ensures Ready(hash, t) && t.conns == s.conns[addr := |s.handlers|]
    ensures t.handlers == s.handlers + [NewHandler(addr, |s.store.objects|).(at := Reading)]
    ensures t.store == s.store.(objects := s.store.objects + [NoChannel])
  {
    StepReach(hash, s, Accept(addr));
    var mid := Next(hash, s, Accept(addr)).value;
    t := Deliver(hash, mid, |s.handlers|);
  }

  // From the first prompt through name, e-mail address and password to the check of the name.
  lemma FillForm(hash: Digest, s: World, i: nat, f: Form) returns (t: World)
    requires Ready(hash, s) && i < |s.handlers| && FormOk(f)
    requires var h := s.handlers[i]; h.at == Reading && h.state == Joining && h.substate == SubstateNull && !h.closed
    ensures Ready(hash, t) && Frame(s, t, i)
    ensures var h, h0 := t.handlers[i], s.handlers[i];
      h == h0.(at := CheckName, state := Registration, substate := ReadingPassword, buffer := f.password,
               participant := Participant(f.name, f.password, f.email, h0.participant.joinTime))
  {
    t := AskName(hash, s, i);
    t := GiveName(hash, t, i, f.name);
    t := GiveEmail(hash, t, i, f.email);
    t := GivePassword(hash, t, i, f);
  }

  lemma AskName(hash: Digest, s: World, i: nat) returns (t: World)
    requires Ready(hash, s) && i < |s.handlers|
    requires var h := s.handlers[i]; h.at == Reading && h.state == Joining && !h.closed
    ensures Ready(hash, t) && Frame(s, t, i)
    ensures t.handlers[i] == s.handlers[i].(buffer := "1", state := Registration, substate := ReadingName)
  {
    var h, r := s.handlers[i], s.store.objects[s.handlers[i].channel];
    assert Decimal(1) == "1";
    MenuLine(h.(buffer := "1", at := Line), 0, r);
    t := Answer(hash, s, i, "1", h.(buffer := "1", at := Line), ThenEnter(Registration, ReadingName));
  }

  lemma GiveName(hash: Digest, s: World, i: nat, name: string) returns (t: World)
    requires Ready(hash, s) && i < |s.handlers| && Plain(name)
    requires var h := s.handlers[i];
      h.at == Reading && h.state == Registration && h.substate == ReadingName && !h.closed
    ensures Ready(hash, t) && Frame(s, t, i)
    ensures var h := s.handlers[i];
      t.handlers[i] == h.(buffer := name, substate := ReadingEmailAddress, participant := h.participant.(username := name))
  {
    var h, r := s.handlers[i], s.store.objects[s.handlers[i].channel];
    PlainLine(h.(buffer := name, at := Line), r);
    t := Answer(hash, s, i, name, h.(buffer := name, at := Line, participant := h.participant.(username := name)),
                ThenEnter(Registration, ReadingEmailAddress));
  }

  lemma GiveEmail(hash: Digest, s: World, i: nat, email: string) returns (t: World)
    requires Ready(hash, s) && i < |s.handlers| && Plain(email)
    requires var h := s.handlers[i];
      h.at == Reading && h.state == Registration && h.substate == ReadingEmailAddress && !h.closed
    ensures Ready(hash, t) && Frame(s, t, i)
    ensures var h := s.handlers[i];
      t.handlers[i] == h.(buffer := email, substate := ReadingPassword, participant := h.participant.(email := email))
  {
    var h, r := s.handlers[i], s.store.objects[s.handlers[i].channel];
    PlainLine(h.(buffer := email, at := Line), r);
    t := Answer(hash, s, i, email, h.(buffer := email, at := Line, participant := h.participant.(email := email)),
                ThenEnter(Registration, ReadingPassword));
  }

  lemma FormAccepted(h: Handler, f: Form, record: Channel)
    requires FormOk(f) && h.state == Registration && h.substate == ReadingPassword && h.buffer == f.password
    requires h.participant.username == f.name && h.participant.email == f.email
    ensures OnLine(h, record).outcome ==
      Done(h.(participant := h.participant.(password := f.password), at := CheckName))
  {
    PlainLine(h, record);
  }

  lemma GivePassword(hash: Digest, s: World, i: nat, f: Form) returns (t: World)
    requires Ready(hash, s) && i < |s.handlers| && FormOk(f)
    requires var h := s.handlers[i];
      && h.at == Reading && h.state == Registration && h.substate == ReadingPassword && !h.closed
      && h.participant.username == f.name && h.participant.email == f.email
    ensures Ready(hash, t) && Frame(s, t, i)
    ensures var h := s.handlers[i];
      t.handlers[i] == h.(at := CheckName, buffer := f.password, participant := h.participant.(password := f.password))
  {
    var h, r := s.handlers[i], s.store.objects[s.handlers[i].channel];
    FormAccepted(h.(buffer := f.password, at := Line), f, r);
    t := Type(hash, s, i, f.password,
              h.(buffer := f.password, at := CheckName, participant := h.participant.(password := f.password)));
  }

  // A handler's own step outside the loop and the network.
  lemma Proceed(hash: Digest, s: World, i: nat) returns (t: World)
    requires Ready(hash, s) && i < |s.handlers| && Next(hash, s, Go(i, "", "")).Some?
    requires Next(hash, s, Go(i, "", "")).value.panic.None? && RefsOk(Next(hash, s, Go(i, "", "")).value)
    requires Next(hash, s, Go(i, "", "")).value.loop == Waiting
    ensures Ready(hash, t) && t == Next(hash, s, Go(i, "", "")).value
  {
    StepReach(hash, s, Go(i, "", ""));
    t := Next(hash, s, Go(i, "", "")).value;
  }

  // ----------------------------------------------------------- joining, step by step

  // A handler has been added, nothing else has changed but the allocation of its channel record.
  predicate Grown(s: World, t: World, addr: string) {
    && |t.handlers| == |s.handlers| + 1
    && t.handlers[..|s.handlers|] == s.handlers
    && t.conns == s.conns[addr := |s.handlers|]
    && t.store.channels == s.store.channels
    && |t.store.objects| == |s.store.objects| + 1
    && t.store.objects[..|s.store.objects|] == s.store.objects
    && t.handlers[|s.handlers|].addr == addr
    && t.handlers[|s.handlers|].channel == |s.store.objects|
    && !t.handlers[|s.handlers|].closed
  }

  predicate Free(s: World, addr: string) {
    addr !in s.conns && addr != ""
  }

  lemma FrameGrown(s: World, mid: World, t: World, addr: string)
    requires Grown(s, mid, addr) && Frame(mid, t, |s.handlers|)
    requires t.handlers[|s.handlers|].addr == addr && t.handlers[|s.handlers|].channel == |s.store.objects|
    requires !t.handlers[|s.handlers|].closed
    ensures Grown(s, t, addr)
  {
    assert t.handlers[..|s.handlers|] == s.handlers;
    forall k | 0 <= k < |s.store.objects| ensures t.store.objects[k] == s.store.objects[k] {
      assert mid.store.objects[k] == mid.store.objects[..|s.store.objects|][k];
    }
  }

  lemma ToRegister(hash: Digest, s: World, addr: string, f: Form) returns (t: World)
    requires Ready(hash, s) && Free(s, addr) && FormOk(f) && f.name !in s.store.participants
    ensures Ready(hash, t) && Grown(s, t, addr) && t.store.participants == s.store.participants
    ensures var h := t.handlers[|s.handlers|];
      && h.at == Register && h.participant.username == f.name && h.conn == Pending
      && h.state == Registration && h.substate == ReadingPassword && h.watchers == [STARTED]
  {
    var i := |s.handlers|;
    var s1 := Enter(hash, s, addr);
    var s2 := FillForm(hash, s1, i, f);
    FrameGrown(s, s1, s2, addr);
    t := ChecksName(hash, s2, i);
    FrameGrown(s, s2, t, addr);
  }

  lemma ChecksName(hash: Digest, s: World, i: nat) returns (t: World)
    requires Ready(hash, s) && i < |s.handlers| && s.handlers[i].at == CheckName
    requires s.handlers[i].participant.username !in s.store.participants
    ensures Ready(hash, t) && t == Put(s, i, Watching(s.handlers[i], "").(at := Register))
  {
    t := Proceed(hash, s, i);
  }

  lemma Inserts(hash: Digest, s: World, i: nat) returns (t: World)
    requires HexShaped(hash) && Ready(hash, s) && i < |s.handlers| && s.handlers[i].at == Register
    requires s.handlers[i].participant.username !in s.store.participants
    ensures Ready(hash, t) && t == Inserted(hash, s, i)
  {
    RegisterEffect(hash, s, i);
    t := Proceed(hash, s, i);
  }

  lemma Marks(hash: Digest, s: World, i: nat) returns (t: World)
    requires Ready(hash, s) && i < |s.handlers| && s.handlers[i].at == ShowHistory && s.handlers[i].state == Registration
    requires s.handlers[i].addr in s.conns && s.conns[s.handlers[i].addr] == i
    ensures Ready(hash, t) && Frame(s, t, i) && t.store == s.store
    ensures t.handlers[i] ==
      s.handlers[i].(conn := Connected, state := AcceptingMessages, substate := SubstateNull, at := Reading)
  {
    var s1 := ShowsHistory(hash, s, i);
    var s2 := Deliver(hash, s1, i);
    t := MarksItself(hash, s2, i);
  }

  lemma ShowsHistory(hash: Digest, s: World, i: nat) returns (t: World)
    requires Ready(hash, s) && i < |s.handlers| && s.handlers[i].at == ShowHistory
    ensures Ready(hash, t) && t == Put(s, i, Say(s.handlers[i], ThenMarkConnected))
  {
    t := Proceed(hash, s, i);
  }

  lemma MarksItself(hash: Digest, s: World, i: nat) returns (t: World)
    requires Ready(hash, s) && i < |s.handlers| && s.handlers[i].at == MarkConnected
    requires s.handlers[i].addr in s.conns && s.conns[s.handlers[i].addr] == i
    ensures Ready(hash, t) && t == Put(s, i,
      s.handlers[i].(conn := Connected, state := AcceptingMessages, substate := SubstateNull, at := Reading))
  {
    MarkIsPut(s, i);
    t := Proceed(hash, s, i);
  }

  // From the network connection to the chat, as a new account.
  lemma Connect(hash: Digest, s: World, addr: string, f: Form) returns (t: World)
    requires HexShaped(hash) && Ready(hash, s) && Free(s, addr) && FormOk(f) && f.name !in s.store.participants
    ensures Ready(hash, t) && Grown(s, t, addr)
    ensures t.store.participants.Keys == s.store.participants.Keys + {f.name}
    ensures var h := t.handlers[|s.handlers|];
      && h.at == Reading && h.conn == Connected && h.state == AcceptingMessages && h.substate == SubstateNull
      && h.participant.username == f.name && h.watchers == [STARTED]
  {
    var i := |s.handlers|;
    var s1 := ToRegister(hash, s, addr, f);
    var s2 := Inserts(hash, s1, i);
    assert Grown(s, s2, addr);
    t := Marks(hash, s2, i);
    FrameGrown(s, s2, t, addr);
  }

  predicate Talking(h: Handler) {
    h.at == Reading && h.conn == Connected && h.state == AcceptingMessages && h.substate == SubstateNull && !h.closed
  }

  // Another client comes into the chat.
  lemma Joins(hash: Digest, s: World, addr: string, f: Form) returns (t: World)
    requires HexShaped(hash) && Ready(hash, s) && Free(s, addr) && FormOk(f)
    requires f.name !in s.store.participants
    ensures Ready(hash, t) && |t.handlers| == |s.handlers| + 1 && t.store.channels == s.store.channels
    ensures forall k :: 0 <= k < |s.handlers| ==> t.handlers[k] == s.handlers[k]
    ensures var h := t.handlers[|s.handlers|];
      Talking(h) && h.participant.username == f.name && h.watchers == [STARTED]
  {
    t := Connect(hash, s, addr, f);
    assert forall k :: 0 <= k < |s.handlers| ==> t.handlers[k] == t.handlers[..|s.handlers|][k];
  }

  // -------------------------------------------------------------------- around the menu

  lemma OpenMenu(hash: Digest, s: World, i: nat) returns (t: World)
    requires Ready(hash, s) && i < |s.handlers|
    requires s.handlers[i].at == Reading && !AtMenu(s.handlers[i].state) && !s.handlers[i].closed
    ensures Ready(hash, t) && Frame(s, t, i) && t.store.objects == s.store.objects
    ensures t.handlers[i] ==
      s.handlers[i].(buffer := ":menu", state := ProcessingMenu, substate := SubstateNull, at := Reading)
  {
    var h := s.handlers[i];
    var h1 := h.(buffer := ":menu", at := Line);
    MenuCommand();
    MenuCommandLine(h1, s.store.objects[h.channel]);
    var s1 := Type(hash, s, i, ":menu", Say(UpdateState(h1, ProcessingMenu, SubstateNull), ThenRead));
    assert s1.store.objects == s.store.objects;
    t := Deliver(hash, s1, i);
  }

  lemma Pick(hash: Digest, s: World, i: nat, k: nat, h: Handler) returns (t: World)
    requires Ready(hash, s) && i < |s.handlers| && k <= 6
    requires s.handlers[i].at == Reading && AtMenu(s.handlers[i].state) && !s.handlers[i].closed
    requires Choose(s.handlers[i].(buffer := Decimal(k + 1), at := Line), k) == h
    requires h.channel == s.handlers[i].channel
    ensures Ready(hash, t) && Frame(s, t, i) && t.store.objects == s.store.objects && t.handlers[i] == h
  {
    var h0 := s.handlers[i];
    MenuLine(h0.(buffer := Decimal(k + 1), at := Line), k, s.store.objects[h0.channel]);
    t := Type(hash, s, i, Decimal(k + 1), h);
    assert t.store.objects == s.store.objects;
  }

  lemma StartChannel(hash: Digest, s: World, i: nat) returns (t: World)
    requires Ready(hash, s) && i < |s.handlers|
    requires s.handlers[i].at == Reading && s.handlers[i].state == ProcessingMenu && !s.handlers[i].closed
    ensures Ready(hash, t) && Frame(s, t, i)
    ensures t.handlers[i] == s.handlers[i].(
      buffer := Decimal(3), state := CreatingChannel, substate := ReadingName, at := Reading)
  {
    var h := s.handlers[i].(buffer := Decimal(3), at := Line);
    var s1 := Pick(hash, s, i, 2, Say(h, ThenEnter(CreatingChannel, ReadingName)));
    t := Deliver(hash, s1, i);
  }

  lemma NameChannel(hash: Digest, s: World, i: nat, name: string) returns (t: World)
    requires Ready(hash, s) && i < |s.handlers| && Plain(name)
    requires var h := s.handlers[i];
      h.at == Reading && h.state == CreatingChannel && h.substate == ReadingName && !h.closed
    ensures Ready(hash, t) && Frame(s, t, i)
    ensures t.handlers[i] == s.handlers[i].(buffer := name, substate := ReadingChannelDesc)
    ensures t.store.objects[s.handlers[i].channel].name == name
  {
    var h := s.handlers[i].(buffer := name, at := Line);
    PlainLine(h, s.store.objects[h.channel]);
    t := Answer(hash, s, i, name, h, ThenEnter(CreatingChannel, ReadingChannelDesc));
  }

  // The description follows the name; the name is valid and not yet taken.
  lemma DescribeChannel(hash: Digest, s: World, i: nat, desc: string) returns (t: World)
    requires Ready(hash, s) && i < |s.handlers| && Plain(desc)
    requires var h := s.handlers[i];
      && h.at == Reading && h.state == CreatingChannel && h.substate == ReadingChannelDesc && !h.closed
      && ValidateName(s.store.objects[h.channel].name)
      && s.store.objects[h.channel].name !in s.store.channels
    ensures Ready(hash, t) && Frame(s, t, i)
    ensures t.handlers[i] == s.handlers[i].(buffer := desc, at := RegisterChannel)
    ensures t.store.objects[s.handlers[i].channel].name == s.store.objects[s.handlers[i].channel].name
  {
    var h := s.handlers[i].(buffer := desc, at := Line);
    PlainLine(h, s.store.objects[h.channel]);
    var s1 := Type(hash, s, i, desc, h.(at := CheckChannel));
    t := Proceed(hash, s1, i);
  }

  lemma AddChannel(hash: Digest, s: World, i: nat) returns (t: World)
    requires Ready(hash, s) && i < |s.handlers| && s.handlers[i].at == RegisterChannel
    requires s.store.objects[s.handlers[i].channel].name !in s.store.channels
    ensures Ready(hash, t) && |t.handlers| == |s.handlers| && t.handlers == s.handlers[i := t.handlers[i]]
    ensures t.handlers[i] == s.handlers[i].(state := AcceptingMessages, substate := SubstateNull, at := Reading)
    ensures var record := s.store.objects[s.handlers[i].channel];
      && t.store.channels == s.store.channels[record.name := |s.store.objects|]
      && t.store.objects == s.store.objects + [Channel(record.name, record.desc, record.creator, record.creationDate, [], [])]
  {
    t := Proceed(hash, s, i);
  }

  lemma Select(hash: Digest, s: World, i: nat) returns (t: World)
    requires Ready(hash, s) && i < |s.handlers| && |s.store.channels| > 0
    requires s.handlers[i].at == Reading && s.handlers[i].state == ProcessingMenu && !s.handlers[i].closed
    requires s.handlers[i].conn == Connected
    ensures Ready(hash, t) && Frame(s, t, i) && t.store.objects == s.store.objects
    ensures t.handlers[i] == s.handlers[i].(
      buffer := Decimal(4), state := SelectingChannel, substate := SubstateNull, at := Reading)
  {
    var h := s.handlers[i].(buffer := Decimal(4), at := Line);
    var s1 := Pick(hash, s, i, 3, h.(at := ListChannels));
    t := SeesChannels(hash, s1, i);
  }

  // The list of channels and then the question for one are sent out.
  lemma SeesChannels(hash: Digest, s: World, i: nat) returns (t: World)
    requires Ready(hash, s) && i < |s.handlers| && |s.store.channels| > 0 && s.handlers[i].at == ListChannels
    ensures Ready(hash, t) && Frame(s, t, i) && t.store.objects == s.store.objects
    ensures t.handlers[i] == s.handlers[i].(state := SelectingChannel, substate := SubstateNull, at := Reading)
  {
    var s1 := Lists(hash, s, i);
    var s2 := Deliver(hash, s1, i);
    t := Deliver(hash, s2, i);
  }

  lemma Lists(hash: Digest, s: World, i: nat) returns (t: World)
    requires Ready(hash, s) && i < |s.handlers| && |s.store.channels| > 0 && s.handlers[i].at == ListChannels
    ensures Ready(hash, t) && t == Put(s, i, Say(s.handlers[i], ThenAskChannelId))
  {
    t := Proceed(hash, s, i);
  }

  lemma Leave(hash: Digest, s: World, i: nat) returns (t: World)
    requires Ready(hash, s) && i < |s.handlers|
    requires s.handlers[i].at == Reading && s.handlers[i].state == ProcessingMenu && !s.handlers[i].closed
    ensures Ready(hash, t) && i < |t.handlers|
    ensures t.handlers[i] == s.handlers[i].(
      buffer := Decimal(7), state := Disconnecting, substate := SubstateNull, at := Cancel)
  {
    var h := s.handlers[i].(buffer := Decimal(7), at := Line);
    t := Pick(hash, s, i, 6, FinishIteration(UpdateState(h, Disconnecting, SubstateNull)));
  }

  // ------------------------------------------------------------------ the sixteen situations

  predicate InSituation(s: World, i: nat, state: ReaderState, substate: Substate, conn: ConnectionState) {
    i < |s.handlers| && s.handlers[i].state == state && s.handlers[i].substate == substate && s.handlers[i].conn == conn
  }

  ghost predicate Seen(hash: Digest, state: ReaderState, substate: Substate, conn: ConnectionState) {
    exists s, i :: Reachable(hash, s) && InSituation(s, i, state, substate, conn)
  }

  ghost predicate MenuSeen(hash: Digest, c: ConnectionState) {
    && Seen(hash, ProcessingMenu, SubstateNull, c)
    && Seen(hash, CreatingChannel, ReadingName, c)
    && Seen(hash, CreatingChannel, ReadingChannelDesc, c)
    && Seen(hash, AcceptingMessages, SubstateNull, c)
    && Seen(hash, Disconnecting, SubstateNull, c)
  }

  // What can be seen from a reader in the processing menu, whether it is connected or not.
  lemma MenuShows(hash: Digest, s: World, i: nat, name: string)
    requires Ready(hash, s) && i < |s.handlers| && ValidateName(name) && Plain(name) && name !in s.store.channels
    requires var h := s.handlers[i];
      h.at == Reading && h.state == ProcessingMenu && h.substate == SubstateNull && !h.closed
    ensures MenuSeen(hash, s.handlers[i].conn)
    ensures s.handlers[i].conn == Connected ==> Seen(hash, SelectingChannel, SubstateNull, Connected)
  {
    var c := s.handlers[i].conn;
    assert InSituation(s, i, ProcessingMenu, SubstateNull, c);
    var gone := Leave(hash, s, i);
    assert InSituation(gone, i, Disconnecting, SubstateNull, c);
    var s1 := StartChannel(hash, s, i);
    assert InSituation(s1, i, CreatingChannel, ReadingName, c);
    var s2 := NameChannel(hash, s1, i, name);
    assert InSituation(s2, i, CreatingChannel, ReadingChannelDesc, c);
    var s3 := DescribeChannel(hash, s2, i, name);
    var s4 := AddChannel(hash, s3, i);
    assert InSituation(s4, i, AcceptingMessages, SubstateNull, c);
    if c == Connected {
      var s5 := OpenMenu(hash, s4, i);
      var s6 := Select(hash, s5, i);
      assert InSituation(s6, i, SelectingChannel, SubstateNull, c);
    }
  }

  lemma InitialReady(hash: Digest)
    ensures Ready(hash, INITIAL)
  {
    assert Run(hash, INITIAL, []) == Some(INITIAL);
  }

  lemma PendingShows(hash: Digest)
    ensures Seen(hash, Joining, SubstateNull, Pending)
    ensures Seen(hash, Registration, ReadingName, Pending)
    ensures Seen(hash, Registration, ReadingEmailAddress, Pending)
    ensures Seen(hash, Registration, ReadingPassword, Pending)
    ensures Seen(hash, Authentication, ReadingName, Pending)
  {
    InitialReady(hash);
    var f := SampleForm();
    var s0 := Enter(hash, INITIAL, "a");
    assert InSituation(s0, 0, Joining, SubstateNull, Pending);
    var s1 := AskName(hash, s0, 0);
    assert InSituation(s1, 0, Registration, ReadingName, Pending);
    var s2 := GiveName(hash, s1, 0, f.name);
    assert InSituation(s2, 0, Registration, ReadingEmailAddress, Pending);
    var s3 := GiveEmail(hash, s2, 0, f.email);
    assert InSituation(s3, 0, Registration, ReadingPassword, Pending);
    LogInShows(hash, s0);
  }

  lemma LogInShows(hash: Digest, s: World)
    requires Ready(hash, s) && |s.handlers| > 0
    requires var h := s.handlers[0]; h.at == Reading && h.state == Joining && h.conn == Pending && !h.closed
    ensures Seen(hash, Authentication, ReadingName, Pending)
  {
    var h := s.handlers[0].(buffer := Decimal(2), at := Line);
    var s1 := Pick(hash, s, 0, 1, Say(h, ThenEnter(Authentication, ReadingName)));
    var s2 := Deliver(hash, s1, 0);
    assert InSituation(s2, 0, Authentication, ReadingName, Pending);
  }

  lemma PendingMenuShows(hash: Digest)
    ensures MenuSeen(hash, Pending)
  {
    InitialReady(hash);
    var name := SampleChannel();
    var s0 := Enter(hash, INITIAL, "a");
    var s1 := AskName(hash, s0, 0);
    var s2 := OpenMenu(hash, s1, 0);
    MenuShows(hash, s2, 0, name);
  }

  lemma ConnectedReader(hash: Digest) returns (s: World)
    requires HexShaped(hash)
    ensures Ready(hash, s) && |s.handlers| == 1 && s.store.channels == map[]
    ensures var h := s.handlers[0];
      && h.at == Reading && h.conn == Connected && h.state == AcceptingMessages && h.substate == SubstateNull
      && !h.closed && h.watchers == [STARTED]
  {
    InitialReady(hash);
    var f := SampleForm();
    s := Connect(hash, INITIAL, "a", f);
  }

  lemma ConnectedShows(hash: Digest)
    requires HexShaped(hash)
    ensures MenuSeen(hash, Connected) && Seen(hash, SelectingChannel, SubstateNull, Connected)
  {
    var name := SampleChannel();
    var s0 := ConnectedReader(hash);
    var s1 := OpenMenu(hash, s0, 0);
    MenuShows(hash, s1, 0, name);
  }

  lemma EachTripleSeen(hash: Digest, state: ReaderState, substate: Substate, conn: ConnectionState)
    requires HexShaped(hash) && Triple(state, substate, conn)
    ensures Seen(hash, state, substate, conn)
  {
    if conn == Connected {
      ConnectedShows(hash);
    } else {
      PendingShows(hash);
      PendingMenuShows(hash);
    }
  }

  // The sixteen triples are exactly what is reachable: every handler of every reachable world is in one of
  // them, and each of them is the situation of some handler of some reachable world.
  lemma ExactlySixteen(hash: Digest, state: ReaderState, substate: Substate, conn: ConnectionState)
    requires HexShaped(hash)
    ensures Seen(hash, state, substate, conn) <==> Triple(state, substate, conn)
  {
    if s, i :| Reachable(hash, s) && InSituation(s, i, state, substate, conn) {
      HandlerInv(hash, s, i);
    }
    if Triple(state, substate, conn) {
      EachTripleSeen(hash, state, substate, conn);
    }
  }

  // ------------------------------------------------------------------------ the three panics

  ghost predicate CanPanic(hash: Digest, panic: Panic) {
    exists s :: Reachable(hash, s) && s.panic == Some(panic)
  }

  // Two handlers that both found the username free: the slower one stops the process.
  lemma RacingRegistrationsPanic(hash: Digest)
    requires HexShaped(hash)
    ensures CanPanic(hash, ParticipantExists)
  {
    InitialReady(hash);
    var f := SampleForm();
    var s1 := ToRegister(hash, INITIAL, "a", f);
    var s2 := AlsoToRegister(hash, s1, "b", f);
    RaceLost(hash, s2, 0, 1);
  }

  lemma AlsoToRegister(hash: Digest, s: World, addr: string, f: Form) returns (t: World)
    requires Ready(hash, s) && Free(s, addr) && FormOk(f) && f.name !in s.store.participants
    ensures Ready(hash, t) && |t.handlers| == |s.handlers| + 1 && t.store.participants == s.store.participants
    ensures forall k :: 0 <= k < |s.handlers| ==> t.handlers[k] == s.handlers[k]
    ensures var h := t.handlers[|s.handlers|]; h.at == Register && h.participant.username == f.name
  {
    t := ToRegister(hash, s, addr, f);
    assert forall k :: 0 <= k < |s.handlers| ==> t.handlers[k] == t.handlers[..|s.handlers|][k];
  }

  lemma RaceLost(hash: Digest, s: World, i: nat, j: nat)
    requires HexShaped(hash) && Ready(hash, s) && i < |s.handlers| && j < |s.handlers| && i != j
    requires s.handlers[i].at == Register && s.handlers[j].at == Register
    requires s.handlers[i].participant.username == s.handlers[j].participant.username
    requires s.handlers[i].participant.username !in s.store.participants
    ensures CanPanic(hash, ParticipantExists)
  {
    var t := Inserts(hash, s, i);
    LosesRace(hash, t, j);
  }

  lemma LosesRace(hash: Digest, s: World, i: nat)
    requires HexShaped(hash) && Ready(hash, s) && i < |s.handlers| && s.handlers[i].at == Register
    requires s.handlers[i].participant.username in s.store.participants
    ensures CanPanic(hash, ParticipantExists)
  {
    RegisterEffect(hash, s, i);
    StepReach(hash, s, Go(i, "", ""));
    assert Next(hash, s, Go(i, "", "")).value.panic == Some(ParticipantExists);
  }

  lemma HistoryLine(h: Handler, channel: string, record: Channel)
    requires !AtMenu(h.state) && h.conn == Connected
    requires Commands.Parse(h.buffer) == Commands.ParseResult(Commands.DisplayHistory, channel, 0, None, true)
    ensures OnLine(h, record) == Turn(Done(h.(at := ShowNamed(channel))), record)
  {
  }

  // A connected client asks for the history of a channel that does not exist.
  lemma AbsentChannelPanics(hash: Digest)
    requires HexShaped(hash)
    ensures CanPanic(hash, UnknownChannel)
  {
    var s0 := ConnectedReader(hash);
    var h := s0.handlers[0];
    var h1 := h.(buffer := AbsentChannelLine(), at := Line);
    AbsentCommand();
    HistoryLine(h1, "nowhere", s0.store.objects[h.channel]);
    var s1 := Type(hash, s0, 0, h1.buffer, h1.(at := ShowNamed("nowhere")));
    ShowAbsent(hash, s1);
  }

  lemma ShowAbsent(hash: Digest, s: World)
    requires Ready(hash, s) && |s.handlers| > 0 && s.handlers[0].at == ShowNamed("nowhere")
    requires s.store.channels == map[]
    ensures CanPanic(hash, UnknownChannel)
  {
    StepReach(hash, s, Go(0, "", ""));
    assert Next(hash, s, Go(0, "", "")).value.panic == Some(UnknownChannel);
  }

  // From the network connection, without ever registering, to the point of inserting a channel.
  lemma ToRegisterChannel(hash: Digest, s: World, addr: string, name: string) returns (t: World)
    requires Ready(hash, s) && Free(s, addr) && ValidateName(name) && Plain(name) && name !in s.store.channels
    ensures Ready(hash, t) && Grown(s, t, addr)
    ensures t.handlers[|s.handlers|].at == RegisterChannel
    ensures t.store.objects[|s.store.objects|].name == name
  {
    var i := |s.handlers|;
    var s0 := Enter(hash, s, addr);
    var s1 := AskName(hash, s0, i);
    FrameGrown(s, s0, s1, addr);
    var s2 := OpenMenu(hash, s1, i);
    FrameGrown(s, s1, s2, addr);
    var s3 := StartChannel(hash, s2, i);
    FrameGrown(s, s2, s3, addr);
    var s4 := NameChannel(hash, s3, i, name);
    FrameGrown(s, s3, s4, addr);
    t := DescribeChannel(hash, s4, i, name);
    FrameGrown(s, s4, t, addr);
  }

  lemma RacingChannelsPanic(hash: Digest)
    ensures CanPanic(hash, ChannelExists)
  {
    InitialReady(hash);
    var name := SampleChannel();
    var s1 := ToRegisterChannel(hash, INITIAL, "a", name);
    var s2 := ToRegisterChannel(hash, s1, "b", name);
    assert s2.handlers[..1][0] == s1.handlers[0];
    assert s2.store.objects[..1][0] == s1.store.objects[0];
    var s3 := AddChannel(hash, s2, 0);
    StepReach(hash, s3, Go(1, "", ""));
    assert Next(hash, s3, Go(1, "", "")).value.panic == Some(ChannelExists);
  }

  // The process can panic, and exactly for these three reasons.
  lemma PanicsExactly(hash: Digest, panic: Panic)
    requires HexShaped(hash)
    ensures CanPanic(hash, panic) <==> panic in {ParticipantExists, ChannelExists, UnknownChannel}
  {
    if s :| Reachable(hash, s) && s.panic == Some(panic) {
      OnlyThreePanics(hash, s);
    }
    RacingRegistrationsPanic(hash);
    RacingChannelsPanic(hash);
    AbsentChannelPanics(hash);
  }
}
