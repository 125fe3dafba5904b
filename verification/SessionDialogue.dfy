/** What the server does with each thing a client sends, as single steps of the whole session: what a read
    delivers, where each line leads in each situation, what is stored and what is announced. */
module SessionDialogue {
  import opened Text
  import opened Types
  import opened Validation
  import opened IdleWatcher
  import opened Reader
  import opened Session
  import opened SessionInvariant
  import opened SessionHistory
  import opened SessionWatchers
  import Commands

  ghost predicate Steady(hash: Digest, s: World, i: nat) {
    HexShaped(hash) && Reachable(hash, s) && s.panic.None? && i < |s.handlers|
  }

  // The answer to a handler's own client, after which it stays in its situation.
  function Answer(h: Handler): HandlerPoint {
    SendSys(h.addr, ThenNothing)
  }

  // A new client starts out joining and pending, with an empty form and a channel record of its own, under its
  // address in the map, and is prompted.
  lemma Accepted(hash: Digest, s: World, addr: string)
    requires RefsOk(s) && s.panic.None? && addr !in s.conns && addr != ""
    ensures
      var form := Participant("", "", "", "");
      var h := Handler(addr, SendSys(addr, ThenRead), Joining, SubstateNull, "", form, |s.store.objects|, Pending,
                       false, false, [], []);
      Next(hash, s, Accept(addr)) == Some(s.(
        handlers := s.handlers + [h], conns := s.conns[addr := |s.handlers|],
        store := s.store.(objects := s.store.objects + [Channel("", "", "", "", [], [])])))
  {
  }

  // ---------------------------------------------------------------------------- reading

  predicate SixBlanks(s: string) {
    forall i :: 0 <= i < |s| ==> s[i] == ' ' || s[i] as int in {0x0D, 0x0A, 0x09, 0x0B, 0x0C}
  }

  predicate NoBlankEnds(s: string) {
    s != "" ==> !SixBlanks([s[0]]) && !SixBlanks([s[|s| - 1]])
  }

  lemma SixBlanksExactly(s: string)
    ensures SixBlanks(s) <==> AllBlank(s)
  {
  }

  // What a read puts into the buffer is what arrived without the blanks at its two ends, and nothing else of the
  // world changes.
  lemma ReadTakesLine(hash: Digest, s: World, i: nat, bytes: string) returns (left: string, right: string)
    requires i < |s.handlers| && Next(hash, s, Read(i, Data(bytes))).Some?
    ensures
      var t := Next(hash, s, Read(i, Data(bytes))).value;
      && |t.handlers| == |s.handlers|
      && var buffer := t.handlers[i].buffer;
         && bytes == left + buffer + right && SixBlanks(left) && SixBlanks(right) && NoBlankEnds(buffer)
         && t == Put(s, i, s.handlers[i].(buffer := buffer, at := Line))
  {
    left, right := TrimSplits(bytes);
    var line := TrimWhitespaces(bytes);
    SixBlanksExactly(left);
    SixBlanksExactly(right);
    if line != "" {
      SixBlanksExactly([line[0]]);
      SixBlanksExactly([line[|line| - 1]]);
      assert [line[0]][0] == line[0] && [line[|line| - 1]][0] == line[|line| - 1];
    }
  }

  // The end of the stream leads to disconnecting.
  lemma StreamEnds(hash: Digest, s: World, i: nat)
    requires RefsOk(s) && s.panic.None? && i < |s.handlers| && s.handlers[i].at == Reading && !s.handlers[i].closed
    ensures Next(hash, s, Read(i, EndOfStream)) ==
      Some(Put(s, i, s.handlers[i].(buffer := "", at := Line, state := Disconnecting, substate := SubstateNull)))
  {
  }

  // So does a failed read: at once if the reader is the first to notice, and with a notice to the client if its
  // watcher has cancelled it.
  lemma ReadFails(hash: Digest, s: World, i: nat)
    requires RefsOk(s) && s.panic.None? && i < |s.handlers| && s.handlers[i].at == Reading
    ensures
      var h := s.handlers[i].(buffer := "");
      Next(hash, s, Read(i, Failed)) == Some(Put(s, i,
        if h.cancelled then h.(at := SendSys(h.addr, ThenIdleOut))
        else h.(at := Line, state := Disconnecting, substate := SubstateNull, cancelled := true)))
  {
  }

  // ------------------------------------------------------------------- handling the line

  lemma SameRecord(s: World, i: nat, h: Handler, c: nat)
    requires i < |s.handlers| && c < |s.store.objects|
    ensures Put(s, i, h).(store := s.store.(objects := s.store.objects[c := s.store.objects[c]])) == Put(s, i, h)
  {
    assert s.store.objects[c := s.store.objects[c]] == s.store.objects;
  }

  lemma LineLeads(hash: Digest, s: World, i: nat, now: string, pick: string, h: Handler)
    requires Steady(hash, s, i) && s.handlers[i].at == Line && RefsOk(s)
    requires OnLine(s.handlers[i], s.store.objects[s.handlers[i].channel]) ==
      Turn(Done(h), s.store.objects[s.handlers[i].channel])
    ensures Next(hash, s, Go(i, now, pick)) == Some(Put(s, i, h))
  {
    SameRecord(s, i, h, s.handlers[i].channel);
  }

  // Not in one of the menu situations, and no command.
  predicate Speech(h: Handler) {
    h.at == Line && h.state != Joining && h.state != ProcessingMenu && Commands.PlainText(h.buffer)
  }

  lemma SpeechIsDispatched(h: Handler, record: Channel)
    requires Speech(h)
    ensures OnLine(h, record) == Dispatch(h, record)
  {
    Commands.PlainTextExactly(h.buffer);
  }

  // ------------------------------------------------------------------------ commands

  // A command that is at fault is answered and changes nothing.
  lemma FaultyCommand(hash: Digest, s: World, i: nat, now: string, pick: string)
    requires Steady(hash, s, i) && s.handlers[i].at == Line && s.handlers[i].state !in {Joining, ProcessingMenu}
    requires Commands.Parse(s.handlers[i].buffer).error.Some?
    ensures Next(hash, s, Go(i, now, pick)) == Some(Put(s, i, s.handlers[i].(at := Answer(s.handlers[i]))))
  {
    HandlerInv(hash, s, i);
    LineLeads(hash, s, i, now, pick, s.handlers[i].(at := Answer(s.handlers[i])));
  }

  // What a command without fault does: the menu command leads to the menu, a connected client's history command
  // to the history asked for, and all others are answered and change nothing.
  function Obeyed(h: Handler, kind: Commands.CommandType, channel: string): Handler {
    if kind == Commands.DisplayMenu then
      h.(state := ProcessingMenu, substate := SubstateNull, at := SendSys(h.addr, ThenRead))
    else if kind == Commands.DisplayHistory && h.conn == Connected then h.(at := ShowNamed(channel))
    else h.(at := Answer(h))
  }

  lemma ObeyedCommand(h: Handler, record: Channel, k: nat)
    requires h.state != Joining && h.state != ProcessingMenu && k < |Commands.COMMANDS|
    requires var r := Commands.Parse(h.buffer); r.error.None? && r.matched && r.command == Commands.COMMANDS[k].kind
    ensures OnLine(h, record) ==
      Turn(Done(Obeyed(h, Commands.COMMANDS[k].kind, Commands.Parse(h.buffer).channel)), record)
  {
    var r := Commands.Parse(h.buffer);
    assert r.command in {Commands.DisplayMenu, Commands.DisplayHistory, Commands.ListMembers, Commands.ListChannels,
                         Commands.ListCommands};
    ProcessedCommand(h, r);
  }

  lemma ProcessedCommand(h: Handler, r: Commands.ParseResult)
    requires h.state != Joining && h.state != ProcessingMenu && r == Commands.Parse(h.buffer)
    requires r.error.None? && r.matched
    requires r.command != Commands.CommandNull && r.command != Commands.CommandSentinel
    ensures ProcessCommand(h) == Some(Obeyed(h, r.command, r.channel))
  {
    match r.command
    case DisplayMenu =>
    case DisplayHistory =>
    case ListMembers =>
    case ListChannels =>
    case ListCommands =>
  }

  // The printed form of a command, padded by the user, trimmed by the client, padded on the way and sent in one
  // piece, is read, recognised and obeyed.
  lemma {:induction false} CommandHeard(hash: Digest, s: World, i: nat, now: string, pick: string,
                     c: nat, typed: string, settings: seq<Commands.Setting>,
                     l1: string, r1: string, l2: string, r2: string)
    requires Steady(hash, s, i) && s.handlers[i].at == Reading && !s.handlers[i].closed
    requires s.handlers[i].state !in {Joining, ProcessingMenu}
    requires c < |Commands.COMMANDS| && ToLower(typed) == Commands.COMMANDS[c].name
    requires Commands.Printable(Commands.COMMANDS[c], settings)
    requires SixBlanks(l1) && SixBlanks(r1) && SixBlanks(l2) && SixBlanks(r2)
    requires |l2 + TrimWhitespaces(l1 + Commands.Print(typed, settings) + r1) + r2| <= 1024
    ensures
      var line := Commands.Print(typed, settings);
      var read := Next(hash, s, Read(i, Data(l2 + TrimWhitespaces(l1 + line + r1) + r2)));
      && read.Some?
      && Next(hash, read.value, Go(i, now, pick)) == Some(Put(s, i,
           Obeyed(s.handlers[i].(buffer := line), Commands.COMMANDS[c].kind, Commands.ChannelOf(settings))))
  {
    HandlerInv(hash, s, i);
    var line := Commands.Print(typed, settings);
    ReadsPrinted(hash, s, i, c, typed, settings, l1, r1, l2, r2);
    Commands.PrintedParses(c, typed, settings);
    var h := s.handlers[i].(buffer := line, at := Line);
    ObeyedCommand(h, s.store.objects[h.channel], c);
    HandledAfterRead(hash, s, i, now, pick, h, Obeyed(h, Commands.COMMANDS[c].kind, Commands.ChannelOf(settings)));
  }

  lemma ReadsPrinted(hash: Digest, s: World, i: nat, c: nat, typed: string, settings: seq<Commands.Setting>,
                     l1: string, r1: string, l2: string, r2: string)
    requires RefsOk(s) && s.panic.None? && i < |s.handlers| && s.handlers[i].at == Reading && !s.handlers[i].closed
    requires c < |Commands.COMMANDS| && ToLower(typed) == Commands.COMMANDS[c].name
    requires Commands.Printable(Commands.COMMANDS[c], settings)
    requires SixBlanks(l1) && SixBlanks(r1) && SixBlanks(l2) && SixBlanks(r2)
    requires |l2 + TrimWhitespaces(l1 + Commands.Print(typed, settings) + r1) + r2| <= 1024
    ensures
      var line := Commands.Print(typed, settings);
      Next(hash, s, Read(i, Data(l2 + TrimWhitespaces(l1 + line + r1) + r2))) ==
      Some(Put(s, i, s.handlers[i].(buffer := line, at := Line)))
  {
    var line := Commands.Print(typed, settings);
    SixBlanksExactly(l1);
    SixBlanksExactly(r1);
    SixBlanksExactly(l2);
    SixBlanksExactly(r2);
    Commands.PrintedParses(c, typed, settings);
    TrimRecovers(l1, line, r1);
    TrimRecovers(l2, line, r2);
    PrintedNotEmpty(typed, settings, c);
    ReadsClean(hash, s, i, l2 + line + r2, line);
  }

  lemma ReadsClean(hash: Digest, s: World, i: nat, bytes: string, line: string)
    requires RefsOk(s) && s.panic.None? && i < |s.handlers| && s.handlers[i].at == Reading && !s.handlers[i].closed
    requires 0 < |bytes| <= 1024 && TrimWhitespaces(bytes) == line
    ensures Next(hash, s, Read(i, Data(bytes))) == Some(Put(s, i, s.handlers[i].(buffer := line, at := Line)))
  {
  }

  lemma PrintedNotEmpty(typed: string, settings: seq<Commands.Setting>, c: nat)
    requires c < |Commands.COMMANDS| && ToLower(typed) == Commands.COMMANDS[c].name
    requires Commands.Printable(Commands.COMMANDS[c], settings)
    ensures Commands.Print(typed, settings) != ""
  {
    Commands.LookupByName(typed, c);
    Commands.PrintedLine(typed, Commands.COMMANDS[c], settings);
  }

  lemma HandledAfterRead(hash: Digest, s: World, i: nat, now: string, pick: string, h: Handler, h': Handler)
    requires RefsOk(s) && s.panic.None? && i < |s.handlers| && h.at == Line && h.channel == s.handlers[i].channel
    requires h'.channel == h.channel
    requires OnLine(h, s.store.objects[h.channel]) == Turn(Done(h'), s.store.objects[h.channel])
    ensures Next(hash, Put(s, i, h), Go(i, now, pick)) == Some(Put(s, i, h'))
  {
    var t := Put(s, i, h);
    SameRecord(t, i, h', h.channel);
    assert t.handlers[i := h'] == s.handlers[i := h'];
  }

  // ---------------------------------------------------------------------------- the menu

  // What the seven entries do, for a reader that is joining, pending at the menu, or connected at the menu.
  function Chosen(h: Handler, k: int): Handler {
    if k == 0 && h.state == Joining then h.(at := SendSys(h.addr, ThenEnter(Registration, ReadingName)))
    else if k == 1 && h.state == Joining then h.(at := SendSys(h.addr, ThenEnter(Authentication, ReadingName)))
    else if k == 2 && h.state == ProcessingMenu then h.(at := SendSys(h.addr, ThenEnter(CreatingChannel, ReadingName)))
    else if k == 3 && h.conn == Connected then h.(at := ListChannels)
    else if k == 4 && h.conn == Connected then h.(at := SendSys(h.addr, ThenEnter(AcceptingMessages, SubstateNull)))
    else if k == 6 then h.(state := Disconnecting, substate := SubstateNull, at := Cancel)
    else h.(at := Answer(h))
  }

  predicate AtMenuLine(h: Handler) {
    h.at == Line && (h.state == Joining || h.state == ProcessingMenu)
  }

  predicate IsEntry(line: string, k: int) {
    IsNumeral(line) && InInt64(NumeralValue(line)) && (NumeralValue(line) - (k + 1)) % 256 == 0
  }

  // The numeral k + 1, or one that differs from it by a multiple of 256, chooses entry k.
  lemma MenuLine(hash: Digest, s: World, i: nat, now: string, pick: string, k: int)
    requires Steady(hash, s, i) && AtMenuLine(s.handlers[i]) && 0 <= k <= 6 && IsEntry(s.handlers[i].buffer, k)
    ensures Next(hash, s, Go(i, now, pick)) == Some(Put(s, i, Chosen(s.handlers[i], k)))
  {
    HandlerInv(hash, s, i);
    var h := s.handlers[i];
    MenuTurn(h, s.store.objects[h.channel], k);
    LineLeads(hash, s, i, now, pick, Chosen(h, k));
  }

  lemma MenuTurn(h: Handler, record: Channel, k: int)
    requires AtMenuLine(h) && 0 <= k <= 6 && IsEntry(h.buffer, k)
    ensures OnLine(h, record) == Turn(Done(Chosen(h, k)), record)
  {
    MenuSelects(h.buffer, k);
    AtoiExact(h.buffer);
    ChoiceMade(h, k);
  }

  lemma ChoiceMade(h: Handler, k: int)
    requires AtMenuLine(h) && 0 <= k <= 6
    ensures Choose(h, k) == Chosen(h, k)
  {
  }

  // Any other line is answered, one that is no 64-bit numeral twice, and changes nothing.
  lemma OtherMenuLine(hash: Digest, s: World, i: nat, now: string, pick: string)
    requires Steady(hash, s, i) && AtMenuLine(s.handlers[i])
    requires forall k :: 0 <= k <= 6 ==> !IsEntry(s.handlers[i].buffer, k)
    ensures
      var h, t := s.handlers[i], Next(hash, s, Go(i, now, pick));
      if IsNumeral(h.buffer) && InInt64(NumeralValue(h.buffer)) then t == Some(Put(s, i, h.(at := Answer(h))))
      else exists op :: t == Some(Put(s, i, h.(at := SendSys(h.addr, ThenChoose(op))))) &&
             Resume(h.(at := SendSys(h.addr, ThenChoose(op))), ThenChoose(op)) == h.(at := Answer(h))
  {
    HandlerInv(hash, s, i);
    var h := s.handlers[i];
    var op := OtherMenuTurn(h, s.store.objects[h.channel]);
    LineLeads(hash, s, i, now, pick, if Atoi(h.buffer).ok then h.(at := Answer(h)) else h.(at := SendSys(h.addr, ThenChoose(op))));
    AtoiExact(h.buffer);
  }

  lemma OtherMenuTurn(h: Handler, record: Channel) returns (op: int)
    requires AtMenuLine(h) && forall k :: 0 <= k <= 6 ==> !IsEntry(h.buffer, k)
    ensures OnLine(h, record) ==
      Turn(Done(if Atoi(h.buffer).ok then h.(at := Answer(h)) else h.(at := SendSys(h.addr, ThenChoose(op)))), record)
    ensures Resume(h.(at := SendSys(h.addr, ThenChoose(op))), ThenChoose(op)) == h.(at := Answer(h))
  {
    op := OptionOf(Atoi(h.buffer).value);
    ChoosesNone(h.buffer);
    OtherChoice(h, op);
    OtherChoice(h.(at := SendSys(h.addr, ThenChoose(op))), op);
  }

  lemma ChoosesNone(line: string)
    requires forall k :: 0 <= k <= 6 ==> !IsEntry(line, k)
    ensures OptionOf(Atoi(line).value) < 0 || OptionOf(Atoi(line).value) > 6
  {
    var op := OptionOf(Atoi(line).value);
    if 0 <= op <= 6 {
      MenuSelects(line, op);
      assert IsEntry(line, op);
    }
  }

  lemma OtherChoice(h: Handler, op: int)
    requires op < 0 || op > 6
    ensures Choose(h, op) == h.(at := Answer(h))
  {
  }

  // ------------------------------------------------------------------------- the forms

  // User name, then e-mail address, then password. The password decides: the form goes on to the check of the
  // name exactly if all three are valid, and back to the start otherwise.
  lemma RegistrationLine(hash: Digest, s: World, i: nat, now: string, pick: string)
    requires Steady(hash, s, i) && Speech(s.handlers[i]) && s.handlers[i].state == Registration
    ensures
      var h := s.handlers[i];
      var p := h.participant;
      Next(hash, s, Go(i, now, pick)) == Some(Put(s, i,
        if h.substate == ReadingName then
          h.(participant := p.(username := h.buffer), at := SendSys(h.addr, ThenEnter(Registration, ReadingEmailAddress)))
        else if h.substate == ReadingEmailAddress then
          h.(participant := p.(email := h.buffer), at := SendSys(h.addr, ThenEnter(Registration, ReadingPassword)))
        else if ValidateName(p.username) && ValidateEmail(p.email) && StrongPassword(h.buffer) then
          h.(participant := p.(password := h.buffer), at := CheckName)
        else
          h.(participant := p.(password := h.buffer), at := SendSys(h.addr, ThenEnter(Joining, SubstateNull)))))
  {
    HandlerInv(hash, s, i);
    var h := s.handlers[i];
    PasswordPolicy(h.buffer);
    SpeechIsDispatched(h, s.store.objects[h.channel]);
    LineLeads(hash, s, i, now, pick, OnRegister(h, s.store.objects[h.channel]).value);
  }

  // Logging in asks for the name over and over.
  lemma LogInLine(hash: Digest, s: World, i: nat, now: string, pick: string)
    requires Steady(hash, s, i) && Speech(s.handlers[i]) && s.handlers[i].state == Authentication
    ensures
      var h := s.handlers[i];
      Next(hash, s, Go(i, now, pick)) == Some(Put(s, i, h.(
        participant := h.participant.(username := h.buffer), at := SendSys(h.addr, ThenEnter(Authentication, ReadingName)))))
  {
    HandlerInv(hash, s, i);
    var h := s.handlers[i];
    SpeechIsDispatched(h, s.store.objects[h.channel]);
    LineLeads(hash, s, i, now, pick, OnAuthenticate(h, s.store.objects[h.channel]).value);
  }

  // The name and then the description go into the record the connection points at; a valid name is looked up.
  lemma ChannelLine(hash: Digest, s: World, i: nat, now: string, pick: string)
    requires Steady(hash, s, i) && Speech(s.handlers[i]) && s.handlers[i].state == CreatingChannel
    ensures RefsOk(s)
    ensures
      var h := s.handlers[i];
      var record := s.store.objects[h.channel];
      var naming := h.substate == ReadingName;
      var record' := if naming then record.(name := h.buffer) else record.(desc := h.buffer);
      var at :=
        if naming then SendSys(h.addr, ThenEnter(CreatingChannel, ReadingChannelDesc))
        else if ValidateName(record.name) then CheckChannel
        else SendSys(h.addr, ThenEnter(ProcessingMenu, SubstateNull));
      Next(hash, s, Go(i, now, pick)) ==
      Some(Put(s, i, h.(at := at)).(store := s.store.(objects := s.store.objects[h.channel := record'])))
  {
    HandlerInv(hash, s, i);
    var h := s.handlers[i];
    SpeechIsDispatched(h, s.store.objects[h.channel]);
    assert Next(hash, s, Go(i, now, pick)) == Some(HandleLine(s, i));
  }

  // A 64-bit numeral goes on to the list, anything else back to the menu.
  lemma SelectionLine(hash: Digest, s: World, i: nat, now: string, pick: string)
    requires Steady(hash, s, i) && Speech(s.handlers[i]) && s.handlers[i].state == SelectingChannel
    ensures
      var h := s.handlers[i];
      Next(hash, s, Go(i, now, pick)) == Some(Put(s, i, h.(at :=
        if IsNumeral(h.buffer) && InInt64(NumeralValue(h.buffer)) then PickChannel(NumeralValue(h.buffer))
        else SendSys(h.addr, ThenEnter(ProcessingMenu, SubstateNull)))))
  {
    HandlerInv(hash, s, i);
    var h := s.handlers[i];
    AtoiExact(h.buffer);
    SpeechIsDispatched(h, s.store.objects[h.channel]);
    LineLeads(hash, s, i, now, pick, OnSelectChannel(h).value);
  }

  // In the chat the abort signal comes before everything else.
  lemma ChatLine(hash: Digest, s: World, i: nat, now: string, pick: string)
    requires Steady(hash, s, i) && Speech(s.handlers[i]) && s.handlers[i].state == AcceptingMessages
    ensures Next(hash, s, Go(i, now, pick)) == Some(Put(s, i, s.handlers[i].(at := AbortTimeout)))
  {
    HandlerInv(hash, s, i);
    var h := s.handlers[i];
    SpeechIsDispatched(h, s.store.objects[h.channel]);
    LineLeads(hash, s, i, now, pick, h.(at := AbortTimeout));
  }

  // ------------------------------------------------------- what happens at the shared points

  // What was typed is stored as typed, under the user name and the time of the moment, in the general history,
  // and then offered to the message loop.
  lemma ChatStored(hash: Digest, s: World, i: nat, now: string, pick: string)
    requires Steady(hash, s, i) && s.handlers[i].at == Reader.StoreMessage
    ensures
      var h := s.handlers[i];
      var m := ChatMessage(h.buffer, h.participant.username, "", now);
      Next(hash, s, Go(i, now, pick)) == Some(Put(s, i, h.(at := SendChat(m), stored := h.stored + [m])).(
        store := s.store.(chatHistory := s.store.chatHistory + [m]), log := s.log + [Entry(i, m)]))
  {
    HandlerInv(hash, s, i);
  }

  // The abort signal is handed to a watcher at its select, which goes on to restart its timer.
  lemma SignalTaken(hash: Digest, s: World, i: nat, w: nat)
    requires RefsOk(s) && s.panic.None? && i < |s.handlers| && s.handlers[i].at == AbortTimeout
    requires w < |s.handlers[i].watchers| && s.handlers[i].watchers[w].at == Selecting
    ensures
      var h := s.handlers[i];
      Next(hash, s, Abort(i, w)) == Some(Put(s, i, h.(
        at := Reader.StoreMessage, watchers := h.watchers[w := h.watchers[w].(at := Aborted)])))
  {
  }

  // The stored message goes to the loop, and the client can type the next one.
  lemma ChatHanded(hash: Digest, s: World, i: nat)
    requires Steady(hash, s, i) && s.loop == Waiting && s.handlers[i].at.SendChat?
    ensures
      var h := s.handlers[i];
      && Next(hash, s, HandChat(i)) == Some(Put(s, i, h.(at := Reading)).(loop := HasChat(Entry(i, h.at.msg))))
      && h.state == AcceptingMessages
  {
    HandlerInv(hash, s, i);
    SentMove(s.handlers[i]);
  }

  // A name that is taken sends the client back to the start; a free one is stamped with the time, and one watcher
  // is started before the account is inserted.
  lemma NameChecked(hash: Digest, s: World, i: nat, now: string, pick: string)
    requires Steady(hash, s, i) && s.handlers[i].at == CheckName
    ensures
      var h := s.handlers[i];
      Next(hash, s, Go(i, now, pick)) == Some(Put(s, i,
        if h.participant.username in s.store.participants then h.(at := SendSys(h.addr, ThenEnter(Joining, SubstateNull)))
        else h.(at := Register, participant := h.participant.(joinTime := now), watchers := [Watcher(Selecting, true, 0)])))
    ensures s.handlers[i].watchers == []
  {
    HandlerInv(hash, s, i);
    Unwatched(s.handlers[i], now);
  }

  lemma Unwatched(h: Handler, now: string)
    requires HandlerOk(h) && h.at == CheckName
    ensures h.watchers == []
    ensures Watching(h, now).(at := Register) ==
      h.(at := Register, participant := h.participant.(joinTime := now), watchers := [Watcher(Selecting, true, 0)])
  {
    assert [] + [STARTED] == [STARTED];
  }

  // The account inserted is the form with the password hashed.
  lemma AccountInserted(hash: Digest, s: World, i: nat, now: string, pick: string)
    requires Steady(hash, s, i) && s.handlers[i].at == Register
    requires s.handlers[i].participant.username !in s.store.participants
    ensures
      var p := s.handlers[i].participant;
      var t := Next(hash, s, Go(i, now, pick));
      && t.Some? && t.value.panic.None?
      && t.value.handlers == s.handlers[i := s.handlers[i].(at := ShowHistory)]
      && t.value.store == s.store.(participants :=
           s.store.participants[p.username := Participant(p.username, hash(p.password), p.email, p.joinTime)])
  {
    HandlerInv(hash, s, i);
    SessionInvariant.RegisterEffect(hash, s, i);
  }

  // A channel name that is taken sends the client back to the menu.
  lemma ChannelChecked(hash: Digest, s: World, i: nat, now: string, pick: string)
    requires Steady(hash, s, i) && s.handlers[i].at == CheckChannel
    ensures RefsOk(s)
    ensures
      var h := s.handlers[i];
      Next(hash, s, Go(i, now, pick)) == Some(Put(s, i, h.(at :=
        if s.store.objects[h.channel].name in s.store.channels then SendSys(h.addr, ThenEnter(ProcessingMenu, SubstateNull))
        else RegisterChannel)))
  {
    HandlerInv(hash, s, i);
    GoChannelSteps(hash, s, i, now, pick);
  }

  // A new channel gets a record of its own with the name and the description given and an empty history, and its
  // creator goes on in the chat.
  lemma ChannelInserted(hash: Digest, s: World, i: nat, now: string, pick: string)
    requires Steady(hash, s, i) && s.handlers[i].at == RegisterChannel && RefsOk(s)
    requires s.store.objects[s.handlers[i].channel].name !in s.store.channels
    ensures
      var h := s.handlers[i];
      var record := s.store.objects[h.channel];
      var entry := Channel(record.name, record.desc, record.creator, record.creationDate, [], []);
      Next(hash, s, Go(i, now, pick)) ==
      Some(Put(s, i, h.(state := AcceptingMessages, substate := SubstateNull, at := Reading)).(
        store := s.store.(channels := s.store.channels[record.name := |s.store.objects|],
                          objects := s.store.objects + [entry])))
  {
    GoChannelSteps(hash, s, i, now, pick);
  }

  // With no channel there is nothing to select.
  lemma ChannelsListed(hash: Digest, s: World, i: nat, now: string, pick: string)
    requires Steady(hash, s, i) && s.handlers[i].at == ListChannels
    ensures
      var h := s.handlers[i];
      Next(hash, s, Go(i, now, pick)) == Some(Put(s, i, h.(at :=
        if s.store.channels == map[] then Answer(h) else SendSys(h.addr, ThenAskChannelId))))
  {
    HandlerInv(hash, s, i);
    GoChannelSteps(hash, s, i, now, pick);
  }

  // Of n channels in some order, numbers 1 to n - 1 select one; zero, n and everything beyond select none.
  lemma ChannelPicked(hash: Digest, s: World, i: nat, now: string, pick: string)
    requires Steady(hash, s, i) && s.handlers[i].at.PickChannel? && pick in s.store.channels
    ensures
      var h := s.handlers[i];
      Next(hash, s, Go(i, now, pick)) == Some(Put(s, i,
        if 1 <= h.at.id <= |s.store.channels| - 1 then h.(channel := s.store.channels[pick], at := ShowChannel)
        else h.(at := SendSys(h.addr, ThenEnter(ProcessingMenu, SubstateNull)))))
  {
    HandlerInv(hash, s, i);
    GoChannelSteps(hash, s, i, now, pick);
  }

  // The history of a selected channel leads into the chat, the one asked for by command back to where it was.
  lemma HistoryShown(hash: Digest, s: World, i: nat, now: string, pick: string)
    requires Steady(hash, s, i) && RefsOk(s)
    requires Next(hash, s, Go(i, now, pick)).Some? && Next(hash, s, Go(i, now, pick)).value.panic.None?
    ensures
      var h, t := s.handlers[i], Next(hash, s, Go(i, now, pick));
      && (h.at == ShowHistory ==> t == Some(Put(s, i, h.(at := SendSys(h.addr, ThenMarkConnected)))))
      && (h.at == ShowChannel ==>
            t == Some(Put(s, i, h.(at := SendSys(h.addr, ThenEnter(AcceptingMessages, SubstateNull))))))
      && (h.at.ShowNamed? ==> t == Some(Put(s, i, h.(at := Answer(h)))))
  {
    GoChannelSteps(hash, s, i, now, pick);
  }

  // Marking is what makes a connection connected, and it goes on in the chat.
  lemma ConnectionMarked(hash: Digest, s: World, i: nat, now: string, pick: string)
    requires Steady(hash, s, i) && s.handlers[i].at == MarkConnected
    ensures Next(hash, s, Go(i, now, pick)) == Some(Put(s, i, s.handlers[i].(
      conn := Connected, state := AcceptingMessages, substate := SubstateNull, at := Reading)))
  {
    HandlerInv(hash, s, i);
    Mapped(hash, s, i);
    MarkIsPut(s, i);
    MarkedMove(s.handlers[i]);
  }

  // ------------------------------------------------------------------ going on and leaving

  // After a system message has been taken the handler goes on where the message led: in the two menu situations it
  // prompts before it reads.
  lemma Entered(hash: Digest, s: World, i: nat)
    requires Steady(hash, s, i) && s.loop == Waiting && s.handlers[i].at.SendSys?
    ensures
      var h := s.handlers[i];
      var t := Next(hash, s, HandSys(i));
      && t.Some? && t.value == Put(s, i, t.value.handlers[i]).(loop := HasSys(h.at.to))
      && (h.at.after == ThenRead ==> t.value.handlers[i] == h.(at := Reading))
      && (h.at.after == ThenNothing ==> t.value.handlers[i] == h.(at := Onward(h.addr, h.state)))
      && (h.at.after.ThenEnter? ==> t.value.handlers[i] == h.(
           state := h.at.after.state, substate := h.at.after.substate, at := Onward(h.addr, h.at.after.state)))
      && (h.at.after == ThenIdleOut ==> t.value.handlers[i] == h.(state := Disconnecting, substate := SubstateNull, at := Line))
      && (h.at.after == ThenAskChannelId ==>
           t.value.handlers[i] == h.(at := SendSys(h.addr, ThenEnter(SelectingChannel, SubstateNull))))
      && (h.at.after == ThenMarkConnected ==> t.value.handlers[i] == h.(at := MarkConnected))
      && (h.at.after == ThenGone ==> t.value.handlers[i] == h.(at := Gone))
  {
    HandlerInv(hash, s, i);
    Resumed(s.handlers[i]);
  }

  function Onward(addr: string, state: ReaderState): HandlerPoint {
    if state == Joining || state == ProcessingMenu then SendSys(addr, ThenRead) else Reading
  }

  lemma Resumed(h: Handler)
    requires HandlerOk(h) && h.at.SendSys?
    ensures
      var h' := Resume(h, h.at.after);
      && (h.at.after == ThenRead ==> h' == h.(at := Reading))
      && (h.at.after == ThenNothing ==> h' == h.(at := Onward(h.addr, h.state)))
      && (h.at.after.ThenEnter? ==> h' == h.(
           state := h.at.after.state, substate := h.at.after.substate, at := Onward(h.addr, h.at.after.state)))
      && (h.at.after == ThenIdleOut ==> h' == h.(state := Disconnecting, substate := SubstateNull, at := Line))
      && (h.at.after == ThenAskChannelId ==> h' == h.(at := SendSys(h.addr, ThenEnter(SelectingChannel, SubstateNull))))
      && (h.at.after == ThenMarkConnected ==> h' == h.(at := MarkConnected))
      && (h.at.after == ThenGone ==> h' == h.(at := Gone))
  {
  }

  // Every system message goes to the handler's own client, except the news that it has left, which goes to all.
  lemma OwnClientOrAll(hash: Digest, s: World, i: nat)
    requires Steady(hash, s, i) && s.handlers[i].at.SendSys?
    ensures
      var h := s.handlers[i];
      if h.at.after == ThenGone then h.at.to == "" && !Live(h) && h.closed && h.cancelled else h.at.to == h.addr
  {
    HandlerInv(hash, s, i);
  }

  // Leaving: the context is cancelled, then the network connection closed, then the map entry removed, then
  // everybody told.
  lemma Leaves(hash: Digest, s: World, i: nat, now: string, pick: string)
    requires Steady(hash, s, i)
    ensures
      var h, t := s.handlers[i], Next(hash, s, Go(i, now, pick));
      && (h.at == Line && h.state == Disconnecting ==> t == Some(Put(s, i, h.(at := Cancel))))
      && (h.at == Cancel ==> t == Some(Put(s, i, h.(cancelled := true, at := Close))))
      && (h.at == Close ==> t == Some(Put(s, i, h.(closed := true, at := Remove))))
      && (h.at == Remove ==> t == Some(Put(s, i, h.(at := SendSys("", ThenGone))).(conns := s.conns - {h.addr})))
  {
    HandlerInv(hash, s, i);
    var h := s.handlers[i];
    if h.at == Line && h.state == Disconnecting {
      LeavingLine(h, s.store.objects[h.channel]);
      LineLeads(hash, s, i, now, pick, h.(at := Cancel));
    } else if h.at == Remove {
      Mapped(hash, s, i);
    }
  }

  lemma Mapped(hash: Digest, s: World, i: nat)
    requires HexShaped(hash) && Reachable(hash, s) && i < |s.handlers| && Live(s.handlers[i])
    ensures s.handlers[i].addr in s.conns && s.conns[s.handlers[i].addr] == i
  {
    ReachableInv(hash, s);
    LiveIsMapped(s, i);
  }
}
