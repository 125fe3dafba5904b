/** The reader as the object the program keeps for each connection: its methods assign the fields step by step,
    and each is proved to do what the functions of module Reader say. The records of channels live in the
    storage's table, so a reader that points at one of them shares it with the storage. */
module ReaderMachine {
  import opened Text
  import opened Types
  import opened Validation
  import opened IdleWatcher
  import opened Reader
  import Commands
  import Memory
  import Session

  class ReaderFSM {
    const addr: string
    var at: HandlerPoint
    var state: ReaderState
    var substate: Substate
    var buffer: string
    // The fields of the connection.
    var participant: Participant
    var channel: nat
    var conn: ConnectionState
    var cancelled: bool
    var closed: bool
    var watchers: seq<Watcher>
    var stored: seq<ChatMessage>

    ghost function View(): Handler
      reads this
    {
      Handler(addr, at, state, substate, buffer, participant, channel, conn, cancelled, closed, watchers, stored)
    }

    ghost predicate Linked(storage: Memory.MemoryBackend)
      reads this, storage
    {
      storage.View().WellFormed() && channel < |storage.objects|
    }

    constructor (addr: string, channel: nat)
      ensures View() == NewHandler(addr, channel)
    {
      this.addr, this.channel := addr, channel;
      state, substate, buffer := Joining, SubstateNull, "";
      participant, conn := NoParticipant, Pending;
      cancelled, closed, watchers, stored := false, false, [], [];
      at := SendSys(addr, ThenRead);
    }

    // ------------------------------------------------------------------ small steps

    method UpdateState(state: ReaderState, substate: Substate)
      modifies this`state, this`substate
      ensures View() == Reader.UpdateState(old(View()), state, substate)
    {
      this.state, this.substate := state, substate;
    }

    method SendMsg(after: After)
      modifies this`at
      ensures View() == Say(old(View()), after)
    {
      at := SendSys(addr, after);
    }

    method FinishIteration()
      modifies this`at
      ensures View() == Reader.FinishIteration(old(View()))
    {
      if state == Disconnecting {
        at := HandlerPoint.Cancel;
      } else if state == Joining || state == ProcessingMenu {
        SendMsg(ThenRead);
      } else {
        at := Reading;
      }
    }

    // A failed read finds the context cancelled by the watcher or cancels it itself.
    method Read(input: Input)
      modifies this
      ensures View() == OnRead(old(View()), input)
    {
      buffer := TrimWhitespaces(if input.Data? then input.bytes else "");
      at := Line;
      if input.Failed? {
        if cancelled {
          SendMsg(ThenIdleOut);
          return;
        }
        cancelled := true;
        UpdateState(Disconnecting, SubstateNull);
        return;
      }
      if input.EndOfStream? {
        UpdateState(Disconnecting, SubstateNull);
      }
    }

    method ProcessCommand() returns (handled: bool)
      modifies this
      ensures match Reader.ProcessCommand(old(View()))
        case Some(h) => handled && View() == h
        case None => !handled && View() == old(View())
    {
      if state == Joining || state == ProcessingMenu {
        return false;
      }
      var result := Commands.ParseCommand(buffer);
      if result.error.Some? {
        SendMsg(ThenNothing);
        return true;
      }
      if !result.matched {
        return false;
      }
      match result.command {
        case DisplayMenu =>
          UpdateState(ProcessingMenu, SubstateNull);
          FinishIteration();
        case DisplayHistory =>
          if conn == Connected {
            at := ShowNamed(result.channel);
          } else {
            SendMsg(ThenNothing);
          }
        case ListMembers => SendMsg(ThenNothing);
        case ListChannels => SendMsg(ThenNothing);
        case ListCommands => SendMsg(ThenNothing);
        case _ => FinishIteration();
      }
      handled := true;
    }

    // ------------------------------------------------------------------ the callbacks

    method Choose(op: int)
      modifies this
      ensures View() == Reader.Choose(old(View()), op)
    {
      match op {
        case 0 => SendMsg(if state == Joining then ThenEnter(Registration, ReadingName) else ThenNothing);
        case 1 => SendMsg(if state == Joining then ThenEnter(Authentication, ReadingName) else ThenNothing);
        case 2 => SendMsg(if state != Joining then ThenEnter(CreatingChannel, ReadingName) else ThenNothing);
        case 3 =>
          if conn == Connected {
            at := HandlerPoint.ListChannels;
          } else {
            SendMsg(ThenNothing);
          }
        case 4 => SendMsg(if conn == Connected then ThenEnter(AcceptingMessages, SubstateNull) else ThenNothing);
        case 6 =>
          UpdateState(Disconnecting, SubstateNull);
          FinishIteration();
        case _ => SendMsg(ThenNothing);
      }
    }

    method OnJoining() returns (r: Outcome<()>)
      modifies this
      ensures r == Report(Reader.OnJoining(old(View())))
      ensures r.Done? ==> Done(View()) == Reader.OnJoining(old(View()))
    {
      if state != Joining && state != ProcessingMenu {
        return Crash(InvalidState);
      }
      var number := Atoi(buffer);
      var op := OptionOf(number.value);
      if number.ok {
        Choose(op);
      } else {
        SendMsg(ThenChoose(op));
      }
      r := Done(());
    }

    method OnRegister(storage: Memory.MemoryBackend) returns (r: Outcome<()>)
      requires Linked(storage)
      modifies this
      ensures var o := Reader.OnRegister(old(View()), storage.objects[old(channel)]);
        r == Report(o) && (r.Done? ==> View() == o.value)
    {
      if state != Registration {
        return Crash(InvalidState);
      }
      match substate {
        case ReadingName =>
          participant := participant.(username := buffer);
          SendMsg(ThenEnter(state, ReadingEmailAddress));
        case ReadingEmailAddress =>
          participant := participant.(email := buffer);
          SendMsg(ThenEnter(state, ReadingPassword));
        case ReadingPassword =>
          participant := participant.(password := buffer);
          r := Validate(storage);
          return;
        case _ => FinishIteration();
      }
      r := Done(());
    }

    method OnAuthenticate(storage: Memory.MemoryBackend) returns (r: Outcome<()>)
      requires Linked(storage)
      modifies this
      ensures var o := Reader.OnAuthenticate(old(View()), storage.objects[old(channel)]);
        r == Report(o) && (r.Done? ==> View() == o.value)
    {
      if state != Authentication {
        return Crash(InvalidState);
      }
      match substate {
        case ReadingName =>
          participant := participant.(username := buffer);
          SendMsg(ThenEnter(state, ReadingName));
        case ReadingPassword =>
          participant := participant.(password := buffer);
          r := Validate(storage);
          return;
        case _ => FinishIteration();
      }
      r := Done(());
    }

    // Renames the record the connection points at, whoever else points at it.
    method OnCreateChannel(storage: Memory.MemoryBackend) returns (r: Outcome<()>)
      requires Linked(storage)
      modifies this, storage`objects
      ensures var turn := Reader.OnCreateChannel(old(View()), old(storage.objects[channel]));
        && r == Report(turn.outcome) && (r.Done? ==> View() == turn.outcome.value)
        && storage.objects == old(storage.objects[channel := turn.record])
    {
      if state != CreatingChannel {
        return Crash(InvalidState);
      }
      var record := storage.objects[channel];
      match substate {
        case ReadingName =>
          storage.objects := storage.objects[channel := record.(name := buffer)];
          SendMsg(ThenEnter(state, ReadingChannelDesc));
        case ReadingChannelDesc =>
          storage.objects := storage.objects[channel := record.(desc := buffer)];
          r := Validate(storage);
          return;
        case _ => FinishIteration();
      }
      r := Done(());
    }

    // As far as the first look into the storage.
    method Validate(storage: Memory.MemoryBackend) returns (r: Outcome<()>)
      requires Linked(storage)
      modifies this
      ensures var o := Reader.Validate(old(View()), storage.objects[old(channel)]);
        r == Report(o) && (r.Done? ==> View() == o.value)
    {
      if state != Registration && state != Authentication && state != CreatingChannel {
        return Crash(InvalidState);
      }
      r := Done(());
      if state != CreatingChannel {
        if !ValidateName(participant.username) {
          SendMsg(ThenEnter(Joining, SubstateNull));
          return;
        }
        if !ValidatePassword(participant.password) {
          SendMsg(ThenEnter(Joining, SubstateNull));
          return;
        }
        if state == Registration {
          if !ValidateEmail(participant.email) {
            SendMsg(ThenEnter(Joining, SubstateNull));
            return;
          }
          at := HandlerPoint.CheckName;
        } else {
          at := HandlerPoint.Authenticate;
        }
      } else {
        if !ValidateName(storage.objects[channel].name) {
          SendMsg(ThenEnter(ProcessingMenu, SubstateNull));
          return;
        }
        at := HandlerPoint.CheckChannel;
      }
    }

    method OnSelectChannel() returns (r: Outcome<()>)
      modifies this
      ensures r == Report(Reader.OnSelectChannel(old(View())))
      ensures r.Done? ==> Done(View()) == Reader.OnSelectChannel(old(View()))
    {
      if state != SelectingChannel {
        return Crash(InvalidState);
      }
      var id := Atoi(buffer);
      if !id.ok {
        SendMsg(ThenEnter(ProcessingMenu, SubstateNull));
      } else {
        at := HandlerPoint.PickChannel(id.value);
      }
      r := Done(());
    }

    method OnAcceptMessages() returns (r: Outcome<()>)
      modifies this
      ensures r == Report(Reader.OnAcceptMessages(old(View())))
      ensures r.Done? ==> Done(View()) == Reader.OnAcceptMessages(old(View()))
    {
      if state != AcceptingMessages {
        return Crash(InvalidState);
      }
      at := AbortTimeout;
      r := Done(());
    }

    // The rest of the loop body once a line has been read. From a reader that satisfies the invariant it never
    // panics and leads to one that does.
    method HandleLine(storage: Memory.MemoryBackend) returns (r: Outcome<()>)
      requires Linked(storage)
      modifies this, storage`objects
      ensures var turn := OnLine(old(View()), old(storage.objects[channel]));
        && r == Report(turn.outcome) && (r.Done? ==> View() == turn.outcome.value)
        && storage.objects == old(storage.objects[channel := turn.record])
      ensures old(HandlerOk(View()) && at == Line) ==> r.Done? && Moved(old(View()), View())
    {
      if HandlerOk(View()) && at == Line {
        LineMove(View(), storage.objects[channel]);
      }
      var handled := ProcessCommand();
      r := Done(());
      if !handled {
        match state {
          case Joining => r := OnJoining();
          case ProcessingMenu => r := OnJoining();
          case Registration => r := OnRegister(storage);
          case Authentication => r := OnAuthenticate(storage);
          case CreatingChannel => r := OnCreateChannel(storage);
          case SelectingChannel => r := OnSelectChannel();
          case AcceptingMessages => r := OnAcceptMessages();
          case _ => FinishIteration();
        }
      }
    }

    // Once the message loop has taken the handler's system message.
    method Resume(after: After)
      modifies this
      ensures View() == Reader.Resume(old(View()), after)
    {
      match after {
        case ThenRead => at := Reading;
        case ThenNothing => FinishIteration();
        case ThenEnter(state, substate) =>
          UpdateState(state, substate);
          FinishIteration();
        case ThenIdleOut =>
          at := Line;
          UpdateState(Disconnecting, SubstateNull);
        case ThenChoose(op) => Choose(op);
        case ThenAskChannelId => SendMsg(ThenEnter(SelectingChannel, SubstateNull));
        case ThenMarkConnected => at := MarkConnected;
        case ThenGone => at := Gone;
      }
    }

    // ------------------------------------------------- the steps that look into the storage

    // Handler i of this world is this reader, and the world's store is the storage.
    ghost predicate Mirrors(s: Session.World, i: nat, storage: Memory.MemoryBackend)
      reads this, storage
    {
      Session.RefsOk(s) && i < |s.handlers| && s.handlers[i] == View() && s.store == storage.View()
    }

    // A method has taken the step from s to t, or has panicked as that step does.
    ghost predicate Took(s: Session.World, t: Session.World, i: nat, storage: Memory.MemoryBackend, r: Outcome<()>)
      reads this, storage
    {
      match r
      case Done(_) => t.panic == s.panic && Mirrors(t, i, storage)
      case Crash(panic) => t == Session.Fail(s, panic)
    }

    method CheckName(storage: Memory.MemoryBackend, now: string, ghost s: Session.World, ghost i: nat)
      requires Mirrors(s, i, storage)
      modifies this
      ensures Mirrors(Session.CheckNameStep(s, i, now), i, storage)
    {
      var taken := storage.HasParticipant(participant.username);
      if taken {
        SendMsg(ThenEnter(Joining, SubstateNull));
        return;
      }
      participant := participant.(joinTime := now);
      watchers := watchers + [STARTED];
      at := HandlerPoint.Register;
    }

    method Register(hash: Digest, storage: Memory.MemoryBackend, ghost s: Session.World, ghost i: nat)
      returns (r: Outcome<()>)
      requires Mirrors(s, i, storage)
      modifies this, storage
      ensures Took(s, Session.RegisterStep(hash, s, i), i, storage, r)
    {
      r := storage.RegisterParticipant(hash, participant);
      at := HandlerPoint.ShowHistory;
    }

    method Authenticate(hash: Digest, storage: Memory.MemoryBackend, now: string, ghost s: Session.World, ghost i: nat)
      requires Mirrors(s, i, storage)
      modifies this
      ensures Mirrors(Session.AuthenticateStep(hash, s, i, now), i, storage)
    {
      var ok := storage.AuthParticipant(hash, participant);
      if !ok {
        SendMsg(ThenEnter(Joining, SubstateNull));
        return;
      }
      participant := participant.(joinTime := now);
      watchers := watchers + [STARTED];
      at := HandlerPoint.ShowHistory;
    }

    method ShowHistory(storage: Memory.MemoryBackend, channel: string, after: After, ghost s: Session.World, ghost i: nat)
      returns (r: Outcome<()>)
      requires Mirrors(s, i, storage)
      modifies this
      ensures Took(s, Session.ShowHistoryStep(s, i, channel, after), i, storage, r)
    {
      var history := storage.GetChatHistory(channel);
      if history.Crash? {
        return Crash(history.panic);
      }
      SendMsg(after);
      r := Done(());
    }

    method RegisterChannel(storage: Memory.MemoryBackend, ghost s: Session.World, ghost i: nat) returns (r: Outcome<()>)
      requires Mirrors(s, i, storage)
      modifies this, storage
      ensures Took(s, Session.RegisterChannelStep(s, i), i, storage, r)
    {
      r := storage.RegisterChannel(storage.objects[channel]);
      UpdateState(AcceptingMessages, SubstateNull);
      FinishIteration();
    }

    method CheckChannel(storage: Memory.MemoryBackend, ghost s: Session.World, ghost i: nat)
      requires Mirrors(s, i, storage) && at == HandlerPoint.CheckChannel
      modifies this
      ensures forall hash, now, pick {:trigger Session.GoStep(hash, s, i, now, pick)} ::
        Mirrors(Session.GoStep(hash, s, i, now, pick).value, i, storage)
    {
      var taken := storage.HasChannel(storage.objects[channel].name);
      if taken {
        SendMsg(ThenEnter(ProcessingMenu, SubstateNull));
      } else {
        at := HandlerPoint.RegisterChannel;
      }
    }

    method HasChannels(storage: Memory.MemoryBackend) returns (nonempty: bool)
      ensures nonempty <==> |storage.View().channels| > 0
    {
      var channels := storage.GetChannels();
      nonempty := |channels| > 0;
    }

    method DisplayChannels(storage: Memory.MemoryBackend, ghost s: Session.World, ghost i: nat)
      requires Mirrors(s, i, storage) && at == HandlerPoint.ListChannels
      modifies this
      ensures forall hash, now, pick {:trigger Session.GoStep(hash, s, i, now, pick)} ::
        Mirrors(Session.GoStep(hash, s, i, now, pick).value, i, storage)
    {
      var nonempty := HasChannels(storage);
      SendMsg(if nonempty then ThenAskChannelId else ThenNothing);
    }

    // The channels are listed in some order; a number in range, zero excluded, selects by position.
    method Nth(storage: Memory.MemoryBackend, id: int) returns (found: bool, ref: nat, ghost pick: string)
      ensures found <==> 0 < id < |storage.View().channels|
      ensures found ==> pick in storage.View().channels && storage.View().channels[pick] == ref
    {
      found, ref, pick := false, 0, "";
      var channels := storage.GetChannels();
      if 0 < id < |channels| {
        found, ref := true, channels[id];
        pick := Memory.KeyAt(channels, storage.channels, id);
      }
    }

    method PickChannel(storage: Memory.MemoryBackend, id: int, ghost s: Session.World, ghost i: nat)
      returns (ghost pick: string)
      requires Mirrors(s, i, storage)
      modifies this
      ensures var t := Session.PickChannelStep(s, i, id, pick); t.Some? && Mirrors(t.value, i, storage)
    {
      var found, ref;
      found, ref, pick := Nth(storage, id);
      if found {
        channel, at := ref, ShowChannel;
      } else {
        SendMsg(ThenEnter(ProcessingMenu, SubstateNull));
      }
    }

    // What follows the abort signal. The channel's name is passed on, and dropped, when the message is built.
    method StoreMessage(storage: Memory.MemoryBackend, now: string, ghost s: Session.World, ghost i: nat)
      returns (r: Outcome<()>)
      requires Mirrors(s, i, storage)
      modifies this, storage
      ensures Took(s, Session.StoreStep(s, i, now), i, storage, r)
    {
      var msg := BuildChatMsg(buffer, participant.username, [storage.objects[channel].name], now);
      r := storage.StoreMessage(msg);
      stored := stored + [msg];
      at := SendChat(msg);
    }

    method Cancel() returns (r: Outcome<()>)
      modifies this
      ensures r == if old(state) == Disconnecting then Done(()) else Crash(InvalidState)
      ensures r.Done? ==> View() == old(View()).(cancelled := true, at := Close)
    {
      if state != Disconnecting {
        return Crash(InvalidState);
      }
      cancelled, at := true, Close;
      r := Done(());
    }
  }

  function Report(o: Outcome<Handler>): Outcome<()> {
    match o
    case Done(_) => Done(())
    case Crash(panic) => Crash(panic)
  }
}
