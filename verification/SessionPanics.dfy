/** At which steps the process panics, and over what. */
module SessionPanics {
  import opened Text
  import opened Types
  import opened Validation
  import opened Reader
  import opened Session
  import opened SessionInvariant
  import opened SessionHistory

  // A history request names a channel that is not registered; the empty name asks for the general history.
  predicate Absent(s: World, channel: string) {
    channel != "" && channel !in s.store.channels
  }

  // What a handler's own next step would panic over, read off the world before it.
  function Hazard(s: World, i: nat): Option<Panic>
    requires RefsOk(s) && i < |s.handlers|
  {
    var h := s.handlers[i];
    match h.at
    case Register => if h.participant.username in s.store.participants then Some(ParticipantExists) else None
    case RegisterChannel =>
      if s.store.objects[h.channel].name in s.store.channels then Some(ChannelExists) else None
    case ShowChannel => if Absent(s, s.store.objects[h.channel].name) then Some(UnknownChannel) else None
    case ShowNamed(channel) => if Absent(s, channel) then Some(UnknownChannel) else None
    case _ => None
  }

  lemma LinePanicsNot(s: World, i: nat)
    requires RefsOk(s) && i < |s.handlers| && HandlerOk(s.handlers[i]) && s.handlers[i].at == Line
    ensures HandleLine(s, i).panic == s.panic
  {
    LineMove(s.handlers[i], s.store.objects[s.handlers[i].channel]);
  }

  predicate TouchesShared(at: HandlerPoint) {
    at == MarkConnected || at == Reader.StoreMessage || at == Cancel || at == Remove || at == Line || at == Register
  }

  lemma SharedPanics(hash: Digest, s: World, i: nat, now: string, pick: string)
    requires HexShaped(hash) && Inv(hash, s) && s.panic.None? && i < |s.handlers|
    requires GoStep(hash, s, i, now, pick).Some? && TouchesShared(s.handlers[i].at)
    ensures GoStep(hash, s, i, now, pick).value.panic == Hazard(s, i)
  {
    match s.handlers[i].at
    case Line => LinePanicsNot(s, i);
    case Register => RegisterEffect(hash, s, i);
    case MarkConnected => MarkKeeps(hash, s, i);
    case StoreMessage => StoreKeeps(hash, s, i, now);
    case Cancel => CancelKeeps(hash, s, i);
    case Remove => RemoveKeeps(hash, s, i);
  }

  lemma RestPanics(hash: Digest, s: World, i: nat, now: string, pick: string)
    requires RefsOk(s) && s.panic.None? && i < |s.handlers|
    requires GoStep(hash, s, i, now, pick).Some? && !TouchesShared(s.handlers[i].at)
    ensures GoStep(hash, s, i, now, pick).value.panic == Hazard(s, i)
  {
  }

  // In every reachable world, a step panics exactly when it is a handler's own step into a hazard, and it
  // panics over that.
  lemma StepPanicsOverHazard(hash: Digest, s: World, l: Label)
    requires HexShaped(hash) && Reachable(hash, s) && Next(hash, s, l).Some?
    ensures RefsOk(s)
    ensures Next(hash, s, l).value.panic == if l.Go? then Hazard(s, l.i) else None
  {
    ReachableInv(hash, s);
    if l.Go? {
      if TouchesShared(s.handlers[l.i].at) {
        SharedPanics(hash, s, l.i, l.now, l.pick);
      } else {
        RestPanics(hash, s, l.i, l.now, l.pick);
      }
    }
  }

  // The same, case by case: inserting an account whose name has been taken meanwhile, inserting a channel
  // whose name has been taken meanwhile, and asking for the history of a channel that is not registered.
  lemma StepPanicsExactly(hash: Digest, s: World, l: Label)
    requires HexShaped(hash) && Reachable(hash, s) && Next(hash, s, l).Some?
    ensures RefsOk(s)
    ensures Next(hash, s, l).value.panic.Some? <==>
      && l.Go?
      && var h := s.handlers[l.i];
         || (h.at == Register && h.participant.username in s.store.participants)
         || (h.at == RegisterChannel && s.store.objects[h.channel].name in s.store.channels)
         || (h.at == ShowChannel && Absent(s, s.store.objects[h.channel].name))
         || (h.at.ShowNamed? && Absent(s, h.at.channel))
  {
    StepPanicsOverHazard(hash, s, l);
  }
}
