/** The whole session as interleaved steps: any number of connection handlers, one idle watcher per
    connection, the message loop, the locked connection map and the locked store. Every lock region, every
    rendezvous on an unbuffered channel and every network read is one step; a call of the logger's Panic
    stops the process. */
module Session {
  import opened Text
  import opened Types
  import opened Validation
  import opened IdleWatcher
  import opened Reader
  import Memory

  /** A chat message together with the handler it comes from. */
  datatype Entry = Entry(from: nat, msg: ChatMessage)

  /** The message loop: at its select, holding a message it has received, or returned after shutdown. */
  datatype Loop = Waiting | HasChat(entry: Entry) | HasSys(to: string) | Stopped

  datatype World = World(
    handlers: seq<Handler>,
    conns: map<string, nat>,     // the connection map: address to handler
    store: Memory.Store,
    loop: Loop,
    log: seq<Entry>,             // every message stored, in order
    sent: seq<Entry>,            // every chat message broadcast, in order
    owner: map<string, nat>,     // which handler inserted an account
    panic: Option<Panic>)

  const INITIAL := World([], map[], Memory.EMPTY, Waiting, [], [], map[], None)

  /** One step, with whatever the environment decides in it. */
  datatype Label =
    | Accept(addr: string)
    | Read(i: nat, input: Input)
    | Go(i: nat, now: string, pick: string)   // now: the clock; pick: the channel a map iteration puts at the index
    | HandSys(i: nat)
    | HandChat(i: nat)
    | Abort(i: nat, w: nat)
    | Broadcast
    | ShutDown
    | TimerFires(i: nat, w: nat)
    | WatchTick(i: nat, w: nat)
    | WatchDone(i: nat, w: nat)
    | WatchGo(i: nat, w: nat)

  function Put(s: World, i: nat, h: Handler): World
    requires i < |s.handlers|
  {
    s.(handlers := s.handlers[i := h])
  }

  function Fail(s: World, panic: Panic): World {
    s.(panic := Some(panic))
  }

  predicate RefsOk(s: World) {
    && s.store.WellFormed()
    && forall i :: 0 <= i < |s.handlers| ==> s.handlers[i].channel < |s.store.objects|
  }

  // ------------------------------------------------------------ one handler's own steps

  function HandleLine(s: World, i: nat): World
    requires i < |s.handlers| && RefsOk(s)
  {
    var h := s.handlers[i];
    var turn := OnLine(h, s.store.objects[h.channel]);
    match turn.outcome
    case Crash(panic) => Fail(s, panic)
    case Done(h') => Put(s, i, h').(store := s.store.(objects := s.store.objects[h.channel := turn.record]))
  }

  function Watching(h: Handler, now: string): Handler {
    h.(participant := h.participant.(joinTime := now), watchers := h.watchers + [STARTED])
  }

  function CheckNameStep(s: World, i: nat, now: string): World
    requires i < |s.handlers|
  {
    var h := s.handlers[i];
    if h.participant.username in s.store.participants then Put(s, i, Say(h, ThenEnter(Joining, SubstateNull)))
    else Put(s, i, Watching(h, now).(at := Register))
  }

  function RegisterStep(hash: Digest, s: World, i: nat): World
    requires i < |s.handlers|
  {
    var h := s.handlers[i];
    match s.store.RegisterParticipant(hash, h.participant)
    case Crash(panic) => Fail(s, panic)
    case Done(store) =>
      Put(s, i, h.(at := ShowHistory)).(store := store, owner := s.owner[h.participant.username := i])
  }

  function AuthenticateStep(hash: Digest, s: World, i: nat, now: string): World
    requires i < |s.handlers|
  {
    var h := s.handlers[i];
    if !s.store.AuthParticipant(hash, h.participant) then Put(s, i, Say(h, ThenEnter(Joining, SubstateNull)))
    else Put(s, i, Watching(h, now).(at := ShowHistory))
  }

  // The map entry under the handler's address is marked; then the handler itself goes on.
  function MarkConnectedStep(s: World, i: nat): World
    requires i < |s.handlers|
  {
    var h := s.handlers[i];
    if h.addr !in s.conns || s.conns[h.addr] >= |s.handlers| then Fail(s, ConnectionMissing)
    else
      var j := s.conns[h.addr];
      var marked := Put(s, j, s.handlers[j].(conn := Connected));
      Put(marked, i, FinishIteration(UpdateState(marked.handlers[i], AcceptingMessages, SubstateNull)))
  }

  function RegisterChannelStep(s: World, i: nat): World
    requires i < |s.handlers| && RefsOk(s)
  {
    var h := s.handlers[i];
    match s.store.RegisterChannel(s.store.objects[h.channel])
    case Crash(panic) => Fail(s, panic)
    case Done(store) =>
      Put(s, i, FinishIteration(UpdateState(h, AcceptingMessages, SubstateNull))).(store := store)
  }

  function PickChannelStep(s: World, i: nat, id: int, pick: string): Option<World>
    requires i < |s.handlers|
  {
    var h := s.handlers[i];
    if 0 < id < |s.store.channels| then
      if pick in s.store.channels then Some(Put(s, i, h.(channel := s.store.channels[pick], at := ShowChannel)))
      else None
    else Some(Put(s, i, Say(h, ThenEnter(ProcessingMenu, SubstateNull))))
  }

  function ShowHistoryStep(s: World, i: nat, channel: string, after: After): World
    requires i < |s.handlers| && RefsOk(s)
  {
    match s.store.GetChatHistory(channel)
    case Crash(panic) => Fail(s, panic)
    case Done(_) => Put(s, i, Say(s.handlers[i], after))
  }

  function StoreStep(s: World, i: nat, now: string): World
    requires i < |s.handlers| && RefsOk(s)
  {
    var h := s.handlers[i];
    var msg := BuildChatMsg(h.buffer, h.participant.username, [s.store.objects[h.channel].name], now);
    match s.store.StoreMessage(msg)
    case Crash(panic) => Fail(s, panic)
    case Done(store) =>
      Put(s, i, h.(at := SendChat(msg), stored := h.stored + [msg])).(store := store, log := s.log + [Entry(i, msg)])
  }

  function CancelStep(s: World, i: nat): World
    requires i < |s.handlers|
  {
    var h := s.handlers[i];
    if h.state != Disconnecting then Fail(s, InvalidState) else Put(s, i, h.(cancelled := true, at := Close))
  }

  function RemoveStep(s: World, i: nat): World
    requires i < |s.handlers|
  {
    var h := s.handlers[i];
    if h.addr !in s.conns then Fail(s, ConnectionMissing)
    else Put(s, i, h.(at := SendSys("", ThenGone))).(conns := s.conns - {h.addr})
  }

  function GoStep(hash: Digest, s: World, i: nat, now: string, pick: string): Option<World>
    requires i < |s.handlers| && RefsOk(s)
  {
    var h := s.handlers[i];
    match h.at
    case Line => Some(HandleLine(s, i))
    case CheckName => Some(CheckNameStep(s, i, now))
    case Register => Some(RegisterStep(hash, s, i))
    case Authenticate => Some(AuthenticateStep(hash, s, i, now))
    case ShowHistory => Some(ShowHistoryStep(s, i, "", ThenMarkConnected))
    case MarkConnected => Some(MarkConnectedStep(s, i))
    case CheckChannel => Some(
      if s.store.objects[h.channel].name in s.store.channels
      then Put(s, i, Say(h, ThenEnter(ProcessingMenu, SubstateNull)))
      else Put(s, i, h.(at := RegisterChannel)))
    case RegisterChannel => Some(RegisterChannelStep(s, i))
    case ListChannels => Some(Put(s, i, Say(h, if |s.store.channels| > 0 then ThenAskChannelId else ThenNothing)))
    case PickChannel(id) => PickChannelStep(s, i, id, pick)
    case ShowChannel => Some(
      ShowHistoryStep(s, i, s.store.objects[h.channel].name, ThenEnter(AcceptingMessages, SubstateNull)))
    case ShowNamed(channel) => Some(ShowHistoryStep(s, i, channel, ThenNothing))
    case StoreMessage => Some(StoreStep(s, i, now))
    case Cancel => Some(CancelStep(s, i))
    case Close => Some(Put(s, i, h.(closed := true, at := Remove)))
    case Remove => Some(RemoveStep(s, i))
    case _ => None
  }

  // ------------------------------------------------------------------------ all steps

  // The environment hands out only remote addresses that are not currently in the map.
  function AcceptStep(s: World, addr: string): Option<World> {
    if addr in s.conns || addr == "" then None
    else
      Some(s.(
        handlers := s.handlers + [NewHandler(addr, |s.store.objects|)],
        conns := s.conns[addr := |s.handlers|],
        store := s.store.(objects := s.store.objects + [NoChannel])))
  }

  predicate Readable(h: Handler, input: Input) {
    && h.at == Reading
    && (h.closed ==> input == Failed)
    && (input.Data? ==> 0 < |input.bytes| <= 1024)
  }

  // The watcher's own steps on the connection it watches.
  function Watch(h: Handler, w: nat, l: Label): Option<Handler>
    requires w < |h.watchers|
  {
    var x := h.watchers[w];
    match l
    case TimerFires(_, _) => if x.armed then Some(h.(watchers := h.watchers[w := Fire(x)])) else None
    case WatchTick(_, _) =>
      if x.at == Selecting && x.ticks > 0 then Some(h.(watchers := h.watchers[w := TakeTick(x)])) else None
    case WatchDone(_, _) =>
      if x.at == Selecting && h.cancelled then Some(h.(watchers := h.watchers[w := TakeDone(x)])) else None
    case WatchGo(_, _) =>
      if !CanAdvance(x) then None
      else Some(h.(
        watchers := h.watchers[w := Advance(x)],
        closed := h.closed || x.at == Closing,
        cancelled := h.cancelled || x.at == Cancelling))
    case _ => None
  }

  function WatchStep(s: World, i: nat, w: nat, l: Label): Option<World> {
    if i < |s.handlers| && w < |s.handlers[i].watchers| then
      match Watch(s.handlers[i], w, l)
      case Some(h) => Some(Put(s, i, h))
      case None => None
    else None
  }

  function AbortStep(s: World, i: nat, w: nat): Option<World> {
    if i < |s.handlers| && s.handlers[i].at == AbortTimeout && w < |s.handlers[i].watchers| &&
       s.handlers[i].watchers[w].at == Selecting
    then
      var h := s.handlers[i];
      Some(Put(s, i, h.(at := Reader.StoreMessage, watchers := h.watchers[w := TakeAbort(h.watchers[w])])))
    else None
  }

  // A step of the whole session, None when the label is not enabled. Nothing moves after a panic. Pointers
  // to channel records never dangle, in any reachable world (RunKeepsInv), so that test disables nothing.
  function Next(hash: Digest, s: World, l: Label): Option<World> {
    if s.panic.Some? || !RefsOk(s) then None
    else
      match l
      case Accept(addr) => AcceptStep(s, addr)
      case Read(i, input) =>
        if i < |s.handlers| && Readable(s.handlers[i], input) then Some(Put(s, i, OnRead(s.handlers[i], input)))
        else None
      case Go(i, now, pick) => if i < |s.handlers| then GoStep(hash, s, i, now, pick) else None
      case HandSys(i) =>
        if i < |s.handlers| && s.handlers[i].at.SendSys? && s.loop == Waiting then
          var h := s.handlers[i];
          Some(Put(s, i, Resume(h, h.at.after)).(loop := HasSys(h.at.to)))
        else None
      case HandChat(i) =>
        if i < |s.handlers| && s.handlers[i].at.SendChat? && s.loop == Waiting then
          var h := s.handlers[i];
          Some(Put(s, i, FinishIteration(h)).(loop := HasChat(Entry(i, h.at.msg))))
        else None
      case Abort(i, w) => AbortStep(s, i, w)
      case Broadcast => (
        match s.loop
        case HasChat(entry) => Some(s.(loop := Waiting, sent := s.sent + [entry]))
        case HasSys(_) => Some(s.(loop := Waiting))
        case _ => None)
      case ShutDown => if s.loop == Waiting then Some(s.(loop := Stopped)) else None
      case TimerFires(i, w) => WatchStep(s, i, w, l)
      case WatchTick(i, w) => WatchStep(s, i, w, l)
      case WatchDone(i, w) => WatchStep(s, i, w, l)
      case WatchGo(i, w) => WatchStep(s, i, w, l)
  }


  // A run is a sequence of labels, each enabled where it occurs.
  function Run(hash: Digest, s: World, run: seq<Label>): Option<World> {
    if run == [] then Some(s)
    else
      match Run(hash, s, run[..|run| - 1])
      case None => None
      case Some(t) => Next(hash, t, run[|run| - 1])
  }
}
