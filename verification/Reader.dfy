/** The per-connection reader: what a connection handler does between two points where it can block or touch
    state it shares with other goroutines. Each such stretch is one function on the handler's record. */
module Reader {
  import opened Text
  import opened Types
  import opened Validation
  import opened IdleWatcher
  import Commands

  datatype ReaderState =
    | StateNull
    | Joining
    | Registration
    | Authentication
    | AcceptingMessages
    | CreatingChannel
    | SelectingChannel
    | ProcessingMenu
    | Disconnecting

  datatype Substate = SubstateNull | ReadingName | ReadingPassword | ReadingEmailAddress | ReadingChannelDesc

  datatype ConnectionState = Pending | Connected

  /** What the handler goes on with once the message loop has taken its system message. */
  datatype After =
    | ThenRead
    | ThenNothing
    | ThenEnter(state: ReaderState, substate: Substate)
    | ThenIdleOut
    | ThenChoose(op: int)
    | ThenAskChannelId
    | ThenMarkConnected
    | ThenGone

  /** Where a handler is: about to block on a channel or the network, or about to enter a lock region. */
  datatype HandlerPoint =
    | SendSys(to: string, after: After)
    | Reading
    | Line
    | CheckName
    | Register
    | Authenticate
    | ShowHistory
    | MarkConnected
    | CheckChannel
    | RegisterChannel
    | ListChannels
    | PickChannel(id: int)
    | ShowChannel
    | ShowNamed(channel: string)
    | AbortTimeout
    | StoreMessage
    | SendChat(msg: ChatMessage)
    | Cancel
    | Close
    | Remove
    | Gone

  datatype Handler = Handler(
    addr: string,
    at: HandlerPoint,
    state: ReaderState,
    substate: Substate,
    buffer: string,
    participant: Participant,
    channel: nat,             // index of the channel record the connection points at
    conn: ConnectionState,
    cancelled: bool,
    closed: bool,
    watchers: seq<Watcher>,
    stored: seq<ChatMessage>) // the messages this handler has stored, in its own order

  // What one network read delivers. A read that fails, or meets the end of the stream, delivers no bytes.
  datatype Input = Data(bytes: string) | EndOfStream | Failed

  // --------------------------------------------------------------------- small steps

  function UpdateState(h: Handler, state: ReaderState, substate: Substate): Handler {
    h.(state := state, substate := substate)
  }

  function Say(h: Handler, after: After): Handler {
    h.(at := SendSys(h.addr, after))
  }

  predicate AtMenu(state: ReaderState) {
    state == Joining || state == ProcessingMenu
  }

  // The top of the handler's loop: prompt with the options in the two menu states, then read.
  function LoopHead(h: Handler): Handler {
    if AtMenu(h.state) then Say(h, ThenRead) else h.(at := Reading)
  }

  // The bottom of the loop: leave when disconnecting, otherwise go round again.
  function FinishIteration(h: Handler): Handler {
    if h.state == Disconnecting then h.(at := Cancel) else LoopHead(h)
  }

  function NewHandler(addr: string, channel: nat): Handler {
    LoopHead(Handler(addr, Reading, Joining, SubstateNull, "", NoParticipant, channel, Pending, false, false, [], []))
  }

  function OnRead(h: Handler, input: Input): Handler {
    match input
    case Data(bytes) => h.(buffer := TrimWhitespaces(bytes), at := Line)
    case EndOfStream => UpdateState(h.(buffer := "", at := Line), Disconnecting, SubstateNull)
    case Failed =>
      if h.cancelled then Say(h.(buffer := ""), ThenIdleOut)
      else UpdateState(h.(buffer := "", cancelled := true, at := Line), Disconnecting, SubstateNull)
  }

  // ------------------------------------------------------------------------ commands

  // None when the line is not a command and goes on to the state's own callback.
  function ProcessCommand(h: Handler): Option<Handler> {
    if AtMenu(h.state) then None
    else
      var result := Commands.Parse(h.buffer);
      if result.error.Some? then Some(Say(h, ThenNothing))
      else if !result.matched then None
      else Some(
        match result.command
        case DisplayMenu => FinishIteration(UpdateState(h, ProcessingMenu, SubstateNull))
        case DisplayHistory => if h.conn == Connected then h.(at := ShowNamed(result.channel)) else Say(h, ThenNothing)
        case ListMembers => Say(h, ThenNothing)
        case ListChannels => Say(h, ThenNothing)
        case ListCommands => Say(h, ThenNothing)
        case _ => FinishIteration(h))
  }

  // ---------------------------------------------------------------------- the menu

  function Wrap64(n: int): int { (n + TWO63) % TWO64 - TWO63 }

  function ToInt8(n: int): int { (n + 128) % 256 - 128 }

  // The menu entry a line selects: the number minus one, in 64-bit arithmetic, cut to eight bits.
  function OptionOf(n: int): int { ToInt8(Wrap64(n - 1)) }

  // Menu entry k (of 0 to 6) is selected exactly by the 64-bit numerals congruent to k + 1 modulo 256; what
  // is no such numeral, including what is too large or too small for 64 bits, selects no entry.
  lemma MenuSelects(line: string, k: int)
    requires 0 <= k <= 6
    ensures OptionOf(Atoi(line).value) == k <==>
      IsNumeral(line) && InInt64(NumeralValue(line)) && (NumeralValue(line) - (k + 1)) % 256 == 0
  {
    AtoiExact(line);
    var number := Atoi(line);
    OptionResidue(number.value, k);
    if !number.ok {
      ClampsSelectNothing(number.value, k);
    }
  }

  lemma ClampsSelectNothing(n: int, k: int)
    requires n in {0, TWO63 - 1, -TWO63} && 0 <= k <= 6
    ensures (n - (k + 1)) % 256 != 0
  {
    if n == 0 {
      assert n - (k + 1) == 256 * -1 + (255 - k);
    } else if n == TWO63 - 1 {
      assert n - (k + 1) == 256 * (TWO63 / 256 - 1) + (254 - k);
    } else {
      assert n - (k + 1) == 256 * (-(TWO63 / 256) - 1) + (255 - k);
    }
  }

  lemma OptionResidue(n: int, k: int)
    requires InInt64(n) && 0 <= k <= 6
    ensures OptionOf(n) == k <==> (n - (k + 1)) % 256 == 0
  {
    var m := Wrap64(n - 1);
    assert m == n - 1 || m == n - 1 + TWO64;
    assert TWO64 % 256 == 0;
    assert m % 256 == (n - 1) % 256;
  }

  function Choose(h: Handler, op: int): Handler {
    if op == 0 then
      if h.state == Joining then Say(h, ThenEnter(Registration, ReadingName)) else Say(h, ThenNothing)
    else if op == 1 then
      if h.state == Joining then Say(h, ThenEnter(Authentication, ReadingName)) else Say(h, ThenNothing)
    else if op == 2 then
      if h.state != Joining then Say(h, ThenEnter(CreatingChannel, ReadingName)) else Say(h, ThenNothing)
    else if op == 3 then
      if h.conn == Connected then h.(at := ListChannels) else Say(h, ThenNothing)
    else if op == 4 then
      if h.conn == Connected then Say(h, ThenEnter(AcceptingMessages, SubstateNull)) else Say(h, ThenNothing)
    else if op == 6 then FinishIteration(UpdateState(h, Disconnecting, SubstateNull))
    else Say(h, ThenNothing)
  }

  function OnJoining(h: Handler): Outcome<Handler> {
    if !AtMenu(h.state) then Crash(InvalidState)
    else
      var number := Atoi(h.buffer);
      var op := OptionOf(number.value);
      Done(if number.ok then Choose(h, op) else Say(h, ThenChoose(op)))
  }

  // ------------------------------------------------------------ the other callbacks

  function Validate(h: Handler, record: Channel): Outcome<Handler> {
    if h.state != Registration && h.state != Authentication && h.state != CreatingChannel then Crash(InvalidState)
    else if h.state != CreatingChannel then
      if !ValidateName(h.participant.username) || !ValidatePassword(h.participant.password)
      then Done(Say(h, ThenEnter(Joining, SubstateNull)))
      else if h.state == Authentication then Done(h.(at := Authenticate))
      else if !ValidateEmail(h.participant.email) then Done(Say(h, ThenEnter(Joining, SubstateNull)))
      else Done(h.(at := CheckName))
    else if !ValidateName(record.name) then Done(Say(h, ThenEnter(ProcessingMenu, SubstateNull)))
    else Done(h.(at := CheckChannel))
  }

  function OnRegister(h: Handler, record: Channel): Outcome<Handler> {
    if h.state != Registration then Crash(InvalidState)
    else
      match h.substate
      case ReadingName =>
        Done(Say(h.(participant := h.participant.(username := h.buffer)), ThenEnter(h.state, ReadingEmailAddress)))
      case ReadingEmailAddress =>
        Done(Say(h.(participant := h.participant.(email := h.buffer)), ThenEnter(h.state, ReadingPassword)))
      case ReadingPassword =>
        Validate(h.(participant := h.participant.(password := h.buffer)), record)
      case _ => Done(FinishIteration(h))
  }

  // After the name the reader asks for the password but stays in ReadingName (pkg/session/reader.go:375).
  function OnAuthenticate(h: Handler, record: Channel): Outcome<Handler> {
    if h.state != Authentication then Crash(InvalidState)
    else
      match h.substate
      case ReadingName =>
        Done(Say(h.(participant := h.participant.(username := h.buffer)), ThenEnter(h.state, ReadingName)))
      case ReadingPassword =>
        Validate(h.(participant := h.participant.(password := h.buffer)), record)
      case _ => Done(FinishIteration(h))
  }

  /** The outcome of handling a line, with the connection's channel record after it. */
  datatype Turn = Turn(outcome: Outcome<Handler>, record: Channel)

  function OnCreateChannel(h: Handler, record: Channel): Turn {
    if h.state != CreatingChannel then Turn(Crash(InvalidState), record)
    else
      match h.substate
      case ReadingName =>
        Turn(Done(Say(h, ThenEnter(h.state, ReadingChannelDesc))), record.(name := h.buffer))
      case ReadingChannelDesc =>
        Turn(Validate(h, record.(desc := h.buffer)), record.(desc := h.buffer))
      case _ => Turn(Done(FinishIteration(h)), record)
  }

  function OnSelectChannel(h: Handler): Outcome<Handler> {
    if h.state != SelectingChannel then Crash(InvalidState)
    else
      var id := Atoi(h.buffer);
      Done(if id.ok then h.(at := PickChannel(id.value)) else Say(h, ThenEnter(ProcessingMenu, SubstateNull)))
  }

  function OnAcceptMessages(h: Handler): Outcome<Handler> {
    if h.state != AcceptingMessages then Crash(InvalidState) else Done(h.(at := AbortTimeout))
  }

  function Dispatch(h: Handler, record: Channel): Turn {
    match h.state
    case Joining => Turn(OnJoining(h), record)
    case ProcessingMenu => Turn(OnJoining(h), record)
    case Registration => Turn(OnRegister(h, record), record)
    case Authentication => Turn(OnAuthenticate(h, record), record)
    case CreatingChannel => OnCreateChannel(h, record)
    case SelectingChannel => Turn(OnSelectChannel(h), record)
    case AcceptingMessages => Turn(OnAcceptMessages(h), record)
    case _ => Turn(Done(FinishIteration(h)), record)
  }

  function OnLine(h: Handler, record: Channel): Turn {
    match ProcessCommand(h)
    case Some(h') => Turn(Done(h'), record)
    case None => Dispatch(h, record)
  }

  // The stretch after the message loop has taken the handler's system message.
  function Resume(h: Handler, after: After): Handler {
    match after
    case ThenRead => h.(at := Reading)
    case ThenNothing => FinishIteration(h)
    case ThenEnter(state, substate) => FinishIteration(UpdateState(h, state, substate))
    case ThenIdleOut => UpdateState(h.(at := Line), Disconnecting, SubstateNull)
    case ThenChoose(op) => Choose(h, op)
    case ThenAskChannelId => Say(h, ThenEnter(SelectingChannel, SubstateNull))
    case ThenMarkConnected => h.(at := MarkConnected)
    case ThenGone => h.(at := Gone)
  }

  // ------------------------------------------------------------ the handler's invariant

  // The sixteen combinations of state, substate and connection state.
  predicate Triple(state: ReaderState, substate: Substate, conn: ConnectionState) {
    match state
    case StateNull => false
    case Joining => substate == SubstateNull && conn == Pending
    case Registration =>
      (substate == ReadingName || substate == ReadingEmailAddress || substate == ReadingPassword) && conn == Pending
    case Authentication => substate == ReadingName && conn == Pending
    case AcceptingMessages => substate == SubstateNull
    case CreatingChannel => substate == ReadingName || substate == ReadingChannelDesc
    case SelectingChannel => substate == SubstateNull && conn == Connected
    case ProcessingMenu => substate == SubstateNull
    case Disconnecting => substate == SubstateNull
  }

  predicate Leaving(h: Handler) {
    h.state == Disconnecting
  }

  predicate Enrolling(h: Handler) {
    h.state == Registration && h.substate == ReadingPassword && h.conn == Pending
  }

  predicate ValidCredentials(p: Participant) {
    ValidateName(p.username) && ValidatePassword(p.password) && ValidateEmail(p.email)
  }

  predicate AfterOk(h: Handler, after: After) {
    match after
    case ThenRead => AtMenu(h.state)
    case ThenNothing => !Leaving(h)
    case ThenEnter(state, substate) => !Leaving(h) && state != Disconnecting && Triple(state, substate, h.conn)
    case ThenIdleOut => !Leaving(h) && h.cancelled && h.buffer == ""
    case ThenChoose(op) => AtMenu(h.state)
    case ThenAskChannelId => h.state == ProcessingMenu && h.conn == Connected
    case ThenMarkConnected => Enrolling(h)
    case ThenGone => Leaving(h) && h.cancelled && h.closed
  }

  predicate PointOk(h: Handler) {
    match h.at
    case SendSys(to, after) => AfterOk(h, after) && to == (if after.ThenGone? then "" else h.addr)
    case Reading => !Leaving(h)
    case Line => Leaving(h) ==> h.buffer == ""
    case CheckName => Enrolling(h) && ValidCredentials(h.participant)
    case Register => Enrolling(h)
    case Authenticate => false
    case ShowHistory => Enrolling(h)
    case MarkConnected => Enrolling(h)
    case CheckChannel => h.state == CreatingChannel && h.substate == ReadingChannelDesc
    case RegisterChannel => h.state == CreatingChannel && h.substate == ReadingChannelDesc
    case ListChannels => h.state == ProcessingMenu && h.conn == Connected
    case PickChannel(_) => h.state == SelectingChannel
    case ShowChannel => h.state == SelectingChannel
    case ShowNamed(_) => !Leaving(h) && h.conn == Connected
    case AbortTimeout => h.state == AcceptingMessages
    case StoreMessage => h.state == AcceptingMessages && h.conn == Connected
    case SendChat(_) => h.state == AcceptingMessages && h.conn == Connected
    case Cancel => Leaving(h)
    case Close => Leaving(h) && h.cancelled
    case Remove => Leaving(h) && h.cancelled && h.closed
    case Gone => Leaving(h) && h.cancelled && h.closed
  }

  // Past the account insertion.
  predicate Registered(h: Handler) {
    || h.conn == Connected
    || h.at == ShowHistory
    || h.at == MarkConnected
    || (h.at.SendSys? && h.at.after.ThenMarkConnected?)
  }

  // A watcher exists from just before the account insertion on.
  predicate Watched(h: Handler) {
    h.at == Register || Registered(h)
  }

  // In the connection map: not yet past the removal.
  predicate Live(h: Handler) {
    h.at != Gone && !(h.at.SendSys? && h.at.after.ThenGone?)
  }

  function Unsent(h: Handler): seq<ChatMessage> {
    if h.at.SendChat? then [h.at.msg] else []
  }

  predicate WatchersOk(h: Handler) {
    && |h.watchers| == (if Watched(h) then 1 else 0)
    && forall w :: 0 <= w < |h.watchers| ==> WatcherOk(h.watchers[w])
  }

  // What a watcher has done to the connection: past its closing point the network connection is closed, and one
  // that has returned leaves the context cancelled.
  predicate CutOff(h: Handler) {
    forall w :: 0 <= w < |h.watchers| ==>
      && (h.watchers[w].at == Cancelling ==> h.closed)
      && (h.watchers[w].at == Returned ==> h.cancelled && (TimedOut(h.watchers[w]) ==> h.closed))
  }

  predicate HandlerOk(h: Handler) {
    BodyOk(h) && PointOk(h)
  }

  predicate BodyOk(h: Handler) {
    && Triple(h.state, h.substate, h.conn)
    && WatchersOk(h)
    && CutOff(h)
    && (Watched(h) ==> ValidCredentials(h.participant))
    && (h.stored != [] ==> h.conn == Connected)
    && (forall k :: 0 <= k < |h.stored| ==>
          h.stored[k].sender == h.participant.username && h.stored[k].channel == "")
  }

  // The parts of a handler that the session's shared state refers to.
  predicate Unnoticed(h: Handler, h': Handler) {
    && h'.addr == h.addr
    && h'.stored == h.stored
    && Live(h') == Live(h)
    && Registered(h') == Registered(h)
    && (Registered(h) ==> h'.participant == h.participant)
    && Unsent(h') == Unsent(h)
  }

  // A move that touches nothing but the handler's own position, buffer and, before registration, its
  // participant record; cancelling and closing are never undone.
  predicate QuietMove(h: Handler, h': Handler) {
    && Unnoticed(h, h')
    && h'.channel == h.channel
    && h'.conn == h.conn
    && h'.watchers == h.watchers
    && (h.cancelled ==> h'.cancelled) && (h.closed ==> h'.closed)
  }

  predicate Moved(h: Handler, h': Handler) {
    HandlerOk(h') && QuietMove(h, h')
  }

  // A handler may go to any point that suits its state, and may meanwhile rewrite its participant record if
  // nobody watches over it.
  lemma MoveTo(h: Handler, h': Handler)
    requires BodyOk(h)
    requires h' == h.(at := h'.at, state := h'.state, substate := h'.substate, buffer := h'.buffer,
                      participant := h'.participant, cancelled := h'.cancelled, closed := h'.closed)
    requires Triple(h'.state, h'.substate, h.conn) && PointOk(h')
    requires Watched(h') == Watched(h) && Registered(h') == Registered(h)
    requires Watched(h) ==> h'.participant == h.participant
    requires Live(h') == Live(h) && Unsent(h') == Unsent(h)
    requires (h.cancelled ==> h'.cancelled) && (h.closed ==> h'.closed)
    ensures Moved(h, h')
  {
  }

  // Points that imply neither registration nor removal nor an unsent message.
  predicate Local(at: HandlerPoint) {
    || at == Line
    || at == CheckName
    || at == CheckChannel
    || at == RegisterChannel
    || at == ShowChannel
    || at == AbortTimeout
    || at == ListChannels
    || at == Cancel
    || at == Reading
    || at.PickChannel?
    || at.ShowNamed?
    || (at.SendSys? && !at.after.ThenMarkConnected? && !at.after.ThenGone?)
  }

  lemma GoTo(h: Handler, at: HandlerPoint)
    requires BodyOk(h) && Local(h.at) && Local(at) && PointOk(h.(at := at))
    ensures Moved(h, h.(at := at))
  {
    MoveTo(h, h.(at := at));
  }

  lemma SayMove(h: Handler, after: After)
    requires BodyOk(h) && Local(h.at) && AfterOk(h, after)
    requires !after.ThenMarkConnected? && !after.ThenGone?
    ensures Moved(h, Say(h, after))
  {
    GoTo(h, SendSys(h.addr, after));
  }

  lemma FinishPoint(h: Handler)
    ensures PointOk(FinishIteration(h)) && Local(FinishIteration(h).at)
    ensures FinishIteration(h) == h.(at := FinishIteration(h).at)
  {
  }

  lemma FinishMove(h: Handler)
    requires BodyOk(h) && Local(h.at)
    ensures Moved(h, FinishIteration(h))
  {
    FinishPoint(h);
    GoTo(h, FinishIteration(h).at);
  }

  lemma EnterMove(h: Handler, state: ReaderState, substate: Substate)
    requires BodyOk(h) && Local(h.at) && Triple(state, substate, h.conn)
    ensures Moved(h, FinishIteration(UpdateState(h, state, substate)))
  {
    var h1 := UpdateState(h, state, substate);
    FinishPoint(h1);
    MoveTo(h, FinishIteration(h1));
  }

  // Filling in the participant record while nobody watches over the handler.
  lemma FillIn(h: Handler, p: Participant, at: HandlerPoint)
    requires BodyOk(h) && Local(h.at) && Local(at) && h.conn == Pending
    requires PointOk(h.(participant := p, at := at))
    ensures Moved(h, h.(participant := p, at := at))
  {
    MoveTo(h, h.(participant := p, at := at));
  }

  lemma CommandMove(h: Handler)
    requires HandlerOk(h) && h.at == Line && ProcessCommand(h).Some?
    ensures Moved(h, ProcessCommand(h).value)
  {
    assert !Leaving(h) by {
      assert Commands.Parse("") == Commands.NO_COMMAND;
    }
    var result := Commands.Parse(h.buffer);
    if result.error.Some? {
      SayMove(h, ThenNothing);
    } else {
      match result.command
      case DisplayMenu => EnterMove(h, ProcessingMenu, SubstateNull);
      case DisplayHistory =>
        if h.conn == Connected {
          GoTo(h, ShowNamed(result.channel));
        } else {
          SayMove(h, ThenNothing);
        }
      case CommandNull => FinishMove(h);
      case CommandSentinel => FinishMove(h);
      case _ => SayMove(h, ThenNothing);
    }
  }

  lemma ChooseMove(h: Handler, op: int)
    requires BodyOk(h) && Local(h.at) && AtMenu(h.state)
    ensures Moved(h, Choose(h, op))
  {
    if op == 6 {
      EnterMove(h, Disconnecting, SubstateNull);
    } else if op == 0 && h.state == Joining {
      SayMove(h, ThenEnter(Registration, ReadingName));
    } else if op == 1 && h.state == Joining {
      SayMove(h, ThenEnter(Authentication, ReadingName));
    } else if op == 2 && h.state != Joining {
      SayMove(h, ThenEnter(CreatingChannel, ReadingName));
    } else if op == 3 && h.conn == Connected {
      GoTo(h, ListChannels);
    } else if op == 4 && h.conn == Connected {
      SayMove(h, ThenEnter(AcceptingMessages, SubstateNull));
    } else {
      SayMove(h, ThenNothing);
    }
  }

  lemma ValidateMove(h: Handler, p: Participant, record: Channel)
    requires BodyOk(h) && h.at == Line && Enrolling(h)
    ensures var o := Validate(h.(participant := p), record); o.Done? && Moved(h, o.value)
  {
    FillIn(h, p, SendSys(h.addr, ThenEnter(Joining, SubstateNull)));
    if ValidCredentials(p) {
      FillIn(h, p, CheckName);
    }
  }

  lemma RegisterMove(h: Handler, record: Channel)
    requires BodyOk(h) && h.at == Line && h.state == Registration
    ensures OnRegister(h, record).Done? && Moved(h, OnRegister(h, record).value)
  {
    match h.substate
    case ReadingName =>
      FillIn(h, h.participant.(username := h.buffer), SendSys(h.addr, ThenEnter(h.state, ReadingEmailAddress)));
    case ReadingEmailAddress =>
      FillIn(h, h.participant.(email := h.buffer), SendSys(h.addr, ThenEnter(h.state, ReadingPassword)));
    case ReadingPassword =>
      ValidateMove(h, h.participant.(password := h.buffer), record);
  }

  lemma CreateChannelMove(h: Handler, record: Channel)
    requires BodyOk(h) && h.at == Line && h.state == CreatingChannel
    ensures var o := OnCreateChannel(h, record).outcome; o.Done? && Moved(h, o.value)
  {
    match h.substate
    case ReadingName => SayMove(h, ThenEnter(h.state, ReadingChannelDesc));
    case ReadingChannelDesc =>
      SayMove(h, ThenEnter(ProcessingMenu, SubstateNull));
      GoTo(h, CheckChannel);
  }

  lemma SelectChannelMove(h: Handler)
    requires BodyOk(h) && h.at == Line && h.state == SelectingChannel
    ensures OnSelectChannel(h).Done? && Moved(h, OnSelectChannel(h).value)
  {
    SayMove(h, ThenEnter(ProcessingMenu, SubstateNull));
    GoTo(h, PickChannel(Atoi(h.buffer).value));
  }

  lemma DispatchMove(h: Handler, record: Channel)
    requires HandlerOk(h) && h.at == Line
    ensures var o := Dispatch(h, record).outcome; o.Done? && Moved(h, o.value)
  {
    match h.state
    case Joining => ChooseLineMove(h);
    case ProcessingMenu => ChooseLineMove(h);
    case Registration => RegisterMove(h, record);
    case CreatingChannel => CreateChannelMove(h, record);
    case Disconnecting => FinishMove(h);
    case Authentication =>
      FillIn(h, h.participant.(username := h.buffer), SendSys(h.addr, ThenEnter(h.state, ReadingName)));
    case SelectingChannel => SelectChannelMove(h);
    case AcceptingMessages => GoTo(h, AbortTimeout);
  }

  lemma ChooseLineMove(h: Handler)
    requires HandlerOk(h) && h.at == Line && AtMenu(h.state)
    ensures OnJoining(h).Done? && Moved(h, OnJoining(h).value)
  {
    ChooseMove(h, OptionOf(Atoi(h.buffer).value));
    SayMove(h, ThenChoose(OptionOf(Atoi(h.buffer).value)));
  }

  // Whatever the line, no callback meets a state it does not expect, and the invariant is kept.
  lemma LineMove(h: Handler, record: Channel)
    requires HandlerOk(h) && h.at == Line
    ensures var o := OnLine(h, record).outcome; o.Done? && Moved(h, o.value)
  {
    if ProcessCommand(h).Some? {
      CommandMove(h);
    } else {
      DispatchMove(h, record);
    }
  }

  lemma ReadMove(h: Handler, input: Input)
    requires HandlerOk(h) && h.at == Reading
    ensures Moved(h, OnRead(h, input))
  {
    match input
    case Data(bytes) => MoveTo(h, OnRead(h, input));
    case EndOfStream => MoveTo(h, OnRead(h, input));
    case Failed => MoveTo(h, OnRead(h, input));
  }

  lemma ResumeMove(h: Handler)
    requires HandlerOk(h) && h.at.SendSys?
    ensures Moved(h, Resume(h, h.at.after))
  {
    match h.at.after
    case ThenRead => GoTo(h, Reading);
    case ThenNothing => FinishMove(h);
    case ThenEnter(state, substate) => EnterMove(h, state, substate);
    case ThenIdleOut => MoveTo(h, Resume(h, h.at.after));
    case ThenChoose(op) => ChooseMove(h, op);
    case ThenAskChannelId => SayMove(h, ThenEnter(SelectingChannel, SubstateNull));
    case ThenMarkConnected => MoveTo(h, Resume(h, h.at.after));
    case ThenGone => MoveTo(h, Resume(h, h.at.after));
  }

  // ------------------------------------------------- moves at the points shared with others

  // A change of place only, between points that are not both local.
  lemma Step(h: Handler, h': Handler)
    requires BodyOk(h)
    requires h' == h.(at := h'.at, cancelled := h'.cancelled, closed := h'.closed)
    requires (h.cancelled ==> h'.cancelled) && (h.closed ==> h'.closed)
    requires PointOk(h') && Watched(h') == Watched(h)
    ensures HandlerOk(h')
  {
  }

  lemma NewHandlerOk(addr: string, channel: nat)
    ensures HandlerOk(NewHandler(addr, channel)) && Live(NewHandler(addr, channel))
    ensures !Registered(NewHandler(addr, channel)) && NewHandler(addr, channel).addr == addr
    ensures NewHandler(addr, channel).stored == [] && Unsent(NewHandler(addr, channel)) == []
  {
  }

  lemma RegisteredMove(h: Handler)
    requires HandlerOk(h) && h.at == Register
    ensures HandlerOk(h.(at := ShowHistory))
  {
    Step(h, h.(at := ShowHistory));
  }

  lemma MarkedMove(h: Handler)
    requires HandlerOk(h) && h.at == MarkConnected
    ensures var h' := FinishIteration(UpdateState(h.(conn := Connected), AcceptingMessages, SubstateNull));
      HandlerOk(h') && Unnoticed(h, h') && h' == h.(conn := Connected, state := AcceptingMessages, substate := SubstateNull, at := Reading)
  {
    var h1 := h.(conn := Connected, state := AcceptingMessages, substate := SubstateNull, at := Reading);
    assert BodyOk(h1);
  }

  lemma StoredMove(h: Handler, m: ChatMessage)
    requires HandlerOk(h) && h.at == StoreMessage && m.sender == h.participant.username && m.channel == ""
    ensures HandlerOk(h.(at := SendChat(m), stored := h.stored + [m]))
  {
    Step(h, h.(at := SendChat(m)));
  }

  lemma SentMove(h: Handler)
    requires HandlerOk(h) && h.at.SendChat?
    ensures FinishIteration(h) == h.(at := Reading) && HandlerOk(FinishIteration(h))
  {
    Step(h, h.(at := Reading));
  }

  lemma CancelMove(h: Handler)
    requires HandlerOk(h) && h.at == Cancel
    ensures Moved(h, h.(cancelled := true, at := Close))
  {
    MoveTo(h, h.(cancelled := true, at := Close));
  }

  lemma CloseMove(h: Handler)
    requires HandlerOk(h) && h.at == Close
    ensures Moved(h, h.(closed := true, at := Remove))
  {
    MoveTo(h, h.(closed := true, at := Remove));
  }

  lemma RemoveMove(h: Handler)
    requires HandlerOk(h) && h.at == Remove
    ensures HandlerOk(h.(at := SendSys("", ThenGone)))
  {
    Step(h, h.(at := SendSys("", ThenGone)));
  }

  lemma PickMove(h: Handler, channel: nat)
    requires HandlerOk(h) && h.at.PickChannel?
    ensures var h' := h.(channel := channel, at := ShowChannel); HandlerOk(h') && Unnoticed(h, h')
  {
    GoTo(h, ShowChannel);
    var h1 := h.(at := ShowChannel);
    assert HandlerOk(h1.(channel := channel));
  }

  lemma WatchersChange(h: Handler, h': Handler)
    requires HandlerOk(h)
    requires h' == h.(watchers := h'.watchers, cancelled := h'.cancelled, closed := h'.closed)
    requires (h.cancelled ==> h'.cancelled) && (h.closed ==> h'.closed)
    requires WatchersOk(h') && CutOff(h')
    ensures HandlerOk(h') && Unnoticed(h, h')
  {
  }
}
