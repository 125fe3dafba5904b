/** The colon commands typed into a chat line: the parser, what it accepts, and the print/parse round trip. */
module Commands {
  import opened Text

  datatype CommandType =
    | CommandNull
    | DisplayMenu
    | DisplayHistory
    | ListMembers
    | ListChannels
    | ListCommands
    | CommandSentinel

  datatype ParseError =
    | UnexpectedArgument(word: string)
    | ArgumentNotSpecified
    | InvalidValue(word: string)
    | UnrecognizedArgument(word: string)

  datatype ParseResult = ParseResult(
    command: CommandType,
    channel: string,
    period: nat,
    error: Option<ParseError>,
    matched: bool)

  datatype Command = Command(kind: CommandType, name: string, options: seq<string>)

  const CHANNEL := "-channel"
  const PERIOD := "-period"

  const COMMANDS: seq<Command> := [
    Command(DisplayMenu, ":menu", []),
    Command(DisplayHistory, ":history", [CHANNEL, PERIOD]),
    Command(ListMembers, ":members", [CHANNEL]),
    Command(ListChannels, ":channels", []),
    Command(ListCommands, ":commands", [])
  ]

  const NO_COMMAND := ParseResult(CommandSentinel, "", 0, None, false)

  // ---------------------------------------------------------------- specification

  function LookupFrom(word: string, c: nat): Option<Command>
    requires c <= |COMMANDS|
    decreases |COMMANDS| - c
  {
    if c == |COMMANDS| then None
    else if ToLower(word) == COMMANDS[c].name then Some(COMMANDS[c])
    else LookupFrom(word, c + 1)
  }

  function Lookup(word: string): Option<Command> {
    LookupFrom(word, 0)
  }

  predicate GoodPeriod(word: string) {
    Atoi(word).ok && Atoi(word).value >= 0
  }

  // Words after the command come in pairs; pair k is words 2k+1 (an option) and 2k+2 (its value).
  predicate HasPair(args: seq<string>, k: nat) {
    2 * k + 1 < |args|
  }

  // The complaint pair k raises, if any. Only the very first pair is required to name an option.
  function Fault(args: seq<string>, options: seq<string>, k: nat): Option<ParseError>
    requires HasPair(args, k)
  {
    var word := args[2 * k + 1];
    if k >= |options| then Some(UnexpectedArgument(word))
    else if 2 * k + 2 == |args| then Some(ArgumentNotSpecified)
    else if word in options && word == PERIOD && !GoodPeriod(args[2 * k + 2]) then
      Some(InvalidValue(args[2 * k + 2]))
    else if k == 0 && word !in options then Some(UnrecognizedArgument(word))
    else None
  }

  // The first pair at or after k that complains, or the number of pairs when none does.
  function FirstFault(args: seq<string>, options: seq<string>, k: nat): (j: nat)
    ensures k <= j
    ensures 2 * k < |args| ==> 2 * j < |args|
    ensures HasPair(args, j) ==> Fault(args, options, j).Some?
    ensures forall i: nat {:trigger HasPair(args, i)} {:trigger Fault(args, options, i)} :: k <= i < j ==>
      HasPair(args, i) && Fault(args, options, i).None?
    decreases |args| - 2 * k
  {
    if HasPair(args, k) && Fault(args, options, k).None? then FirstFault(args, options, k + 1) else k
  }

  // The value given with the last of the first k pairs that name the option.
  function LastValue(args: seq<string>, options: seq<string>, name: string, k: nat): Option<string>
    requires 2 * k < |args|
  {
    if k == 0 then None
    else if args[2 * k - 1] == name && name in options then Some(args[2 * k])
    else LastValue(args, options, name, k - 1)
  }

  function LastChannel(args: seq<string>, options: seq<string>, k: nat): string
    requires 2 * k < |args|
  {
    match LastValue(args, options, CHANNEL, k)
    case Some(w) => w
    case None => ""
  }

  function LastPeriod(args: seq<string>, options: seq<string>, k: nat): nat
    requires 2 * k < |args|
  {
    match LastValue(args, options, PERIOD, k)
    case Some(w) => if Atoi(w).value >= 0 then Atoi(w).value else 0
    case None => 0
  }

  function Interpret(args: seq<string>, cmd: Command): ParseResult
    requires |args| >= 1
  {
    var j := FirstFault(args, cmd.options, 0);
    ParseResult(
      cmd.kind,
      LastChannel(args, cmd.options, j),
      LastPeriod(args, cmd.options, j),
      if HasPair(args, j) then Fault(args, cmd.options, j) else None,
      HasPair(args, j) ==> j > 0)
  }

  predicate IsCommandLine(line: string) {
    line != "" && line[0] == ':'
  }

  function Parse(line: string): ParseResult {
    if !IsCommandLine(line) then NO_COMMAND
    else
      match Lookup(Split(line, ' ')[0])
      case None => NO_COMMAND
      case Some(cmd) => Interpret(Split(line, ' '), cmd)
  }

  // ------------------------------------------------------------------- the parser

  predicate KnownOptions(options: seq<string>) {
    forall o :: 0 <= o < |options| ==> options[o] == CHANNEL || options[o] == PERIOD
  }

  method ParseCommand(buffer: string) returns (result: ParseResult)
    ensures result == Parse(buffer)
  {
    result := NO_COMMAND;
    if IsCommandLine(buffer) {
      var arguments := Split(buffer, ' ');
      for c := 0 to |COMMANDS|
        invariant Lookup(arguments[0]) == LookupFrom(arguments[0], c)
        invariant result == NO_COMMAND
      {
        if ToLower(arguments[0]) == COMMANDS[c].name {
          result := ParseOptions(arguments, COMMANDS[c]);
          return;
        }
      }
    }
  }

  // What one option and its value do to the result so far.
  function Applied(options: seq<string>, word: string, value: string, result: ParseResult): ParseResult {
    if word !in options then result
    else if word == CHANNEL then result.(channel := value, matched := true)
    else if !GoodPeriod(value) then result.(error := Some(InvalidValue(value)))
    else result.(period := Atoi(value).value, matched := true)
  }

  method ApplyOption(options: seq<string>, word: string, value: string, before: ParseResult)
    returns (result: ParseResult)
    requires KnownOptions(options)
    ensures result == Applied(options, word, value, before)
  {
    result := before;
    for o := 0 to |options|
      invariant word !in options[..o]
      invariant result == before
    {
      if word == options[o] {
        if options[o] == CHANNEL {
          result := result.(channel := value, matched := true);
          break;
        } else if options[o] == PERIOD {
          var count := Atoi(value);
          if !count.ok || count.value < 0 {
            result := result.(error := Some(InvalidValue(value)));
            return;
          }
          result := result.(period := count.value, matched := true);
          break;
        }
      }
    }
  }

  // A pair that raises no complaint goes into the result, and the search for the first fault passes it.
  lemma AppliedOnce(args: seq<string>, cmd: Command, k: nat)
    requires KnownOptions(cmd.options) && k < |cmd.options| && 2 * k + 2 < |args|
    ensures
      var before := ParseResult(cmd.kind, LastChannel(args, cmd.options, k), LastPeriod(args, cmd.options, k), None, k > 0);
      var after := Applied(cmd.options, args[2 * k + 1], args[2 * k + 2], before);
      if after.error.Some? then Fault(args, cmd.options, k) == after.error && after == before.(error := after.error)
      else if !after.matched then
        Fault(args, cmd.options, k) == Some(UnrecognizedArgument(args[2 * k + 1])) && after == before
      else
        && Fault(args, cmd.options, k).None?
        && after == ParseResult(cmd.kind, LastChannel(args, cmd.options, k + 1),
                                LastPeriod(args, cmd.options, k + 1), None, true)
  {
    assert HasPair(args, k);
    assert args[2 * (k + 1) - 1] == args[2 * k + 1] && args[2 * (k + 1)] == args[2 * k + 2];
  }

  // The body of the command loop once the name has matched.
  method ParseOptions(arguments: seq<string>, cmd: Command) returns (result: ParseResult)
    requires |arguments| >= 1 && KnownOptions(cmd.options)
    ensures result == Interpret(arguments, cmd)
  {
    result := NO_COMMAND.(command := cmd.kind);
    var optionIndex, i := 0, 1;
    while i < |arguments|
      invariant i == 2 * optionIndex + 1 && 2 * optionIndex < |arguments| + 1
      invariant 2 * optionIndex < |arguments|
      invariant FirstFault(arguments, cmd.options, 0) == FirstFault(arguments, cmd.options, optionIndex)
      invariant result == ParseResult(cmd.kind, LastChannel(arguments, cmd.options, optionIndex),
                                      LastPeriod(arguments, cmd.options, optionIndex), None, optionIndex > 0)
      decreases |arguments| - i
    {
      assert HasPair(arguments, optionIndex);
      if optionIndex >= |cmd.options| {
        result := result.(error := Some(UnexpectedArgument(arguments[i])));
        return;
      }
      if i == |arguments| - 1 {
        result := result.(error := Some(ArgumentNotSpecified));
        return;
      }
      AppliedOnce(arguments, cmd, optionIndex);
      result := ApplyOption(cmd.options, arguments[i], arguments[i + 1], result);
      if result.error.Some? {
        return;
      }
      if !result.matched {
        result := result.(error := Some(UnrecognizedArgument(arguments[i])));
        return;
      }
      optionIndex := optionIndex + 1;
      i := i + 2;
    }
    result := result.(matched := true);
  }

  // --------------------------------------------------------------- what is accepted

  lemma {:induction false} ParseOfCommand(line: string, cmd: Command)
    requires IsCommandLine(line) && Lookup(Split(line, ' ')[0]) == Some(cmd)
    ensures Parse(line) == Interpret(Split(line, ' '), cmd)
  {
  }

  ghost predicate NoFault(args: seq<string>, options: seq<string>) {
    forall k: nat :: HasPair(args, k) ==> Fault(args, options, k).None?
  }

  lemma {:induction false} FaultFreeOrFirst(args: seq<string>, options: seq<string>)
    ensures NoFault(args, options) <==> !HasPair(args, FirstFault(args, options, 0))
  {
    var j := FirstFault(args, options, 0);
    forall k: nat | !HasPair(args, j) && HasPair(args, k) ensures Fault(args, options, k).None? {
      assert k < j;
    }
  }

  lemma NoFaultExactly(args: seq<string>, options: seq<string>)
    requires |args| >= 1
    ensures NoFault(args, options) <==>
      && |args| % 2 == 1
      && |args| <= 2 * |options| + 1
      && (|args| > 1 ==> args[1] in options)
      && (PERIOD in options ==>
            forall k: nat :: HasPair(args, k) && args[2 * k + 1] == PERIOD && 2 * k + 2 < |args| ==>
              GoodPeriod(args[2 * k + 2]))
  {
    if NoFault(args, options) && |args| > 1 {
      var last := (|args| - 2) / 2;
      assert HasPair(args, 0) && HasPair(args, last);
      assert Fault(args, options, 0).None? && Fault(args, options, last).None?;
      forall k: nat | HasPair(args, k) && args[2 * k + 1] == PERIOD && 2 * k + 2 < |args| && PERIOD in options
        ensures GoodPeriod(args[2 * k + 2])
      {
        assert Fault(args, options, k).None?;
      }
    }
  }

  // A command is accepted exactly when its words pair up, there are no more pairs than options, the first
  // pair names an option, and every recognised -period carries a non-negative 64-bit numeral. Later pairs
  // may carry any word at all, because the match flag of the first pair is never cleared.
  lemma {:induction false} AcceptedExactly(line: string, cmd: Command)
    requires IsCommandLine(line) && Lookup(Split(line, ' ')[0]) == Some(cmd)
    ensures var args := Split(line, ' ');
      Parse(line).error.None? <==>
        && |args| % 2 == 1
        && |args| <= 2 * |cmd.options| + 1
        && (|args| > 1 ==> args[1] in cmd.options)
        && (PERIOD in cmd.options ==>
              forall k: nat :: HasPair(args, k) && args[2 * k + 1] == PERIOD && 2 * k + 2 < |args| ==>
                IsNumeral(args[2 * k + 2]) && 0 <= NumeralValue(args[2 * k + 2]) < TWO63)
  {
    var args := Split(line, ' ');
    ParseOfCommand(line, cmd);
    FaultFreeOrFirst(args, cmd.options);
    NoFaultExactly(args, cmd.options);
    forall k: nat | HasPair(args, k) && 2 * k + 2 < |args|
      ensures GoodPeriod(args[2 * k + 2]) <==>
        IsNumeral(args[2 * k + 2]) && 0 <= NumeralValue(args[2 * k + 2]) < TWO63
    {
      AtoiExact(args[2 * k + 2]);
    }
  }

  // The error reported is the complaint of the earliest pair that has one, and values from the pairs before
  // it have already been taken, the last one for each option.
  lemma {:induction false} EarliestComplaint(line: string, cmd: Command, k: nat)
    requires IsCommandLine(line) && Lookup(Split(line, ' ')[0]) == Some(cmd)
    requires HasPair(Split(line, ' '), k) && Fault(Split(line, ' '), cmd.options, k).Some?
    requires forall i: nat :: i < k ==>
      HasPair(Split(line, ' '), i) && Fault(Split(line, ' '), cmd.options, i).None?
    ensures Parse(line).error == Fault(Split(line, ' '), cmd.options, k)
    ensures Parse(line).matched <==> k > 0
    ensures Parse(line).channel == LastChannel(Split(line, ' '), cmd.options, k)
    ensures Parse(line).period == LastPeriod(Split(line, ' '), cmd.options, k)
  {
    ParseOfCommand(line, cmd);
    assert FirstFault(Split(line, ' '), cmd.options, 0) == k;
  }

  // ------------------------------------------------- every answer, from the words of the line alone

  // The five commands and the options each allows. No other word is a command.
  lemma TheCommands(word: string)
    ensures Lookup(word) ==
      match ToLower(word)
        case ":menu" => Some(Command(DisplayMenu, ":menu", []))
        case ":history" => Some(Command(DisplayHistory, ":history", ["-channel", "-period"]))
        case ":members" => Some(Command(ListMembers, ":members", ["-channel"]))
        case ":channels" => Some(Command(ListChannels, ":channels", []))
        case ":commands" => Some(Command(ListCommands, ":commands", []))
        case _ => None
  {
  }

  predicate NonNegativeInt64(word: string) {
    IsNumeral(word) && 0 <= NumeralValue(word) < 0x8000_0000_0000_0000
  }

  // What can be wrong with the pair of words 2k+1 and 2k+2.
  predicate Wrong(args: seq<string>, options: seq<string>, k: nat)
    requires 2 * k + 1 < |args|
  {
    var word := args[2 * k + 1];
    || |options| <= k
    || |args| == 2 * k + 2
    || (word == "-period" && word in options && !NonNegativeInt64(args[2 * k + 2]))
    || (k == 0 && word !in options)
  }

  predicate FirstWrong(args: seq<string>, options: seq<string>, k: nat) {
    && 2 * k + 1 < |args| && Wrong(args, options, k)
    && forall j: nat {:trigger Wrong(args, options, j)} :: j < k ==> !Wrong(args, options, j)
  }

  lemma WrongIsFault(args: seq<string>, options: seq<string>, k: nat)
    requires 2 * k + 1 < |args|
    ensures Wrong(args, options, k) <==> Fault(args, options, k).Some?
  {
    if 2 * k + 2 < |args| {
      AtoiExact(args[2 * k + 2]);
    }
  }

  // What is reported of the first pair that is wrong: first that there are too many options, value or no value,
  // then that the value is missing, then that the period is bad, and of the very first pair that it is unknown.
  lemma {:induction false} ErrorsExactly(line: string, cmd: Command, k: nat)
    requires IsCommandLine(line) && Lookup(Split(line, ' ')[0]) == Some(cmd)
    requires FirstWrong(Split(line, ' '), cmd.options, k)
    ensures
      var args, error := Split(line, ' '), Parse(line).error;
      var word, room, given := args[2 * k + 1], k < |cmd.options|, 2 * k + 2 < |args|;
      && error.Some?
      && (error == Some(UnexpectedArgument(word)) <==> !room)
      && (error == Some(ArgumentNotSpecified) <==> room && !given)
      && (error.value.InvalidValue? <==>
            room && given && word == "-period" && word in cmd.options && !NonNegativeInt64(args[2 * k + 2]))
      && (error.value.InvalidValue? ==> error.value.word == args[2 * k + 2])
      && (error == Some(UnrecognizedArgument(word)) <==> k == 0 && room && given && word !in cmd.options)
  {
    var args := Split(line, ' ');
    WrongIsFault(args, cmd.options, k);
    forall i: nat | i < k ensures HasPair(args, i) && Fault(args, cmd.options, i).None? {
      WrongIsFault(args, cmd.options, i);
    }
    EarliestComplaint(line, cmd, k);
    if 2 * k + 2 < |args| {
      AtoiExact(args[2 * k + 2]);
    }
  }

  // There is no error exactly when no pair is wrong, and otherwise some pair is the first wrong one.
  lemma {:induction false} ErrorOrNone(line: string, cmd: Command) returns (k: nat)
    requires IsCommandLine(line) && Lookup(Split(line, ' ')[0]) == Some(cmd)
    ensures Parse(line).error.None? ==>
      forall j: nat {:trigger Wrong(Split(line, ' '), cmd.options, j)} ::
        2 * j + 1 < |Split(line, ' ')| ==> !Wrong(Split(line, ' '), cmd.options, j)
    ensures Parse(line).error.Some? ==> FirstWrong(Split(line, ' '), cmd.options, k)
  {
    var args := Split(line, ' ');
    ParseOfCommand(line, cmd);
    k := FirstFault(args, cmd.options, 0);
    forall j: nat | 2 * j + 1 < |args| ensures Wrong(args, cmd.options, j) <==> Fault(args, cmd.options, j).Some? {
      WrongIsFault(args, cmd.options, j);
    }
    assert forall j: nat :: j < k ==> HasPair(args, j) && !Wrong(args, cmd.options, j);
    if Parse(line).error.None? {
      FaultFreeOrFirst(args, cmd.options);
      forall j: nat | 2 * j + 1 < |args| ensures !Wrong(args, cmd.options, j) {
        assert HasPair(args, j);
      }
    }
  }

  // A pair before the first wrong one that gives this option a value.
  predicate Gives(args: seq<string>, options: seq<string>, name: string, k: nat) {
    && 2 * k + 2 < |args| && args[2 * k + 1] == name && name in options
    && forall j: nat {:trigger Wrong(args, options, j)} :: j <= k ==> !Wrong(args, options, j)
  }

  predicate GivesLast(args: seq<string>, options: seq<string>, name: string, k: nat, n: nat) {
    Gives(args, options, name, k) && forall j :: k < j < n ==> !Gives(args, options, name, j)
  }

  lemma {:induction false} LastValueExactly(args: seq<string>, options: seq<string>, name: string, n: nat)
    requires 2 * n < |args|
    requires forall j: nat :: j < n ==> !Wrong(args, options, j)
    ensures (exists k :: 0 <= k < n && Gives(args, options, name, k)) <==> LastValue(args, options, name, n).Some?
    ensures forall k :: 0 <= k < n && GivesLast(args, options, name, k, n) ==>
      LastValue(args, options, name, n) == Some(args[2 * k + 2])
  {
    if n > 0 {
      LastValueExactly(args, options, name, n - 1);
      assert Gives(args, options, name, n - 1) <==> args[2 * n - 1] == name && name in options;
      forall k | 0 <= k < n && GivesLast(args, options, name, k, n)
        ensures LastValue(args, options, name, n) == Some(args[2 * k + 2])
      {
        if k < n - 1 {
          assert GivesLast(args, options, name, k, n - 1);
          assert !Gives(args, options, name, n - 1);
        }
      }
    }
  }

  // With or without an error, each option ends up with the value given last before the first wrong pair.
  lemma {:induction false} ValuesExactly(line: string, cmd: Command, name: string, k: nat)
    requires IsCommandLine(line) && Lookup(Split(line, ' ')[0]) == Some(cmd)
    requires Gives(Split(line, ' '), cmd.options, name, k)
    requires forall j: nat :: k < j ==> !Gives(Split(line, ' '), cmd.options, name, j)
    ensures name == "-channel" ==> Parse(line).channel == Split(line, ' ')[2 * k + 2]
    ensures name == "-period" ==>
      (NonNegativeInt64(Split(line, ' ')[2 * k + 2]) && Parse(line).period == NumeralValue(Split(line, ' ')[2 * k + 2]))
  {
    var args := Split(line, ' ');
    var n := FirstFault(args, cmd.options, 0);
    ParseOfCommand(line, cmd);
    forall j: nat | 2 * j + 1 < |args| ensures Wrong(args, cmd.options, j) <==> Fault(args, cmd.options, j).Some? {
      WrongIsFault(args, cmd.options, j);
    }
    assert forall j: nat :: j < n ==> HasPair(args, j) && !Wrong(args, cmd.options, j);
    LastValueExactly(args, cmd.options, name, n);
    assert GivesLast(args, cmd.options, name, k, n);
    AtoiExact(args[2 * k + 2]);
    assert !Wrong(args, cmd.options, k);
  }

  // No value is made up.
  lemma {:induction false} NoValueExactly(line: string, cmd: Command)
    requires IsCommandLine(line) && Lookup(Split(line, ' ')[0]) == Some(cmd)
    ensures (forall k: nat :: !Gives(Split(line, ' '), cmd.options, "-channel", k)) ==> Parse(line).channel == ""
    ensures (forall k: nat :: !Gives(Split(line, ' '), cmd.options, "-period", k)) ==> Parse(line).period == 0
    ensures Parse(line).command == cmd.kind
  {
    var args := Split(line, ' ');
    var n := FirstFault(args, cmd.options, 0);
    ParseOfCommand(line, cmd);
    forall j: nat | j < n ensures HasPair(args, j) && !Wrong(args, cmd.options, j) {
      WrongIsFault(args, cmd.options, j);
    }
    LastValueExactly(args, cmd.options, "-channel", n);
    LastValueExactly(args, cmd.options, "-period", n);
  }

  // Not a command: no colon in front, or a first word that is none of the five in any letter case.
  predicate PlainText(line: string) {
    line == "" || line[0] != ':' ||
    ToLower(Split(line, ' ')[0]) !in [":menu", ":history", ":members", ":channels", ":commands"]
  }

  lemma PlainTextExactly(line: string)
    ensures PlainText(line) <==> Parse(line).error.None? && !Parse(line).matched
  {
    if IsCommandLine(line) {
      TheCommands(Split(line, ' ')[0]);
      if cmd :| Lookup(Split(line, ' ')[0]) == Some(cmd) {
        ParseOfCommand(line, cmd);
      }
    }
  }

  // ------------------------------------------------------------ print/parse round trip

  datatype Setting = Channel(name: string) | Period(count: nat)

  function OptionName(s: Setting): string {
    match s
    case Channel(_) => CHANNEL
    case Period(_) => PERIOD
  }

  function OptionValue(s: Setting): string {
    match s
    case Channel(name) => name
    case Period(count) => Decimal(count)
  }

  function Words(settings: seq<Setting>): (words: seq<string>)
    ensures |words| == 2 * |settings|
    ensures forall k :: 0 <= k < |settings| ==>
      words[2 * k] == OptionName(settings[k]) && words[2 * k + 1] == OptionValue(settings[k])
  {
    if settings == [] then []
    else
      var last := settings[|settings| - 1];
      Words(settings[..|settings| - 1]) + [OptionName(last), OptionValue(last)]
  }

  function Print(typed: string, settings: seq<Setting>): string {
    Join([typed] + Words(settings), ' ')
  }

  // A channel value must survive splitting and trimming; a period must be a non-negative int64.
  predicate Printable(cmd: Command, settings: seq<Setting>) {
    && |settings| <= |cmd.options|
    && forall k :: 0 <= k < |settings| ==>
         && OptionName(settings[k]) in cmd.options
         && (settings[k].Channel? ==> settings[k].name != "" && NoBlanks(settings[k].name))
         && (settings[k].Period? ==> settings[k].count < TWO63)
  }

  predicate NoBlanks(s: string) {
    forall i :: 0 <= i < |s| ==> !Blank(s[i])
  }

  function ChannelOf(settings: seq<Setting>): string {
    if settings == [] then ""
    else
      var last := settings[|settings| - 1];
      if last.Channel? then last.name else ChannelOf(settings[..|settings| - 1])
  }

  function PeriodOf(settings: seq<Setting>): nat {
    if settings == [] then 0
    else
      var last := settings[|settings| - 1];
      if last.Period? then last.count else PeriodOf(settings[..|settings| - 1])
  }

  lemma PrintedWordsAreClean(w: string, s: Setting)
    requires w == OptionName(s) || w == OptionValue(s)
    requires s.Channel? ==> s.name != "" && NoBlanks(s.name)
    ensures w != "" && NoBlanks(w)
  {
    if s.Period? {
      DecimalMeaning(s.count);
      assert forall i :: 0 <= i < |Decimal(s.count)| ==> IsDigit(Decimal(s.count)[i]);
    }
  }

  lemma {:induction false} JoinedEdges(words: seq<string>)
    requires |words| >= 1
    requires forall k :: 0 <= k < |words| ==> words[k] != "" && NoBlanks(words[k])
    ensures Join(words, ' ') != "" && CleanEdges(Join(words, ' '))
    ensures Join(words, ' ')[0] == words[0][0]
  {
    if |words| > 1 {
      JoinedEdges(words[1..]);
      var s, tail := Join(words, ' '), Join(words[1..], ' ');
      assert s[|s| - 1] == tail[|tail| - 1];
    }
  }

  // The command line's words: the command itself, then the settings.
  predicate Spells(args: seq<string>, settings: seq<Setting>) {
    && |args| == 1 + 2 * |settings|
    && forall k: nat :: k < |settings| ==>
         args[2 * k + 1] == OptionName(settings[k]) && args[2 * k + 2] == OptionValue(settings[k])
  }

  lemma {:induction false} LastChannelPrinted(args: seq<string>, cmd: Command, settings: seq<Setting>, k: nat)
    requires Printable(cmd, settings) && k <= |settings| && Spells(args, settings)
    ensures LastChannel(args, cmd.options, k) == ChannelOf(settings[..k])
  {
    if k > 0 {
      LastChannelPrinted(args, cmd, settings, k - 1);
      LastSpelled(args, settings, k);
    }
  }

  lemma {:induction false} LastPeriodPrinted(args: seq<string>, cmd: Command, settings: seq<Setting>, k: nat)
    requires Printable(cmd, settings) && k <= |settings| && Spells(args, settings)
    ensures LastPeriod(args, cmd.options, k) == PeriodOf(settings[..k])
  {
    if k > 0 {
      var s := settings[k - 1];
      LastPeriodPrinted(args, cmd, settings, k - 1);
      LastSpelled(args, settings, k);
      if s.Period? {
        AtoiDecimal(s.count);
      }
    }
  }

  lemma LastSpelled(args: seq<string>, settings: seq<Setting>, k: nat)
    requires 0 < k <= |settings| && Spells(args, settings)
    ensures args[2 * k - 1] == OptionName(settings[k - 1]) && args[2 * k] == OptionValue(settings[k - 1])
    ensures settings[..k][..k - 1] == settings[..k - 1]
  {
    assert args[2 * (k - 1) + 1] == OptionName(settings[k - 1]);
  }

  lemma {:induction false} PrintedHasNoFault(args: seq<string>, cmd: Command, settings: seq<Setting>)
    requires Printable(cmd, settings) && Spells(args, settings)
    ensures FirstFault(args, cmd.options, 0) == |settings|
  {
    forall k: nat | HasPair(args, k) ensures Fault(args, cmd.options, k).None? {
      if settings[k].Period? {
        AtoiDecimal(settings[k].count);
      }
    }
    assert !HasPair(args, |settings|);
    FaultFreeOrFirst(args, cmd.options);
  }

  lemma LookupByName(typed: string, c: nat)
    requires c < |COMMANDS| && ToLower(typed) == COMMANDS[c].name
    ensures Lookup(typed) == Some(COMMANDS[c])
    ensures typed != "" && typed[0] == ':' && NoBlanks(typed)
  {
    var name := COMMANDS[c].name;
    assert |name| == |typed|;
    forall i | 0 <= i < |typed| ensures !Blank(typed[i]) && (name[i] == ':' ==> typed[i] == ':') {
      assert name[i] == Lower(typed[i]);
      assert !Blank(name[i]);
    }
  }

  lemma {:induction false} PrintedLine(typed: string, cmd: Command, settings: seq<Setting>)
    requires typed != "" && typed[0] == ':' && NoBlanks(typed) && Printable(cmd, settings)
    ensures IsCommandLine(Print(typed, settings)) && CleanEdges(Print(typed, settings))
    ensures Split(Print(typed, settings), ' ') == [typed] + Words(settings)
  {
    var args := [typed] + Words(settings);
    forall k | 0 <= k < |args| ensures args[k] != "" && NoBlanks(args[k]) {
      if k > 0 {
        assert args[k] == Words(settings)[k - 1];
        WordIsClean(cmd, settings, k - 1);
      }
    }
    JoinedEdges(args);
    assert Free(args, ' ');
    SplitJoin(args, ' ');
  }

  lemma {:induction false} WordIsClean(cmd: Command, settings: seq<Setting>, k: nat)
    requires Printable(cmd, settings) && k < |Words(settings)|
    ensures Words(settings)[k] != "" && NoBlanks(Words(settings)[k])
  {
    var s := settings[k / 2];
    assert k == 2 * (k / 2) || k == 2 * (k / 2) + 1;
    PrintedWordsAreClean(Words(settings)[k], s);
  }

  lemma {:induction false} PrintedParses(c: nat, typed: string, settings: seq<Setting>)
    requires c < |COMMANDS| && ToLower(typed) == COMMANDS[c].name && Printable(COMMANDS[c], settings)
    ensures CleanEdges(Print(typed, settings))
    ensures Parse(Print(typed, settings)) ==
      ParseResult(COMMANDS[c].kind, ChannelOf(settings), PeriodOf(settings), None, true)
  {
    var cmd, line := COMMANDS[c], Print(typed, settings);
    LookupByName(typed, c);
    PrintedLine(typed, cmd, settings);
    ParseOfCommand(line, cmd);
    PrintedIsInterpreted([typed] + Words(settings), cmd, settings);
  }

  // Any command typed in any letter case, with any allowed settings in any order, is recovered from its
  // printed line after padding with blanks and trimming by the client and again by the server.
  lemma {:induction false} RoundTrip(c: nat, typed: string, settings: seq<Setting>, l1: string, r1: string, l2: string, r2: string)
    requires c < |COMMANDS| && ToLower(typed) == COMMANDS[c].name && Printable(COMMANDS[c], settings)
    requires AllBlank(l1) && AllBlank(r1) && AllBlank(l2) && AllBlank(r2)
    ensures Parse(TrimWhitespaces(l2 + TrimWhitespaces(l1 + Print(typed, settings) + r1) + r2)) ==
      ParseResult(COMMANDS[c].kind, ChannelOf(settings), PeriodOf(settings), None, true)
  {
    PrintedParses(c, typed, settings);
    TrimRecovers(l1, Print(typed, settings), r1);
    TrimRecovers(l2, Print(typed, settings), r2);
  }

  lemma {:induction false} PrintedIsInterpreted(args: seq<string>, cmd: Command, settings: seq<Setting>)
    requires Printable(cmd, settings)
    requires |args| == 1 + 2 * |settings| && args[1..] == Words(settings)
    ensures Interpret(args, cmd) ==
      ParseResult(cmd.kind, ChannelOf(settings), PeriodOf(settings), None, true)
  {
    forall k: nat | k < |settings|
      ensures args[2 * k + 1] == OptionName(settings[k]) && args[2 * k + 2] == OptionValue(settings[k])
    {
      assert args[2 * k + 1] == args[1..][2 * k] && args[2 * k + 2] == args[1..][2 * k + 1];
    }
    PrintedHasNoFault(args, cmd, settings);
    LastChannelPrinted(args, cmd, settings, |settings|);
    LastPeriodPrinted(args, cmd, settings, |settings|);
    assert settings[..|settings|] == settings;
  }
}
