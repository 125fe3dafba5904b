# A verified model of the mchat server

mchat is a TCP chat server written in Go. Every connection is served by its own goroutine, a state machine
driven by the lines its client sends; the goroutines share a locked connection map, a message loop fed through
unbuffered channels, and a locked storage backend (in memory or Redis). This project models the server side in
Dafny and proves what holds in every interleaving of those goroutines, how the Redis backend relates to the
in-memory one, and what exactly the command parser and the validators accept.

## How the model is laid out

| file | what it holds |
|---|---|
| `Text.dfy` | trimming, splitting, ASCII folding, `strconv.Atoi` and decimal printing, with their inverses |
| `Types.dfy` | participants, messages, channels, the reasons for a panic, `BuildChatMsg` |
| `Validation.dfy` | names, passwords, hashes and e-mail addresses against the public grammars |
| `Commands.dfy` | the command parser as loops, its specification, and the print/parse round trip |
| `Memory.dfy` | the in-memory backend: its operations on a value, and the class that implements them |
| `Slices.dfy` | message histories as Go slices over a shared backing array |
| `IdleWatcher.dfy` | the goroutine behind the idle timeout, with its timer |
| `Reader.dfy` | what a connection handler does between two points where it may block |
| `ReaderMachine.dfy` | the reader as an object with assigned fields, proved against `Reader.dfy` and against the session's steps |
| `ConnectionMap.dfy` | the connection map and broadcasting, for every order in which a map may be visited |
| `Session.dfy` | the whole session as interleaved steps |
| `SessionInvariant.dfy` | the invariant that every step keeps |
| `SessionHistory.dfy` | who can store messages; stored before broadcast; unique registration; ownership of map entries |
| `SessionEvolution.dfy` | what never changes back along any run |
| `SessionWatchers.dfy` | the watcher's discipline and termination; when a reader is blocked for ever |
| `SessionPanics.dfy` | at exactly which steps the process panics, and over what |
| `SessionWitness.dfy` | runs that reach each of the sixteen reader situations and each possible panic |
| `SessionBlocked.dfy` | exactly which handlers wait for ever, at the abort signal or after the loop has stopped, with reachable examples of each |
| `SessionBroadcast.dfy` | who a chat message can reach in a reachable world |
| `SessionDialogue.dfy` | where each thing a client sends leads, as steps of the whole session |
| `SessionRegistration.dfy` | what every account is, who comes to insert one, and why an insertion can fail |
| `SessionTimeout.dfy` | what the idle timeout does to a connection |
| `SessionChannels.dfy` | the channel record shared by a connection and the storage, and what clients can do to each other's channel names through it |
| `Redis.dfy` | the Redis server's sets and hashes, the key encoding, and the Redis backend |
| `RedisRefinement.dfy` | the Redis backend refines the in-memory one |

In `Session.dfy` a world holds any number of handlers, their watchers, the map, the store and the message loop.
One step is one lock region, one rendezvous on an unbuffered channel, one network read, or one move of a timer;
the code of a goroutine between two such points is part of the step before it. `log.Logger.Panic` stops the
world. Two sequences record, for the proofs, what was stored and what was broadcast, and a map records which
handler inserted an account; no step's outcome depends on them.

A channel pointer in Go is an index into a table of channel records. That makes visible that a connection which
selects a channel shares the record with the storage (`pkg/session/reader.go:525`).

## Assumptions about the environment

- A network read delivers between 1 and 1024 bytes, or reports an error or the end of the stream with no bytes.
- A network write that writes less than it was given reports an error. Which write on a connection succeeds is up
  to the network, a parameter of the connection.
- A newly accepted connection has a non-empty remote address that is not in the connection map at that moment.
- The hash is a parameter. It prints as 64 upper-case hexadecimal digits, as SHA-256 does. Where the Redis
  results need hashes to differ, they need it only for the names in use: no function from all names to 64 digits
  is injective.
- `time.DateTime` prints nineteen characters in its fixed layout, the last one a digit.
- Timers are those of Go before 1.23: a channel of capacity one, and `Stop` reports whether the timer was armed.
- Text is ASCII.

## Where the code and its comments or apparent intent differ

The model follows the code.

- `pkg/session/reader.go:375` keeps the reader in ReadingName after the user name, so logging in never reaches
  its password. That is why Authentication occurs in only one of the sixteen situations.
- `pkg/session/reader.go:220-221` does not look at the connection state, so a connection that has not registered
  can open the menu, create channels and enter the chat. It still cannot store a message: it waits for ever at
  `pkg/session/reader.go:547` (`SessionWatchers.PendingChatterWaitsForever`).
- `pkg/session/reader.go:438` and `:452` are separate lock regions, as are `:492` and `:500`. Two clients racing
  for a name stop the process instead of overwriting each other's record.
- `pkg/session/reader.go:226` panics on a channel that does not exist, for any connected client.
- `pkg/session/reader.go:525` together with `:390` lets a client rename a registered channel's record. The next
  client to select that channel then stops the process (`SessionChannels.RenamedChannelPanics`).
- For the same reason validation at `pkg/session/reader.go:484` does not guard what is registered at `:500`: a client
  that shares the record may rename it in between (`SessionChannels.InvalidNameGetsRegistered`).
- A channel called `general`, which the backends accept, shares a Redis set with the general history
  (`RedisRefinement.GeneralChannelLeaks`).
- `pkg/types/types.go:59-62` tests its own empty local, so every chat message goes to the general history.
- `pkg/session/connection.go:173` compares the written length with that of the bare contents, so broadcasting a
  chat message always counts zero deliveries. The results here speak of the writes themselves.
- `pkg/backend/memory/memory.go:72-75` overwrites its parameter and hashes the stored hash (`Memory.AuthExactly`).
- `pkg/commands/commands.go:177` tests a flag that is never cleared, so only the first option pair must be known.
- `pkg/validation/validation.go:12` lists `_` among the required symbols, line 18 does not; the negations meant by
  `^` in lines 15 to 18 are literal characters, which the main class excludes anyway.
- `pkg/validation/validation.go:94` accepts domains that are not host names (`Validation.LooseDomain`).
- Registration forbids exact duplicates, broadcasting skips the sender up to letter case. With two such names on
  line the skipped connection may be the wrong one (`SessionBroadcast.SenderMayHearItself`).

## Model

| member | source | states |
|---|---|---|
| `SessionInvariant.NextKeepsInv` | pkg/session/session.go:97-230 | each step of any goroutine keeps: map entries are exactly the live handlers, accounts and registered handlers correspond one to one, every message is accounted for, every handler is in a legal situation, and only three panics are possible |
| `SessionInvariant.RunKeepsInv` | pkg/session/session.go:97-230 | hence so does every interleaving of any length and any number of connections |
| `SessionInvariant.AbortMove` | pkg/session/reader.go:547 | the abort signal can only be handed over by a connection that is marked connected |
| `SessionInvariant.RegisterKeeps` | pkg/backend/memory/memory.go:45-66 | inserting an account keeps the invariant, including when another handler has inserted the same name since the check |
| `SessionInvariant.RemoveKeeps` | pkg/session/connection.go:111-120 | removal finds its entry, does not panic and keeps the map equal to the live handlers |
| `SessionInvariant.MarkKeeps` | pkg/session/connection.go:142-151 | marking finds the entry of the very handler that marks, and does not panic |
| `SessionInvariant.StoreKeeps` | pkg/session/reader.go:554-563 | storing keeps the invariant and never panics, whatever channel the connection points at |
| `SessionHistory.OnlyAccountHoldersSpeak` | pkg/session/reader.go:538-563 | every stored message was sent by a connection marked connected, under its own user name, which has an account equal to that connection's record with the password hashed |
| `SessionHistory.StoredBeforeBroadcast` | pkg/session/reader.go:560-563 | stored = broadcast + held by the loop + not yet handed over, in total and per connection in order; the broadcast lags by at most two |
| `SessionHistory.HistoryIsMerge` | pkg/backend/memory/memory.go:81-104 | the general history is an order-preserving merge of what the connections stored |
| `SessionHistory.UniqueRegistration` | pkg/session/reader.go:438-458 | any two connections past the insertion of their accounts have different user names, and each account is its connection's own record |
| `SessionHistory.EveryAccountHasAnOwner` | pkg/session/reader.go:428-458 | every account was inserted by a connection, whose record it still is, with validated name and address |
| `SessionRegistration.EveryAccountIsProper` | pkg/session/reader.go:411-452 | in every reachable world every account is a registered connection's record field by field, its password the hash of a strong one, its name and address valid |
| `SessionRegistration.ComesToRegister` | pkg/session/reader.go:438-452 | only a handler's own check of a free name brings it to the insertion; that step starts its one watcher and stamps its record |
| `SessionRegistration.DuplicateMeansLostRace` | pkg/session/reader.go:438-452 | in every run that stops over a duplicate account, the handler found the name free, and another handler inserted it in between |
| `SessionHistory.MapIsLiveHandlers` | pkg/session/connection.go:105-120 | an address is in the map exactly when one handler with that address has not yet been removed |
| `SessionHistory.OnlyThreePanics` | pkg/session/reader.go:266-588 | no callback meets an unexpected state, no map entry is missing, no hash is rejected: three panics remain |
| `SessionPanics.StepPanicsExactly` | pkg/session/reader.go:206-588 | in every reachable world a step panics if and only if it is one of four: inserting an account whose name is taken, inserting a channel whose name is taken, showing a selected channel whose record's name is not registered, or showing a named channel that is not registered |
| `SessionPanics.StepPanicsOverHazard` | pkg/session/reader.go:206-588 | and it panics over exactly that: ParticipantExists, ChannelExists or UnknownChannel, each at its own step |
| `SessionWitness.PanicsExactly` | pkg/session/reader.go:206-588 | each of those three reasons, and no other, occurs in some run |
| `SessionWitness.RacingRegistrationsPanic` | pkg/session/reader.go:438-452 | a run in which two clients pass the existence check and the slower one stops the process |
| `SessionWitness.RacingChannelsPanic` | pkg/session/reader.go:492-500 | the same for channels, by clients that never registered |
| `SessionWitness.AbsentChannelPanics` | pkg/session/reader.go:226 | a run in which a connected client's history command for a missing channel stops the process |
| `SessionWitness.ExactlySixteen` | pkg/session/reader.go:206-597 | the combinations of state, substate and connection state that occur in reachable worlds are exactly the sixteen, both ways |
| `SessionEvolution.RunEvolves` | pkg/session/session.go:97-230 | along every run addresses, participant records after registration, connected marks, cancellation, stored messages and accounts are never undone |
| `SessionEvolution.AccountsAreForever` | pkg/backend/memory/memory.go:45-66 | no stored account is overwritten or lost and the history only grows, in every run |
| `SessionEvolution.ConnectedIsForever` | pkg/session/reader.go:266-505 | a connected connection never joins, registers or logs in again, keeps its record, and has exactly one watcher |
| `SessionEvolution.RemovedOnce` | pkg/session/connection.go:111-120 | after its removal no map entry ever belongs to a handler again, even if its address is reused |
| `SessionWatchers.TimerDiscipline` | pkg/session/connection.go:73-98 | at its select the timer is armed or has exactly one undelivered tick, the drain never waits, and there is at most one watcher per connection |
| `SessionWatchers.OthersUntouched` | pkg/session/session.go:151-205 | a step of one handler or its watcher changes no other handler |
| `SessionWatchers.WatcherWindsDown` | pkg/session/connection.go:92-95 | once its handler is leaving, each step of the watcher brings it nearer to returning and nothing sets it back |
| `SessionWatchers.WatcherNeverStalls` | pkg/session/connection.go:75-97 | until it has returned, such a watcher always has an enabled step |
| `SessionTimeout.TimedOutIsCutOff` | pkg/session/connection.go:77-83 | in every reachable world a watcher past its closing point has the network connection closed, and one that has returned from its tick has it closed and cancelled |
| `SessionTimeout.TickCutsOff` | pkg/session/connection.go:77-83 | a delivered tick can be taken, and the two steps that follow close the network connection and cancel the context and change nothing else |
| `SessionTimeout.TimeoutIsFinal` | pkg/session/connection.go:73-98 | in every continuation a timed-out watcher stays so, with at most those two steps to go |
| `SessionTimeout.TimedOutReadFails` | pkg/session/reader.go:175-189 | its reader can only see the read fail, which leads to the idle notice |
| `SessionTimeout.IdleClientLeaves` | pkg/session/reader.go:566-588 | and a run that takes it through the notice off the map and out, with everybody told |
| `SessionWatchers.StuckForever` | pkg/session/reader.go:547 | a reader that waits for a watcher that is gone waits in every continuation |
| `SessionWatchers.AbortPassesExactlyWhen` | pkg/session/reader.go:547 | a reader at the abort signal can get past it if and only if its connection has a watcher that is not on its way out |
| `SessionWatchers.PendingChatterWaitsForever` | pkg/session/reader.go:538-547 | an unregistered client that types into the chat is blocked for ever, stays in the map, and stores nothing |
| `SessionBlocked.SomePendingChatterWaits` | pkg/session/reader.go:220-221 | such a client occurs in a reachable world, and cannot get past the abort signal |
| `SessionBlocked.SomeTimedOutChatterWaits` | pkg/session/connection.go:77-83 | so does a registered one whose watcher takes its tick between the arrival of a line and its handling |
| `SessionBlocked.ActsAgainExactly` | pkg/session/session.go:138-230 | in every reachable world without a panic, a handler can ever take another step of its own if and only if it is not gone, not at the abort signal with nobody listening, and not offering a message to a loop that has stopped |
| `SessionBlocked.OfferTakenExactlyWhen` | pkg/session/session.go:138-149 | in particular an offered message can be taken if and only if the loop has not stopped |
| `SessionBlocked.SomeClientMeetsStoppedLoop` | pkg/session/session.go:225-227 | a reachable world in which a client accepted after the loop has stopped waits for ever at its first prompt |
| `SessionBlocked.StoppedForever` | pkg/session/session.go:225-227 | once the message loop has returned, no message is ever taken or broadcast again, and every handler that offers one stays there, in every continuation |
| `SessionBroadcast.ChatReaches` | pkg/session/connection.go:154-179 | in every reachable world a chat message goes only to live connections with accounts, and the number of attempts is the same for every map order |
| `SessionBroadcast.BroadcastInHand` | pkg/session/session.go:215-218 | the session's broadcast step taken on the connection objects: in every reachable world each recipient gets exactly one write of the message in the loop's hand, nobody else gets any, and the objects remain the world's map |
| `SessionBroadcast.AnnounceInHand` | pkg/session/session.go:220-223 | the same for a system message: one write to its client, or for a departure one to every connected client and none to a pending one |
| `SessionBroadcast.SenderSparedExactly` | pkg/session/connection.go:167-170 | the sender is skipped in every map order if and only if no other connected user name equals its own up to letter case |
| `SessionBroadcast.SenderMayHearItself` | pkg/session/connection.go:167-170 | a reachable world and a map order in which the sender is among the recipients |
| `SessionChannels.NamesKeptExactly` | pkg/session/reader.go:383-399 | a step keeps every channel's record named as it is registered if and only if it is not naming a new channel while pointing at a registered one |
| `SessionChannels.NamesCanGoWrong` | pkg/session/reader.go:507-536 | a reachable world in which a channel's record carries another name |
| `SessionChannels.RenamedChannelPanics` | pkg/session/reader.go:525-526 | a run in which selecting a renamed channel stops the process |
| `SessionChannels.ClearedKeptExactly` | pkg/session/reader.go:484-500 | a step keeps every registered name, and every name about to be registered, valid if and only if it is not the naming of a channel, with an invalid line, on a record whose name another handler has just had validated |
| `SessionChannels.InvalidNameGetsRegistered` | pkg/session/reader.go:484-500 | a reachable world in which an invalid channel name is registered |
| `ConnectionMap.AllButFirstMatch` | pkg/session/connection.go:161-179 | for every order the recipients are the connected entries but one match with the sender, if there is a match |
| `ConnectionMap.AttemptsIndependentOfOrder` | pkg/session/connection.go:161-179 | the number of attempts does not depend on the order, and pending connections get none |
| `ConnectionMap.SoleMatchIsLeftOut` | pkg/session/connection.go:167-170 | with one match the recipients themselves are independent of the order |
| `ConnectionMap.SparedExactlyWhenSoleMatch` | pkg/session/connection.go:167-170 | a matching entry is skipped in every order if and only if it is the only match |
| `ConnectionMap.ConnectionMap.BroadcastChat` | pkg/session/connection.go:161-179 | the loop writes the canonical text exactly once to each recipient and nothing to anybody else; it counts zero |
| `ConnectionMap.ConnectionMap.BroadcastSys` | pkg/session/connection.go:181-207 | a system message is written once to its recipient, or without one to every connected entry; the count is the number of those to whom the write succeeds |
| `ConnectionMap.ConnectionMap.RemoveConn` | pkg/session/connection.go:111-120 | deletes the entry, or panics exactly when there is none |
| `ConnectionMap.ConnectionMap.MarkAsConnected` | pkg/session/connection.go:142-151 | marks that entry and no other, or panics exactly when there is none |
| `ConnectionMap.ConnectionMap.HasConnectedParticipant` | pkg/session/connection.go:122-134 | true exactly when some connected entry has the name |
| `ConnectionMap.WriteBytes` | pkg/utilities/utilities.go:21-31 | the loop makes exactly one attempt with the whole buffer, none for an empty one |
| `ConnectionMap.CanonicalReads` | pkg/session/connection.go:164 | the text of a chat message gives back its sender, time and contents |
| `IdleWatcher.StepsKeepWatcherOk` | pkg/session/connection.go:73-98 | each watcher step keeps the timer discipline, and outside its select a watcher can always go on |
| `IdleWatcher.IdleLoop.AbortCase` | pkg/session/connection.go:84-91 | from any legal timer state the abort case comes back to the select with a freshly armed timer |
| `Reader.LineMove` | pkg/session/session.go:166-199 | whatever the line, a handler in a legal situation meets no invalid-state panic and moves to a legal situation, leaving its registration and its place in the map alone |
| `Reader.ReadMove` | pkg/session/reader.go:166-203 | so does every outcome of a network read |
| `Reader.ResumeMove` | pkg/session/session.go:138-149 | so does everything that follows the hand-over of a system message |
| `Reader.MenuSelects` | pkg/session/reader.go:273-283 | a line selects menu entry k if and only if it is a 64-bit numeral congruent to k + 1 modulo 256 |
| `SessionDialogue.Accepted` | pkg/session/session.go:128-132 | what a new connection starts as |
| `SessionDialogue.ReadTakesLine` | pkg/session/reader.go:166-173 | a read delivers what arrived without the six blanks at its two ends, and changes nothing else |
| `SessionDialogue.StreamEnds` | pkg/session/reader.go:199-203 | the end of the stream leads to disconnecting |
| `SessionDialogue.ReadFails` | pkg/session/reader.go:175-197 | so does a failed read, with the idle notice exactly if the context was already cancelled |
| `SessionDialogue.CommandHeard` | pkg/session/reader.go:166-264 | a command in its printed form, in any letter case, padded, trimmed by the client and padded again, is read, recognised and obeyed |
| `SessionDialogue.FaultyCommand` | pkg/session/reader.go:212-216 | a faulty command is answered to its own client and changes nothing |
| `SessionDialogue.MenuLine` | pkg/session/reader.go:266-332 | what each of the seven entries does, joining or at the menu, pending or connected |
| `SessionDialogue.OtherMenuLine` | pkg/session/reader.go:273-332 | every other line is answered, one that is no 64-bit numeral twice, and changes nothing |
| `SessionDialogue.RegistrationLine` | pkg/session/reader.go:334-436 | name, then address, then password; the form goes on to the check of the name if and only if all three are valid, and back to the start otherwise |
| `SessionDialogue.LogInLine` | pkg/session/reader.go:358-375 | logging in asks for the name over and over |
| `SessionDialogue.ChannelLine` | pkg/session/reader.go:383-490 | name and description go into the record the connection points at, and a valid name is looked up |
| `SessionDialogue.SelectionLine` | pkg/session/reader.go:507-517 | a 64-bit numeral goes on to the list, anything else back to the menu |
| `SessionDialogue.ChannelPicked` | pkg/session/reader.go:518-535 | of n channels numbers 1 to n - 1 select one, all others none |
| `SessionDialogue.ChatLine` | pkg/session/reader.go:538-547 | in the chat the abort signal comes before everything else |
| `SessionDialogue.SignalTaken` | pkg/session/connection.go:84-91 | who takes the abort signal, and what it sets going |
| `SessionDialogue.ChatStored` | pkg/session/reader.go:554-561 | what was typed is stored as typed, under the user name and the time, in the general history |
| `SessionDialogue.ChatHanded` | pkg/session/reader.go:563 | the stored message goes to the loop and the client can type on |
| `SessionDialogue.NameChecked` | pkg/session/reader.go:438-452 | a taken name leads back to the start without a watcher; a free one is stamped, with one watcher started before the insertion |
| `SessionDialogue.AccountInserted` | pkg/backend/memory/memory.go:45-66 | the account inserted is the form with the password hashed |
| `SessionDialogue.ConnectionMarked` | pkg/session/connection.go:142-151 | marking makes the handler's own connection connected, and it goes on in the chat |
| `SessionDialogue.ChannelChecked` | pkg/session/reader.go:492-498 | a taken channel name leads back to the menu |
| `SessionDialogue.ChannelInserted` | pkg/backend/memory/memory.go:112-130 | a new channel has a record of its own with the name and description given and an empty history |
| `SessionDialogue.ChannelsListed` | pkg/session/reader.go:304-315 | with no channel there is nothing to select |
| `SessionDialogue.HistoryShown` | pkg/session/reader.go:455-458 | where each of the three ways to see a history leads |
| `SessionDialogue.Entered` | pkg/session/session.go:158-164 | where a handler goes on after a message has been taken; in the two menu situations it prompts before it reads |
| `SessionDialogue.OwnClientOrAll` | pkg/session/reader.go:584-587 | every system message is for the handler's own client, except the news of its leaving, which is for all |
| `SessionDialogue.Leaves` | pkg/session/reader.go:566-588 | cancel, then close, then remove, then tell everybody |
| `ReaderMachine.ReaderFSM.ProcessCommand` | pkg/session/reader.go:206-264 | refines the command step of module Reader, using the parser's loops |
| `ReaderMachine.ReaderFSM.OnCreateChannel` | pkg/session/reader.go:383-399 | refines the channel callback and writes the record the connection points at, shared or not |
| `ReaderMachine.ReaderFSM.HandleLine` | pkg/session/session.go:166-199 | the whole loop body, with every callback it calls, assigns the reader's fields and the shared channel record as module Reader says; from a legal situation it never panics and leads to a legal one |
| `ReaderMachine.ReaderFSM.CheckName` | pkg/session/reader.go:438-449 | takes the session's step: refuse the name, or stamp the record and start the watcher |
| `ReaderMachine.ReaderFSM.Register` | pkg/session/reader.go:452 | takes the session's insertion step on the storage object, or panics as that step does |
| `ReaderMachine.ReaderFSM.Authenticate` | pkg/session/reader.go:461-479 | takes the session's log-in step |
| `ReaderMachine.ReaderFSM.ShowHistory` | pkg/session/reader.go:599-606 | takes the session's history step, or panics on an unknown channel |
| `ReaderMachine.ReaderFSM.CheckChannel` | pkg/session/reader.go:492-498 | takes the session's channel check |
| `ReaderMachine.ReaderFSM.RegisterChannel` | pkg/session/reader.go:500-504 | takes the session's channel insertion, or panics as that step does |
| `ReaderMachine.ReaderFSM.DisplayChannels` | pkg/session/reader.go:608-616 | takes the session's channel listing |
| `ReaderMachine.ReaderFSM.PickChannel` | pkg/session/reader.go:518-535 | takes the session's selection step for some listing order; the connection then points at the storage's record |
| `ReaderMachine.ReaderFSM.StoreMessage` | pkg/session/reader.go:549-563 | takes the session's store step |
| `Memory.MemoryBackend.RegisterParticipant` | pkg/backend/memory/memory.go:45-66 | the whole new store, and which panic when |
| `Memory.MemoryBackend.StoreMessage` | pkg/backend/memory/memory.go:81-104 | appends to one history and changes nothing else, or panics on an unknown channel |
| `Memory.MemoryBackend.RegisterChannel` | pkg/backend/memory/memory.go:112-130 | files a fresh record with empty history, or panics on a duplicate |
| `Memory.MemoryBackend.GetChatHistory` | pkg/backend/memory/memory.go:145-159 | the general or the channel's history, or a panic |
| `Memory.MemoryBackend.GetChannels` | pkg/backend/memory/memory.go:161-175 | each channel once, in some order |
| `Memory.MemoryBackend.GetParticipants` | pkg/backend/memory/memory.go:177-191 | each participant once, in some order |
| `Slices.Append` | pkg/backend/memory/memory.go:98-101 | the old contents plus the message; elements an older header shows are untouched, in place or not |
| `Slices.History.Store` | pkg/backend/memory/memory.go:81-104 | every slice ever handed out still denotes what it denoted and is a prefix of the new history |
| `Slices.History.GetChatHistory` | pkg/backend/memory/memory.go:145-159 | hands out the current slice itself, remembered together with its contents |
| `RedisRefinement.RedisRefinesMemory` | pkg/backend/redis/redis.go:75-255 | over every sequence of operations, with any names, both backends panic at the same one for the same reason, or stay related |
| `RedisRefinement.StepRefines` | pkg/backend/redis/redis.go:75-255 | one operation from related states leads to related states; a participant and a channel of one name may share a hash |
| `RedisRefinement.ParticipantListsAgree` | pkg/backend/redis/redis.go:357-389 | the listed participants are those of the memory backend; the lookup never panics |
| `RedisRefinement.ChannelListsAgree` | pkg/backend/redis/redis.go:320-355 | the listed channels are those of the memory backend, without history and members |
| `RedisRefinement.HistoryIsDeduplicated` | pkg/backend/redis/redis.go:273-318 | one message per (sender, second) in the channel's set, namely the last one stored under it anywhere; never a panic over a missing record |
| `Memory.AuthExactly` | pkg/backend/memory/memory.go:68-79 | the memory backend's answer does not depend on the password supplied; a stored account is let in if and only if the hash of its owner's password is its own hash |
| `RedisRefinement.AuthAnswersExactly` | pkg/backend/redis/redis.go:131-148 | Redis lets a stored account in if and only if the password supplied hashes as the owner's does, and the two backends give the same answer exactly when that agrees with memory's accident |
| `RedisRefinement.HistoriesAgreeExactly` | pkg/backend/redis/redis.go:150-178 | the history is a permutation of the memory backend's if and only if no id of its messages was used again later and no message of another channel is left in its set |
| `RedisRefinement.HistoriesAgreeExactlyWhenFresh` | pkg/backend/redis/redis.go:150-178 | without a channel called general, reuse of ids alone decides |
| `RedisRefinement.GeneralChannelLeaks` | pkg/backend/redis/redis.go:161-165 | with one, a message stored there is the general history Redis returns, and memory's is empty |
| `RedisRefinement.SameSecondLosesOne` | pkg/backend/redis/redis.go:162-167 | after two messages of one sender in one second Redis returns the second only, memory both |
| `RedisRefinement.SetKeysEndWithColon` | pkg/backend/redis/redis.go:57-62 | the two name sets and all message sets are distinct keys ending in a colon |
| `RedisRefinement.HashKeysHaveNoColon` | pkg/backend/redis/redis.go:91 | hashed names contain no colon |
| `RedisRefinement.IdsHaveInnerColon` | pkg/backend/redis/redis.go:162 | message ids contain a colon but do not end in one |
| `RedisRefinement.IdsInjective` | pkg/backend/redis/redis.go:162 | an id determines sender and second |
| `RedisRefinement.MessagesKeysApart` | pkg/backend/redis/redis.go:157-165 | two channels share a message set if and only if they are equal or one is general and the other is named so, which no validated name is |
| `Redis.RedisBackend.SetFields` | pkg/backend/redis/redis.go:93-107 | the field loop writes every field |
| `Redis.RedisBackend.RegisterParticipant` | pkg/backend/redis/redis.go:75-115 | the whole new database, and which panic when |
| `Redis.RedisBackend.RegisterChannel` | pkg/backend/redis/redis.go:228-255 | the whole new database, and which panic when |
| `Redis.RedisBackend.StoreMessage` | pkg/backend/redis/redis.go:150-185 | the whole new database, and which panic when |
| `Redis.RedisBackend.Collect` | pkg/backend/redis/redis.go:290-317 | one record per set member in some order, or a panic exactly if a member has none |
| `Redis.RedisBackend.GetParticipants` | pkg/backend/redis/redis.go:357-389 | each member of the participants set once, read from its own hash, or a panic exactly if one has no hash |
| `Redis.RedisBackend.GetChannels` | pkg/backend/redis/redis.go:320-355 | each member of the channels set once, read from its own hash, or a panic exactly if one has no hash |
| `Redis.RedisBackend.GetChatHistory` | pkg/backend/redis/redis.go:273-318 | each id of the channel's set, read from its own hash, or a panic on an unknown channel |
| `Commands.ParseCommand` | pkg/commands/commands.go:131-194 | the table loop computes the declarative parse for every line |
| `Commands.ParseOptions` | pkg/commands/commands.go:138-188 | the option loop computes the first fault and the last value of each option |
| `Commands.ApplyOption` | pkg/commands/commands.go:152-173 | the inner loop takes a known option's value or reports a bad period |
| `Commands.AcceptedExactly` | pkg/commands/commands.go:139-186 | a line is accepted if and only if its words pair up, are not too many, start with a known option, and every period is a non-negative 64-bit numeral |
| `Commands.TheCommands` | pkg/commands/commands.go:98-110 | the five commands with their kinds and options, in any letter case, and no others |
| `Commands.ErrorsExactly` | pkg/commands/commands.go:139-183 | at the first wrong pair, from the words alone, when each of the four errors is reported and with which word; too many options come before a missing value |
| `Commands.ErrorOrNone` | pkg/commands/commands.go:139-187 | there is no error if and only if no pair is wrong |
| `Commands.ValuesExactly` | pkg/commands/commands.go:152-172 | with or without an error each option has the value given last before the first wrong pair |
| `Commands.NoValueExactly` | pkg/commands/commands.go:131-137 | an option not given stays empty or zero |
| `Commands.PlainTextExactly` | pkg/commands/commands.go:133-137 | a line is not a command if and only if it has no colon in front or its first word is none of the five |
| `Commands.PrintedParses` | pkg/commands/commands.go:98-194 | every printable command is recovered from its line |
| `Commands.RoundTrip` | pkg/commands/commands.go:131-194 | in any letter case, after padding and after trimming on both sides of the network |
| `Validation.LocalPartIsDotAtom` | pkg/validation/validation.go:57-83 | prefix, suffix, scan loop and pattern together accept exactly dot-atom-text (section 3.2.3 of RFC 5322) of at most 64 octets |
| `Validation.EmailExact` | pkg/validation/validation.go:39-105 | an address is accepted if and only if it is such a local part, one `@` and an accepted domain |
| `Validation.HostNameAccepted` | pkg/validation/validation.go:85-102 | every host name of section 3.5 of RFC 1034, relaxed by section 2.1 of RFC 1123, passes the domain check |
| `Validation.LooseDomain` | pkg/validation/validation.go:94-97 | the converse fails |
| `Validation.AcceptedDomainIsHostNameExactly` | pkg/validation/validation.go:85-102 | an accepted domain is a host name if and only if it has no bracket or colon, no dot at an end or next to a dot or a hyphen, and no label of more than 63 characters |
| `Validation.MailboxAccepted` | pkg/validation/validation.go:39-105 | every dot-atom local part at every host name is accepted |
| `Validation.PasswordPolicy` | pkg/validation/validation.go:13-25 | what the five patterns together demand of a password, both ways |
| `Validation.NamePolicy` | pkg/validation/validation.go:31-37 | a name is a letter and 7 to 31 letters, digits and underscores |
| `Validation.HashPolicy` | pkg/validation/validation.go:109-113 | a hash is 64 of the sixteen upper-case digits |
| `Validation.AddressLiterals` | pkg/validation/validation.go:94-102 | bracketed address literals are accepted, though no host names; with the bracket left open they are not |
| `Text.TrimSplits` | pkg/utilities/utilities.go:45-47 | trimming removes blanks from the two ends only and leaves clean ends |
| `Text.TrimRecovers` | pkg/utilities/utilities.go:45-47 | trimming removes exactly the padding around a text with clean ends |
| `Text.FoldExactly` | pkg/session/connection.go:167 | folding compares character by character, a letter standing for itself in the other case only |
| `Text.JoinSplit` | pkg/commands/commands.go:134 | joining what was split gives the line back |
| `Text.SplitJoin` | pkg/commands/commands.go:134 | splitting what was joined gives the words back |
| `Text.AtoiExact` | pkg/session/reader.go:273 | `Atoi` accepts exactly the signed numerals that fit 64 bits, with their value; what it rejects yields zero or an end of the range |
| `Text.AtoiDecimal` | pkg/commands/commands.go:160 | parsing a printed number gives it back |

## Left out

- Text.ToLower: ASCII letters only; Unicode case folding is not modelled, nor are names or lines beyond ASCII.
- ReaderMachine.ReaderFSM.Validate: as far as the first look into the storage; the rest of that function is the methods CheckName, Register, Authenticate, ShowHistory, CheckChannel and RegisterChannel.
- Interleaving itself is on values: the session's steps are functions on worlds, because no single object could take them in every order. The reader, the backends, the map and the broadcast loops are objects as in the source.
- The idle watcher's loop is one method per piece of its select, since other goroutines act between any two of them; the session's steps use the same pieces as functions.
- The lists of members take the participants and then each connected mark under separate locks; they only produce text, so they are one step with the message that carries them.
- Writing a channel record's name outside any lock is one step; torn or stale reads of it are not modelled.
- Memory.MemoryBackend holds histories as sequences; that the Go slices behind them behave so is shown in module Slices, for one history at a time.
- The text of prompts, histories and lists, other than the canonical form of a chat message.
- DeleteChannel, deleteMessages and deleteParticipant: the backends differ there, and nothing in the session calls them.
- Completion of shutdown: that the listener is ever closed is not claimed; what follows for senders is SessionBlocked.StoppedForever.
- Freedom of handlers from waiting for ever: it does not hold, and SessionBlocked.ActsAgainExactly says exactly for which handlers; that a step which stays possible is ever taken is left to the scheduler and the clients.
- The metrics counters and the debug mode with made-up participants.
- Accept errors, the two-second pause before an idle client is dropped, real time and log output.
- The client program, the DynamoDB stubs, flag parsing and the containers.
