/** The records shared by the session and its storage backends. */
module Types {
  datatype Participant = Participant(username: string, password: string, email: string, joinTime: string)

  datatype ChatMessage = ChatMessage(contents: string, sender: string, channel: string, sentTime: string)

  datatype Channel = Channel(
    name: string,
    desc: string,
    creator: string,
    creationDate: string,
    chatHistory: seq<ChatMessage>,
    members: seq<string>)

  const NoParticipant := Participant("", "", "", "")
  const NoChannel := Channel("", "", "", "", [], [])

  // The reasons for which the program calls the logger's Panic, which ends the process.
  datatype Panic =
    | ParticipantExists
    | BadPasswordHash
    | ChannelExists
    | UnknownChannel
    | RecordMissing
    | ConnectionMissing
    | InvalidState

  datatype Outcome<+T> = Done(value: T) | Crash(panic: Panic)

  // The optional channel argument is consulted only when the local declared just before is non-empty.
  function PickChannel(local: string, channels: seq<string>): string {
    if |local| > 0 && |channels| > 0 then channels[0] else local
  }

  // That local is the empty string, so the channel a caller passes is always dropped
  // (pkg/types/types.go:59-62).
  function BuildChatMsg(contents: string, sender: string, channels: seq<string>, now: string): ChatMessage {
    ChatMessage(contents, sender, PickChannel("", channels), now)
  }
}
