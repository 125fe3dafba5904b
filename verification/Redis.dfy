/** The Redis backend over a model of the server: one key space whose values are sets or hashes. A command on
    a key of the other type has no effect and reads as empty, since the backend ignores command errors. */
module Redis {
  import opened Text
  import opened Types
  import opened Validation
  import Memory

  datatype Value = SetValue(members: set<string>) | HashValue(fields: map<string, string>)

  type Db = map<string, Value>

  // ---------------------------------------------------------------------- the server

  function SMembers(db: Db, key: string): set<string> {
    if key in db && db[key].SetValue? then db[key].members else {}
  }

  predicate SIsMember(db: Db, key: string, member: string) {
    member in SMembers(db, key)
  }

  function SAdd(db: Db, key: string, member: string): Db {
    if key in db && db[key].HashValue? then db
    else db[key := SetValue(SMembers(db, key) + {member})]
  }

  function HGetAll(db: Db, key: string): map<string, string> {
    if key in db && db[key].HashValue? then db[key].fields else map[]
  }

  function HSet(db: Db, key: string, field: string, value: string): Db {
    if key in db && db[key].SetValue? then db
    else db[key := HashValue(HGetAll(db, key)[field := value])]
  }

  type Fields = seq<(string, string)>

  // Setting the fields of a hash one command at a time.
  function HSetEach(db: Db, key: string, fields: Fields): Db {
    if fields == [] then db
    else
      var last := fields[|fields| - 1];
      HSet(HSetEach(db, key, fields[..|fields| - 1]), key, last.0, last.1)
  }

  // ------------------------------------------------------------------- the key encoding

  const PARTICIPANTS := "participants:"
  const CHANNELS := "channels:"

  function MessagesKey(channel: string): string {
    if channel == "" then "messages/general:" else "messages/" + channel + ":"
  }

  // `stamp` is the backend's own clock, printed as year-month-day hour:minute:second.
  function MessageId(sender: string, stamp: string): string {
    sender + ":" + stamp
  }

  function ParticipantFields(hash: Digest, p: Participant): Fields {
    [("Username", p.username), ("Password", hash(p.password)), ("Email", p.email), ("JoinTime", p.joinTime)]
  }

  function ChannelFields(c: Channel): Fields {
    [("Name", c.name), ("Desc", c.desc), ("Creator", c.creator), ("CreationDate", c.creationDate)]
  }

  function MessageFields(m: ChatMessage): Fields {
    [("Contents", m.contents), ("Sender", m.sender), ("Channel", m.channel), ("SentTime", m.sentTime)]
  }

  // A missing field reads as the empty string.
  function Field(data: map<string, string>, name: string): string {
    if name in data then data[name] else ""
  }

  function ReadParticipant(data: map<string, string>): Participant {
    Participant(Field(data, "Username"), Field(data, "Password"), Field(data, "Email"), Field(data, "JoinTime"))
  }

  function ReadChannel(data: map<string, string>): Channel {
    Channel(Field(data, "Name"), Field(data, "Desc"), Field(data, "Creator"), Field(data, "CreationDate"), [], [])
  }

  function ReadMessage(data: map<string, string>): ChatMessage {
    ChatMessage(Field(data, "Contents"), Field(data, "Sender"), Field(data, "Channel"), Field(data, "SentTime"))
  }

  // ------------------------------------------------------- what the operations do to the server

  function AfterRegisterParticipant(db: Db, hash: Digest, p: Participant): Outcome<Db> {
    if !ValidatePasswordSha256(hash(p.password)) then Crash(BadPasswordHash)
    else if SIsMember(db, PARTICIPANTS, p.username) then Crash(ParticipantExists)
    else
      var db1 := HSetEach(db, hash(p.username), ParticipantFields(hash, p));
      Done(if |HGetAll(db1, hash(p.username))| != 0 then SAdd(db1, PARTICIPANTS, p.username) else db1)
  }

  function AfterRegisterChannel(db: Db, hash: Digest, c: Channel): Outcome<Db> {
    if SIsMember(db, CHANNELS, c.name) then Crash(ChannelExists)
    else
      var db1 := HSetEach(db, hash(c.name), ChannelFields(c));
      Done(if |HGetAll(db1, hash(c.name))| != 0 then SAdd(db1, CHANNELS, c.name) else db1)
  }

  function AfterStoreMessage(db: Db, m: ChatMessage, stamp: string): Outcome<Db> {
    if m.channel != "" && !SIsMember(db, CHANNELS, m.channel) then Crash(UnknownChannel)
    else
      var id := MessageId(m.sender, stamp);
      Done(HSetEach(SAdd(db, MessagesKey(m.channel), id), id, MessageFields(m)))
  }

  // Whether the backend lets the participant in; an absent password hash lets nobody in.
  predicate Authenticates(db: Db, hash: Digest, p: Participant) {
    && SIsMember(db, PARTICIPANTS, p.username)
    && var stored := Field(HGetAll(db, hash(p.username)), "Password");
       stored != "" && EqualFold(hash(p.password), stored)
  }

  // ---------------------------------------------------------------------- the backend

  class RedisBackend {
    var db: Db

    constructor ()
      ensures db == map[]
    {
      db := map[];
    }

    // The field loops of the three writing operations.
    method SetFields(key: string, fields: Fields)
      modifies this
      ensures db == HSetEach(old(db), key, fields)
    {
      for i := 0 to |fields|
        invariant db == HSetEach(old(db), key, fields[..i])
      {
        db := HSet(db, key, fields[i].0, fields[i].1);
        assert fields[..i + 1][..i] == fields[..i];
      }
      assert fields[..|fields|] == fields;
    }

    method HasParticipant(username: string) returns (found: bool)
      ensures found <==> username in SMembers(db, PARTICIPANTS)
    {
      found := SIsMember(db, PARTICIPANTS, username);
    }

    method HasChannel(name: string) returns (found: bool)
      ensures found <==> name in SMembers(db, CHANNELS)
    {
      found := SIsMember(db, CHANNELS, name);
    }

    method RegisterParticipant(hash: Digest, p: Participant) returns (r: Outcome<()>)
      modifies this
      ensures match AfterRegisterParticipant(old(db), hash, p)
        case Done(db') => r == Done(()) && db == db'
        case Crash(panic) => r == Crash(panic) && db == old(db)
    {
      var passwordHash := hash(p.password);
      if !ValidatePasswordSha256(passwordHash) {
        return Crash(BadPasswordHash);
      }
      if SIsMember(db, PARTICIPANTS, p.username) {
        return Crash(ParticipantExists);
      }
      var participantHash := hash(p.username);
      SetFields(participantHash,
        [("Username", p.username), ("Password", passwordHash), ("Email", p.email), ("JoinTime", p.joinTime)]);
      if |HGetAll(db, participantHash)| != 0 {
        db := SAdd(db, PARTICIPANTS, p.username);
      }
      r := Done(());
    }

    method AuthParticipant(hash: Digest, p: Participant) returns (ok: bool)
      ensures ok <==> Authenticates(db, hash, p)
    {
      ok := false;
      if SIsMember(db, PARTICIPANTS, p.username) {
        var passwordHash := Field(HGetAll(db, hash(p.username)), "Password");
        if passwordHash != "" {
          ok := EqualFold(hash(p.password), passwordHash);
        }
      }
    }

    method RegisterChannel(hash: Digest, c: Channel) returns (r: Outcome<()>)
      modifies this
      ensures match AfterRegisterChannel(old(db), hash, c)
        case Done(db') => r == Done(()) && db == db'
        case Crash(panic) => r == Crash(panic) && db == old(db)
    {
      if SIsMember(db, CHANNELS, c.name) {
        return Crash(ChannelExists);
      }
      var channelHash := hash(c.name);
      SetFields(channelHash,
        [("Name", c.name), ("Desc", c.desc), ("Creator", c.creator), ("CreationDate", c.creationDate)]);
      if |HGetAll(db, channelHash)| != 0 {
        db := SAdd(db, CHANNELS, c.name);
      }
      r := Done(());
    }

    method StoreMessage(m: ChatMessage, stamp: string) returns (r: Outcome<()>)
      modifies this
      ensures match AfterStoreMessage(old(db), m, stamp)
        case Done(db') => r == Done(()) && db == db'
        case Crash(panic) => r == Crash(panic) && db == old(db)
    {
      var messageId := m.sender + ":" + stamp;
      if m.channel != "" {
        if !SIsMember(db, CHANNELS, m.channel) {
          return Crash(UnknownChannel);
        }
        db := SAdd(db, "messages/" + m.channel + ":", messageId);
      } else {
        db := SAdd(db, "messages/general:", messageId);
      }
      SetFields(messageId,
        [("Contents", m.contents), ("Sender", m.sender), ("Channel", m.channel), ("SentTime", m.sentTime)]);
      r := Done(());
    }

    // The members of a set, in whatever order the server returns them, each looked up under its key. A member
    // without a hash makes the backend panic.
    method Collect(members: set<string>, keyOf: string -> string)
      returns (r: Outcome<seq<map<string, string>>>, ghost order: seq<string>)
      ensures r.Done? <==> forall m :: m in members ==> HGetAll(db, keyOf(m)) != map[]
      ensures r.Done? ==> Memory.Enumerates(order, members) && |r.value| == |order|
      ensures r.Done? ==> forall i :: 0 <= i < |order| ==> r.value[i] == HGetAll(db, keyOf(order[i]))
      ensures r.Crash? ==> r.panic == RecordMissing && exists m :: m in members && HGetAll(db, keyOf(m)) == map[]
    {
      var list: seq<map<string, string>> := [];
      var rest := members;
      order := [];
      while rest != {}
        invariant rest <= members
        invariant Memory.Enumerates(order, members - rest)
        invariant |list| == |order| && forall i :: 0 <= i < |order| ==> list[i] == HGetAll(db, keyOf(order[i]))
        invariant forall m :: m in members && m !in rest ==> HGetAll(db, keyOf(m)) != map[]
        decreases |rest|
      {
        var m :| m in rest;
        var data := HGetAll(db, keyOf(m));
        if |data| == 0 {
          return Crash(RecordMissing), [];
        }
        ghost var done := members - rest;
        rest := rest - {m};
        list := list + [data];
        order := order + [m];
        assert members - rest == done + {m};
        assert order[|order| - 1] == m;
      }
      assert members - rest == members;
      r := Done(list);
    }

    method GetParticipants(hash: Digest) returns (r: Outcome<seq<Participant>>, ghost order: seq<string>)
      ensures r.Done? <==> forall u :: u in SMembers(db, PARTICIPANTS) ==> HGetAll(db, hash(u)) != map[]
      ensures r.Done? ==> |r.value| == |SMembers(db, PARTICIPANTS)|
      ensures Retrieved(db, SMembers(db, PARTICIPANTS), hash, ReadParticipant, r, order)
    {
      var found;
      found, order := Collect(SMembers(db, PARTICIPANTS), hash);
      match found
      case Crash(panic) => r := Crash(panic);
      case Done(list) =>
        Memory.SizeOfEnumeration(order, SMembers(db, PARTICIPANTS));
        r := Done(seq(|list|, i requires 0 <= i < |list| => ReadParticipant(list[i])));
    }

    method GetChannels(hash: Digest) returns (r: Outcome<seq<Channel>>, ghost order: seq<string>)
      ensures r.Done? <==> forall c :: c in SMembers(db, CHANNELS) ==> HGetAll(db, hash(c)) != map[]
      ensures r.Done? ==> |r.value| == |SMembers(db, CHANNELS)|
      ensures Retrieved(db, SMembers(db, CHANNELS), hash, ReadChannel, r, order)
    {
      var found;
      found, order := Collect(SMembers(db, CHANNELS), hash);
      match found
      case Crash(panic) => r := Crash(panic);
      case Done(list) =>
        Memory.SizeOfEnumeration(order, SMembers(db, CHANNELS));
        r := Done(seq(|list|, i requires 0 <= i < |list| => ReadChannel(list[i])));
    }

    method GetChatHistory(channel: string) returns (r: Outcome<seq<ChatMessage>>, ghost order: seq<string>)
      ensures channel != "" && channel !in SMembers(db, CHANNELS) ==> r == Crash(UnknownChannel)
      ensures channel == "" || channel in SMembers(db, CHANNELS) ==>
        Retrieved(db, SMembers(db, MessagesKey(channel)), (id: string) => id, ReadMessage, r, order)
    {
      order := [];
      if channel != "" && !SIsMember(db, CHANNELS, channel) {
        return Crash(UnknownChannel), [];
      }
      var found;
      found, order := Collect(SMembers(db, MessagesKey(channel)), (id: string) => id);
      match found
      case Crash(panic) => r := Crash(panic);
      case Done(list) =>
        r := Done(seq(|list|, i requires 0 <= i < |list| => ReadMessage(list[i])));
    }
  }

  // A list of records, one for each member of a set in some order, or a panic over a member without a hash.
  ghost predicate Retrieved<T>(db: Db, members: set<string>, keyOf: string -> string,
                               read: map<string, string> -> T, r: Outcome<seq<T>>, order: seq<string>) {
    match r
    case Done(list) =>
      && Memory.Enumerates(order, members)
      && |list| == |order|
      && forall i :: 0 <= i < |order| ==> list[i] == read(HGetAll(db, keyOf(order[i])))
    case Crash(panic) => panic == RecordMissing && exists m :: m in members && HGetAll(db, keyOf(m)) == map[]
  }
}
