/** The Redis backend refines the memory backend over every sequence of operations. */
module RedisRefinement {
  import opened Text
  import opened Types
  import opened Validation
  import opened Redis
  import Memory

  // ------------------------------------------------------------- the key families are apart

  predicate EndsWithColon(key: string) {
    key != "" && key[|key| - 1] == ':'
  }

  // year-month-day hour:minute:second, nineteen characters.
  predicate IsStamp(t: string) {
    && |t| == 19
    && t[4] == '-' && t[7] == '-' && t[10] == ' ' && t[13] == ':' && t[16] == ':'
    && forall i :: i in {0, 1, 2, 3, 5, 6, 8, 9, 11, 12, 14, 15, 17, 18} ==> IsDigit(t[i])
  }

  lemma SetKeysEndWithColon(channel: string)
    ensures EndsWithColon(PARTICIPANTS) && EndsWithColon(CHANNELS) && EndsWithColon(MessagesKey(channel))
    ensures PARTICIPANTS != CHANNELS && MessagesKey(channel) != PARTICIPANTS && MessagesKey(channel) != CHANNELS
  {
    assert MessagesKey(channel)[0] == 'm' && PARTICIPANTS[0] == 'p' && CHANNELS[0] == 'c';
  }

  lemma HashKeysHaveNoColon(hash: Digest, name: string)
    requires HexShaped(hash)
    ensures ':' !in hash(name) && !EndsWithColon(hash(name))
  {
    assert ValidatePasswordSha256(hash(name));
  }

  lemma IdsHaveInnerColon(sender: string, stamp: string)
    requires IsStamp(stamp)
    ensures ':' in MessageId(sender, stamp) && !EndsWithColon(MessageId(sender, stamp))
  {
    var id := MessageId(sender, stamp);
    assert id[|sender|] == ':';
    assert id[|id| - 1] == stamp[18];
  }

  lemma IdsInjective(a: string, s: string, b: string, t: string)
    requires |s| == |t| && MessageId(a, s) == MessageId(b, t)
    ensures a == b && s == t
  {
    var id := MessageId(a, s);
    assert a == id[..|a|] && s == id[|a| + 1..];
    assert b == id[..|b|] && t == id[|b| + 1..];
  }

  // The message sets of two channels are different keys, except that a channel called "general" shares the set
  // of the general history; no validated name is that short.
  lemma MessagesKeysApart(c: string, d: string)
    ensures MessagesKey(c) == MessagesKey(d) <==> c == d || {c, d} == {"", "general"}
    ensures ValidateName(c) ==> c != "general" && c != ""
  {
    var k, l := MessagesKey(c), MessagesKey(d);
    assert "messages/general:" == "messages/" + "general" + ":";
    assert c != "" ==> k[9..|k| - 1] == c;
    assert d != "" ==> l[9..|l| - 1] == d;
    assert MessagesKey("")[9..16] == "general";
    if c == "" && d != "" && k == l {
      assert d == "general";
    }
    if d == "" && c != "" && k == l {
      assert c == "general";
    }
  }

  // No command ever meets a key of the wrong type: set commands go to keys that end in a colon and hash
  // commands to keys that do not, and values of either type stay on their side.
  predicate TypesOk(db: Db) {
    forall k :: k in db ==> (db[k].SetValue? <==> EndsWithColon(k))
  }

  // ----------------------------------------------------------------------- frame lemmas

  predicate HasFields(data: map<string, string>, fields: Fields) {
    forall i :: 0 <= i < |fields| ==> fields[i].0 in data && data[fields[i].0] == fields[i].1
  }

  predicate NamesDistinct(fields: Fields) {
    forall i, j :: 0 <= i < j < |fields| ==> fields[i].0 != fields[j].0
  }

  predicate NamesApart(a: Fields, b: Fields) {
    forall i, j :: 0 <= i < |a| && 0 <= j < |b| ==> a[i].0 != b[j].0
  }

  lemma {:induction false} HashWriteFrame(db: Db, key: string, fields: Fields)
    requires TypesOk(db) && !EndsWithColon(key) && NamesDistinct(fields)
    ensures var d := HSetEach(db, key, fields);
      && TypesOk(d)
      && (forall k :: k != key ==> HGetAll(d, k) == HGetAll(db, k))
      && (forall k :: SMembers(d, k) == SMembers(db, k))
      && HasFields(HGetAll(d, key), fields)
  {
    if fields != [] {
      HashWriteFrame(db, key, fields[..|fields| - 1]);
    }
  }

  lemma {:induction false} OtherFieldsKept(db: Db, key: string, fields: Fields, other: Fields)
    requires TypesOk(db) && !EndsWithColon(key) && NamesDistinct(fields) && NamesApart(fields, other)
    requires HasFields(HGetAll(db, key), other)
    ensures HasFields(HGetAll(HSetEach(db, key, fields), key), other)
  {
    if fields != [] {
      HashWriteFrame(db, key, fields[..|fields| - 1]);
      OtherFieldsKept(db, key, fields[..|fields| - 1], other);
    }
  }

  lemma SetAddFrame(db: Db, key: string, member: string)
    requires TypesOk(db) && EndsWithColon(key)
    ensures var d := SAdd(db, key, member);
      && TypesOk(d)
      && SMembers(d, key) == SMembers(db, key) + {member}
      && (forall k :: k != key ==> SMembers(d, k) == SMembers(db, k))
      && (forall k :: HGetAll(d, k) == HGetAll(db, k))
  {
  }

  // ----------------------------------------------------------------------- the relation

  // A stored message with the backend clock's reading that became part of its id.
  datatype Stamped = Stamped(msg: ChatMessage, stamp: string)

  function IdOf(x: Stamped): string {
    MessageId(x.msg.sender, x.stamp)
  }

  function MessagesOf(log: seq<Stamped>, channel: string): seq<ChatMessage> {
    if log == [] then []
    else
      var last := log[|log| - 1];
      MessagesOf(log[..|log| - 1], channel) + (if last.msg.channel == channel then [last.msg] else [])
  }

  // The ids that went into the set under this key.
  function Ids(log: seq<Stamped>, key: string): set<string> {
    if log == [] then {}
    else
      var last := log[|log| - 1];
      Ids(log[..|log| - 1], key) + (if MessagesKey(last.msg.channel) == key then {IdOf(last)} else {})
  }

  // The last message stored under an id, in whatever channel.
  function LastUnder(log: seq<Stamped>, id: string): Option<ChatMessage> {
    if log == [] then None
    else
      var last := log[|log| - 1];
      if IdOf(last) == id then Some(last.msg) else LastUnder(log[..|log| - 1], id)
  }

  function StoredFields(p: Participant): Fields {
    [("Username", p.username), ("Password", p.password), ("Email", p.email), ("JoinTime", p.joinTime)]
  }

  predicate ParticipantsAgree(hash: Digest, db: Db, st: Memory.Store) {
    && SMembers(db, PARTICIPANTS) == st.participants.Keys
    && forall u :: u in st.participants ==> HasFields(HGetAll(db, hash(u)), StoredFields(st.participants[u]))
  }

  predicate ChannelsAgree(hash: Digest, db: Db, st: Memory.Store)
    requires st.WellFormed()
  {
    && SMembers(db, CHANNELS) == st.channels.Keys
    && forall c :: c in st.channels ==> HasFields(HGetAll(db, hash(c)), ChannelFields(st.objects[st.channels[c]]))
  }

  predicate IsRoom(st: Memory.Store, c: string) {
    c == "" || c in st.channels
  }

  ghost predicate IdsAgree(db: Db, log: seq<Stamped>) {
    forall c :: SMembers(db, MessagesKey(c)) == Ids(log, MessagesKey(c))
  }

  ghost predicate MessagesAgree(db: Db, log: seq<Stamped>) {
    forall id :: LastUnder(log, id).Some? ==> HasFields(HGetAll(db, id), MessageFields(LastUnder(log, id).value))
  }

  // A channel registered under the empty name never gets a message: the empty name means the general history.
  predicate HistoriesAgree(st: Memory.Store, log: seq<Stamped>)
    requires st.WellFormed()
  {
    && st.chatHistory == MessagesOf(log, "")
    && forall c :: c in st.channels && c != "" ==> st.objects[st.channels[c]].chatHistory == MessagesOf(log, c)
  }

  // The memory backend's own discipline: channel records are not shared and keep the name they are filed
  // under; nothing has been stored for an unregistered channel.
  predicate StoreOk(st: Memory.Store, log: seq<Stamped>) {
    && st.WellFormed()
    && (forall c, d :: c in st.channels && d in st.channels && c != d ==> st.channels[c] != st.channels[d])
    && (forall c :: c in st.channels ==> st.objects[st.channels[c]].name == c)
    && (forall u :: u in st.participants ==> st.participants[u].username == u)
    && (forall k :: 0 <= k < |log| ==> IsStamp(log[k].stamp) && IsRoom(st, log[k].msg.channel))
  }

  ghost predicate Refines(hash: Digest, db: Db, st: Memory.Store, log: seq<Stamped>) {
    && StoreOk(st, log)
    && TypesOk(db)
    && ParticipantsAgree(hash, db, st)
    && ChannelsAgree(hash, db, st)
    && IdsAgree(db, log)
    && MessagesAgree(db, log)
    && HistoriesAgree(st, log)
  }

  // The names hashed so far, among which the checksum has no collision.
  predicate CollisionFree(hash: Digest, names: set<string>) {
    forall a, b :: a in names && b in names && hash(a) == hash(b) ==> a == b
  }

  // ------------------------------------------------------------------------ operations

  datatype Op =
    | AddParticipant(participant: Participant)
    | AddChannel(channel: Channel)
    | Store(msg: ChatMessage, stamp: string)

  function MemoryStep(hash: Digest, st: Memory.Store, op: Op): Outcome<Memory.Store>
    requires st.WellFormed()
  {
    match op
    case AddParticipant(p) => st.RegisterParticipant(hash, p)
    case AddChannel(c) => st.RegisterChannel(c)
    case Store(m, _) => st.StoreMessage(m)
  }

  function RedisStep(hash: Digest, db: Db, op: Op): Outcome<Db> {
    match op
    case AddParticipant(p) => AfterRegisterParticipant(db, hash, p)
    case AddChannel(c) => AfterRegisterChannel(db, hash, c)
    case Store(m, stamp) => AfterStoreMessage(db, m, stamp)
  }

  function Logged(log: seq<Stamped>, op: Op): seq<Stamped> {
    match op
    case Store(m, stamp) => log + [Stamped(m, stamp)]
    case _ => log
  }

  // Any names at all, as long as the checksum has no collision among them, and a clock that prints as expected.
  predicate OpOk(op: Op, names: set<string>) {
    match op
    case AddParticipant(p) => p.username in names
    case AddChannel(c) => c.name in names
    case Store(_, stamp) => IsStamp(stamp)
  }

  // ------------------------------------------------------------------ registering a participant

  lemma {:induction false} AddParticipantKeys(hash: Digest, db: Db, p: Participant)
    requires HexShaped(hash) && TypesOk(db) && p.username !in SMembers(db, PARTICIPANTS)
    ensures AfterRegisterParticipant(db, hash, p).Done?
    ensures var d := AfterRegisterParticipant(db, hash, p).value;
      && TypesOk(d)
      && SMembers(d, PARTICIPANTS) == SMembers(db, PARTICIPANTS) + {p.username}
      && (forall k :: k != PARTICIPANTS ==> SMembers(d, k) == SMembers(db, k))
      && (forall k :: k != hash(p.username) ==> HGetAll(d, k) == HGetAll(db, k))
      && HGetAll(d, hash(p.username)) == HGetAll(HSetEach(db, hash(p.username), ParticipantFields(hash, p)), hash(p.username))
      && HasFields(HGetAll(d, hash(p.username)), StoredFields(Memory.Account(hash, p)))
  {
    var key, fields := hash(p.username), ParticipantFields(hash, p);
    HashKeysHaveNoColon(hash, p.username);
    SetKeysEndWithColon("");
    HashWriteFrame(db, key, fields);
    var d1 := HSetEach(db, key, fields);
    assert fields[0].0 in HGetAll(d1, key);
    SetAddFrame(d1, PARTICIPANTS, p.username);
  }

  lemma {:induction false} UsedIdShape(log: seq<Stamped>, id: string)
    requires LastUnder(log, id).Some? && forall k :: 0 <= k < |log| ==> IsStamp(log[k].stamp)
    ensures ':' in id && !EndsWithColon(id)
  {
    var last := log[|log| - 1];
    if IdOf(last) == id {
      IdsHaveInnerColon(last.msg.sender, last.stamp);
    } else {
      UsedIdShape(log[..|log| - 1], id);
    }
  }

  predicate NamesIn(st: Memory.Store, names: set<string>) {
    st.participants.Keys <= names && st.channels.Keys <= names
  }

  // Writing one name's hash and adding to one of the two name sets leaves every message alone.
  lemma MessagesUntouched(hash: Digest, db: Db, d: Db, log: seq<Stamped>, name: string)
    requires HexShaped(hash) && MessagesAgree(db, log) && IdsAgree(db, log)
    requires forall k :: 0 <= k < |log| ==> IsStamp(log[k].stamp)
    requires forall k :: k != PARTICIPANTS && k != CHANNELS ==> SMembers(d, k) == SMembers(db, k)
    requires forall k :: k != hash(name) ==> HGetAll(d, k) == HGetAll(db, k)
    ensures MessagesAgree(d, log) && IdsAgree(d, log)
  {
    HashKeysHaveNoColon(hash, name);
    forall id | LastUnder(log, id).Some?
      ensures HasFields(HGetAll(d, id), MessageFields(LastUnder(log, id).value))
    {
      UsedIdShape(log, id);
    }
    forall c ensures SMembers(d, MessagesKey(c)) == SMembers(db, MessagesKey(c)) {
      SetKeysEndWithColon(c);
    }
  }

  // No other name in use hashes to the same key.
  predicate Distinguished(hash: Digest, names: set<string>, name: string) {
    forall n :: n in names && n != name ==> hash(n) != hash(name)
  }

  // The effect on the server of writing fields under one name's hash.
  ghost predicate WroteHash(hash: Digest, db: Db, d: Db, name: string, fields: Fields) {
    && !EndsWithColon(hash(name)) && NamesDistinct(fields)
    && (forall k :: k != hash(name) ==> HGetAll(d, k) == HGetAll(db, k))
    && HGetAll(d, hash(name)) == HGetAll(HSetEach(db, hash(name), fields), hash(name))
  }

  predicate HasParticipant(hash: Digest, db: Db, st: Memory.Store, u: string) {
    u in st.participants ==> HasFields(HGetAll(db, hash(u)), StoredFields(st.participants[u]))
  }

  predicate HasChannel(hash: Digest, db: Db, st: Memory.Store, c: string)
    requires st.WellFormed()
  {
    c in st.channels ==> HasFields(HGetAll(db, hash(c)), ChannelFields(st.objects[st.channels[c]]))
  }

  lemma ParticipantKept(hash: Digest, names: set<string>, db: Db, d: Db, st: Memory.Store, name: string, fields: Fields, u: string)
    requires TypesOk(db) && Distinguished(hash, names, name) && WroteHash(hash, db, d, name, fields) && u in names
    requires u in st.participants && HasParticipant(hash, db, st, u)
    requires u == name ==> NamesApart(fields, StoredFields(st.participants[u]))
    ensures HasParticipant(hash, d, st, u)
  {
    if u == name {
      OtherFieldsKept(db, hash(name), fields, StoredFields(st.participants[u]));
    }
  }

  lemma ChannelKept(hash: Digest, names: set<string>, db: Db, d: Db, st: Memory.Store, name: string, fields: Fields, c: string)
    requires TypesOk(db) && Distinguished(hash, names, name) && WroteHash(hash, db, d, name, fields) && c in names
    requires st.WellFormed() && c in st.channels && HasChannel(hash, db, st, c)
    requires c == name ==> NamesApart(fields, ChannelFields(st.objects[st.channels[c]]))
    ensures HasChannel(hash, d, st, c)
  {
    if c == name {
      OtherFieldsKept(db, hash(name), fields, ChannelFields(st.objects[st.channels[c]]));
    }
  }

  lemma NamesKept(hash: Digest, names: set<string>, db: Db, d: Db, st: Memory.Store, name: string, fields: Fields)
    requires TypesOk(db) && Distinguished(hash, names, name) && WroteHash(hash, db, d, name, fields)
    requires st.WellFormed() && NamesIn(st, names)
    requires ParticipantsAgree(hash, db, st) && ChannelsAgree(hash, db, st)
    requires name in st.participants ==> NamesApart(fields, StoredFields(st.participants[name]))
    requires name in st.channels ==> NamesApart(fields, ChannelFields(st.objects[st.channels[name]]))
    ensures forall u :: u in st.participants ==> HasParticipant(hash, d, st, u)
    ensures forall c :: c in st.channels ==> HasChannel(hash, d, st, c)
  {
    forall u | u in st.participants ensures HasParticipant(hash, d, st, u) {
      ParticipantKept(hash, names, db, d, st, name, fields, u);
    }
    forall c | c in st.channels ensures HasChannel(hash, d, st, c) {
      ChannelKept(hash, names, db, d, st, name, fields, c);
    }
  }

  lemma ParticipantHashWritten(hash: Digest, names: set<string>, db: Db, p: Participant)
    requires HexShaped(hash) && CollisionFree(hash, names) && p.username in names
    requires TypesOk(db) && p.username !in SMembers(db, PARTICIPANTS)
    ensures Distinguished(hash, names, p.username)
    ensures var d := AfterRegisterParticipant(db, hash, p);
      d.Done? && WroteHash(hash, db, d.value, p.username, ParticipantFields(hash, p))
  {
    AddParticipantKeys(hash, db, p);
    HashKeysHaveNoColon(hash, p.username);
  }

  function WithParticipant(hash: Digest, st: Memory.Store, p: Participant): Memory.Store {
    st.(participants := st.participants[p.username := Memory.Account(hash, p)])
  }

  lemma AddParticipantNames(hash: Digest, names: set<string>, db: Db, d: Db, st: Memory.Store, p: Participant)
    requires TypesOk(db) && Distinguished(hash, names, p.username)
    requires WroteHash(hash, db, d, p.username, ParticipantFields(hash, p))
    requires st.WellFormed() && NamesIn(st, names) && p.username !in st.participants
    requires ParticipantsAgree(hash, db, st) && ChannelsAgree(hash, db, st)
    requires SMembers(d, PARTICIPANTS) == SMembers(db, PARTICIPANTS) + {p.username}
    requires SMembers(d, CHANNELS) == SMembers(db, CHANNELS)
    requires HasFields(HGetAll(d, hash(p.username)), StoredFields(Memory.Account(hash, p)))
    ensures var st' := WithParticipant(hash, st, p);
      ParticipantsAgree(hash, d, st') && ChannelsAgree(hash, d, st')
  {
    NamesKept(hash, names, db, d, st, p.username, ParticipantFields(hash, p));
    assert forall c :: c in st.channels ==> HasChannel(hash, d, st, c);
    assert forall u :: u in st.participants ==> HasParticipant(hash, d, st, u);
  }

  lemma RegisterEffect(hash: Digest, st: Memory.Store, p: Participant)
    requires HexShaped(hash)
    ensures st.RegisterParticipant(hash, p) ==
      if p.username in st.participants then Crash(ParticipantExists)
      else Done(WithParticipant(hash, st, p))
  {
    assert ValidatePasswordSha256(hash(p.password));
  }

  lemma AddParticipantRefines(hash: Digest, names: set<string>, db: Db, st: Memory.Store, log: seq<Stamped>, p: Participant)
    requires HexShaped(hash) && CollisionFree(hash, names) && NamesIn(st, names) && p.username in names
    requires Refines(hash, db, st, log) && p.username !in st.participants
    ensures var d := AfterRegisterParticipant(db, hash, p);
      d.Done? && Refines(hash, d.value, WithParticipant(hash, st, p), log) && NamesIn(WithParticipant(hash, st, p), names)
  {
    AddParticipantKeys(hash, db, p);
    ParticipantHashWritten(hash, names, db, p);
    var d := AfterRegisterParticipant(db, hash, p).value;
    AddParticipantNames(hash, names, db, d, st, p);
    MessagesUntouched(hash, db, d, log, p.username);
    SameRooms(st, WithParticipant(hash, st, p), log);
  }

  // Nothing about messages depends on the accounts.
  lemma SameRooms(st: Memory.Store, st': Memory.Store, log: seq<Stamped>)
    requires st' == st.(participants := st'.participants) && StoreOk(st, log) && HistoriesAgree(st, log)
    requires forall u :: u in st'.participants ==> st'.participants[u].username == u
    ensures StoreOk(st', log) && HistoriesAgree(st', log)
  {
    assert forall c :: IsRoom(st', c) == IsRoom(st, c);
  }

  // -------------------------------------------------------------------- registering a channel

  lemma {:induction false} AddChannelKeys(hash: Digest, db: Db, c: Channel)
    requires HexShaped(hash) && TypesOk(db) && c.name !in SMembers(db, CHANNELS)
    ensures AfterRegisterChannel(db, hash, c).Done?
    ensures var d := AfterRegisterChannel(db, hash, c).value;
      && TypesOk(d)
      && SMembers(d, CHANNELS) == SMembers(db, CHANNELS) + {c.name}
      && (forall k :: k != CHANNELS ==> SMembers(d, k) == SMembers(db, k))
      && (forall k :: k != hash(c.name) ==> HGetAll(d, k) == HGetAll(db, k))
      && HGetAll(d, hash(c.name)) == HGetAll(HSetEach(db, hash(c.name), ChannelFields(c)), hash(c.name))
      && HasFields(HGetAll(d, hash(c.name)), ChannelFields(c))
  {
    var key, fields := hash(c.name), ChannelFields(c);
    HashKeysHaveNoColon(hash, c.name);
    SetKeysEndWithColon("");
    HashWriteFrame(db, key, fields);
    var d1 := HSetEach(db, key, fields);
    assert fields[0].0 in HGetAll(d1, key);
    SetAddFrame(d1, CHANNELS, c.name);
  }

  function WithChannel(st: Memory.Store, c: Channel): Memory.Store
    requires c.name !in st.channels
  {
    st.RegisterChannel(c).value
  }

  lemma ChannelHashWritten(hash: Digest, names: set<string>, db: Db, c: Channel)
    requires HexShaped(hash) && CollisionFree(hash, names) && c.name in names
    requires TypesOk(db) && c.name !in SMembers(db, CHANNELS)
    ensures Distinguished(hash, names, c.name)
    ensures var d := AfterRegisterChannel(db, hash, c);
      d.Done? && WroteHash(hash, db, d.value, c.name, ChannelFields(c))
  {
    AddChannelKeys(hash, db, c);
    HashKeysHaveNoColon(hash, c.name);
  }

  lemma AddChannelNames(hash: Digest, names: set<string>, db: Db, d: Db, st: Memory.Store, c: Channel)
    requires TypesOk(db) && Distinguished(hash, names, c.name)
    requires WroteHash(hash, db, d, c.name, ChannelFields(c))
    requires st.WellFormed() && NamesIn(st, names) && c.name !in st.channels
    requires ParticipantsAgree(hash, db, st) && ChannelsAgree(hash, db, st)
    requires SMembers(d, CHANNELS) == SMembers(db, CHANNELS) + {c.name}
    requires SMembers(d, PARTICIPANTS) == SMembers(db, PARTICIPANTS)
    requires HasFields(HGetAll(d, hash(c.name)), ChannelFields(c))
    ensures var st' := WithChannel(st, c);
      ParticipantsAgree(hash, d, st') && st'.WellFormed() && ChannelsAgree(hash, d, st')
  {
    NamesKept(hash, names, db, d, st, c.name, ChannelFields(c));
    AddChannelAgrees(hash, d, st, c);
    assert forall u :: u in st.participants ==> HasParticipant(hash, d, st, u);
  }

  lemma AddChannelAgrees(hash: Digest, d: Db, st: Memory.Store, c: Channel)
    requires st.WellFormed() && c.name !in st.channels
    requires SMembers(d, CHANNELS) == st.channels.Keys + {c.name}
    requires forall b :: b in st.channels ==> HasChannel(hash, d, st, b)
    requires HasFields(HGetAll(d, hash(c.name)), ChannelFields(c))
    ensures WithChannel(st, c).WellFormed() && ChannelsAgree(hash, d, WithChannel(st, c))
  {
    var st' := WithChannel(st, c);
    forall b | b in st'.channels ensures HasFields(HGetAll(d, hash(b)), ChannelFields(st'.objects[st'.channels[b]])) {
      ChannelAmong(hash, d, st, c, b);
    }
  }

  lemma ChannelAmong(hash: Digest, d: Db, st: Memory.Store, c: Channel, b: string)
    requires st.WellFormed() && c.name !in st.channels && (b in st.channels || b == c.name)
    requires b in st.channels ==> HasChannel(hash, d, st, b)
    requires HasFields(HGetAll(d, hash(c.name)), ChannelFields(c))
    ensures var st' := WithChannel(st, c);
      st'.WellFormed() && HasFields(HGetAll(d, hash(b)), ChannelFields(st'.objects[st'.channels[b]]))
  {
    var st' := WithChannel(st, c);
    if b != c.name {
      assert st'.objects[st'.channels[b]] == st.objects[st.channels[b]];
    }
  }

  lemma {:induction false} NothingFor(log: seq<Stamped>, c: string)
    requires forall k :: 0 <= k < |log| ==> log[k].msg.channel != c
    ensures MessagesOf(log, c) == []
  {
    if log != [] {
      NothingFor(log[..|log| - 1], c);
    }
  }

  // The memory backend starts a new channel with an empty history.
  lemma NewChannelIsEmpty(st: Memory.Store, log: seq<Stamped>, c: Channel)
    requires StoreOk(st, log) && c.name !in st.channels && HistoriesAgree(st, log)
    ensures StoreOk(WithChannel(st, c), log) && HistoriesAgree(WithChannel(st, c), log)
  {
    assert forall k :: 0 <= k < |log| ==> IsRoom(st, log[k].msg.channel);
    if c.name != "" {
      NothingFor(log, c.name);
    }
    NewChannelStore(st, log, c);
  }

  lemma {:induction false} NewChannelStore(st: Memory.Store, log: seq<Stamped>, c: Channel)
    requires StoreOk(st, log) && c.name !in st.channels
    requires HistoriesAgree(st, log) && (c.name != "" ==> MessagesOf(log, c.name) == [])
    ensures StoreOk(WithChannel(st, c), log) && HistoriesAgree(WithChannel(st, c), log)
  {
    NewRecord(st, c);
    var st' := WithChannel(st, c);
    forall b, d | b in st'.channels && d in st'.channels && b != d ensures st'.channels[b] != st'.channels[d] {
    }
    assert forall b :: IsRoom(st', b) <==> IsRoom(st, b) || b == c.name;
  }

  lemma NewRecord(st: Memory.Store, c: Channel)
    requires st.WellFormed() && c.name !in st.channels
    ensures var st' := WithChannel(st, c);
      && st'.WellFormed() && st'.participants == st.participants && st'.chatHistory == st.chatHistory
      && st'.channels.Keys == st.channels.Keys + {c.name}
      && (forall b :: b in st.channels ==>
            st'.channels[b] == st.channels[b] && st'.objects[st'.channels[b]] == st.objects[st.channels[b]])
      && st'.channels[c.name] == |st.objects|
      && st'.objects[st'.channels[c.name]].name == c.name && st'.objects[st'.channels[c.name]].chatHistory == []
  {
  }

  lemma AddChannelRefines(hash: Digest, names: set<string>, db: Db, st: Memory.Store, log: seq<Stamped>, c: Channel)
    requires HexShaped(hash) && CollisionFree(hash, names) && NamesIn(st, names) && c.name in names
    requires Refines(hash, db, st, log) && c.name !in st.channels
    ensures var d := AfterRegisterChannel(db, hash, c);
      d.Done? && Refines(hash, d.value, WithChannel(st, c), log) && NamesIn(WithChannel(st, c), names)
  {
    var st' := WithChannel(st, c);
    AddChannelKeys(hash, db, c);
    ChannelHashWritten(hash, names, db, c);
    var d := AfterRegisterChannel(db, hash, c).value;
    AddChannelNames(hash, names, db, d, st, c);
    MessagesUntouched(hash, db, d, log, c.name);
    NewChannelIsEmpty(st, log, c);
  }

  // ------------------------------------------------------------------------ storing a message

  lemma StoreKeys(hash: Digest, db: Db, m: ChatMessage, stamp: string)
    requires TypesOk(db) && IsStamp(stamp) && (m.channel == "" || m.channel in SMembers(db, CHANNELS))
    ensures AfterStoreMessage(db, m, stamp).Done?
    ensures var d, id := AfterStoreMessage(db, m, stamp).value, MessageId(m.sender, stamp);
      && TypesOk(d)
      && SMembers(d, MessagesKey(m.channel)) == SMembers(db, MessagesKey(m.channel)) + {id}
      && (forall k :: k != MessagesKey(m.channel) ==> SMembers(d, k) == SMembers(db, k))
      && (forall k :: k != id ==> HGetAll(d, k) == HGetAll(db, k))
      && HasFields(HGetAll(d, id), MessageFields(m))
  {
    var id := MessageId(m.sender, stamp);
    IdsHaveInnerColon(m.sender, stamp);
    SetKeysEndWithColon(m.channel);
    SetAddFrame(db, MessagesKey(m.channel), id);
    HashWriteFrame(SAdd(db, MessagesKey(m.channel), id), id, MessageFields(m));
  }

  function WithMessage(st: Memory.Store, m: ChatMessage): Memory.Store
    requires st.WellFormed() && IsRoom(st, m.channel)
  {
    st.StoreMessage(m).value
  }

  lemma StoreNames(hash: Digest, db: Db, st: Memory.Store, log: seq<Stamped>, m: ChatMessage, stamp: string)
    requires HexShaped(hash) && StoreOk(st, log) && TypesOk(db) && IsStamp(stamp) && IsRoom(st, m.channel)
    requires ParticipantsAgree(hash, db, st) && ChannelsAgree(hash, db, st)
    ensures var d, st' := AfterStoreMessage(db, m, stamp), WithMessage(st, m);
      && d.Done? && st'.WellFormed()
      && ParticipantsAgree(hash, d.value, st') && ChannelsAgree(hash, d.value, st')
  {
    StoreKeys(hash, db, m, stamp);
    SetKeysEndWithColon(m.channel);
    IdsHaveInnerColon(m.sender, stamp);
    forall n ensures hash(n) != MessageId(m.sender, stamp) {
      HashKeysHaveNoColon(hash, n);
    }
  }

  lemma StoreIds(db: Db, d: Db, log: seq<Stamped>, x: Stamped)
    requires IdsAgree(db, log)
    requires SMembers(d, MessagesKey(x.msg.channel)) == SMembers(db, MessagesKey(x.msg.channel)) + {IdOf(x)}
    requires forall k :: k != MessagesKey(x.msg.channel) ==> SMembers(d, k) == SMembers(db, k)
    ensures IdsAgree(d, log + [x])
  {
    assert (log + [x])[..|log|] == log;
  }

  lemma StoreHistories(st: Memory.Store, log: seq<Stamped>, x: Stamped)
    requires StoreOk(st, log) && IsStamp(x.stamp) && IsRoom(st, x.msg.channel) && HistoriesAgree(st, log)
    ensures var st' := WithMessage(st, x.msg); StoreOk(st', log + [x]) && HistoriesAgree(st', log + [x])
  {
    assert (log + [x])[..|log|] == log;
    var st' := WithMessage(st, x.msg);
    assert forall c :: IsRoom(st', c) == IsRoom(st, c);
  }

  lemma StoreRefines(hash: Digest, db: Db, st: Memory.Store, log: seq<Stamped>, m: ChatMessage, stamp: string)
    requires HexShaped(hash) && Refines(hash, db, st, log) && IsStamp(stamp) && IsRoom(st, m.channel)
    ensures var d := AfterStoreMessage(db, m, stamp);
      d.Done? && Refines(hash, d.value, WithMessage(st, m), log + [Stamped(m, stamp)])
  {
    var x := Stamped(m, stamp);
    var st' := WithMessage(st, m);
    StoreNames(hash, db, st, log, m, stamp);
    StoreKeys(hash, db, m, stamp);
    var d := AfterStoreMessage(db, m, stamp).value;
    StoreIds(db, d, log, x);
    StoreHistories(st, log, x);
    StoreMessages(db, d, log, x);
    assert forall c :: IsRoom(st', c) == IsRoom(st, c);
  }

  lemma StoreMessages(db: Db, d: Db, log: seq<Stamped>, x: Stamped)
    requires MessagesAgree(db, log) && HasFields(HGetAll(d, IdOf(x)), MessageFields(x.msg))
    requires forall k :: k != IdOf(x) ==> HGetAll(d, k) == HGetAll(db, k)
    ensures MessagesAgree(d, log + [x])
  {
    assert (log + [x])[..|log|] == log;
  }

  // ------------------------------------------------------------------- every run of operations

  function RunMemory(hash: Digest, ops: seq<Op>): (r: Outcome<Memory.Store>)
    ensures r.Done? ==> r.value.WellFormed()
  {
    if ops == [] then Done(Memory.EMPTY)
    else
      match RunMemory(hash, ops[..|ops| - 1])
      case Crash(panic) => Crash(panic)
      case Done(st) => MemoryStep(hash, st, ops[|ops| - 1])
  }

  function RunRedis(hash: Digest, ops: seq<Op>): Outcome<Db> {
    if ops == [] then Done(map[])
    else
      match RunRedis(hash, ops[..|ops| - 1])
      case Crash(panic) => Crash(panic)
      case Done(db) => RedisStep(hash, db, ops[|ops| - 1])
  }

  function LogOf(ops: seq<Op>): seq<Stamped> {
    if ops == [] then [] else Logged(LogOf(ops[..|ops| - 1]), ops[|ops| - 1])
  }

  lemma StepRefines(hash: Digest, names: set<string>, db: Db, st: Memory.Store, log: seq<Stamped>, op: Op)
    requires HexShaped(hash) && CollisionFree(hash, names) && NamesIn(st, names) && OpOk(op, names)
    requires Refines(hash, db, st, log)
    ensures match (MemoryStep(hash, st, op), RedisStep(hash, db, op))
      case (Done(st'), Done(db')) => Refines(hash, db', st', Logged(log, op)) && NamesIn(st', names)
      case (Crash(a), Crash(b)) => a == b
      case _ => false
  {
    match op
    case AddParticipant(p) =>
      RegisterEffect(hash, st, p);
      assert ValidatePasswordSha256(hash(p.password));
      if p.username !in st.participants {
        AddParticipantRefines(hash, names, db, st, log, p);
      }
    case AddChannel(c) =>
      if c.name !in st.channels {
        AddChannelRefines(hash, names, db, st, log, c);
      }
    case Store(m, stamp) =>
      if IsRoom(st, m.channel) {
        StoreRefines(hash, db, st, log, m, stamp);
      }
  }

  // Over every sequence of registrations and stores the two backends panic at the same operation for the
  // same reason, or both go on and stay related.
  lemma {:induction false} RedisRefinesMemory(hash: Digest, names: set<string>, ops: seq<Op>)
    requires HexShaped(hash) && CollisionFree(hash, names)
    requires forall k :: 0 <= k < |ops| ==> OpOk(ops[k], names)
    ensures match (RunMemory(hash, ops), RunRedis(hash, ops))
      case (Done(st), Done(db)) => Refines(hash, db, st, LogOf(ops)) && NamesIn(st, names)
      case (Crash(a), Crash(b)) => a == b
      case _ => false
  {
    if ops != [] {
      var front, op := ops[..|ops| - 1], ops[|ops| - 1];
      RedisRefinesMemory(hash, names, front);
      if RunMemory(hash, front).Done? {
        StepRefines(hash, names, RunRedis(hash, front).value, RunMemory(hash, front).value, LogOf(front), op);
      }
    }
  }

  // ---------------------------------------------------------------------- what queries return

  lemma {:induction false} IdsAreUsed(log: seq<Stamped>, key: string, id: string)
    requires id in Ids(log, key)
    ensures LastUnder(log, id).Some?
  {
    if IdOf(log[|log| - 1]) != id {
      IdsAreUsed(log[..|log| - 1], key, id);
    }
  }

  lemma FieldsRead(data: map<string, string>)
    ensures forall p: Participant :: HasFields(data, StoredFields(p)) ==> ReadParticipant(data) == p
    ensures forall m: ChatMessage :: HasFields(data, MessageFields(m)) ==> ReadMessage(data) == m
    ensures forall c: Channel :: HasFields(data, ChannelFields(c)) ==>
      ReadChannel(data) == c.(chatHistory := [], members := [])
  {
    forall p: Participant | HasFields(data, StoredFields(p)) ensures ReadParticipant(data) == p {
      var f := StoredFields(p);
      assert f[0].0 in data && f[1].0 in data && f[2].0 in data && f[3].0 in data;
    }
    forall m: ChatMessage | HasFields(data, MessageFields(m)) ensures ReadMessage(data) == m {
      var f := MessageFields(m);
      assert f[0].0 in data && f[1].0 in data && f[2].0 in data && f[3].0 in data;
    }
    forall c: Channel | HasFields(data, ChannelFields(c))
      ensures ReadChannel(data) == c.(chatHistory := [], members := [])
    {
      var f := ChannelFields(c);
      assert f[0].0 in data && f[1].0 in data && f[2].0 in data && f[3].0 in data;
    }
  }

  // The participants Redis lists are those the memory backend lists, in some order; it never panics.
  lemma ParticipantListsAgree(hash: Digest, db: Db, st: Memory.Store, log: seq<Stamped>,
                              r: Outcome<seq<Participant>>, order: seq<string>)
    requires Refines(hash, db, st, log)
    requires Retrieved(db, SMembers(db, PARTICIPANTS), hash, ReadParticipant, r, order)
    ensures r.Done? && Memory.Listing(r.value, st.participants)
  {
    forall u | u in st.participants
      ensures HGetAll(db, hash(u)) != map[] && ReadParticipant(HGetAll(db, hash(u))) == st.participants[u]
    {
      FieldsRead(HGetAll(db, hash(u)));
      assert StoredFields(st.participants[u])[0].0 in HGetAll(db, hash(u));
    }
    if r.Done? {
      assert Memory.ListedBy(r.value, st.participants, order);
    }
  }

  // Redis lets a stored account in exactly when the password supplied hashes as the owner's does. So the two
  // backends answer alike exactly when that is the case together with, or fails together with, the accident
  // that the memory backend asks for instead.
  lemma AuthAnswersExactly(hash: Digest, db: Db, st: Memory.Store, log: seq<Stamped>, p: Participant, owner: Participant)
    requires HexShaped(hash) && Refines(hash, db, st, log)
    requires p.username in st.participants ==> st.participants[p.username] == Memory.Account(hash, owner)
    ensures Authenticates(db, hash, p) <==> p.username in st.participants && hash(p.password) == hash(owner.password)
    ensures (Authenticates(db, hash, p) <==> st.AuthParticipant(hash, p)) <==>
      (p.username in st.participants ==>
         (hash(p.password) == hash(owner.password) <==> hash(hash(owner.password)) == hash(owner.password)))
  {
    Memory.AuthExactly(hash, st, p, owner);
    if p.username in st.participants {
      var fields := StoredFields(st.participants[p.username]);
      assert fields[1] == ("Password", hash(owner.password));
      assert ValidatePasswordSha256(hash(p.password)) && ValidatePasswordSha256(hash(owner.password));
      Memory.HashesFoldApart(hash(p.password), hash(owner.password));
    }
  }

  // Channel records without history and members, which the Redis backend does not fetch.
  function Heads(st: Memory.Store): map<string, Channel>
    requires st.WellFormed()
  {
    map c | c in st.channels :: st.objects[st.channels[c]].(chatHistory := [], members := [])
  }

  lemma ChannelListsAgree(hash: Digest, db: Db, st: Memory.Store, log: seq<Stamped>,
                          r: Outcome<seq<Channel>>, order: seq<string>)
    requires Refines(hash, db, st, log)
    requires Retrieved(db, SMembers(db, CHANNELS), hash, ReadChannel, r, order)
    ensures r.Done? && Memory.Listing(r.value, Heads(st))
  {
    forall c | c in st.channels
      ensures HGetAll(db, hash(c)) != map[] && ReadChannel(HGetAll(db, hash(c))) == Heads(st)[c]
    {
      FieldsRead(HGetAll(db, hash(c)));
      assert ChannelFields(st.objects[st.channels[c]])[0].0 in HGetAll(db, hash(c));
    }
    if r.Done? {
      assert Heads(st).Keys == st.channels.Keys;
      assert Memory.ListedBy(r.value, Heads(st), order);
    }
  }

  // A history read from Redis has one message for each id in the channel's set: the last one stored under that
  // id anywhere. It never panics over a missing record.
  lemma {:induction false} HistoryIsDeduplicated(hash: Digest, db: Db, st: Memory.Store, log: seq<Stamped>, c: string,
                              r: Outcome<seq<ChatMessage>>, order: seq<string>)
    requires Refines(hash, db, st, log) && IsRoom(st, c)
    requires Retrieved(db, SMembers(db, MessagesKey(c)), (id: string) => id, ReadMessage, r, order)
    ensures r.Done? && Memory.Enumerates(order, Ids(log, MessagesKey(c))) && |r.value| == |order|
    ensures forall i :: 0 <= i < |order| ==> LastUnder(log, order[i]) == Some(r.value[i])
    ensures st.GetChatHistory(c) == Done(MessagesOf(log, c))
  {
    forall id | id in Ids(log, MessagesKey(c))
      ensures HGetAll(db, id) != map[] && LastUnder(log, id) == Some(ReadMessage(HGetAll(db, id)))
    {
      IdsAreUsed(log, MessagesKey(c), id);
      FieldsRead(HGetAll(db, id));
      assert MessageFields(LastUnder(log, id).value)[0].0 in HGetAll(db, id);
    }
  }

  // The ids of one channel's own messages.
  function OwnIds(log: seq<Stamped>, channel: string): set<string> {
    if log == [] then {}
    else
      var last := log[|log| - 1];
      OwnIds(log[..|log| - 1], channel) + (if last.msg.channel == channel then {IdOf(last)} else {})
  }

  // No message of this channel has its id used again later, in this channel or in any other.
  predicate NeverReused(log: seq<Stamped>, c: string) {
    forall i, j :: 0 <= i < j < |log| && log[i].msg.channel == c ==> IdOf(log[i]) != IdOf(log[j])
  }

  lemma {:induction false} OwnIdsComeFromLog(log: seq<Stamped>, c: string, id: string)
    ensures id in OwnIds(log, c) <==> exists k :: 0 <= k < |log| && log[k].msg.channel == c && IdOf(log[k]) == id
  {
    if log != [] {
      var front := log[..|log| - 1];
      OwnIdsComeFromLog(front, c, id);
      if k :| 0 <= k < |front| && front[k].msg.channel == c && IdOf(front[k]) == id {
        assert log[k] == front[k];
      }
      if k :| 0 <= k < |log| && log[k].msg.channel == c && IdOf(log[k]) == id {
        assert k < |front| ==> front[k] == log[k];
      }
    }
  }

  predicate Shows(log: seq<Stamped>, order: seq<string>, list: seq<ChatMessage>) {
    |list| == |order| && forall i :: 0 <= i < |order| ==> LastUnder(log, order[i]) == Some(list[i])
  }

  lemma RemoveAt(list: seq<ChatMessage>, k: nat)
    requires k < |list|
    ensures multiset(list) == multiset(list[..k] + list[k + 1..]) + multiset{list[k]}
  {
    assert list == list[..k] + [list[k]] + list[k + 1..];
  }

  lemma {:induction false} FreshHistory(log: seq<Stamped>, c: string, order: seq<string>, list: seq<ChatMessage>)
    requires NeverReused(log, c) && Memory.Enumerates(order, OwnIds(log, c)) && Shows(log, order, list)
    ensures multiset(list) == multiset(MessagesOf(log, c))
    decreases |log|
  {
    if log != [] {
      var front, x := log[..|log| - 1], log[|log| - 1];
      forall id | id in OwnIds(front, c) ensures id != IdOf(x) {
        OwnIdsComeFromLog(front, c, id);
      }
      if x.msg.channel != c {
        FreshHistory(front, c, order, list);
      } else {
        var k :| 0 <= k < |order| && order[k] == IdOf(x);
        var order', list' := order[..k] + order[k + 1..], list[..k] + list[k + 1..];
        Memory.EnumeratesWithout(order, OwnIds(log, c), k);
        assert OwnIds(log, c) - {IdOf(x)} == OwnIds(front, c);
        RemoveAt(list, k);
        FreshHistory(front, c, order', list');
      }
    }
  }

  lemma {:induction false} FewerIdsThanMessages(log: seq<Stamped>, c: string)
    ensures |OwnIds(log, c)| <= |MessagesOf(log, c)|
    ensures (exists i: nat, j: nat :: SameChannelReuse(log, c, i, j)) ==> |OwnIds(log, c)| < |MessagesOf(log, c)|
  {
    if log != [] {
      var front, n := log[..|log| - 1], |log| - 1;
      FewerIdsThanMessages(front, c);
      if i: nat, j: nat :| SameChannelReuse(log, c, i, j) {
        if j < n {
          assert SameChannelReuse(front, c, i, j);
        } else {
          OwnIdsComeFromLog(front, c, IdOf(log[n]));
          assert front[i] == log[i];
          assert OwnIds(log, c) == OwnIds(front, c);
        }
      }
    }
  }

  predicate SameChannelReuse(log: seq<Stamped>, c: string, i: nat, j: nat) {
    i < j < |log| && log[i].msg.channel == c && log[j].msg.channel == c && IdOf(log[i]) == IdOf(log[j])
  }

  lemma {:induction false} LastIsLast(log: seq<Stamped>, j: nat) returns (k: nat)
    requires j < |log|
    ensures j <= k < |log| && IdOf(log[k]) == IdOf(log[j]) && LastUnder(log, IdOf(log[j])) == Some(log[k].msg)
  {
    if IdOf(log[|log| - 1]) == IdOf(log[j]) {
      k := |log| - 1;
    } else {
      k := LastIsLast(log[..|log| - 1], j);
    }
  }

  lemma {:induction false} MessagesAreOfChannel(log: seq<Stamped>, c: string, m: ChatMessage)
    requires m in MessagesOf(log, c)
    ensures m.channel == c
  {
    if m in MessagesOf(log[..|log| - 1], c) {
      MessagesAreOfChannel(log[..|log| - 1], c, m);
    }
  }

  lemma {:induction false} PermutationMeansFresh(log: seq<Stamped>, c: string, order: seq<string>, list: seq<ChatMessage>)
    requires Memory.Enumerates(order, OwnIds(log, c)) && Shows(log, order, list)
    requires multiset(list) == multiset(MessagesOf(log, c))
    ensures NeverReused(log, c)
  {
    forall i, j | 0 <= i < j < |log| && log[i].msg.channel == c ensures IdOf(log[i]) != IdOf(log[j]) {
      if IdOf(log[i]) == IdOf(log[j]) {
        var k := LastIsLast(log, j);
        assert |multiset(list)| == |list| && |multiset(MessagesOf(log, c))| == |MessagesOf(log, c)|;
        Memory.SizeOfEnumeration(order, OwnIds(log, c));
        FewerIdsThanMessages(log, c);
        assert !SameChannelReuse(log, c, i, k);
        OwnIdsComeFromLog(log, c, IdOf(log[i]));
        var p :| 0 <= p < |order| && order[p] == IdOf(log[i]);
        assert list[p] == log[k].msg && list[p] in multiset(list);
        MessagesAreOfChannel(log, c, log[k].msg);
        assert false;
      }
    }
  }

  lemma {:induction false} IdsComeFromLog(log: seq<Stamped>, key: string, id: string)
    ensures id in Ids(log, key) <==>
      exists k :: 0 <= k < |log| && MessagesKey(log[k].msg.channel) == key && IdOf(log[k]) == id
  {
    if log != [] {
      var front := log[..|log| - 1];
      IdsComeFromLog(front, key, id);
      if k :| 0 <= k < |front| && MessagesKey(front[k].msg.channel) == key && IdOf(front[k]) == id {
        assert log[k] == front[k];
      }
      if k :| 0 <= k < |log| && MessagesKey(log[k].msg.channel) == key && IdOf(log[k]) == id {
        assert k < |front| ==> front[k] == log[k];
      }
    }
  }

  // A message of another channel in this channel's set, with no later message of this channel under its id.
  // Only the general history and a channel called "general" share a set.
  predicate Intruder(log: seq<Stamped>, c: string, k: nat) {
    && k < |log| && MessagesKey(log[k].msg.channel) == MessagesKey(c) && log[k].msg.channel != c
    && forall j :: k < j < |log| && log[j].msg.channel == c ==> IdOf(log[j]) != IdOf(log[k])
  }

  predicate Unmixed(log: seq<Stamped>, c: string) {
    forall k: nat :: k < |log| ==> !Intruder(log, c, k)
  }

  lemma {:induction false} UnmixedMeansOwn(log: seq<Stamped>, c: string)
    requires Unmixed(log, c)
    ensures Ids(log, MessagesKey(c)) == OwnIds(log, c)
  {
    forall id ensures id in Ids(log, MessagesKey(c)) <==> id in OwnIds(log, c) {
      IdsComeFromLog(log, MessagesKey(c), id);
      OwnIdsComeFromLog(log, c, id);
      if k: nat :| k < |log| && MessagesKey(log[k].msg.channel) == MessagesKey(c) && IdOf(log[k]) == id {
        assert !Intruder(log, c, k);
      }
    }
  }

  lemma {:induction false} OwnMeansUnmixed(log: seq<Stamped>, c: string, order: seq<string>, list: seq<ChatMessage>)
    requires Memory.Enumerates(order, Ids(log, MessagesKey(c))) && Shows(log, order, list)
    requires forall i :: 0 <= i < |list| ==> list[i].channel == c
    ensures Unmixed(log, c)
  {
    forall k: nat ensures !Intruder(log, c, k) {
      if Intruder(log, c, k) {
        IdsComeFromLog(log, MessagesKey(c), IdOf(log[k]));
        var p :| 0 <= p < |order| && order[p] == IdOf(log[k]);
        var j := LastIsLast(log, k);
        assert false;
      }
    }
  }

  lemma {:induction false} PermutationHasOwnChannel(log: seq<Stamped>, c: string, list: seq<ChatMessage>)
    requires multiset(list) == multiset(MessagesOf(log, c))
    ensures forall i :: 0 <= i < |list| ==> list[i].channel == c
  {
    forall i | 0 <= i < |list| ensures list[i].channel == c {
      assert list[i] in multiset(list);
      MessagesAreOfChannel(log, c, list[i]);
    }
  }

  // A history read from Redis is a permutation of the memory backend's exactly when no id of one of its
  // messages (sender and second) was ever used again, in this channel or elsewhere, and no message of another
  // channel is left in its set.
  lemma HistoriesAgreeExactly(hash: Digest, db: Db, st: Memory.Store, log: seq<Stamped>, c: string,
                              r: Outcome<seq<ChatMessage>>, order: seq<string>)
    requires Refines(hash, db, st, log) && IsRoom(st, c)
    requires Retrieved(db, SMembers(db, MessagesKey(c)), (id: string) => id, ReadMessage, r, order)
    ensures r.Done? && st.GetChatHistory(c).Done?
    ensures multiset(r.value) == multiset(st.GetChatHistory(c).value) <==> NeverReused(log, c) && Unmixed(log, c)
  {
    HistoryIsDeduplicated(hash, db, st, log, c, r, order);
    if NeverReused(log, c) && Unmixed(log, c) {
      UnmixedMeansOwn(log, c);
      FreshHistory(log, c, order, r.value);
    }
    if multiset(r.value) == multiset(MessagesOf(log, c)) {
      PermutationHasOwnChannel(log, c, r.value);
      OwnMeansUnmixed(log, c, order, r.value);
      UnmixedMeansOwn(log, c);
      PermutationMeansFresh(log, c, order, r.value);
    }
  }

  // Without a channel called "general" no set is shared, and reuse of ids alone decides.
  lemma HistoriesAgreeExactlyWhenFresh(hash: Digest, db: Db, st: Memory.Store, log: seq<Stamped>, c: string,
                                       r: Outcome<seq<ChatMessage>>, order: seq<string>)
    requires Refines(hash, db, st, log) && IsRoom(st, c) && "general" !in st.channels
    requires Retrieved(db, SMembers(db, MessagesKey(c)), (id: string) => id, ReadMessage, r, order)
    ensures r.Done? && st.GetChatHistory(c).Done?
    ensures multiset(r.value) == multiset(st.GetChatHistory(c).value) <==> NeverReused(log, c)
  {
    HistoriesAgreeExactly(hash, db, st, log, c, r, order);
    UnmixedWithoutGeneral(st, log, c);
  }

  lemma UnmixedWithoutGeneral(st: Memory.Store, log: seq<Stamped>, c: string)
    requires StoreOk(st, log) && IsRoom(st, c) && "general" !in st.channels
    ensures Unmixed(log, c)
  {
    forall k: nat | k < |log| ensures !Intruder(log, c, k) {
      assert IsRoom(st, log[k].msg.channel);
      MessagesKeysApart(log[k].msg.channel, c);
    }
  }

  // What Redis returns as the general history after this log.
  ghost predicate GeneralFrom(db: Outcome<Db>, r: Outcome<seq<ChatMessage>>, order: seq<string>) {
    db.Done? && Retrieved(db.value, SMembers(db.value, MessagesKey("")), (id: string) => id, ReadMessage, r, order)
  }

  // Whatever was logged last under the only id in the general set is the whole general history.
  lemma {:induction false} OneIdOneMessage(hash: Digest, db: Db, st: Memory.Store, log: seq<Stamped>, x: Stamped,
                        r: Outcome<seq<ChatMessage>>, order: seq<string>)
    requires Refines(hash, db, st, log) && Ids(log, MessagesKey("")) == {IdOf(x)} && log != [] && log[|log| - 1] == x
    requires GeneralFrom(Done(db), r, order)
    ensures r == Done([x.msg]) && st.GetChatHistory("") == Done(MessagesOf(log, ""))
  {
    HistoryIsDeduplicated(hash, db, st, log, "", r, order);
    Memory.SizeOfEnumeration(order, {IdOf(x)});
    assert order[0] in {IdOf(x)};
    assert LastUnder(log, IdOf(x)) == Some(x.msg);
    assert r.value == [x.msg];
  }

  lemma LogOfTwo(a: Op, b: Op)
    ensures LogOf([a, b]) == Logged(Logged([], a), b)
  {
    assert [a, b][..1] == [a] && [a][..0] == [];
    assert LogOf([a]) == Logged([], a);
  }

  lemma OneLogged(x: Stamped)
    ensures Ids([x], MessagesKey(x.msg.channel)) == {IdOf(x)}
    ensures MessagesOf([x], "") == if x.msg.channel == "" then [x.msg] else []
  {
    assert [x][..0] == [];
  }

  lemma TwoLogged(x: Stamped, y: Stamped)
    requires x.msg.channel == "" && y.msg.channel == "" && IdOf(x) == IdOf(y)
    ensures Ids([x, y], MessagesKey("")) == {IdOf(y)} && MessagesOf([x, y], "") == [x.msg, y.msg]
  {
    assert [x, y][..1] == [x];
    OneLogged(x);
  }

  // With such a channel, what is said there shows up in the general history Redis returns, and not in memory's.
  lemma GeneralChannelLeaks(hash: Digest, c: Channel, m: ChatMessage, stamp: string,
                            r: Outcome<seq<ChatMessage>>, order: seq<string>)
    requires HexShaped(hash) && IsStamp(stamp) && c.name == "general" && m.channel == "general"
    requires GeneralFrom(RunRedis(hash, [AddChannel(c), Store(m, stamp)]), r, order)
    ensures r == Done([m])
    ensures var st := RunMemory(hash, [AddChannel(c), Store(m, stamp)]);
      st.Done? && st.value.GetChatHistory("") == Done([])
  {
    var ops, x := [AddChannel(c), Store(m, stamp)], Stamped(m, stamp);
    LogOfTwo(ops[0], ops[1]);
    assert LogOf(ops) == [x];
    RedisRefinesMemory(hash, {"general"}, ops);
    MessagesKeysApart("general", "");
    OneLogged(x);
    OneIdOneMessage(hash, RunRedis(hash, ops).value, RunMemory(hash, ops).value, [x], x, r, order);
  }

  // Two messages of one sender in one second share an id: Redis then shows one where memory shows two.
  lemma SameSecondLosesOne(hash: Digest, a: ChatMessage, b: ChatMessage, stamp: string,
                           r: Outcome<seq<ChatMessage>>, order: seq<string>)
    requires HexShaped(hash) && IsStamp(stamp)
    requires a.sender == b.sender && a.channel == "" && b.channel == ""
    requires GeneralFrom(RunRedis(hash, [Store(a, stamp), Store(b, stamp)]), r, order)
    ensures r == Done([b])
    ensures var st := RunMemory(hash, [Store(a, stamp), Store(b, stamp)]);
      st.Done? && st.value.GetChatHistory("") == Done([a, b])
  {
    var ops, x, y := [Store(a, stamp), Store(b, stamp)], Stamped(a, stamp), Stamped(b, stamp);
    LogOfTwo(ops[0], ops[1]);
    assert LogOf(ops) == [x, y];
    RedisRefinesMemory(hash, {}, ops);
    TwoLogged(x, y);
    OneIdOneMessage(hash, RunRedis(hash, ops).value, RunMemory(hash, ops).value, [x, y], y, r, order);
  }
}
