/** The in-memory backend. Go pointers to channel records are indices into a table of records, so that a
    connection which was handed such a pointer visibly shares the record with the store. */
module Memory {
  import opened Text
  import opened Types
  import opened Validation

  function Account(hash: Digest, p: Participant): Participant {
    Participant(p.username, hash(p.password), p.email, p.joinTime)
  }

  /** The store as a value, and what each operation does to it. */
  datatype Store = Store(
    participants: map<string, Participant>,
    chatHistory: seq<ChatMessage>,
    channels: map<string, nat>,
    objects: seq<Channel>)
  {
    predicate WellFormed() {
      forall c :: c in channels ==> channels[c] < |objects|
    }

    function RegisterParticipant(hash: Digest, p: Participant): Outcome<Store> {
      if p.username in participants then Crash(ParticipantExists)
      else if !ValidatePasswordSha256(hash(p.password)) then Crash(BadPasswordHash)
      else Done(this.(participants := participants[p.username := Account(hash, p)]))
    }

    // The parameter is overwritten by the stored record before its password is hashed, so the comparison
    // is between the stored hash and the hash of that hash (pkg/backend/memory/memory.go:72-75).
    predicate AuthParticipant(hash: Digest, p: Participant) {
      p.username in participants &&
      EqualFold(participants[p.username].password, hash(participants[p.username].password))
    }

    function StoreMessage(m: ChatMessage): Outcome<Store>
      requires WellFormed()
    {
      if m.channel == "" then Done(this.(chatHistory := chatHistory + [m]))
      else if m.channel !in channels then Crash(UnknownChannel)
      else
        var ref := channels[m.channel];
        Done(this.(objects := objects[ref := objects[ref].(chatHistory := objects[ref].chatHistory + [m])]))
    }

    function RegisterChannel(c: Channel): Outcome<Store> {
      if c.name in channels then Crash(ChannelExists)
      else
        Done(this.(
          channels := channels[c.name := |objects|],
          objects := objects + [Channel(c.name, c.desc, c.creator, c.creationDate, [], [])]))
    }

    // The empty name stands for the general history.
    function GetChatHistory(channel: string): Outcome<seq<ChatMessage>>
      requires WellFormed()
    {
      if channel == "" then Done(chatHistory)
      else if channel !in channels then Crash(UnknownChannel)
      else Done(objects[channels[channel]].chatHistory)
    }
  }

  // Among hashes as they are printed, folding the letter case makes no two equal.
  lemma HashesFoldApart(a: string, b: string)
    requires ValidatePasswordSha256(a) && ValidatePasswordSha256(b)
    ensures EqualFold(a, b) <==> a == b
  {
    if EqualFold(a, b) {
      forall i | 0 <= i < |a| ensures a[i] == b[i] {
        assert ToLower(a)[i] == ToLower(b)[i];
      }
    }
  }

  // The password a client supplies plays no part: a stored account is let in, whatever is supplied, exactly when
  // the hash of its owner's password happens to be its own hash.
  lemma AuthExactly(hash: Digest, st: Store, p: Participant, owner: Participant)
    requires HexShaped(hash)
    requires p.username in st.participants ==> st.participants[p.username] == Account(hash, owner)
    ensures st.AuthParticipant(hash, p) <==>
      p.username in st.participants && hash(hash(owner.password)) == hash(owner.password)
    ensures forall q: Participant :: q.username == p.username ==>
      (st.AuthParticipant(hash, q) <==> st.AuthParticipant(hash, p))
  {
    assert ValidatePasswordSha256(hash(owner.password)) && ValidatePasswordSha256(hash(hash(owner.password)));
    HashesFoldApart(hash(owner.password), hash(hash(owner.password)));
  }

  const EMPTY := Store(map[], [], map[], [])

  predicate Enumerates(order: seq<string>, keys: set<string>) {
    && (forall i, j :: 0 <= i < j < |order| ==> order[i] != order[j])
    && (forall i :: 0 <= i < |order| ==> order[i] in keys)
    && (forall k :: k in keys ==> k in order)
  }

  // The values of a map in some iteration order.
  ghost predicate Listing<V>(list: seq<V>, m: map<string, V>) {
    exists order :: Enumerates(order, m.Keys) && ListedBy(list, m, order)
  }

  predicate ListedBy<V(==)>(list: seq<V>, m: map<string, V>, order: seq<string>) {
    |list| == |order| && forall i :: 0 <= i < |order| ==> order[i] in m && list[i] == m[order[i]]
  }

  lemma EnumeratesWithout(order: seq<string>, ids: set<string>, k: nat)
    requires k < |order| && Enumerates(order, ids)
    ensures Enumerates(order[..k] + order[k + 1..], ids - {order[k]})
  {
    var rest := order[..k] + order[k + 1..];
    forall id | id in ids - {order[k]} ensures id in rest {
      var j :| 0 <= j < |order| && order[j] == id;
      assert rest[if j < k then j else j - 1] == id;
    }
  }

  lemma SizeOfEnumeration(order: seq<string>, ids: set<string>)
    requires Enumerates(order, ids)
    ensures |order| == |ids|
  {
    if order != [] {
      var last := |order| - 1;
      EnumeratesWithout(order, ids, last);
      assert order[..last] + order[last + 1..] == order[..last];
      SizeOfEnumeration(order[..last], ids - {order[last]});
    } else {
      assert ids == {};
    }
  }

  lemma KeyAt<V>(list: seq<V>, m: map<string, V>, k: nat) returns (key: string)
    requires Listing(list, m) && k < |list|
    ensures key in m && m[key] == list[k]
  {
    var order :| Enumerates(order, m.Keys) && ListedBy(list, m, order);
    key := order[k];
  }

  method IterateMap<V(==)>(m: map<string, V>) returns (list: seq<V>)
    ensures Listing(list, m)
    ensures |list| == |m|
  {
    list := [];
    var rest := m.Keys;
    ghost var order: seq<string> := [];
    while rest != {}
      invariant rest <= m.Keys && |rest| + |order| == |m|
      invariant Enumerates(order, m.Keys - rest)
      invariant ListedBy(list, m, order)
      decreases |rest|
    {
      var k :| k in rest;
      ghost var done := m.Keys - rest;
      rest := rest - {k};
      list := list + [m[k]];
      order := order + [k];
      assert m.Keys - rest == done + {k};
      assert order[|order| - 1] == k;
    }
    assert m.Keys - rest == m.Keys;
  }

  // ------------------------------------------------------------------- the backend

  class MemoryBackend {
    var participants: map<string, Participant>
    var chatHistory: seq<ChatMessage>
    var channels: map<string, nat>
    var objects: seq<Channel>

    function View(): Store
      reads this
    {
      Store(participants, chatHistory, channels, objects)
    }

    constructor ()
      ensures View() == EMPTY
    {
      participants, chatHistory, channels, objects := map[], [], map[], [];
    }

    method HasParticipant(username: string) returns (found: bool)
      ensures found <==> username in View().participants
    {
      found := username in participants;
    }

    method RegisterParticipant(hash: Digest, p: Participant) returns (r: Outcome<()>)
      modifies this
      ensures match old(View()).RegisterParticipant(hash, p)
        case Done(st) => r == Done(()) && View() == st
        case Crash(panic) => r == Crash(panic) && View() == old(View())
    {
      if p.username in participants {
        return Crash(ParticipantExists);
      }
      var passwordHash := hash(p.password);
      if !ValidatePasswordSha256(passwordHash) {
        return Crash(BadPasswordHash);
      }
      participants := participants[p.username := Participant(p.username, passwordHash, p.email, p.joinTime)];
      r := Done(());
    }

    method AuthParticipant(hash: Digest, p: Participant) returns (ok: bool)
      ensures ok <==> View().AuthParticipant(hash, p)
    {
      if p.username in participants {
        var participant := participants[p.username];
        ok := EqualFold(participant.password, hash(participant.password));
      } else {
        ok := false;
      }
    }

    method StoreMessage(m: ChatMessage) returns (r: Outcome<()>)
      requires View().WellFormed()
      modifies this
      ensures View().WellFormed()
      ensures match old(View()).StoreMessage(m)
        case Done(st) => r == Done(()) && View() == st
        case Crash(panic) => r == Crash(panic) && View() == old(View())
    {
      if m.channel != "" {
        if m.channel !in channels {
          return Crash(UnknownChannel);
        }
        var ref := channels[m.channel];
        objects := objects[ref := objects[ref].(chatHistory := objects[ref].chatHistory + [m])];
      } else {
        chatHistory := chatHistory + [m];
      }
      r := Done(());
    }

    method HasChannel(name: string) returns (found: bool)
      ensures found <==> name in View().channels
    {
      found := name in channels;
    }

    method RegisterChannel(c: Channel) returns (r: Outcome<()>)
      requires View().WellFormed()
      modifies this
      ensures View().WellFormed()
      ensures match old(View()).RegisterChannel(c)
        case Done(st) => r == Done(()) && View() == st
        case Crash(panic) => r == Crash(panic) && View() == old(View())
    {
      if c.name in channels {
        return Crash(ChannelExists);
      }
      objects := objects + [Channel(c.name, c.desc, c.creator, c.creationDate, [], [])];
      channels := channels[c.name := |objects| - 1];
      r := Done(());
    }

    method GetChatHistory(channel: string) returns (r: Outcome<seq<ChatMessage>>)
      requires View().WellFormed()
      ensures r == View().GetChatHistory(channel)
    {
      if channel != "" {
        if channel !in channels {
          return Crash(UnknownChannel);
        }
        return Done(objects[channels[channel]].chatHistory);
      }
      r := Done(chatHistory);
    }

    method GetChannels() returns (list: seq<nat>)
      ensures Listing(list, View().channels) && |list| == |View().channels|
    {
      list := IterateMap(channels);
    }

    method GetParticipants() returns (list: seq<Participant>)
      ensures Listing(list, View().participants) && |list| == |View().participants|
    {
      list := IterateMap(participants);
    }
  }
}
