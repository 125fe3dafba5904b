/** The message histories as Go slices. Appending writes in place while the backing array has room and moves to
    a larger array otherwise; GetChatHistory hands out the slice itself, so earlier results share that array
    with everything appended later. */
module Slices {
  import opened Types

  /** A slice header: a view of the first elements of a backing array, whose length is the capacity. */
  datatype Slice = Slice(data: array<ChatMessage>, len: nat)
  {
    predicate Valid() {
      len <= data.Length
    }

    function Messages(): seq<ChatMessage>
      requires Valid()
      reads data
    {
      data[..len]
    }
  }

  // Go's append. An older header of the same array still denotes what it denoted.
  method Append(s: Slice, m: ChatMessage) returns (r: Slice)
    requires s.Valid()
    modifies s.data
    ensures r.Valid() && r.Messages() == old(s.Messages()) + [m]
    ensures r.data == s.data || fresh(r.data)
    ensures forall k :: 0 <= k < s.len ==> s.data[k] == old(s.data[k])
  {
    if s.len < s.data.Length {
      s.data[s.len] := m;
      return Slice(s.data, s.len + 1);
    }
    var capacity :| s.len < capacity;
    var data := new ChatMessage[capacity](_ => EmptyMessage);
    var k := 0;
    while k < s.len
      invariant 0 <= k <= s.len
      invariant data[..k] == s.data[..k] && s.data[..] == old(s.data[..])
    {
      data[k] := s.data[k];
      k := k + 1;
    }
    data[s.len] := m;
    assert data[..s.len] == s.data[..s.len] == old(s.data[..])[..s.len];
    assert forall j :: 0 <= j < s.len ==> s.data[..][j] == old(s.data[..])[j];
    r := Slice(data, s.len + 1);
  }

  const EmptyMessage := ChatMessage("", "", "", "")

  // What is known of a slice that was handed out: what it denoted then, it denotes now.
  ghost predicate Stable(s: Slice, shown: seq<ChatMessage>, current: Slice)
    requires current.Valid()
    reads s.data, current.data
  {
    && s.Valid()
    && s.Messages() == shown
    && shown <= current.Messages()
    && (s.data == current.data ==> s.len <= current.len)
  }

  class History {
    var current: Slice
    ghost var issued: map<Slice, seq<ChatMessage>>     // every slice handed out, with what it denoted then
    ghost var arrays: set<array<ChatMessage>>

    ghost predicate Valid()
      reads this, arrays
    {
      && current.data in arrays
      && current.Valid()
      && forall s :: s in issued ==> s.data in arrays && Stable(s, issued[s], current)
    }

    function Contents(): seq<ChatMessage>
      requires current.Valid()
      reads this, current.data
    {
      current.Messages()
    }

    constructor ()
      ensures Valid() && fresh(arrays) && Contents() == [] && issued == map[]
    {
      var data := new ChatMessage[1024](_ => EmptyMessage);
      current, issued, arrays := Slice(data, 0), map[], {data};
    }

    // No later append disturbs a slice handed out before, and each remains a prefix of the current history.
    method Store(m: ChatMessage)
      requires Valid()
      modifies this`current, this`arrays, current.data
      ensures Valid() && fresh(arrays - old(arrays)) && old(arrays) <= arrays
      ensures Contents() == old(Contents()) + [m]
      ensures forall s :: s in issued ==>
        s.Valid() && s.Messages() == old(s.Messages()) == issued[s] && s.Messages() <= Contents()
    {
      ghost var was := current;
      var next := Append(current, m);
      current := next;
      arrays := arrays + {next.data};
      forall s | s in issued ensures Stable(s, issued[s], current) {
        if s.data == was.data {
          assert s.data[..s.len] == old(was.data[..s.len]);
          assert old(was.Messages())[..s.len] == old(was.data[..s.len]);
        } else {
          assert s.Messages() == old(s.Messages());
        }
      }
    }

    method GetChatHistory() returns (s: Slice)
      requires Valid()
      modifies this`issued
      ensures Valid() && s == current && s.Messages() == Contents()
      ensures issued == old(issued)[s := Contents()]
    {
      s := current;
      issued := issued[s := current.Messages()];
    }
  }
}
