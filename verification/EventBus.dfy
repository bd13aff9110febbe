/** The event bus: channels with bounded buffers, appended, spliced and fed under a lock. */
module EventBusObjects {
  import opened FanOut

  /** A channel of capacity 64. */
  class Channel<E> {
    var buffer: seq<E>

    constructor ()
      ensures buffer == []
    {
      buffer := [];
    }

    /** `select { case ch <- event: default: }`. */
    method TrySend(e: E)
      modifies this
      ensures buffer == Push(old(buffer), e)
    {
      if |buffer| < CAPACITY {
        buffer := buffer + [e];
      }
    }
  }

  // ----- What the object's lists have to do with the fan-out -----

  function Without<T>(s: seq<T>, i: nat): (r: seq<T>)
    requires i < |s|
    ensures |r| == |s| - 1
    ensures forall k :: 0 <= k < |r| ==> r[k] == s[if k < i then k else k + 1]
  {
    s[..i] + s[i + 1..]
  }

  ghost predicate Distinct<T>(s: seq<T>) {
    forall i, j :: 0 <= i < j < |s| ==> s[i] != s[j]
  }

  /** Removing one place of a list without repetition removes that element and no other. */
  lemma Spliced<T>(s: seq<T>, i: nat)
    requires Distinct(s) && i < |s|
    ensures Distinct(Without(s, i))
    ensures forall x :: x in Without(s, i) <==> x in s && x != s[i]
  {
    forall x | x in s && x != s[i] ensures x in Without(s, i) {
      var k :| 0 <= k < |s| && s[k] == x;
      assert Without(s, i)[if k < i then k else k - 1] == x;
    }
  }

  /** One session's channel buffers are those of the subscribers that have not left, in order of arrival. */
  ghost predicate Shows<E>(f: Fan<E>, names: seq<nat>, buffers: seq<seq<E>>) {
    && |names| == |buffers|
    && Distinct(names)
    && (forall i :: 0 <= i < |names| ==>
          names[i] in f.subs && f.subs[names[i]].active && f.subs[names[i]].buffer == buffers[i])
    && (forall id :: id in f.subs && f.subs[id].active ==> id in names)
  }

  function PushAll<E>(buffers: seq<seq<E>>, e: E): (r: seq<seq<E>>)
    ensures |r| == |buffers|
  {
    seq(|buffers|, i requires 0 <= i < |buffers| => Push(buffers[i], e))
  }

  lemma PublishReaches<E>(f: Fan<E>, names: seq<nat>, buffers: seq<seq<E>>)
    requires Shows(f, names, buffers) && f.hand != []
    ensures Shows(Take(f, FanOut.Publish), names, PushAll(buffers, f.hand[0]))
  {
    var f' := Take(f, FanOut.Publish);
    assert forall id :: id in f.subs ==> f'.subs[id].active == f.subs[id].active;
  }

  lemma SubscribeJoins<E>(f: Fan<E>, names: seq<nat>, buffers: seq<seq<E>>, id: nat)
    requires Shows(f, names, buffers) && id !in f.subs
    ensures Shows(Take(f, Subscribe(id)), names + [id], buffers + [[]])
  {
    assert (names + [id])[|names|] == id;
    assert forall n :: n in names ==> n in names + [id];
  }

  lemma UnsubscribeLeaves<E>(f: Fan<E>, names: seq<nat>, buffers: seq<seq<E>>, i: nat)
    requires Shows(f, names, buffers) && i < |names|
    ensures Shows(Take(f, Unsubscribe(names[i])), Without(names, i), Without(buffers, i))
  {
    Spliced(names, i);
  }

  class EventBus<E> {
    var subs: map<string, seq<Channel<E>>>

    function Subscribers(sessionID: string): seq<Channel<E>>
      reads this
    {
      if sessionID in subs then subs[sessionID] else []
    }

    /** The buffers of one session's channels, in order of arrival. */
    ghost function Buffers(sessionID: string): (r: seq<seq<E>>)
      reads this, Subscribers(sessionID)
      ensures |r| == |Subscribers(sessionID)|
    {
      var list := Subscribers(sessionID);
      seq(|list|, i requires 0 <= i < |list| reads list => list[i].buffer)
    }

    /** No channel is subscribed twice, to one session or to two, and no empty list is kept. */
    ghost predicate Valid()
      reads this
    {
      && (forall id :: id in subs ==> subs[id] != [])
      && (forall id :: id in subs ==> Distinct(subs[id]))
      && (forall id, other, ch :: id in subs && other in subs && ch in subs[id] && ch in subs[other] ==> id == other)
    }

    constructor ()
      ensures Valid() && subs == map[]
    {
      subs := map[];
    }

    method Subscribe(sessionID: string) returns (ch: Channel<E>)
      requires Valid()
      modifies this
      ensures Valid() && fresh(ch) && ch.buffer == []
      ensures Subscribers(sessionID) == old(Subscribers(sessionID)) + [ch]
      ensures Buffers(sessionID) == old(Buffers(sessionID)) + [[]]
      ensures forall id :: id != sessionID ==> Subscribers(id) == old(Subscribers(id))
    {
      ch := new Channel();
      subs := subs[sessionID := Subscribers(sessionID) + [ch]];
    }

    /** The first occurrence is spliced out; an emptied list is deleted; the others keep their order. */
    method Unsubscribe(sessionID: string, ch: Channel<E>)
      requires Valid()
      modifies this
      ensures Valid() && ch !in Subscribers(sessionID)
      ensures ch !in old(Subscribers(sessionID)) ==> Subscribers(sessionID) == old(Subscribers(sessionID))
      ensures forall i :: 0 <= i < |old(Subscribers(sessionID))| && old(Subscribers(sessionID))[i] == ch ==>
                && Subscribers(sessionID) == Without(old(Subscribers(sessionID)), i)
                && Buffers(sessionID) == Without(old(Buffers(sessionID)), i)
      ensures forall id :: id != sessionID ==> Subscribers(id) == old(Subscribers(id))
    {
      var list := Subscribers(sessionID);
      var i := 0;
      while i < |list| && list[i] != ch
        invariant 0 <= i <= |list| && ch !in list[..i]
      {
        i := i + 1;
      }
      if i < |list| {
        Spliced(list, i);
        subs := subs[sessionID := Without(list, i)];
      }
      assert Distinct(list);
      if |Subscribers(sessionID)| == 0 {
        subs := map id | id in subs && id != sessionID :: subs[id];
      }
    }

    /** Every subscriber of the session is offered the event; a full one misses it; nobody else is touched. */
    method Publish(sessionID: string, event: E)
      requires Valid()
      modifies Subscribers(sessionID)
      ensures Valid() && subs == old(subs)
      ensures Buffers(sessionID) == PushAll(old(Buffers(sessionID)), event)
    {
      var list := Subscribers(sessionID);
      for i := 0 to |list|
        invariant subs == old(subs)
        invariant forall k :: 0 <= k < i ==> list[k].buffer == Push(old(list[k].buffer), event)
        invariant forall k :: i <= k < |list| ==> list[k].buffer == old(list[k].buffer)
      {
        list[i].TrySend(event);
      }
    }
  }
}
