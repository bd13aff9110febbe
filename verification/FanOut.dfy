/** Event fan-out from one session to many subscribers, through two lossy buffers. */
module FanOut {

  /** Both buffers hold 64 events. */
  const CAPACITY: nat := 64

  /** A send that gives up when the buffer is full. */
  function Push<E>(buffer: seq<E>, e: E): seq<E> {
    if |buffer| < CAPACITY then buffer + [e] else buffer
  }

  /** A subscriber: where in the published stream it joined and left, what its reader took, what waits in its
      channel, and how many events its full channel turned away. */
  datatype Sub<E> = Sub(joined: nat, until: nat, active: bool, got: seq<E>, buffer: seq<E>, dropped: nat)

  /** `queue` is the session's own buffer, `hand` the event the forwarder has taken out of it and not yet
      published, if any, and `published` what it has published, oldest first. */
  datatype Fan<E> = Fan(emitted: seq<E>, queue: seq<E>, lost: nat, hand: seq<E>, published: seq<E>,
                        subs: map<nat, Sub<E>>)

  datatype Step<E> =
    | Emit(e: E)
    | PickUp
    | Publish
    | Subscribe(id: nat)
    | Unsubscribe(id: nat)
    | Receive(id: nat)

  function Init<E>(): Fan<E> {
    Fan([], [], 0, [], [], map[])
  }

  function Delivered<E>(s: Sub<E>, e: E): Sub<E> {
    if !s.active then s
    else if |s.buffer| < CAPACITY then s.(buffer := Push(s.buffer, e), until := s.until + 1)
    else s.(dropped := s.dropped + 1, until := s.until + 1)
  }

  function Take<E>(f: Fan<E>, step: Step<E>): Fan<E> {
    match step
    case Emit(e) =>
      f.(emitted := f.emitted + [e], queue := Push(f.queue, e), lost := f.lost + if |f.queue| < CAPACITY then 0 else 1)
    case PickUp =>
      if f.hand != [] || f.queue == [] then f else f.(queue := f.queue[1..], hand := [f.queue[0]])
    case Publish =>
      if f.hand == [] then f
      else
        f.(hand := [], published := f.published + f.hand,
           subs := map id | id in f.subs :: Delivered(f.subs[id], f.hand[0]))
    case Subscribe(id) =>
      if id in f.subs then f
      else f.(subs := f.subs[id := Sub(|f.published|, |f.published|, true, [], [], 0)])
    case Unsubscribe(id) =>
      if id in f.subs then f.(subs := f.subs[id := f.subs[id].(active := false)]) else f
    case Receive(id) =>
      if id in f.subs && f.subs[id].buffer != [] then
        var s := f.subs[id];
        f.(subs := f.subs[id := s.(got := s.got + [s.buffer[0]], buffer := s.buffer[1..])])
      else f
  }

  function Run<E>(f: Fan<E>, steps: seq<Step<E>>): Fan<E>
    decreases |steps|
  {
    if steps == [] then f else Run(Take(f, steps[0]), steps[1..])
  }

  // ----- Subsequences -----

  /** `xs` is `ys` with some elements left out: order kept, nothing twice. */
  ghost predicate Subsequence<E>(xs: seq<E>, ys: seq<E>)
    decreases |ys|
  {
    xs == []
    || (ys != []
        && ((xs[|xs| - 1] == ys[|ys| - 1] && Subsequence(xs[..|xs| - 1], ys[..|ys| - 1]))
            || Subsequence(xs, ys[..|ys| - 1])))
  }

  lemma Grows<E>(xs: seq<E>, ys: seq<E>, e: E)
    requires Subsequence(xs, ys)
    ensures Subsequence(xs, ys + [e]) && Subsequence(xs + [e], ys + [e])
  {
    assert (xs + [e])[..|xs|] == xs && (ys + [e])[..|ys|] == ys;
  }

  lemma {:induction false} Transitive<E>(xs: seq<E>, ys: seq<E>, zs: seq<E>)
    requires Subsequence(xs, ys) && Subsequence(ys, zs)
    ensures Subsequence(xs, zs)
    decreases |zs|
  {
    if xs != [] {
      var ys', zs' := ys[..|ys| - 1], zs[..|zs| - 1];
      if ys[|ys| - 1] == zs[|zs| - 1] && Subsequence(ys', zs') {
        if xs[|xs| - 1] == ys[|ys| - 1] && Subsequence(xs[..|xs| - 1], ys') {
          Transitive(xs[..|xs| - 1], ys', zs');
        } else {
          Transitive(xs, ys', zs');
        }
      } else {
        Transitive(xs, ys, zs');
      }
    }
  }

  lemma {:induction false} Reflexive<E>(xs: seq<E>)
    ensures Subsequence(xs, xs)
    decreases |xs|
  {
    if xs != [] {
      Reflexive(xs[..|xs| - 1]);
    }
  }

  /** A subsequence is no longer, and one of full length leaves nothing out. */
  lemma {:induction false} FullLength<E>(xs: seq<E>, ys: seq<E>)
    requires Subsequence(xs, ys)
    ensures |xs| <= |ys| && (|xs| == |ys| ==> xs == ys)
    decreases |ys|
  {
    if xs != [] {
      var ys' := ys[..|ys| - 1];
      if xs[|xs| - 1] == ys[|ys| - 1] && Subsequence(xs[..|xs| - 1], ys') {
        FullLength(xs[..|xs| - 1], ys');
      } else {
        FullLength(xs, ys');
      }
    }
  }

  lemma {:induction false} Prefix<E>(xs: seq<E>, n: nat)
    requires n <= |xs|
    ensures Subsequence(xs[..n], xs)
    decreases |xs|
  {
    if n == |xs| {
      assert xs[..n] == xs;
      Reflexive(xs);
    } else {
      Prefix(xs[..|xs| - 1], n);
      assert xs[..|xs| - 1][..n] == xs[..n];
    }
  }

  lemma {:induction false} Suffix<E>(xs: seq<E>, n: nat)
    requires n <= |xs|
    ensures Subsequence(xs[n..], xs)
    decreases |xs|
  {
    if n < |xs| {
      Suffix(xs[..|xs| - 1], n);
      assert xs[n..][..|xs[n..]| - 1] == xs[..|xs| - 1][n..];
    }
  }

  // ----- The invariant -----

  /** A subscriber's stream, read and waiting together, is what was published while it was subscribed, in order
      and without repetition, short of exactly the events its full channel turned away. */
  ghost predicate Faithful<E>(published: seq<E>, s: Sub<E>) {
    && s.joined <= s.until <= |published|
    && (s.active ==> s.until == |published|)
    && |s.buffer| <= CAPACITY
    && Subsequence(s.got + s.buffer, Window(published, s))
    && |s.got| + |s.buffer| + s.dropped == s.until - s.joined
  }

  ghost predicate Inv<E>(f: Fan<E>) {
    && |f.queue| <= CAPACITY && |f.hand| <= 1
    && Subsequence(f.published + (f.hand + f.queue), f.emitted)
    && |f.published| + |f.hand| + |f.queue| + f.lost == |f.emitted|
    && forall id :: id in f.subs ==> Faithful(f.published, f.subs[id])
  }

  /** The stretch of the published stream a subscriber was there for. */
  function Window<E>(published: seq<E>, s: Sub<E>): seq<E>
    requires s.joined <= s.until <= |published|
  {
    published[s.joined..s.until]
  }

  lemma WindowGrows<E>(published: seq<E>, from: nat, e: E)
    requires from <= |published|
    ensures (published + [e])[from..|published| + 1] == published[from..|published|] + [e]
  {
  }

  lemma StreamGrows<E>(got: seq<E>, buffer: seq<E>, window: seq<E>, e: E)
    requires Subsequence(got + buffer, window)
    ensures Subsequence(got + (buffer + [e]), window + [e]) && Subsequence(got + buffer, window + [e])
  {
    Grows(got + buffer, window, e);
    assert got + (buffer + [e]) == got + buffer + [e];
  }

  lemma AcceptedFaithful<E>(published: seq<E>, s: Sub<E>, e: E)
    requires Faithful(published, s) && s.active && |s.buffer| < CAPACITY
    ensures Faithful(published + [e], s.(buffer := s.buffer + [e], until := s.until + 1))
  {
    WindowGrows(published, s.joined, e);
    StreamGrows(s.got, s.buffer, Window(published, s), e);
  }

  lemma DroppedFaithful<E>(published: seq<E>, s: Sub<E>, e: E)
    requires Faithful(published, s) && s.active
    ensures Faithful(published + [e], s.(dropped := s.dropped + 1, until := s.until + 1))
  {
    WindowGrows(published, s.joined, e);
    StreamGrows(s.got, s.buffer, Window(published, s), e);
  }

  lemma DeliveredFaithful<E>(published: seq<E>, s: Sub<E>, e: E)
    requires Faithful(published, s)
    ensures Faithful(published + [e], Delivered(s, e))
  {
    if !s.active {
      assert (published + [e])[s.joined..s.until] == published[s.joined..s.until];
    } else if |s.buffer| < CAPACITY {
      AcceptedFaithful(published, s, e);
    } else {
      DroppedFaithful(published, s, e);
    }
  }

  lemma ReceiveFaithful<E>(published: seq<E>, s: Sub<E>)
    requires Faithful(published, s) && s.buffer != []
    ensures Faithful(published, s.(got := s.got + [s.buffer[0]], buffer := s.buffer[1..]))
  {
    assert s.got + [s.buffer[0]] + s.buffer[1..] == s.got + s.buffer;
  }

  lemma EmitKeeps<E>(f: Fan<E>, e: E)
    requires Inv(f)
    ensures Inv(Take(f, Emit(e)))
  {
    var pending := f.hand + f.queue;
    StreamGrows(f.published, pending, f.emitted, e);
    assert f.hand + (f.queue + [e]) == pending + [e];
  }

  lemma PickUpKeeps<E>(f: Fan<E>)
    requires Inv(f)
    ensures Inv(Take(f, PickUp))
  {
    if f.hand == [] && f.queue != [] {
      assert [f.queue[0]] + f.queue[1..] == f.hand + f.queue;
    }
  }

  lemma PublishKeeps<E>(f: Fan<E>)
    requires Inv(f) && f.hand != []
    ensures Inv(Take(f, Publish))
  {
    var f' := Take(f, Publish);
    assert f.hand == [f.hand[0]];
    assert f'.published + (f'.hand + f'.queue) == f.published + (f.hand + f.queue);
    forall id | id in f'.subs ensures Faithful(f'.published, f'.subs[id]) {
      DeliveredFaithful(f.published, f.subs[id], f.hand[0]);
    }
  }

  lemma ReceiveKeeps<E>(f: Fan<E>, id: nat)
    requires Inv(f) && id in f.subs && f.subs[id].buffer != []
    ensures Inv(Take(f, Receive(id)))
  {
    ReceiveFaithful(f.published, f.subs[id]);
  }

  lemma StepKeeps<E>(f: Fan<E>, step: Step<E>)
    requires Inv(f)
    ensures Inv(Take(f, step))
  {
    match step
    case Emit(e) => EmitKeeps(f, e);
    case PickUp => PickUpKeeps(f);
    case Publish => if f.hand != [] { PublishKeeps(f); }
    case Subscribe(id) =>
    case Unsubscribe(id) =>
    case Receive(id) => if id in f.subs && f.subs[id].buffer != [] { ReceiveKeeps(f, id); }
  }

  lemma {:induction false} RunKeeps<E>(f: Fan<E>, steps: seq<Step<E>>)
    requires Inv(f)
    ensures Inv(Run(f, steps))
    decreases |steps|
  {
    if steps != [] {
      StepKeeps(f, steps[0]);
      RunKeeps(Take(f, steps[0]), steps[1..]);
    }
  }

  /** A stretch of the published stream is a subsequence of everything that left or waits in the session. */
  lemma WindowOf<E>(published: seq<E>, queue: seq<E>, from: nat, to: nat)
    requires from <= to <= |published|
    ensures Subsequence(published[from..to], published + queue)
  {
    var upTo := (published + queue)[..to];
    Prefix(published + queue, to);
    Suffix(upTo, from);
    assert upTo[from..] == published[from..to];
    Transitive(published[from..to], upTo, published + queue);
  }

  lemma FaithfulStream<E>(published: seq<E>, s: Sub<E>)
    requires Faithful(published, s)
    ensures Subsequence(s.got + s.buffer, published[s.joined..s.until])
    ensures s.dropped == 0 <==> s.got + s.buffer == published[s.joined..s.until]
  {
    FullLength(s.got + s.buffer, published[s.joined..s.until]);
  }

  /** In every run a subscriber's stream is an order-preserving subsequence without repetition of what was
      published while it was subscribed, and so of what the session emitted; both buffers keep their bound; and
      a stream is complete exactly when its channel was never full at a publish. */
  lemma StreamsInEveryRun<E>(steps: seq<Step<E>>, id: nat)
    requires id in Run(Init<E>(), steps).subs
    ensures var f := Run(Init<E>(), steps); var s := f.subs[id]; var stream := s.got + s.buffer;
            && s.joined <= s.until <= |f.published|
            && Subsequence(stream, f.published[s.joined..s.until])
            && Subsequence(stream, f.emitted)
            && |s.buffer| <= 64 && |f.queue| <= 64
            && (s.dropped == 0 <==> stream == f.published[s.joined..s.until])
  {
    var f := Run(Init<E>(), steps);
    RunKeeps(Init<E>(), steps);
    var s := f.subs[id];
    FaithfulStream(f.published, s);
    WindowOf(f.published, f.hand + f.queue, s.joined, s.until);
    Transitive(s.got + s.buffer, f.published[s.joined..s.until], f.published + (f.hand + f.queue));
    Transitive(s.got + s.buffer, f.published + (f.hand + f.queue), f.emitted);
  }

  // ----- What is lost -----

  /** The session loses an event exactly when its buffer holds 64. */
  lemma EmitLosesOnlyWhenFull<E>(f: Fan<E>, e: E)
    ensures var f' := Take(f, Emit(e));
            && f'.emitted == f.emitted + [e]
            && (|f.queue| < 64 ==> f'.queue == f.queue + [e] && f'.lost == f.lost)
            && (|f.queue| >= 64 ==> f'.queue == f.queue && f'.lost == f.lost + 1)
  {
  }

  /** A publish gives the event to every subscriber that has not left and whose channel holds fewer than 64; it is
      lost for those that are full, and it touches nobody's channel otherwise. */
  lemma PublishLosesOnlyWhenFull<E>(f: Fan<E>, id: nat)
    requires f.hand != [] && id in f.subs
    ensures id in Take(f, Publish).subs
    ensures var s, s' := f.subs[id], Take(f, Publish).subs[id];
            && s'.got == s.got && s'.active == s.active && s'.joined == s.joined
            && (s.active && |s.buffer| < 64 ==> s'.buffer == s.buffer + [f.hand[0]] && s'.dropped == s.dropped)
            && (s.active && |s.buffer| >= 64 ==> s'.buffer == s.buffer && s'.dropped == s.dropped + 1)
            && (!s.active ==> s' == s)
  {
  }

  /** Joining gives an empty channel from here on; leaving and reading lose nothing. */
  lemma ComingAndGoing<E>(f: Fan<E>, id: nat)
    ensures id !in f.subs ==>
              Take(f, Subscribe(id)) == f.(subs := f.subs[id := Sub(|f.published|, |f.published|, true, [], [], 0)])
    ensures id in f.subs ==>
              && Take(f, Unsubscribe(id)) == f.(subs := f.subs[id := f.subs[id].(active := false)])
              && var s, g := f.subs[id], Take(f, Receive(id));
                 && g == f.(subs := f.subs[id := g.subs[id]])
                 && g.subs[id] == s.(got := g.subs[id].got, buffer := g.subs[id].buffer)
                 && g.subs[id].got + g.subs[id].buffer == s.got + s.buffer
                 && |g.subs[id].buffer| == if s.buffer == [] then 0 else |s.buffer| - 1
  {
    if id in f.subs && f.subs[id].buffer != [] {
      var s := f.subs[id];
      assert s.got + [s.buffer[0]] + s.buffer[1..] == s.got + s.buffer;
    }
  }

  // ----- Isolation -----

  predicate OfAnother<E>(step: Step<E>, id: nat) {
    (step.Subscribe? || step.Unsubscribe? || step.Receive?) && step.id != id
  }

  /** The steps of a run that concern subscriber `id`, or nobody in particular. */
  function OnlyFor<E>(steps: seq<Step<E>>, id: nat): seq<Step<E>> {
    if steps == [] then []
    else
      (if OfAnother(steps[0], id) then [] else [steps[0]]) + OnlyFor(steps[1..], id)
  }

  /** Two systems that look the same to subscriber `id`. */
  ghost predicate Alike<E>(f: Fan<E>, g: Fan<E>, id: nat) {
    && f.emitted == g.emitted && f.queue == g.queue && f.lost == g.lost
    && f.hand == g.hand && f.published == g.published
    && (id in f.subs <==> id in g.subs)
    && (id in f.subs ==> f.subs[id] == g.subs[id])
  }

  /** No subscriber affects another: erase everything the others did, when they came, read, lagged or left, and
      the stream is the same. */
  lemma {:induction false} Isolated<E>(f: Fan<E>, g: Fan<E>, steps: seq<Step<E>>, id: nat)
    requires Alike(f, g, id)
    ensures Alike(Run(f, steps), Run(g, OnlyFor(steps, id)), id)
    decreases |steps|
  {
    if steps != [] {
      var step := steps[0];
      var rest := OnlyFor(steps[1..], id);
      if OfAnother(step, id) {
        assert OnlyFor(steps, id) == rest;
        Isolated(Take(f, step), g, steps[1..], id);
      } else {
        assert OnlyFor(steps, id)[0] == step && OnlyFor(steps, id)[1..] == rest;
        Isolated(Take(f, step), Take(g, step), steps[1..], id);
      }
    }
  }
}
