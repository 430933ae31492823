/** The slots of one link: their order, how many bytes of ops they hold, and what the frames sent amount to. */
module Slots {
  import opened Lists
  import opened Streams

  /** A slot's key: a hold has one slot for its unit, and one for each of its members' streams. */
  datatype Key = UnitOf(hold: nat) | StateOf(hold: nat, m: nat)

  datatype Entry<V, Op> = Unit | Stream(waiting: Waiting<V, Op>, size: nat)

  datatype Frame<V, Op> = State(stream: Key, payload: Payload<V, Op>) | Shape(hold: nat, state: seq<Key>) | Control

  function Sum(sizes: seq<nat>): nat {
    if sizes == [] then 0 else Sum(sizes[..|sizes| - 1]) + sizes[|sizes| - 1]
  }

  function Size<V, Op>(pending: map<Key, Entry<V, Op>>, k: Key): nat {
    if k in pending && pending[k].Stream? then pending[k].size else 0
  }

  /** The sum of the slots' op sizes. */
  function TotalSize<V, Op>(order: seq<Key>, pending: map<Key, Entry<V, Op>>): nat {
    if order == [] then 0
    else TotalSize(order[..|order| - 1], pending) + Size(pending, order[|order| - 1])
  }

  /** The `n` oldest slots. */
  function Oldest(order: seq<Key>, n: nat): set<Key>
    requires n <= |order|
  {
    if n == 0 then {} else Oldest(order, n - 1) + {order[n - 1]}
  }

  lemma {:induction false} OldestMembers(order: seq<Key>, n: nat)
    requires n <= |order|
    ensures forall k :: k in Oldest(order, n) <==> exists i :: 0 <= i < n && order[i] == k
  {
    if n > 0 {
      OldestMembers(order, n - 1);
    }
  }

  lemma NextOldest(order: seq<Key>, n: nat)
    requires Distinct(order) && n < |order|
    ensures order[n] !in Oldest(order, n)
  {
    OldestMembers(order, n);
    forall i | 0 <= i < n
      ensures order[i] != order[n]
    {
      DistinctAt(order, i, n);
    }
  }

  lemma AllOldest(order: seq<Key>)
    ensures forall k :: k in Oldest(order, |order|) <==> k in order
  {
    OldestMembers(order, |order|);
  }

  function View<V, Op>(pending: map<Key, Entry<V, Op>>, k: Key): Waiting<V, Op> {
    if k in pending && pending[k].Stream? then pending[k].waiting else Nothing
  }

  /** A stream's frames among those sent so far. */
  function SentOn<V, Op>(link: seq<Frame<V, Op>>, k: Key): seq<Payload<V, Op>> {
    if link == [] then []
    else
      var before, last := SentOn(link[..|link| - 1], k), link[|link| - 1];
      if last.State? && last.stream == k then before + [last.payload] else before
  }

  /** What the peer holds of a stream after the frames sent so far. */
  function Replayed<V, Op>(apply: (V, Op) -> V, link: seq<Frame<V, Op>>, k: Key): Option<V> {
    ReceiveAll(apply, None, SentOn(link, k))
  }

  predicate Wellformed<V, Op>(k: Key, e: Entry<V, Op>) {
    if k.UnitOf? then e.Unit? else e.Stream? && !e.waiting.Nothing? && (e.waiting.Lazy? ==> e.size == 0)
  }

  /** `order` lists exactly the keys with a slot, once each, and `bytes` is `TotalSize`. */
  ghost predicate Filed<V, Op>(order: seq<Key>, pending: map<Key, Entry<V, Op>>, bytes: int) {
    && Distinct(order) && (forall k :: k in order <==> k in pending)
    && (forall k | k in pending :: Wellformed(k, pending[k]))
    && bytes == TotalSize(order, pending)
  }

  lemma {:induction false} SumRest(sizes: seq<nat>)
    requires sizes != []
    ensures Sum(sizes) == sizes[0] + Sum(sizes[1..])
  {
    var n := |sizes| - 1;
    if n == 0 {
      assert sizes[..0] == [] && sizes[1..] == [];
    } else {
      SumRest(sizes[..n]);
      assert sizes[..n][1..] == sizes[1..][..n - 1];
    }
  }

  lemma SumMore(sizes: seq<nat>, size: nat)
    ensures Sum(sizes + [size]) == Sum(sizes) + size
  {
    assert (sizes + [size])[..|sizes|] == sizes;
  }

  /** Sizes of other slots do not matter to those listed. */
  lemma {:induction false} SizesAgree<V, Op>(order: seq<Key>, a: map<Key, Entry<V, Op>>, b: map<Key, Entry<V, Op>>)
    requires forall k | k in order :: Size(a, k) == Size(b, k)
    ensures TotalSize(order, a) == TotalSize(order, b)
  {
    if order != [] {
      var n := |order| - 1;
      assert order[n] in order;
      SizesAgree(order[..n], a, b);
    }
  }

  /** A slot leaves. */
  lemma {:induction false} SizeWithout<V, Op>(order: seq<Key>, pending: map<Key, Entry<V, Op>>, k: Key)
    requires Distinct(order) && k in order
    ensures TotalSize(Without(order, k), pending - {k}) == TotalSize(order, pending) - Size(pending, k)
  {
    var n := |order| - 1;
    var init, last := order[..n], order[n];
    WithoutMembers(init, k);
    if last == k {
      assert k !in init;
      Unaffected(init, k);
      SizesAgree(init, pending, pending - {k});
    } else {
      assert k in init;
      SizeWithout(init, pending, k);
      var rest := Without(init, k);
      assert (rest + [last])[..|rest|] == rest;
      assert Size(pending - {k}, last) == Size(pending, last);
    }
  }

  lemma FiledWithout<V, Op>(order: seq<Key>, pending: map<Key, Entry<V, Op>>, bytes: int, k: Key)
    requires Filed(order, pending, bytes) && k in pending
    ensures Filed(Without(order, k), pending - {k}, bytes - Size(pending, k))
    ensures Size(pending, k) <= bytes && |Without(order, k)| == |order| - 1
  {
    assert k in order;
    WithoutMembers(order, k);
    WithoutDistinct(order, k);
    SizeWithout(order, pending, k);
  }

  /** A slot changes. */
  lemma {:induction false} SizeUpdated<V, Op>(order: seq<Key>, pending: map<Key, Entry<V, Op>>, k: Key, e: Entry<V, Op>)
    requires Distinct(order) && k in order
    ensures TotalSize(order, pending[k := e]) == TotalSize(order, pending) - Size(pending, k) + Size(map[k := e], k)
  {
    var n := |order| - 1;
    var init, last := order[..n], order[n];
    if last == k {
      assert k !in init;
      SizesAgree(init, pending, pending[k := e]);
    } else {
      SizeUpdated(init, pending, k, e);
    }
  }

  lemma FiledUpdated<V, Op>(order: seq<Key>, pending: map<Key, Entry<V, Op>>, bytes: int, k: Key, e: Entry<V, Op>)
    requires Filed(order, pending, bytes) && k in pending && Wellformed(k, e)
    ensures Filed(order, pending[k := e], bytes - Size(pending, k) + if e.Stream? then e.size else 0)
    ensures Size(pending, k) <= bytes
  {
    assert k in order;
    SizeUpdated(order, pending, k, e);
    FiledWithout(order, pending, bytes, k);
  }

  /** What waits in a slot is dropped, and a promise takes its place. */
  lemma FiledLazy<V, Op>(order: seq<Key>, pending: map<Key, Entry<V, Op>>, bytes: int, k: Key)
    requires Filed(order, pending, bytes) && k in pending && k.StateOf?
    ensures Filed(order, pending[k := Stream(Lazy, 0)], bytes - Size(pending, k))
    ensures 0 <= Size(pending, k) <= bytes && pending[k].Stream?
  {
    FiledUpdated(order, pending, bytes, k, Stream(Lazy, 0));
  }

  /** A slot is made. */
  lemma FiledNew<V, Op>(order: seq<Key>, pending: map<Key, Entry<V, Op>>, bytes: int, k: Key, e: Entry<V, Op>)
    requires Filed(order, pending, bytes) && k !in pending && Wellformed(k, e) && (e.Stream? ==> e.size == 0)
    ensures Filed(order + [k], pending[k := e], bytes)
  {
    assert k !in order;
    SizesAgree(order, pending, pending[k := e]);
    assert (order + [k])[..|order|] == order;
  }

  /** The slots left when the `n` oldest went. */
  function Younger(order: seq<Key>, n: nat): seq<Key>
    requires n <= |order|
    ensures |Younger(order, n)| == |order| - n
  {
    order[n..]
  }

  /** The oldest of what is left goes. */
  lemma YoungerStill(order: seq<Key>, n: nat)
    requires n < |order| && Distinct(Younger(order, n))
    ensures Without(Younger(order, n), Younger(order, n)[0]) == Younger(order, n + 1)
  {
    WithoutFirst(order[n..]);
    assert order[n..][1..] == order[n + 1..];
  }

  lemma NoneYounger(order: seq<Key>)
    ensures Younger(order, 0) == order
  {
  }

  lemma SumFrom(sizes: seq<nat>, i: nat)
    requires i < |sizes|
    ensures Sum(sizes[i..]) == sizes[i] + Sum(sizes[i + 1..])
  {
    SumRest(sizes[i..]);
    assert sizes[i..][1..] == sizes[i + 1..];
  }

  lemma SentMore<V, Op>(link: seq<Frame<V, Op>>, frame: Frame<V, Op>, k: Key)
    ensures SentOn(link + [frame], k) ==
            if frame.State? && frame.stream == k then SentOn(link, k) + [frame.payload] else SentOn(link, k)
  {
    assert (link + [frame])[..|link|] == link;
  }

  lemma ReplayedMore<V, Op>(apply: (V, Op) -> V, link: seq<Frame<V, Op>>, frame: Frame<V, Op>, k: Key)
    ensures Replayed(apply, link + [frame], k) ==
            if frame.State? && frame.stream == k then Receive(apply, Replayed(apply, link, k), frame.payload)
            else Replayed(apply, link, k)
  {
    SentMore(link, frame, k);
    if frame.State? && frame.stream == k {
      ReceiveMore(apply, None, SentOn(link, k), frame.payload);
    }
  }
}
