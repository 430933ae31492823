/**
 * One end of a connection: a class whose fields are what was sent, what the peer confirmed, and a slot for each stream
 * that has something unsent. `Valid` bounds the slots and says that sent frames and slot together make the source's
 * value.
 */
module Connections {
  import opened Lists
  import opened Streams
  import opened Slots
  import Views

  /**
   * A stream's peer and slot together lead to the source's value: the slot's base and ops, or the value when promised.
   */
  predicate Faithful<V(==), Op>(apply: (V, Op) -> V, got: Option<V>, waiting: Waiting<V, Op>, value: V) {
    Settle(apply, got, waiting, Reset(value)) == Some(value)
  }

  /** Ops of the source join what waits, or are sent if nothing does: still faithful, to the new value. */
  lemma OpsStayFaithful<V, Op>(apply: (V, Op) -> V, got: Option<V>, waiting: Waiting<V, Op>, value: V, ops: seq<Op>)
    requires Faithful(apply, got, waiting, value)
    ensures Faithful(apply, got, Coalesce(waiting, Ops(ops)), ApplyAll(apply, value, ops))
    ensures waiting.Nothing? ==> Faithful(apply, Receive(apply, got, Ops(ops)), waiting, ApplyAll(apply, value, ops))
  {
    if !waiting.Lazy? {
      var next := ApplyAll(apply, value, ops);
      CoalesceFaithful(apply, got, waiting, Ops(ops), Reset(next));
      SettleIsReplay(apply, got, waiting, Reset(next));
      SettleIsReplay(apply, got, Coalesce(waiting, Ops(ops)), Reset(next));
    }
  }

  /** The slots, the frames sent, the members streamed, and those whose last snapshot was an error. */
  datatype Book<V, Op> = Book(pending: map<Key, Entry<V, Op>>, link: seq<Frame<V, Op>>, feeds: set<Key>,
                              stale: set<Key>)

  /** All that concerns streams. */
  datatype Glance<V, Op> = Glance(values: map<Key, V>, book: Book<V, Op>, room: Room<V, Op>, urgent: set<Key>)

  /** The slots, how often resets were asked for, and the streams that await one. */
  datatype Room<V, Op> = Room(pending: map<Key, Entry<V, Op>>, asked: multiset<Key>, awaiting: set<Key>)

  class Connection<V(==), Op> {
    const window: nat
    const pendingCap: nat
    const apply: (V, Op) -> V
    const valid: V -> bool
    /** The bytes of encoded ops, and the size of a frame that the link reports (0 when it does not). */
    const opsSize: seq<Op> -> nat
    const frameSize: Frame<V, Op> -> nat
    /** Holds this connection serves by relaying them downstream. */
    const relayed: nat -> bool

    var peerAcks: Option<bool>
    var sent: nat
    var acked: nat
    var unacked: seq<nat>
    var unackedBytes: int
    var order: seq<Key>
    var pending: map<Key, Entry<V, Op>>
    var pendingBytes: int
    /** All frames sent so far. */
    var link: seq<Frame<V, Op>>
    /** How often a reset of a relayed stream was asked for, and the streams whose ops are ignored until it comes. */
    var asked: multiset<Key>
    var awaiting: set<Key>
    /** Relayed streams whose next frame need not wait for the window; relayed holds of which a shape came. */
    var urgent: set<Key>
    var shaped: set<nat>
    /** The holds of local objects; the members of those with a shape; those whose state is wanted; those held again. */
    var served: set<nat>
    var shapes: map<nat, seq<nat>>
    var wanted: set<nat>
    var again: set<nat>
    var unitSent: set<nat>
    /** The value of every member's source, and the members streamed to the peer. */
    var values: map<Key, V>
    var feeds: set<Key>
    /** Streams whose last snapshot was an error, because the value failed its schema. */
    ghost var stale: set<Key>

    constructor (window: nat, pendingCap: nat, apply: (V, Op) -> V, valid: V -> bool, opsSize: seq<Op> -> nat,
                 frameSize: Frame<V, Op> -> nat, relayed: nat -> bool, values0: map<Key, V>)
      ensures Valid() && values == values0 && feeds == {} && stale == {}
      ensures this.window == window && this.pendingCap == pendingCap && this.apply == apply && this.valid == valid
      ensures this.opsSize == opsSize && this.frameSize == frameSize && this.relayed == relayed
      ensures order == [] && link == [Control] && peerAcks == None && served == {}
      ensures wanted == {} && again == {} && pending == map[]
    {
      this.window, this.pendingCap, this.apply, this.valid := window, pendingCap, apply, valid;
      this.opsSize, this.frameSize, this.relayed := opsSize, frameSize, relayed;
      peerAcks, sent, acked, unacked, unackedBytes := None, 0, 0, [], 0;
      order, pending, pendingBytes, link := [], map[], 0, [];
      asked, awaiting, urgent, shaped := multiset{}, {}, {}, {};
      served, shapes, wanted, again, unitSent, values, feeds, stale := {}, map[], {}, {}, {}, values0, {}, {};
      new;
      Send(Control);
    }

    /** `unacked` has one size for each frame the peer has not confirmed; none for a peer that confirms nothing. */
    predicate Counted()
      reads `peerAcks, `sent, `acked, `unacked, `unackedBytes
    {
      && acked <= sent && unackedBytes == Sum(unacked)
      && if peerAcks == Some(false) then unacked == [] else |unacked| == sent - acked
    }

    ghost predicate Queued()
      reads `order, `pending, `pendingBytes
    {
      Filed(order, pending, pendingBytes) && pendingBytes <= pendingCap
    }

    predicate Full()
      reads `peerAcks, `unackedBytes
    {
      peerAcks == Some(true) && unackedBytes >= window
    }

    /** There are slots only while the window is full. */
    predicate Waits()
      reads `peerAcks, `unackedBytes, `order
    {
      order != [] ==> Full()
    }

    ghost function Got(k: Key): Option<V>
      reads `link
    {
      Replayed(apply, link, k)
    }

    ghost function Told(k: Key): seq<Payload<V, Op>>
      reads `link
    {
      SentOn(link, k)
    }

    ghost function Waiting(k: Key): Waiting<V, Op>
      reads `pending
    {
      View(pending, k)
    }

    /** Streams are of local members, and only they have local slots. */
    ghost predicate Streamed()
      reads `pending, `feeds, `values, `served, `shapes
    {
      && shapes.Keys <= served && (forall hold | hold in served :: !relayed(hold))
      && (forall k | k in feeds :: k.StateOf? && !relayed(k.hold) && k in values)
      && (forall k | k in pending && k.StateOf? && !relayed(k.hold) :: k in feeds)
      && (forall k | k in pending && relayed(k.hold) :: !Waiting(k).Lazy?)
    }

    /** Every stream, replayed with what waits, leads to its source's current value. */
    ghost predicate AllFaithful()
      reads `pending, `feeds, `values, `link, `stale
    {
      forall k | k in feeds && k in values && k !in stale :: Faithful(apply, Got(k), Waiting(k), values[k])
    }

    ghost predicate AllFaithfulBut(x: Key)
      reads `pending, `feeds, `values, `link, `stale
    {
      forall k | k in feeds && k in values && k !in stale && k != x :: Faithful(apply, Got(k), Waiting(k), values[k])
    }

    ghost predicate Sound()
      reads this
    {
      Counted() && Queued() && Streamed() && AllFaithful()
    }

    /** Consumers have no stream but what they should have, and a unit waits for every hold whose consumer lacks one. */
    ghost predicate Complete()
      reads `pending, `shapes, `wanted, `feeds, `values
    {
      (forall k | k in feeds :: Due(k)) && (forall k | Lacking(k) :: UnitOf(k.hold) in pending)
    }

    ghost predicate CompleteBut(hold: nat)
      reads `pending, `shapes, `wanted, `feeds, `values
    {
      && (forall k | k in feeds && k.hold != hold :: Due(k))
      && (forall k | Lacking(k) && k.hold != hold :: UnitOf(k.hold) in pending)
    }

    ghost predicate AllDue(hold: nat)
      reads `shapes, `wanted, `feeds
    {
      forall k | k in feeds && k.hold == hold :: Due(k)
    }

    ghost predicate Valid()
      reads this
    {
      Sound() && Waits() && Complete()
    }

    lemma KeptWithout(was: map<Key, Entry<V, Op>>, k: Key)
      ensures forall j | j != k :: Kept(was, was - {k}, j)
    {
    }

    /** Only one slot changed, and if it was a unit it waits or its hold's consumer lacks nothing. */
    twostate lemma StaysComplete(x: Key)
      requires forall j | j != x :: Kept(old(pending), pending, j)
      requires old(feeds) <= feeds && shapes == old(shapes) && wanted == old(wanted) && values.Keys == old(values.Keys)
      requires x.UnitOf? ==> x in pending || AllAttached(x.hold)
      requires forall k | k in feeds :: k in old(feeds) || Due(k)
      ensures old(Complete()) || (x.UnitOf? && old(CompleteBut(x.hold) && AllDue(x.hold))) ==> Complete()
    {
      forall k | Lacking(k) && UnitOf(k.hold) != x
        ensures old(Lacking(k)) && (UnitOf(k.hold) in old(pending) ==> UnitOf(k.hold) in pending)
      {
        assert Kept(old(pending), pending, UnitOf(k.hold));
      }
    }

    /** The consumer of a hold with a shape wants its state. */
    predicate Wants(hold: nat)
      reads `shapes, `wanted
    {
      hold in shapes && hold in wanted
    }

    method Send(frame: Frame<V, Op>)
      requires Counted()
      modifies `sent, `unacked, `unackedBytes, `link
      ensures Counted() && link == old(link) + [frame]
      ensures unackedBytes >= old(unackedBytes)
      ensures forall k :: Got(k) == if frame.State? && frame.stream == k then Receive(apply, old(Got(k)), frame.payload)
                                    else old(Got(k))
      ensures forall k :: Told(k) == if frame.State? && frame.stream == k then old(Told(k)) + [frame.payload]
                                     else old(Told(k))
    {
      ghost var before := link;
      link := link + [frame];
      if peerAcks != Some(false) {
        SumMore(unacked, frameSize(frame));
        sent := sent + 1;
        unacked := unacked + [frameSize(frame)];
        unackedBytes := unackedBytes + frameSize(frame);
      }
      Extended(before, frame);
    }

    lemma Extended(before: seq<Frame<V, Op>>, frame: Frame<V, Op>)
      requires link == before + [frame]
      ensures forall k :: Got(k) == if frame.State? && frame.stream == k then
                                      Receive(apply, Replayed(apply, before, k), frame.payload)
                                    else Replayed(apply, before, k)
      ensures forall k :: Told(k) == if frame.State? && frame.stream == k then SentOn(before, k) + [frame.payload]
                                     else SentOn(before, k)
    {
      forall k
        ensures Got(k) == if frame.State? && frame.stream == k then
                            Receive(apply, Replayed(apply, before, k), frame.payload)
                          else Replayed(apply, before, k)
        ensures Told(k) == if frame.State? && frame.stream == k then SentOn(before, k) + [frame.payload]
                           else SentOn(before, k)
      {
        SentMore(before, frame, k);
        ReplayedMore(apply, before, frame, k);
      }
    }

    /** A slot that was left alone. */
    ghost predicate Kept(was: map<Key, Entry<V, Op>>, now: map<Key, Entry<V, Op>>, j: Key) {
      (j in was <==> j in now) && (j in was ==> was[j] == now[j])
    }

    /** A stream's slot after what waited in it was dropped. */
    ghost predicate Dropped(was: map<Key, Entry<V, Op>>, now: map<Key, Entry<V, Op>>, j: Key) {
      && j.StateOf? && j in was && was[j].Stream?
      && View(now, j) == Overflowed(relayed(j.hold)) && Size(now, j) == 0 && (j in now <==> !relayed(j.hold))
    }

    /** Empties a stream's slot. A local stream keeps the promise of a reset; for a relayed one an ask is recorded. */
    method Drop(k: Key)
      requires Queued() && k in pending && k.StateOf?
      modifies `order, `pending, `pendingBytes, `asked, `awaiting
      ensures Queued() && pendingBytes == old(pendingBytes) - old(Size(pending, k))
      ensures Dropped(old(pending), pending, k) && forall j | j != k :: Kept(old(pending), pending, j)
      ensures asked == if relayed(k.hold) then old(asked) + multiset{k} else old(asked)
      ensures awaiting == if relayed(k.hold) then old(awaiting) + {k} else old(awaiting)
      ensures order == if relayed(k.hold) then Without(old(order), k) else old(order)
    {
      FiledLazy(order, pending, pendingBytes, k);
      FiledWithout(order, pending, pendingBytes, k);
      pendingBytes := pendingBytes - pending[k].size;
      if !relayed(k.hold) {
        pending := pending[k := Stream(Lazy, 0)];
        return;
      }
      order, pending := Without(order, k), pending - {k};
      asked, awaiting := asked + multiset{k}, awaiting + {k};
    }

    /** The slots, and the resets asked for. */
    ghost function Space(): Room<V, Op>
      reads `pending, `asked, `awaiting
    {
      Room(pending, asked, awaiting)
    }

    /** A reset was asked for of a relayed stream if and only if it lost its slot. */
    ghost predicate AskedOne(was: Room<V, Op>, now: Room<V, Op>, j: Key) {
      if relayed(j.hold) && j in was.pending && j !in now.pending then
        now.asked[j] == was.asked[j] + 1 && j in now.awaiting
      else Unasked(was, now, j)
    }

    ghost predicate Unasked(was: Room<V, Op>, now: Room<V, Op>, j: Key) {
      now.asked[j] == was.asked[j] && (j in now.awaiting <==> j in was.awaiting)
    }

    ghost predicate Asked(was: Room<V, Op>, now: Room<V, Op>) {
      forall j: Key :: AskedOne(was, now, j)
    }

    /** The slots in `gone` made room, the others were left alone. */
    ghost predicate Roomed(was: map<Key, Entry<V, Op>>, now: map<Key, Entry<V, Op>>, gone: set<Key>, current: Key) {
      forall j | j != current :: if j in gone && Size(was, j) > 0 then Dropped(was, now, j) else Kept(was, now, j)
    }

    /** One more slot makes room. */
    lemma RoomedMore(was: map<Key, Entry<V, Op>>, mid: map<Key, Entry<V, Op>>, now: map<Key, Entry<V, Op>>,
                     gone: set<Key>, current: Key, k: Key)
      requires Roomed(was, mid, gone, current) && (k == current || k !in gone) && forall j | j != k :: Kept(mid, now, j)
      requires k == current || if Size(was, k) > 0 then Dropped(mid, now, k) else Kept(mid, now, k)
      ensures Roomed(was, now, gone + {k}, current)
    {
      forall j | j != current
        ensures if j in gone + {k} && Size(was, j) > 0 then Dropped(was, now, j) else Kept(was, now, j)
      {
        assert if j in gone && Size(was, j) > 0 then Dropped(was, mid, j) else Kept(was, mid, j);
        if j != k {
          assert Kept(mid, now, j);
        }
      }
    }

    lemma RoomedSame(was: map<Key, Entry<V, Op>>, now: map<Key, Entry<V, Op>>, gone: set<Key>, current: Key)
      requires Roomed(was, now, gone + {current}, current)
      ensures Roomed(was, now, gone, current)
    {
      forall j | j != current
        ensures if j in gone && Size(was, j) > 0 then Dropped(was, now, j) else Kept(was, now, j)
      {
        assert j in gone <==> j in gone + {current};
      }
    }

    /** Nothing but `current` holds bytes once every other slot made room. */
    lemma OnlyCurrent(was: map<Key, Entry<V, Op>>, gone: set<Key>, current: Key)
      requires Queued() && Roomed(was, pending, gone, current) && current in pending && forall j | j in was :: j in gone
      ensures pendingBytes == Size(pending, current)
    {
      forall j | j in order && j != current
        ensures Size(pending, j) == 0
      {
        assert j in pending;
        assert if j in gone && Size(was, j) > 0 then Dropped(was, pending, j) else Kept(was, pending, j);
      }
      OnlyOne(order, pending, pendingBytes, current);
    }

    /** The slots in `slots`, oldest first, make room up to the `i`-th. */
    method MakeRoomAt(slots: seq<Key>, i: nat, current: Key, ghost was: map<Key, Entry<V, Op>>, ghost was0: Room<V, Op>)
      requires Queued() && current in pending && i < |slots| && Distinct(slots) && slots[i] in was
      requires Roomed(was, pending, Oldest(slots, i), current) && Kept(was, pending, current)
      requires was == was0.pending && Asked(was0, Space())
      modifies `order, `pending, `pendingBytes, `asked, `awaiting
      ensures Queued() && Roomed(was, pending, Oldest(slots, i + 1), current) && Kept(was, pending, current)
      ensures Asked(was0, Space())
    {
      var k := slots[i];
      NextOldest(slots, i);
      assert Kept(was, pending, k) by {
        assert k != current && k !in Oldest(slots, i) ==> Kept(was, pending, k);
      }
      ghost var mid, space := pending, Space();
      if k != current && k.StateOf? && pending[k].size > 0 {
        Drop(k);
        AskedMore(was0, space, Space(), k);
      }
      assert Kept(mid, pending, current);
      RoomedMore(was, mid, pending, Oldest(slots, i), current, k);
    }

    /** One more stream was dropped. */
    lemma AskedMore(was: Room<V, Op>, mid: Room<V, Op>, now: Room<V, Op>, k: Key)
      requires Asked(was, mid) && k in was.pending && k in mid.pending && Dropped(mid.pending, now.pending, k)
      requires forall j | j != k :: Kept(mid.pending, now.pending, j)
      requires now.asked == if relayed(k.hold) then mid.asked + multiset{k} else mid.asked
      requires now.awaiting == if relayed(k.hold) then mid.awaiting + {k} else mid.awaiting
      ensures Asked(was, now)
    {
      forall j: Key
        ensures AskedOne(was, now, j)
      {
        assert AskedOne(was, mid, j);
        assert j != k ==> Kept(mid.pending, now.pending, j);
      }
    }

    /**
     * Frees `size` bytes of the cap: of the `n` oldest slots those with ops go, and `current`'s own only if it must.
     */
    method MakeRoom(size: nat, current: Key) returns (ghost n: nat)
      requires Queued() && current in pending && current.StateOf?
      modifies `order, `pending, `pendingBytes, `asked, `awaiting
      ensures Queued() && n <= |old(order)| && Roomed(old(pending), pending, Oldest(old(order), n), current)
      ensures Asked(old(Space()), Space())
      ensures (Kept(old(pending), pending, current) && pendingBytes + size <= pendingCap)
              || (Dropped(old(pending), pending, current) && old(Size(pending, current)) + size > pendingCap
                  && n == |old(order)|)
    {
      var slots := order;
      ghost var was := pending;
      n := 0;
      var i := 0;
      while i < |slots|
        invariant 0 <= i <= |slots| && slots == old(order) && was == old(pending) && n == i
        invariant Queued() && Roomed(was, pending, Oldest(slots, n), current) && Kept(was, pending, current)
        invariant Asked(old(Space()), Space())
      {
        if pendingBytes + size <= pendingCap {
          return;
        }
        MakeRoomAt(slots, i, current, was, old(Space()));
        i := i + 1;
        n := i;
      }
      if pendingBytes + size > pendingCap {
        AllOldest(slots);
        OnlyCurrent(was, Oldest(slots, n), current);
        ghost var mid, space := pending, Space();
        Drop(current);
        AskedMore(old(Space()), space, Space(), current);
        RoomedMore(was, mid, pending, Oldest(slots, n), current, current);
        RoomedSame(was, pending, Oldest(slots, n), current);
      }
    }

    /** Slots other than `k`'s were left alone, or dropped. */
    ghost predicate Others(was: map<Key, Entry<V, Op>>, now: map<Key, Entry<V, Op>>, k: Key) {
      forall j | j != k :: Kept(was, now, j) || Dropped(was, now, j)
    }

    lemma RoomedOthers(was: map<Key, Entry<V, Op>>, now: map<Key, Entry<V, Op>>, gone: set<Key>, k: Key)
      requires Roomed(was, now, gone, k)
      ensures Others(was, now, k)
    {
      forall j | j != k
        ensures Kept(was, now, j) || Dropped(was, now, j)
      {
        assert if j in gone && Size(was, j) > 0 then Dropped(was, now, j) else Kept(was, now, j);
      }
    }

    /** The slot of `k` does not matter to the others. */
    lemma OthersUpdated(was: map<Key, Entry<V, Op>>, was': map<Key, Entry<V, Op>>, now: map<Key, Entry<V, Op>>,
                        now': map<Key, Entry<V, Op>>, k: Key)
      requires Others(was', now, k)
      requires forall j | j != k :: Kept(was, was', j) && Kept(now, now', j)
      ensures Others(was, now', k)
    {
      forall j | j != k
        ensures Kept(was, now', j) || Dropped(was, now', j)
      {
        assert Kept(was, was', j) && Kept(now, now', j);
        assert Kept(was', now, j) || Dropped(was', now, j);
      }
    }

    /** A stream that has no slot gets one. */
    method Place(k: Key, e: Entry<V, Op>)
      requires Queued() && k !in pending && Wellformed(k, e) && (e.Stream? ==> e.size == 0)
      modifies `order, `pending
      ensures Queued() && pending == old(pending)[k := e] && order == old(order) + [k]
    {
      FiledNew(order, pending, pendingBytes, k, e);
      order, pending := order + [k], pending[k := e];
    }

    /** A stream's frame, and what flow control makes of it, touches no unit. */
    twostate lemma FrameSupplies(k: Key)
      requires Others(old(pending), pending, k) && k.StateOf?
      requires feeds == old(feeds) && shapes == old(shapes) && wanted == old(wanted) && values.Keys == old(values.Keys)
      ensures old(Complete()) ==> Complete()
    {
      assert forall j | j in feeds && old(Due(j)) :: Due(j);
      forall j | Lacking(j)
        ensures old(Lacking(j)) && (UnitOf(j.hold) in old(pending) ==> UnitOf(j.hold) in pending)
      {
        assert Kept(old(pending), pending, UnitOf(j.hold)) || Dropped(old(pending), pending, UnitOf(j.hold));
      }
    }

    /** A stream's slot is replaced. */
    method Replace(k: Key, waiting: Waiting<V, Op>)
      requires Queued() && k in pending && k.StateOf? && !waiting.Nothing?
      modifies `pending, `pendingBytes
      ensures Queued() && pending == old(pending)[k := Stream(waiting, 0)]
    {
      FiledUpdated(order, pending, pendingBytes, k, Stream(waiting, 0));
      pendingBytes := pendingBytes - pending[k].size;
      pending := pending[k := Stream(waiting, 0)];
    }

    /** Ops are appended to a stream's slot, if they may wait at all. */
    method Append(k: Key, ops: seq<Op>) returns (ghost fits: bool)
      requires Queued() && k in pending && k.StateOf? && pending[k].waiting.Slot?
      modifies `order, `pending, `pendingBytes, `asked, `awaiting
      ensures Queued()
      ensures Others(old(pending), pending, k)
      ensures Asked(old(Space()), Space())
      ensures fits ==> k in pending && Waiting(k) == Coalesce(old(Waiting(k)), Ops(ops))
      ensures !fits ==> Dropped(old(pending), pending, k) && old(Size(pending, k)) + opsSize(ops) > pendingCap
    {
      var size := opsSize(ops);
      if pendingBytes + size > pendingCap {
        ghost var n := MakeRoom(size, k);
        RoomedOthers(old(pending), pending, Oldest(old(order), n), k);
      }
      fits := Kept(old(pending), pending, k);
      if k !in pending || pending[k].waiting.Lazy? {
        return;
      }
      var e := pending[k];
      var longer := Stream(Slot(e.waiting.base, e.waiting.ops + ops), e.size + size);
      OthersUpdated(old(pending), old(pending), pending, pending[k := longer], k);
      FiledUpdated(order, pending, pendingBytes, k, longer);
      AskedStill(old(Space()), Space(), k, longer);
      pending := pending[k := longer];
      pendingBytes := pendingBytes + size;
    }

    /** A slot that stays does not matter to what was asked for. */
    lemma AskedStill(was: Room<V, Op>, now: Room<V, Op>, k: Key, e: Entry<V, Op>)
      requires Asked(was, now) && k in now.pending
      ensures Asked(was, now.(pending := now.pending[k := e]))
    {
      var later := now.(pending := now.pending[k := e]);
      forall j: Key
        ensures AskedOne(was, later, j)
      {
        assert AskedOne(was, now, j);
      }
    }

    /** A stream's frame was sent, or waits, or was dropped with what waited of its stream. */
    ghost predicate Handled(fate: Fate, k: Key, p: Payload<V, Op>, was: map<Key, Entry<V, Op>>,
                            wasLink: seq<Frame<V, Op>>)
      reads `pending, `link
    {
      && Others(was, pending, k)
      && (fate.Direct? ==> k !in was && pending == was && link == wasLink + [State(k, p)])
      && (fate.Wait? ==> k in pending && Waiting(k) == Coalesce(View(was, k), p) && link == wasLink)
      && (fate.Overflow? ==>
            p.Ops? && !View(was, k).Lazy? && Waiting(k) == Overflowed(relayed(k.hold)) && link == wasLink)
    }

    /** Resets were asked for of the streams dropped, also of the frame's own. */
    ghost predicate AskedFor(fate: Fate, k: Key, was: Room<V, Op>, now: Room<V, Op>) {
      && (forall j | j != k :: AskedOne(was, now, j))
      && if fate.Overflow? && relayed(k.hold) then now.asked[k] == was.asked[k] + 1 && k in now.awaiting
         else Unasked(was, now, k)
    }

    /** The frame's own stream has a slot of its own in between. */
    lemma AskedForOwn(fate: Fate, k: Key, was: Room<V, Op>, mid: Room<V, Op>, now: Room<V, Op>)
      requires Asked(mid, now) && k in mid.pending && mid.asked == was.asked && mid.awaiting == was.awaiting
      requires forall j | j != k :: Kept(was.pending, mid.pending, j)
      requires relayed(k.hold) ==> (fate.Overflow? <==> k !in now.pending)
      ensures AskedFor(fate, k, was, now)
    {
      forall j: Key | j != k
        ensures AskedOne(was, now, j)
      {
        assert AskedOne(mid, now, j) && Kept(was.pending, mid.pending, j);
      }
      assert AskedOne(mid, now, k);
    }

    /** A frame of a stream; `fate` is what became of it: on the link, in the slot, or dropped. */
    method SendState(k: Key, p: Payload<V, Op>) returns (ghost fate: Fate)
      requires Counted() && Queued() && Waits() && k.StateOf?
      modifies `sent, `unacked, `unackedBytes, `link, `order, `pending, `pendingBytes, `asked, `awaiting
      ensures Counted() && Queued() && Waits()
      ensures fate.Direct? <==> old(k !in pending && !Full())
      ensures Handled(fate, k, p, old(pending), old(link))
      ensures AskedFor(fate, k, old(Space()), Space())
      ensures !p.Ops? ==> forall j | j != k :: Kept(old(pending), pending, j)
      ensures fate.Overflow? ==> old(Size(pending, k)) + opsSize(p.ops) > pendingCap
    {
      if k !in pending && !Full() {
        Send(State(k, p));
        fate := Direct;
        return;
      }
      fate := KeepWaiting(k, p);
    }

    /** A stream has a slot, if need be an empty one. */
    method EnsureSlot(k: Key)
      requires Queued() && k.StateOf?
      modifies `order, `pending
      ensures Queued() && k in pending
      ensures pending == if k in old(pending) then old(pending) else old(pending)[k := Stream(Slot(None, []), 0)]
    {
      if k !in pending {
        Place(k, Stream(Slot(None, []), 0));
      }
    }

    /** A frame that does not go out at once. */
    method KeepWaiting(k: Key, p: Payload<V, Op>) returns (ghost fate: Fate)
      requires Queued() && k.StateOf?
      modifies `order, `pending, `pendingBytes, `asked, `awaiting
      ensures Queued() && !fate.Direct?
      ensures Handled(fate, k, p, old(pending), link) && AskedFor(fate, k, old(Space()), Space())
      ensures !p.Ops? ==> forall j | j != k :: Kept(old(pending), pending, j)
      ensures fate.Overflow? ==> old(Size(pending, k)) + opsSize(p.ops) > pendingCap
    {
      fate := Wait;
      EnsureSlot(k);
      ghost var mid := Space();
      if !p.Ops? {
        Replace(k, Slot(Some(p), []));
        HandledStill(k, p, old(Space()), Space());
      } else if pending[k].waiting.Lazy? {
        HandledStill(k, p, old(Space()), Space());
      } else {
        fate := AppendOrDrop(k, p.ops);
        HandledOwn(fate, k, p, old(Space()), mid, Space());
      }
    }

    /** Only the slot of the frame's stream changed. */
    lemma HandledStill(k: Key, p: Payload<V, Op>, was: Room<V, Op>, now: Room<V, Op>)
      requires now == Space() && k.StateOf? && k in pending && Waiting(k) == Coalesce(View(was.pending, k), p)
      requires now.asked == was.asked && now.awaiting == was.awaiting
      requires forall j | j != k :: Kept(was.pending, pending, j)
      ensures Handled(Wait, k, p, was.pending, link) && AskedFor(Wait, k, was, now)
    {
      forall j: Key | j != k
        ensures AskedOne(was, now, j)
      {
        assert Kept(was.pending, pending, j);
      }
    }

    method AppendOrDrop(k: Key, ops: seq<Op>) returns (ghost fate: Fate)
      requires Queued() && k in pending && k.StateOf? && pending[k].waiting.Slot?
      modifies `order, `pending, `pendingBytes, `asked, `awaiting
      ensures Queued() && Others(old(pending), pending, k) && Asked(old(Space()), Space())
      ensures fate == Wait || fate == Overflow
      ensures fate.Wait? ==> k in pending && Waiting(k) == Coalesce(old(Waiting(k)), Ops(ops))
      ensures fate.Overflow? ==> Dropped(old(pending), pending, k) && old(Size(pending, k)) + opsSize(ops) > pendingCap
    {
      ghost var fits := Append(k, ops);
      fate := if fits then Wait else Overflow;
    }

    /** What became of a stream's ops, of a slot that was there or made for them. */
    lemma HandledOwn(fate: Fate, k: Key, p: Payload<V, Op>, was: Room<V, Op>, mid: Room<V, Op>, now: Room<V, Op>)
      requires now == Space() && p.Ops? && k.StateOf? && (fate == Wait || fate == Overflow)
      requires k in mid.pending && View(mid.pending, k).Slot? && mid.asked == was.asked && mid.awaiting == was.awaiting
      requires mid.pending == was.pending
               || (k !in was.pending && mid.pending == was.pending[k := Stream(Slot(None, []), 0)])
      requires Others(mid.pending, pending, k) && Asked(mid, now)
      requires fate.Wait? ==> k in pending && Waiting(k) == Coalesce(View(mid.pending, k), p)
      requires fate.Overflow? ==> Dropped(mid.pending, pending, k)
      ensures Handled(fate, k, p, was.pending, link) && AskedFor(fate, k, was, now)
    {
      OthersUpdated(was.pending, mid.pending, pending, pending, k);
      AskedForOwn(fate, k, was, mid, now);
    }

    // ─── streams of local members ───

    /** A stream that flow control left alone, or dropped to a promise, is as faithful as before. */
    lemma OtherFaithful(was: map<Key, Entry<V, Op>>, k: Key, got: Option<V>, value: V)
      requires Faithful(apply, got, View(was, k), value) && !relayed(k.hold)
      requires Kept(was, pending, k) || Dropped(was, pending, k)
      ensures Faithful(apply, got, Waiting(k), value)
    {
    }

    /** Flow control makes no slot but the stream's own. */
    lemma StaysStreamed(was: map<Key, Entry<V, Op>>, k: Key)
      requires Others(was, pending, k) && (k in feeds || relayed(k.hold)) && (relayed(k.hold) ==> !Waiting(k).Lazy?)
      requires forall j | j in was && j.StateOf? && !relayed(j.hold) :: j in feeds
      requires forall j | j in was && relayed(j.hold) :: !View(was, j).Lazy?
      ensures forall j | j in pending && j.StateOf? && !relayed(j.hold) :: j in feeds
      ensures forall j | j in pending && relayed(j.hold) :: !Waiting(j).Lazy?
    {
      forall j | j in pending
        ensures j.StateOf? && !relayed(j.hold) ==> j in feeds
        ensures relayed(j.hold) ==> !Waiting(j).Lazy?
      {
        assert j != k ==> Kept(was, pending, j) || Dropped(was, pending, j);
      }
    }

    /** The other streams are as faithful as before, whatever flow control did with a stream's frame. */
    lemma OthersFaithful(fate: Fate, k: Key, p: Payload<V, Op>, was: map<Key, Entry<V, Op>>, wasLink: seq<Frame<V, Op>>)
      requires Handled(fate, k, p, was, wasLink)
      requires forall j | j in feeds :: j in values && !relayed(j.hold)
      requires forall j | j in feeds && j !in stale && j != k ::
                 Faithful(apply, Replayed(apply, wasLink, j), View(was, j), values[j])
      ensures AllFaithfulBut(k)
    {
      forall j | j in feeds && j in values && j !in stale && j != k
        ensures Faithful(apply, Got(j), Waiting(j), values[j])
      {
        ReplayedMore(apply, wasLink, State(k, p), j);
        assert Kept(was, pending, j) || Dropped(was, pending, j);
        OtherFaithful(was, j, Got(j), values[j]);
      }
    }

    /** Whatever flow control did with a stream's frame, nothing else than that stream's faith is left to see to. */
    lemma AfterFrame(fate: Fate, k: Key, p: Payload<V, Op>, was: map<Key, Entry<V, Op>>, wasLink: seq<Frame<V, Op>>)
      requires Handled(fate, k, p, was, wasLink) && (k in feeds || relayed(k.hold))
               && (relayed(k.hold) ==> !Waiting(k).Lazy?)
      requires shapes.Keys <= served && forall hold | hold in served :: !relayed(hold)
      requires forall j | j in feeds :: j.StateOf? && !relayed(j.hold) && j in values
      requires forall j | j in was && j.StateOf? && !relayed(j.hold) :: j in feeds
      requires forall j | j in was && relayed(j.hold) :: !View(was, j).Lazy?
      requires forall j | j in feeds && j !in stale && j != k ::
                 Faithful(apply, Replayed(apply, wasLink, j), View(was, j), values[j])
      ensures Streamed() && AllFaithfulBut(k)
    {
      StaysStreamed(was, k);
      OthersFaithful(fate, k, p, was, wasLink);
    }

    /** The ops of a stream bring what was faithful to the old value to the new one. */
    lemma OpsFaithful(fate: Fate, k: Key, ops: seq<Op>, was: map<Key, Entry<V, Op>>, wasLink: seq<Frame<V, Op>>,
                      value: V)
      requires Handled(fate, k, Ops(ops), was, wasLink) && !relayed(k.hold)
      requires Faithful(apply, Replayed(apply, wasLink, k), View(was, k), value)
      ensures Faithful(apply, Got(k), Waiting(k), ApplyAll(apply, value, ops))
    {
      ReplayedMore(apply, wasLink, State(k, Ops(ops)), k);
      OpsStayFaithful(apply, Replayed(apply, wasLink, k), View(was, k), value, ops);
    }

    lemma BaseFaithful(fate: Fate, k: Key, p: Payload<V, Op>, was: map<Key, Entry<V, Op>>, wasLink: seq<Frame<V, Op>>,
                       value: V)
      requires Handled(fate, k, p, was, wasLink) && (p == Snap(value) || p == Reset(value))
      ensures Faithful(apply, Got(k), Waiting(k), value)
    {
      ReplayedMore(apply, wasLink, State(k, p), k);
    }

    // ─── what happens to each stream ───

    ghost function Look(): Glance<V, Op>
      reads this
    {
      Glance(values, Now(), Space(), urgent)
    }

    ghost function Terms(): World<V, Op> {
      World(apply, valid)
    }

    /** A local stream as its provider. */
    ghost function Provided(g: Glance<V, Op>, k: Key): Views.Feed<V, Op>
      requires k in g.values
    {
      Views.Feed(g.values[k], k in g.book.feeds, k in g.book.stale, View(g.book.pending, k), SentOn(g.book.link, k))
    }

    /** A relayed stream. */
    ghost function Passed(g: Glance<V, Op>, k: Key): Views.Relay<V, Op> {
      Views.Relay(k in g.urgent, k in g.room.awaiting, View(g.book.pending, k), SentOn(g.book.link, k), g.room.asked[k])
    }

    ghost predicate Steps(was: Glance<V, Op>, now: Glance<V, Op>, k: Key, step: Views.FeedStep<V, Op>) {
      && k in was.values && k in now.values && Views.FeedEnabled(Terms(), Provided(was, k), step)
      && Provided(now, k) == Views.FeedNext(Terms(), Provided(was, k), step)
    }

    ghost predicate RelaySteps(was: Glance<V, Op>, now: Glance<V, Op>, k: Key, step: Views.RelayStep<V, Op>) {
      Views.RelayEnabled(Passed(was, k), step) && Passed(now, k) == Views.RelayNext(Passed(was, k), step)
    }

    /** A stream was left alone, or made room for another one. */
    ghost predicate AsideOne(was: Glance<V, Op>, now: Glance<V, Op>, j: Key) {
      if relayed(j.hold) then
        Passed(now, j) == Passed(was, j) || RelaySteps(was, now, j, Views.RelayMadeRoom)
      else
        j in was.values ==>
          j in now.values && (Provided(now, j) == Provided(was, j) || Steps(was, now, j, Views.MadeRoom))
    }

    ghost predicate Aside(was: Glance<V, Op>, now: Glance<V, Op>, k: Key) {
      forall j: Key | j.StateOf? && j != k :: AsideOne(was, now, j)
    }

    /** The frames sent of other streams are the same. */
    lemma HandledOthers(wasLink: seq<Frame<V, Op>>, fate: Fate, k: Key, p: Payload<V, Op>, was: map<Key, Entry<V, Op>>)
      requires Handled(fate, k, p, was, wasLink)
      ensures forall j | j != k :: Told(j) == SentOn(wasLink, j)
      ensures Told(k) == if fate.Direct? then SentOn(wasLink, k) + [p] else SentOn(wasLink, k)
    {
      forall j
        ensures Told(j) == if fate.Direct? && j == k then SentOn(wasLink, j) + [p] else SentOn(wasLink, j)
      {
        SentMore(wasLink, State(k, p), j);
      }
    }

    /** A frame of a stream, and what became of it. */
    ghost predicate Sends(was: Glance<V, Op>, now: Glance<V, Op>, k: Key, p: Payload<V, Op>, fate: Fate) {
      && k in was.values && k in now.values && Allowed(Provided(was, k).waiting, p, fate)
      && Provided(now, k) == Views.FeedSend(Provided(was, k), p, fate)
    }

    lemma HandledSends(was: Glance<V, Op>, fate: Fate, k: Key, p: Payload<V, Op>)
      requires Handled(fate, k, p, was.book.pending, was.book.link) && !relayed(k.hold) && k in values
      requires feeds == was.book.feeds && stale == was.book.stale && values == was.values
      ensures Sends(was, Look(), k, p, fate)
    {
      HandledOthers(was.book.link, fate, k, p, was.book.pending);
    }

    lemma HandledAside(was: Glance<V, Op>, fate: Fate, k: Key, p: Payload<V, Op>)
      requires Handled(fate, k, p, was.book.pending, was.book.link) && AskedFor(fate, k, was.room, Space())
      requires was.room.pending == was.book.pending && urgent == was.urgent && feeds == was.book.feeds
      requires forall j | j in was.values && j != k :: j in values && values[j] == was.values[j]
      requires forall j | j != k :: j in stale <==> j in was.book.stale
      requires forall j | j in was.book.pending :: Wellformed(j, was.book.pending[j])
      requires forall j | j in was.book.pending && relayed(j.hold) :: !View(was.book.pending, j).Lazy?
      ensures Aside(was, Look(), k)
    {
      HandledOthers(was.book.link, fate, k, p, was.book.pending);
      forall j: Key | j.StateOf? && j != k
        ensures AsideOne(was, Look(), j)
      {
        assert Kept(was.book.pending, pending, j) || Dropped(was.book.pending, pending, j);
        assert AskedOne(was.room, Space(), j);
      }
    }

    ghost function WithSource(g: Glance<V, Op>, k: Key, value: V): Glance<V, Op> {
      g.(values := g.values[k := value])
    }

    /** With the mark that a stream's value deserves. */
    ghost function Remarked(g: Glance<V, Op>, k: Key): Glance<V, Op>
      requires k in g.values
    {
      g.(book := g.book.(stale := Marked(g.book.stale, k, g.values[k])))
    }

    lemma Idle(was: Glance<V, Op>, k: Key)
      ensures Aside(was, was, k)
    {
      forall j: Key | j.StateOf? && j != k
        ensures AsideOne(was, was, j)
      {
      }
    }

    /** The other streams do not see the value of a source. */
    lemma AsideFromSource(was: Glance<V, Op>, now: Glance<V, Op>, k: Key, value: V)
      requires k in was.values && Aside(WithSource(was, k, value), now, k)
      ensures Aside(was, now, k)
    {
      var mid := WithSource(was, k, value);
      forall j: Key | j.StateOf? && j != k
        ensures AsideOne(was, now, j)
      {
        assert AsideOne(mid, now, j);
      }
    }

    /** Nor its mark. */
    lemma AsideFromMark(was: Glance<V, Op>, now: Glance<V, Op>, k: Key)
      requires k in was.values && Aside(Remarked(was, k), now, k)
      ensures Aside(was, now, k)
    {
      var mid := Remarked(was, k);
      forall j: Key | j.StateOf? && j != k
        ensures AsideOne(was, now, j)
      {
        assert AsideOne(mid, now, j);
      }
    }

    lemma ChangedSteps(was: Glance<V, Op>, now: Glance<V, Op>, k: Key, ops: seq<Op>, fate: Fate)
      requires k in was.values
      requires var mid := WithSource(was, k, ApplyAll(apply, was.values[k], ops));
               if k in was.book.feeds then Sends(mid, now, k, Ops(ops), fate) else now == mid
      ensures Steps(was, now, k, Views.Changed(ops, fate))
    {
    }

    lemma RenewedSteps(was: Glance<V, Op>, now: Glance<V, Op>, k: Key, value: V, fate: Fate)
      requires k in was.values
      requires var mid := WithSource(was, k, value);
               if k in was.book.feeds then Sends(Remarked(mid, k), now, k, Snapshot(value, false), fate) else now == mid
      ensures Steps(was, now, k, Views.Renewed(value, fate))
    {
    }

    /** Sends a frame of a stream that is followed. */
    method SendFed(k: Key, p: Payload<V, Op>) returns (ghost fate: Fate)
      requires Counted() && Queued() && Waits() && Streamed() && k in feeds
      modifies `sent, `unacked, `unackedBytes, `link, `order, `pending, `pendingBytes, `asked, `awaiting
      ensures Counted() && Queued() && Waits() && Handled(fate, k, p, old(pending), old(link))
      ensures Sends(old(Look()), Look(), k, p, fate) && Aside(old(Look()), Look(), k)
      ensures old(Full()) ==> !fate.Direct?
    {
      ghost var was := Look();
      fate := SendState(k, p);
      HandledSends(was, fate, k, p);
      HandledAside(was, fate, k, p);
    }

    /** A source has another value; if it is followed, its stream is yet to follow. */
    method SetSource(k: Key, value: V)
      requires Valid() && k in values && k.StateOf?
      modifies `values
      ensures Counted() && Queued() && Waits() && Complete() && Streamed() && AllFaithfulBut(k)
      ensures Look() == WithSource(old(Look()), k, value)
    {
      values := values[k := value];
    }

    /** A member's source changes by ops. */
    method Change(k: Key, ops: seq<Op>) returns (ghost fate: Fate)
      requires Valid() && k in values && k.StateOf?
      modifies this
      ensures Valid() && values == old(values)[k := ApplyAll(apply, old(values[k]), ops)]
      ensures feeds == old(feeds) && stale == old(stale)
      ensures Steps(old(Look()), Look(), k, Views.Changed(ops, fate)) && Aside(old(Look()), Look(), k)
      ensures k in feeds && old(Full()) ==> !fate.Direct?
    {
      ghost var value, was := values[k], Look();
      SetSource(k, ApplyAll(apply, values[k], ops));
      fate := FollowIfFed(k, ops, value);
      ChangedSteps(was, Look(), k, ops, fate);
      AsideFromSource(was, Look(), k, ApplyAll(apply, value, ops));
    }

    method FollowIfFed(k: Key, ops: seq<Op>, ghost value: V) returns (ghost fate: Fate)
      requires Counted() && Queued() && Waits() && Complete() && Streamed() && AllFaithfulBut(k) && k in values
      requires values[k] == ApplyAll(apply, value, ops)
      requires k in feeds && k !in stale ==> Faithful(apply, Got(k), Waiting(k), value)
      modifies `sent, `unacked, `unackedBytes, `link, `order, `pending, `pendingBytes, `asked, `awaiting
      ensures Valid() && Aside(old(Look()), Look(), k)
      ensures if k in feeds then Sends(old(Look()), Look(), k, Ops(ops), fate) else Look() == old(Look())
      ensures k in feeds && old(Full()) ==> !fate.Direct?
    {
      fate := Direct;
      if k in feeds {
        fate := FollowOps(k, ops, value);
      } else {
        Idle(Look(), k);
      }
    }

    /** Follows a stream's source to the value that ops made of the former one. */
    method FollowOps(k: Key, ops: seq<Op>, ghost value: V) returns (ghost fate: Fate)
      requires Counted() && Queued() && Waits() && Complete() && Streamed() && AllFaithfulBut(k) && k in feeds
      requires values[k] == ApplyAll(apply, value, ops) && (k !in stale ==> Faithful(apply, Got(k), Waiting(k), value))
      modifies `sent, `unacked, `unackedBytes, `link, `order, `pending, `pendingBytes, `asked, `awaiting
      ensures Valid() && Sends(old(Look()), Look(), k, Ops(ops), fate) && Aside(old(Look()), Look(), k)
      ensures old(Full()) ==> !fate.Direct?
    {
      ghost var was, wasLink := pending, link;
      fate := SendFed(k, Ops(ops));
      AfterFrame(fate, k, Ops(ops), was, wasLink);
      FrameSupplies(k);
      if k !in stale {
        OpsFaithful(fate, k, ops, was, wasLink, value);
      }
    }

    function Snapshot(value: V, first: bool): (p: Payload<V, Op>)
      ensures p.Failed? <==> !valid(value)
      ensures valid(value) ==> p == Snap(value) || p == Reset(value)
    {
      Built(valid(value), value, first)
    }

    /** The streams whose snapshots are errors, after a snapshot of one. */
    ghost function Marked(marks: set<Key>, k: Key, value: V): set<Key> {
      if valid(value) then marks - {k} else marks + {k}
    }

    /** Follows a stream's source to the value it was replaced by. */
    method FollowReset(k: Key) returns (ghost fate: Fate)
      requires Counted() && Queued() && Waits() && Complete() && Streamed() && AllFaithfulBut(k) && k in feeds
      requires k in stale <==> !valid(values[k])
      modifies `sent, `unacked, `unackedBytes, `link, `order, `pending, `pendingBytes, `asked, `awaiting
      ensures Valid() && Sends(old(Look()), Look(), k, Snapshot(values[k], false), fate)
              && Aside(old(Look()), Look(), k)
    {
      var p := Snapshot(values[k], false);
      ghost var was, wasLink := pending, link;
      fate := SendFed(k, p);
      AfterFrame(fate, k, p, was, wasLink);
      FrameSupplies(k);
      if valid(values[k]) {
        BaseFaithful(fate, k, p, was, wasLink, values[k]);
      }
    }

    /** A member's source is replaced. */
    method Renew(k: Key, value: V) returns (ghost fate: Fate)
      requires Valid() && k in values && k.StateOf?
      modifies this
      ensures Valid() && values == old(values)[k := value] && feeds == old(feeds)
      ensures stale == if k in feeds then Marked(old(stale), k, value) else old(stale)
      ensures Steps(old(Look()), Look(), k, Views.Renewed(value, fate)) && Aside(old(Look()), Look(), k)
    {
      ghost var was := Look();
      SetSource(k, value);
      fate := RestartIfFed(k);
      RenewedSteps(was, Look(), k, value, fate);
      AsideFromSource(was, Look(), k, value);
    }

    method RestartIfFed(k: Key) returns (ghost fate: Fate)
      requires Counted() && Queued() && Waits() && Complete() && Streamed() && AllFaithfulBut(k) && k in values
      modifies `sent, `unacked, `unackedBytes, `link, `order, `pending, `pendingBytes, `asked, `awaiting, `stale
      ensures Valid() && stale == (if k in feeds then Marked(old(stale), k, values[k]) else old(stale))
      ensures Aside(old(Look()), Look(), k)
      ensures if k in feeds then Sends(Remarked(old(Look()), k), Look(), k, Snapshot(values[k], false), fate)
              else Look() == old(Look())
    {
      fate := Direct;
      if k in feeds {
        fate := Restart(k);
      } else {
        Idle(Look(), k);
      }
    }

    /** A stream starts again with a reset of its source's value. */
    method Restart(k: Key) returns (ghost fate: Fate)
      requires Counted() && Queued() && Waits() && Complete() && Streamed() && AllFaithfulBut(k) && k in feeds
      modifies `sent, `unacked, `unackedBytes, `link, `order, `pending, `pendingBytes, `asked, `awaiting, `stale
      ensures Valid() && stale == Marked(old(stale), k, values[k])
      ensures Sends(Remarked(old(Look()), k), Look(), k, Snapshot(values[k], false), fate)
      ensures Aside(old(Look()), Look(), k)
    {
      ghost var was := Look();
      stale := Marked(stale, k, values[k]);
      fate := FollowReset(k);
      AsideFromMark(was, Look(), k);
    }

    /** Puts a reset with the source's value on the link at once, past whatever the slot had. */
    method Resend(k: Key)
      requires Counted() && Queued() && Streamed() && AllFaithfulBut(k) && k !in pending && k in feeds
      modifies `sent, `unacked, `unackedBytes, `link, `stale
      ensures Sound() && link == old(link) + [State(k, Snapshot(values[k], false))] && unackedBytes >= old(unackedBytes)
      ensures stale == Marked(old(stale), k, values[k])
      ensures forall j :: Told(j) == if j == k then old(Told(j)) + [Snapshot(values[k], false)] else old(Told(j))
    {
      var p := Snapshot(values[k], false);
      Send(State(k, p));
      stale := Marked(stale, k, values[k]);
    }

    /** Starts a stream: its snapshot is sent, and its source is followed from then on. */
    method Attach(k: Key)
      requires Sound() && k !in feeds && k in values && k.StateOf? && !relayed(k.hold)
      modifies `sent, `unacked, `unackedBytes, `link, `feeds, `stale
      ensures Sound() && unackedBytes >= old(unackedBytes) && feeds == old(feeds) + {k}
      ensures link == old(link) + [State(k, Snapshot(values[k], true))] && stale == Marked(old(stale), k, values[k])
      ensures forall j :: Told(j) == if j == k then old(Told(j)) + [Snapshot(values[k], true)] else old(Told(j))
    {
      var p := Snapshot(values[k], true);
      Send(State(k, p));
      feeds := feeds + {k};
      stale := Marked(stale, k, values[k]);
    }

    /** A member of a hold's shape whose state is wanted. */
    predicate Due(k: Key)
      reads `shapes, `wanted
    {
      k.StateOf? && k.hold in shapes && k.hold in wanted && k.m in shapes[k.hold]
    }

    /** A member the hold's consumer should have and lacks. */
    ghost predicate Lacking(k: Key)
      reads `shapes, `wanted, `feeds, `values
    {
      Due(k) && k in values && k !in feeds
    }

    method Listed(hold: nat) returns (ks: seq<Key>)
      requires hold in shapes
      ensures Distinct(ks) && forall k :: k in ks <==> Lacking(k) && k.hold == hold
    {
      ks := [];
      var members := if hold in wanted then shapes[hold] else [];
      var i := 0;
      while i < |members|
        invariant 0 <= i <= |members| && Distinct(ks)
        invariant forall k :: k in ks <==> Lacking(k) && k.hold == hold && k.m in members[..i]
      {
        var k := StateOf(hold, members[i]);
        assert members[..i + 1] == members[..i] + [members[i]];
        if k in values && k !in feeds && k !in ks {
          assert (ks + [k])[..|ks|] == ks;
          ks := ks + [k];
        }
        i := i + 1;
      }
      assert members[..i] == members;
    }

    /** The frame that starts a stream. */
    ghost function Start(k: Key): Payload<V, Op>
      reads `values
    {
      if k in values then Snapshot(values[k], true) else Failed
    }

    /** Since a former state the streams `ks` started with a snapshot each, all others went on as they were. */
    ghost predicate Started(wasFeeds: set<Key>, wasLink: seq<Frame<V, Op>>, wasStale: set<Key>, ks: set<Key>)
      reads `feeds, `link, `stale, `values
    {
      && feeds == wasFeeds + ks && (forall k | k in ks :: k in values)
      && (forall k | k in ks :: Told(k) == SentOn(wasLink, k) + [Start(k)])
      && (forall k | k !in ks :: Told(k) == SentOn(wasLink, k))
      && (forall k :: k in stale <==> if k in ks then Start(k).Failed? else k in wasStale)
    }

    /** Streams that can start: of local members with sources, none of them among `started`. */
    ghost predicate Startable(ks: seq<Key>, started: set<Key>)
      reads `values
    {
      Distinct(ks) && forall k | k in ks :: k !in started && k in values && k.StateOf? && !relayed(k.hold)
    }

    /** One more stream of a unit starts. */
    method AttachNext(listed: seq<Key>, i: nat, ghost wasFeeds: set<Key>, ghost wasLink: seq<Frame<V, Op>>,
                      ghost wasStale: set<Key>)
      requires Sound() && i < |listed| && Startable(listed, wasFeeds)
      requires Started(wasFeeds, wasLink, wasStale, Oldest(listed, i))
      modifies `sent, `unacked, `unackedBytes, `link, `feeds, `stale
      ensures Sound() && unackedBytes >= old(unackedBytes)
      ensures Started(wasFeeds, wasLink, wasStale, Oldest(listed, i + 1))
    {
      NextOldest(listed, i);
      assert listed[i] in listed;
      Attach(listed[i]);
    }

    /** Starts the streams of a unit. */
    method AttachAll(listed: seq<Key>)
      requires Sound() && Startable(listed, feeds)
      modifies `sent, `unacked, `unackedBytes, `link, `feeds, `stale
      ensures Sound() && unackedBytes >= old(unackedBytes)
      ensures Started(old(feeds), old(link), old(stale), Oldest(listed, |listed|))
    {
      for i := 0 to |listed|
        invariant Sound() && unackedBytes >= old(unackedBytes)
        invariant Started(old(feeds), old(link), old(stale), Oldest(listed, i))
      {
        AttachNext(listed, i, old(feeds), old(link), old(stale));
      }
    }

    /** A unit's shape starts no stream. */
    method SendShape(hold: nat, listed: seq<Key>)
      requires Sound()
      modifies `sent, `unacked, `unackedBytes, `link
      ensures Sound() && unackedBytes >= old(unackedBytes) && link == old(link) + [Shape(hold, listed)]
      ensures forall k :: Told(k) == old(Told(k))
    {
      Send(Shape(hold, listed));
    }

    /** Sends a unit: its shape, and the snapshots that start its streams. */
    method SendStreams(hold: nat, listed: seq<Key>)
      requires Sound() && Startable(listed, feeds)
      modifies `sent, `unacked, `unackedBytes, `link, `feeds, `stale
      ensures Sound() && unackedBytes >= old(unackedBytes)
      ensures Started(old(feeds), old(link), old(stale), Oldest(listed, |listed|))
    {
      SendShape(hold, listed);
      AttachAll(listed);
    }

    /** A slot leaves. */
    method Take(k: Key) returns (e: Entry<V, Op>)
      requires Sound() && k in pending
      modifies `order, `pending, `pendingBytes
      ensures Counted() && Queued() && Streamed() && AllFaithfulBut(k)
      ensures order == Without(old(order), k) && pending == old(pending) - {k} && e == old(pending)[k]
    {
      e := TakeSlot(k);
      SlotsFaithful(old(pending), k);
    }

    method TakeSlot(k: Key) returns (e: Entry<V, Op>)
      requires Queued() && k in pending
      modifies `order, `pending, `pendingBytes
      ensures Queued() && order == Without(old(order), k) && pending == old(pending) - {k} && e == old(pending)[k]
    {
      e := pending[k];
      FiledWithout(order, pending, pendingBytes, k);
      order, pending, pendingBytes := Without(order, k), pending - {k}, pendingBytes - if e.Stream? then e.size else 0;
    }

    method Unqueue(hold: nat)
      requires Sound()
      modifies `order, `pending, `pendingBytes
      ensures Sound() && pending == old(pending) - {UnitOf(hold)} && order == Without(old(order), UnitOf(hold))
    {
      var unit := UnitOf(hold);
      if unit in pending {
        var _ := Take(unit);
      } else {
        assert unit !in order;
        Unaffected(order, unit);
        assert pending - {unit} == pending;
      }
    }

    /** A unit of the hold's members; `ks` are the streams it starts, those that were not served yet. */
    method StartUnit(hold: nat) returns (ghost ks: set<Key>)
      requires Sound() && hold in shapes
      modifies `sent, `unacked, `unackedBytes, `link, `feeds, `stale, `unitSent
      ensures Sound() && unackedBytes >= old(unackedBytes)
      ensures (forall k :: k in ks <==> old(Lacking(k)) && k.hold == hold)
              && Started(old(feeds), old(link), old(stale), ks)
    {
      unitSent := unitSent + {hold};
      var listed := Listed(hold);
      ks := Oldest(listed, |listed|);
      AllOldest(listed);
      SendStreams(hold, listed);
    }

    /** `StartUnit` for a hold that is still served; nothing for one that is not. */
    method SendUnit(hold: nat) returns (ghost ks: set<Key>)
      requires Sound()
      modifies `sent, `unacked, `unackedBytes, `link, `order, `pending, `pendingBytes, `feeds, `stale, `unitSent
      ensures Sound() && unackedBytes >= old(unackedBytes)
      ensures pending == old(pending) - {UnitOf(hold)} && order == Without(old(order), UnitOf(hold))
      ensures (forall k :: k in ks <==> old(Lacking(k)) && k.hold == hold)
      ensures Started(old(feeds), old(link), old(stale), ks) && AllAttached(hold)
      ensures forall k | k in feeds :: k in old(feeds) || Due(k)
    {
      Unqueue(hold);
      ks := {};
      if hold in shapes {
        ks := StartUnit(hold);
      }
      forall k: Key | k.hold == hold
        ensures !Lacking(k)
      {
        assert old(Lacking(k)) ==> k in ks && k in feeds;
      }
    }

    /** What a promised reset becomes when it is sent. */
    ghost function Renewed(k: Key): Payload<V, Op>
      reads `values
    {
      if k in values then Snapshot(values[k], false) else Failed
    }

    /** What matters to the streams of a connection. */
    ghost function Now(): Book<V, Op>
      reads `pending, `link, `feeds, `stale
    {
      Book(pending, link, feeds, stale)
    }

    ghost predicate Untouched(was: Book<V, Op>, now: Book<V, Op>, k: Key) {
      && Kept(was.pending, now.pending, k) && SentOn(now.link, k) == SentOn(was.link, k)
      && (k in now.feeds <==> k in was.feeds) && (k in now.stale <==> k in was.stale)
    }

    /** What waited for a stream was sent; a promised reset was built from the current value. */
    ghost predicate Flushed(was: Book<V, Op>, now: Book<V, Op>, k: Key)
      reads `values
    {
      && k in was.pending && k !in now.pending && (k in now.feeds <==> k in was.feeds)
      && SentOn(now.link, k) == SentOn(was.link, k) + Frames(View(was.pending, k), Renewed(k))
      && (k in now.stale <==> if View(was.pending, k).Lazy? then Renewed(k).Failed? else k in was.stale)
    }

    /** A stream started with a snapshot of the current value. */
    ghost predicate Begun(was: Book<V, Op>, now: Book<V, Op>, k: Key)
      reads `values
    {
      && k !in was.feeds && k in now.feeds && k !in was.pending && k !in now.pending && k in values
      && SentOn(now.link, k) == SentOn(was.link, k) + [Start(k)] && (k in now.stale <==> Start(k).Failed?)
    }

    /** Streams that went on: each was left alone, started, or what waited for it was sent. */
    ghost predicate Went(was: Book<V, Op>, now: Book<V, Op>)
      reads `values
    {
      forall k: Key | k.StateOf? :: Untouched(was, now, k) || Flushed(was, now, k) || Begun(was, now, k)
    }

    /** Streams that went on, and nothing waited for them. */
    ghost predicate Grew(was: Book<V, Op>, now: Book<V, Op>)
      reads `values
    {
      forall k: Key | k.StateOf? :: Untouched(was, now, k) || Begun(was, now, k)
    }

    /** Sends a base and then the ops that waited. */
    method SendWaiting(k: Key, base: Option<Payload<V, Op>>, ops: seq<Op>)
      requires Counted()
      modifies `sent, `unacked, `unackedBytes, `link
      ensures Counted() && unackedBytes >= old(unackedBytes)
      ensures Got(k) == Settle(apply, old(Got(k)), Slot(base, ops), Failed)
      ensures Told(k) == old(Told(k)) + Frames(Slot(base, ops), Failed)
      ensures forall j | j != k :: Told(j) == old(Told(j)) && Got(j) == old(Got(j))
    {
      if base.Some? {
        Send(State(k, base.value));
      }
      if ops != [] {
        Send(State(k, Ops(ops)));
      }
    }

    /** What waited of a stream that already left its slot is sent. */
    method SendTaken(k: Key, base: Option<Payload<V, Op>>, ops: seq<Op>)
      requires Counted() && Queued() && Streamed() && AllFaithfulBut(k) && k !in pending
      requires k in feeds && k in values && k !in stale ==> Faithful(apply, Got(k), Slot(base, ops), values[k])
      modifies `sent, `unacked, `unackedBytes, `link
      ensures Sound() && unackedBytes >= old(unackedBytes)
      ensures Told(k) == old(Told(k)) + Frames(Slot(base, ops), Failed)
      ensures forall j | j != k :: Told(j) == old(Told(j))
    {
      SendWaiting(k, base, ops);
    }

    /** A stream is marked stale, or not any more, by the value it was last snapshotted from. */
    ghost predicate MarkedByValue(marks: set<Key>)
      reads `stale, `values
    {
      forall k | (k in stale) != (k in marks) :: k in values && (k in stale <==> !valid(values[k]))
    }

    /** A promised reset is built from the current value and sent. */
    method FlushPromise(k: Key)
      requires Sound() && k in pending && k.StateOf? && !relayed(k.hold) && Waiting(k).Lazy?
      modifies `sent, `unacked, `unackedBytes, `link, `order, `pending, `pendingBytes, `stale
      ensures Sound() && unackedBytes >= old(unackedBytes) && MarkedByValue(old(stale))
      ensures order == Without(old(order), k) && pending == old(pending) - {k}
      ensures Flushed(old(Now()), Now(), k) && forall j | j != k :: Untouched(old(Now()), Now(), j)
    {
      ghost var was := Now();
      var e := Take(k);
      Resend(k);
      SentOut(was, k);
    }

    /** A slot's frames were sent, and nothing else changed for any stream. */
    lemma SentOut(was: Book<V, Op>, k: Key)
      requires k in was.pending && pending == was.pending - {k} && feeds == was.feeds
      requires Told(k) == SentOn(was.link, k) + Frames(View(was.pending, k), Renewed(k))
      requires forall j | j != k :: Told(j) == SentOn(was.link, j)
      requires stale == if View(was.pending, k).Lazy? then Marks(was.stale, k) else was.stale
      ensures Flushed(was, Now(), k) && forall j | j != k :: Untouched(was, Now(), j)
    {
    }

    /** The streams whose snapshots are errors, after a reset of one. */
    ghost function Marks(marks: set<Key>, k: Key): set<Key>
      reads `values
    {
      if Renewed(k).Failed? then marks + {k} else marks - {k}
    }

    /** A base and ops are sent. */
    method FlushSlot(k: Key)
      requires Sound() && k in pending && k.StateOf? && Waiting(k).Slot?
      modifies `sent, `unacked, `unackedBytes, `link, `order, `pending, `pendingBytes
      ensures Sound() && unackedBytes >= old(unackedBytes)
      ensures order == Without(old(order), k) && pending == old(pending) - {k}
      ensures Flushed(old(Now()), Now(), k) && forall j | j != k :: Untouched(old(Now()), Now(), j)
    {
      ghost var was := Now();
      var e := Take(k);
      SendTaken(k, e.waiting.base, e.waiting.ops);
      SentOut(was, k);
    }

    lemma StartedGrew(was: Book<V, Op>, hold: nat, ks: set<Key>)
      requires Started(was.feeds, was.link, was.stale, ks) && pending == was.pending - {UnitOf(hold)}
      requires forall k | k in ks :: k !in was.feeds && k !in was.pending
      ensures Grew(was, Now())
    {
      forall k: Key | k.StateOf?
        ensures Untouched(was, Now(), k) || Begun(was, Now(), k)
      {
        assert k in ks ==> Begun(was, Now(), k);
        assert k !in ks ==> Untouched(was, Now(), k);
      }
    }

    /** A unit is built and sent: the streams there are go on. */
    method FlushUnit(hold: nat)
      requires Sound()
      modifies `sent, `unacked, `unackedBytes, `link, `order, `pending, `pendingBytes, `feeds, `stale, `unitSent
      ensures Sound() && unackedBytes >= old(unackedBytes) && old(feeds) <= feeds && MarkedByValue(old(stale))
      ensures order == Without(old(order), UnitOf(hold)) && pending == old(pending) - {UnitOf(hold)}
      ensures Grew(old(Now()), Now())
      ensures AllAttached(hold) && forall k | k in feeds :: k in old(feeds) || Due(k)
    {
      ghost var was := Now();
      ghost var ks := SendUnit(hold);
      StartedGrew(was, hold, ks);
    }

    /** Of the streams, one's slot was sent, or a unit that started some. */
    ghost predicate FlushedOne(was: Book<V, Op>, now: Book<V, Op>, k: Key)
      reads `values
    {
      if k.UnitOf? then Grew(was, now) else Flushed(was, now, k) && forall j | j != k :: Untouched(was, now, j)
    }

    /** A slot is sent. */
    method FlushOne(k: Key)
      requires Sound() && k in pending
      modifies `sent, `unacked, `unackedBytes, `link, `order, `pending, `pendingBytes, `feeds, `stale, `unitSent
      ensures Sound() && unackedBytes >= old(unackedBytes) && old(feeds) <= feeds && MarkedByValue(old(stale))
      ensures order == Without(old(order), k) && pending == old(pending) - {k}
      ensures FlushedOne(old(Now()), Now(), k)
      ensures (k.UnitOf? ==> AllAttached(k.hold)) && forall j | j in feeds :: j in old(feeds) || Due(j)
    {
      if k.UnitOf? {
        FlushUnit(k.hold);
      } else if pending[k].waiting.Lazy? {
        FlushPromise(k);
      } else {
        FlushSlot(k);
      }
    }

    /** A slot is sent, and units wait for what consumers lack as before. */
    method FlushNext(k: Key)
      requires Sound() && Complete() && k in pending
      modifies `sent, `unacked, `unackedBytes, `link, `order, `pending, `pendingBytes, `feeds, `stale, `unitSent
      ensures Sound() && Complete() && unackedBytes >= old(unackedBytes) && old(feeds) <= feeds
              && MarkedByValue(old(stale))
      ensures order == Without(old(order), k) && pending == old(pending) - {k}
      ensures FlushedOne(old(Now()), Now(), k)
    {
      FlushOne(k);
      KeptWithout(old(pending), k);
      StaysComplete(k);
    }

    /** Slots are of streams that are fed, or relayed. */
    ghost predicate Owned(book: Book<V, Op>) {
      && (forall k | k in book.pending && k.StateOf? :: k in book.feeds || relayed(k.hold))
      && forall k | k in book.feeds :: !relayed(k.hold)
    }

    /** One more slot was sent. */
    lemma WentOn(was: Book<V, Op>, mid: Book<V, Op>, now: Book<V, Op>, k: Key)
      requires Went(was, mid) && Owned(was) && Owned(now) && k in mid.pending && FlushedOne(mid, now, k)
      ensures Went(was, now)
    {
      forall j: Key | j.StateOf?
        ensures Untouched(was, now, j) || Flushed(was, now, j) || Begun(was, now, j)
      {
        assert Untouched(was, mid, j) || Flushed(was, mid, j) || Begun(was, mid, j);
        assert j != k ==> Untouched(mid, now, j) || Begun(mid, now, j);
      }
    }

    /** The oldest slot is sent, after others were since a former state. */
    method FlushOldest(ghost was: Book<V, Op>, ghost marks: set<Key>)
      requires Sound() && Complete() && order != [] && was.feeds <= feeds && Owned(was)
      requires Went(was, Now()) && MarkedByValue(marks)
      modifies `sent, `unacked, `unackedBytes, `link, `order, `pending, `pendingBytes, `feeds, `stale, `unitSent
      ensures Sound() && Complete() && was.feeds <= feeds && unackedBytes >= old(unackedBytes)
      ensures Went(was, Now()) && MarkedByValue(marks)
      ensures old(order) != [] && order == Without(old(order), old(order)[0]) && |order| < |old(order)|
    {
      var k := order[0];
      assert k in order;
      WithoutDistinct(order, k);
      ghost var mid := Now();
      FlushNext(k);
      WentOn(was, mid, Now(), k);
    }

    /** Empties the `n` oldest slots onto the link: all of them, or as many as it takes to fill the window. */
    method Flush() returns (ghost n: nat)
      requires Sound() && Complete()
      modifies `sent, `unacked, `unackedBytes, `link, `order, `pending, `pendingBytes, `feeds, `stale, `unitSent
      ensures Valid() && old(feeds) <= feeds && Went(old(Now()), Now()) && MarkedByValue(old(stale))
      ensures n <= |old(order)| && order == Younger(old(order), n)
      ensures (old(Full()) ==> n == 0) && (n == 0 ==> Now() == old(Now()) && sent == old(sent))
    {
      n := 0;
      NoneYounger(order);
      while order != [] && !Full()
        invariant Sound() && Complete() && old(feeds) <= feeds && MarkedByValue(old(stale))
        invariant Went(old(Now()), Now())
        invariant n <= |old(order)| && order == Younger(old(order), n)
        invariant (old(Full()) ==> n == 0 && Full()) && (n == 0 ==> Now() == old(Now()) && sent == old(sent))
        decreases |order|
      {
        YoungerStill(old(order), n);
        FlushOldest(old(Now()), old(stale));
        n := n + 1;
      }
    }

    /**
     * The hold's unit waits at the end of the slots, unless it has a place there already; then the slots are flushed.
     */
    method QueueUnit(hold: nat)
      requires Sound() && CompleteBut(hold) && AllDue(hold) && !relayed(hold)
      modifies `sent, `unacked, `unackedBytes, `link, `order, `pending, `pendingBytes, `feeds, `stale, `unitSent
      ensures Valid() && old(feeds) <= feeds && Went(old(Now()), Now()) && MarkedByValue(old(stale))
    {
      ghost var was := Now();
      PlaceUnit(hold);
      StaysComplete(UnitOf(hold));
      ghost var mid := Now();
      ghost var n := Flush();
      SameBefore(was, mid, Now());
    }

    method PlaceUnit(hold: nat)
      requires Sound() && !relayed(hold)
      modifies `order, `pending
      ensures Sound() && UnitOf(hold) in pending && forall j: Key | j != UnitOf(hold) :: Kept(old(pending), pending, j)
      ensures forall k: Key | k.StateOf? :: Untouched(old(Now()), Now(), k)
    {
      ghost var was := Now();
      if UnitOf(hold) !in pending {
        Place(UnitOf(hold), Unit);
        SlotsFaithful(old(pending), UnitOf(hold));
      }
      forall k: Key | k.StateOf?
        ensures Untouched(was, Now(), k)
      {
      }
    }

    /** Streams whose slots are the same are as faithful as before. */
    lemma SlotsFaithful(was: map<Key, Entry<V, Op>>, k: Key)
      requires forall j | j != k :: Kept(was, pending, j)
      requires forall j | j in feeds && j in values && j !in stale && j != k ::
                 Faithful(apply, Got(j), View(was, j), values[j])
      ensures AllFaithfulBut(k)
    {
      forall j | j in feeds && j in values && j !in stale && j != k
        ensures Faithful(apply, Got(j), Waiting(j), values[j])
      {
        assert Kept(was, pending, j);
      }
    }

    /** Only the slots of streams matter to how they went on. */
    lemma SameBefore(was: Book<V, Op>, mid: Book<V, Op>, now: Book<V, Op>)
      requires Went(mid, now) && forall k: Key | k.StateOf? :: Untouched(was, mid, k)
      ensures Went(was, now)
    {
      forall k: Key | k.StateOf?
        ensures Untouched(was, now, k) || Flushed(was, now, k) || Begun(was, now, k)
      {
        assert Untouched(was, mid, k) && (Untouched(mid, now, k) || Flushed(mid, now, k) || Begun(mid, now, k));
      }
    }

    /** A stream's slot is made to hold a promise only. */
    method PlacePromise(k: Key)
      requires Queued() && k.StateOf?
      modifies `order, `pending, `pendingBytes
      ensures Queued() && pending == old(pending)[k := Stream(Lazy, 0)]
    {
      if k !in pending {
        Place(k, Stream(Lazy, 0));
      } else {
        Replace(k, Lazy);
      }
    }

    /** The slot holds no frames afterwards, only `Lazy`. */
    method Promise(k: Key)
      requires Sound() && Complete() && k in feeds
      modifies `order, `pending, `pendingBytes
      ensures Sound() && Complete() && Waiting(k).Lazy? && forall j | j != k :: Kept(old(pending), pending, j)
    {
      PlacePromise(k);
      SlotsFaithful(old(pending), k);
      StaysComplete(k);
    }

    /** A request for a fresh base of one member: its slot becomes `Lazy` and is flushed like any other. */
    method OnResync(k: Key)
      requires Valid()
      modifies `sent, `unacked, `unackedBytes, `link, `order, `pending, `pendingBytes, `feeds, `stale, `unitSent
      ensures Valid() && old(feeds) <= feeds && MarkedByValue(old(stale))
      ensures k in old(feeds) ==> Promised(old(Now()), Now(), k)
      ensures WentBut(old(Now()), Now(), k)
      ensures k !in old(feeds) ==> link == old(link) && pending == old(pending)
    {
      if k !in feeds {
        return;
      }
      ghost var was := Now();
      Promise(k);
      ghost var mid := Now();
      ghost var n := Flush();
      PromisedThenWent(was, mid, Now(), k);
    }

    /** A stream waits for a promised reset, or it was sent. */
    ghost predicate Promised(was: Book<V, Op>, now: Book<V, Op>, k: Key)
      reads `values
    {
      && (k in now.feeds <==> k in was.feeds)
      && if k in now.pending then
           && View(now.pending, k).Lazy? && SentOn(now.link, k) == SentOn(was.link, k)
           && (k in now.stale <==> k in was.stale)
         else
           && SentOn(now.link, k) == SentOn(was.link, k) + [Renewed(k)] && (k in now.stale <==> Renewed(k).Failed?)
    }

    /** The streams other than `k` went on. */
    ghost predicate WentBut(was: Book<V, Op>, now: Book<V, Op>, k: Key)
      reads `values
    {
      forall j: Key | j.StateOf? && j != k :: Untouched(was, now, j) || Flushed(was, now, j) || Begun(was, now, j)
    }

    lemma PromisedThenWent(was: Book<V, Op>, mid: Book<V, Op>, now: Book<V, Op>, k: Key)
      requires Went(mid, now) && k.StateOf? && k in mid.pending && View(mid.pending, k).Lazy? && mid.link == was.link
      requires mid.feeds == was.feeds && mid.stale == was.stale
               && forall j | j != k :: Kept(was.pending, mid.pending, j)
      ensures Promised(was, now, k) && WentBut(was, now, k)
    {
      assert Untouched(mid, now, k) || Flushed(mid, now, k) || Begun(mid, now, k);
      forall j: Key | j.StateOf? && j != k
        ensures Untouched(was, now, j) || Flushed(was, now, j) || Begun(was, now, j)
      {
        assert Kept(was.pending, mid.pending, j);
        assert Untouched(mid, now, j) || Flushed(mid, now, j) || Begun(mid, now, j);
      }
    }

    /** Bytes of the `n` oldest unacknowledged frames are no longer counted. */
    method Acknowledge(n: nat)
      requires Counted() && n <= |unacked| && peerAcks == Some(true)
      modifies `acked, `unacked, `unackedBytes
      ensures Counted() && acked == old(acked) + n && unacked == old(unacked)[n..]
    {
      var i := 0;
      while i < n
        invariant unacked == old(unacked) && acked == old(acked)
        invariant 0 <= i <= n && unackedBytes == Sum(unacked[i..])
      {
        SumFrom(unacked, i);
        unackedBytes := unackedBytes - unacked[i];
        i := i + 1;
      }
      unacked := unacked[n..];
      acked := acked + n;
    }

    /**
     * An acknowledgement up to frame `n`. It is a violation from a peer that announced none, or if `n` is below the
     * last one or above what was sent.
     */
    method OnAck(n: int) returns (violation: bool, ghost flushed: nat)
      requires Valid()
      modifies `acked, `sent, `unacked, `unackedBytes, `link, `order, `pending, `pendingBytes, `feeds, `stale, `unitSent
      ensures Valid() && (violation <==> old(peerAcks != Some(true) || n < acked || n > sent))
      ensures violation ==> acked == old(acked) && link == old(link) && pending == old(pending)
      ensures flushed <= |old(order)| && order == Younger(old(order), flushed)
      ensures !violation ==> acked == n && MarkedByValue(old(stale)) && Went(old(Now()), Now())
      ensures window == 0 ==> Now() == old(Now()) && sent == old(sent)
    {
      violation := peerAcks != Some(true) || n < acked || n > sent;
      flushed := 0;
      NoneYounger(order);
      if !violation {
        Acknowledge(n - acked);
        flushed := Flush();
      }
    }

    /** With a window of 0, no acknowledgements send what waits. */
    method TakeAcks(acks: seq<int>)
      requires Valid() && window == 0
      modifies `acked, `sent, `unacked, `unackedBytes, `link, `order, `pending, `pendingBytes, `feeds, `stale, `unitSent
      ensures Valid() && Now() == old(Now())
      ensures acks == [old(sent)] && peerAcks == Some(true) ==> acked == sent
    {
      for i := 0 to |acks|
        invariant Valid() && Now() == old(Now())
        invariant i == 0 ==> acked == old(acked) && sent == old(sent)
        invariant i == 1 && acks == [old(sent)] && peerAcks == Some(true) ==> acked == sent
      {
        var _, _ := OnAck(acks[i]);
      }
    }

    /** With a window of 0, no acknowledgements, not even of all frames, send the ops of a change. */
    method ChangeInVain(k: Key, ops: seq<Op>, acks: seq<int>)
      requires Valid() && window == 0 && peerAcks == Some(true) && k in feeds
      modifies this
      ensures Valid() && peerAcks == Some(true) && acked == sent && k in feeds && k in pending
              && Told(k) == old(Told(k))
      ensures values == old(values)[k := ApplyAll(apply, old(values[k]), ops)]
    {
      ghost var was := Look();
      ghost var fate := Change(k, ops);
      SlotAfter(was, Look(), k, ops, fate);
      AcksInVain(acks);
    }

    method AcksInVain(acks: seq<int>)
      requires Valid() && window == 0 && peerAcks == Some(true)
      modifies `acked, `sent, `unacked, `unackedBytes, `link, `order, `pending, `pendingBytes, `feeds, `stale, `unitSent
      ensures Valid() && Now() == old(Now()) && acked == sent
    {
      TakeAcks(acks);
      TakeAcks([sent]);
    }

    lemma SlotAfter(was: Glance<V, Op>, now: Glance<V, Op>, k: Key, ops: seq<Op>, fate: Fate)
      requires Steps(was, now, k, Views.Changed(ops, fate)) && k in was.book.feeds && !fate.Direct?
      ensures k in now.book.pending && SentOn(now.book.link, k) == SentOn(was.book.link, k)
    {
    }

    /** The first member of the first hold is streamed. */
    method StreamFirst(value: V)
      requires Valid() && served == {0} && wanted == {0} && again == {} && values == map[] && feeds == {}
      requires link == [Control] && pending == map[]
      modifies `values, `shapes, `sent, `unacked, `unackedBytes, `link, `order, `pending, `pendingBytes, `feeds, `stale,
        `unitSent
      ensures Valid() && StateOf(0, 0) in feeds && values == map[StateOf(0, 0) := value]
      ensures Told(StateOf(0, 0)) == [Snapshot(value, true)]
    {
      ghost var was := Now();
      OneJoins(value);
      SetShape(0, [0], map[0 := value]);
      FirstFrame(was);
    }

    lemma OneJoins(value: V)
      requires values == map[] && feeds == {}
      ensures Joined(0, map[0 := value]) == map[StateOf(0, 0) := value]
    {
    }

    lemma FirstFrame(was: Book<V, Op>)
      requires Moved(was, Now()) && AllAttached(0) && 0 in wanted && StateOf(0, 0) in values
      requires 0 in shapes && shapes[0] == [0]
      requires was.feeds == {} && was.link == [Control] && was.pending == map[]
      ensures StateOf(0, 0) in feeds && Told(StateOf(0, 0)) == [Snapshot(values[StateOf(0, 0)], true)]
    {
      var k := StateOf(0, 0);
      assert !Lacking(k) && Due(k);
      assert Untouched(was, Now(), k) || Flushed(was, Now(), k) || Begun(was, Now(), k) || Stopped(was, Now(), k);
      assert SentOn([Control][..0], k) == SentOn<V, Op>([], k);
    }

    /** Settles `peerAcks`, once. Of a peer without acknowledgements nothing is counted. */
    method OnHello(acks: bool)
      requires Valid()
      modifies `peerAcks, `unacked, `unackedBytes
      ensures Valid() && peerAcks == if old(peerAcks).None? then Some(acks) else old(peerAcks)
      ensures old(peerAcks).None? && acks ==> unacked == old(unacked)
    {
      if peerAcks.None? {
        peerAcks := Some(acks);
        if !acks {
          unacked := [];
          unackedBytes := 0;
        }
      }
    }

    // ─── shapes, wanted state, and the end of a hold ───

    /** Removes a stream's slot, and its bytes from the cap. */
    method EndStream(k: Key)
      requires Sound() && k in feeds
      modifies `order, `pending, `pendingBytes, `feeds
      ensures Sound() && feeds == old(feeds) - {k} && (order != [] ==> old(order) != [])
      ensures k !in pending && forall j | j != k :: Kept(old(pending), pending, j)
    {
      if k in pending {
        var e := Take(k);
      }
      feeds := feeds - {k};
    }

    /** The streams in `gone` lost their slots, all others kept them. */
    ghost predicate Ended(was: map<Key, Entry<V, Op>>, now: map<Key, Entry<V, Op>>, gone: set<Key>) {
      forall j :: if j in gone then j !in now else Kept(was, now, j)
    }

    lemma EndedMore(was: map<Key, Entry<V, Op>>, mid: map<Key, Entry<V, Op>>, gone: set<Key>, k: Key)
      requires Ended(was, mid, gone) && k !in pending && forall j | j != k :: Kept(mid, pending, j)
      ensures Ended(was, pending, gone + {k})
    {
      forall j
        ensures if j in gone + {k} then j !in pending else Kept(was, pending, j)
      {
        if j != k {
          assert Kept(mid, pending, j);
          assert if j in gone then j !in mid else Kept(was, mid, j);
        }
      }
    }

    /** The streams ended so far: those `leaving` that are not `left`. */
    ghost predicate EndedSoFar(was: map<Key, Entry<V, Op>>, wasFeeds: set<Key>, leaving: set<Key>, left: set<Key>)
      reads `pending, `feeds
    {
      left <= leaving && left <= feeds && feeds == wasFeeds - (leaving - left) && Ended(was, pending, leaving - left)
    }

    /** One more stream ends. */
    method EndNext(k: Key, ghost was: map<Key, Entry<V, Op>>, ghost wasFeeds: set<Key>, leaving: set<Key>,
                   left: set<Key>)
      requires Sound() && k in left && leaving <= wasFeeds && EndedSoFar(was, wasFeeds, leaving, left)
      modifies `order, `pending, `pendingBytes, `feeds
      ensures Sound() && EndedSoFar(was, wasFeeds, leaving, left - {k}) && (order != [] ==> old(order) != [])
    {
      ghost var mid := pending;
      EndStream(k);
      EndedMore(was, mid, leaving - left, k);
      assert leaving - (left - {k}) == (leaving - left) + {k};
    }

    /** Ends streams. */
    method EndStreams(leaving: set<Key>)
      requires Sound() && leaving <= feeds
      modifies `order, `pending, `pendingBytes, `feeds
      ensures Sound() && feeds == old(feeds) - leaving && (order != [] ==> old(order) != [])
      ensures Ended(old(pending), pending, leaving)
    {
      var left := leaving;
      assert leaving - left == {};
      while left != {}
        invariant Sound() && EndedSoFar(old(pending), old(feeds), leaving, left) && (order != [] ==> old(order) != [])
      {
        var k :| k in left;
        EndNext(k, old(pending), old(feeds), leaving, left);
        left := left - {k};
      }
      assert leaving - left == leaving;
    }

    /** The members a hold's consumer has streams of. */
    function Fed(hold: nat): set<Key>
      reads `feeds
    {
      set k | k in feeds && k.hold == hold
    }

    /** The streams of a hold whose members left its shape, or whose state is not wanted. */
    function Leaving(hold: nat): set<Key>
      reads `feeds, `shapes, `wanted
      requires hold in shapes
    {
      set k | k in feeds && k.hold == hold && !Due(k)
    }

    /** A unit goes out: at once if it is the hold's first (and not a re-hold's), past the window. */
    method Announce(hold: nat)
      requires Sound() && Waits() && CompleteBut(hold) && AllDue(hold) && hold in shapes
      modifies `sent, `unacked, `unackedBytes, `link, `order, `pending, `pendingBytes, `feeds, `stale, `unitSent
      ensures Valid() && old(feeds) <= feeds && MarkedByValue(old(stale))
      ensures Went(old(Now()), Now())
      ensures old(Fed(hold) == {} && !(hold in again && hold !in unitSent)) ==>
                UnitOf(hold) !in pending && AllAttached(hold)
    {
      var urgent := Fed(hold) == {} && !(hold in again && hold !in unitSent);
      if urgent {
        SendUrgent(hold);
      } else {
        QueueUnit(hold);
      }
    }

    ghost predicate AllAttached(hold: nat)
      reads `shapes, `wanted, `feeds, `values
    {
      forall k: Key | k.hold == hold :: !Lacking(k)
    }

    lemma GrewWent(was: Book<V, Op>, now: Book<V, Op>)
      requires Grew(was, now)
      ensures Went(was, now)
    {
      forall k: Key | k.StateOf?
        ensures Untouched(was, now, k) || Flushed(was, now, k) || Begun(was, now, k)
      {
        assert Untouched(was, now, k) || Begun(was, now, k);
      }
    }

    method SendUrgent(hold: nat)
      requires Sound() && Waits() && CompleteBut(hold) && AllDue(hold) && hold in shapes
      modifies `sent, `unacked, `unackedBytes, `link, `order, `pending, `pendingBytes, `feeds, `stale, `unitSent
      ensures Valid() && old(feeds) <= feeds && MarkedByValue(old(stale))
      ensures Went(old(Now()), Now())
      ensures UnitOf(hold) !in pending && AllAttached(hold)
    {
      ghost var was := Now();
      FlushUnit(hold);
      GrewWent(was, Now());
      KeptWithout(was.pending, UnitOf(hold));
      StaysComplete(UnitOf(hold));
    }

    /** Streams of one hold end: units wait for the other holds as before. */
    method EndSome(hold: nat, leaving: set<Key>)
      requires Sound() && Waits() && CompleteBut(hold) && leaving <= feeds && forall k | k in leaving :: k.hold == hold
      requires forall k | k in feeds && k.hold == hold && k !in leaving :: Due(k)
      modifies `order, `pending, `pendingBytes, `feeds
      ensures Sound() && Waits() && CompleteBut(hold) && AllDue(hold) && feeds == old(feeds) - leaving
      ensures Ended(old(pending), pending, leaving)
    {
      ghost var was := pending;
      EndStreams(leaving);
      forall k | Lacking(k) && k.hold != hold
        ensures UnitOf(k.hold) in pending
      {
        assert old(Lacking(k)) && Kept(was, pending, UnitOf(k.hold));
      }
    }

    /** Removes the slot of a hold's unit. */
    method EndUnit(hold: nat)
      requires Sound() && Waits() && CompleteBut(hold) && AllDue(hold) && !Wants(hold)
      modifies `order, `pending, `pendingBytes
      ensures Valid() && pending == old(pending) - {UnitOf(hold)}
    {
      Unqueue(hold);
      forall k | Lacking(k)
        ensures UnitOf(k.hold) in pending
      {
        assert k.hold != hold;
      }
    }

    /**
     * Brings the streams in line with the hold's members: streams of other members are gone afterwards, and a unit that
     * starts the missing ones is on the link or waits.
     */
    method ShapeChanged(hold: nat)
      requires Sound() && Waits() && CompleteBut(hold) && hold in shapes
      modifies `sent, `unacked, `unackedBytes, `link, `order, `pending, `pendingBytes, `feeds, `stale, `unitSent
      ensures Valid() && old(feeds) - old(Leaving(hold)) <= feeds && MarkedByValue(old(stale))
      ensures (forall k | k in old(feeds) && k.hold == hold :: !Due(k))
              && !(hold in again && hold !in old(unitSent)) ==>
                UnitOf(hold) !in pending && AllAttached(hold)
      ensures Moved(old(Now()), Now())
    {
      ghost var was := Now();
      ghost var leaving := EndLeaving(hold);
      ghost var mid := Now();
      Announce(hold);
      PartsThenWent(was, mid, Now(), leaving);
    }

    /** The streams of members that are not due end. */
    method EndLeaving(hold: nat) returns (ghost leaving: set<Key>)
      requires Sound() && Waits() && CompleteBut(hold) && hold in shapes
      modifies `order, `pending, `pendingBytes, `feeds
      ensures Sound() && Waits() && CompleteBut(hold) && AllDue(hold) && leaving == old(Leaving(hold))
      ensures feeds == old(feeds) - leaving && Parted(old(Now()), Now(), leaving) && forall k | k in leaving :: !Due(k)
    {
      ghost var was := Now();
      var gone := Leaving(hold);
      leaving := gone;
      EndSome(hold, gone);
      EndedParts(was, gone);
    }

    /** A stream ended, with what waited for it. */
    ghost predicate Stopped(was: Book<V, Op>, now: Book<V, Op>, k: Key) {
      && k in was.feeds && k !in now.feeds && k !in now.pending && SentOn(now.link, k) == SentOn(was.link, k)
      && (k in now.stale <==> k in was.stale)
    }

    /** The streams in `gone` ended. */
    ghost predicate Parted(was: Book<V, Op>, now: Book<V, Op>, gone: set<Key>) {
      forall k: Key | k.StateOf? :: if k in gone then Stopped(was, now, k) else Untouched(was, now, k)
    }

    /** Streams ended, started or went on. */
    ghost predicate Moved(was: Book<V, Op>, now: Book<V, Op>)
      reads `values
    {
      forall k: Key | k.StateOf? ::
        Untouched(was, now, k) || Flushed(was, now, k) || Begun(was, now, k) || Stopped(was, now, k)
    }

    lemma EndedParts(was: Book<V, Op>, gone: set<Key>)
      requires Ended(was.pending, pending, gone) && feeds == was.feeds - gone && link == was.link && stale == was.stale
      requires forall k | k in gone && k.StateOf? :: k in was.feeds
      ensures Parted(was, Now(), gone)
    {
      forall k: Key | k.StateOf?
        ensures if k in gone then Stopped(was, Now(), k) else Untouched(was, Now(), k)
      {
        assert if k in gone then k !in pending else Kept(was.pending, pending, k);
      }
    }

    lemma PartsThenWent(was: Book<V, Op>, mid: Book<V, Op>, now: Book<V, Op>, gone: set<Key>)
      requires Parted(was, mid, gone) && Went(mid, now) && forall k | k in gone :: k !in now.feeds
      ensures Moved(was, now)
    {
      forall k: Key | k.StateOf?
        ensures Untouched(was, now, k) || Flushed(was, now, k) || Begun(was, now, k) || Stopped(was, now, k)
      {
        assert if k in gone then Stopped(was, mid, k) else Untouched(was, mid, k);
        assert Untouched(mid, now, k) || Flushed(mid, now, k) || Begun(mid, now, k);
      }
    }

    lemma PartsMoved(was: Book<V, Op>, now: Book<V, Op>, gone: set<Key>)
      requires Parted(was, now, gone)
      ensures Moved(was, now)
    {
      forall k: Key | k.StateOf?
        ensures Untouched(was, now, k) || Flushed(was, now, k) || Begun(was, now, k) || Stopped(was, now, k)
      {
        assert if k in gone then Stopped(was, now, k) else Untouched(was, now, k);
      }
    }

    /** A peer holds a local object: one id is for one hold, be that local or relayed. */
    method Serve(hold: nat, wants: bool, isAgain: bool) returns (violation: bool)
      requires Valid()
      modifies `served, `wanted, `again, `unitSent
      ensures Valid() && (violation <==> old(hold in served) || relayed(hold))
      ensures violation ==>
                served == old(served) && wanted == old(wanted) && again == old(again) && unitSent == old(unitSent)
      ensures !violation ==> served == old(served) + {hold} && hold !in shapes && hold !in unitSent
                             && wanted == old(wanted) - {hold} + (if wants then {hold} else {})
                             && again == old(again) - {hold} + (if isAgain then {hold} else {})
    {
      violation := hold in served || relayed(hold);
      if !violation {
        ServeNew(hold, wants, isAgain);
      }
    }

    method ServeNew(hold: nat, wants: bool, isAgain: bool)
      requires Valid() && !relayed(hold) && hold !in served
      modifies `served, `wanted, `again, `unitSent
      ensures Valid() && served == old(served) + {hold} && hold !in shapes && hold !in unitSent
      ensures wanted == old(wanted) - {hold} + (if wants then {hold} else {})
      ensures again == old(again) - {hold} + (if isAgain then {hold} else {})
    {
      AddHold(hold, isAgain);
      wanted := wanted - {hold} + if wants then {hold} else {};
      SameDue(hold);
    }

    method AddHold(hold: nat, isAgain: bool)
      requires Valid() && !relayed(hold) && hold !in served
      modifies `served, `again, `unitSent
      ensures Valid() && served == old(served) + {hold} && hold !in shapes && hold !in unitSent
      ensures again == old(again) - {hold} + (if isAgain then {hold} else {})
    {
      served, unitSent := served + {hold}, unitSent - {hold};
      again := again - {hold} + if isAgain then {hold} else {};
    }

    /** Whether the state of a hold is wanted does not matter while the hold has no shape. */
    twostate lemma SameDue(hold: nat)
      requires hold !in shapes && shapes == old(shapes) && values == old(values) && feeds == old(feeds)
      requires pending == old(pending) && forall h | h != hold :: h in wanted <==> h in old(wanted)
      ensures old(Complete()) ==> Complete()
    {
      assert forall k :: Due(k) <==> old(Due(k));
      assert forall k :: Lacking(k) <==> old(Lacking(k));
    }

    /** The sources of members that come, those that are streamed aside. */
    function Joined(hold: nat, sources: map<nat, V>): map<Key, V>
      reads `values, `feeds
    {
      values + map m | m in sources && StateOf(hold, m) !in feeds :: StateOf(hold, m) := sources[m]
    }

    /** The object of a hold has a (new) shape: its state members, of which those with a source can be streamed. */
    method SetShape(hold: nat, members: seq<nat>, sources: map<nat, V>)
      requires Valid() && hold in served
      modifies `values, `shapes, `sent, `unacked, `unackedBytes, `link, `order, `pending, `pendingBytes, `feeds, `stale,
        `unitSent
      ensures Valid() && shapes == old(shapes)[hold := members] && values == old(Joined(hold, sources))
      ensures Moved(old(Now()), Now()) && SourcesKept(old(values), values, old(feeds))
      ensures forall k | k in old(feeds) && k.hold != hold :: k in feeds
      ensures (forall k | k in old(feeds) :: k.hold != hold) && !(hold in again && hold !in old(unitSent)) ==>
                UnitOf(hold) !in pending && AllAttached(hold)
    {
      Reshape(hold, members, sources);
      ShapeChanged(hold);
    }

    /** Members go on with the sources that are followed. */
    ghost predicate SourcesKept(was: map<Key, V>, now: map<Key, V>, fed: set<Key>) {
      forall k | k in was :: k in now && (k in fed ==> now[k] == was[k])
    }

    /** So they are quiet, if nothing is asked of them. */
    lemma KeptIsQuiet(was: Glance<V, Op>, now: Glance<V, Op>)
      requires now.urgent == was.urgent && now.room.asked == was.room.asked && now.room.awaiting == was.room.awaiting
      requires SourcesKept(was.values, now.values, was.book.feeds)
      ensures Quiet(was, now)
    {
    }

    method Reshape(hold: nat, members: seq<nat>, sources: map<nat, V>)
      requires Valid() && hold in served
      modifies `values, `shapes
      ensures Sound() && Waits() && CompleteBut(hold) && SourcesKept(old(values), values, feeds)
      ensures shapes == old(shapes)[hold := members] && values == old(Joined(hold, sources))
    {
      JoinSources(hold, sources);
      SetMembers(hold, members);
    }

    /** Sources come of members without streams: only their hold can lack more. */
    method JoinSources(hold: nat, sources: map<nat, V>)
      requires Valid()
      modifies `values
      ensures Sound() && Waits() && CompleteBut(hold) && values == old(Joined(hold, sources))
      ensures SourcesKept(old(values), values, feeds)
    {
      values := Joined(hold, sources);
      assert forall k | k in feeds :: k in values && values[k] == old(values[k]);
      forall k | Lacking(k) && k.hold != hold
        ensures UnitOf(k.hold) in pending
      {
        assert old(Lacking(k));
      }
    }

    method SetMembers(hold: nat, members: seq<nat>)
      requires Sound() && Waits() && CompleteBut(hold) && hold in served
      modifies `shapes
      ensures Sound() && Waits() && CompleteBut(hold) && shapes == old(shapes)[hold := members]
    {
      shapes := shapes[hold := members];
      forall k | Lacking(k) && k.hold != hold
        ensures UnitOf(k.hold) in pending
      {
        assert old(Lacking(k));
      }
    }

    /** Sets `wanted` for a hold: without it the hold has no stream and no unit; with it, and a shape, a unit is due. */
    method OnWantState(hold: nat, want: bool)
      requires Valid()
      modifies `sent, `unacked, `unackedBytes, `link, `order, `pending, `pendingBytes, `feeds, `stale, `unitSent,
        `wanted
      ensures Valid()
      ensures wanted == if hold !in served then old(wanted)
                        else if want then old(wanted) + {hold} else old(wanted) - {hold}
      ensures !want && hold in old(wanted) && hold in served ==>
                Fed(hold) == {} && UnitOf(hold) !in pending && link == old(link)
      ensures hold !in served || want == (hold in old(wanted)) ==>
                link == old(link) && pending == old(pending) && feeds == old(feeds)
      ensures Moved(old(Now()), Now())
    {
      ghost var was, fed := Now(), Fed(hold);
      StillMoved(was);
      if hold in served && (hold in wanted) != want {
        SetWanted(hold, want);
        if !want {
          EndHold(hold);
          HoldEnded(was, hold, fed);
        } else if hold in shapes {
          ShapeChanged(hold);
        } else {
          ShapelessComplete(hold);
        }
      }
    }

    method SetWanted(hold: nat, want: bool)
      requires Valid()
      modifies `wanted
      ensures Sound() && Waits() && CompleteBut(hold)
      ensures wanted == if want then old(wanted) + {hold} else old(wanted) - {hold}
    {
      wanted := if want then wanted + {hold} else wanted - {hold};
      assert forall k: Key | k.hold != hold :: Due(k) <==> old(Due(k));
      forall k | Lacking(k) && k.hold != hold
        ensures UnitOf(k.hold) in pending
      {
        assert old(Lacking(k));
      }
    }

    lemma StillMoved(was: Book<V, Op>)
      ensures Moved(was, was)
    {
      forall k: Key | k.StateOf?
        ensures Untouched(was, was, k)
      {
      }
    }

    lemma ShapelessComplete(hold: nat)
      requires Sound() && CompleteBut(hold) && hold !in shapes
      requires forall k | k in feeds && k.hold == hold :: hold in shapes
      ensures Complete()
    {
    }

    /** Forgets the streams of a hold, and what waits for it. */
    method EndHold(hold: nat)
      requires Sound() && Waits() && CompleteBut(hold) && !Wants(hold)
      modifies `order, `pending, `pendingBytes, `feeds
      ensures Valid() && feeds == old(feeds) - old(Fed(hold)) && Fed(hold) == {} && UnitOf(hold) !in pending
      ensures Ended(old(pending), pending, old(Fed(hold)) + {UnitOf(hold)})
    {
      ghost var was := pending;
      var leaving := Fed(hold);
      EndSome(hold, leaving);
      ghost var mid := pending;
      EndUnit(hold);
      EndedMore(was, mid, leaving, UnitOf(hold));
    }

    /** What the end of a hold's streams does to them. */
    lemma HoldEnded(was: Book<V, Op>, hold: nat, fed: set<Key>)
      requires Ended(was.pending, pending, fed + {UnitOf(hold)}) && feeds == was.feeds - fed
      requires link == was.link && stale == was.stale && fed <= was.feeds && forall k | k in was.feeds :: k.StateOf?
      ensures Moved(was, Now())
    {
      assert feeds == was.feeds - (fed + {UnitOf(hold)});
      EndedParts(was, fed + {UnitOf(hold)});
      PartsMoved(was, Now(), fed + {UnitOf(hold)});
    }

    /** A served hold ends: its streams end, and nothing waits for it any more. */
    method DropServed(hold: nat)
      requires Valid() && hold in served
      modifies `order, `pending, `pendingBytes, `feeds, `served, `shapes
      ensures Valid() && served == old(served) - {hold} && shapes == old(shapes) - {hold}
      ensures Fed(hold) == {} && feeds == old(feeds) - old(Fed(hold))
      ensures (forall k | k in pending :: k.hold != hold) && Moved(old(Now()), Now())
    {
      ghost var was, fed := Now(), Fed(hold);
      served, shapes := served - {hold}, shapes - {hold};
      EndHold(hold);
      HoldEnded(was, hold, fed);
    }

    // ─── relayed streams ───

    /** A relayed frame, and what became of it. */
    ghost predicate PassesOn(was: Glance<V, Op>, now: Glance<V, Op>, k: Key, p: Payload<V, Op>, fate: Fate) {
      Allowed(Passed(was, k).waiting, p, fate) && Passed(now, k) == Views.RelaySend(Passed(was, k), p, fate)
    }

    lemma HandledPasses(was: Glance<V, Op>, fate: Fate, k: Key, p: Payload<V, Op>)
      requires Handled(fate, k, p, was.book.pending, was.book.link) && AskedFor(fate, k, was.room, Space())
      requires relayed(k.hold) && urgent == was.urgent
      ensures PassesOn(was, Look(), k, p, fate)
    {
      HandledOthers(was.book.link, fate, k, p, was.book.pending);
    }

    method SendPassed(k: Key, p: Payload<V, Op>) returns (ghost fate: Fate)
      requires Counted() && Queued() && Waits() && Streamed() && k.StateOf? && relayed(k.hold)
      modifies `sent, `unacked, `unackedBytes, `link, `order, `pending, `pendingBytes, `asked, `awaiting
      ensures Counted() && Queued() && Waits() && Handled(fate, k, p, old(pending), old(link))
      ensures PassesOn(old(Look()), Look(), k, p, fate) && Aside(old(Look()), Look(), k)
    {
      ghost var was := Look();
      fate := SendState(k, p);
      HandledPasses(was, fate, k, p);
      HandledAside(was, fate, k, p);
    }

    /** A relay forwards a stream's frame. */
    method Forward(k: Key, p: Payload<V, Op>) returns (ghost fate: Fate)
      requires Valid() && k.StateOf? && relayed(k.hold)
      modifies `sent, `unacked, `unackedBytes, `link, `order, `pending, `pendingBytes, `asked, `awaiting
      ensures Valid() && PassesOn(old(Look()), Look(), k, p, fate) && Aside(old(Look()), Look(), k)
    {
      ghost var was, wasLink := pending, link;
      fate := SendPassed(k, p);
      AfterFrame(fate, k, p, was, wasLink);
      FrameSupplies(k);
    }

    /** A frame that does not wait, and is of no stream that is followed here. */
    method SendNow(frame: Frame<V, Op>)
      requires Valid() && (frame.State? ==> frame.stream !in feeds)
      modifies `sent, `unacked, `unackedBytes, `link
      ensures Valid() && link == old(link) + [frame]
      ensures forall k :: Told(k) == if frame.State? && frame.stream == k then old(Told(k)) + [frame.payload]
                                     else old(Told(k))
    {
      Send(frame);
    }

    /** An urgent snapshot goes out past the window. */
    method SendPast(k: Key, p: Payload<V, Op>)
      requires Valid() && k.StateOf? && relayed(k.hold)
      modifies `sent, `unacked, `unackedBytes, `link, `urgent
      ensures Valid() && Aside(old(Look()), Look(), k)
      ensures Passed(Look(), k) == old(Passed(Look(), k)).(urgent := false, sent := old(Told(k)) + [p])
    {
      ghost var was := Look();
      urgent := urgent - {k};
      SendNow(State(k, p));
      UrgentAside(was, k);
    }

    lemma UrgentAside(was: Glance<V, Op>, k: Key)
      requires values == was.values && pending == was.book.pending && feeds == was.book.feeds && stale == was.book.stale
      requires Space() == was.room && urgent == was.urgent - {k}
      requires forall j | j != k :: Told(j) == SentOn(was.book.link, j)
      ensures Aside(was, Look(), k)
    {
      forall j: Key | j.StateOf? && j != k
        ensures AsideOne(was, Look(), j)
      {
      }
    }

    /**
     * A shape from downstream goes on at once. The snapshots of a hold's first unit are urgent, unless it is held
     * again.
     */
    method RelayShape(hold: nat, members: seq<nat>, isAgain: bool)
      requires Valid() && relayed(hold)
      modifies `sent, `unacked, `unackedBytes, `link, `urgent, `shaped
      ensures Valid() && shaped == old(shaped) + {hold} && forall k :: Told(k) == old(Told(k))
      ensures urgent == old(urgent) + if hold in old(shaped) || isAgain then {} else MembersOf(hold, members)
    {
      if hold !in shaped && !isAgain {
        urgent := urgent + MembersOf(hold, members);
      }
      shaped := shaped + {hold};
      SendNow(Shape(hold, seq(|members|, i requires 0 <= i < |members| => StateOf(hold, members[i]))));
    }

    function MembersOf(hold: nat, members: seq<nat>): set<Key> {
      set m | m in members :: StateOf(hold, m)
    }

    /**
     * One frame of a relayed stream: its view does `Taken`, whether that ignores the frame, sends it at once or
     * forwards it.
     */
    method RelayState(k: Key, p: Payload<V, Op>) returns (ghost fate: Fate)
      requires Valid() && k.StateOf? && relayed(k.hold)
      modifies `sent, `unacked, `unackedBytes, `link, `order, `pending, `pendingBytes, `asked, `awaiting, `urgent
      ensures Valid() && RelaySteps(old(Look()), Look(), k, Views.Taken(p, fate)) && Aside(old(Look()), Look(), k)
    {
      ghost var was := Look();
      fate := Direct;
      if k in awaiting && p.Ops? {
        Idle(was, k);
      } else {
        awaiting := awaiting - {k};
        ghost var mid := Look();
        fate := PassOrForward(k, p);
        AsideOwn(was, mid, Look(), k);
      }
    }

    method PassOrForward(k: Key, p: Payload<V, Op>) returns (ghost fate: Fate)
      requires Valid() && k.StateOf? && relayed(k.hold) && k !in awaiting
      modifies `sent, `unacked, `unackedBytes, `link, `order, `pending, `pendingBytes, `asked, `awaiting, `urgent
      ensures Valid() && RelaySteps(old(Look()), Look(), k, Views.Taken(p, fate)) && Aside(old(Look()), Look(), k)
    {
      fate := Direct;
      if k in urgent {
        SendPast(k, p);
      } else {
        fate := Forward(k, p);
      }
    }

    /** Whether a stream awaits a reset does not matter to the others. */
    lemma AsideOwn(was: Glance<V, Op>, mid: Glance<V, Op>, now: Glance<V, Op>, k: Key)
      requires Aside(mid, now, k) && mid == was.(room := was.room.(awaiting := mid.room.awaiting))
      requires forall j | j != k :: j in mid.room.awaiting <==> j in was.room.awaiting
      ensures Aside(was, now, k)
    {
      forall j: Key | j.StateOf? && j != k
        ensures AsideOne(was, now, j)
      {
        assert AsideOne(mid, now, j);
      }
    }

    /** Whom a stream is forwarded to asks for a reset of it. */
    method RelayResync(k: Key)
      requires Valid() && k.StateOf? && relayed(k.hold)
      modifies `asked, `awaiting
      ensures Valid() && RelaySteps(old(Look()), Look(), k, Views.AskedAgain)
      ensures asked == old(asked) + multiset{k} && awaiting == old(awaiting) + {k}
    {
      asked, awaiting := asked + multiset{k}, awaiting + {k};
    }

    /** The origin no longer wants a relayed hold's state: what waits of it is forgotten, and no reset is awaited. */
    method RelayStop(hold: nat)
      requires Valid() && relayed(hold)
      modifies `order, `pending, `pendingBytes, `awaiting
      ensures Valid() && awaiting == old(awaiting) - PassedOf(hold, old(awaiting))
      ensures Ended(old(pending), pending, PassedOf(hold, old(pending.Keys)))
    {
      awaiting := awaiting - PassedOf(hold, awaiting);
      Forget(PassedOf(hold, pending.Keys));
    }

    function PassedOf(hold: nat, ks: set<Key>): set<Key> {
      set k | k in ks && k.hold == hold
    }

    /** Slots of relayed holds go. */
    method Forget(leaving: set<Key>)
      requires Valid() && leaving <= pending.Keys && forall k | k in leaving :: relayed(k.hold)
      modifies `order, `pending, `pendingBytes
      ensures Valid() && Ended(old(pending), pending, leaving)
    {
      var left := leaving;
      assert leaving - left == {};
      while left != {}
        invariant Valid() && left <= leaving && left <= pending.Keys && Ended(old(pending), pending, leaving - left)
      {
        var k :| k in left;
        ForgetNext(k, old(pending), leaving, left);
        left := left - {k};
      }
      assert leaving - left == leaving;
    }

    method ForgetNext(k: Key, ghost was: map<Key, Entry<V, Op>>, leaving: set<Key>, left: set<Key>)
      requires Valid() && k in left && left <= leaving && left <= pending.Keys && relayed(k.hold)
      requires Ended(was, pending, leaving - left)
      modifies `order, `pending, `pendingBytes
      ensures Valid() && left - {k} <= pending.Keys && Ended(was, pending, leaving - (left - {k}))
    {
      ghost var mid := pending;
      ForgetPassed(k);
      EndedMore(was, mid, leaving - left, k);
      assert leaving - (left - {k}) == (leaving - left) + {k};
    }

    method ForgetPassed(k: Key)
      requires Valid() && k in pending && relayed(k.hold)
      modifies `order, `pending, `pendingBytes
      ensures Valid() && pending == old(pending) - {k}
    {
      assert k in order;
      WithoutMembers(order, k);
      var _ := Take(k);
      assert forall j | Lacking(j) :: UnitOf(j.hold) != k;
    }

    // ─── every operation moves a stream by steps of its view ───

    /** Nothing was asked of a stream, and its source is the same if it is followed. */
    ghost predicate Quietly(was: Glance<V, Op>, now: Glance<V, Op>, k: Key) {
      && (k in now.urgent <==> k in was.urgent) && Unasked(was.room, now.room, k)
      && (k in was.values ==> k in now.values && (k in was.book.feeds ==> now.values[k] == was.values[k]))
    }

    ghost predicate Quiet(was: Glance<V, Op>, now: Glance<V, Op>) {
      forall k: Key | k.StateOf? :: Quietly(was, now, k)
    }

    /** A source that joined anew is a renewal nobody follows yet. */
    lemma JoinedSteps(was: Glance<V, Op>, now: Glance<V, Op>, k: Key)
      requires Quietly(was, now, k) && k in was.values && now.values[k] != was.values[k]
      ensures Steps(was, WithSource(was, k, now.values[k]), k, Views.Renewed(now.values[k], Direct))
    {
    }

    /**
     * A local stream that started, ended or went on did a step, or nothing, after its source joined if it did. One that
     * was not streamed can only start.
     */
    lemma MovedSteps(was: Glance<V, Op>, now: Glance<V, Op>, k: Key)
      requires Moved(was.book, now.book) && Quietly(was, now, k) && values == now.values && k.StateOf?
               && k in now.values
      ensures var mid := WithSource(was, k, now.values[k]);
              && (k in was.values ==>
                    || Provided(mid, k) == Provided(was, k)
                    || (k !in was.book.feeds && Steps(was, mid, k, Views.Renewed(now.values[k], Direct))))
              && (|| Provided(now, k) == Provided(mid, k) || Steps(mid, now, k, Views.Attached)
                  || Steps(mid, now, k, Views.Flushed) || Steps(mid, now, k, Views.Detached))
              && (k !in was.book.feeds && k !in was.book.pending ==>
                    Provided(now, k) == Provided(mid, k) || Steps(mid, now, k, Views.Attached))
    {
      if k in was.values && now.values[k] != was.values[k] {
        JoinedSteps(was, now, k);
      }
      assert Untouched(was.book, now.book, k) || Flushed(was.book, now.book, k) || Begun(was.book, now.book, k)
             || Stopped(was.book, now.book, k);
    }

    /** A relayed stream that went on was left alone, or what waited for it was sent. */
    lemma MovedRelaySteps(was: Glance<V, Op>, now: Glance<V, Op>, k: Key)
      requires Moved(was.book, now.book) && Quietly(was, now, k) && values == now.values && k.StateOf?
               && relayed(k.hold)
      requires !View(was.book.pending, k).Lazy? && k !in was.book.feeds && k !in now.book.feeds
      ensures Passed(now, k) == Passed(was, k) || RelaySteps(was, now, k, Views.RelayFlushed)
    {
      assert Untouched(was.book, now.book, k) || Flushed(was.book, now.book, k) || Begun(was.book, now.book, k)
             || Stopped(was.book, now.book, k);
    }

    /** A stream asked for again promises a reset, and may send it at once. */
    lemma PromisedSteps(was: Glance<V, Op>, now: Glance<V, Op>, k: Key)
      requires Promised(was.book, now.book, k) && Quietly(was, now, k) && values == now.values && k.StateOf?
      requires k in was.values && k in was.book.feeds
      ensures var mid := Views.FeedNext(Terms(), Provided(was, k), Views.Promised);
              Provided(now, k) == mid || Provided(now, k) == Views.FeedNext(Terms(), mid, Views.Flushed)
    {
    }

    // ─── what the invariant means ───

    /** Replaying the frames sent, and then the frames of what waits, gives the source's current value. */
    lemma ReplayIsCurrent(k: Key)
      requires Valid() && k in feeds && k !in stale
      ensures k in values
      ensures ReceiveAll(apply, None, Told(k) + Frames(Waiting(k), Reset(values[k]))) == Some(values[k])
    {
      ReceiveJoin(apply, None, Told(k), Frames(Waiting(k), Reset(values[k])));
      SettleIsReplay(apply, Got(k), Waiting(k), Reset(values[k]));
    }

    /** With a window, something waits only while a frame is unacknowledged whose acknowledgement will flush. */
    lemma WaitingIsUnacknowledged()
      requires Valid() && order != []
      ensures peerAcks == Some(true) && unackedBytes >= window && |unacked| == sent - acked
      ensures window > 0 ==> acked < sent
    {
    }

    /** With everything acknowledged the window is open, and so nothing waits, if and only if it is above 0. */
    lemma DrainsIffWindow()
      requires Valid() && peerAcks == Some(true) && acked == sent
      ensures unackedBytes == 0
      ensures !Full() <==> window > 0
      ensures window > 0 ==> order == []
    {
    }
  }

  /** A connection with a window of 0 serves a hold. */
  method Unwindowed<V(==), Op>(cap: nat, apply: (V, Op) -> V, valid: V -> bool, opsSize: seq<Op> -> nat,
                               frameSize: Frame<V, Op> -> nat) returns (c: Connection<V, Op>)
    ensures fresh(c) && c.Valid() && c.window == 0 && c.peerAcks == Some(true) && c.apply == apply && c.valid == valid
    ensures c.served == {0} && c.wanted == {0} && c.again == {} && c.values == map[] && c.feeds == {}
    ensures c.link == [Control] && c.pending == map[]
  {
    c := new Connection(0, cap, apply, valid, opsSize, frameSize, hold => false, map[]);
    c.OnHello(true);
    var _ := c.Serve(0, true, false);
  }

  /**
   * A window of 0, from the start: the first unit of a hold goes out past it, and the ops of the next change wait,
   * whatever the peer acknowledges, all that was sent in the end.
   */
  method WaitsForever<V(==), Op>(cap: nat, apply: (V, Op) -> V, valid: V -> bool, opsSize: seq<Op> -> nat,
                                 frameSize: Frame<V, Op> -> nat, value: V, ops: seq<Op>, acks: seq<int>)
    returns (c: Connection<V, Op>)
    ensures c.Valid() && c.peerAcks == Some(true) && c.acked == c.sent && StateOf(0, 0) in c.pending
    ensures c.values == map[StateOf(0, 0) := ApplyAll(apply, value, ops)]
    ensures c.Told(StateOf(0, 0)) == [if valid(value) then Snap(value) else Failed]
  {
    c := Unwindowed(cap, apply, valid, opsSize, frameSize);
    c.StreamFirst(value);
    c.ChangeInVain(StateOf(0, 0), ops, acks);
  }

  /** If no other slot holds bytes, one slot's bytes are all. */
  lemma OnlyOne<V, Op>(order: seq<Key>, pending: map<Key, Entry<V, Op>>, bytes: int, k: Key)
    requires Filed(order, pending, bytes) && k in pending
    requires forall j | j in order && j != k :: Size(pending, j) == 0
    ensures bytes == Size(pending, k)
  {
    assert k in order;
    SumOne(order, pending, k);
  }

  lemma {:induction false} SumOne<V, Op>(order: seq<Key>, pending: map<Key, Entry<V, Op>>, k: Key)
    requires Distinct(order) && forall j | j in order && j != k :: Size(pending, j) == 0
    ensures TotalSize(order, pending) == if k in order then Size(pending, k) else 0
  {
    if order != [] {
      var n := |order| - 1;
      assert order == order[..n] + [order[n]];
      SumOne(order[..n], pending, k);
    }
  }
}
