/** Output events, and the reference-counted buffers their bytes live in. */
module Events {
  import opened Basics

  /** Largest `uint64`. */
  const MAX_SEQUENCE: nat := 0xFFFF_FFFF_FFFF_FFFF

  /** Identity of one `ownedBuffer` object. */
  type Owner = nat

  /** `data` is a slice of the owner's buffer. Events without an owner hold private bytes. */
  datatype Event = Event(channel: byte, start: nat, end: nat, data: seq<byte>, owner: Option<Owner>)

  /** A live `ownedBuffer`; `base` is the stream position of its first byte. */
  datatype Buffer = Buffer(refs: nat, base: nat, bytes: seq<byte>)

  /** Live owners, and owners waiting in `ownerPool`. */
  datatype Pool = Pool(owners: map<Owner, Buffer>, free: set<Owner>)

  /** The counter of an owner. */
  function Refs(p: Pool, o: Owner): nat {
    if o in p.owners then p.owners[o].refs else 0
  }

  function Refers(e: Event, o: Owner): nat {
    if e.owner == Some(o) then 1 else 0
  }

  /** How many of `events` refer to `o`. */
  function Count(events: seq<Event>, o: Owner): nat {
    if events == [] then 0 else Refers(events[0], o) + Count(events[1..], o)
  }

  /** An owner is live with a positive counter, or idle in the pool, or never allocated. */
  ghost predicate PoolOk(p: Pool) {
    && p.owners.Keys !! p.free
    && (forall o :: o in p.owners ==> p.owners[o].refs > 0)
  }

  /** The slice `e.data` still shows the bytes that were captured for it. */
  ghost predicate Readable(p: Pool, e: Event) {
    match e.owner
    case None => true
    case Some(o) =>
      && o in p.owners
      && p.owners[o].base <= e.start <= e.end <= p.owners[o].base + |p.owners[o].bytes|
      && e.data == p.owners[o].bytes[e.start - p.owners[o].base..e.end - p.owners[o].base]
  }

  ghost predicate AllReadable(p: Pool, events: seq<Event>) {
    forall i :: 0 <= i < |events| ==> Readable(p, events[i])
  }

  /** `live` lists every reference anyone holds: counters are exact and all slices are readable. */
  ghost predicate SafeRefs(p: Pool, live: seq<Event>) {
    && PoolOk(p)
    && (forall o :: Refs(p, o) == Count(live, o))
    && AllReadable(p, live)
  }

  // ----- pool operations -----

  /** `ownerPool.Get`, then storing `bytes` and the initial counter `n`. */
  function Take(p: Pool, o: Owner, base: nat, bytes: seq<byte>, n: nat): Pool {
    Pool(p.owners[o := Buffer(n, base, bytes)], p.free - {o})
  }

  predicate Held(p: Pool, e: Event) {
    e.owner.Some? ==> Refs(p, e.owner.value) > 0
  }

  function Retain(p: Pool, e: Event): Pool {
    match e.owner
    case None => p
    case Some(o) =>
      if o in p.owners then p.(owners := p.owners[o := p.owners[o].(refs := p.owners[o].refs + 1)]) else p
  }

  /** The last release gives the bytes and the owner back to their pools. */
  function Release(p: Pool, e: Event): Pool {
    match e.owner
    case None => p
    case Some(o) =>
      if o !in p.owners then p
      else if p.owners[o].refs <= 1 then Pool(p.owners - {o}, p.free + {o})
      else p.(owners := p.owners[o := p.owners[o].(refs := p.owners[o].refs - 1)])
  }

  ghost predicate AllHeld(p: Pool, events: seq<Event>) {
    forall o :: Count(events, o) <= Refs(p, o)
  }

  function ReleaseAll(p: Pool, events: seq<Event>): Pool
    decreases |events|
  {
    if events == [] then p else ReleaseAll(Release(p, events[0]), events[1..])
  }

  predicate EachHeld(p: Pool, events: seq<Event>) {
    forall i :: 0 <= i < |events| ==> Held(p, events[i])
  }

  function RetainAll(p: Pool, events: seq<Event>): (q: Pool)
    ensures p.owners.Keys == q.owners.Keys && p.free == q.free
    ensures forall o :: o in p.owners ==>
      p.owners[o].refs <= q.owners[o].refs && p.owners[o] == q.owners[o].(refs := p.owners[o].refs)
    decreases |events|
  {
    if events == [] then p
    else Retain(RetainAll(p, events[..|events| - 1]), events[|events| - 1])
  }

  lemma HeldTail(p: Pool, events: seq<Event>)
    requires AllHeld(p, events) && events != []
    ensures Held(p, events[0])
    ensures AllHeld(Release(p, events[0]), events[1..])
  {
    var e := events[0];
    if e.owner.Some? {
      assert Count(events, e.owner.value) <= Refs(p, e.owner.value);
    }
    forall o ensures Count(events[1..], o) <= Refs(Release(p, e), o) {
      assert Count(events, o) <= Refs(p, o);
    }
  }

  // ----- counting -----

  lemma {:induction false} CountConcat(a: seq<Event>, b: seq<Event>, o: Owner)
    ensures Count(a + b, o) == Count(a, o) + Count(b, o)
    decreases |a|
  {
    if a == [] {
      assert a + b == b;
    } else {
      CountConcat(a[1..], b, o);
      assert (a + b)[1..] == a[1..] + b;
    }
  }

  lemma CountRemove(events: seq<Event>, i: nat, o: Owner)
    requires i < |events|
    ensures Count(events, o) == Count([events[i]], o) + Count(events[..i] + events[i + 1..], o)
  {
    assert [events[i]][1..] == [];
    CountConcat(events[..i], events[i + 1..], o);
    CountConcat(events[..i], events[i..], o);
    assert events[..i] + events[i..] == events;
    assert events[i..][1..] == events[i + 1..];
  }

  lemma {:induction false} CountMember(events: seq<Event>, i: nat)
    requires i < |events| && events[i].owner.Some?
    ensures Count(events, events[i].owner.value) > 0
    decreases i
  {
    if i > 0 { CountMember(events[1..], i - 1); }
  }

  /** `a` and `b` list the same references, possibly in another order. */
  ghost predicate SameRefs(a: seq<Event>, b: seq<Event>) {
    && (forall o :: Count(a, o) == Count(b, o))
    && (forall i :: 0 <= i < |b| ==> b[i] in a)
  }

  lemma SafePermutation(p: Pool, a: seq<Event>, b: seq<Event>)
    requires SafeRefs(p, a) && SameRefs(a, b)
    ensures SafeRefs(p, b)
  {
  }

  // ----- every pool operation keeps the counters exact and the references readable -----

  /** Storing a chunk under an owner nobody refers to, with one reference to it. */
  lemma TakeSafe(p: Pool, live: seq<Event>, e: Event)
    requires SafeRefs(p, live) && e.owner.Some? && e.owner.value !in p.owners
    requires e.end == e.start + |e.data|
    ensures SafeRefs(Take(p, e.owner.value, e.start, e.data, 1), live + [e])
  {
    var o := e.owner.value;
    var q := Take(p, o, e.start, e.data, 1);
    forall x ensures Refs(q, x) == Count(live + [e], x) {
      CountConcat(live, [e], x);
      assert Refs(p, x) == Count(live, x);
    }
    forall i | 0 <= i < |live| ensures Readable(q, live[i]) {
      assert Readable(p, live[i]);
      if live[i].owner.Some? {
        CountMember(live, i);
        assert Refs(p, live[i].owner.value) == Count(live, live[i].owner.value);
      }
    }
    AppendReadable(q, live, e);
  }

  lemma AppendReadable(p: Pool, live: seq<Event>, e: Event)
    requires AllReadable(p, live) && Readable(p, e)
    ensures AllReadable(p, live + [e])
  {
  }

  /** Any readable slice of a live buffer may be retained. */
  lemma RetainSafe(p: Pool, live: seq<Event>, e: Event)
    requires SafeRefs(p, live) && Readable(p, e)
    ensures Held(p, e)
    ensures SafeRefs(Retain(p, e), live + [e])
  {
    var q := Retain(p, e);
    forall x ensures Refs(q, x) == Count(live + [e], x) {
      CountConcat(live, [e], x);
      assert Refs(p, x) == Count(live, x);
    }
    RetainReadable(p, e, live);
    AppendReadable(q, live, e);
  }

  lemma RetainReadable(p: Pool, e: Event, events: seq<Event>)
    requires Held(p, e) && AllReadable(p, events)
    ensures AllReadable(Retain(p, e), events)
  {
  }

  /** Dropping one reference. The owner goes back to the pool exactly when no other reference to it
      is left, and it was not in the pool before. */
  lemma ReleaseSafe(p: Pool, live: seq<Event>, e: Event, rest: seq<Event>)
    requires SafeRefs(p, live) && SameRefs(live, [e] + rest)
    ensures Held(p, e)
    ensures SafeRefs(Release(p, e), rest)
    ensures e.owner.Some? ==>
      && e.owner.value !in p.free
      && (e.owner.value in Release(p, e).free <==> Count(rest, e.owner.value) == 0)
  {
    var all := [e] + rest;
    SafePermutation(p, live, all);
    assert all[0] == e && all[1..] == rest;
    forall x ensures Refs(p, x) == Refers(e, x) + Count(rest, x) {
      assert Refs(p, x) == Count(all, x);
    }
    forall i | 0 <= i < |rest| ensures Readable(p, rest[i]) {
      assert Readable(p, all[i + 1]);
    }
    assert e.owner.Some? ==> Refs(p, e.owner.value) == 1 + Count(rest, e.owner.value);
    ReleaseReadable(p, e, rest);
  }

  lemma ReleaseReadable(p: Pool, e: Event, rest: seq<Event>)
    requires Held(p, e) && AllReadable(p, rest)
    requires e.owner.Some? ==> Refs(p, e.owner.value) == 1 + Count(rest, e.owner.value)
    ensures AllReadable(Release(p, e), rest)
  {
    forall i | 0 <= i < |rest| ensures Readable(Release(p, e), rest[i]) {
      assert Readable(p, rest[i]);
      if rest[i].owner.Some? { CountMember(rest, i); }
    }
  }

  lemma ReleaseOne(p: Pool, e: Event)
    ensures ReleaseAll(p, [e]) == Release(p, e)
  {
  }

  lemma RetainOne(p: Pool, e: Event)
    ensures RetainAll(p, [e]) == Retain(p, e)
  {
  }

  lemma {:induction false} ReleaseAllSafe(p: Pool, live: seq<Event>, gone: seq<Event>, rest: seq<Event>)
    requires SafeRefs(p, live) && SameRefs(live, gone + rest)
    ensures AllHeld(p, gone)
    ensures SafeRefs(ReleaseAll(p, gone), rest)
    decreases |gone|
  {
    SafePermutation(p, live, gone + rest);
    forall o ensures Count(gone, o) <= Refs(p, o) {
      CountConcat(gone, rest, o);
      assert Refs(p, o) == Count(gone + rest, o);
    }
    if gone == [] {
      assert gone + rest == rest;
    } else {
      var more := gone[1..] + rest;
      assert gone + rest == [gone[0]] + more;
      ReleaseSafe(p, gone + rest, gone[0], more);
      HeldTail(p, gone);
      ReleaseAllSafe(Release(p, gone[0]), more, gone[1..], rest);
    }
  }

  lemma {:induction false} RetainAllSafe(p: Pool, live: seq<Event>, more: seq<Event>)
    requires SafeRefs(p, live) && AllReadable(p, more)
    ensures EachHeld(p, more)
    ensures SafeRefs(RetainAll(p, more), live + more)
    decreases |more|
  {
    ReadableHeld(p, more);
    if more == [] {
      assert live + more == live;
    } else {
      var n := |more| - 1;
      RetainAllSafe(p, live, more[..n]);
      var q := RetainAll(p, more[..n]);
      assert Readable(p, more[n]);
      RetainSafe(q, live + more[..n], more[n]);
      assert live + more == (live + more[..n]) + [more[n]];
    }
  }

  lemma ReadableHeld(p: Pool, events: seq<Event>)
    requires PoolOk(p) && AllReadable(p, events)
    ensures EachHeld(p, events)
  {
  }

  // ----- the running code -----

  class BufferPool {
    var state: Pool
    /** No owner from here on has been allocated. */
    var next: Owner

    ghost predicate Valid()
      reads this
    {
      && state.owners.Keys !! state.free
      && (forall o :: o in state.owners || o in state.free ==> o < next)
    }

    constructor ()
      ensures Valid() && state == Pool(map[], {})
    {
      state, next := Pool(map[], {}), 0;
    }

    /** `ownerPool.Get` hands out any idle owner, or a new one. */
    method Acquire(base: nat, bytes: seq<byte>, n: nat) returns (o: Owner)
      requires Valid()
      modifies this
      ensures Valid() && o !in old(state).owners
      ensures state == Take(old(state), o, base, bytes, n)
    {
      if state.free != {} {
        o :| o in state.free;
      } else {
        o, next := next, next + 1;
      }
      state := Pool(state.owners[o := Buffer(n, base, bytes)], state.free - {o});
    }

    method AddRef(e: Event)
      requires Held(state, e)
      modifies this`state
      ensures state == Retain(old(state), e)
      ensures old(Valid()) ==> Valid()
    {
      if e.owner.Some? {
        var b := state.owners[e.owner.value];
        state := state.(owners := state.owners[e.owner.value := b.(refs := b.refs + 1)]);
      }
    }

    method DropRef(e: Event)
      requires Held(state, e)
      modifies this`state
      ensures state == Release(old(state), e)
      ensures old(Valid()) ==> Valid()
    {
      if e.owner.Some? {
        var o := e.owner.value;
        var refs := state.owners[o].refs - 1;
        if refs == 0 {
          state := Pool(state.owners - {o}, state.free + {o});
        } else {
          state := state.(owners := state.owners[o := state.owners[o].(refs := refs)]);
        }
      }
    }
  }
}
