/** The fan-out itself: maps, cursors and the ring are changed in place (internal/session/fanout.go).
    Every method is one critical section of `fanout.mu` and is proved to do what `OutputFanout` says.
 */
module OutputHub {
  import opened Basics
  import opened Events
  import opened OutputHistory
  import opened OutputFanout
  import opened OutputRing
  import opened OutputSession

  // ----- searching the ring -----

  /** Skipping elements that end too early does not change what is found. */
  lemma {:induction false} FindFrom(ring: seq<Event>, sequence: nat, k: nat)
    requires k <= |ring| && forall i :: 0 <= i < k ==> ring[i].end <= sequence
    ensures Find(ring, sequence) == Find(ring[k..], sequence)
    decreases k
  {
    if k > 0 {
      FindFrom(ring[1..], sequence, k - 1);
      assert ring[1..][k - 1..] == ring[k..];
    } else {
      assert ring[0..] == ring;
    }
  }

  /** Where `sort.Search` ends in any ring: some index from which on the ends need not be ordered. */
  function SearchEnd(ring: seq<Event>, sequence: nat, low: nat, high: nat): (k: nat)
    requires low <= high <= |ring| && (high < |ring| ==> ring[high].end > sequence)
    ensures low <= k <= high && (k < |ring| ==> ring[k].end > sequence)
    decreases high - low
  {
    if low == high then low
    else
      var middle := (low + high) / 2;
      if ring[middle].end > sequence then SearchEnd(ring, sequence, low, middle)
      else SearchEnd(ring, sequence, middle + 1, high)
  }

  /** What is found at the position it stops at. */
  function Locate(ring: seq<Event>, sequence: nat): (found: Option<Event>)
    ensures found.Some? ==> found.value in ring && found.value.start <= sequence < found.value.end
  {
    var k := SearchEnd(ring, sequence, 0, |ring|);
    if k == |ring| || ring[k].start > sequence then None else Some(ring[k])
  }

  /** `eventAtLocked`. */
  method EventAt(ring: seq<Event>, sequence: nat) returns (found: Option<Event>)
    ensures found == Locate(ring, sequence)
  {
    var low, high := 0, |ring|;
    while low < high
      invariant low <= high <= |ring| && (high < |ring| ==> ring[high].end > sequence)
      invariant SearchEnd(ring, sequence, low, high) == SearchEnd(ring, sequence, 0, |ring|)
    {
      var middle := (low + high) / 2;
      if ring[middle].end > sequence {
        high := middle;
      } else {
        low := middle + 1;
      }
    }
    if low == |ring| || ring[low].start > sequence {
      return None;
    }
    return Some(ring[low]);
  }

  /** Over increasing ends binary search finds what a linear scan finds. */
  lemma LocateIsFind(ring: seq<Event>, sequence: nat)
    requires EndsIncrease(ring)
    ensures Locate(ring, sequence) == Find(ring, sequence)
  {
    var k := SearchEnd(ring, sequence, 0, |ring|);
    SearchSkips(ring, sequence, 0, |ring|);
    FindFrom(ring, sequence, k);
  }

  lemma {:induction false} SearchSkips(ring: seq<Event>, sequence: nat, low: nat, high: nat)
    requires EndsIncrease(ring) && low <= high <= |ring| && (high < |ring| ==> ring[high].end > sequence)
    requires forall i :: 0 <= i < low ==> ring[i].end <= sequence
    ensures forall i :: 0 <= i < SearchEnd(ring, sequence, low, high) ==> ring[i].end <= sequence
    decreases high - low
  {
    if low < high {
      var middle := (low + high) / 2;
      if ring[middle].end > sequence {
        SearchSkips(ring, sequence, low, middle);
      } else {
        SearchSkips(ring, sequence, middle + 1, high);
      }
    }
  }

  // ----- the ring's order -----

  /** In order, elements of the same extent next to each other in any order. */
  ghost predicate Ranked(ring: seq<Event>) {
    forall i, j :: 0 <= i < j < |ring| ==> !Before(ring[j], ring[i])
  }

  predicate Sorted(ring: seq<Event>) {
    forall i, j :: 0 <= i < j < |ring| ==> Before(ring[i], ring[j])
  }

  /** Sorting a ring in order with one more element puts that element in its place: the result is in
      order and holds the same elements. */
  lemma SortedInsertSorts(ring: seq<Event>, e: Event)
    requires Ranked(ring)
    ensures Ranked(SortedInsert(ring, e))
    ensures multiset(SortedInsert(ring, e)) == multiset(ring) + multiset{e}
  {
    SortedInsertRanked(ring, e);
    var k := Place(ring, e);
    assert ring == ring[..k] + ring[k..];
  }

  lemma SortedInsertRanked(ring: seq<Event>, e: Event)
    requires Ranked(ring)
    ensures Ranked(SortedInsert(ring, e))
  {
    PlaceSplits(ring, e);
    PlacedRanked(ring, e, Place(ring, e));
  }

  lemma PlacedRanked(ring: seq<Event>, e: Event, k: nat)
    requires Ranked(ring) && k <= |ring| && (forall i :: 0 <= i < k ==> !Before(e, ring[i]))
    requires forall i :: k <= i < |ring| ==> Before(e, ring[i])
    ensures Ranked(ring[..k] + [e] + ring[k..])
  {
    var r := ring[..k] + [e] + ring[k..];
    forall i, j | 0 <= i < j < |r| ensures !Before(r[j], r[i]) {
      var p, q := if i < k then i else i - 1, if j < k then j else j - 1;
      assert i != k ==> r[i] == ring[p];
      assert j != k ==> r[j] == ring[q];
      if i != k && j != k { assert !Before(ring[q], ring[p]); }
    }
  }

  lemma {:induction false} PlaceSplits(ring: seq<Event>, e: Event)
    requires Ranked(ring)
    ensures var k := Place(ring, e);
      && (forall i :: 0 <= i < k ==> !Before(e, ring[i]))
      && (forall i :: k <= i < |ring| ==> Before(e, ring[i]))
  {
    if ring != [] && !Before(e, ring[0]) {
      PlaceSplits(ring[1..], e);
      forall i | 0 <= i < Place(ring, e) ensures !Before(e, ring[i]) {
        if i > 0 { assert ring[i] == ring[1..][i - 1]; }
      }
      forall i | Place(ring, e) <= i < |ring| ensures Before(e, ring[i]) {
        assert ring[i] == ring[1..][i - 1];
      }
    }
  }

  /** Every ring of the fan-out: in order, and every element says its length right. */
  ghost predicate RingShape(ring: seq<Event>) {
    Ranked(ring) && forall i :: 0 <= i < |ring| ==> ValidOutput(ring[i])
  }

  lemma {:induction false} InsertShape(ring: seq<Event>, e: Event)
    requires RingShape(ring) && ValidOutput(e)
    ensures RingShape(Insert(ring, e))
    decreases |ring|
  {
    hide Place, RingShape, Covers;
    var i := FirstTouch(ring, e);
    if i == |ring| {
      PlacedShape(ring, e);
    } else if !Covers(ring[i], e) {
      WithoutShape(ring, i);
      InsertShape(Without(ring, i), e);
    }
  }

  lemma PlacedShape(ring: seq<Event>, e: Event)
    requires RingShape(ring) && ValidOutput(e)
    ensures RingShape(SortedInsert(ring, e))
  {
    SortedInsertRanked(ring, e);
    var k, r := Place(ring, e), SortedInsert(ring, e);
    hide Place, Ranked;
    assert forall i :: 0 <= i < |r| ==> r[i] == if i < k then ring[i] else if i == k then e else ring[i - 1];
  }

  lemma WithoutShape(ring: seq<Event>, i: nat)
    requires RingShape(ring) && i < |ring|
    ensures RingShape(Without(ring, i))
  {
    hide Before, ValidOutput;
    var r := Without(ring, i);
    assert forall k :: 0 <= k < |r| ==> r[k] == if k < i then ring[k] else ring[k + 1];
  }

  lemma TrimShape(attachments: map<string, Cursor>, ring: seq<Event>)
    requires RingShape(ring)
    ensures RingShape(Trim(attachments, ring))
  {
    TrimSplits(attachments, ring);
    hide Trim;
    var n := |Trimmed(attachments, ring)|;
    assert forall i :: 0 <= i < |Trim(attachments, ring)| ==> Trim(attachments, ring)[i] == ring[n + i];
  }

  lemma {:induction false} PlaceFrom(ring: seq<Event>, e: Event, k: nat)
    requires k <= |ring| && forall i :: 0 <= i < k ==> !Before(e, ring[i])
    requires k < |ring| ==> Before(e, ring[k])
    ensures Place(ring, e) == k
    decreases k
  {
    if k > 0 { PlaceFrom(ring[1..], e, k - 1); }
  }

  /** A session's ring never holds nested elements: starts and ends both strictly increase, which is
      what binary search and the order of insertion rely on. */
  lemma SessionRingSorted(ring: seq<Event>, t: Tape)
    requires RingOk(ring, t)
    ensures EndsIncrease(ring) && Sorted(ring)
    ensures forall i, j :: 0 <= i < j < |ring| ==> ring[i].start < ring[j].start
  {
  }

  // ----- references -----

  /** The ring's references, and the caller's on `e`, are all counted. */
  ghost predicate Owns(p: Pool, ring: seq<Event>, e: Event) {
    forall o :: Count(ring, o) + Refers(e, o) <= Refs(p, o)
  }

  lemma OwnsRing(p: Pool, ring: seq<Event>, e: Event)
    requires Owns(p, ring, e)
    ensures AllHeld(p, ring)
  {
  }

  lemma OwnsRemove(p: Pool, ring: seq<Event>, i: nat, e: Event)
    requires Owns(p, ring, e) && i < |ring|
    ensures Held(p, ring[i]) && Owns(Release(p, ring[i]), Without(ring, i), e)
  {
    var x := ring[i];
    if x.owner.Some? {
      CountMember(ring, i);
      assert Count(ring, x.owner.value) + Refers(e, x.owner.value) <= Refs(p, x.owner.value);
    }
    forall o ensures Count(Without(ring, i), o) + Refers(e, o) <= Refs(Release(p, x), o) {
      CountRemove(ring, i, o);
      assert Count([x], o) == Refers(x, o) by { assert [x][1..] == []; }
      assert Count(ring, o) + Refers(e, o) <= Refs(p, o);
    }
  }

  lemma OwnsInsert(p: Pool, ring: seq<Event>, e: Event)
    requires Owns(p, ring, e)
    ensures Held(p, e) && Owns(Retain(p, e), SortedInsert(ring, e), e)
  {
    if e.owner.Some? {
      assert Count(ring, e.owner.value) + Refers(e, e.owner.value) <= Refs(p, e.owner.value);
    }
    var k := Place(ring, e);
    forall o ensures Count(SortedInsert(ring, e), o) + Refers(e, o) <= Refs(Retain(p, e), o) {
      CountConcat(ring[..k] + [e], ring[k..], o);
      CountConcat(ring[..k], [e], o);
      CountConcat(ring[..k], ring[k..], o);
      assert ring[..k] + ring[k..] == ring;
      assert Count([e], o) == Refers(e, o) by { assert [e][1..] == []; }
      assert Count(ring, o) + Refers(e, o) <= Refs(p, o);
    }
  }

  // ----- one queue -----

  /** The byte counter of a queue agrees with its two positions. */
  predicate QueueOk(c: Cursor) {
    && c.queued <= c.maxBytes <= MAX_SEQUENCE
    && (c.state == Attached ==> if c.placed then c.cursor <= c.end && c.queued == c.end - c.cursor else c.queued == 0)
  }

  ghost predicate QueuesOk(attachments: map<string, Cursor>) {
    forall id :: id in attachments ==> QueueOk(attachments[id])
  }

  /** What a reader has not read yet, and the new chunk, exceed its limit. */
  predicate TooSlow(c: Cursor, size: nat) {
    c.state == Attached && (if c.placed then c.end - c.cursor else 0) + size > c.maxBytes
  }

  lemma EvictedSlow(attachments: map<string, Cursor>, e: Event)
    requires QueuesOk(attachments)
    ensures forall id :: id in EvictedBy(attachments, e) <==> id in attachments && TooSlow(attachments[id], |e.data|)
    ensures forall id :: id in EvictedBy(attachments, e) ==>
      attachments[id].queued == if attachments[id].placed then attachments[id].end - attachments[id].cursor else 0
  {
    forall id | id in attachments ensures id in EvictedBy(attachments, e) <==> TooSlow(attachments[id], |e.data|) {
      assert QueueOk(attachments[id]);
    }
  }

  predicate Evicts(c: Cursor, e: Event) { c.state == Attached && Overflows(c, e) }

  /** Offering an event that fits the order keeps the counters and the active set right. */
  lemma OfferValid(f: Fan, e: Event, ring: seq<Event>)
    requires ActivePart(f) && QueuesOk(f.attachments) && ValidOutput(e) && !OutOfOrder(f, e)
    ensures var g := Fan(OfferedAll(f.attachments, e), f.active - EvictedBy(f.attachments, e), ring);
      ActivePart(g) && QueuesOk(g.attachments)
  {
  }

  lemma CountOne(all: set<string>, todo: set<string>, id: string)
    requires id in todo
    ensures |all - (todo - {id})| == |all - todo| + if id in all then 1 else 0
  {
    if id in all {
      assert all - (todo - {id}) == (all - todo) + {id};
    } else {
      assert all - (todo - {id}) == all - todo;
    }
  }

  /** The event was offered to all but `todo`. */
  ghost predicate Offering(was: map<string, Cursor>, now: map<string, Cursor>, e: Event, todo: set<string>, evictions: map<string, nat>) {
    && todo <= was.Keys == now.Keys
    && (forall id :: id in was ==> now[id] == if id in todo then was[id] else Offered(was[id], e))
    && (forall id :: id in evictions <==> id in was && id !in todo && Evicts(was[id], e))
    && (forall id :: id in evictions ==> evictions[id] == was[id].queued)
  }

  lemma OfferBegins(was: map<string, Cursor>, e: Event)
    ensures Offering(was, was, e, was.Keys, map[])
  {
  }

  lemma OfferingOne(was: map<string, Cursor>, now: map<string, Cursor>, e: Event, todo: set<string>, evictions: map<string, nat>, id: string)
    requires Offering(was, now, e, todo, evictions) && id in todo
    ensures id in now && id in was && now[id] == was[id]
    ensures Offering(was, now[id := Offered(was[id], e)], e, todo - {id},
                     if Evicts(was[id], e) then evictions[id := was[id].queued] else evictions)
  {
    hide Offered, Evicts;
  }

  lemma OfferDone(was: map<string, Cursor>, e: Event, attachments: map<string, Cursor>, evictions: map<string, nat>)
    requires Offering(was, attachments, e, {}, evictions)
    ensures attachments == OfferedAll(was, e) && evictions.Keys == EvictedBy(was, e)
    ensures evictions == map id | id in EvictedBy(was, e) :: was[id].queued
  {
    hide Offered;
  }

  method Offer(was: Cursor, event: Event) returns (c: Cursor, evicted: bool)
    ensures c == Offered(was, event) && evicted == Evicts(was, event)
  {
    c, evicted := was, false;
    if c.state == Attached {
      if |event.data| > c.maxBytes - c.queued {
        c := c.(evicted := c.queued, queued := 0, state := Evicted);
        evicted := true;
      } else {
        c := c.(cursor := if c.placed then c.cursor else event.start, placed := true);
        c := c.(end := event.end, queued := c.queued + |event.data|);
      }
    }
  }

  class Fanout {
    var attachments: map<string, Cursor>
    var active: set<string>
    var ring: seq<Event>

    ghost function State(): Fan
      reads this
    {
      Fan(attachments, active, ring)
    }

    /** The lock-free set agrees with the map, every queue counts its bytes right, and the ring is in order. */
    ghost predicate Valid()
      reads this
    {
      ActivePart(State()) && RingShape(ring) && QueuesOk(attachments)
    }

    constructor ()
      ensures Valid() && State() == Fan(map[], {}, [])
    {
      attachments, active, ring := map[], {}, [];
    }

    method Attach(id: string, maxBytes: nat) returns (err: Option<Error>)
      requires Valid() && maxBytes <= MAX_SEQUENCE
      modifies this
      ensures Valid() && err == AttachError(old(State()), id, maxBytes)
      ensures State() == if err.None? then AfterAttach(old(State()), id, maxBytes) else old(State())
    {
      if id == "" || maxBytes == 0 {
        return Some(InvalidQueueLimit);
      }
      if id in attachments && attachments[id].state == Attached {
        return Some(AttachmentExists);
      }
      attachments := attachments[id := Cursor(Attached, maxBytes, 0, 0, 0, 0, false)];
      active := active + {id};
      return None;
    }

    method Detach(id: string, pool: BufferPool) returns (err: Option<Error>)
      requires Valid() && AllHeld(pool.state, ring)
      modifies this, pool
      ensures Valid() && AllHeld(pool.state, ring) && (old(pool.Valid()) ==> pool.Valid())
      ensures err == if id in old(attachments) then None else Some(AttachmentUnknown)
      ensures State() == if err.None? then AfterDetach(old(State()), id) else old(State())
      ensures pool.state == if err.None? then TrimPool(old(pool.state), BeforeTrimDetach(old(State()), id)) else old(pool.state)
    {
      if id !in attachments {
        return Some(AttachmentUnknown);
      }
      active := active - {id};
      attachments := attachments - {id};
      assert State() == BeforeTrimDetach(old(State()), id);
      TrimShape(attachments, ring);
      CompactLocked(pool);
      return None;
    }

    /** The attachments in state `Attached`. */
    method Count() returns (n: nat)
      ensures n == AttachedCount(State())
    {
      n := 0;
      var todo := attachments.Keys;
      ghost var all := set id | id in attachments && attachments[id].state == Attached;
      assert all - todo == {};
      while todo != {}
        invariant todo <= attachments.Keys && n == |all - todo|
        decreases |todo|
      {
        var id :| id in todo;
        CountOne(all, todo, id);
        if attachments[id].state == Attached {
          n := n + 1;
        }
        todo := todo - {id};
      }
      assert all - todo == all;
    }

    /** Needs no lock: the set of active identities agrees with the map. */
    method IsAttached(id: string) returns (attached: bool)
      requires Valid()
      ensures attached <==> id in attachments && attachments[id].state == Attached
    {
      return id in active;
    }

    method Status(id: string) returns (r: Option<(AttachmentState, nat)>)
      requires Valid()
      ensures r.None? <==> id !in attachments
      ensures r.Some? ==> r.value.0 == attachments[id].state
      ensures r.Some? && id in active ==>
        r.value.1 == if attachments[id].placed then attachments[id].end - attachments[id].cursor else 0
      ensures r.Some? && id !in active ==> r.value.1 == attachments[id].evicted
    {
      if id !in attachments {
        return None;
      }
      var c := attachments[id];
      return Some((c.state, if c.state == Evicted then c.evicted else c.queued));
    }

    /** Replaces what the new event covers; keeps the ring as it is when the event is covered. */
    method InsertEvent(event: Event, pool: BufferPool)
      requires Owns(pool.state, ring, event)
      modifies `ring, pool
      ensures ring == Insert(old(ring), event) && pool.state == InsertPool(old(pool.state), old(ring), event)
      ensures Owns(pool.state, ring, event) && (old(pool.Valid()) ==> pool.Valid())
      decreases |ring|
    {
      hide Owns, Release, ReleaseAll, Retain, Place;
      var index := 0;
      while index < |ring|
        invariant index <= |ring|
        invariant forall k :: 0 <= k < index ==> !Touches(ring[k], event)
      {
        var existing := ring[index];
        if Covers(existing, event) {
          assert FirstTouch(ring, event) == index;
          ReleaseNone(pool.state);
          return;
        }
        if Covers(event, existing) {
          assert FirstTouch(ring, event) == index;
          OwnsRemove(pool.state, ring, index, event);
          ReleaseFirst(pool.state, existing, Replaced(Without(ring, index), event));
          pool.DropRef(existing);
          ring := ring[..index] + ring[index + 1..];
          InsertEvent(event, pool);
          return;
        }
        index := index + 1;
      }
      assert FirstTouch(ring, event) == |ring|;
      ReleaseNone(pool.state);
      OwnsInsert(pool.state, ring, event);
      pool.AddRef(event);
      var place := FindPlace(ring, event);
      ring := ring[..place] + [event] + ring[place..];
    }

    /** Releases the leading elements that every cursor has passed. */
    method CompactLocked(pool: BufferPool)
      requires AllHeld(pool.state, ring)
      modifies `ring, pool
      ensures ring == Trim(attachments, old(ring)) && pool.state == TrimPool(old(pool.state), old(State()))
      ensures AllHeld(pool.state, ring) && (old(pool.Valid()) ==> pool.Valid())
    {
      var minimum := LowestCursor(attachments);
      var index := 0;
      hide AllHeld, Release, Needed;
      assert ring[0..] == ring;
      while index < |ring| && (minimum.None? || ring[index].end <= minimum.value)
        invariant index <= |ring| && ring == old(ring)
        invariant AllHeld(pool.state, ring[index..]) && (old(pool.Valid()) ==> pool.Valid())
        invariant Trim(attachments, ring[index..]) == Trim(attachments, ring)
        invariant ReleaseAll(pool.state, Trimmed(attachments, ring[index..])) == TrimPool(old(pool.state), old(State()))
      {
        ghost var rest := ring[index..];
        assert rest[0] == ring[index] && rest[1..] == ring[index + 1..];
        HeldTail(pool.state, rest);
        ReleaseFirst(pool.state, ring[index], Trimmed(attachments, ring[index + 1..]));
        pool.DropRef(ring[index]);
        index := index + 1;
      }
      ReleaseNone(pool.state);
      ring := ring[index..];
    }

    /** Offers the event to every attachment; those it does not fit are evicted. */
    method PublishOwned(event: Event, pool: BufferPool) returns (evictions: map<string, nat>, err: Option<Error>)
      requires Valid() && Owns(pool.state, ring, event)
      modifies this, pool
      ensures Valid() && AllHeld(pool.state, ring) && (old(pool.Valid()) ==> pool.Valid())
      ensures err == if !ValidOutput(event) || OutOfOrder(old(State()), event) then Some(OutputOrder) else None
      ensures err.Some? ==> State() == old(State()) && pool.state == old(pool.state) && evictions == map[]
      ensures err.None? ==>
        && State() == AfterPublish(old(State()), event)
        && pool.state == TrimPool(InsertPool(old(pool.state), old(ring), event), BeforeTrimPublish(old(State()), event))
        && evictions == map id | id in EvictedBy(old(attachments), event) :: old(attachments)[id].queued
      ensures err.None? ==>
        && (forall id :: id in evictions <==> id in old(attachments) && TooSlow(old(attachments)[id], |event.data|))
        && (forall id :: id in evictions ==>
              var c := old(attachments)[id]; evictions[id] == if c.placed then c.end - c.cursor else 0)
    {
      EvictedSlow(attachments, event);
      OwnsRing(pool.state, ring, event);
      hide Owns, AllHeld, Insert, InsertPool, Trim, TrimPool, RingShape, TooSlow, EvictedBy, QueuesOk, ActivePart;
      evictions := map[];
      if !ValidOutput(event) {
        return evictions, Some(OutputOrder);
      }
      var ordered := InOrder(event);
      if !ordered {
        return evictions, Some(OutputOrder);
      }
      InsertShape(ring, event);
      InsertEvent(event, pool);
      OwnsRing(pool.state, ring, event);
      evictions := OfferAll(event);
      assert State() == BeforeTrimPublish(old(State()), event);
      TrimShape(attachments, ring);
      CompactLocked(pool);
      err := None;
    }

    method InOrder(event: Event) returns (ok: bool)
      ensures ok <==> !OutOfOrder(State(), event)
    {
      var todo := attachments.Keys;
      while todo != {}
        invariant forall id :: id in attachments && id !in todo && Reading(attachments[id]) ==> attachments[id].end == event.start
        decreases |todo|
      {
        var id :| id in todo;
        if id in attachments && Reading(attachments[id]) && attachments[id].end != event.start {
          return false;
        }
        todo := todo - {id};
      }
      return true;
    }

    method OfferAll(event: Event) returns (evictions: map<string, nat>)
      requires Valid() && ValidOutput(event) && !OutOfOrder(State(), event)
      modifies `attachments, `active
      ensures Valid()
      ensures attachments == OfferedAll(old(attachments), event)
      ensures active == old(active) - EvictedBy(old(attachments), event)
      ensures evictions == map id | id in EvictedBy(old(attachments), event) :: old(attachments)[id].queued
    {
      hide ActivePart, QueueOk, Offered, Evicts, OfferedAll, EvictedBy, RingShape, Offering;
      evictions := map[];
      var todo := attachments.Keys;
      ghost var was := attachments;
      OfferBegins(was, event);
      while todo != {}
        invariant Offering(was, attachments, event, todo, evictions) && active == old(active) - evictions.Keys
        decreases |todo|
      {
        var id :| id in todo;
        OfferingOne(was, attachments, event, todo, evictions, id);
        var c, evicted := Offer(attachments[id], event);
        if evicted {
          evictions := evictions[id := attachments[id].queued];
          active := active - {id};
        }
        attachments := attachments[id := c];
        todo := todo - {id};
      }
      OfferValid(old(State()), event, ring);
      OfferDone(was, event, attachments, evictions);
    }

    /** Offers one replayed event to one attachment; reports the queued bytes when that evicts it. */
    method EnqueueOwned(id: string, event: Event, pool: BufferPool) returns (eviction: Option<nat>, err: Option<Error>)
      requires Valid() && Owns(pool.state, ring, event)
      modifies this, pool
      ensures Valid() && AllHeld(pool.state, ring) && (old(pool.Valid()) ==> pool.Valid())
      ensures err == EnqueueError(old(State()), id, event)
      ensures err.Some? ==> State() == old(State()) && pool.state == old(pool.state) && eviction.None?
      ensures err.None? ==>
        && State() == AfterEnqueue(old(State()), id, event)
        && eviction == (if Overflows(old(attachments)[id], event) then Some(old(attachments)[id].queued) else None)
        && (eviction.Some? <==> TooSlow(old(attachments)[id], |event.data|))
        && pool.state == if eviction.Some? then TrimPool(old(pool.state), State().(ring := old(ring)))
                         else InsertPool(old(pool.state), old(ring), event)
    {
      assert id in attachments ==> QueueOk(attachments[id]);
      OwnsRing(pool.state, ring, event);
      hide Owns, AllHeld, AfterEnqueue, InsertPool, TrimPool, RingShape, ActivePart, QueuesOk;
      if !ValidOutput(event) {
        return None, Some(OutputOrder);
      }
      if id !in attachments {
        return None, Some(AttachmentUnknown);
      }
      var c := attachments[id];
      if c.state == Evicted {
        return None, Some(AttachmentEvicted);
      }
      if c.placed && c.end != event.start {
        return None, Some(OutputOrder);
      }
      if |event.data| > c.maxBytes - c.queued {
        EvictOne(id, event, pool);
        return Some(c.queued), None;
      }
      QueueOne(id, event, pool);
      return None, None;
    }

    method EvictOne(id: string, ghost event: Event, pool: BufferPool)
      requires Valid() && AllHeld(pool.state, ring) && id in attachments && Overflows(attachments[id], event)
      modifies this, pool
      ensures Valid() && AllHeld(pool.state, ring) && (old(pool.Valid()) ==> pool.Valid())
      ensures State() == AfterEnqueue(old(State()), id, event)
      ensures pool.state == TrimPool(old(pool.state), State().(ring := old(ring)))
    {
      hide AllHeld, Trim, TrimPool, RingShape;
      var c := attachments[id];
      attachments := attachments[id := c.(evicted := c.queued, queued := 0, state := Evicted)];
      active := active - {id};
      TrimShape(attachments, ring);
      CompactLocked(pool);
    }

    method QueueOne(id: string, event: Event, pool: BufferPool)
      requires Valid() && Owns(pool.state, ring, event) && ValidOutput(event) && id in attachments
      requires !Overflows(attachments[id], event) && EnqueueError(State(), id, event).None?
      modifies this, pool
      ensures Valid() && AllHeld(pool.state, ring) && (old(pool.Valid()) ==> pool.Valid())
      ensures State() == AfterEnqueue(old(State()), id, event)
      ensures pool.state == InsertPool(old(pool.state), old(ring), event)
    {
      hide Owns, AllHeld, Insert, InsertPool, RingShape;
      InsertShape(ring, event);
      InsertEvent(event, pool);
      OwnsRing(pool.state, ring, event);
      var c := attachments[id];
      if !c.placed {
        c := c.(cursor := event.start, placed := true);
      }
      attachments := attachments[id := c.(end := event.end, queued := c.queued + |event.data|)];
    }

    /** One look of `WaitNextOwned` (with `keep`, the reader gets a reference) or `Next` (it gets a copy). In
        a ring with increasing ends it finds what a scan finds, and when the found chunk does not reach past
        the queue the counters stay right; in a session both always hold, see `NextAlwaysFound`. */
    method TryNext(id: string, keep: bool, pool: BufferPool) returns (r: Polled)
      requires Valid() && AllHeld(pool.state, ring)
      modifies this, pool
      ensures AllHeld(pool.state, ring) && (old(pool.Valid()) ==> pool.Valid())
      ensures r == Looked(old(State()), id)
      ensures !r.Delivered? ==> State() == old(State()) && pool.state == old(pool.state)
      ensures r.Delivered? ==>
        && State() == Compacted(BeforeTrimLook(old(State()), id))
        && pool.state == TrimPool(if keep then Retain(old(pool.state), r.event) else old(pool.state),
                                  BeforeTrimLook(old(State()), id))
      ensures old(EndsIncrease(ring)) ==> r == Poll(old(State()), id)
      ensures r.Delivered? && r.event.end <= old(attachments)[id].end ==> Valid()
    {
      hide AllHeld, Locate, EndsIncrease, Trim, TrimPool, Retain, RingShape, Find, MinusWrapped, ActivePart, QueuesOk;
      if EndsIncrease(ring) && id in attachments { LocateIsFind(ring, attachments[id].cursor); }
      if id !in attachments {
        return Failed(AttachmentUnknown);
      }
      var c := attachments[id];
      if c.state == Evicted {
        return Failed(AttachmentEvicted);
      }
      if !c.placed || c.cursor >= c.end {
        return Nothing;
      }
      var found := EventAt(ring, c.cursor);
      if found.None? {
        return Failed(OutputOrder);
      }
      var event := found.value;
      MemberValid(ring, event);
      r := Delivered(Slice(event, c.cursor, event.end));
      if keep {
        MemberHeld(pool.state, ring, event);
        RetainKeeps(pool.state, ring, r.event);
        pool.AddRef(r.event);
      }
      var d := c.(cursor := event.end, queued := MinusWrapped(c.queued, event.end - c.cursor));
      if event.end <= c.end { AdvanceKeeps(State(), id, d, Trim(attachments[id := d], ring)); }
      attachments := attachments[id := d];
      TrimShape(attachments, ring);
      CompactLocked(pool);
    }
  }

  /** A cursor that moves within its queue. */
  lemma AdvanceKeeps(f: Fan, id: string, d: Cursor, ring: seq<Event>)
    requires ActivePart(f) && QueuesOk(f.attachments) && id in f.attachments
    requires var c := f.attachments[id];
      && Reading(c) && c.cursor <= d.cursor <= c.end
      && d == c.(cursor := d.cursor, queued := MinusWrapped(c.queued, d.cursor - c.cursor))
    ensures QueuesOk(f.attachments[id := d]) && ActivePart(Fan(f.attachments[id := d], f.active, ring))
  {
    assert QueueOk(f.attachments[id]);
    MinusExact(f.attachments[id].queued, d.cursor - f.attachments[id].cursor);
  }

  /** Subtraction of `uint64`. */
  function MinusWrapped(a: nat, b: nat): nat { (a - b) % 0x1_0000_0000_0000_0000 }

  lemma MinusExact(a: nat, b: nat)
    requires b <= a <= MAX_SEQUENCE
    ensures MinusWrapped(a, b) == a - b
  {
  }

  /** `Poll`, with the element that binary search finds. */
  function Looked(f: Fan, id: string): Polled {
    if id !in f.attachments then Failed(AttachmentUnknown)
    else PollAt(f.attachments[id], Locate(f.ring, f.attachments[id].cursor))
  }

  function BeforeTrimLook(f: Fan, id: string): Fan
    requires Looked(f, id).Delivered?
  {
    var c, to := f.attachments[id], Looked(f, id).event.end;
    f.(attachments := f.attachments[id := c.(cursor := to, queued := MinusWrapped(c.queued, to - c.cursor))])
  }

  /** In a session the look does what `Poll` and `AfterPoll` say. */
  lemma LookedIsPoll(f: Fan, id: string)
    requires EndsIncrease(f.ring) && Poll(f, id).Delivered?
    requires Poll(f, id).event.end - f.attachments[id].cursor <= f.attachments[id].queued <= MAX_SEQUENCE
    ensures Looked(f, id) == Poll(f, id) && BeforeTrimLook(f, id) == BeforeTrimPoll(f, id)
  {
    hide MinusWrapped, Locate, Find;
    LocateIsFind(f.ring, f.attachments[id].cursor);
    MinusExact(f.attachments[id].queued, Poll(f, id).event.end - f.attachments[id].cursor);
  }

  lemma MemberValid(ring: seq<Event>, e: Event)
    requires RingShape(ring) && e in ring
    ensures ValidOutput(e)
  {
  }

  lemma ReleaseFirst(p: Pool, e: Event, rest: seq<Event>)
    ensures ReleaseAll(p, [e] + rest) == ReleaseAll(Release(p, e), rest)
  {
  }

  lemma ReleaseNone(p: Pool)
    ensures ReleaseAll(p, []) == p
  {
  }

  method FindPlace(ring: seq<Event>, e: Event) returns (k: nat)
    ensures k == Place(ring, e)
  {
    k := 0;
    while k < |ring| && !Before(e, ring[k])
      invariant k <= |ring| && forall i :: 0 <= i < k ==> !Before(e, ring[i])
    {
      k := k + 1;
    }
    PlaceFrom(ring, e, k);
  }

  /** The lowest cursor of a reading attachment. */
  method LowestCursor(attachments: map<string, Cursor>) returns (minimum: Option<nat>)
    ensures forall e: Event :: Needed(attachments, e) <==> minimum.Some? && minimum.value < e.end
  {
    minimum := None;
    var todo := attachments.Keys;
    ghost var lowest := "";
    while todo != {}
      invariant todo <= attachments.Keys
      invariant minimum.Some? ==>
        lowest in attachments && Reading(attachments[lowest]) && attachments[lowest].cursor == minimum.value
      invariant forall id :: id in attachments && id !in todo && Reading(attachments[id]) ==>
        minimum.Some? && minimum.value <= attachments[id].cursor
      decreases |todo|
    {
      var id :| id in todo;
      if Reading(attachments[id]) && (minimum.None? || attachments[id].cursor < minimum.value) {
        minimum, lowest := Some(attachments[id].cursor), id;
      }
      todo := todo - {id};
    }
  }

  lemma MemberHeld(p: Pool, ring: seq<Event>, e: Event)
    requires AllHeld(p, ring) && e in ring
    ensures Held(p, e)
  {
    var i :| 0 <= i < |ring| && ring[i] == e;
    if e.owner.Some? {
      CountMember(ring, i);
      assert Count(ring, e.owner.value) <= Refs(p, e.owner.value);
    }
  }

  lemma RetainKeeps(p: Pool, ring: seq<Event>, e: Event)
    requires AllHeld(p, ring)
    ensures AllHeld(Retain(p, e), ring)
  {
  }
}
