/** What the ring means once every element is the tail of one captured chunk. */
module OutputRing {
  import opened Basics
  import opened Events
  import opened OutputHistory
  import opened OutputFanout

  /** Everything ever written, and where each chunk ended (with the channel it came from). */
  datatype Tape = Tape(stream: seq<byte>, ends: map<nat, byte>)

  /** `e` is a non-empty tail of one captured chunk. */
  ghost predicate Piece(e: Event, t: Tape) {
    && e.start < e.end && OnStream(e, t.stream)
    && e.end in t.ends && t.ends[e.end] == e.channel
    && (forall p :: p in t.ends ==> !(e.start < p < e.end))
  }

  ghost predicate Pieces(events: seq<Event>, t: Tape) {
    forall i :: 0 <= i < |events| ==> Piece(events[i], t)
  }

  ghost predicate Apart(ring: seq<Event>) {
    forall i, j :: 0 <= i < j < |ring| ==> ring[i].end <= ring[j].start
  }

  ghost predicate RingOk(ring: seq<Event>, t: Tape) {
    Pieces(ring, t) && Apart(ring)
  }

  /** The tape after one more chunk. */
  function Grown(t: Tape, channel: byte, data: seq<byte>): Tape {
    Tape(t.stream + data, t.ends[|t.stream| + |data| := channel])
  }

  // ----- tails of chunks are nested or apart -----

  lemma SameChunk(a: Event, b: Event, t: Tape)
    requires Piece(a, t) && Piece(b, t) && a.start < b.end && b.start < a.end
    ensures a.end == b.end
  {
  }

  /** For tails of chunks, covering is just starting no later within the same chunk. */
  lemma CoversIs(a: Event, b: Event, t: Tape)
    requires Piece(a, t) && Piece(b, t)
    ensures Covers(a, b) <==> a.end == b.end && a.start <= b.start
  {
  }

  // ----- inserting -----

  /** How many leading elements end at or before the start of `e`. */
  function Passed(ring: seq<Event>, e: Event): (k: nat)
    ensures k <= |ring|
    ensures forall i :: 0 <= i < k ==> ring[i].end <= e.start
    ensures k < |ring| ==> ring[k].end > e.start
  {
    if ring == [] || ring[0].end > e.start then 0
    else
      var rest := Passed(ring[1..], e);
      assert forall i :: 0 < i < 1 + rest ==> ring[i] == ring[1..][i - 1];
      1 + rest
  }

  /** The element of the ring that belongs to the chunk of `e`, if there is one, stands at `Passed`. */
  predicate Meets(ring: seq<Event>, e: Event) {
    var k := Passed(ring, e);
    k < |ring| && ring[k].end == e.end
  }

  /** The elements after the chunk of `e`. */
  function Later(ring: seq<Event>, e: Event): seq<Event> {
    ring[if Meets(ring, e) then Passed(ring, e) + 1 else Passed(ring, e)..]
  }

  function Earlier(ring: seq<Event>, e: Event): seq<Event> { ring[..Passed(ring, e)] }

  /** The ring already holds all of `e`. */
  predicate Holds(ring: seq<Event>, e: Event) {
    Meets(ring, e) && ring[Passed(ring, e)].start <= e.start
  }

  /** Insertion in closed form. */
  function Merge(ring: seq<Event>, e: Event): seq<Event> {
    if Holds(ring, e) then ring else Earlier(ring, e) + [e] + Later(ring, e)
  }

  ghost predicate AllBefore(a: seq<Event>, e: Event) { forall i :: 0 <= i < |a| ==> a[i].end <= e.start }
  ghost predicate AllAfter(b: seq<Event>, e: Event) { forall i :: 0 <= i < |b| ==> e.end <= b[i].start }

  /** Elements other than the one of the same chunk lie entirely before or after `e`. */
  lemma Sides(ring: seq<Event>, e: Event, t: Tape)
    requires RingOk(ring, t) && Piece(e, t)
    ensures AllBefore(Earlier(ring, e), e) && AllAfter(Later(ring, e), e)
    ensures RingOk(Earlier(ring, e), t) && RingOk(Later(ring, e), t)
  {
    var k := Passed(ring, e);
    var m := if Meets(ring, e) then k + 1 else k;
    AtPassed(ring, e, t);
    hide Piece, Pieces, Passed, RingOk;
    RingPrefix(ring, t, k);
    RingSuffix(ring, t, m);
    forall i | 0 <= i < |ring[m..]| ensures e.end <= ring[m..][i].start { assert ring[m..][i] == ring[m + i]; }
  }

  lemma RingPrefix(ring: seq<Event>, t: Tape, k: nat)
    requires RingOk(ring, t) && k <= |ring|
    ensures RingOk(ring[..k], t)
  {
    hide Piece;
  }

  lemma RingSuffix(ring: seq<Event>, t: Tape, m: nat)
    requires RingOk(ring, t) && m <= |ring|
    ensures RingOk(ring[m..], t)
  {
    hide Piece;
  }

  lemma AtPassed(ring: seq<Event>, e: Event, t: Tape)
    requires RingOk(ring, t) && Piece(e, t)
    ensures var m := if Meets(ring, e) then Passed(ring, e) + 1 else Passed(ring, e);
      forall i :: m <= i < |ring| ==> e.end <= ring[i].start
  {
    var k := Passed(ring, e);
    hide Passed;
    if k < |ring| {
      assert Piece(ring[k], t);
      if ring[k].start < e.end { SameChunk(ring[k], e, t); }
      hide Piece, Pieces;
      var m := if Meets(ring, e) then k + 1 else k;
      forall i | m <= i < |ring| ensures e.end <= ring[i].start {
        if i > k { assert ring[k].end <= ring[i].start; }
      }
    }
  }

  lemma SubringOk(ring: seq<Event>, t: Tape, from: nat, to: nat)
    requires RingOk(ring, t) && from <= to <= |ring|
    ensures RingOk(ring[from..to], t)
  {
  }

  lemma NoTouch(ring: seq<Event>, e: Event, t: Tape, i: nat)
    requires RingOk(ring, t) && Piece(e, t) && i < |ring|
    ensures Touches(ring[i], e) <==> Meets(ring, e) && i == Passed(ring, e)
  {
    AtPassed(ring, e, t);
    assert Piece(ring[i], t);
    CoversIs(ring[i], e, t);
    CoversIs(e, ring[i], t);
    hide Passed, Covers, RingOk;
  }

  lemma FirstTouchIs(ring: seq<Event>, e: Event, t: Tape)
    requires RingOk(ring, t) && Piece(e, t)
    ensures FirstTouch(ring, e) == if Meets(ring, e) then Passed(ring, e) else |ring|
  {
    var i, k := FirstTouch(ring, e), Passed(ring, e);
    if i < |ring| { NoTouch(ring, e, t, i); }
    if k < |ring| { NoTouch(ring, e, t, k); }
  }

  lemma {:induction false} PlaceIs(a: seq<Event>, b: seq<Event>, e: Event, t: Tape)
    requires AllBefore(a, e) && AllAfter(b, e) && Pieces(a, t) && Piece(e, t)
    ensures Place(a + b, e) == |a|
    decreases |a|
  {
    if a == [] {
      assert a + b == b;
    } else {
      PlaceIs(a[1..], b, e, t);
      assert Piece(a[0], t);
      assert (a + b)[1..] == a[1..] + b;
    }
  }

  lemma {:induction false} PassedIs(a: seq<Event>, b: seq<Event>, e: Event, t: Tape)
    requires AllBefore(a, e) && AllAfter(b, e) && Pieces(b, t) && Piece(e, t)
    ensures Passed(a + b, e) == |a| && !Meets(a + b, e)
  {
    var r, k := a + b, Passed(a + b, e);
    hide Passed;
    assert e.start < e.end;
    forall i | 0 <= i < |a| ensures r[i].end <= e.start {
      assert r[i] == a[i];
    }
    assert k >= |a|;
    if b != [] {
      assert r[|a|] == b[0] && e.end <= b[0].start;
      assert b[0].start < b[0].end by { assert Piece(b[0], t); }
      assert r[|a|].end > e.start;
    }
  }

  lemma JoinOk(a: seq<Event>, b: seq<Event>, e: Event, t: Tape)
    requires RingOk(a, t) && RingOk(b, t) && Piece(e, t) && AllBefore(a, e) && AllAfter(b, e)
    ensures RingOk(a + b, t) && RingOk(a + [e] + b, t)
  {
    forall i, j | 0 <= i < |a| && 0 <= j < |b| ensures a[i].end <= b[j].start {
    }
  }

  /** The search, replacement and re-sorting of `insertEventLocked` amount to the closed form. */
  lemma InsertIsMerge(ring: seq<Event>, e: Event, t: Tape)
    requires RingOk(ring, t) && Piece(e, t)
    ensures Insert(ring, e) == Merge(ring, e)
    ensures Keeps(ring, e) <==> !Holds(ring, e)
    ensures Replaced(ring, e) == if Meets(ring, e) && !Holds(ring, e) then [ring[Passed(ring, e)]] else []
  {
    hide RingOk, Piece, Covers, Passed, FirstTouch, Insert, Keeps, Replaced;
    var k, a, b := Passed(ring, e), Earlier(ring, e), Later(ring, e);
    FirstTouchIs(ring, e, t);
    if !Holds(ring, e) { MergeFresh(ring, e, t); }
    if Meets(ring, e) {
      MeetingCovers(ring, e, t);
      InsertTouching(ring, e);
      assert Without(ring, k) == a + b;
    } else {
      assert ring == a + b;
    }
  }

  lemma MeetingCovers(ring: seq<Event>, e: Event, t: Tape)
    requires RingOk(ring, t) && Piece(e, t) && Meets(ring, e)
    ensures Covers(ring[Passed(ring, e)], e) <==> Holds(ring, e)
  {
    assert Piece(ring[Passed(ring, e)], t);
    CoversIs(ring[Passed(ring, e)], e, t);
  }

  /** What insertion does at the first element it touches. */
  lemma InsertTouching(ring: seq<Event>, e: Event)
    requires FirstTouch(ring, e) < |ring|
    ensures var k := FirstTouch(ring, e);
      if Covers(ring[k], e) then Insert(ring, e) == ring && !Keeps(ring, e) && Replaced(ring, e) == []
      else
        && Insert(ring, e) == Insert(Without(ring, k), e) && Keeps(ring, e) == Keeps(Without(ring, k), e)
        && Replaced(ring, e) == [ring[k]] + Replaced(Without(ring, k), e)
  {
  }

  /** Without the element of its chunk, the ring takes `e` between what is earlier and what is later. */
  lemma MergeFresh(ring: seq<Event>, e: Event, t: Tape)
    requires RingOk(ring, t) && Piece(e, t)
    ensures var a, b := Earlier(ring, e), Later(ring, e);
      Insert(a + b, e) == a + [e] + b && Keeps(a + b, e) && Replaced(a + b, e) == []
  {
    var a, b := Earlier(ring, e), Later(ring, e);
    Sides(ring, e, t);
    JoinOk(a, b, e, t);
    PassedIs(a, b, e, t);
    PlaceIs(a, b, e, t);
    FirstTouchIs(a + b, e, t);
    hide *;
    InsertFresh(a, b, e);
  }

  lemma InsertFresh(a: seq<Event>, b: seq<Event>, e: Event)
    requires Place(a + b, e) == |a| && FirstTouch(a + b, e) == |a + b|
    ensures Insert(a + b, e) == a + [e] + b && Keeps(a + b, e) && Replaced(a + b, e) == []
  {
  }

  /** Insertion keeps the ring in order. */
  lemma InsertOk(ring: seq<Event>, e: Event, t: Tape)
    requires RingOk(ring, t) && Piece(e, t)
    ensures RingOk(Insert(ring, e), t)
  {
    InsertIsMerge(ring, e, t);
    Sides(ring, e, t);
    JoinOk(Earlier(ring, e), Later(ring, e), e, t);
  }

  lemma CoveredConcat(a: seq<Event>, b: seq<Event>, q: nat)
    ensures Covered(a + b, q) <==> Covered(a, q) || Covered(b, q)
  {
    if Covered(a, q) {
      var i :| 0 <= i < |a| && a[i].start <= q < a[i].end;
      assert (a + b)[i].start <= q < (a + b)[i].end;
    }
    if Covered(b, q) {
      var i :| 0 <= i < |b| && b[i].start <= q < b[i].end;
      assert (a + b)[|a| + i].start <= q < (a + b)[|a| + i].end;
    }
  }

  lemma CoveredOne(e: Event, q: nat)
    ensures Covered([e], q) <==> e.start <= q < e.end
  {
    if e.start <= q < e.end { assert [e][0].start <= q < [e][0].end; }
  }

  /** What stands between the earlier and the later elements. */
  lemma Parts(ring: seq<Event>, e: Event)
    ensures ring == Earlier(ring, e) + (if Meets(ring, e) then [ring[Passed(ring, e)]] else []) + Later(ring, e)
  {
  }

  /** Insertion neither loses nor invents bytes: it covers what was covered, and `e`. */
  lemma InsertCovers(ring: seq<Event>, e: Event, t: Tape, q: nat)
    requires RingOk(ring, t) && Piece(e, t)
    ensures Covered(Insert(ring, e), q) <==> Covered(ring, q) || e.start <= q < e.end
  {
    InsertIsMerge(ring, e, t);
    Parts(ring, e);
    var a, b, m := Earlier(ring, e), Later(ring, e), if Meets(ring, e) then [ring[Passed(ring, e)]] else [];
    if m != [] { CoveredOne(m[0], q); }
    assert m == [] || (m[0].end == e.end && |m| == 1);
    if Holds(ring, e) { assert m[0].start <= e.start; } else { assert m != [] ==> e.start < m[0].start; }
    CoveredOne(e, q);
    hide *;
    CoveredConcat(a + m, b, q);
    CoveredConcat(a, m, q);
    CoveredConcat(a + [e], b, q);
    CoveredConcat(a, [e], q);
  }

  // ----- finding -----

  /** Binary search by end position finds an element exactly when some element holds the byte. */
  lemma {:induction false} FindIsCover(ring: seq<Event>, t: Tape, q: nat)
    requires RingOk(ring, t)
    ensures Find(ring, q).Some? <==> Covered(ring, q)
    ensures Find(ring, q).Some? ==>
      var e := Find(ring, q).value; e in ring && Piece(e, t) && e.start <= q < e.end
    decreases |ring|
  {
    if ring != [] {
      assert Piece(ring[0], t);
      var rest := ring[1..];
      if ring[0].end <= q {
        SubringOk(ring, t, 1, |ring|);
        CoveredOne(ring[0], q);
        assert ring == [ring[0]] + rest;
        hide RingOk, Piece, Covered;
        FindIsCover(rest, t, q);
        CoveredConcat([ring[0]], rest, q);
      } else if ring[0].start > q {
        forall i | 0 <= i < |ring| ensures ring[i].start > q {
          assert Piece(ring[i], t);
        }
      } else {
        assert ring[0].start <= q < ring[0].end;
      }
    }
  }
}
