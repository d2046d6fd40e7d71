/** The bounded window of recent terminal output (internal/history).

    `Window` is the abstract value of a `History` object: its live chunks and the sequence
    numbers around them. `stream` is everything the terminal has ever written.
 */
module OutputHistory {
  import opened Basics
  import opened Events

  datatype Window = Window(maxBytes: nat, bytes: int, earliest: nat, latest: nat, events: seq<Event>)

  datatype Replay =
    | Replayed(from: nat, to: nat, earliest: nat, latest: nat, events: seq<Event>)
    | Gap(requested: nat, earliest: nat, latest: nat)
    | InvalidCursor

  datatype Appended = Added(event: Event) | SequenceFull

  // ----- what a window means -----

  /** The events follow each other without gap from `from` to `to`. */
  ghost predicate Chained(events: seq<Event>, from: nat, to: nat) {
    && (if events == [] then from == to else events[0].start == from && events[|events| - 1].end == to)
    && (forall i :: 0 <= i < |events| ==> events[i].end == events[i].start + |events[i].data|)
    && (forall i, j :: 0 <= i < j < |events| && j == i + 1 ==> events[i].end == events[j].start)
  }

  ghost predicate OnStream(e: Event, stream: seq<byte>) {
    e.start <= e.end <= |stream| && e.data == stream[e.start..e.end]
  }

  ghost predicate AllOnStream(events: seq<Event>, stream: seq<byte>) {
    forall i :: 0 <= i < |events| ==> OnStream(events[i], stream)
  }

  /** The window shows exactly `stream[earliest..latest]`. */
  ghost predicate WindowOk(w: Window, stream: seq<byte>) {
    && w.earliest <= w.latest == |stream| <= MAX_SEQUENCE
    && w.bytes == w.latest - w.earliest
    && Chained(w.events, w.earliest, w.latest)
    && AllOnStream(w.events, stream)
  }

  ghost predicate Bounded(w: Window) {
    w.bytes <= w.maxBytes
  }

  function Bytes(events: seq<Event>): seq<byte> {
    if events == [] then [] else events[0].data + Bytes(events[1..])
  }

  /** A chain of slices of the stream spells the stream between its two ends. */
  lemma {:induction false} ChainSpellsStream(events: seq<Event>, from: nat, to: nat, stream: seq<byte>)
    requires Chained(events, from, to) && AllOnStream(events, stream) && to <= |stream|
    ensures from <= to && Bytes(events) == stream[from..to]
    decreases |events|
  {
    if events != [] {
      assert OnStream(events[0], stream);
      ChainTail(events, from, to);
      hide Chained;
      ChainSpellsStream(events[1..], events[0].end, to, stream);
      assert stream[from..to] == stream[from..events[0].end] + stream[events[0].end..to];
    }
  }

  lemma ChainAppend(events: seq<Event>, from: nat, to: nat, e: Event)
    requires Chained(events, from, to) && e.start == to && e.end == to + |e.data|
    ensures Chained(events + [e], from, e.end)
  {
  }

  lemma ChainEmpty(at: nat)
    ensures Chained([], at, at)
  {
  }

  lemma ChainEnds(events: seq<Event>, from: nat, to: nat)
    requires Chained(events, from, to)
    ensures events == [] ==> from == to
    ensures events != [] ==> events[0].start == from && events[|events| - 1].end == to
  {
  }

  lemma ChainTail(events: seq<Event>, from: nat, to: nat)
    requires Chained(events, from, to) && events != []
    ensures events[0].start == from && events[0].end == from + |events[0].data|
    ensures Chained(events[1..], events[0].end, to)
  {
  }

  lemma ChainInit(events: seq<Event>, from: nat, to: nat)
    requires Chained(events, from, to) && events != []
    ensures events[|events| - 1].end == to == events[|events| - 1].start + |events[|events| - 1].data|
    ensures Chained(events[..|events| - 1], from, events[|events| - 1].start)
  {
  }

  lemma {:induction false} ChainOrdered(events: seq<Event>, from: nat, to: nat, i: nat)
    requires Chained(events, from, to) && i < |events|
    ensures from <= events[i].start <= events[i].end <= to
    decreases |events|
  {
    if i > 0 {
      ChainTail(events, from, to);
      hide Chained;
      ChainOrdered(events[1..], events[0].end, to, i - 1);
    } else if |events| > 1 {
      ChainTail(events, from, to);
      hide Chained;
      ChainOrdered(events[1..], events[0].end, to, 0);
    }
  }

  // ----- compaction, append, clear -----

  /** Drop whole chunks from the front until the rest fits. */
  ghost function Compact(w: Window): (r: Window)
    decreases |w.events|
  {
    if w.events == [] then w.(earliest := w.latest)
    else if w.bytes > w.maxBytes then Compact(DropFirst(w))
    else w
  }

  function DropFirst(w: Window): Window
    requires w.events != []
  {
    w.(bytes := w.bytes - |w.events[0].data|, earliest := w.events[0].end, events := w.events[1..])
  }

  /** The chunks that compaction lets go of. */
  ghost function Dropped(w: Window): (d: seq<Event>)
    decreases |w.events|
  {
    if w.events != [] && w.bytes > w.maxBytes
    then [w.events[0]] + Dropped(DropFirst(w))
    else []
  }

  function Pushed(w: Window, e: Event): Window {
    w.(latest := e.end, bytes := w.bytes + |e.data|, events := w.events + [e])
  }

  function Cleared(w: Window): Window {
    w.(bytes := 0, earliest := w.latest, events := [])
  }

  /** The event `appendOwned` builds, kept by owner `o`. */
  function Chunk(w: Window, channel: byte, data: seq<byte>, o: Owner): Event {
    Event(channel, w.latest, w.latest + |data|, data, Some(o))
  }

  lemma OnStreamTail(events: seq<Event>, stream: seq<byte>)
    requires AllOnStream(events, stream) && events != []
    ensures AllOnStream(events[1..], stream)
  {
  }

  lemma {:induction false} CompactKeeps(w: Window, stream: seq<byte>)
    requires WindowOk(w, stream)
    ensures WindowOk(Compact(w), stream) && Bounded(Compact(w))
    ensures Compact(w).latest == w.latest && Compact(w).maxBytes == w.maxBytes
    decreases |w.events|
  {
    ChainEnds(w.events, w.earliest, w.latest);
    hide Chained, AllOnStream;
    if w.events != [] && w.bytes > w.maxBytes {
      ChainTail(w.events, w.earliest, w.latest);
      ChainOrdered(w.events, w.earliest, w.latest, 0);
      OnStreamTail(w.events, stream);
      CompactKeeps(DropFirst(w), stream);
    }
  }

  /** Compaction only removes a prefix. */
  lemma {:induction false} CompactSplits(w: Window)
    ensures w.events == Dropped(w) + Compact(w).events
    decreases |w.events|
  {
    if w.events != [] && w.bytes > w.maxBytes {
      CompactSplits(DropFirst(w));
    }
  }

  /** A chunk survives compaction exactly when the output from its start on fits the window. */
  lemma {:induction false} RetainedExactly(w: Window, stream: seq<byte>, i: nat)
    requires WindowOk(w, stream) && i < |w.events|
    ensures |Dropped(w)| <= i <==> w.latest - w.events[i].start <= w.maxBytes
    decreases |w.events|
  {
    ChainOrdered(w.events, w.earliest, w.latest, i);
    ChainEnds(w.events, w.earliest, w.latest);
    if w.bytes > w.maxBytes {
      ChainTail(w.events, w.earliest, w.latest);
      ChainOrdered(w.events, w.earliest, w.latest, 0);
      OnStreamTail(w.events, stream);
      hide Chained, AllOnStream;
      if i > 0 { RetainedExactly(DropFirst(w), stream, i - 1); }
    }
  }

  /** One turn of the compaction. */
  lemma DropsOne(p: Pool, w: Window)
    requires w.events != [] && w.bytes > w.maxBytes && AllHeld(p, Dropped(w))
    ensures Compact(w) == Compact(DropFirst(w)) && Held(p, w.events[0])
    ensures AllHeld(Release(p, w.events[0]), Dropped(DropFirst(w)))
    ensures ReleaseAll(p, Dropped(w)) == ReleaseAll(Release(p, w.events[0]), Dropped(DropFirst(w)))
  {
    assert Dropped(w)[1..] == Dropped(DropFirst(w));
    HeldTail(p, Dropped(w));
  }

  lemma DropsNone(p: Pool, w: Window)
    requires w.events == [] || w.bytes <= w.maxBytes
    ensures Compact(w) == (if w.events == [] then w.(earliest := w.latest) else w) && ReleaseAll(p, Dropped(w)) == p
  {
  }

  lemma PushKeeps(w: Window, stream: seq<byte>, e: Event)
    requires WindowOk(w, stream)
    requires e.start == w.latest && e.end == w.latest + |e.data| <= MAX_SEQUENCE
    ensures WindowOk(Pushed(w, e), stream + e.data)
  {
    ChainAppend(w.events, w.earliest, w.latest, e);
    StreamGrows(w.events, stream, e.data);
    assert OnStream(e, stream + e.data);
  }

  lemma StreamGrows(events: seq<Event>, stream: seq<byte>, more: seq<byte>)
    requires AllOnStream(events, stream)
    ensures AllOnStream(events, stream + more)
  {
  }

  /** A new chunk survives its own append exactly when it fits the window by itself. */
  lemma {:induction false} LastChunkKept(w: Window, stream: seq<byte>)
    requires WindowOk(w, stream) && w.events != [] && w.maxBytes > 0
    ensures Compact(w).events != [] <==> |w.events[|w.events| - 1].data| <= w.maxBytes
    decreases |w.events|
  {
    ChainTail(w.events, w.earliest, w.latest);
    ChainInit(w.events, w.earliest, w.latest);
    ChainOrdered(w.events, w.earliest, w.latest, 0);
    ChainOrdered(w.events, w.earliest, w.latest, |w.events| - 1);
    hide Chained;
    if w.bytes > w.maxBytes && |w.events| > 1 {
      LastChunkKept(DropFirst(w), stream);
    } else if w.bytes > w.maxBytes {
      assert w.events[1..] == [] && w.bytes == |w.events[0].data|;
    }
  }

  lemma {:induction false} RefsReleased(p: Pool, gone: seq<Event>, o: Owner)
    requires Count(gone, o) <= Refs(p, o)
    ensures Refs(ReleaseAll(p, gone), o) == Refs(p, o) - Count(gone, o)
    decreases |gone|
  {
    if gone != [] { RefsReleased(Release(p, gone[0]), gone[1..], o); }
  }

  /** The counter of a chunk right after its append. Taken with one reference, for the window only, it is 0
      exactly when the chunk does not fit the window by itself: the event that `AppendOwned` returns then
      refers to a buffer that is already back in the pool. With the producer's reference it is never 0. */
  lemma AppendCounted(w: Window, stream: seq<byte>, p: Pool, channel: byte, data: seq<byte>, o: Owner, n: nat)
    requires WindowOk(w, stream) && w.maxBytes > 0 && data != [] && |data| + w.latest <= MAX_SEQUENCE
    requires AllHeld(p, w.events) && o !in p.owners && n > 0
    ensures var e := Chunk(w, channel, data, o);
      var v := Pushed(w, e);
      Refs(ReleaseAll(Take(p, o, e.start, data, n), Dropped(v)), o) == if |data| <= w.maxBytes then n else n - 1
  {
    var e := Chunk(w, channel, data, o);
    var v := Pushed(w, e);
    PushKeeps(w, stream, e);
    LastChunkKept(v, stream + data);
    CompactSplits(v);
    assert Count(w.events, o) <= Refs(p, o);
    CountConcat(w.events, [e], o);
    assert Count([e], o) == 1 by { assert [e][1..] == []; }
    var kept := Compact(v).events;
    CountConcat(Dropped(v), kept, o);
    hide Compact, Dropped, WindowOk, ReleaseAll;
    if kept != [] {
      assert kept[|kept| - 1] == (Dropped(v) + kept)[|v.events| - 1] == e;
      CountMember(kept, |kept| - 1);
    } else {
      assert Dropped(v) == v.events;
    }
    RefsReleased(Take(p, o, e.start, data, n), Dropped(v), o);
  }

  // ----- every run of appends, clears and limit changes -----

  datatype Change = Append(channel: byte, data: seq<byte>, owner: Owner) | Clear | SetLimit(maxBytes: nat)

  ghost function Changed(w: Window, c: Change): Window {
    match c
    case Append(ch, data, o) =>
      if data == [] || |data| + w.latest > MAX_SEQUENCE then w else Compact(Pushed(w, Chunk(w, ch, data, o)))
    case Clear => Cleared(w)
    case SetLimit(n) => if n == 0 then w else Compact(w.(maxBytes := n))
  }

  ghost function Extended(stream: seq<byte>, c: Change): seq<byte> {
    if c.Append? && |c.data| + |stream| <= MAX_SEQUENCE then stream + c.data else stream
  }

  lemma ChangeRefines(w: Window, stream: seq<byte>, c: Change)
    requires WindowOk(w, stream) && Bounded(w)
    ensures WindowOk(Changed(w, c), Extended(stream, c)) && Bounded(Changed(w, c))
  {
    match c
    case Append(ch, data, o) =>
      if data == [] {
        assert stream + data == stream;
      } else if |data| + w.latest <= MAX_SEQUENCE {
        PushKeeps(w, stream, Chunk(w, ch, data, o));
        CompactKeeps(Pushed(w, Chunk(w, ch, data, o)), stream + data);
      }
    case Clear =>
    case SetLimit(n) =>
      if n > 0 { CompactKeeps(w.(maxBytes := n), stream); }
  }

  ghost function RunChanges(w: Window, cs: seq<Change>): Window
    decreases |cs|
  {
    if cs == [] then w else RunChanges(Changed(w, cs[0]), cs[1..])
  }

  ghost function RunStream(stream: seq<byte>, cs: seq<Change>): seq<byte>
    decreases |cs|
  {
    if cs == [] then stream else RunStream(Extended(stream, cs[0]), cs[1..])
  }

  /** After any run the window spells a suffix of everything ever written, within its limit. */
  lemma {:induction false} HistoryRefinesStream(w: Window, stream: seq<byte>, cs: seq<Change>)
    requires WindowOk(w, stream) && Bounded(w)
    ensures var r, all := RunChanges(w, cs), RunStream(stream, cs);
      && WindowOk(r, all) && Bounded(r)
      && Bytes(r.events) == all[r.earliest..] && |Bytes(r.events)| <= r.maxBytes
    decreases |cs|
  {
    if cs == [] {
      ChainSpellsStream(w.events, w.earliest, w.latest, stream);
    } else {
      ChangeRefines(w, stream, cs[0]);
      HistoryRefinesStream(Changed(w, cs[0]), Extended(stream, cs[0]), cs[1..]);
    }
  }

  // ----- replay -----

  function Max(a: nat, b: nat): nat { if a < b then b else a }

  function Min(a: nat, b: nat): nat { if a < b then a else b }

  /** The part of `e` between two positions; it shares the owner of `e`. */
  function Slice(e: Event, start: nat, end: nat): Event
    requires e.start <= start <= end <= e.end == e.start + |e.data|
  {
    e.(start := start, end := end, data := e.data[start - e.start..end - e.start])
  }

  /** The part of one event between two positions, if any. */
  function Part(e: Event, from: nat, to: nat): seq<Event> {
    var start, end := Max(from, e.start), Min(to, e.end);
    if start < end && e.end == e.start + |e.data| then [Slice(e, start, end)] else []
  }

  /** The non-empty parts of the events that lie between `from` and `to`. */
  function Between(events: seq<Event>, from: nat, to: nat): seq<Event>
    decreases |events|
  {
    if events == [] then []
    else Between(events[..|events| - 1], from, to) + Part(events[|events| - 1], from, to)
  }

  /** The end of a replay that starts at `from`; a zero limit means no limit. */
  function ReplayEnd(latest: nat, from: nat, limit: nat): nat {
    if limit > 0 && from + limit < latest then from + limit else latest
  }

  /** The part continues where the earlier parts stop. */
  lemma PartNext(e: Event, base: nat, from: nat, to: nat)
    requires e.end == e.start + |e.data| && base <= from <= to && base <= e.start
    ensures var part, at, next := Part(e, from, to), Max(from, Min(e.start, to)), Max(from, Min(e.end, to));
      if part == [] then at == next
      else |part| == 1 && part[0].start == at && part[0].end == next == at + |part[0].data|
  {
  }

  /** The parts of a chain run without gap from `from` to wherever the chain or `to` stops. */
  lemma {:induction false} BetweenChained(events: seq<Event>, base: nat, latest: nat, from: nat, to: nat)
    requires Chained(events, base, latest) && base <= from <= to
    ensures Chained(Between(events, from, to), from, Max(from, Min(latest, to)))
    decreases |events|
  {
    ChainEnds(events, base, latest);
    if events == [] {
      ChainEmpty(from);
    } else {
      var n := |events| - 1;
      var e := events[n];
      ChainOrdered(events, base, latest, n);
      ChainInit(events, base, latest);
      var front, part := Between(events[..n], from, to), Part(e, from, to);
      assert Between(events, from, to) == front + part;
      PartNext(e, base, from, to);
      hide *;
      BetweenChained(events[..n], base, e.start, from, to);
      if part == [] {
        assert front + part == front;
      } else {
        assert part == [part[0]];
        ChainAppend(front, from, Max(from, Min(e.start, to)), part[0]);
      }
    }
  }

  lemma {:induction false} BetweenOnStream(events: seq<Event>, from: nat, to: nat, stream: seq<byte>)
    requires AllOnStream(events, stream)
    ensures AllOnStream(Between(events, from, to), stream)
    decreases |events|
  {
    if events != [] {
      var n := |events| - 1;
      var e := events[n];
      assert OnStream(e, stream);
      BetweenOnStream(events[..n], from, to, stream);
      if Part(e, from, to) != [] {
        SliceOnStream(e, Max(from, e.start), Min(to, e.end), stream);
      }
    }
  }

  lemma SliceOnStream(e: Event, start: nat, end: nat, stream: seq<byte>)
    requires e.start <= start <= end <= e.end == e.start + |e.data| && OnStream(e, stream)
    ensures OnStream(Slice(e, start, end), stream)
  {
    SliceOfSlice(stream, e.start, e.end, start - e.start, end - e.start);
  }

  /** Once a chain has passed `to`, its further events add nothing. */
  lemma {:induction false} BetweenPast(events: seq<Event>, base: nat, latest: nat, from: nat, to: nat, n: nat)
    requires Chained(events, base, latest) && 0 < n <= |events| && to <= events[n - 1].end
    ensures Between(events, from, to) == Between(events[..n], from, to)
    decreases |events|
  {
    if n == |events| {
      assert events[..n] == events;
    } else {
      var m := |events| - 1;
      PastStart(events, base, latest, n);
      ChainInit(events, base, latest);
      assert Part(events[m], from, to) == [];
      assert Between(events, from, to) == Between(events[..m], from, to) + [];
      hide *;
      BetweenPast(events[..m], base, events[m].start, from, to, n);
      assert events[..m][..n] == events[..n];
    }
  }

  lemma {:induction false} PastStart(events: seq<Event>, base: nat, latest: nat, n: nat)
    requires Chained(events, base, latest) && 0 < n < |events|
    ensures events[n - 1].end <= events[|events| - 1].start
    decreases |events|
  {
    var m := |events| - 1;
    ChainInit(events, base, latest);
    ChainOrdered(events[..m], base, events[m].start, n - 1);
  }

  /** The whole contract of `Replay`: a gap error exactly below the window, and otherwise exactly
      `stream[from..min(latest, from + limit)]`, or up to `latest` when there is no limit. */
  lemma ReplayExact(w: Window, stream: seq<byte>, from: nat, limit: nat)
    requires WindowOk(w, stream)
    ensures var r := ReplayOf(w, from, limit);
      && (r.Gap? <==> from < w.earliest)
      && (r.InvalidCursor? <==> from > w.latest)
      && (r.Replayed? ==>
            && r.to == ReplayEnd(w.latest, from, limit)
            && Bytes(r.events) == stream[from..r.to]
            && Chained(r.events, from, r.to) && AllOnStream(r.events, stream))
  {
    if w.earliest <= from <= w.latest {
      var to := ReplayEnd(w.latest, from, limit);
      BetweenChained(w.events, w.earliest, w.latest, from, to);
      BetweenOnStream(w.events, from, to, stream);
      ChainSpellsStream(Between(w.events, from, to), from, to, stream);
    }
  }

  function ReplayOf(w: Window, from: nat, limit: nat): Replay {
    if from < w.earliest then Gap(from, w.earliest, w.latest)
    else if from > w.latest then InvalidCursor
    else
      var to := ReplayEnd(w.latest, from, limit);
      Replayed(from, to, w.earliest, w.latest, Between(w.events, from, to))
  }

  /** Every slice of a replay reads the buffer of one of the window's chunks. */
  lemma {:induction false} BetweenReadable(p: Pool, events: seq<Event>, from: nat, to: nat)
    requires AllReadable(p, events)
    ensures AllReadable(p, Between(events, from, to))
    decreases |events|
  {
    if events != [] {
      var n := |events| - 1;
      var e := events[n];
      assert Readable(p, e);
      BetweenReadable(p, events[..n], from, to);
      if Part(e, from, to) != [] {
        SliceReadable(p, e, Max(from, e.start), Min(to, e.end));
      }
    }
  }

  lemma SliceReadable(p: Pool, e: Event, start: nat, end: nat)
    requires e.start <= start <= end <= e.end == e.start + |e.data|
    requires Readable(p, e)
    ensures Readable(p, Slice(e, start, end))
  {
    if e.owner.Some? {
      var b := p.owners[e.owner.value];
      SliceOfSlice(b.bytes, e.start - b.base, e.end - b.base, start - e.start, end - e.start);
    }
  }

  // ----- the running code -----

  const BLANK := Event(0, 0, 0, [], None)

  /** `uint64` arithmetic. */
  function Wrap64(x: int): nat { x % (MAX_SEQUENCE + 1) }

  /** `kept` are copies of `events` with private bytes. */
  ghost predicate Clones(kept: seq<Event>, events: seq<Event>) {
    |kept| == |events| && forall i :: 0 <= i < |kept| ==> kept[i] == events[i].(owner := None)
  }

  /** The checks `Restore` makes along the list; yields the position after the last event. */
  function Scan(events: seq<Event>, at: nat): Option<nat>
    decreases |events|
  {
    if events == [] then Some(at)
    else if events[0].start != at || Wrap64(events[0].end - events[0].start) != |events[0].data| then None
    else Scan(events[1..], events[0].end)
  }

  ghost predicate InRange(events: seq<Event>) {
    forall i :: 0 <= i < |events| ==> events[i].start <= MAX_SEQUENCE && events[i].end <= MAX_SEQUENCE
  }

  lemma ChainCons(events: seq<Event>, from: nat, to: nat)
    requires events != [] && events[0].start == from && events[0].end == from + |events[0].data|
    requires Chained(events[1..], events[0].end, to)
    ensures Chained(events, from, to)
  {
  }

  lemma {:induction false} ScanWraps(events: seq<Event>, at: nat)
    requires InRange(events) && at <= MAX_SEQUENCE
    ensures Scan(events, at).Some? ==> Scan(events, at).value == Wrap64(at + |Bytes(events)|)
    ensures Scan(events, at).Some? && at + |Bytes(events)| <= MAX_SEQUENCE
            ==> Chained(events, at, Scan(events, at).value)
    decreases |events|
  {
    if events != [] && Scan(events, at).Some? {
      var e, rest := events[0], |Bytes(events[1..])|;
      ScanWraps(events[1..], e.end);
      if at + |Bytes(events)| <= MAX_SEQUENCE { ChainCons(events, at, Scan(events, at).value); }
      hide Chained;
      assert |Bytes(events)| == |e.data| + rest;
      assert e.end == at + |e.data| || e.end == at + |e.data| - (MAX_SEQUENCE + 1);
      WrapShift(at + |e.data| + rest);
    }
  }

  lemma WrapShift(x: int)
    ensures Wrap64(x - (MAX_SEQUENCE + 1)) == Wrap64(x)
  {
  }

  lemma {:induction false} ChainScans(events: seq<Event>, at: nat, to: nat)
    requires Chained(events, at, to) && to <= MAX_SEQUENCE
    ensures Scan(events, at) == Some(to) && |Bytes(events)| == to - at
    decreases |events|
  {
    if events != [] {
      ChainOrdered(events, at, to, 0);
      ChainTail(events, at, to);
      hide Chained;
      ChainScans(events[1..], events[0].end, to);
    }
  }

  /** Wrapped comparisons still accept exactly the real chains. */
  lemma ScanIsChain(events: seq<Event>, at: nat, to: nat)
    requires InRange(events) && at <= to <= MAX_SEQUENCE && |Bytes(events)| <= MAX_SEQUENCE
    ensures Scan(events, at) == Some(to) <==> Chained(events, at, to)
    ensures Chained(events, at, to) ==> |Bytes(events)| == to - at
  {
    ScanWraps(events, at);
    if Chained(events, at, to) { ChainScans(events, at, to); }
  }

  lemma ClonesChained(kept: seq<Event>, events: seq<Event>, from: nat, to: nat)
    requires Clones(kept, events) && Chained(events, from, to)
    ensures Chained(kept, from, to)
  {
  }

  method ScanEvents(events: seq<Event>, from: nat)
    returns (ok: bool, at: nat, bytes: nat, kept: seq<Event>)
    ensures Scan(events, from) == if ok then Some(at) else None
    ensures ok ==> bytes == |Bytes(events)| && Clones(kept, events)
  {
    at, bytes, kept := from, 0, [];
    var i := 0;
    while i < |events|
      invariant 0 <= i <= |events|
      invariant Clones(kept, events[..i])
      invariant bytes + |Bytes(events[i..])| == |Bytes(events)|
      invariant Scan(events[i..], at) == Scan(events, from)
    {
      var e := events[i];
      assert events[i..][0] == e && events[i..][1..] == events[i + 1..];
      if e.start != at || Wrap64(e.end - e.start) != |e.data| {
        return false, at, bytes, kept;
      }
      kept, bytes, at, i := kept + [e.(owner := None)], bytes + |e.data|, e.end, i + 1;
    }
    assert events[i..] == [];
    ok := true;
  }

  class History {
    var maxBytes: nat
    var bytes: int
    var earliest: nat
    var latest: nat
    var events: seq<Event>
    /** Slots before `head` are already dropped. */
    var head: nat

    ghost predicate Valid()
      reads this
    {
      && head <= |events| && latest <= MAX_SEQUENCE
      && Chained(events[head..], earliest, latest)
    }

    ghost function State(): Window
      reads this
      requires head <= |events|
    {
      Window(maxBytes, bytes, earliest, latest, events[head..])
    }

    constructor (limit: nat)
      ensures Valid() && head == 0 && State() == Window(limit, 0, 0, 0, [])
    {
      maxBytes, bytes, earliest, latest, events, head := limit, 0, 0, 0, [], 0;
    }

    /** `Restore` compares wrapped 64-bit differences, yet accepts exactly the real chains: a chain
        that wrapped could not reach a `latest` at or after `earliest`. */
    static method Restore(limit: nat, earliest: nat, latest: nat, events: seq<Event>) returns (h: History?)
      requires earliest <= MAX_SEQUENCE && latest <= MAX_SEQUENCE && |Bytes(events)| <= MAX_SEQUENCE
      requires InRange(events)
      ensures h != null <==>
        limit > 0 && earliest <= latest && Chained(events, earliest, latest) && latest - earliest <= limit
      ensures h != null ==> fresh(h) && h.Valid()
      ensures h != null ==> h.State() == Window(limit, latest - earliest, earliest, latest, h.State().events)
      ensures h != null ==> Clones(h.State().events, events)
    {
      hide Chained, Scan, Clones, Bytes, InRange;
      if limit == 0 || earliest > latest {
        return null;
      }
      var ok, at, bytes, kept := ScanEvents(events, earliest);
      ScanIsChain(events, earliest, latest);
      if !ok || at != latest || bytes > limit {
        return null;
      }
      ClonesChained(kept, events, earliest, latest);
      h := new History(limit);
      h.bytes, h.earliest, h.latest, h.events := bytes, earliest, latest, kept;
      assert h.State().events == kept;
    }

    method CompactLocked(pool: BufferPool)
      requires Valid() && AllHeld(pool.state, Dropped(State()))
      modifies this, pool
      ensures Valid() && State() == Compact(old(State())) && maxBytes == old(maxBytes)
      ensures pool.state == ReleaseAll(old(pool.state), Dropped(old(State())))
      ensures old(pool.Valid()) ==> pool.Valid()
    {
      ChainEmpty(latest);
      hide Chained, Compact, Dropped, ReleaseAll, AllHeld, Release;
      while bytes > maxBytes && head < |events|
        invariant Valid() && maxBytes == old(maxBytes) && latest == old(latest) && (old(pool.Valid()) ==> pool.Valid())
        invariant Compact(State()) == Compact(old(State()))
        invariant AllHeld(pool.state, Dropped(State()))
        invariant ReleaseAll(pool.state, Dropped(State())) == ReleaseAll(old(pool.state), Dropped(old(State())))
        decreases |events| - head
      {
        var event := events[head];
        ghost var before, w := pool.state, State();
        assert w.events[0] == event;
        ChainTail(w.events, w.earliest, w.latest);
        DropsOne(before, w);
        bytes := bytes - |event.data|;
        earliest := event.end;
        events := events[head := BLANK];
        head := head + 1;
        pool.DropRef(event);
        assert State().events == w.events[1..];
        assert State() == DropFirst(w);
      }
      DropsNone(pool.state, State());
      if head == |events| {
        earliest := latest;
        events := [];
        head := 0;
        assert events[head..] == [];
      }
    }

    /** `appendOwned`: the new chunk gets one reference for the window and, when the producer asks
        for it, one more that the producer must release. */
    method Append(pool: BufferPool, channel: byte, data: seq<byte>, producerReference: bool)
      returns (r: Appended, ghost o: Owner)
      requires Valid() && pool.Valid() && AllHeld(pool.state, State().events)
      modifies this, pool
      ensures Valid() && pool.Valid()
      ensures r.SequenceFull? <==> |data| > MAX_SEQUENCE - old(latest)
      ensures data == [] || r.SequenceFull? ==> State() == old(State()) && pool.state == old(pool.state)
      ensures data == [] ==> r == Added(Event(channel, latest, latest, [], None))
      ensures data != [] && r.Added? ==>
        var e, n := Chunk(old(State()), channel, data, o), if producerReference then 2 else 1;
        && o !in old(pool.state).owners
        && r.event == e
        && State() == Compact(Pushed(old(State()), e))
        && AllHeld(Take(old(pool.state), o, e.start, data, n), Dropped(Pushed(old(State()), e)))
        && pool.state == ReleaseAll(Take(old(pool.state), o, e.start, data, n), Dropped(Pushed(old(State()), e)))
    {
      hide Compact, Dropped, ReleaseAll, AllHeld, Held;
      o := 0;
      if |data| == 0 {
        return Added(Event(channel, latest, latest, [], None)), o;
      }
      if |data| > MAX_SEQUENCE - latest {
        return SequenceFull, o;
      }
      var owner := pool.Acquire(latest, data, if producerReference then 2 else 1);
      o := owner;
      var event := Event(channel, latest, latest + |data|, data, Some(owner));
      ghost var w := State();
      latest := event.end;
      bytes := bytes + |data|;
      events := events + [event];
      assert State().events == w.events + [event];
      assert State() == Pushed(w, event);
      ChainAppend(w.events, w.earliest, w.latest, event);
      hide Chained;
      DroppedHeld(old(pool.state), pool.state, w.events, event, State());
      CompactLocked(pool);
      r := Added(event);
    }

    method SetLimit(pool: BufferPool, limit: nat) returns (ok: bool)
      requires Valid() && AllHeld(pool.state, State().events)
      modifies this, pool
      ensures Valid() && ok == (limit != 0)
      ensures State() == if limit == 0 then old(State()) else Compact(old(State()).(maxBytes := limit))
      ensures pool.state == if limit == 0 then old(pool.state)
                            else ReleaseAll(old(pool.state), Dropped(old(State()).(maxBytes := limit)))
      ensures old(pool.Valid()) ==> pool.Valid()
    {
      if limit == 0 {
        return false;
      }
      ghost var w := State();
      maxBytes := limit;
      DroppedPrefix(State());
      PrefixHeld(pool.state, State().events, |Dropped(State())|);
      assert State().events[..|Dropped(State())|] == Dropped(State());
      CompactLocked(pool);
      ok := true;
    }

    method Clear(pool: BufferPool) returns (at: nat)
      requires Valid() && AllHeld(pool.state, State().events)
      modifies this, pool
      ensures Valid() && State() == Cleared(old(State())) && at == latest
      ensures pool.state == ReleaseAll(old(pool.state), old(State()).events)
    {
      var i, live := 0, events[head..];
      assert live[0..] == live;
      while i < |live|
        modifies pool
        invariant i <= |live|
        invariant AllHeld(pool.state, live[i..])
        invariant ReleaseAll(pool.state, live[i..]) == ReleaseAll(old(pool.state), live)
      {
        HeldTail(pool.state, live[i..]);
        assert live[i..][0] == live[i] && live[i..][1..] == live[i + 1..];
        pool.DropRef(live[i]);
        i := i + 1;
      }
      assert live[i..] == [];
      events, head, bytes, earliest := [], 0, 0, latest;
      at := latest;
    }

    method ReplayOwned(pool: BufferPool, from: nat, limit: nat) returns (r: Replay)
      requires Valid() && AllReadable(pool.state, State().events) && PoolOk(pool.state)
      modifies pool
      ensures Valid() && r == ReplayOf(State(), from, limit)
      ensures r.Replayed? ==> EachHeld(old(pool.state), r.events)
      ensures r.Replayed? ==> pool.state == RetainAll(old(pool.state), r.events)
      ensures !r.Replayed? ==> pool.state == old(pool.state)
    {
      if from < earliest {
        return Gap(from, earliest, latest);
      }
      if from > latest {
        return InvalidCursor;
      }
      var collected, to := CollectSlices(pool, events[head..], earliest, latest, from, limit);
      r := Replayed(from, to, earliest, latest, collected);
    }
  }

  /** The loop of `ReplayOwned` over the live events. */
  method CollectSlices(pool: BufferPool, live: seq<Event>, ghost earliest: nat, ghost latest: nat, from: nat, limit: nat)
    returns (collected: seq<Event>, to: nat)
    requires Chained(live, earliest, latest) && earliest <= from <= latest
    requires PoolOk(pool.state) && AllReadable(pool.state, live)
    modifies pool`state
    ensures to == ReplayEnd(latest, from, limit) && collected == Between(live, from, to)
    ensures EachHeld(old(pool.state), collected)
    ensures pool.state == RetainAll(old(pool.state), collected)
  {
    collected, to := [], from;
    var remaining, i := limit, 0;
    ReplayStarts(pool.state, live, earliest, latest, from, limit);
    hide *;
    while i < |live|
      invariant i <= |live| && ReplayAt(old(pool.state), live, earliest, latest, from, limit, i, remaining, collected, to)
      invariant pool.state == RetainAll(old(pool.state), collected)
    {
      var event := live[i];
      ReplayTurn(old(pool.state), live, earliest, latest, from, limit, i, remaining, collected, to);
      var start := Max(from, event.start);
      i := i + 1;
      if event.end > start {
        var end := CutEnd(event.end, start, limit, remaining);
        var retained := Slice(event, start, end);
        pool.AddRef(retained);
        collected, to := collected + [retained], end;
        if limit > 0 {
          remaining := remaining - (end - start);
          if remaining == 0 {
            return;
          }
        }
      }
    }
    ReplayEnds(old(pool.state), live, earliest, latest, from, limit, remaining, collected, to);
  }

  function At(live: seq<Event>, earliest: nat, i: nat): nat
    requires i <= |live|
  {
    if i == 0 then earliest else live[i - 1].end
  }

  /** The state of the replay loop before event `i`. */
  ghost predicate ReplayAt(p: Pool, live: seq<Event>, earliest: nat, latest: nat, from: nat, limit: nat,
                           i: nat, remaining: nat, collected: seq<Event>, to: nat)
    requires i <= |live|
  {
    var at, stop := At(live, earliest, i), ReplayEnd(latest, from, limit);
    && collected == Between(live[..i], from, stop) && EachHeld(p, collected)
    && to == Max(from, Min(at, stop))
    && (limit > 0 ==> remaining > 0 && Max(at, from) + remaining == from + limit)
  }

  lemma ReplayStarts(p: Pool, live: seq<Event>, earliest: nat, latest: nat, from: nat, limit: nat)
    requires Chained(live, earliest, latest) && earliest <= from <= latest
    ensures ReplayAt(p, live, earliest, latest, from, limit, 0, limit, [], from)
    ensures RetainAll(p, []) == p
  {
  }

  lemma ReplayEnds(p: Pool, live: seq<Event>, earliest: nat, latest: nat, from: nat, limit: nat,
                   remaining: nat, collected: seq<Event>, to: nat)
    requires Chained(live, earliest, latest) && earliest <= from <= latest
    requires ReplayAt(p, live, earliest, latest, from, limit, |live|, remaining, collected, to)
    ensures to == ReplayEnd(latest, from, limit) && collected == Between(live, from, to) && EachHeld(p, collected)
  {
    assert live[..|live|] == live;
  }

  /** One turn of the replay loop. */
  lemma ReplayTurn(p: Pool, live: seq<Event>, earliest: nat, latest: nat, from: nat, limit: nat,
                   i: nat, remaining: nat, collected: seq<Event>, to: nat)
    requires Chained(live, earliest, latest) && earliest <= from <= latest && i < |live|
    requires PoolOk(p) && AllReadable(p, live)
    requires ReplayAt(p, live, earliest, latest, from, limit, i, remaining, collected, to)
    ensures live[i].end <= Max(from, live[i].start) ==>
      ReplayAt(p, live, earliest, latest, from, limit, i + 1, remaining, collected, to)
    ensures live[i].end > Max(from, live[i].start) ==>
      var start := Max(from, live[i].start);
      var end := CutEnd(live[i].end, start, limit, remaining);
      && live[i].start <= start < end <= live[i].end == live[i].start + |live[i].data|
      && var more := collected + [Slice(live[i], start, end)];
      && Held(RetainAll(p, collected), Slice(live[i], start, end)) && EachHeld(p, more)
      && RetainAll(p, more) == Retain(RetainAll(p, collected), Slice(live[i], start, end))
      && (limit > 0 ==> end - start <= remaining)
      && (if limit > 0 && remaining == end - start
          then end == ReplayEnd(latest, from, limit) && more == Between(live, from, end)
          else ReplayAt(p, live, earliest, latest, from, limit, i + 1,
                        if limit > 0 then remaining - (end - start) else remaining, more, end))
  {
    hide Chained, RetainAll, Retain, Held, EachHeld, Between, AllReadable, PoolOk;
    var stop, at, start := ReplayEnd(latest, from, limit), At(live, earliest, i), Max(from, live[i].start);
    LiveEvent(live, earliest, latest, i, from, stop);
    if live[i].end > start {
      var end := CutEnd(live[i].end, start, limit, remaining);
      CutIsStop(at, live[i].end, latest, from, limit, remaining);
      SliceHeld(p, live, i, start, end);
      RetainMore(p, collected, Slice(live[i], start, end));
      if limit > 0 && remaining == end - start {
        BetweenPast(live, earliest, latest, from, stop, i + 1);
      }
    }
  }

  /** What one turn of the replay loop knows about its event. */
  lemma LiveEvent(live: seq<Event>, earliest: nat, latest: nat, i: nat, from: nat, to: nat)
    requires Chained(live, earliest, latest) && i < |live|
    ensures earliest <= live[i].start <= live[i].end <= latest && live[i].end == live[i].start + |live[i].data|
    ensures live[i].start == if i == 0 then earliest else live[i - 1].end
    ensures var start, end := Max(from, live[i].start), Min(to, live[i].end);
      Between(live[..i + 1], from, to) ==
        Between(live[..i], from, to) + if start < end then [Slice(live[i], start, end)] else []
  {
    ChainOrdered(live, earliest, latest, i);
    assert live[..i + 1][..i] == live[..i];
    assert i > 0 ==> live[i - 1].end == live[i].start;
  }

  lemma SliceHeld(p: Pool, live: seq<Event>, i: nat, start: nat, end: nat)
    requires i < |live| && PoolOk(p) && AllReadable(p, live)
    requires live[i].start <= start <= end <= live[i].end == live[i].start + |live[i].data|
    ensures Held(p, Slice(live[i], start, end))
  {
  }

  lemma RetainMore(p: Pool, done: seq<Event>, e: Event)
    requires EachHeld(p, done) && Held(p, e)
    ensures EachHeld(p, done + [e]) && Held(RetainAll(p, done), e)
    ensures RetainAll(p, done + [e]) == Retain(RetainAll(p, done), e)
  {
  }

  /** Where the slice of an event ends when `remaining` bytes are still allowed. */
  function CutEnd(end: nat, start: nat, limit: nat, remaining: nat): nat
    requires start <= end
  {
    if limit > 0 && end - start > remaining then start + remaining else end
  }

  /** Counting down the remaining bytes cuts at the end of the replay and nowhere else. */
  lemma CutIsStop(at: nat, end: nat, latest: nat, from: nat, limit: nat, remaining: nat)
    requires at <= end <= latest && Max(at, from) < end
    requires limit > 0 ==> remaining > 0 && Max(at, from) + remaining == from + limit
    ensures var start, stop := Max(at, from), ReplayEnd(latest, from, limit);
      var cut := CutEnd(end, start, limit, remaining);
      && cut == Min(stop, end) && start < cut
      && (limit > 0 ==> remaining >= cut - start)
      && (limit > 0 && remaining == cut - start ==> cut == stop <= end)
      && (limit > 0 && remaining > cut - start ==> cut == end && end + (remaining - (cut - start)) == from + limit)
  {
  }

  lemma {:induction false} DroppedPrefix(w: Window)
    ensures Dropped(w) <= w.events
    decreases |w.events|
  {
    if w.events != [] && w.bytes > w.maxBytes {
      DroppedPrefix(DropFirst(w));
    }
  }

  lemma PrefixHeld(p: Pool, events: seq<Event>, n: nat)
    requires AllHeld(p, events) && n <= |events|
    ensures AllHeld(p, events[..n])
  {
    forall o ensures Count(events[..n], o) <= Refs(p, o) {
      CountConcat(events[..n], events[n..], o);
      assert events[..n] + events[n..] == events;
      assert Count(events, o) <= Refs(p, o);
    }
  }

  lemma DroppedHeld(p: Pool, q: Pool, events: seq<Event>, e: Event, w: Window)
    requires AllHeld(p, events) && e.owner.Some? && e.owner.value !in p.owners
    requires q == Take(p, e.owner.value, e.start, e.data, Refs(q, e.owner.value)) && Refs(q, e.owner.value) > 0
    requires w.events == events + [e]
    ensures AllHeld(q, Dropped(w))
  {
    DroppedPrefix(w);
    forall o ensures Count(events + [e], o) <= Refs(q, o) {
      CountConcat(events, [e], o);
      assert Count(events, o) <= Refs(p, o);
    }
    PrefixHeld(q, w.events, |Dropped(w)|);
    assert w.events[..|Dropped(w)|] == Dropped(w);
  }
}
