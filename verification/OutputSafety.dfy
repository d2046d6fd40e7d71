/** The session invariant holds in every interleaving of capture, attach, read, detach, release and
    clear steps. */
module OutputSafety {
  import opened Basics
  import opened Events
  import opened OutputHistory
  import opened OutputFanout
  import opened OutputRing
  import opened OutputSession
  import opened OutputRefs

  // ----- compaction of the ring -----

  lemma {:induction false} TrimCovers(attachments: map<string, Cursor>, ring: seq<Event>, id: string, q: nat)
    requires id in attachments && Reading(attachments[id]) && attachments[id].cursor <= q
    requires Covered(ring, q)
    ensures Covered(Trim(attachments, ring), q)
    decreases |ring|
  {
    if ring != [] && !Needed(attachments, ring[0]) {
      assert ring == [ring[0]] + ring[1..];
      CoveredConcat([ring[0]], ring[1..], q);
      CoveredOne(ring[0], q);
      TrimCovers(attachments, ring[1..], id, q);
    }
  }

  lemma {:induction false} TrimNeeded(attachments: map<string, Cursor>, ring: seq<Event>, t: Tape)
    requires RingOk(ring, t)
    ensures RingOk(Trim(attachments, ring), t) && AllNeeded(attachments, Trim(attachments, ring))
    decreases |ring|
  {
    if ring != [] {
      if Needed(attachments, ring[0]) {
        var id :| id in attachments && Reading(attachments[id]) && attachments[id].cursor < ring[0].end;
        forall i | 0 <= i < |ring| ensures Needed(attachments, ring[i]) {
          assert Piece(ring[i], t) && ring[0].end <= ring[i].end;
        }
      } else {
        SubringOk(ring, t, 1, |ring|);
        TrimNeeded(attachments, ring[1..], t);
      }
    }
  }

  /** Whatever a reader still has to read survives compaction. */
  lemma TrimCoversAll(attachments: map<string, Cursor>, ring: seq<Event>, id: string, to: nat)
    requires id in attachments && Reading(attachments[id])
    requires CoveredAll(ring, attachments[id].cursor, to)
    ensures CoveredAll(Trim(attachments, ring), attachments[id].cursor, to)
  {
    forall q | attachments[id].cursor <= q < to ensures Covered(Trim(attachments, ring), q) {
      TrimCovers(attachments, ring, id, q);
    }
  }

  // ----- one cursor -----

  /** A cursor that is offered the piece it waits for. */
  lemma OfferKeeps(c: Cursor, from: nat, got: seq<byte>, t: Tape, ring: seq<Event>, limit: nat, e: Event)
    requires CursorOk(c, from, got, t, ring, e.start, limit)
    requires RingOk(ring, t) && Piece(e, t)
    ensures CursorOk(Offered(c, e), from, got, t, Insert(ring, e), e.end, limit)
  {
    if c.state == Attached && !Overflows(c, e) {
      var c' := Enqueued(c, e);
      forall q | c'.cursor <= q < c'.end ensures Covered(Insert(ring, e), q) {
        InsertCovers(ring, e, t, q);
        if q < e.start { assert Covered(ring, q); }
      }
      if !c.placed { assert t.stream[from..from] == []; }
    }
  }

  lemma InsertKeeps(c: Cursor, from: nat, got: seq<byte>, t: Tape, ring: seq<Event>, due: nat, limit: nat, e: Event)
    requires CursorOk(c, from, got, t, ring, due, limit)
    requires RingOk(ring, t) && Piece(e, t)
    ensures CursorOk(c, from, got, t, Insert(ring, e), due, limit)
  {
    if Reading(c) {
      forall q | c.cursor <= q < c.end ensures Covered(Insert(ring, e), q) {
        assert Covered(ring, q);
        InsertCovers(ring, e, t, q);
      }
    }
  }

  lemma TrimKeeps(f: Fan, id: string, from: nat, got: seq<byte>, t: Tape, due: nat, limit: nat)
    requires id in f.attachments && CursorOk(f.attachments[id], from, got, t, f.ring, due, limit)
    ensures CursorOk(f.attachments[id], from, got, t, Compacted(f).ring, due, limit)
  {
    if Reading(f.attachments[id]) {
      TrimCoversAll(f.attachments, f.ring, id, f.attachments[id].end);
    }
  }

  /** A reader that has output to read finds the element that holds its next byte; the element never
      reaches past what has been queued for it. */
  lemma PollFinds(f: Fan, id: string, from: nat, got: seq<byte>, t: Tape, due: nat, limit: nat)
    requires id in f.attachments && CursorOk(f.attachments[id], from, got, t, f.ring, due, limit)
    requires RingOk(f.ring, t)
    requires Reading(f.attachments[id]) && f.attachments[id].cursor < f.attachments[id].end
    ensures var c, r := f.attachments[id], Poll(f, id);
      && r.Delivered? && r.event.start == c.cursor < r.event.end <= c.end
      && r.event.data == t.stream[c.cursor..r.event.end]
      && exists x :: x in f.ring && Piece(x, t) && x.start <= c.cursor && x.end == r.event.end
                     && r.event == Slice(x, c.cursor, x.end)
  {
    var c := f.attachments[id];
    assert Covered(f.ring, c.cursor);
    FindIsCover(f.ring, t, c.cursor);
    var x := Find(f.ring, c.cursor).value;
    assert x in f.ring;
    SliceOnStream(x, c.cursor, x.end, t.stream);
  }

  lemma TakeKeeps(f: Fan, id: string, from: nat, got: seq<byte>, t: Tape, due: nat, limit: nat)
    requires id in f.attachments && CursorOk(f.attachments[id], from, got, t, f.ring, due, limit)
    requires RingOk(f.ring, t) && Poll(f, id).Delivered?
    ensures Poll(f, id).event.end - f.attachments[id].cursor <= f.attachments[id].queued
    ensures CursorOk(BeforeTrimPoll(f, id).attachments[id], from, got + Poll(f, id).event.data, t, f.ring, due, limit)
  {
    PollFinds(f, id, from, got, t, due, limit);
    var c, e := f.attachments[id], Poll(f, id).event;
    assert t.stream[from..c.cursor] + t.stream[c.cursor..e.end] == t.stream[from..e.end];
  }

  // ----- the window -----

  lemma PieceTail(e: Event, t: Tape, start: nat)
    requires Piece(e, t) && e.start <= start < e.end
    ensures Piece(Slice(e, start, e.end), t)
  {
  }

  /** A replay that reaches the end of the output consists of tails of chunks. */
  lemma {:induction false} BetweenPieces(events: seq<Event>, base: nat, latest: nat, from: nat, to: nat, t: Tape)
    requires Chained(events, base, latest) && latest <= to
    requires ChunksOk(events, t)
    ensures Pieces(Between(events, from, to), t)
    decreases |events|
  {
    if events != [] {
      var n := |events| - 1;
      var e := events[n];
      ChainOrdered(events, base, latest, n);
      ChainInit(events, base, latest);
      var front, part := Between(events[..n], from, to), Part(e, from, to);
      assert Between(events, from, to) == front + part;
      if part != [] {
        PieceTail(e, t, Max(from, e.start));
      }
      assert Pieces(part, t) && ChunksOk(events[..n], t);
      hide *;
      BetweenPieces(events[..n], base, e.start, from, to, t);
      PiecesConcat(front, part, t);
    }
  }

  lemma PiecesConcat(a: seq<Event>, b: seq<Event>, t: Tape)
    requires Pieces(a, t) && Pieces(b, t)
    ensures Pieces(a + b, t)
  {
  }

  lemma ChunkPiece(w: Window, t: Tape, data: seq<byte>, o: Owner)
    requires WindowPart(w, t) && data != []
    ensures Piece(Chunk(w, 1, data, o), Grown(t, 1, data))
  {
  }

  lemma ChunksGrow(events: seq<Event>, t: Tape, data: seq<byte>, e: Event)
    requires ChunksOk(events, t) && data != [] && Piece(e, Grown(t, 1, data))
    ensures ChunksOk(events + [e], Grown(t, 1, data))
  {
  }

  lemma ChunksSuffix(a: seq<Event>, b: seq<Event>, t: Tape)
    requires ChunksOk(a + b, t)
    ensures ChunksOk(b, t)
  {
    assert forall i :: 0 <= i < |b| ==> b[i] == (a + b)[|a| + i];
  }

  lemma CaptureWindow(w: Window, t: Tape, data: seq<byte>, o: Owner)
    requires WindowPart(w, t) && data != [] && |data| <= MAX_SEQUENCE - w.latest
    ensures WindowPart(Compact(Pushed(w, Chunk(w, 1, data, o))), Grown(t, 1, data))
  {
    var e, t' := Chunk(w, 1, data, o), Grown(t, 1, data);
    var v := Pushed(w, e);
    hide WindowOk, Compact, Dropped, Piece, ChunksOk;
    ChunkPiece(w, t, data, o);
    PushKeeps(w, t.stream, e);
    CompactKeeps(v, t'.stream);
    CompactSplits(v);
    ChunksGrow(w.events, t, data, e);
    ChunksSuffix(Dropped(v), Compact(v).events, t');
  }

  /** A reader's slice, or a replay, is readable because the chunk it is cut from is held. */
  lemma WindowReadable(s: Session)
    requires RefsPart(s)
    ensures AllReadable(s.pool, s.window.events)
  {
    var live := Live(s.fan.ring, s.window.events, s.held, PhaseRefs(s.phase));
    forall i | 0 <= i < |s.window.events| ensures Readable(s.pool, s.window.events[i]) {
      assert live[|s.fan.ring| + i] == s.window.events[i];
    }
  }

  /** Steps that leave the attachments, the ring and the output alone. */
  lemma SameCursors(s: Session, s': Session)
    requires CursorsPart(s) && s'.fan == s.fan && s'.tape == s.tape && s'.attachmentBytes == s.attachmentBytes
    requires s'.origin == s.origin && s'.delivered == s.delivered
    requires forall id :: id in s.fan.attachments ==> Due(s', id) == Due(s, id)
    ensures CursorsPart(s')
  {
  }

  // ----- capture -----

  lemma CapturedRefs(s: Session, data: seq<byte>, o: Owner)
    requires RefsPart(s)
    ensures RefsPart(Captured(s, data, o))
  {
    hide SafeRefs, Compact, Dropped, ReleaseAll, TakeTwo, Live, Grown;
    if Captured(s, data, o) != s {
      CaptureSafe(s.pool, s.fan.ring, s.window, s.held, Chunk(s.window, 1, data, o));
    }
  }

  lemma CapturedFan(s: Session, data: seq<byte>, o: Owner)
    requires RingPart(s.fan, s.tape) && ActivePart(s.fan)
    ensures RingPart(Captured(s, data, o).fan, Captured(s, data, o).tape) && ActivePart(Captured(s, data, o).fan)
  {
  }

  lemma CapturedCursors(s: Session, data: seq<byte>, o: Owner)
    requires CursorsPart(s)
    ensures CursorsPart(Captured(s, data, o))
  {
  }

  lemma CapturedPhase(s: Session, data: seq<byte>, o: Owner)
    requires WindowPart(s.window, s.tape) && PhasePart(s)
    ensures WindowPart(Captured(s, data, o).window, Captured(s, data, o).tape) && PhasePart(Captured(s, data, o))
  {
    hide WindowPart, Compact, Dropped, ReleaseAll, TakeTwo, Piece, Grown;
    if Captured(s, data, o) != s {
      CaptureWindow(s.window, s.tape, data, o);
      ChunkPiece(s.window, s.tape, data, o);
      CompactLatest(Pushed(s.window, Chunk(s.window, 1, data, o)));
    }
  }

  lemma {:induction false} CompactLatest(w: Window)
    ensures Compact(w).latest == w.latest
    decreases |w.events|
  {
    if w.events != [] && w.bytes > w.maxBytes { CompactLatest(DropFirst(w)); }
  }

  // ----- publish -----

  /** Publishing never finds an attachment out of order. */
  lemma PublishInOrder(s: Session)
    requires CursorsPart(s) && PhasePart(s) && s.phase.Publishing?
    ensures ValidOutput(s.phase.event) && !OutOfOrder(s.fan, s.phase.event)
  {
  }

  lemma PublishCursors(s: Session)
    requires CursorsPart(s) && PhasePart(s) && RingPart(s.fan, s.tape)
    ensures CursorsPart(PublishStep(s))
  {
    hide RingOk, AllNeeded, Piece, Insert, CursorOk, Offered, Trim, TrimPool, InsertPool, OutOfOrder, ValidOutput;
    if s.phase.Publishing? {
      PublishInOrder(s);
      var e, mid, s' := s.phase.event, BeforeTrimPublish(s.fan, s.phase.event), PublishStep(s);
      forall id | id in s'.fan.attachments ensures CursorFine(s', id) {
        assert CursorFine(s, id);
        OfferKeeps(s.fan.attachments[id], s.origin[id], s.delivered[id], s.tape, s.fan.ring, s.attachmentBytes, e);
        TrimKeeps(mid, id, s.origin[id], s.delivered[id], s.tape, e.end, s.attachmentBytes);
      }
    }
  }

  lemma PublishFan(s: Session)
    requires RingPart(s.fan, s.tape) && ActivePart(s.fan) && PhasePart(s)
    ensures RingPart(PublishStep(s).fan, s.tape) && ActivePart(PublishStep(s).fan)
  {
    hide RingOk, AllNeeded, Piece, Insert, Offered, Trim, TrimPool, InsertPool, OutOfOrder, ValidOutput;
    if s.phase.Publishing? {
      var e, mid := s.phase.event, BeforeTrimPublish(s.fan, s.phase.event);
      OfferedActive(s.fan, e);
      InsertOk(s.fan.ring, e, s.tape);
      TrimNeeded(mid.attachments, mid.ring, s.tape);
    }
  }

  lemma OfferedActive(f: Fan, e: Event)
    requires ActivePart(f)
    ensures ActivePart(BeforeTrimPublish(f, e))
  {
  }

  lemma PublishRefs(s: Session)
    requires RefsPart(s) && PhasePart(s) && RingPart(s.fan, s.tape)
    ensures RefsPart(PublishStep(s))
  {
    hide SafeRefs, RingOk, AllNeeded, Piece, Insert, InsertPool, TrimPool, Trim, OfferedAll, EvictedBy, OutOfOrder, ValidOutput;
    if s.phase.Publishing? {
      var e, mid := s.phase.event, BeforeTrimPublish(s.fan, s.phase.event);
      InsertSafe(s.pool, s.fan.ring, s.window.events, s.held, [e], e, s.tape);
      TrimSafe(InsertPool(s.pool, s.fan.ring, e), mid, s.window.events, s.held, [e]);
    }
  }

  // ----- ending an operation -----

  /** Only the references of the running operation are given back, and the phase ends. */
  lemma PhaseEnds(s: Session, s': Session)
    requires Inv(s)
    requires s' == s.(pool := ReleaseAll(s.pool, PhaseRefs(s.phase)), phase := Idle)
    requires forall id :: id in s.fan.attachments && s.fan.attachments[id].state == Attached ==> Due(s, id) == s.window.latest
    ensures Inv(s')
  {
    hide WindowPart, RingPart, ActivePart, SafeRefs, PhasePart, ReleaseAll;
    var d := PhaseRefs(s.phase);
    ReleaseParts(s.pool, s.fan.ring, s.window.events, s.held, d, d, s.fan.ring, s.window.events, s.held, []);
    forall id | id in s'.fan.attachments ensures CursorFine(s', id) {
      assert CursorFine(s, id);
    }
    IdlePhase(s');
  }

  lemma IdlePhase(s: Session)
    requires s.phase.Idle?
    ensures PhasePart(s)
  {
  }

  lemma ReleaseInv(s: Session)
    requires Inv(s)
    ensures Inv(ReleaseStep(s))
  {
    hide Inv, Release, ReleaseAll;
    if s.phase.Published? {
      var e := s.phase.event;
      ReleaseOne(s.pool, e);
      PhaseEnds(s, ReleaseStep(s));
    }
  }

  lemma FinishInv(s: Session)
    requires Inv(s)
    ensures Inv(FinishStep(s))
  {
    hide Inv, ReleaseAll;
    if s.phase.Attaching? && s.phase.registered && s.phase.done >= |s.phase.all| {
      PhaseEnds(s, Abandoned(s));
    }
  }

  // ----- attach: the replay -----

  /** The replay of an attach: chained tails of chunks up to the end, all readable. */
  lemma BeginReplay(s: Session, from: nat)
    requires WindowPart(s.window, s.tape) && RefsPart(s) && s.attachmentBytes > 0
    ensures var r := AttachReplay(s.window, from, ReplayLimit(s.attachmentBytes)); r.Replayed? ==>
      && r.from <= s.window.latest && s.window.latest - r.from <= s.attachmentBytes
      && Chained(r.events, r.from, s.window.latest) && Pieces(r.events, s.tape) && AllReadable(s.pool, r.events)
  {
    hide AttachReplay, Between, RefsPart, AllReadable, Piece;
    var r := AttachReplay(s.window, from, ReplayLimit(s.attachmentBytes));
    AttachReplayEnds(s.window, s.tape.stream, from, s.attachmentBytes);
    if r.Replayed? {
      var w := s.window;
      WindowReadable(s);
      BetweenReadable(s.pool, w.events, r.from, w.latest);
      BetweenPieces(w.events, w.earliest, w.latest, r.from, w.latest, s.tape);
    }
  }

  lemma BeginRefs(s: Session, id: string, from: nat)
    requires WindowPart(s.window, s.tape) && RefsPart(s) && PhasePart(s) && s.attachmentBytes > 0
    ensures RefsPart(BeginStep(s, id, from)) && PhasePart(BeginStep(s, id, from))
  {
    hide AttachReplay, AttachedCount, WindowPart, Chained, Pieces, SafeRefs, AllReadable, RetainAll, Live;
    if BeginStep(s, id, from) != s {
      var r := AttachReplay(s.window, from, ReplayLimit(s.attachmentBytes));
      BeginReplay(s, from);
      assert [] + r.events == r.events;
      RetainParts(s.pool, s.fan.ring, s.window.events, s.held, [], r.events, s.held, r.events);
    }
  }

  lemma BeginCursors(s: Session, id: string, from: nat)
    requires CursorsPart(s)
    ensures CursorsPart(BeginStep(s, id, from)) && BeginStep(s, id, from).fan == s.fan
    ensures BeginStep(s, id, from).window == s.window && BeginStep(s, id, from).tape == s.tape
  {
  }

  // ----- attach: registering -----

  lemma RegisterCursors(s: Session)
    requires CursorsPart(s) && PhasePart(s) && s.phase.Attaching? && !s.phase.registered
    requires AttachError(s.fan, s.phase.id, s.attachmentBytes).None?
    ensures CursorsPart(RegisterStep(s)) && PhasePart(RegisterStep(s))
  {
  }

  /** A new or replaced attachment is not a reader yet, so nobody loses an element. */
  lemma RegisterFan(f: Fan, t: Tape, id: string, maxBytes: nat)
    requires AttachError(f, id, maxBytes).None? && RingPart(f, t) && ActivePart(f)
    ensures RingPart(AfterAttach(f, id, maxBytes), t) && ActivePart(AfterAttach(f, id, maxBytes))
  {
    hide RingOk;
    var att := AfterAttach(f, id, maxBytes).attachments;
    forall i | 0 <= i < |f.ring| ensures Needed(att, f.ring[i]) {
      var x :| x in f.attachments && Reading(f.attachments[x]) && f.attachments[x].cursor < f.ring[i].end;
      assert x in att && Reading(att[x]);
    }
  }

  lemma RegisterInv(s: Session)
    requires Inv(s)
    ensures Inv(RegisterStep(s))
  {
    if s.phase.Attaching? && !s.phase.registered {
      if AttachError(s.fan, s.phase.id, s.attachmentBytes).Some? {
        hide Inv, ReleaseAll, AttachError;
        PhaseEnds(s, Abandoned(s));
      } else {
        hide WindowPart, RingPart, ActivePart, SafeRefs, CursorsPart, PhasePart, AfterAttach, AttachError;
        RegisterFan(s.fan, s.tape, s.phase.id, s.attachmentBytes);
        RegisterCursors(s);
        SameRing(s.fan, s.phase.id, s.attachmentBytes);
      }
    }
  }

  lemma SameRing(f: Fan, id: string, maxBytes: nat)
    ensures AfterAttach(f, id, maxBytes).ring == f.ring
  {
  }

  // ----- attach: enqueueing -----

  /** What an attach in progress knows about the next event of its replay. */
  lemma NextReplay(s: Session)
    requires PhasePart(s) && s.phase.Attaching? && s.phase.done < |s.phase.all|
    ensures var all, done := s.phase.all, s.phase.done;
      && Piece(all[done], s.tape) && s.phase.from <= all[done].start && all[done].end <= s.window.latest
      && all[done].end == if done + 1 < |all| then all[done + 1].start else s.window.latest
  {
    var all, done := s.phase.all, s.phase.done;
    ChainOrdered(all, s.phase.from, s.window.latest, done);
    ChainEnds(all, s.phase.from, s.window.latest);
    assert done + 1 < |all| ==> all[done].end == all[done + 1].start;
  }

  /** The attachment that is being filled is still there. */
  predicate Filling(s: Session) {
    && s.phase.Attaching? && s.phase.registered && s.phase.done < |s.phase.all|
    && s.phase.id in s.fan.attachments && s.fan.attachments[s.phase.id].state == Attached
  }

  /** An attach never evicts itself, and the replay always continues where the cursor stands. */
  lemma EnqueueFits(s: Session)
    requires CursorsPart(s) && PhasePart(s) && Filling(s)
    ensures var e, c := s.phase.all[s.phase.done], s.fan.attachments[s.phase.id];
      EnqueueError(s.fan, s.phase.id, e).None? && !Overflows(c, e) && Due(s, s.phase.id) == e.start
      && (c.placed ==> c.cursor <= e.start)
  {
    NextReplay(s);
    assert CursorFine(s, s.phase.id);
    hide Chained, Pieces, CoveredAll;
  }

  lemma EnqueueCursors(s: Session)
    requires CursorsPart(s) && PhasePart(s) && RingPart(s.fan, s.tape) && Filling(s)
    ensures CursorsPart(EnqueueStep(s))
  {
    var e, s' := s.phase.all[s.phase.done], EnqueueStep(s);
    NextReplay(s);
    EnqueueFits(s);
    hide RingOk, AllNeeded, Piece, Insert, InsertPool, CursorOk, Chained, EnqueueError;
    forall id | id in s'.fan.attachments ensures CursorFine(s', id) {
      assert CursorFine(s, id);
      if id == s.phase.id {
        OfferKeeps(s.fan.attachments[id], s.origin[id], s.delivered[id], s.tape, s.fan.ring, s.attachmentBytes, e);
      } else {
        InsertKeeps(s.fan.attachments[id], s.origin[id], s.delivered[id], s.tape, s.fan.ring, Due(s, id), s.attachmentBytes, e);
      }
    }
  }

  lemma InsertMember(ring: seq<Event>, e: Event, t: Tape, i: nat)
    requires RingOk(ring, t) && Piece(e, t) && i < |Insert(ring, e)|
    ensures Insert(ring, e)[i] == e || Insert(ring, e)[i] in ring
  {
    InsertIsMerge(ring, e, t);
    hide *;
    MergeMember(ring, e, i);
  }

  lemma MergeMember(ring: seq<Event>, e: Event, i: nat)
    requires i < |Merge(ring, e)|
    ensures Merge(ring, e)[i] == e || Merge(ring, e)[i] in ring
  {
    hide Passed;
    var k := Passed(ring, e);
    var m := if Meets(ring, e) then k + 1 else k;
    if !Holds(ring, e) && i < k {
      assert Merge(ring, e)[i] == ring[i];
    } else if !Holds(ring, e) && i > k {
      assert Merge(ring, e)[i] == ring[m + i - k - 1];
    }
  }

  /** An attachment that is given one more event reads what it read before, and that event. */
  lemma EnqueueReads(attachments: map<string, Cursor>, id: string, e: Event, x: Event)
    requires id in attachments && attachments[id].state == Attached && e.start < e.end
    requires attachments[id].placed ==> attachments[id].cursor <= e.start
    requires x == e || Needed(attachments, x)
    ensures Needed(attachments[id := Enqueued(attachments[id], e)], x)
  {
    var after := attachments[id := Enqueued(attachments[id], e)];
    if x == e {
      assert Reading(after[id]);
    } else {
      var k :| k in attachments && Reading(attachments[k]) && attachments[k].cursor < x.end;
      assert k in after && Reading(after[k]);
    }
  }

  lemma EnqueueFan(s: Session)
    requires RingPart(s.fan, s.tape) && ActivePart(s.fan) && CursorsPart(s) && PhasePart(s) && Filling(s)
    ensures RingPart(EnqueueStep(s).fan, s.tape) && ActivePart(EnqueueStep(s).fan)
  {
    var e, s' := s.phase.all[s.phase.done], EnqueueStep(s);
    NextReplay(s);
    EnqueueFits(s);
    InsertOk(s.fan.ring, e, s.tape);
    assert e.start < e.end;
    hide Insert, InsertPool, RingOk, Piece, Needed, CursorsPart, Chained, EnqueueError;
    forall i | 0 <= i < |s'.fan.ring| ensures Needed(s'.fan.attachments, s'.fan.ring[i]) {
      InsertMember(s.fan.ring, e, s.tape, i);
      EnqueueReads(s.fan.attachments, s.phase.id, e, s'.fan.ring[i]);
    }
  }

  lemma EnqueueRefs(s: Session)
    requires RefsPart(s) && RingPart(s.fan, s.tape) && CursorsPart(s) && PhasePart(s) && Filling(s)
    ensures RefsPart(EnqueueStep(s)) && PhasePart(EnqueueStep(s))
  {
    NextReplay(s);
    EnqueueFits(s);
    var e := s.phase.all[s.phase.done];
    InsertSafe(s.pool, s.fan.ring, s.window.events, s.held, s.phase.all, e, s.tape);
    hide SafeRefs, RingPart, CursorsPart, InsertPool, Insert, Piece, Live, EnqueueError, Pieces, Due, PhasePart;
    EnqueuePhase(s);
  }

  lemma EnqueuePhase(s: Session)
    requires PhasePart(s) && Filling(s)
    requires var e := s.phase.all[s.phase.done];
      EnqueueError(s.fan, s.phase.id, e).None? && !Overflows(s.fan.attachments[s.phase.id], e)
    ensures PhasePart(EnqueueStep(s))
  {
    hide InsertPool, Insert, Piece, Pieces, Chained;
  }

  lemma EnqueueInv(s: Session)
    requires Inv(s)
    ensures Inv(EnqueueStep(s))
  {
    hide WindowPart, RingPart, ActivePart, RefsPart, CursorsPart, PhasePart, InsertPool, Insert, TrimPool, ReleaseAll;
    if Filling(s) {
      EnqueueFan(s);
      EnqueueRefs(s);
      EnqueueCursors(s);
    } else if s.phase.Attaching? && s.phase.registered && s.phase.done < |s.phase.all| {
      hide Inv, DetachStep;
      PhaseEnds(s, Abandoned(s));
      DetachInv(Abandoned(s), s.phase.id);
    }
  }

  // ----- readers -----

  lemma Reads(f: Fan, id: string)
    requires Poll(f, id).Delivered?
    ensures id in f.attachments && Reading(f.attachments[id])
  {
  }

  lemma TakeCursors(s: Session, id: string, copied: bool)
    requires CursorsPart(s) && RingPart(s.fan, s.tape)
    ensures CursorsPart(TakeStep(s, id, copied))
  {
    hide RingOk, CursorOk, Poll, Trim, TrimPool;
    if Poll(s.fan, id).Delivered? {
      var s', f := TakeStep(s, id, copied), s.fan;
      Reads(f, id);
      assert CursorFine(s, id);
      TakeKeeps(f, id, s.origin[id], s.delivered[id], s.tape, Due(s, id), s.attachmentBytes);
      var mid := BeforeTrimPoll(f, id);
      forall x | x in s'.fan.attachments ensures CursorFine(s', x) {
        assert CursorFine(s, x);
        TrimKeeps(mid, x, s.origin[x], s'.delivered[x], s.tape, Due(s, x), s.attachmentBytes);
      }
    }
  }

  lemma TakeFan(s: Session, id: string, copied: bool)
    requires RingPart(s.fan, s.tape) && ActivePart(s.fan) && PhasePart(s)
    ensures RingPart(TakeStep(s, id, copied).fan, s.tape) && ActivePart(TakeStep(s, id, copied).fan)
    ensures PhasePart(TakeStep(s, id, copied))
  {
    hide RingOk, AllNeeded, Poll, Trim, TrimPool, Chained, Pieces, Piece;
    var s' := TakeStep(s, id, copied);
    if s' != s {
      Reads(s.fan, id);
      TrimNeeded(BeforeTrimPoll(s.fan, id).attachments, s.fan.ring, s.tape);
    }
  }

  lemma PollReadable(s: Session, id: string)
    requires RefsPart(s) && RingPart(s.fan, s.tape) && Poll(s.fan, id).Delivered?
    ensures AllReadable(s.pool, [Poll(s.fan, id).event])
  {
    var c := s.fan.attachments[id];
    FindIsCover(s.fan.ring, s.tape, c.cursor);
    var x := Find(s.fan.ring, c.cursor).value;
    var i :| 0 <= i < |s.fan.ring| && s.fan.ring[i] == x;
    assert Live(s.fan.ring, s.window.events, s.held, PhaseRefs(s.phase))[i] == x;
    hide Find, RingOk;
    SliceReadable(s.pool, x, c.cursor, x.end);
  }

  /** The reader's reference to a delivered slice, then compaction. */
  lemma TakeRefs(s: Session, id: string, copied: bool)
    requires RefsPart(s) && RingPart(s.fan, s.tape)
    ensures RefsPart(TakeStep(s, id, copied))
  {
    hide SafeRefs, Readable, AllReadable, Poll, Trim, TrimPool, Retain, RetainAll, RingPart;
    var s' := TakeStep(s, id, copied);
    if s' != s {
      var e, d := Poll(s.fan, id).event, PhaseRefs(s.phase);
      PollReadable(s, id);
      RetainOne(s.pool, e);
      RetainParts(s.pool, s.fan.ring, s.window.events, s.held, d, [e], s.held + [e], d);
      TrimSafe(if copied then s.pool else Retain(s.pool, e), BeforeTrimPoll(s.fan, id), s.window.events, s'.held, d);
    }
  }

  lemma DropInv(s: Session, i: nat)
    requires Inv(s)
    ensures Inv(DropStep(s, i))
  {
    hide WindowPart, RingPart, ActivePart, SafeRefs, CursorFine, Chained, Pieces, Release, ReleaseAll, Count;
    if i < |s.held| {
      var s', e := DropStep(s, i), s.held[i];
      ReleaseOne(s.pool, e);
      forall o ensures Count(s.held, o) == Count([e], o) + Count(s'.held, o) {
        CountRemove(s.held, i, o);
      }
      ReleaseParts(s.pool, s.fan.ring, s.window.events, s.held, PhaseRefs(s.phase), [e],
                   s.fan.ring, s.window.events, s'.held, PhaseRefs(s.phase));
      SameCursors(s, s');
    }
  }

  lemma ClearInv(s: Session)
    requires Inv(s)
    ensures Inv(ClearStep(s))
  {
    hide Chained, RingPart, ActivePart, SafeRefs, CursorFine, ReleaseAll;
    if s.phase.Idle? {
      var s' := ClearStep(s);
      ChainEmpty(s.window.latest);
      ReleaseParts(s.pool, s.fan.ring, s.window.events, s.held, [], s.window.events, s.fan.ring, [], s.held, []);
      SameCursors(s, s');
    }
  }

  lemma BorrowInv(s: Session, from: nat, limit: nat)
    requires Inv(s)
    ensures Inv(BorrowStep(s, from, limit))
  {
    hide WindowPart, RingPart, ActivePart, SafeRefs, CursorFine, Chained, Pieces, Between, AllReadable, RetainAll;
    var r, s' := ReplayOf(s.window, from, limit), BorrowStep(s, from, limit);
    if r.Replayed? {
      WindowReadable(s);
      BetweenReadable(s.pool, s.window.events, from, r.to);
      RetainParts(s.pool, s.fan.ring, s.window.events, s.held, PhaseRefs(s.phase), r.events,
                  s.held + r.events, PhaseRefs(s.phase));
      SameCursors(s, s');
    }
  }

  lemma DetachCursors(s: Session, id: string)
    requires CursorsPart(s)
    ensures CursorsPart(DetachStep(s, id))
  {
    hide CursorOk, Trim, TrimPool;
    if id in s.fan.attachments {
      var s', mid := DetachStep(s, id), BeforeTrimDetach(s.fan, id);
      forall x | x in s'.fan.attachments ensures CursorFine(s', x) {
        assert CursorFine(s, x);
        TrimKeeps(mid, x, s.origin[x], s.delivered[x], s.tape, Due(s, x), s.attachmentBytes);
      }
    }
  }

  lemma DetachFan(s: Session, id: string)
    requires RingPart(s.fan, s.tape) && ActivePart(s.fan) && PhasePart(s)
    ensures RingPart(DetachStep(s, id).fan, s.tape) && ActivePart(DetachStep(s, id).fan) && PhasePart(DetachStep(s, id))
  {
    hide RingOk, AllNeeded, Trim, TrimPool, Chained, Pieces, Piece;
    if id in s.fan.attachments {
      TrimNeeded(BeforeTrimDetach(s.fan, id).attachments, s.fan.ring, s.tape);
    }
  }

  lemma DetachRefs(s: Session, id: string)
    requires RefsPart(s)
    ensures RefsPart(DetachStep(s, id))
  {
    hide SafeRefs, Trim, TrimPool;
    if id in s.fan.attachments {
      TrimSafe(s.pool, BeforeTrimDetach(s.fan, id), s.window.events, s.held, PhaseRefs(s.phase));
    }
  }

  lemma DetachInv(s: Session, id: string)
    requires Inv(s)
    ensures Inv(DetachStep(s, id))
  {
    hide WindowPart, RingPart, ActivePart, RefsPart, CursorsPart, PhasePart, TrimPool;
    DetachFan(s, id);
    DetachRefs(s, id);
    DetachCursors(s, id);
  }

  // ----- every run -----

  /** Every step of every thread keeps the invariant. */
  lemma NextInv(s: Session, step: Step)
    requires Inv(s)
    ensures Inv(Next(s, step))
  {
    hide WindowPart, RingPart, ActivePart, RefsPart, CursorsPart, PhasePart, PublishStep, BeginStep;
    match step
    case Capture(data, o) =>
      CapturedPhase(s, data, o);
      CapturedRefs(s, data, o);
      CapturedFan(s, data, o);
      CapturedCursors(s, data, o);
    case Publish =>
      PublishFan(s);
      PublishRefs(s);
      PublishCursors(s);
      PublishRest(s);
    case ReleaseProducer => hide Inv; ReleaseInv(s);
    case BeginAttach(id, from) =>
      BeginRefs(s, id, from);
      BeginCursors(s, id, from);
      BeginConfig(s, id, from);
    case Register => hide Inv; RegisterInv(s);
    case Enqueue => hide Inv; EnqueueInv(s);
    case FinishAttach => hide Inv; FinishInv(s);
    case Take(id, copied) =>
      TakeFan(s, id, copied);
      TakeRefs(s, id, copied);
      TakeCursors(s, id, copied);
    case Drop(i) => hide Inv; DropInv(s, i);
    case Detach(id) => hide Inv; DetachInv(s, id);
    case Clear => hide Inv; ClearInv(s);
    case Borrow(from, limit) => hide Inv; BorrowInv(s, from, limit);
  }

  lemma PublishRest(s: Session)
    requires PhasePart(s)
    ensures PhasePart(PublishStep(s)) && PublishStep(s).window == s.window && PublishStep(s).tape == s.tape
    ensures PublishStep(s).attachmentBytes == s.attachmentBytes
  {
  }

  lemma BeginConfig(s: Session, id: string, from: nat)
    ensures BeginStep(s, id, from).attachmentBytes == s.attachmentBytes
  {
  }

  ghost function Run(s: Session, steps: seq<Step>): Session
    decreases |steps|
  {
    if steps == [] then s else Run(Next(s, steps[0]), steps[1..])
  }

  lemma {:induction false} RunInv(s: Session, steps: seq<Step>)
    requires Inv(s)
    ensures Inv(Run(s, steps))
    decreases |steps|
  {
    hide Inv, Next;
    if steps != [] {
      NextInv(s, steps[0]);
      RunInv(Next(s, steps[0]), steps[1..]);
    }
  }
}
