/** What holds in every state that a session can reach, whatever its threads do. */
module OutputTheorems {
  import opened Basics
  import opened Events
  import opened OutputHistory
  import opened OutputFanout
  import opened OutputRing
  import opened OutputSession
  import opened OutputSafety

  // ----- where sessions start -----

  /** The chunk boundaries of a restored history. */
  function EndsOf(events: seq<Event>): map<nat, byte> {
    if events == [] then map[]
    else if events[0].data == [] then EndsOf(events[1..])
    else EndsOf(events[1..])[events[0].end := events[0].channel]
  }

  /** A history as `Restore` accepts it, or an empty one, and a stream that it could have come from. */
  ghost predicate Restored(w: Window, t: Tape) {
    && w.earliest <= w.latest == |t.stream| <= MAX_SEQUENCE
    && 0 <= w.bytes == w.latest - w.earliest <= w.maxBytes && w.maxBytes > 0
    && Chained(w.events, w.earliest, w.latest)
    && t.stream[w.earliest..] == Bytes(w.events)
    && (forall i :: 0 <= i < |w.events| ==> w.events[i].owner.None?)
    && t.ends == EndsOf(w.events)
  }

  ghost predicate Start(s: Session) {
    && s.attachmentBytes > 0
    && Restored(s.window, s.tape)
    && s.fan == Fan(map[], {}, []) && s.pool == Pool(map[], {})
    && s.phase.Idle? && s.held == [] && s.origin == map[] && s.delivered == map[]
  }

  lemma {:induction false} SpelledOnStream(events: seq<Event>, from: nat, to: nat, stream: seq<byte>)
    requires Chained(events, from, to) && from <= to <= |stream| && stream[from..to] == Bytes(events)
    ensures AllOnStream(events, stream)
    decreases |events|
  {
    if events != [] {
      var e := events[0];
      ChainTail(events, from, to);
      ChainEnds(events[1..], e.end, to);
      hide Chained;
      SpelledParts(stream, from, e.end, to, e.data, Bytes(events[1..]));
      SpelledOnStream(events[1..], e.end, to, stream);
      assert events == [e] + events[1..];
    }
  }

  lemma SpelledParts(stream: seq<byte>, from: nat, middle: nat, to: nat, a: seq<byte>, b: seq<byte>)
    requires from <= middle <= to <= |stream| && stream[from..to] == a + b && |a| == middle - from
    ensures stream[from..middle] == a && stream[middle..to] == b
  {
    SliceOfSlice(stream, from, to, 0, middle - from);
    SliceOfSlice(stream, from, to, middle - from, to - from);
    assert (a + b)[..|a|] == a && (a + b)[|a|..] == b;
  }

  lemma {:induction false} EndsBetween(events: seq<Event>, from: nat, to: nat)
    requires Chained(events, from, to)
    ensures forall p :: p in EndsOf(events) ==> from < p <= to
    decreases |events|
  {
    if events != [] {
      ChainTail(events, from, to);
      ChainOrdered(events, from, to, 0);
      hide Chained;
      EndsBetween(events[1..], events[0].end, to);
    }
  }

  lemma {:induction false} EndsOfPieces(events: seq<Event>, from: nat, to: nat, stream: seq<byte>)
    requires Chained(events, from, to) && AllOnStream(events, stream)
    ensures ChunksOk(events, Tape(stream, EndsOf(events)))
    decreases |events|
  {
    if events != [] {
      var e, rest := events[0], events[1..];
      ChainTail(events, from, to);
      OnStreamTail(events, stream);
      EndsBetween(rest, e.end, to);
      EndsOfPieces(rest, e.end, to, stream);
      forall i | 0 <= i < |events| && events[i].data != [] ensures Piece(events[i], Tape(stream, EndsOf(events))) {
        if i > 0 {
          assert events[i] == rest[i - 1];
          ChainOrdered(rest, e.end, to, i - 1);
        }
      }
    }
  }

  lemma {:induction false} Unowned(events: seq<Event>, o: Owner)
    requires forall i :: 0 <= i < |events| ==> events[i].owner.None?
    ensures Count(events, o) == 0
  {
    if events != [] { Unowned(events[1..], o); }
  }

  lemma UnownedSafe(events: seq<Event>)
    requires forall i :: 0 <= i < |events| ==> events[i].owner.None?
    ensures SafeRefs(Pool(map[], {}), Live([], events, [], []))
  {
    assert Live([], events, [], []) == events;
    forall o ensures Count(events, o) == 0 { Unowned(events, o); }
  }

  lemma StartInv(s: Session)
    requires Start(s)
    ensures Inv(s)
  {
    var w := s.window;
    assert s.tape.stream[w.earliest..] == s.tape.stream[w.earliest..w.latest];
    SpelledOnStream(w.events, w.earliest, w.latest, s.tape.stream);
    EndsOfPieces(w.events, w.earliest, w.latest, s.tape.stream);
    EndsBetween(w.events, w.earliest, w.latest);
    assert Tape(s.tape.stream, EndsOf(w.events)) == s.tape;
    hide Chained, AllOnStream, Piece, EndsOf, Bytes, SafeRefs;
    UnownedSafe(w.events);
  }

  lemma ReachableInv(s: Session, steps: seq<Step>)
    requires Start(s)
    ensures Inv(Run(s, steps))
  {
    StartInv(s);
    hide Inv, Run, Start;
    RunInv(s, steps);
  }

  // ----- delivery -----

  /** What an attachment has been given is exactly the output from where it attached to where its
      cursor stands: nothing missing, repeated or out of order. Between operations the rest of the
      output is queued for it, so that once it has nothing to read it has been given everything. */
  lemma DeliveredExactly(s: Session, steps: seq<Step>, id: string)
    requires Start(s)
    ensures var r := Run(s, steps);
      id in r.fan.attachments ==>
        && id in r.origin && id in r.delivered
        && var c, from, got := r.fan.attachments[id], r.origin[id], r.delivered[id];
        && (c.placed ==> from <= c.cursor <= c.end <= |r.tape.stream| && got == r.tape.stream[from..c.cursor])
        && (!c.placed ==> got == [])
        && (r.phase.Idle? && Poll(r.fan, id).Nothing? ==> from <= |r.tape.stream| && got == r.tape.stream[from..])
  {
    ReachableInv(s, steps);
    var r := Run(s, steps);
    if id in r.fan.attachments {
      assert CursorFine(r, id);
      hide Run, Start, WindowPart, RingPart, RefsPart, CoveredAll;
      assert r.window.latest == |r.tape.stream| by { LatestIsEnd(r); }
    }
  }

  lemma LatestIsEnd(s: Session)
    requires WindowPart(s.window, s.tape)
    ensures s.window.latest == |s.tape.stream|
  {
  }

  /** An attachment with queued output always gets the next bytes of the stream, never more than was
      queued; `ErrOutputOrder` does not happen to readers. */
  lemma NextAlwaysFound(s: Session, steps: seq<Step>, id: string)
    requires Start(s)
    ensures var r := Run(s, steps);
      && Poll(r.fan, id) != Failed(OutputOrder)
      && (Poll(r.fan, id).Delivered? <==>
            && id in r.fan.attachments && r.fan.attachments[id].state == Attached && r.fan.attachments[id].placed
            && r.fan.attachments[id].cursor < r.fan.attachments[id].end)
      && (Poll(r.fan, id).Delivered? ==>
            var c, e := r.fan.attachments[id], Poll(r.fan, id).event;
            && c.cursor == e.start < e.end <= c.end <= |r.tape.stream|
            && e.data == r.tape.stream[e.start..e.end] && Readable(r.pool, e))
  {
    ReachableInv(s, steps);
    var r := Run(s, steps);
    if id in r.fan.attachments && Reading(r.fan.attachments[id]) && r.fan.attachments[id].cursor < r.fan.attachments[id].end {
      assert CursorFine(r, id);
      PollFinds(r.fan, id, r.origin[id], r.delivered[id], r.tape, Due(r, id), r.attachmentBytes);
      PollReadable(r, id);
      assert [Poll(r.fan, id).event][0] == Poll(r.fan, id).event;
    }
  }

  /** Attaching and publishing fit together: a captured chunk is always accepted, and an attach that
      has not been detached meanwhile is never refused or evicted while it is being filled. */
  lemma OperationsFit(s: Session, steps: seq<Step>)
    requires Start(s)
    ensures var r := Run(s, steps);
      && (r.phase.Publishing? ==> ValidOutput(r.phase.event) && !OutOfOrder(r.fan, r.phase.event))
      && (Filling(r) ==> var e := r.phase.all[r.phase.done];
            EnqueueError(r.fan, r.phase.id, e).None? && !Overflows(r.fan.attachments[r.phase.id], e))
  {
    ReachableInv(s, steps);
    var r := Run(s, steps);
    hide Run, Start, WindowPart, RingPart, RefsPart, ActivePart;
    if r.phase.Publishing? { PublishInOrder(r); }
    if Filling(r) { EnqueueFits(r); }
  }

  // ----- references -----

  /** The buffers that are in use or idle. */
  function Everyone(p: Pool): set<Owner> { p.owners.Keys + p.free }

  lemma ReleaseEveryone(p: Pool, e: Event)
    ensures Everyone(Release(p, e)) == Everyone(p)
  {
  }

  lemma RetainEveryone(p: Pool, e: Event)
    ensures Everyone(Retain(p, e)) == Everyone(p)
  {
  }

  lemma {:induction false} ReleaseAllEveryone(p: Pool, events: seq<Event>)
    ensures Everyone(ReleaseAll(p, events)) == Everyone(p)
    decreases |events|
  {
    hide Everyone, Release;
    if events != [] {
      ReleaseEveryone(p, events[0]);
      ReleaseAllEveryone(Release(p, events[0]), events[1..]);
    }
  }

  lemma RetainAllEveryone(p: Pool, events: seq<Event>)
    ensures Everyone(RetainAll(p, events)) == Everyone(p)
  {
  }

  lemma InsertEveryone(p: Pool, ring: seq<Event>, e: Event)
    ensures Everyone(InsertPool(p, ring, e)) == Everyone(p)
  {
    hide Everyone, ReleaseAll, Retain, Replaced, Keeps;
    ReleaseAllEveryone(p, Replaced(ring, e));
    RetainEveryone(ReleaseAll(p, Replaced(ring, e)), e);
  }

  lemma TrimEveryone(p: Pool, f: Fan)
    ensures Everyone(TrimPool(p, f)) == Everyone(p)
  {
    ReleaseAllEveryone(p, Trimmed(f.attachments, f.ring));
  }

  /** The buffer that a step takes for captured output. */
  ghost function Taken(s: Session, step: Step): set<Owner> {
    if step.Capture? && Captured(s, step.data, step.owner) != s then {step.owner} else {}
  }

  lemma DetachEveryone(s: Session, id: string)
    ensures Everyone(DetachStep(s, id).pool) == Everyone(s.pool)
  {
    hide Everyone, TrimPool;
    TrimEveryone(s.pool, BeforeTrimDetach(s.fan, id));
  }

  lemma CaptureEveryone(s: Session, data: seq<byte>, o: Owner)
    ensures Everyone(Captured(s, data, o).pool) == Everyone(s.pool) + if Captured(s, data, o) == s then {} else {o}
  {
    var r := Captured(s, data, o);
    if r != s {
      var e := Chunk(s.window, 1, data, o);
      var w := Pushed(s.window, e);
      hide ReleaseAll, Dropped, Compact;
      ReleaseAllEveryone(TakeTwo(s.pool, e), Dropped(w));
    }
  }

  lemma EnqueueEveryone(s: Session)
    ensures Everyone(EnqueueStep(s).pool) == Everyone(s.pool)
  {
    hide Everyone, TrimPool, InsertPool, ReleaseAll, DetachStep, AfterEnqueue;
    if s.phase.Attaching? && s.phase.registered && s.phase.done < |s.phase.all| {
      var id, e := s.phase.id, s.phase.all[s.phase.done];
      ReleaseAllEveryone(s.pool, s.phase.all);
      if EnqueueError(s.fan, id, e).Some? {
        DetachEveryone(Abandoned(s), id);
      } else if Overflows(s.fan.attachments[id], e) {
        var evicted := s.fan.(attachments := s.fan.attachments[id := Evict(s.fan.attachments[id])]);
        var t := s.(fan := AfterEnqueue(s.fan, id, e), pool := TrimPool(s.pool, evicted));
        TrimEveryone(s.pool, evicted);
        ReleaseAllEveryone(t.pool, s.phase.all);
        DetachEveryone(Abandoned(t), id);
      } else {
        InsertEveryone(s.pool, s.fan.ring, e);
      }
    }
  }

  lemma TakeEveryone(s: Session, id: string, copied: bool)
    ensures Everyone(TakeStep(s, id, copied).pool) == Everyone(s.pool)
  {
    hide Everyone, TrimPool, Retain, Poll, BeforeTrimPoll, AfterPoll;
    if TakeStep(s, id, copied) != s {
      var e := Poll(s.fan, id).event;
      RetainEveryone(s.pool, e);
      TrimEveryone(if copied then s.pool else Retain(s.pool, e), BeforeTrimPoll(s.fan, id));
    }
  }

  lemma OtherEveryone(s: Session, step: Step)
    requires !step.Capture? && !step.Enqueue? && !step.Take?
    ensures Everyone(Next(s, step).pool) == Everyone(s.pool)
  {
    hide Everyone, TrimPool, InsertPool, ReleaseAll, RetainAll, Release, ReplayOf, AttachReplay, AttachedCount, AfterPublish;
    match step
    case Publish =>
      if s.phase.Publishing? {
        var e := s.phase.event;
        InsertEveryone(s.pool, s.fan.ring, e);
        TrimEveryone(InsertPool(s.pool, s.fan.ring, e), BeforeTrimPublish(s.fan, e));
      }
    case ReleaseProducer => if s.phase.Published? { ReleaseEveryone(s.pool, s.phase.event); }
    case BeginAttach(_, from) =>
      var r := AttachReplay(s.window, from, ReplayLimit(s.attachmentBytes));
      if r.Replayed? { RetainAllEveryone(s.pool, r.events); }
    case Register => if s.phase.Attaching? { ReleaseAllEveryone(s.pool, s.phase.all); }
    case FinishAttach => if s.phase.Attaching? { ReleaseAllEveryone(s.pool, s.phase.all); }
    case Drop(i) => if i < |s.held| { ReleaseEveryone(s.pool, s.held[i]); }
    case Detach(id) => DetachEveryone(s, id);
    case Clear => ReleaseAllEveryone(s.pool, s.window.events);
    case Borrow(from, limit) =>
      var r := ReplayOf(s.window, from, limit);
      if r.Replayed? { RetainAllEveryone(s.pool, r.events); }
  }

  lemma NextEveryone(s: Session, step: Step)
    ensures Everyone(Next(s, step).pool) == Everyone(s.pool) + Taken(s, step)
  {
    hide Everyone, Captured, EnqueueStep, TakeStep;
    match step
    case Capture(data, o) => CaptureEveryone(s, data, o);
    case Enqueue => EnqueueEveryone(s);
    case Take(id, copied) => TakeEveryone(s, id, copied);
    case _ => OtherEveryone(s, step);
  }

  /** The buffers taken in a run. */
  ghost function TakenIn(s: Session, steps: seq<Step>): set<Owner>
    decreases |steps|
  {
    if steps == [] then {} else Taken(s, steps[0]) + TakenIn(Next(s, steps[0]), steps[1..])
  }

  lemma {:induction false} RunEveryone(s: Session, steps: seq<Step>)
    ensures Everyone(Run(s, steps).pool) == Everyone(s.pool) + TakenIn(s, steps)
    decreases |steps|
  {
    hide Next, Everyone, Taken;
    if steps != [] {
      NextEveryone(s, steps[0]);
      RunEveryone(Next(s, steps[0]), steps[1..]);
    }
  }

  /** Every counter equals the number of references held by the ring, the history, the readers and the
      running operation. No buffer is lost: of those taken in the run, the ones with references are in use,
      and exactly the others are back in the pool. Every reference still shows the bytes it was made for. */
  lemma CountersExact(s: Session, steps: seq<Step>, o: Owner)
    requires Start(s)
    ensures var r := Run(s, steps);
      var references := Count(r.fan.ring, o) + Count(r.window.events, o) + Count(r.held, o) + Count(PhaseRefs(r.phase), o);
      && Refs(r.pool, o) == references
      && (o in r.pool.owners <==> references > 0)
      && (o in r.pool.free <==> o in TakenIn(s, steps) && references == 0)
      && AllReadable(r.pool, r.fan.ring) && AllReadable(r.pool, r.window.events)
      && AllReadable(r.pool, r.held) && AllReadable(r.pool, PhaseRefs(r.phase))
  {
    ReachableInv(s, steps);
    RunEveryone(s, steps);
    var r := Run(s, steps);
    hide Run, TakenIn, WindowPart, RingPart, ActivePart, CursorsPart, PhasePart;
    LivePool(r, o);
  }

  lemma LivePool(r: Session, o: Owner)
    requires RefsPart(r)
    ensures Refs(r.pool, o) == Count(r.fan.ring, o) + Count(r.window.events, o) + Count(r.held, o) + Count(PhaseRefs(r.phase), o)
    ensures o in r.pool.owners ==> Refs(r.pool, o) > 0 && o !in r.pool.free
    ensures AllReadable(r.pool, r.fan.ring) && AllReadable(r.pool, r.window.events)
    ensures AllReadable(r.pool, r.held) && AllReadable(r.pool, PhaseRefs(r.phase))
  {
    var a, b, c, d := r.fan.ring, r.window.events, r.held, PhaseRefs(r.phase);
    CountConcat(a, b + (c + d), o);
    CountConcat(b, c + d, o);
    CountConcat(c, d, o);
    ReadableParts(r.pool, a, b + (c + d));
    ReadableParts(r.pool, b, c + d);
    ReadableParts(r.pool, c, d);
  }

  lemma ReadableParts(p: Pool, a: seq<Event>, b: seq<Event>)
    requires AllReadable(p, a + b)
    ensures AllReadable(p, a) && AllReadable(p, b)
  {
    hide Readable;
    forall i | 0 <= i < |a| ensures Readable(p, a[i]) { assert (a + b)[i] == a[i]; }
    forall i | 0 <= i < |b| ensures Readable(p, b[i]) { assert (a + b)[|a| + i] == b[i]; }
  }

  // ----- bounds -----

  lemma {:induction false} RingSpan(ring: seq<Event>, t: Tape)
    requires RingOk(ring, t) && ring != []
    ensures |Bytes(ring)| <= ring[|ring| - 1].end - ring[0].start
    ensures ring[|ring| - 1].end <= |t.stream| && |ring[0].data| == ring[0].end - ring[0].start
    decreases |ring|
  {
    assert Piece(ring[0], t) && Piece(ring[|ring| - 1], t);
    if |ring| > 1 {
      SubringOk(ring, t, 1, |ring|);
      assert ring[1..|ring|] == ring[1..];
      assert ring[0].end <= ring[1].start;
      RingSpan(ring[1..], t);
    } else {
      assert ring[1..] == [];
    }
  }

  /** Queued bytes are what lies between cursor and queue end and stay within the limit, the lock-free
      `IsAttached` agrees with the map, and between operations the shared ring holds less than one
      attachment's limit plus one chunk. */
  lemma Limits(s: Session, steps: seq<Step>, id: string)
    requires Start(s)
    ensures var r := Run(s, steps);
      && (id in r.fan.active <==> id in r.fan.attachments && r.fan.attachments[id].state == Attached)
      && (id in r.fan.active ==>
            var c := r.fan.attachments[id];
            c.maxBytes == s.attachmentBytes && c.queued == (if c.placed then c.end - c.cursor else 0) <= c.maxBytes)
      && (r.phase.Idle? && r.fan.ring != [] ==> |Bytes(r.fan.ring)| < s.attachmentBytes + |r.fan.ring[0].data|)
      && r.window.latest - r.window.earliest <= r.window.maxBytes
  {
    ReachableInv(s, steps);
    SameLimit(s, steps);
    var r := Run(s, steps);
    if id in r.fan.active { assert CursorFine(r, id); }
    if r.phase.Idle? && r.fan.ring != [] { RingBounded(r); }
  }

  lemma RingBounded(r: Session)
    requires Inv(r) && r.phase.Idle? && r.fan.ring != []
    ensures |Bytes(r.fan.ring)| < r.attachmentBytes + |r.fan.ring[0].data|
  {
    var x := r.fan.ring[0];
    assert Needed(r.fan.attachments, x);
    var id :| id in r.fan.attachments && Reading(r.fan.attachments[id]) && r.fan.attachments[id].cursor < x.end;
    assert CursorFine(r, id);
    RingSpan(r.fan.ring, r.tape);
  }

  lemma SameLimitStep(s: Session, step: Step)
    ensures Next(s, step).attachmentBytes == s.attachmentBytes
  {
  }

  lemma {:induction false} SameLimit(s: Session, steps: seq<Step>)
    ensures Run(s, steps).attachmentBytes == s.attachmentBytes
    decreases |steps|
  {
    hide Next;
    if steps != [] {
      SameLimitStep(s, steps[0]);
      SameLimit(Next(s, steps[0]), steps[1..]);
    }
  }

  // ----- a whole attach -----

  function Enqueues(n: nat): seq<Step> { seq(n, i => Enqueue) }

  /** The attachment is registered and not evicted; `n` events are still to be queued. */
  predicate Pending(s: Session, n: nat) {
    && s.phase.Attaching? && s.phase.registered && s.phase.done + n == |s.phase.all|
    && s.phase.id in s.fan.attachments && s.fan.attachments[s.phase.id].state == Attached
  }

  lemma EnqueueGoesOn(s: Session, n: nat)
    requires Inv(s) && Pending(s, n) && n > 0
    ensures var r := Next(s, Enqueue);
      && Inv(r) && Pending(r, n - 1) && r.phase == s.phase.(done := s.phase.done + 1)
      && r.delivered == s.delivered && r.origin == s.origin && r.window == s.window && r.tape == s.tape
  {
    hide Inv, Next;
    NextInv(s, Enqueue);
    NextFits(s);
    QueuesOne(s);
  }

  lemma NextFits(s: Session)
    requires Inv(s) && Filling(s)
    ensures var e := s.phase.all[s.phase.done];
      EnqueueError(s.fan, s.phase.id, e).None? && !Overflows(s.fan.attachments[s.phase.id], e)
  {
    hide WindowPart, RingPart, ActivePart, RefsPart;
    EnqueueFits(s);
  }

  lemma QueuesOne(s: Session)
    requires Filling(s)
    requires var e := s.phase.all[s.phase.done];
      EnqueueError(s.fan, s.phase.id, e).None? && !Overflows(s.fan.attachments[s.phase.id], e)
    ensures var r := Next(s, Enqueue);
      && r.phase == s.phase.(done := s.phase.done + 1)
      && s.phase.id in r.fan.attachments && r.fan.attachments[s.phase.id].state == Attached
      && r.delivered == s.delivered && r.origin == s.origin && r.window == s.window && r.tape == s.tape
  {
    hide Insert, InsertPool;
  }

  lemma {:induction false} FillsUp(s: Session, n: nat)
    requires Inv(s) && Pending(s, n)
    ensures var r := Run(s, Enqueues(n));
      && Inv(r) && Pending(r, 0) && r.phase == s.phase.(done := |s.phase.all|)
      && r.delivered == s.delivered && r.origin == s.origin && r.window == s.window && r.tape == s.tape
    decreases n
  {
    hide Inv, Next;
    if n > 0 {
      EnqueueGoesOn(s, n);
      assert Enqueues(n)[0] == Enqueue && Enqueues(n)[1..] == Enqueues(n - 1);
      FillsUp(Next(s, Enqueue), n - 1);
    }
  }

  /** `attachLocked` without interruption: from any point of the window the attach succeeds, and all
      output from its boundary to the end is queued, none of it delivered yet. */
  lemma AttachCompletes(s: Session, id: string, from: nat)
    requires Inv(s) && s.phase.Idle? && AttachedCount(s.fan) < s.maxAttachments
    requires AttachError(s.fan, id, s.attachmentBytes).None? && s.window.earliest <= from <= s.window.latest
    ensures var b := Next(Next(s, BeginAttach(id, from)), Register);
      && b.phase.Attaching?
      && var r := Next(Run(b, Enqueues(|b.phase.all|)), FinishAttach);
      && Inv(r) && r.phase.Idle? && id in r.fan.attachments && id in r.origin && r.window == s.window
      && var c, limit := r.fan.attachments[id], ReplayLimit(s.attachmentBytes);
      && c.state == Attached && r.origin[id] == (if s.window.latest - from <= limit then from else s.window.latest - limit)
      && (c.placed ==> c.cursor == r.origin[id] && c.end == s.window.latest)
      && (!c.placed ==> r.origin[id] == s.window.latest)
  {
    hide Inv, Next, Run, ReplayLimit, AttachError, AttachedCount;
    AttachRegisters(s, id, from);
    var b := Next(Next(s, BeginAttach(id, from)), Register);
    FillsUp(b, |b.phase.all|);
    var c := Run(b, Enqueues(|b.phase.all|));
    AttachedAtEnd(c, id);
    FinishKeeps(c);
    NextInv(c, FinishAttach);
  }

  lemma FinishKeeps(s: Session)
    requires Pending(s, 0)
    ensures var r := Next(s, FinishAttach);
      r.phase.Idle? && r.fan == s.fan && r.origin == s.origin && r.window == s.window
  {
  }

  lemma BeginGoesOn(s: Session, id: string, from: nat)
    requires Inv(s) && s.phase.Idle? && AttachedCount(s.fan) < s.maxAttachments && s.window.earliest <= from <= s.window.latest
    ensures var r, limit := Next(s, BeginAttach(id, from)), ReplayLimit(s.attachmentBytes);
      && r.phase.Attaching? && r.phase.id == id && !r.phase.registered && r.phase.done == 0
      && r.phase.from == (if s.window.latest - from <= limit then from else s.window.latest - limit)
      && r.fan == s.fan && r.window == s.window && r.attachmentBytes == s.attachmentBytes
  {
    ReplayStart(s, from);
    hide Inv, RetainAll, AttachReplay, ReplayLimit, AttachedCount;
  }

  lemma RegisterGoesOn(s: Session)
    requires s.phase.Attaching? && !s.phase.registered && s.phase.done == 0
    requires AttachError(s.fan, s.phase.id, s.attachmentBytes).None?
    ensures var r := Next(s, Register);
      && r.phase == s.phase.(registered := true) && Pending(r, |r.phase.all|) && r.window == s.window
      && s.phase.id in r.delivered && r.delivered[s.phase.id] == []
  {
  }

  lemma AttachRegisters(s: Session, id: string, from: nat)
    requires Inv(s) && s.phase.Idle? && AttachedCount(s.fan) < s.maxAttachments
    requires AttachError(s.fan, id, s.attachmentBytes).None? && s.window.earliest <= from <= s.window.latest
    ensures var b, limit := Next(Next(s, BeginAttach(id, from)), Register), ReplayLimit(s.attachmentBytes);
      && Inv(b) && b.phase.Attaching? && b.phase.id == id && Pending(b, |b.phase.all|) && b.window == s.window
      && b.phase.from == (if s.window.latest - from <= limit then from else s.window.latest - limit)
      && id in b.delivered && b.delivered[id] == []
  {
    hide Inv, Next, ReplayLimit, AttachError, AttachedCount, Pending;
    var a := Next(s, BeginAttach(id, from));
    BeginGoesOn(s, id, from);
    NextInv(s, BeginAttach(id, from));
    RegisterGoesOn(a);
    NextInv(a, Register);
  }

  /** Where the replay of an attach starts. */
  lemma ReplayStart(s: Session, from: nat)
    requires WindowPart(s.window, s.tape) && s.attachmentBytes > 0 && s.window.earliest <= from <= s.window.latest
    ensures var limit, r := ReplayLimit(s.attachmentBytes), AttachReplay(s.window, from, ReplayLimit(s.attachmentBytes));
      r.Replayed? && r.from == if s.window.latest - from <= limit then from else s.window.latest - limit
  {
    hide Between, Chained, Bytes, AllOnStream, ChunksOk;
    var limit := ReplayLimit(s.attachmentBytes);
    ReplayExact(s.window, s.tape.stream, from, limit);
    AttachReplayEnds(s.window, s.tape.stream, from, s.attachmentBytes);
  }

  lemma AttachedAtEnd(s: Session, id: string)
    requires Inv(s) && Pending(s, 0) && id == s.phase.id && id in s.delivered && s.delivered[id] == []
    ensures id in s.origin && s.origin[id] == s.phase.from
    ensures var c := s.fan.attachments[id];
      if c.placed then c.cursor == s.origin[id] && c.end == s.window.latest else s.origin[id] == s.window.latest
  {
  }
}
