/** Capture, attach and delivery of one terminal session (internal/session/manager.go).

    `opMu` lets at most one capture, attach or clear run at a time; `phase` says which one and how
    far it has come. Reads, detaches and releases may happen between any two of its steps.
 */
module OutputSession {
  import opened Basics
  import opened Events
  import opened OutputHistory
  import opened OutputFanout
  import opened OutputRing

  const INITIAL_REPLAY_BYTES: nat := 0x1_0000

  datatype Phase =
    | Idle
    | Publishing(event: Event)
    | Published(event: Event)
    | Attaching(id: string, from: nat, all: seq<Event>, done: nat, registered: bool)

  /** `held` are the references given to readers. `tape`, `origin` and `delivered` only record what
      happened: all output, where each attachment began, and the bytes it has been given. */
  datatype Session = Session(window: Window, fan: Fan, pool: Pool, phase: Phase, held: seq<Event>,
                             tape: Tape, origin: map<string, nat>, delivered: map<string, seq<byte>>,
                             attachmentBytes: nat, maxAttachments: nat)

  // ----- attaching -----

  function ReplayLimit(attachmentBytes: nat): nat {
    var half := if attachmentBytes / 2 == 0 then 1 else attachmentBytes / 2;
    if half > INITIAL_REPLAY_BYTES then INITIAL_REPLAY_BYTES else half
  }

  /** The bounded tail that replaces a replay which does not reach the end; `uint64` subtraction. */
  function TailStart(earliest: nat, latest: nat, limit: nat): nat {
    Max(Wrap64(latest - limit), earliest)
  }

  /** The replay an attachment starts from. */
  function AttachReplay(w: Window, from: nat, limit: nat): Replay {
    var first := ReplayOf(w, from, limit);
    if first.Replayed? && first.to < first.latest
    then ReplayOf(w, TailStart(first.earliest, first.latest, limit), limit)
    else first
  }

  /** The replay of an attach always ends exactly at the end of the output, fits the queue, and the
      subtraction that computes its start does not wrap. */
  lemma AttachReplayEnds(w: Window, stream: seq<byte>, from: nat, attachmentBytes: nat)
    requires WindowOk(w, stream) && attachmentBytes > 0
    ensures var limit, r := ReplayLimit(attachmentBytes), AttachReplay(w, from, ReplayLimit(attachmentBytes));
      && 0 < limit <= attachmentBytes
      && (r.Replayed? <==> w.earliest <= from <= w.latest)
      && (r.Replayed? ==>
            && w.earliest <= r.from <= r.to == w.latest && r.to - r.from <= limit
            && r.events == Between(w.events, r.from, w.latest)
            && Bytes(r.events) == stream[r.from..] && Chained(r.events, r.from, w.latest)
            && (r.from == from || from < r.from == Max(w.latest - limit, w.earliest)))
  {
    hide Between, Chained, Bytes, AllOnStream;
    var limit := ReplayLimit(attachmentBytes);
    ReplayExact(w, stream, from, limit);
    var first := ReplayOf(w, from, limit);
    if first.Replayed? && first.to < first.latest {
      assert Wrap64(w.latest - limit) == w.latest - limit;
      ReplayExact(w, stream, TailStart(w.earliest, w.latest, limit), limit);
    }
  }

  // ----- the steps -----

  datatype Step =
    | Capture(data: seq<byte>, owner: Owner)
    | Publish
    | ReleaseProducer
    | BeginAttach(id: string, from: nat)
    | Register
    | Enqueue
    | FinishAttach
    | Take(id: string, copied: bool)
    | Drop(index: nat)
    | Detach(id: string)
    | Clear
    | Borrow(from: nat, limit: nat)

  function InsertPool(p: Pool, ring: seq<Event>, e: Event): Pool {
    var q := ReleaseAll(p, Replaced(ring, e));
    if Keeps(ring, e) then Retain(q, e) else q
  }

  function TrimPool(p: Pool, f: Fan): Pool {
    ReleaseAll(p, Trimmed(f.attachments, f.ring))
  }

  ghost function AttachedCount(f: Fan): nat {
    |set id | id in f.attachments && f.attachments[id].state == Attached|
  }

  /** `capture` reads some bytes and appends them under an owner that nobody uses. */
  ghost function Captured(s: Session, data: seq<byte>, o: Owner): Session {
    if !s.phase.Idle? || data == [] || o in s.pool.owners || |data| > MAX_SEQUENCE - s.window.latest then s
    else
      var e := Chunk(s.window, 1, data, o);
      var w := Pushed(s.window, e);
      s.(window := Compact(w), pool := ReleaseAll(TakeTwo(s.pool, e), Dropped(w)),
         phase := Publishing(e), tape := Grown(s.tape, 1, data))
  }

  /** The history's reference and the producer's. */
  function TakeTwo(p: Pool, e: Event): Pool
    requires e.owner.Some?
  {
    Events.Take(p, e.owner.value, e.start, e.data, 2)
  }

  ghost function PublishStep(s: Session): Session {
    if !s.phase.Publishing? then s
    else if !ValidOutput(s.phase.event) || OutOfOrder(s.fan, s.phase.event) then s.(phase := Published(s.phase.event))
    else
      var e := s.phase.event;
      s.(fan := AfterPublish(s.fan, e),
         pool := TrimPool(InsertPool(s.pool, s.fan.ring, e), BeforeTrimPublish(s.fan, e)),
         phase := Published(e))
  }

  ghost function ReleaseStep(s: Session): Session {
    if s.phase.Published? then s.(pool := Release(s.pool, s.phase.event), phase := Idle) else s
  }

  ghost function BeginStep(s: Session, id: string, from: nat): Session {
    if !s.phase.Idle? || AttachedCount(s.fan) >= s.maxAttachments then s
    else
      var r := AttachReplay(s.window, from, ReplayLimit(s.attachmentBytes));
      if !r.Replayed? then s
      else s.(pool := RetainAll(s.pool, r.events), phase := Attaching(id, r.from, r.events, 0, false))
  }

  /** Abandon an attach: release the replay. */
  ghost function Abandoned(s: Session): Session
    requires s.phase.Attaching?
  {
    s.(pool := ReleaseAll(s.pool, s.phase.all), phase := Idle)
  }

  ghost function RegisterStep(s: Session): Session {
    if !s.phase.Attaching? || s.phase.registered then s
    else if AttachError(s.fan, s.phase.id, s.attachmentBytes).Some? then Abandoned(s)
    else s.(fan := AfterAttach(s.fan, s.phase.id, s.attachmentBytes), phase := s.phase.(registered := true),
            origin := s.origin[s.phase.id := s.phase.from], delivered := s.delivered[s.phase.id := []])
  }

  /** When the attachment cannot be given the event, the attach is abandoned and undone. */
  ghost function EnqueueStep(s: Session): Session {
    if !s.phase.Attaching? || !s.phase.registered || s.phase.done >= |s.phase.all| then s
    else
      var id, e := s.phase.id, s.phase.all[s.phase.done];
      if EnqueueError(s.fan, id, e).Some? then DetachStep(Abandoned(s), id)
      else if Overflows(s.fan.attachments[id], e) then
        var evicted := s.fan.(attachments := s.fan.attachments[id := Evict(s.fan.attachments[id])]);
        DetachStep(Abandoned(s.(fan := AfterEnqueue(s.fan, id, e), pool := TrimPool(s.pool, evicted))), id)
      else s.(fan := AfterEnqueue(s.fan, id, e), pool := InsertPool(s.pool, s.fan.ring, e),
              phase := s.phase.(done := s.phase.done + 1))
  }

  ghost function FinishStep(s: Session): Session {
    if s.phase.Attaching? && s.phase.registered && s.phase.done >= |s.phase.all| then Abandoned(s) else s
  }

  /** `WaitNextOwned` keeps a reference for the reader, `Next` copies the bytes. */
  ghost function TakeStep(s: Session, id: string, copied: bool): Session {
    if !Poll(s.fan, id).Delivered? || id !in s.delivered
       || Poll(s.fan, id).event.end - s.fan.attachments[id].cursor > s.fan.attachments[id].queued then s
    else
      var e := Poll(s.fan, id).event;
      s.(fan := AfterPoll(s.fan, id),
         pool := TrimPool(if copied then s.pool else Retain(s.pool, e), BeforeTrimPoll(s.fan, id)),
         held := if copied then s.held else s.held + [e],
         delivered := s.delivered[id := s.delivered[id] + e.data])
  }

  ghost function DropStep(s: Session, i: nat): Session {
    if i < |s.held| then s.(pool := Release(s.pool, s.held[i]), held := s.held[..i] + s.held[i + 1..]) else s
  }

  ghost function DetachStep(s: Session, id: string): Session {
    if id !in s.fan.attachments then s
    else s.(fan := AfterDetach(s.fan, id), pool := TrimPool(s.pool, BeforeTrimDetach(s.fan, id)))
  }

  ghost function ClearStep(s: Session): Session {
    if s.phase.Idle? then s.(window := Cleared(s.window), pool := ReleaseAll(s.pool, s.window.events)) else s
  }

  /** The persistence goroutine reads the history at any time. */
  ghost function BorrowStep(s: Session, from: nat, limit: nat): Session {
    var r := ReplayOf(s.window, from, limit);
    if r.Replayed? then s.(pool := RetainAll(s.pool, r.events), held := s.held + r.events) else s
  }

  ghost function Next(s: Session, step: Step): Session {
    match step
    case Capture(data, o) => Captured(s, data, o)
    case Publish => PublishStep(s)
    case ReleaseProducer => ReleaseStep(s)
    case BeginAttach(id, from) => BeginStep(s, id, from)
    case Register => RegisterStep(s)
    case Enqueue => EnqueueStep(s)
    case FinishAttach => FinishStep(s)
    case Take(id, copied) => TakeStep(s, id, copied)
    case Drop(i) => DropStep(s, i)
    case Detach(id) => DetachStep(s, id)
    case Clear => ClearStep(s)
    case Borrow(from, limit) => BorrowStep(s, from, limit)
  }

  // ----- the invariant -----

  function PhaseRefs(phase: Phase): seq<Event> {
    match phase
    case Idle => []
    case Publishing(e) => [e]
    case Published(e) => [e]
    case Attaching(_, _, all, _, _) => all
  }

  /** All references: those of the ring, the history, the readers and the running operation. */
  function Live(a: seq<Event>, b: seq<Event>, c: seq<Event>, d: seq<Event>): seq<Event> { a + (b + (c + d)) }

  ghost predicate RefsPart(s: Session) {
    SafeRefs(s.pool, Live(s.fan.ring, s.window.events, s.held, PhaseRefs(s.phase)))
  }

  /** Where the output that attachment `id` is given next begins. */
  function Due(s: Session, id: string): nat {
    match s.phase
    case Publishing(e) => e.start
    case Attaching(aid, _, all, done, registered) =>
      if registered && aid == id && done < |all| then all[done].start else s.window.latest
    case _ => s.window.latest
  }

  ghost predicate CoveredAll(ring: seq<Event>, from: nat, to: nat) {
    forall q :: from <= q < to ==> Covered(ring, q)
  }

  /** What holds of an attachment that began at `from` and has been given `got`. */
  ghost predicate CursorOk(c: Cursor, from: nat, got: seq<byte>, t: Tape, ring: seq<Event>, due: nat, limit: nat) {
    && c.maxBytes == limit
    && (if c.placed then from <= c.cursor <= c.end <= |t.stream| && got == t.stream[from..c.cursor] else got == [])
    && (c.state == Attached ==>
          if c.placed then
            && c.queued == c.end - c.cursor <= c.maxBytes
            && c.end == due && c.end in t.ends
            && CoveredAll(ring, c.cursor, c.end)
          else c.queued == 0 && from == due)
  }

  ghost predicate ChunksOk(events: seq<Event>, t: Tape) {
    forall i :: 0 <= i < |events| && events[i].data != [] ==> Piece(events[i], t)
  }

  ghost predicate WindowPart(w: Window, t: Tape) {
    && WindowOk(w, t.stream) && Bounded(w) && w.maxBytes > 0
    && ChunksOk(w.events, t)
    && (forall p :: p in t.ends ==> p <= |t.stream|)
  }

  /** No element outlives its last reader. */
  ghost predicate AllNeeded(attachments: map<string, Cursor>, ring: seq<Event>) {
    forall i :: 0 <= i < |ring| ==> Needed(attachments, ring[i])
  }

  ghost predicate RingPart(f: Fan, t: Tape) {
    RingOk(f.ring, t) && AllNeeded(f.attachments, f.ring)
  }

  ghost predicate ActivePart(f: Fan) {
    forall id :: id in f.active <==> id in f.attachments && f.attachments[id].state == Attached
  }

  ghost predicate CursorFine(s: Session, id: string)
    requires id in s.fan.attachments
  {
    && id in s.origin && id in s.delivered
    && CursorOk(s.fan.attachments[id], s.origin[id], s.delivered[id], s.tape, s.fan.ring, Due(s, id), s.attachmentBytes)
  }

  ghost predicate CursorsPart(s: Session) {
    forall id :: id in s.fan.attachments ==> CursorFine(s, id)
  }

  ghost predicate PhasePart(s: Session) {
    match s.phase
    case Idle => true
    case Publishing(e) => Piece(e, s.tape) && e.end == s.window.latest
    case Published(e) => true
    case Attaching(id, from, all, done, registered) =>
      && Chained(all, from, s.window.latest) && Pieces(all, s.tape) && done <= |all| && (!registered ==> done == 0)
      && from <= s.window.latest && s.window.latest - from <= s.attachmentBytes
      && (registered && id in s.fan.attachments && s.fan.attachments[id].state == Attached ==>
            id in s.origin && s.origin[id] == from && (s.fan.attachments[id].placed <==> done > 0))
  }

  ghost predicate Inv(s: Session) {
    && s.attachmentBytes > 0
    && WindowPart(s.window, s.tape)
    && RingPart(s.fan, s.tape)
    && ActivePart(s.fan)
    && RefsPart(s)
    && CursorsPart(s)
    && PhasePart(s)
  }
}
