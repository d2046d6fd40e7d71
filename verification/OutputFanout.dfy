/** One shared ring of output chunks, read by many attachments that hold only cursors
    (internal/session/fanout.go). Each function below is one critical section of `fanout.mu`.
 */
module OutputFanout {
  import opened Basics
  import opened Events
  import opened OutputHistory

  datatype AttachmentState = Attached | Evicted

  /** `attachmentCursor`; `placed` is `hasCursor`. */
  datatype Cursor = Cursor(state: AttachmentState, maxBytes: nat, queued: nat, evicted: nat,
                           cursor: nat, end: nat, placed: bool)

  datatype Fan = Fan(attachments: map<string, Cursor>, active: set<string>, ring: seq<Event>)

  datatype Error = AttachmentExists | AttachmentUnknown | AttachmentEvicted | OutputOrder | InvalidQueueLimit

  // ----- the ring -----

  predicate Covers(a: Event, b: Event) {
    && a.start <= b.start && a.end >= b.end && a.channel == b.channel
    && b.start - a.start <= b.end - a.start <= |a.data|
    && a.data[b.start - a.start..b.end - a.start] == b.data
  }

  predicate Touches(x: Event, e: Event) { Covers(x, e) || Covers(e, x) }

  /** Some ring element holds the byte at `sequence`. */
  ghost predicate Covered(ring: seq<Event>, sequence: nat) {
    exists i :: 0 <= i < |ring| && ring[i].start <= sequence < ring[i].end
  }

  /** The order of the ring: by start, longer chunks first. */
  predicate Before(a: Event, b: Event) {
    a.start < b.start || (a.start == b.start && a.end > b.end)
  }

  predicate EndsIncrease(ring: seq<Event>) {
    forall i, j :: 0 <= i < j < |ring| ==> ring[i].end < ring[j].end
  }

  /** Index of the first element that covers `e` or is covered by it. */
  function FirstTouch(ring: seq<Event>, e: Event): (i: nat)
    ensures i <= |ring|
    ensures forall k :: 0 <= k < i ==> !Touches(ring[k], e)
    ensures i < |ring| ==> Touches(ring[i], e)
  {
    if ring == [] then 0
    else if Touches(ring[0], e) then 0
    else
      var rest := FirstTouch(ring[1..], e);
      assert forall k :: 0 < k < 1 + rest ==> ring[k] == ring[1..][k - 1];
      1 + rest
  }

  /** How many leading elements do not come after `e`. */
  function Place(ring: seq<Event>, e: Event): (k: nat)
    ensures k <= |ring|
  {
    if ring == [] || Before(e, ring[0]) then 0 else 1 + Place(ring[1..], e)
  }

  /** Appending `e` to a sorted ring and sorting again. */
  function SortedInsert(ring: seq<Event>, e: Event): seq<Event> {
    ring[..Place(ring, e)] + [e] + ring[Place(ring, e)..]
  }

  function Without(ring: seq<Event>, i: nat): seq<Event>
    requires i < |ring|
  {
    ring[..i] + ring[i + 1..]
  }

  /** The ring after `insertEventLocked`. */
  function Insert(ring: seq<Event>, e: Event): seq<Event>
    decreases |ring|
  {
    var i := FirstTouch(ring, e);
    if i == |ring| then SortedInsert(ring, e)
    else if Covers(ring[i], e) then ring
    else Insert(Without(ring, i), e)
  }

  /** The elements `insertEventLocked` replaces, in the order it releases them. */
  function Replaced(ring: seq<Event>, e: Event): seq<Event>
    decreases |ring|
  {
    var i := FirstTouch(ring, e);
    if i == |ring| || Covers(ring[i], e) then []
    else [ring[i]] + Replaced(Without(ring, i), e)
  }

  /** Whether `insertEventLocked` keeps `e` itself, rather than an element that already covers it. */
  predicate Keeps(ring: seq<Event>, e: Event)
    decreases |ring|
  {
    var i := FirstTouch(ring, e);
    if i == |ring| then true
    else if Covers(ring[i], e) then false
    else Keeps(Without(ring, i), e)
  }

  // ----- who needs what -----

  predicate Reading(c: Cursor) { c.state == Attached && c.placed }

  /** Some attachment still has to read past the start of `e`. */
  predicate Needed(attachments: map<string, Cursor>, e: Event) {
    exists id :: id in attachments && Reading(attachments[id]) && attachments[id].cursor < e.end
  }

  /** `compactLocked`: drop leading elements nobody needs. */
  function Trim(attachments: map<string, Cursor>, ring: seq<Event>): seq<Event> {
    if ring == [] || Needed(attachments, ring[0]) then ring else Trim(attachments, ring[1..])
  }

  /** The elements it drops. */
  function Trimmed(attachments: map<string, Cursor>, ring: seq<Event>): seq<Event> {
    if ring == [] || Needed(attachments, ring[0]) then [] else [ring[0]] + Trimmed(attachments, ring[1..])
  }

  lemma {:induction false} TrimSplits(attachments: map<string, Cursor>, ring: seq<Event>)
    ensures ring == Trimmed(attachments, ring) + Trim(attachments, ring)
  {
    if ring != [] && !Needed(attachments, ring[0]) { TrimSplits(attachments, ring[1..]); }
  }

  function Compacted(f: Fan): Fan {
    f.(ring := Trim(f.attachments, f.ring))
  }

  /** The element that `eventAtLocked` finds by binary search: the first one that ends after
      `sequence`, provided it starts at or before it. */
  function Find(ring: seq<Event>, sequence: nat): Option<Event> {
    if ring == [] then None
    else if ring[0].end > sequence then (if ring[0].start <= sequence then Some(ring[0]) else None)
    else Find(ring[1..], sequence)
  }

  // ----- the critical sections -----

  predicate ValidOutput(e: Event) {
    e.end >= e.start && e.end - e.start == |e.data| && |e.data| != 0
  }

  function AttachError(f: Fan, id: string, maxBytes: nat): Option<Error> {
    if id == "" || maxBytes == 0 then Some(InvalidQueueLimit)
    else if id in f.attachments && f.attachments[id].state == Attached then Some(AttachmentExists)
    else None
  }

  function AfterAttach(f: Fan, id: string, maxBytes: nat): Fan {
    f.(attachments := f.attachments[id := Cursor(Attached, maxBytes, 0, 0, 0, 0, false)],
       active := f.active + {id})
  }

  function BeforeTrimDetach(f: Fan, id: string): Fan {
    f.(attachments := f.attachments - {id}, active := f.active - {id})
  }

  function AfterDetach(f: Fan, id: string): Fan {
    Compacted(BeforeTrimDetach(f, id))
  }

  /** The event does not continue where some reading attachment stands. */
  predicate OutOfOrder(f: Fan, e: Event) {
    exists id :: id in f.attachments && Reading(f.attachments[id]) && f.attachments[id].end != e.start
  }

  predicate Overflows(c: Cursor, e: Event) { |e.data| > c.maxBytes - c.queued }

  function Evict(c: Cursor): Cursor { c.(evicted := c.queued, queued := 0, state := Evicted) }

  function Enqueued(c: Cursor, e: Event): Cursor {
    c.(cursor := if c.placed then c.cursor else e.start, placed := true, end := e.end, queued := c.queued + |e.data|)
  }

  /** What one published event does to one attachment. */
  function Offered(c: Cursor, e: Event): Cursor {
    if c.state != Attached then c else if Overflows(c, e) then Evict(c) else Enqueued(c, e)
  }

  function OfferedAll(attachments: map<string, Cursor>, e: Event): map<string, Cursor> {
    map id | id in attachments :: Offered(attachments[id], e)
  }

  function EvictedBy(attachments: map<string, Cursor>, e: Event): set<string> {
    set id | id in attachments && attachments[id].state == Attached && Overflows(attachments[id], e)
  }

  function BeforeTrimPublish(f: Fan, e: Event): Fan {
    Fan(OfferedAll(f.attachments, e), f.active - EvictedBy(f.attachments, e), Insert(f.ring, e))
  }

  function AfterPublish(f: Fan, e: Event): Fan {
    Compacted(BeforeTrimPublish(f, e))
  }

  function EnqueueError(f: Fan, id: string, e: Event): Option<Error> {
    if !ValidOutput(e) then Some(OutputOrder)
    else if id !in f.attachments then Some(AttachmentUnknown)
    else if f.attachments[id].state == Evicted then Some(AttachmentEvicted)
    else if f.attachments[id].placed && f.attachments[id].end != e.start then Some(OutputOrder)
    else None
  }

  function AfterEnqueue(f: Fan, id: string, e: Event): Fan
    requires id in f.attachments
  {
    var c := f.attachments[id];
    if Overflows(c, e) then
      Compacted(f.(attachments := f.attachments[id := Evict(c)], active := f.active - {id}))
    else
      f.(attachments := f.attachments[id := Enqueued(c, e)], ring := Insert(f.ring, e))
  }

  datatype Polled = Failed(error: Error) | Nothing | Delivered(event: Event)

  /** What a reader gets when `found` is the ring element at its cursor. */
  function PollAt(c: Cursor, found: Option<Event>): Polled {
    if c.state == Evicted then Failed(AttachmentEvicted)
    else if !c.placed || c.cursor >= c.end then Nothing
    else
      match found
      case None => Failed(OutputOrder)
      case Some(e) => if e.end == e.start + |e.data| && e.start <= c.cursor < e.end
                      then Delivered(Slice(e, c.cursor, e.end)) else Failed(OutputOrder)
  }

  /** One look of `WaitNextOwned` or `Next` at the ring. */
  function Poll(f: Fan, id: string): Polled {
    if id !in f.attachments then Failed(AttachmentUnknown)
    else PollAt(f.attachments[id], Find(f.ring, f.attachments[id].cursor))
  }

  function Advanced(c: Cursor, to: nat): Cursor
    requires c.cursor <= to && to - c.cursor <= c.queued
  {
    c.(cursor := to, queued := c.queued - (to - c.cursor))
  }

  function BeforeTrimPoll(f: Fan, id: string): Fan
    requires Poll(f, id).Delivered? && Poll(f, id).event.end - f.attachments[id].cursor <= f.attachments[id].queued
  {
    f.(attachments := f.attachments[id := Advanced(f.attachments[id], Poll(f, id).event.end)])
  }

  function AfterPoll(f: Fan, id: string): Fan
    requires Poll(f, id).Delivered? && Poll(f, id).event.end - f.attachments[id].cursor <= f.attachments[id].queued
  {
    Compacted(BeforeTrimPoll(f, id))
  }
}
