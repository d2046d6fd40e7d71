/** What each operation of a session does to each of its readers, said in positions of the stream
    (internal/session/manager.go, fanout.go).
 */
module OutputReaders {
  import opened Basics
  import opened Events
  import opened OutputHistory
  import opened OutputFanout
  import opened OutputRing
  import opened OutputSession
  import opened OutputSafety
  import opened OutputTheorems

  // ----- publishing -----

  /** In every run, whatever happens between capture and publication: a reader stays attached if and only if
      what it has not read and the new chunk together fit its limit, and its queue then ends where the output
      ends. Every other attached reader is evicted, with what it had not read on record; those evicted before
      stay as they are. */
  lemma PublishReaches(s: Session, steps: seq<Step>, id: string)
    requires Start(s) && Run(s, steps).phase.Publishing? && id in Run(s, steps).fan.attachments
    ensures var r := Run(s, steps);
      var u, e, c := Next(r, Publish), r.phase.event, r.fan.attachments[id];
      var unread := if c.placed then c.end - c.cursor else 0;
      && e.start <= e.end == u.window.latest == |u.tape.stream| && e.data == u.tape.stream[e.start..]
      && id in u.fan.attachments
      && var d := u.fan.attachments[id];
      && (c.state == Attached ==>
            && (d.state == Attached <==> unread + |e.data| <= s.attachmentBytes)
            && (d.state == Attached ==> d.placed && d.end == u.window.latest && d.cursor == if c.placed then c.cursor else e.start)
            && (d.state == Evicted ==> d.evicted == unread))
      && (c.state == Evicted ==> d == c)
      && (id in u.fan.active <==> d.state == Attached)
  {
    hide Run, Start, Inv, Next;
    ReachableInv(s, steps);
    SameLimit(s, steps);
    var r := Run(s, steps);
    NextInv(r, Publish);
    PublishReachesFrom(r, id);
  }

  lemma PublishReachesFrom(r: Session, id: string)
    requires Inv(r) && Inv(Next(r, Publish)) && r.phase.Publishing? && id in r.fan.attachments
    ensures var u, e, c := Next(r, Publish), r.phase.event, r.fan.attachments[id];
      var unread := if c.placed then c.end - c.cursor else 0;
      && e.start <= e.end == u.window.latest == |u.tape.stream| && e.data == u.tape.stream[e.start..]
      && id in u.fan.attachments
      && var d := u.fan.attachments[id];
      && (c.state == Attached ==>
            && (d.state == Attached <==> unread + |e.data| <= r.attachmentBytes)
            && (d.state == Attached ==> d.placed && d.end == u.window.latest && d.cursor == if c.placed then c.cursor else e.start)
            && (d.state == Evicted ==> d.evicted == unread))
      && (c.state == Evicted ==> d == c)
      && (id in u.fan.active <==> d.state == Attached)
  {
    hide RefsPart, RingPart, AllNeeded, CoveredAll, ChunksOk, WindowOk, Insert, Trim, InsertPool, TrimPool;
    PublishInOrder(r);
    LatestIsEnd(r);
    assert CursorFine(r, id);
  }

  /** A whole capture: the output grows by exactly the bytes read, and every reader with room for them has them
      queued. */
  lemma CaptureReaches(s: Session, steps: seq<Step>, data: seq<byte>, o: Owner, id: string)
    requires Start(s) && Run(s, steps).phase.Idle? && data != [] && o !in Run(s, steps).pool.owners
    requires |data| <= MAX_SEQUENCE - Run(s, steps).window.latest
    ensures var r := Run(s, steps);
      var u := Next(Next(Next(r, Capture(data, o)), Publish), ReleaseProducer);
      && u.phase.Idle? && u.tape.stream == r.tape.stream + data && u.window.latest == r.window.latest + |data|
      && (id in u.fan.attachments <==> id in r.fan.attachments)
      && (id in r.fan.active ==>
            && id in r.fan.attachments
            && var c, d := r.fan.attachments[id], u.fan.attachments[id];
            var unread := if c.placed then c.end - c.cursor else 0;
            && (id in u.fan.active <==> unread + |data| <= s.attachmentBytes)
            && (id in u.fan.active ==> d.placed && d.end == |u.tape.stream| && d.cursor == if c.placed then c.cursor else r.window.latest))
  {
    ReachableInv(s, steps);
    SameLimit(s, steps);
    var r := Run(s, steps);
    hide Run, Start;
    CaptureStarts(r, data, o);
    var a := Next(r, Capture(data, o));
    NextInv(r, Capture(data, o));
    NextInv(a, Publish);
    PublishEnds(a);
    hide Next;
    assert ActivePart(r.fan);
    if id in r.fan.attachments {
      PublishReachesFrom(a, id);
    }
  }

  lemma CaptureStarts(s: Session, data: seq<byte>, o: Owner)
    requires Inv(s) && s.phase.Idle? && data != [] && o !in s.pool.owners && |data| <= MAX_SEQUENCE - s.window.latest
    ensures var a := Next(s, Capture(data, o));
      && a.phase.Publishing? && a.phase.event.data == data && a.phase.event.start == s.window.latest
      && a.fan == s.fan && a.tape.stream == s.tape.stream + data && a.attachmentBytes == s.attachmentBytes
      && a.window.latest == s.window.latest + |data|
  {
    hide RefsPart, RingPart, CursorsPart, Compact, Dropped, ReleaseAll, WindowOk, ChunksOk;
    CompactLatest(Pushed(s.window, Chunk(s.window, 1, data, o)));
  }

  lemma PublishEnds(s: Session)
    requires s.phase.Publishing?
    ensures var u, v := Next(s, Publish), Next(Next(s, Publish), ReleaseProducer);
      && v.phase.Idle? && v.fan == u.fan && v.window == u.window == s.window && v.tape == u.tape == s.tape
      && u.fan.attachments.Keys == s.fan.attachments.Keys
  {
    hide Insert, Trim, InsertPool, TrimPool, Release, Offered;
  }

  // ----- readers do not disturb each other -----

  /** The operations that concern a reader: output, its own reads and its detach, and its own attach. */
  predicate Concerns(s: Session, step: Step, id: string) {
    match step
    case Publish => true
    case Take(reader, _) => reader == id
    case Detach(reader) => reader == id
    case Register => s.phase.Attaching? && s.phase.id == id
    case Enqueue => s.phase.Attaching? && s.phase.id == id
    case _ => false
  }

  /** No other operation changes anything about it, and a detached reader is gone. */
  lemma OthersUntouched(s: Session, step: Step, id: string)
    ensures !Concerns(s, step, id) ==>
      Look(Next(s, step).fan.attachments, id) == Look(s.fan.attachments, id) && Look(Next(s, step).delivered, id) == Look(s.delivered, id)
    ensures step == Detach(id) ==> id !in Next(s, step).fan.attachments
  {
    hide Insert, Trim, InsertPool, TrimPool, Release, ReleaseAll, RetainAll, Poll, AttachReplay, ReplayOf, AttachedCount, Offered;
  }

  // ----- how many readers -----

  function AttachedIds(f: Fan): set<string> {
    set id | id in f.attachments && f.attachments[id].state == Attached
  }

  /** There is room for the reader that is being attached. */
  ghost predicate Room(s: Session) {
    && |AttachedIds(s.fan)| <= s.maxAttachments
    && (s.phase.Attaching? && !s.phase.registered ==> |AttachedIds(s.fan)| < s.maxAttachments)
  }

  lemma FewerIds(a: set<string>, b: set<string>)
    requires a <= b
    ensures |a| <= |b|
  {
    assert b == a + (b - a);
  }

  /** Nobody is added except by `Register`, and a reader is about to be added only after `BeginAttach`. */
  ghost predicate IdsFit(s: Session, u: Session) {
    && u.maxAttachments == s.maxAttachments
    && (AttachedIds(u.fan) <= AttachedIds(s.fan)
        || (s.phase.Attaching? && !s.phase.registered && u.phase.Attaching? && u.phase.registered
            && AttachedIds(u.fan) == AttachedIds(s.fan) + {s.phase.id}))
    && (u.phase.Attaching? && !u.phase.registered ==>
          (s.phase.Attaching? && !s.phase.registered) || (u.fan == s.fan && |AttachedIds(s.fan)| < s.maxAttachments))
  }

  lemma PublishIds(s: Session)
    ensures IdsFit(s, PublishStep(s))
  {
    hide Insert, Trim, InsertPool, TrimPool;
  }

  lemma EnqueueIds(s: Session)
    ensures IdsFit(s, EnqueueStep(s))
  {
    hide Insert, Trim, InsertPool, TrimPool, ReleaseAll;
  }

  lemma TakeIds(s: Session, id: string, copied: bool)
    ensures IdsFit(s, TakeStep(s, id, copied))
  {
    hide Trim, TrimPool, Retain, Find;
  }

  lemma NextIds(s: Session, step: Step)
    ensures IdsFit(s, Next(s, step))
  {
    hide Trim, TrimPool, Release, ReleaseAll, RetainAll, AttachReplay, ReplayOf, PublishStep, EnqueueStep, TakeStep;
    match step
    case Publish => PublishIds(s);
    case Enqueue => EnqueueIds(s);
    case Take(id, copied) => TakeIds(s, id, copied);
    case _ =>
  }

  lemma NextRoom(s: Session, step: Step)
    requires Room(s)
    ensures Room(Next(s, step))
  {
    NextIds(s, step);
    var u := Next(s, step);
    hide Next, AttachedIds;
    if AttachedIds(u.fan) <= AttachedIds(s.fan) {
      FewerIds(AttachedIds(u.fan), AttachedIds(s.fan));
    } else {
      FewerIds(AttachedIds(s.fan), AttachedIds(u.fan));
    }
  }

  lemma {:induction false} RunRoom(s: Session, steps: seq<Step>)
    requires Room(s)
    ensures Room(Run(s, steps)) && Run(s, steps).maxAttachments == s.maxAttachments
    decreases |steps|
  {
    hide Room, Next;
    if steps != [] {
      NextRoom(s, steps[0]);
      NextIds(s, steps[0]);
      RunRoom(Next(s, steps[0]), steps[1..]);
    }
  }

  /** In every run at most so many readers are attached, and a further one is admitted exactly when there are
      fewer and it asks for a position in the window. */
  lemma AttachmentsBounded(s: Session, steps: seq<Step>, id: string, from: nat)
    requires Start(s)
    ensures var r := Run(s, steps);
      && |AttachedIds(r.fan)| <= s.maxAttachments
      && (r.phase.Idle? ==> (Next(r, BeginAttach(id, from)).phase.Attaching? <==>
            |AttachedIds(r.fan)| < s.maxAttachments && r.window.earliest <= from <= r.window.latest))
  {
    ReachableInv(s, steps);
    var r := Run(s, steps);
    assert AttachedIds(s.fan) == {};
    RunRoom(s, steps);
    hide Run, Start;
    AttachReplayEnds(r.window, r.tape.stream, from, r.attachmentBytes);
    hide AttachReplay, RetainAll, ReplayLimit;
  }

  // ----- where a reader starts -----

  /** At most 64 KiB, and at most half of the reader's limit, but always one byte. */
  predicate Near(distance: nat, limit: nat) {
    distance <= 0x1_0000 && (2 * distance <= limit || distance <= 1)
  }

  lemma NearIs(distance: nat, limit: nat)
    requires limit > 0
    ensures Near(distance, limit) <==> distance <= ReplayLimit(limit)
  {
  }

  lemma PositiveLimit(s: Session)
    requires Inv(s)
    ensures s.attachmentBytes > 0
  {
  }

  /** Every name but the empty one and those of attached readers can be attached, also that of an evicted reader. */
  lemma Admitted(f: Fan, id: string, limit: nat)
    requires id != "" && id !in AttachedIds(f) && limit > 0
    ensures AttachError(f, id, limit).None?
  {
  }

  lemma CountIs(f: Fan)
    ensures AttachedCount(f) == |AttachedIds(f)|
  {
  }

  /** An attach that nothing interrupts starts where it was asked to if that is near the end of the output, and
      otherwise as far back as is near. */
  lemma AttachStarts(s: Session, id: string, from: nat)
    requires Inv(s) && s.phase.Idle? && |AttachedIds(s.fan)| < s.maxAttachments
    requires id != "" && id !in AttachedIds(s.fan) && s.window.earliest <= from <= s.window.latest
    ensures var b := Next(Next(s, BeginAttach(id, from)), Register);
      && b.phase.Attaching?
      && var r := Next(Run(b, Enqueues(|b.phase.all|)), FinishAttach);
      && id in r.origin && s.window.earliest <= r.origin[id] <= s.window.latest == r.window.latest
      && (Near(s.window.latest - from, s.attachmentBytes) ==> r.origin[id] == from)
      && (!Near(s.window.latest - from, s.attachmentBytes) ==>
            && Near(s.window.latest - r.origin[id], s.attachmentBytes)
            && !Near(s.window.latest - r.origin[id] + 1, s.attachmentBytes))
  {
    hide Inv, Next, Run, ReplayLimit, AttachError, AttachedCount, AttachedIds, Near;
    CountIs(s.fan);
    PositiveLimit(s);
    Admitted(s.fan, id, s.attachmentBytes);
    AttachCompletes(s, id, from);
    NearIs(s.window.latest - from, s.attachmentBytes);
    NearIs(ReplayLimit(s.attachmentBytes), s.attachmentBytes);
    NearIs(ReplayLimit(s.attachmentBytes) + 1, s.attachmentBytes);
  }
}
