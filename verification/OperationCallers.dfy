/** Everybody who calls `Execute` (internal/operation/journal.go:117-200): the caller that runs the body, the callers
    that wait for it, and those that find it done.

    A waiting caller keeps the entry it found, even when that entry is evicted or another one takes its place
    before the caller wakes up.
 */
module OperationCallers {
  import opened Basics
  import J = OperationJournal

  type Caller = nat

  /** An entry object: the id it was made for, and when it was made. */
  datatype Ref = Ref(id: J.Id, made: nat)

  /** What is found once `done` is closed. */
  datatype Done = Done(outcome: J.Outcome, uncertain: bool)

  /** A caller has returned. `entry` is the one it ran or waited for; without one its answer came from the row. */
  datatype Return = Return(caller: Caller, id: J.Id, entry: Option<Ref>, done: Done)

  /** The entry objects: which one is the entry of an id, which are done, and who runs them. `answers` records what the
      body run for an entry answered, in this process or before; the code does not read it. */
  datatype Shelf = Shelf(made: map<J.Id, nat>, clock: nat, closed: map<Ref, Done>, answers: map<Ref, J.Outcome>,
                         runner: map<Ref, Caller>)

  datatype Hall = Hall(world: J.World, shelf: Shelf, waiting: map<Caller, Ref>, returned: seq<Return>)

  // ----- entry objects -----

  predicate Current(s: Shelf, ref: Ref) { Look(s.made, ref.id) == Some(ref.made) }

  /** Only these ids keep their entries. */
  function Pruned(s: Shelf, keep: set<J.Id>): Shelf { s.(made := map x | x in s.made && x in keep :: s.made[x]) }

  /** A new entry, run by `c`. */
  function Made(s: Shelf, id: J.Id, c: Caller): Shelf {
    s.(made := s.made[id := s.clock], clock := s.clock + 1, runner := s.runner[Ref(id, s.clock) := c])
  }

  function Answered(s: Shelf, ref: Ref, outcome: J.Outcome): Shelf { s.(answers := s.answers[ref := outcome]) }

  function Closed(s: Shelf, ref: Ref, done: Done): Shelf { s.(closed := s.closed[ref := done]) }

  /** The memory of a process is gone. */
  function Emptied(s: Shelf): Shelf { s.(made := map[], closed := map[], runner := map[]) }

  function DoneOf(e: J.Entry): Done {
    if e.state.Complete? then Done(e.state.outcome, e.state.uncertain) else Done(J.NOTHING, true)
  }

  /** Every loaded entry is a new object, done from the beginning. */
  function Loaded(s: Shelf, entries: map<J.Id, J.Entry>, result: map<J.Id, J.Outcome>): Shelf {
    Shelf(map x | x in entries :: s.clock, s.clock + 1,
          map x | x in entries :: Ref(x, s.clock) := DoneOf(entries[x]),
          s.answers + (map x | x in entries && x in result :: Ref(x, s.clock) := result[x]),
          map[])
  }

  // ----- moves -----

  /** `Leave`: the context of a waiting caller ends. */
  datatype Move =
    | Calls(caller: Caller, id: J.Id, hash: J.Hash, now: nat, cleanup: Fault, reserve: Fault)
    | Does(step: J.Step)
    | Wake(caller: Caller)
    | Leave(caller: Caller)

  /** The world is `u` now, and the caller is told `answer`. */
  function Heard(h: Hall, u: J.World, answer: J.Answer, c: Caller, id: J.Id): Hall {
    var s := Pruned(h.shelf, u.entries.Keys);
    match answer
    case Run => h.(world := u, shelf := Made(s, id, c))
    case Wait =>
      if id in s.made then h.(world := u, shelf := s, waiting := h.waiting[c := Ref(id, s.made[id])])
      else h.(world := u, shelf := s)
    case Replay(outcome) => h.(world := u, shelf := s, returned := h.returned + [Return(c, id, None, Done(outcome, false))])
    case _ => h.(world := u, shelf := s)
  }

  function Called(h: Hall, c: Caller, id: J.Id, hash: J.Hash, now: nat, cleanup: Fault, reserve: Fault): Hall {
    var (u, answer) := J.Enter(h.world, id, hash, now, cleanup, reserve);
    Heard(h, u, answer, c, id)
  }

  function Ran(h: Hall, id: J.Id, outcome: J.Outcome): Hall {
    h.(world := J.Body(h.world, id, outcome),
       shelf := if J.Starts(h.world, J.RunBody(id, outcome), id) && id in h.shelf.made
                then Answered(h.shelf, Ref(id, h.shelf.made[id]), outcome) else h.shelf)
  }

  /** The entry is done, and the caller that ran its body returns what the body answered. */
  function Finished(h: Hall, id: J.Id): Hall {
    var u := J.Finish(h.world, id);
    if id !in h.world.tasks || !h.world.tasks[id].stage.Saved? || id !in h.world.entries || id !in h.shelf.made
    then h.(world := u)
    else
      var ref := Ref(id, h.shelf.made[id]);
      var done := Done(h.world.tasks[id].stage.outcome, !h.world.tasks[id].stage.ok);
      h.(world := u, shelf := Closed(h.shelf, ref, done),
         returned := if ref in h.shelf.runner then h.returned + [Return(h.shelf.runner[ref], id, Some(ref), done)] else h.returned)
  }

  function Stopped(h: Hall): Hall { h.(world := J.Stop(h.world), shelf := Emptied(h.shelf), waiting := map[]) }

  ghost function Started(h: Hall, now: nat, ids: seq<J.Id>, large: J.Outcome -> bool): Hall {
    var u := J.Start(h.world, now, ids, large);
    if h.world.up || !u.up then h.(world := u)
    else h.(world := u, shelf := Loaded(h.shelf, u.entries, u.result), waiting := map[])
  }

  function Woken(h: Hall, c: Caller): Hall {
    if c !in h.waiting || h.waiting[c] !in h.shelf.closed then h
    else
      var ref := h.waiting[c];
      h.(waiting := h.waiting - {c}, returned := h.returned + [Return(c, ref.id, Some(ref), h.shelf.closed[ref])])
  }

  ghost function Next(h: Hall, m: Move, large: J.Outcome -> bool): Hall {
    match m
    case Calls(c, id, hash, now, cleanup, reserve) =>
      if !h.world.up || c in h.waiting then h else Called(h, c, id, hash, now, cleanup, reserve)
    case Does(step) =>
      (match step
       case Call(_, _, _, _, _) => h
       case RunBody(id, outcome) => Ran(h, id, outcome)
       case SaveResult(id, now, fault) => h.(world := J.Save(h.world, id, now, fault, large))
       case FinishCall(id) => Finished(h, id)
       case Crash => Stopped(h)
       case Boot(now, ids) => Started(h, now, ids, large))
    case Wake(c) => Woken(h, c)
    case Leave(c) => h.(waiting := h.waiting - {c})
  }

  ghost function Run(h: Hall, moves: seq<Move>, large: J.Outcome -> bool): Hall
    decreases |moves|
  {
    if moves == [] then h else Run(Next(h, moves[0], large), moves[1..], large)
  }

  // ----- what every move keeps -----

  /** What a caller is told is what the body answered; or nothing is known. */
  predicate Told(answer: Option<J.Outcome>, done: Done) {
    answer == Some(done.outcome) || (done.uncertain && done.outcome == J.NOTHING)
  }

  predicate Running(e: Option<J.Entry>) { e.Some? && e.value.state.Progress? }

  /** The entry of an id has the id's result as its answer; it is done exactly when its state says so, and
      otherwise somebody runs it. */
  predicate EntryOk(s: Shelf, e: Option<J.Entry>, result: Option<J.Outcome>, id: J.Id) {
    && (id in s.made <==> e.Some?)
    && (id in s.made ==>
          && var ref := Ref(id, s.made[id]);
          && ref.made < s.clock && Look(s.answers, ref) == result
          && (if Running(e) then ref !in s.closed && ref in s.runner else Look(s.closed, ref) == Some(DoneOf(e.value))))
  }

  predicate RefOk(s: Shelf, ref: Ref) {
    && (ref in s.closed || ref in s.answers ==> ref.made < s.clock)
    && (ref in s.closed ==> Told(Look(s.answers, ref), s.closed[ref]) && (ref in s.answers || Current(s, ref)))
  }

  /** The entry is done, or it is still there and in progress. */
  predicate WaitOk(s: Shelf, e: Option<J.Entry>, ref: Ref) {
    ref.made < s.clock && (ref in s.closed || (Current(s, ref) && Running(e)))
  }

  predicate ReturnOk(s: Shelf, r: Return) {
    r.entry.Some? ==> r.entry.value.id == r.id && r.entry.value.made < s.clock && Told(Look(s.answers, r.entry.value), r.done)
  }

  ghost predicate EntriesOk(h: Hall) {
    forall id :: EntryOk(h.shelf, Look(h.world.entries, id), Look(h.world.result, id), id)
  }

  ghost predicate RefsOk(s: Shelf) { forall ref :: RefOk(s, ref) }

  ghost predicate WaitsOk(h: Hall) {
    forall c :: c in h.waiting ==> WaitOk(h.shelf, Look(h.world.entries, h.waiting[c].id), h.waiting[c])
  }

  ghost predicate ReturnsOk(s: Shelf, rs: seq<Return>) { forall k :: 0 <= k < |rs| ==> ReturnOk(s, rs[k]) }

  ghost predicate Inv(h: Hall) {
    J.Inv(h.world) && EntriesOk(h) && RefsOk(h.shelf) && WaitsOk(h) && ReturnsOk(h.shelf, h.returned)
  }

  /** No answer is forgotten or changed. */
  ghost predicate Grows(s: Shelf, t: Shelf) {
    s.clock <= t.clock && forall ref :: ref in s.answers ==> Look(t.answers, ref) == Look(s.answers, ref)
  }

  lemma ReturnsStay(s: Shelf, t: Shelf, rs: seq<Return>)
    requires ReturnsOk(s, rs) && Grows(s, t)
    ensures ReturnsOk(t, rs)
  {
    forall i | 0 <= i < |rs| ensures ReturnOk(t, rs[i]) { assert ReturnOk(s, rs[i]); }
  }

  lemma ReturnsMore(s: Shelf, rs: seq<Return>, r: Return)
    requires ReturnsOk(s, rs) && ReturnOk(s, r)
    ensures ReturnsOk(s, rs + [r])
  {
  }

  // ----- calls -----

  lemma PrunedEntry(s: Shelf, keep: set<J.Id>, e: Option<J.Entry>, f: Option<J.Entry>, r: Option<J.Outcome>, q: Option<J.Outcome>, x: J.Id)
    requires EntryOk(s, e, r, x) && (if x in keep && x in s.made then f == e && q == r else f.None?)
    ensures EntryOk(Pruned(s, keep), f, q, x)
  {
  }

  lemma PrunedRef(s: Shelf, keep: set<J.Id>, ref: Ref)
    requires RefOk(s, ref) && (Current(s, ref) && ref.id !in keep ==> ref in s.answers)
    ensures RefOk(Pruned(s, keep), ref)
  {
  }

  lemma PrunedWait(s: Shelf, keep: set<J.Id>, e: Option<J.Entry>, f: Option<J.Entry>, ref: Ref)
    requires WaitOk(s, e, ref) && (Running(e) ==> ref.id in keep && f == e)
    ensures WaitOk(Pruned(s, keep), f, ref)
  {
  }

  lemma MadeEntry(s: Shelf, id: J.Id, c: Caller, e: Option<J.Entry>, r: Option<J.Outcome>, x: J.Id)
    requires id !in s.made && RefOk(s, Ref(id, s.clock))
    requires if x == id then Running(e) && r.None? else EntryOk(s, e, r, x)
    ensures EntryOk(Made(s, id, c), e, r, x)
  {
  }

  lemma MadeRef(s: Shelf, id: J.Id, c: Caller, e: Option<J.Entry>, ref: Ref)
    requires id !in s.made
    ensures (RefOk(s, ref) ==> RefOk(Made(s, id, c), ref)) && (WaitOk(s, e, ref) ==> WaitOk(Made(s, id, c), e, ref))
  {
  }

  /** What a call does to one id. */
  predicate CallAt(w: J.World, u: J.World, answer: J.Answer, id: J.Id, x: J.Id) {
    && (x in w.entries && x !in u.entries ==> J.Certain(w.entries[x]))
    && (x in u.entries && !(answer.Run? && x == id) ==> x in w.entries && u.entries[x] == w.entries[x])
    && (x != id || id in w.entries ==> Look(u.result, x) == Look(w.result, x))
    && (answer.Run? && x == id ==> x !in w.entries && x in u.entries && u.entries[x].state.Progress? && x !in u.result)
  }

  lemma CallsAt(w: J.World, id: J.Id, hash: J.Hash, now: nat, cleanup: Fault, reserve: Fault)
    requires J.Inv(w) && w.up
    ensures var (u, answer) := J.Enter(w, id, hash, now, cleanup, reserve);
      && J.Inv(u) && (answer.Wait? ==> u == w) && forall x :: CallAt(w, u, answer, id, x)
  {
    J.EnterShape(w, id, hash, now, cleanup, reserve);
    J.EnterInv(w, id, hash, now, cleanup, reserve);
    hide J.Enter, J.Inv;
  }

  lemma CertainAnswered(w: J.World, s: Shelf, ref: Ref)
    requires J.ViewsOk(w) && EntryOk(s, Look(w.entries, ref.id), Look(w.result, ref.id), ref.id)
    requires Current(s, ref) && ref.id in w.entries && J.Certain(w.entries[ref.id])
    ensures ref in s.answers
  {
    assert J.ViewOk(J.ViewOf(w, ref.id));
  }

  /** What remains of the entry objects is in order. */
  lemma PrunedOk(h: Hall, u: J.World, answer: J.Answer, id: J.Id)
    requires Inv(h) && forall x :: CallAt(h.world, u, answer, id, x)
    ensures var s := Pruned(h.shelf, u.entries.Keys);
      && (forall x :: !(answer.Run? && x == id) ==> EntryOk(s, Look(u.entries, x), Look(u.result, x), x))
      && RefsOk(s) && (answer.Run? ==> id !in s.made)
      && (forall c :: c in h.waiting ==> WaitOk(s, Look(u.entries, h.waiting[c].id), h.waiting[c]))
      && ReturnsOk(s, h.returned)
  {
    hide EntryOk, RefOk, WaitOk, J.MemoryOk, J.ViewsOk, ReturnsOk;
    var w, keep := h.world, u.entries.Keys;
    var s := Pruned(h.shelf, keep);
    forall x | !(answer.Run? && x == id) ensures EntryOk(s, Look(u.entries, x), Look(u.result, x), x) {
      assert CallAt(w, u, answer, id, x);
      KnownMade(h, x);
      PrunedEntry(h.shelf, keep, Look(w.entries, x), Look(u.entries, x), Look(w.result, x), Look(u.result, x), x);
    }
    forall ref ensures RefOk(s, ref) {
      assert CallAt(w, u, answer, id, ref.id);
      KnownMade(h, ref.id);
      if Current(h.shelf, ref) && ref.id !in keep { CertainAnswered(w, h.shelf, ref); }
      PrunedRef(h.shelf, keep, ref);
    }
    forall c | c in h.waiting ensures WaitOk(s, Look(u.entries, h.waiting[c].id), h.waiting[c]) {
      var x := h.waiting[c].id;
      assert CallAt(w, u, answer, id, x);
      PrunedWait(h.shelf, keep, Look(w.entries, x), Look(u.entries, x), h.waiting[c]);
    }
    if answer.Run? { assert CallAt(w, u, answer, id, id); KnownMade(h, id); }
    ReturnsStay(h.shelf, s, h.returned);
  }

  lemma KnownMade(h: Hall, x: J.Id)
    requires EntriesOk(h)
    ensures EntryOk(h.shelf, Look(h.world.entries, x), Look(h.world.result, x), x) && (x in h.shelf.made <==> x in h.world.entries)
  {
    assert EntryOk(h.shelf, Look(h.world.entries, x), Look(h.world.result, x), x);
  }

  lemma HeardRun(h: Hall, u: J.World, c: Caller, id: J.Id)
    requires Inv(h) && J.Inv(u) && forall x :: CallAt(h.world, u, J.Run, id, x)
    ensures Inv(Heard(h, u, J.Run, c, id))
  {
    PrunedOk(h, u, J.Run, id);
    hide J.Inv, Pruned, EntryOk, RefOk, WaitOk, ReturnsOk;
    var s := Pruned(h.shelf, u.entries.Keys);
    var t := Made(s, id, c);
    assert CallAt(h.world, u, J.Run, id, id);
    forall x ensures EntryOk(t, Look(u.entries, x), Look(u.result, x), x) {
      MadeEntry(s, id, c, Look(u.entries, x), Look(u.result, x), x);
    }
    forall ref ensures RefOk(t, ref) { MadeRef(s, id, c, None, ref); }
    forall d | d in h.waiting ensures WaitOk(t, Look(u.entries, h.waiting[d].id), h.waiting[d]) {
      MadeRef(s, id, c, Look(u.entries, h.waiting[d].id), h.waiting[d]);
    }
    ReturnsStay(s, t, h.returned);
  }

  lemma FoundWait(s: Shelf, e: Option<J.Entry>, r: Option<J.Outcome>, id: J.Id)
    requires EntryOk(s, e, r, id) && id in s.made
    ensures WaitOk(s, e, Ref(id, s.made[id]))
  {
  }

  lemma HeardOther(h: Hall, u: J.World, answer: J.Answer, c: Caller, id: J.Id)
    requires Inv(h) && J.Inv(u) && !answer.Run? && forall x :: CallAt(h.world, u, answer, id, x)
    ensures Inv(Heard(h, u, answer, c, id))
  {
    PrunedOk(h, u, answer, id);
    hide J.Inv, Pruned, EntryOk, RefOk, WaitOk, ReturnsOk, CallAt;
    var k, s := Heard(h, u, answer, c, id), Pruned(h.shelf, u.entries.Keys);
    if answer.Wait? && id in s.made { FoundWait(s, Look(u.entries, id), Look(u.result, id), id); }
    if answer.Replay? { ReturnsMore(s, h.returned, Return(c, id, None, Done(answer.outcome, false))); }
  }

  lemma CalledInv(h: Hall, c: Caller, id: J.Id, hash: J.Hash, now: nat, cleanup: Fault, reserve: Fault)
    requires Inv(h) && h.world.up
    ensures Inv(Called(h, c, id, hash, now, cleanup, reserve))
  {
    CallsAt(h.world, id, hash, now, cleanup, reserve);
    hide J.Enter, J.Inv, CallAt, EntriesOk, RefsOk, WaitsOk, ReturnsOk, Heard;
    var (u, answer) := J.Enter(h.world, id, hash, now, cleanup, reserve);
    if answer.Run? { HeardRun(h, u, c, id); } else { HeardOther(h, u, answer, c, id); }
  }

  // ----- the other steps -----

  lemma AnsweredEntry(s: Shelf, ref: Ref, o: J.Outcome, e: Option<J.Entry>, r: Option<J.Outcome>, q: Option<J.Outcome>, x: J.Id)
    requires EntryOk(s, e, r, x) && Current(s, ref) && q == if x == ref.id then Some(o) else r
    ensures EntryOk(Answered(s, ref, o), e, q, x)
  {
  }

  lemma AnsweredRef(s: Shelf, ref: Ref, o: J.Outcome, e: Option<J.Entry>, q: Ref)
    requires ref !in s.closed && ref.made < s.clock
    ensures RefOk(s, q) ==> RefOk(Answered(s, ref, o), q)
    ensures WaitOk(s, e, q) ==> WaitOk(Answered(s, ref, o), e, q)
  {
  }

  /** The body of `id` is about to start: its entry has no answer and is not done. */
  lemma StartsFresh(h: Hall, id: J.Id)
    requires J.ViewsOk(h.world) && EntriesOk(h) && id in h.world.tasks && h.world.tasks[id].stage.Reserved?
    ensures id in h.shelf.made
    ensures var ref := Ref(id, h.shelf.made[id]);
      ref !in h.shelf.answers && ref !in h.shelf.closed && ref.made < h.shelf.clock && Current(h.shelf, ref)
    ensures id !in h.world.result
  {
    assert J.ViewOk(J.ViewOf(h.world, id));
    KnownMade(h, id);
  }

  lemma RanInv(h: Hall, id: J.Id, outcome: J.Outcome)
    requires Inv(h)
    ensures Inv(Ran(h, id, outcome))
  {
    J.BodyInv(h.world, id, outcome);
    if id in h.world.tasks && h.world.tasks[id].stage.Reserved? {
      StartsFresh(h, id);
      var u, ref := J.Body(h.world, id, outcome), Ref(id, h.shelf.made[id]);
      assert u.entries == h.world.entries && u.result == h.world.result[id := outcome];
      hide J.Inv, J.Body, EntryOk, RefOk, WaitOk, ReturnsOk, Current;
      var t := Answered(h.shelf, ref, outcome);
      forall x ensures EntryOk(t, Look(u.entries, x), Look(u.result, x), x) {
        AnsweredEntry(h.shelf, ref, outcome, Look(u.entries, x), Look(h.world.result, x), Look(u.result, x), x);
      }
      forall q ensures RefOk(t, q) { AnsweredRef(h.shelf, ref, outcome, None, q); }
      forall c | c in h.waiting ensures WaitOk(t, Look(u.entries, h.waiting[c].id), h.waiting[c]) {
        AnsweredRef(h.shelf, ref, outcome, Look(u.entries, h.waiting[c].id), h.waiting[c]);
      }
      ReturnsStay(h.shelf, t, h.returned);
    }
  }

  lemma SavedInv(h: Hall, id: J.Id, now: nat, fault: Fault, large: J.Outcome -> bool)
    requires Inv(h)
    ensures Inv(h.(world := J.Save(h.world, id, now, fault, large)))
  {
    J.SaveInv(h.world, id, now, fault, large);
    var u := J.Save(h.world, id, now, fault, large);
    assert u.entries == h.world.entries && u.result == h.world.result;
    hide J.Inv, J.Save, EntryOk, RefOk, WaitOk, ReturnsOk;
  }

  lemma ClosedEntry(s: Shelf, ref: Ref, done: Done, e: Option<J.Entry>, f: Option<J.Entry>, r: Option<J.Outcome>, x: J.Id)
    requires EntryOk(s, e, r, x) && Current(s, ref)
    requires if x == ref.id then f.Some? && !Running(f) && DoneOf(f.value) == done else f == e
    ensures EntryOk(Closed(s, ref, done), f, r, x)
  {
  }

  lemma ClosedRef(s: Shelf, ref: Ref, done: Done, q: Ref)
    requires RefOk(s, q) && Told(Look(s.answers, ref), done) && ref.made < s.clock && Current(s, ref)
    ensures RefOk(Closed(s, ref, done), q)
  {
  }

  lemma ClosedWait(s: Shelf, ref: Ref, done: Done, e: Option<J.Entry>, f: Option<J.Entry>, q: Ref)
    requires WaitOk(s, e, q) && Current(s, ref) && (q.id != ref.id ==> f == e)
    ensures WaitOk(Closed(s, ref, done), f, q)
  {
  }

  /** What the caller that ran the body returns is what the body answered. */
  lemma RunnerTold(h: Hall, id: J.Id)
    requires J.ViewsOk(h.world) && EntriesOk(h) && id in h.world.tasks && h.world.tasks[id].stage.Saved?
    ensures id in h.shelf.made && id in h.world.entries && Look(h.world.result, id) == Some(h.world.tasks[id].stage.outcome)
    ensures var ref := Ref(id, h.shelf.made[id]);
      && Look(h.shelf.answers, ref) == Look(h.world.result, id) && ref.made < h.shelf.clock && Current(h.shelf, ref)
      && ref in h.shelf.runner
  {
    assert J.ViewOk(J.ViewOf(h.world, id));
    KnownMade(h, id);
  }

  lemma FinishedInv(h: Hall, id: J.Id)
    requires Inv(h)
    ensures Inv(Finished(h, id))
  {
    J.FinishInv(h.world, id);
    if id in h.world.tasks && h.world.tasks[id].stage.Saved? {
      RunnerTold(h, id);
      var u, ref, stage := J.Finish(h.world, id), Ref(id, h.shelf.made[id]), h.world.tasks[id].stage;
      var done := Done(stage.outcome, !stage.ok);
      assert u.result == h.world.result && forall x :: x != id ==> Look(u.entries, x) == Look(h.world.entries, x);
      assert id in u.entries && u.entries[id].state == J.Complete(done.outcome, done.uncertain);
      hide J.Inv, J.Finish, EntryOk, RefOk, WaitOk, ReturnsOk, Current;
      var t := Closed(h.shelf, ref, done);
      forall x ensures EntryOk(t, Look(u.entries, x), Look(u.result, x), x) {
        ClosedEntry(h.shelf, ref, done, Look(h.world.entries, x), Look(u.entries, x), Look(u.result, x), x);
      }
      forall q ensures RefOk(t, q) { ClosedRef(h.shelf, ref, done, q); }
      forall c | c in h.waiting ensures WaitOk(t, Look(u.entries, h.waiting[c].id), h.waiting[c]) {
        var x := h.waiting[c].id;
        ClosedWait(h.shelf, ref, done, Look(h.world.entries, x), Look(u.entries, x), h.waiting[c]);
      }
      ReturnsStay(h.shelf, t, h.returned);
      ReturnsMore(t, h.returned, Return(h.shelf.runner[ref], id, Some(ref), done));
    } else {
      assert J.Finish(h.world, id) == h.world;
    }
  }

  lemma EmptiedRef(s: Shelf, ref: Ref)
    requires RefOk(s, ref)
    ensures RefOk(Emptied(s), ref)
  {
  }

  lemma StoppedInv(h: Hall)
    requires Inv(h)
    ensures Inv(Stopped(h))
  {
    J.StopInv(h.world);
    hide J.Inv, RefOk, ReturnsOk;
    forall ref ensures RefOk(Emptied(h.shelf), ref) { EmptiedRef(h.shelf, ref); }
    ReturnsStay(h.shelf, Emptied(h.shelf), h.returned);
  }

  /** What a start loads. */
  lemma StartLoads(w: J.World, now: nat, ids: seq<J.Id>, large: J.Outcome -> bool)
    requires J.Inv(w) && !w.up && J.Start(w, now, ids, large).up
    ensures var u := J.Start(w, now, ids, large);
      && u.result == w.result
      && forall x :: x in u.entries ==> !Running(Some(u.entries[x])) && Told(Look(u.result, x), DoneOf(u.entries[x]))
  {
    var u := J.Start(w, now, ids, large);
    forall x | x in u.entries ensures !Running(Some(u.entries[x])) && Told(Look(u.result, x), DoneOf(u.entries[x])) {
      assert J.ViewOk(J.ViewOf(w, x));
    }
  }

  lemma LoadedEntry(s: Shelf, es: map<J.Id, J.Entry>, rs: map<J.Id, J.Outcome>, x: J.Id)
    requires RefOk(s, Ref(x, s.clock)) && (x in es ==> !Running(Some(es[x])))
    ensures EntryOk(Loaded(s, es, rs), Look(es, x), Look(rs, x), x)
  {
  }

  lemma LoadedRef(s: Shelf, es: map<J.Id, J.Entry>, rs: map<J.Id, J.Outcome>, ref: Ref)
    requires RefOk(s, ref) && (ref.id in es ==> Told(Look(rs, ref.id), DoneOf(es[ref.id])))
    ensures RefOk(Loaded(s, es, rs), ref)
    ensures ref in s.answers ==> Look(Loaded(s, es, rs).answers, ref) == Look(s.answers, ref)
  {
  }

  lemma StartEffect(w: J.World, now: nat, ids: seq<J.Id>, large: J.Outcome -> bool)
    ensures var u := J.Start(w, now, ids, large); (w.up || !u.up ==> u == w) && u.result == w.result
  {
  }

  lemma LoadedGrows(s: Shelf, es: map<J.Id, J.Entry>, rs: map<J.Id, J.Outcome>)
    requires RefsOk(s) && forall x :: x in es ==> Told(Look(rs, x), DoneOf(es[x]))
    ensures Grows(s, Loaded(s, es, rs)) && RefsOk(Loaded(s, es, rs))
  {
    hide RefOk, Told, Loaded;
    LoadedClock(s, es, rs);
    forall ref ensures RefOk(Loaded(s, es, rs), ref) { LoadedRef(s, es, rs, ref); }
    forall ref | ref in s.answers ensures Look(Loaded(s, es, rs).answers, ref) == Look(s.answers, ref) {
      LoadedRef(s, es, rs, ref);
    }
  }

  lemma StartedInv(h: Hall, now: nat, ids: seq<J.Id>, large: J.Outcome -> bool)
    requires Inv(h)
    ensures Inv(Started(h, now, ids, large))
  {
    hide J.Inv, J.Start, EntryOk, RefOk, ReturnsOk, Told, Loaded, Grows, Running;
    var u := J.Start(h.world, now, ids, large);
    J.StartInv(h.world, now, ids, large);
    StartEffect(h.world, now, ids, large);
    if !h.world.up && u.up {
      StartLoads(h.world, now, ids, large);
      var t := Loaded(h.shelf, u.entries, u.result);
      forall x ensures EntryOk(t, Look(u.entries, x), Look(u.result, x), x) { LoadedEntry(h.shelf, u.entries, u.result, x); }
      LoadedGrows(h.shelf, u.entries, u.result);
      ReturnsStay(h.shelf, t, h.returned);
    }
  }

  lemma LoadedClock(s: Shelf, es: map<J.Id, J.Entry>, rs: map<J.Id, J.Outcome>)
    ensures Loaded(s, es, rs).clock == s.clock + 1
  {
  }

  lemma WokenInv(h: Hall, c: Caller)
    requires Inv(h)
    ensures Inv(Woken(h, c)) && Inv(h.(waiting := h.waiting - {c}))
  {
    if c in h.waiting && h.waiting[c] in h.shelf.closed {
      WokenTold(h, c);
      ReturnsMore(h.shelf, h.returned, Return(c, h.waiting[c].id, Some(h.waiting[c]), h.shelf.closed[h.waiting[c]]));
    }
    hide J.Inv, EntryOk, RefOk, WaitOk, ReturnsOk;
  }

  lemma WokenTold(h: Hall, c: Caller)
    requires RefsOk(h.shelf) && c in h.waiting && h.waiting[c] in h.shelf.closed
    ensures ReturnOk(h.shelf, Return(c, h.waiting[c].id, Some(h.waiting[c]), h.shelf.closed[h.waiting[c]]))
  {
    assert RefOk(h.shelf, h.waiting[c]);
  }

  lemma NextInv(h: Hall, m: Move, large: J.Outcome -> bool)
    requires Inv(h)
    ensures Inv(Next(h, m, large))
  {
    hide Inv, Called, Ran, Finished, Stopped, Started, Woken, J.Save;
    match m
    case Calls(c, id, hash, now, cleanup, reserve) => if h.world.up { CalledInv(h, c, id, hash, now, cleanup, reserve); }
    case Wake(c) => WokenInv(h, c);
    case Leave(c) => WokenInv(h, c);
    case Does(step) =>
      match step {
        case Call(_, _, _, _, _) =>
        case RunBody(id, outcome) => RanInv(h, id, outcome);
        case SaveResult(id, now, fault) => SavedInv(h, id, now, fault, large);
        case FinishCall(id) => FinishedInv(h, id);
        case Crash => StoppedInv(h);
        case Boot(now, ids) => StartedInv(h, now, ids, large);
      }
  }

  lemma {:induction false} RunInv(h: Hall, moves: seq<Move>, large: J.Outcome -> bool)
    requires Inv(h)
    ensures Inv(Run(h, moves, large))
    decreases |moves|
  {
    hide Inv, Next;
    if moves != [] {
      NextInv(h, moves[0], large);
      RunInv(Next(h, moves[0], large), moves[1..], large);
    }
  }

  // ----- what callers are told -----

  /** The caller is told an outcome, with or without the error of an uncertain one. */
  predicate Known(done: Done) { !(done.uncertain && done.outcome == J.NOTHING) }

  /** No process has run yet, and nobody has called. */
  predicate Fresh(h: Hall) {
    h.shelf == Shelf(map[], 0, map[], map[], map[]) && h.waiting == map[] && h.returned == [] && h.world.entries == map[]
  }

  lemma FreshInv(h: Hall)
    requires Fresh(h) && J.Inv(h.world)
    ensures Inv(h)
  {
    hide J.Inv;
  }

  /** In every run, however calls, bodies, writes, evictions, stops and starts interleave: whoever ran the body of an
      entry or waited for it, and is told an outcome, is told what that one body answered, although the entry may have
      been evicted or replaced meanwhile. So all of them are told the same. */
  lemma RunnerAndWaitersAgree(h: Hall, moves: seq<Move>, large: J.Outcome -> bool, i: nat, j: nat)
    requires Fresh(h) && J.Inv(h.world) && i < |Run(h, moves, large).returned| && j < |Run(h, moves, large).returned|
    ensures var r := Run(h, moves, large);
      var a, b := r.returned[i], r.returned[j];
      && (a.entry.Some? && Known(a.done) ==> Look(r.shelf.answers, a.entry.value) == Some(a.done.outcome))
      && (a.entry.Some? && a.entry == b.entry && Known(a.done) && Known(b.done) ==> a.done.outcome == b.done.outcome)
  {
    FreshInv(h);
    RunInv(h, moves, large);
    var r := Run(h, moves, large);
    assert ReturnOk(r.shelf, r.returned[i]) && ReturnOk(r.shelf, r.returned[j]);
  }

  /** Nobody is forgotten: in every run the entry of a waiting caller is done, so that the caller can return, or its
      body is still on its way and its runner is known. */
  lemma WaitersServed(h: Hall, moves: seq<Move>, large: J.Outcome -> bool, c: Caller)
    requires Fresh(h) && J.Inv(h.world)
    ensures var r := Run(h, moves, large);
      c in r.waiting ==> r.waiting[c] in r.shelf.closed || (r.waiting[c].id in r.world.tasks && r.waiting[c] in r.shelf.runner)
  {
    FreshInv(h);
    RunInv(h, moves, large);
    var r := Run(h, moves, large);
    hide Run, Fresh;
    if c in r.waiting && r.waiting[c] !in r.shelf.closed {
      var id := r.waiting[c].id;
      assert WaitOk(r.shelf, Look(r.world.entries, id), r.waiting[c]);
      assert J.ViewOk(J.ViewOf(r.world, id));
      KnownMade(r, id);
    }
  }

  /** Nobody is kept waiting for nothing: once the entry that a caller waits for is done, the caller wakes up with exactly
      what is found there; and whoever runs a body returns when the entry is closed, with what was saved. */
  lemma EveryoneReturns(h: Hall, large: J.Outcome -> bool, c: Caller, id: J.Id)
    requires Inv(h)
    ensures c in h.waiting && h.waiting[c] in h.shelf.closed ==>
      var k, ref := Next(h, Wake(c), large), h.waiting[c];
      k.returned == h.returned + [Return(c, ref.id, Some(ref), h.shelf.closed[ref])] && c !in k.waiting
    ensures id in h.world.tasks && h.world.tasks[id].stage.Saved? ==>
      var k, t := Next(h, Does(J.FinishCall(id)), large), h.world.tasks[id].stage;
      && id in h.shelf.made && id !in k.world.tasks
      && var ref := Ref(id, h.shelf.made[id]);
      && ref in h.shelf.runner && ref in k.shelf.closed && k.shelf.closed[ref] == Done(t.outcome, !t.ok)
      && k.returned == h.returned + [Return(h.shelf.runner[ref], id, Some(ref), Done(t.outcome, !t.ok))]
  {
    if id in h.world.tasks && h.world.tasks[id].stage.Saved? {
      assert J.ViewOk(J.ViewOf(h.world, id));
      KnownMade(h, id);
      RunnerTold(h, id);
    }
  }

  // ----- while the row is retained -----

  /** The row of `id` exists and does not expire before any move looks at the clock. */
  ghost predicate AliveIn(h: Hall, moves: seq<Move>, large: J.Outcome -> bool, id: J.Id)
    decreases |moves|
  {
    && id in h.world.store
    && (moves != [] ==>
          && (moves[0].Calls? ==> h.world.store[id].expires > moves[0].now)
          && (moves[0].Does? && moves[0].step.Boot? ==> h.world.store[id].expires > moves[0].step.now)
          && AliveIn(Next(h, moves[0], large), moves[1..], large, id))
  }

  /** Whoever waits for an entry of `id` waits for the result of its row. */
  ghost predicate Aligned(h: Hall, id: J.Id, stale: set<Ref>) {
    forall c :: c in h.waiting && h.waiting[c].id == id && h.waiting[c] !in stale ==>
      Look(h.shelf.answers, h.waiting[c]) == Look(h.world.result, id)
  }

  /** A move keeps that and the result, and who returns from `id` in it is told the result. */
  ghost predicate Tells(h: Hall, k: Hall, id: J.Id, stale: set<Ref>) {
    && Aligned(k, id, stale) && (id in h.world.result ==> Look(k.world.result, id) == Look(h.world.result, id))
    && (k.returned == h.returned
        || (|k.returned| == |h.returned| + 1 && k.returned[..|h.returned|] == h.returned && TellsLast(k, id, stale)))
  }

  /** The caller returns from `id` with an outcome, and not from one of the stale entries. */
  predicate Fair(r: Return, id: J.Id, stale: set<Ref>) {
    r.id == id && Known(r.done) && (r.entry.Some? ==> r.entry.value !in stale)
  }

  predicate TellsLast(k: Hall, id: J.Id, stale: set<Ref>)
    requires k.returned != []
  {
    var r := k.returned[|k.returned| - 1];
    Fair(r, id, stale) ==> Look(k.world.result, id) == Some(r.done.outcome)
  }

  lemma CalledTells(h: Hall, c: Caller, x: J.Id, hash: J.Hash, now: nat, cleanup: Fault, reserve: Fault, id: J.Id, stale: set<Ref>)
    requires Inv(h) && h.world.up && Aligned(h, id, stale) && id in h.world.store && h.world.store[id].expires > now
    ensures Tells(h, Called(h, c, x, hash, now, cleanup, reserve), id, stale)
  {
    var w := h.world;
    var (u, answer) := J.Enter(w, x, hash, now, cleanup, reserve);
    J.EnterShape(w, x, hash, now, cleanup, reserve);
    J.EnterStays(w, x, hash, now, cleanup, reserve, id);
    hide J.Enter, J.Inv, EntriesOk, RefsOk, WaitsOk, ReturnsOk;
    KnownMade(h, x);
    HeardTells(h, u, answer, c, x, id, stale);
  }

  lemma HeardTells(h: Hall, u: J.World, answer: J.Answer, c: Caller, x: J.Id, id: J.Id, stale: set<Ref>)
    requires Aligned(h, id, stale) && Look(u.result, id) == Look(h.world.result, id)
    requires EntryOk(h.shelf, Look(h.world.entries, x), Look(h.world.result, x), x)
    requires answer.Replay? ==> Look(u.result, x) == Some(answer.outcome)
    ensures Tells(h, Heard(h, u, answer, c, x), id, stale)
  {
    var k := Heard(h, u, answer, c, x);
    assert k.world == u && k.shelf.answers == h.shelf.answers;
  }

  lemma RanTells(h: Hall, x: J.Id, outcome: J.Outcome, id: J.Id, stale: set<Ref>)
    requires Inv(h) && Aligned(h, id, stale)
    ensures Tells(h, Ran(h, x, outcome), id, stale)
  {
    var k := Ran(h, x, outcome);
    if x in h.world.tasks && h.world.tasks[x].stage.Reserved? {
      StartsFresh(h, x);
      var ref := Ref(x, h.shelf.made[x]);
      assert k.world.result == h.world.result[x := outcome] && k.shelf.answers == h.shelf.answers[ref := outcome];
      hide J.Inv, EntriesOk, ReturnsOk;
      forall c | c in h.waiting && h.waiting[c].id == id && h.waiting[c] !in stale ensures Look(k.shelf.answers, h.waiting[c]) == Look(k.world.result, id) {
        assert WaitOk(h.shelf, Look(h.world.entries, id), h.waiting[c]) && RefOk(h.shelf, h.waiting[c]);
      }
    }
  }

  lemma WokenTells(h: Hall, c: Caller, id: J.Id, stale: set<Ref>)
    requires RefsOk(h.shelf) && Aligned(h, id, stale)
    ensures Tells(h, Woken(h, c), id, stale) && Tells(h, h.(waiting := h.waiting - {c}), id, stale)
  {
    if c in h.waiting { assert RefOk(h.shelf, h.waiting[c]); }
  }

  lemma FinishedTells(h: Hall, x: J.Id, id: J.Id, stale: set<Ref>)
    requires Inv(h) && Aligned(h, id, stale)
    ensures Tells(h, Finished(h, x), id, stale)
  {
    if x in h.world.tasks && h.world.tasks[x].stage.Saved? { RunnerTold(h, x); }
    hide J.Inv, EntriesOk, RefsOk, WaitsOk, ReturnsOk;
  }

  /** Without callers, and with the same result, there is nobody to be told anything else. */
  lemma QuietTells(h: Hall, k: Hall, id: J.Id, stale: set<Ref>)
    requires Aligned(h, id, stale) && k.world.result == h.world.result && k.returned == h.returned
    requires k.waiting == map[] || (k.waiting == h.waiting && k.shelf == h.shelf)
    ensures Tells(h, k, id, stale)
  {
  }

  lemma OthersTell(h: Hall, m: Move, large: J.Outcome -> bool, id: J.Id, stale: set<Ref>)
    requires Inv(h) && Aligned(h, id, stale) && !m.Calls? && !(m.Does? && m.step.RunBody?)
    ensures Tells(h, Next(h, m, large), id, stale)
  {
    hide J.Inv, EntriesOk, WaitsOk, RefsOk, ReturnsOk, Tells, Aligned, Woken, Finished, J.Start, J.Save, Loaded;
    match m
    case Wake(c) => WokenTells(h, c, id, stale);
    case Leave(c) => WokenTells(h, c, id, stale);
    case Does(step) =>
      match step {
        case SaveResult(x, now, fault) => SaveKeeps(h.world, x, now, fault, large); QuietTells(h, Next(h, m, large), id, stale);
        case FinishCall(x) => FinishedTells(h, x, id, stale);
        case Boot(now, ids) => StartEffect(h.world, now, ids, large); QuietTells(h, Next(h, m, large), id, stale);
        case _ => QuietTells(h, Next(h, m, large), id, stale);
      }
  }

  lemma SaveKeeps(w: J.World, x: J.Id, now: nat, fault: Fault, large: J.Outcome -> bool)
    ensures J.Save(w, x, now, fault, large).result == w.result
  {
  }

  lemma NextTells(h: Hall, m: Move, large: J.Outcome -> bool, id: J.Id, stale: set<Ref>)
    requires Inv(h) && Aligned(h, id, stale) && AliveIn(h, [m], large, id)
    ensures Tells(h, Next(h, m, large), id, stale)
  {
    hide Inv, Called, Ran, Tells, Aligned;
    match m
    case Calls(c, x, hash, now, cleanup, reserve) =>
      if h.world.up { CalledTells(h, c, x, hash, now, cleanup, reserve, id, stale); }
      StillTells(h, id, stale);
    case Does(step) => if step.RunBody? { RanTells(h, step.id, step.outcome, id, stale); } else { OthersTell(h, m, large, id, stale); }
    case _ => OthersTell(h, m, large, id, stale);
  }

  lemma StillTells(h: Hall, id: J.Id, stale: set<Ref>)
    requires Aligned(h, id, stale)
    ensures Tells(h, h, id, stale)
  {
  }

  /** All that was returned from position `n` on tells the result. */
  ghost predicate Since(n: nat, r: Hall, id: J.Id, stale: set<Ref>) {
    forall k :: n <= k < |r.returned| && Fair(r.returned[k], id, stale) ==> Look(r.world.result, id) == Some(r.returned[k].done.outcome)
  }

  lemma SinceMore(h: Hall, k: Hall, r: Hall, id: J.Id, stale: set<Ref>)
    requires Tells(h, k, id, stale) && Since(|k.returned|, r, id, stale) && k.returned <= r.returned
    requires id in k.world.result ==> Look(r.world.result, id) == Look(k.world.result, id)
    ensures h.returned <= r.returned && Since(|h.returned|, r, id, stale)
    ensures id in h.world.result ==> Look(r.world.result, id) == Look(h.world.result, id)
  {
    forall n | |h.returned| <= n < |r.returned| && Fair(r.returned[n], id, stale)
      ensures Look(r.world.result, id) == Some(r.returned[n].done.outcome)
    {
      if n < |k.returned| { assert r.returned[n] == k.returned[n]; }
    }
  }

  lemma {:induction false} TellsOn(h: Hall, moves: seq<Move>, large: J.Outcome -> bool, id: J.Id, stale: set<Ref>)
    requires Inv(h) && Aligned(h, id, stale) && AliveIn(h, moves, large, id)
    ensures var r := Run(h, moves, large);
      && (id in h.world.result ==> Look(r.world.result, id) == Look(h.world.result, id))
      && h.returned <= r.returned && Since(|h.returned|, r, id, stale)
    decreases |moves|
  {
    if moves != [] {
      var k := Next(h, moves[0], large);
      assert AliveIn(h, [moves[0]], large, id) by { assert [moves[0]][1..] == []; }
      NextTells(h, moves[0], large, id, stale);
      NextInv(h, moves[0], large);
      assert Aligned(k, id, stale);
      hide Inv, Next, Aligned, Tells, Since;
      TellsOn(k, moves[1..], large, id, stale);
      SinceMore(h, k, Run(h, moves, large), id, stale);
    }
  }

  /** Entries of earlier rows of `id`, for which callers still wait. */
  function Stale(h: Hall, id: J.Id): set<Ref> {
    set c | c in h.waiting && h.waiting[c].id == id && Look(h.shelf.answers, h.waiting[c]) != Look(h.world.result, id) :: h.waiting[c]
  }

  lemma StaleIsPast(h: Hall, id: J.Id)
    requires Inv(h)
    ensures Aligned(h, id, Stale(h, id)) && forall ref :: ref in Stale(h, id) ==> ref in h.shelf.closed && !Current(h.shelf, ref)
  {
    forall ref | ref in Stale(h, id) ensures ref in h.shelf.closed && !Current(h.shelf, ref) {
      var c :| c in h.waiting && h.waiting[c] == ref && ref.id == id;
      assert WaitOk(h.shelf, Look(h.world.entries, id), ref);
      KnownMade(h, id);
    }
  }

  /** While the row of an id is retained, all callers that return from it with an outcome are told the same one, the
      result of its one run: the caller that ran it, those that waited, those that came later, and those that found
      only the row, through evictions, failed writes, stops and starts. Excepted are callers that have been waiting
      since before that row, for an entry that was done and gone: they are told the outcome of theirs. */
  lemma SameForAllCallers(h: Hall, moves: seq<Move>, large: J.Outcome -> bool, id: J.Id, i: nat, j: nat)
    requires Inv(h) && AliveIn(h, moves, large, id)
    requires |h.returned| <= i < |Run(h, moves, large).returned| && |h.returned| <= j < |Run(h, moves, large).returned|
    ensures var r := Run(h, moves, large);
      var a, b := r.returned[i], r.returned[j];
      && (Fair(a, id, Stale(h, id)) ==> Look(r.world.result, id) == Some(a.done.outcome))
      && (Fair(a, id, Stale(h, id)) && Fair(b, id, Stale(h, id)) ==> a.done.outcome == b.done.outcome)
    ensures forall ref :: ref in Stale(h, id) ==> ref in h.shelf.closed && !Current(h.shelf, ref)
  {
    StaleIsPast(h, id);
    hide Inv, AliveIn, Aligned, Stale, Run;
    TellsOn(h, moves, large, id, Stale(h, id));
  }

  /** Callers and world move together, so that what is proved of every run of the world holds here. */
  function Inner(h: Hall, m: Move): Option<J.Step> {
    match m
    case Calls(c, id, hash, now, cleanup, reserve) =>
      if h.world.up && c !in h.waiting then Some(J.Call(id, hash, now, cleanup, reserve)) else None
    case Does(step) => if step.Call? then None else Some(step)
    case _ => None
  }

  lemma WorldMoves(h: Hall, m: Move, large: J.Outcome -> bool)
    ensures Next(h, m, large).world == if Inner(h, m).None? then h.world else J.Next(h.world, Inner(h, m).value, large)
  {
    hide J.Enter, J.Start, J.Save, J.Body, J.Finish;
  }
}
