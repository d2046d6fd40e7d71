/** How long an operation is remembered, and what each call is told (internal/operation/journal.go:125-177,
    internal/store/store.go:740-800).
 */
module OperationRetention {
  import opened Basics
  import opened OperationJournal

  // ----- eviction -----

  ghost predicate Evictable(entries: map<Id, Entry>, order: seq<Id>) {
    Distinct(order) && forall i :: 0 <= i < |order| ==> order[i] in entries
  }

  /** How many of `ordered` completed entries are dropped when there are `size` entries: as many as make room for one. */
  function Dropped(size: nat, ordered: nat, max: nat): (k: nat)
    ensures k <= ordered
  {
    if size < max then 0 else if ordered <= size - max then ordered else size - max + 1
  }

  lemma FirstOf(order: seq<Id>, k: nat, x: Id)
    requires 0 < k <= |order|
    ensures x in order[..k] <==> x == order[0] || x in order[1..][..k - 1]
    ensures order[1..][k - 1..] == order[k..]
  {
    assert order[..k] == [order[0]] + order[1..][..k - 1];
  }

  /** The oldest entry goes. */
  lemma EvictStep(entries: map<Id, Entry>, order: seq<Id>, max: nat)
    requires Evictable(entries, order) && |entries| >= max && order != []
    ensures var rest := entries - {order[0]};
      Evicted(entries, order, max) == Evicted(rest, order[1..], max) && |rest| == |entries| - 1 && Evictable(rest, order[1..])
  {
    var rest := entries - {order[0]};
    assert order[0] in entries;
    assert rest.Keys == entries.Keys - {order[0]};
    hide Evicted;
    assert |rest| == |rest.Keys| && |entries| == |entries.Keys|;
  }

  lemma EvictNone(entries: map<Id, Entry>, order: seq<Id>, max: nat)
    requires |entries| < max || order == []
    ensures Evicted(entries, order, max) == (entries, order) && order[0..] == order && order[..0] == []
  {
  }

  lemma {:induction false} EvictsCount(entries: map<Id, Entry>, order: seq<Id>, max: nat)
    requires Evictable(entries, order)
    ensures var r, k := Evicted(entries, order, max), Dropped(|entries|, |order|, max);
      r.1 == order[k..] && |r.0| == |entries| - k
    decreases |order|
  {
    hide Evicted, Evictable;
    if |entries| >= max && order != [] {
      EvictStep(entries, order, max);
      FirstOf(order, Dropped(|entries|, |order|, max), order[0]);
      EvictsCount(entries - {order[0]}, order[1..], max);
    } else {
      EvictNone(entries, order, max);
    }
  }

  lemma {:induction false} EvictsWhich(entries: map<Id, Entry>, order: seq<Id>, max: nat, x: Id)
    requires Evictable(entries, order)
    ensures var r, k := Evicted(entries, order, max), Dropped(|entries|, |order|, max);
      Look(r.0, x) == if x in order[..k] then None else Look(entries, x)
    decreases |order|
  {
    hide Evicted, Evictable;
    if |entries| >= max && order != [] {
      EvictStep(entries, order, max);
      FirstOf(order, Dropped(|entries|, |order|, max), x);
      EvictsWhich(entries - {order[0]}, order[1..], max, x);
    } else {
      EvictNone(entries, order, max);
    }
  }

  /** In every reachable state completed entries are dropped from the oldest on, and no more of them than make room for
      one entry. */
  lemma EvictsNoMore(w: World, x: Id)
    requires Inv(w)
    ensures var u, k := AfterEviction(w), Dropped(|w.entries|, |w.order|, w.max);
      && u.order == w.order[k..] && |u.entries| == |w.entries| - k
      && Look(u.entries, x) == if x in w.order[..k] then None else Look(w.entries, x)
  {
    hide Evicted, ViewsOk, Dropped;
    EvictsCount(w.entries, w.order, w.max);
    EvictsWhich(w.entries, w.order, w.max, x);
  }

  // ----- what a call is told -----

  /** Every entry is still needed: none of them may be dropped. */
  predicate NoRoom(w: World) { |w.entries| - |w.order| >= w.max }

  lemma RoomIs(w: World)
    requires MemoryOk(w)
    ensures |AfterEviction(w).entries| >= w.max <==> NoRoom(w)
    ensures AfterEviction(w).max == w.max
  {
    EvictsCount(w.entries, w.order, w.max);
    hide Evicted;
  }

  /** When rows are deleted before reserving. */
  predicate Due(w: World, now: nat) { now >= w.cleaned + CLEANUP_INTERVAL }

  /** The row that a call finds: one that is there, unless its time is over and rows are being deleted. */
  function Row(w: World, id: Id, now: nat): Option<Record> {
    if id in w.store && !(Due(w, now) && w.store[id].expires <= now) then Some(w.store[id]) else None
  }

  /** What every call is told, in every reachable state. A known request waits or is told its result, another one
      for the same id conflicts, an id without a result is uncertain, and only an unknown one is run; provided
      there is room and the store works. */
  lemma ToldExactly(w: World, id: Id, hash: Hash, now: nat, cleanup: Fault, reserve: Fault)
    requires Inv(w) && w.up
    ensures Enter(w, id, hash, now, cleanup, reserve).1 ==
      if id in w.entries then (if w.entries[id].hash == hash then Wait else Conflict)
      else if NoRoom(w) then Full
      else if (Due(w, now) && !cleanup.Fine?) || !reserve.Fine? then StoreFailed
      else match Row(w, id, now)
        case None => Answer.Run
        case Some(r) =>
          if r.hash != hash then Conflict else if r.outcome.None? then Uncertain else Replay(r.outcome.value)
  {
    hide Evicted, ViewsOk, MemoryOk, Distinct;
    RoomIs(w);
    if id !in w.entries {
      ProceedTells(AfterEviction(w), id, hash, now, cleanup, reserve);
    }
  }

  lemma ProceedTells(v: World, id: Id, hash: Hash, now: nat, cleanup: Fault, reserve: Fault)
    ensures Proceed(v, id, hash, now, cleanup, reserve).1 ==
      if |v.entries| >= v.max then Full
      else if (Due(v, now) && !cleanup.Fine?) || !reserve.Fine? then StoreFailed
      else match Row(v, id, now)
        case None => Answer.Run
        case Some(r) =>
          if r.hash != hash then Conflict else if r.outcome.None? then Uncertain else Replay(r.outcome.value)
  {
  }

  /** After a start every row that the query answered is known in memory with its request: a completed one with its
      outcome, any other one as uncertain. So its callers need not ask the store. */
  lemma StartKnows(w: World, now: nat, ids: seq<Id>, large: Outcome -> bool, id: Id)
    requires Inv(w) && !w.up && Answers(Swept(w.store, now, large), ids, w.max) && id in ids
    ensures var u := Next(w, Boot(now, ids), large);
      && u.up && id in w.store && w.store[id].expires > now && id in u.entries && u.entries[id].hash == w.store[id].hash
      && var o := w.store[id].outcome;
      && u.entries[id].state == (if o.Some? && !large(o.value) then Complete(o.value, false) else Complete(NOTHING, true))
  {
    hide Completed;
    var i :| 0 <= i < |ids| && ids[i] == id;
    assert ids[i] in Swept(w.store, now, large);
  }

  // ----- which rows go -----

  /** The step deletes the rows whose time is over. */
  ghost predicate Cleans(w: World, s: Step, large: Outcome -> bool) {
    match s
    case Call(id, _, now, cleanup, _) => w.up && id !in w.entries && !NoRoom(w) && Due(w, now) && !cleanup.Broken?
    case Boot(now, ids) => !w.up && Answers(Swept(w.store, now, large), ids, w.max)
    case _ => false
  }

  /** A new row: the call is told to run, or its insertion reports a failure although it took effect. */
  predicate Adds(w: World, s: Step, id: Id) {
    && s.Call? && s.id == id && w.up && id !in w.entries && !NoRoom(w) && Row(w, id, s.now).None?
    && (Due(w, s.now) ==> s.cleanup.Fine?) && !s.reserve.Broken?
  }

  /** The result of the body of `id` is written. */
  predicate Completes(w: World, s: Step, large: Outcome -> bool, id: Id) {
    && s.SaveResult? && s.id == id && id in w.tasks && w.tasks[id].stage.Ran?
    && id in w.store && w.store[id].hash == w.tasks[id].hash && w.store[id].outcome.None?
    && !large(w.tasks[id].stage.outcome) && !s.fault.Broken?
  }

  /** Exactly the rows whose time is over go, and only when rows are deleted; a row lasts the retention time from its
      insertion and again from the writing of its result, and nothing else moves its end. */
  lemma RowTime(w: World, s: Step, large: Outcome -> bool, id: Id)
    requires Inv(w)
    ensures var u := Next(w, s, large);
      && (id in u.store <==> Adds(w, s, id) || (id in w.store && !(Cleans(w, s, large) && w.store[id].expires <= s.now)))
      && (id in u.store ==>
            u.store[id].expires == if Adds(w, s, id) || Completes(w, s, large, id) then s.now + w.retention else w.store[id].expires)
      && u.retention == w.retention
  {
    hide Evicted, ViewsOk, MemoryOk, Distinct, Start, Enter;
    match s
    case Call(x, hash, now, cleanup, reserve) =>
      RoomIs(w);
      if w.up { CallTime(w, x, hash, now, cleanup, reserve, id); }
    case Boot(now, ids) => BootTime(w, now, ids, large, id);
    case _ =>
  }

  lemma BootTime(w: World, now: nat, ids: seq<Id>, large: Outcome -> bool, id: Id)
    ensures var u := Start(w, now, ids, large);
      && (id in u.store <==> id in w.store && !(Cleans(w, Boot(now, ids), large) && w.store[id].expires <= now))
      && (id in u.store ==> u.store[id].expires == w.store[id].expires) && u.retention == w.retention
  {
    hide Answers, LoadedAll, Completed;
  }

  lemma CallTime(w: World, x: Id, hash: Hash, now: nat, cleanup: Fault, reserve: Fault, id: Id)
    requires w.up && (|AfterEviction(w).entries| >= w.max <==> NoRoom(w)) && AfterEviction(w).max == w.max
    ensures var u, s := Enter(w, x, hash, now, cleanup, reserve).0, Call(x, hash, now, cleanup, reserve);
      && (id in u.store <==> Adds(w, s, id) || (id in w.store && !(Cleans(w, s, _ => false) && w.store[id].expires <= now)))
      && (id in u.store ==> u.store[id].expires == if Adds(w, s, id) then now + w.retention else w.store[id].expires)
      && u.retention == w.retention
  {
    hide Evicted, NoRoom;
    if x !in w.entries { ProceedTime(AfterEviction(w), x, hash, now, cleanup, reserve, id); }
  }

  lemma ProceedTime(v: World, x: Id, hash: Hash, now: nat, cleanup: Fault, reserve: Fault, id: Id)
    ensures var u := Proceed(v, x, hash, now, cleanup, reserve).0;
      var cleans := |v.entries| < v.max && Due(v, now) && !cleanup.Broken?;
      var adds := |v.entries| < v.max && x == id && Row(v, id, now).None? && (Due(v, now) ==> cleanup.Fine?) && !reserve.Broken?;
      && (id in u.store <==> adds || (id in v.store && !(cleans && v.store[id].expires <= now)))
      && (id in u.store ==> u.store[id].expires == if adds then now + v.retention else v.store[id].expires)
      && u.retention == v.retention
  {
    hide Reserve, Cleaned;
    ReserveTime(v, x, hash, now, reserve, id);
    ReserveTime(v.(store := Cleaned(v.store, now), cleaned := now), x, hash, now, reserve, id);
    CleanedAt(v.store, now, id);
  }

  lemma CleanedAt(store: map<Id, Record>, now: nat, id: Id)
    ensures Look(Cleaned(store, now), id) == if id in store && store[id].expires > now then Some(store[id]) else None
  {
  }

  lemma ReserveTime(v: World, x: Id, hash: Hash, now: nat, fault: Fault, id: Id)
    ensures var u, adds := Reserve(v, x, hash, now, fault).0, x == id && id !in v.store && !fault.Broken?;
      && (id in u.store <==> adds || id in v.store)
      && (id in u.store ==> u.store[id].expires == if adds then now + v.retention else v.store[id].expires)
      && u.retention == v.retention
  {
  }

  // ----- a run is remembered -----

  /** The clock does not go back below `from`, and no step reads it at `until` or later. */
  ghost predicate Within(steps: seq<Step>, from: nat, until: nat) {
    forall i :: 0 <= i < |steps| && (steps[i].Call? || steps[i].Boot? || steps[i].SaveResult?) ==> from <= steps[i].now < until
  }

  /** A row that lasts until `until`, at most the retention time after `from`, is there for all that happens between. */
  lemma {:induction false} StaysAlive(w: World, steps: seq<Step>, large: Outcome -> bool, id: Id, from: nat, until: nat)
    requires Inv(w) && id in w.store && w.store[id].expires >= until && until <= from + w.retention && Within(steps, from, until)
    ensures Alive(w, steps, large, id)
    ensures var u := Follow(w, steps, large); id in u.store && u.store[id].expires >= until
    decreases |steps|
  {
    if steps != [] {
      RowTime(w, steps[0], large, id);
      NextInv(w, steps[0], large);
      hide Inv, Next;
      assert Within(steps[1..], from, until);
      StaysAlive(Next(w, steps[0], large), steps[1..], large, id, from, until);
    }
  }

  /** In every reachable state: a call is told to run at `now`. Whatever then happens, stops and starts included, as
      long as no clock is read before `now` or after the retention time, the row is there and the body starts at
      most once. */
  lemma RunOnceInTime(w: World, call: Step, steps: seq<Step>, large: Outcome -> bool)
    requires Inv(w) && w.up && call.Call? && Within(steps, call.now, call.now + w.retention)
    requires Enter(w, call.id, call.hash, call.now, call.cleanup, call.reserve).1.Run?
    ensures var u := Next(w, call, large);
      && call.id in Follow(u, steps, large).store
      && CountStarts(w, [call] + steps, large, call.id) <= 1
  {
    hide Enter, CountStarts, Waiting;
    ToldExactly(w, call.id, call.hash, call.now, call.cleanup, call.reserve);
    var id, u := call.id, Next(w, call, large);
    assert Adds(w, call, id);
    RowTime(w, call, large, id);
    NextInv(w, call, large);
    hide Inv, Next;
    StaysAlive(u, steps, large, id, call.now, call.now + w.retention);
    NeverRunsAgain(u, steps, large, id);
    OneStart(w, call, steps, large, id);
  }

  lemma OneStart(w: World, call: Step, steps: seq<Step>, large: Outcome -> bool, id: Id)
    requires call.Call?
    ensures CountStarts(w, [call] + steps, large, id) == CountStarts(Next(w, call, large), steps, large, id)
    ensures Waiting(w, id) <= 1
    ensures Waiting(Next(w, call, large), id) <= 1
  {
    hide Next;
    assert ([call] + steps)[0] == call && ([call] + steps)[1..] == steps;
  }

  /** The same from the writing of the result on: it is there for the retention time, and the body is not started again
      at all. */
  lemma ResultInTime(w: World, save: Step, steps: seq<Step>, large: Outcome -> bool)
    requires Inv(w) && save.SaveResult? && Completes(w, save, large, save.id)
    requires Within(steps, save.now, save.now + w.retention)
    ensures var u := Next(w, save, large);
      && u.store[save.id].outcome == Some(w.tasks[save.id].stage.outcome)
      && save.id in Follow(u, steps, large).store
      && Look(Follow(u, steps, large).result, save.id) == Look(w.result, save.id)
      && CountStarts(u, steps, large, save.id) == 0
  {
    var id, u := save.id, Next(w, save, large);
    assert ViewOk(ViewOf(w, id));
    RowTime(w, save, large, id);
    NextInv(w, save, large);
    assert Waiting(u, id) == 0;
    hide Inv, Next, ViewOk;
    StaysAlive(u, steps, large, id, save.now, save.now + w.retention);
    NeverRunsAgain(u, steps, large, id);
    RowStays(u, steps, large, id);
  }

  /** And no longer: a start at or after the end of a row's time forgets it, and the next call runs again. */
  lemma ForgottenAfter(w: World, now: nat, ids: seq<Id>, large: Outcome -> bool, id: Id, hash: Hash, later: nat)
    requires Inv(w) && !w.up && id in w.store && w.store[id].expires <= now <= later && w.max > 0
    requires Answers(Swept(w.store, now, large), ids, w.max) && |Completed(Swept(w.store, now, large), ids)| == |ids|
    ensures var u := Next(w, Boot(now, ids), large);
      u.up && id !in u.store && Enter(u, id, hash, later, Fine, Fine).1.Run?
  {
    var s := Boot(now, ids);
    RowTime(w, s, large, id);
    NextInv(w, s, large);
    LoadedSize(Swept(w.store, now, large), ids);
    var u := Next(w, s, large);
    assert u.up && id !in u.store && id !in u.entries && |u.order| == |ids| && |u.entries| <= |ids|;
    hide Next, Enter;
    ToldExactly(u, id, hash, later, Fine, Fine);
  }
}
