/** Running each operation at most once (internal/operation/journal.go, internal/store/store.go).

    One step is one critical section, one durable write or one run of an operation's body; any number
    of callers interleave, and the process may stop between any two steps.
 */
module OperationJournal {
  import opened Basics

  type Id = string
  type Hash = string
  type Outcome = string

  const NOTHING: Outcome := ""
  const CLEANUP_INTERVAL: nat := 60

  /** A durable row; without an outcome it is pending. */
  datatype Record = Record(hash: Hash, outcome: Option<Outcome>, expires: nat)

  datatype State = Progress | Complete(outcome: Outcome, uncertain: bool)

  /** An entry in memory. */
  datatype Entry = Entry(hash: Hash, state: State)

  /** How far the caller that runs the body has come. */
  datatype Stage = Reserved | Ran(outcome: Outcome) | Saved(outcome: Outcome, ok: bool)

  datatype Task = Task(hash: Hash, stage: Stage)

  /** `runs` and `result` record, since the id's row was last inserted, how often the body ran and
      what it answered. The code does not read them. */
  datatype World = World(store: map<Id, Record>, up: bool, entries: map<Id, Entry>, order: seq<Id>, max: nat,
                         retention: nat, cleaned: nat, tasks: map<Id, Task>, runs: map<Id, nat>, result: map<Id, Outcome>)

  /** What `Execute` does with a call. */
  datatype Answer = Conflict | Wait | Full | StoreFailed | Uncertain | Replay(outcome: Outcome) | Run

  // ----- the first critical section -----

  /** Drops the oldest completed entries until there is room. */
  function Evicted(entries: map<Id, Entry>, order: seq<Id>, max: nat): (map<Id, Entry>, seq<Id>)
    decreases |order|
  {
    if |entries| >= max && order != [] then Evicted(entries - {order[0]}, order[1..], max) else (entries, order)
  }

  function Cleaned(store: map<Id, Record>, now: nat): map<Id, Record> {
    map id | id in store && store[id].expires > now :: store[id]
  }

  function AfterEviction(w: World): World {
    w.(entries := Evicted(w.entries, w.order, w.max).0, order := Evicted(w.entries, w.order, w.max).1)
  }

  /** `cleanup` is the fault of deleting expired rows, `reserve` that of inserting the new one. */
  function Enter(w: World, id: Id, hash: Hash, now: nat, cleanup: Fault, reserve: Fault): (World, Answer) {
    if id in w.entries then
      (w, if w.entries[id].hash != hash then Conflict else Wait)
    else Proceed(AfterEviction(w), id, hash, now, cleanup, reserve)
  }

  /** With room for one more: clean up now and then, and reserve. */
  function Proceed(v: World, id: Id, hash: Hash, now: nat, cleanup: Fault, reserve: Fault): (World, Answer) {
    if |v.entries| >= v.max then (v, Full)
    else if now < v.cleaned + CLEANUP_INTERVAL then Reserve(v, id, hash, now, reserve)
    else if cleanup.Broken? then (v, StoreFailed)
    else if cleanup.Late? then (v.(store := Cleaned(v.store, now)), StoreFailed)
    else Reserve(v.(store := Cleaned(v.store, now), cleaned := now), id, hash, now, reserve)
  }

  /** Inserts a pending row, or looks at the one that is there. */
  function Reserve(u: World, id: Id, hash: Hash, now: nat, fault: Fault): (World, Answer) {
    if fault.Broken? then (u, StoreFailed)
    else if id in u.store then
      if fault.Late? then (u, StoreFailed)
      else if u.store[id].hash != hash then (u, Conflict)
      else (u, if u.store[id].outcome.None? then Uncertain else Replay(u.store[id].outcome.value))
    else
      var inserted := u.(store := u.store[id := Record(hash, None, now + u.retention)],
                         runs := u.runs[id := 0], result := u.result - {id});
      if fault.Late? then (inserted, StoreFailed)
      else (inserted.(entries := u.entries[id := Entry(hash, Progress)], tasks := u.tasks[id := Task(hash, Reserved)]), Run)
  }

  // ----- the rest of a call -----

  function Body(w: World, id: Id, outcome: Outcome): World {
    if id !in w.tasks || !w.tasks[id].stage.Reserved? then w
    else w.(tasks := w.tasks[id := w.tasks[id].(stage := Ran(outcome))],
            runs := w.runs[id := 1 + if id in w.runs then w.runs[id] else 0], result := w.result[id := outcome])
  }

  /** `CompleteOperation`; results that are too large are refused. */
  function Save(w: World, id: Id, now: nat, fault: Fault, large: Outcome -> bool): World {
    if id !in w.tasks || !w.tasks[id].stage.Ran? then w
    else
      var t, o := w.tasks[id], w.tasks[id].stage.outcome;
      var row := Record(t.hash, Some(o), now + w.retention);
      var pending := id in w.store && w.store[id].hash == t.hash && w.store[id].outcome.None?;
      var same := id in w.store && w.store[id].hash == t.hash && w.store[id].outcome == Some(o);
      if large(o) || fault.Broken? || (!pending && !same) then w.(tasks := w.tasks[id := t.(stage := Saved(o, false))])
      else w.(store := if pending then w.store[id := row] else w.store,
              tasks := w.tasks[id := t.(stage := Saved(o, fault.Fine?))])
  }

  /** The second critical section. */
  function Finish(w: World, id: Id): World {
    if id !in w.tasks || !w.tasks[id].stage.Saved? || id !in w.entries then w
    else
      var s := w.tasks[id].stage;
      w.(entries := w.entries[id := w.entries[id].(state := Complete(s.outcome, !s.ok))],
         order := if s.ok then w.order + [id] else w.order, tasks := w.tasks - {id})
  }

  // ----- stopping and starting -----

  function Stop(w: World): World { w.(up := false, entries := map[], order := [], tasks := map[]) }

  /** Rows whose result is too large become pending; expired rows go. */
  function Swept(store: map<Id, Record>, now: nat, large: Outcome -> bool): map<Id, Record> {
    map id | id in store && store[id].expires > now ::
      if store[id].outcome.Some? && large(store[id].outcome.value) then store[id].(outcome := None) else store[id]
  }

  function Loaded(r: Record): Entry {
    Entry(r.hash, if r.outcome.None? then Complete(NOTHING, true) else Complete(r.outcome.value, false))
  }

  function LoadedAll(store: map<Id, Record>, ids: seq<Id>): map<Id, Entry> {
    map id | id in store && id in ids :: Loaded(store[id])
  }

  function Completed(store: map<Id, Record>, ids: seq<Id>): seq<Id> {
    if ids == [] then []
    else
      var n := |ids| - 1;
      Completed(store, ids[..n]) + if ids[n] in store && store[ids[n]].outcome.Some? then [ids[n]] else []
  }

  ghost predicate Distinct(ids: seq<Id>) { forall i, j :: 0 <= i < j < |ids| ==> ids[i] != ids[j] }

  /** What the query may answer: at most `max` different rows. */
  ghost predicate Answers(store: map<Id, Record>, ids: seq<Id>, max: nat) {
    |ids| <= max && Distinct(ids) && forall i :: 0 <= i < |ids| ==> ids[i] in store
  }

  /** `NewPersistentJournal`; `ids` is the answer of the query. */
  ghost function Start(w: World, now: nat, ids: seq<Id>, large: Outcome -> bool): World {
    var store := Swept(w.store, now, large);
    if w.up || !Answers(store, ids, w.max) then w
    else w.(store := store, up := true, cleaned := now,
            entries := LoadedAll(store, ids), order := Completed(store, ids), tasks := map[])
  }

  datatype Step =
    | Call(id: Id, hash: Hash, now: nat, cleanup: Fault, reserve: Fault)
    | RunBody(id: Id, outcome: Outcome)
    | SaveResult(id: Id, now: nat, fault: Fault)
    | FinishCall(id: Id)
    | Crash
    | Boot(now: nat, ids: seq<Id>)

  ghost function Next(w: World, s: Step, large: Outcome -> bool): World {
    match s
    case Call(id, hash, now, cleanup, reserve) => if w.up then Enter(w, id, hash, now, cleanup, reserve).0 else w
    case RunBody(id, outcome) => Body(w, id, outcome)
    case SaveResult(id, now, fault) => Save(w, id, now, fault, large)
    case FinishCall(id) => Finish(w, id)
    case Crash => Stop(w)
    case Boot(now, ids) => Start(w, now, ids, large)
  }

  // ----- what every step keeps -----

  predicate Certain(e: Entry) { e.state.Complete? && !e.state.uncertain }

  /** Bounded, and only completed entries without a failed write may be evicted. */
  ghost predicate MemoryOk(w: World) {
    && w.max > 0 && |w.entries| <= w.max && Distinct(w.order)
    && (forall i :: 0 <= i < |w.order| ==> w.order[i] in w.entries && Certain(w.entries[w.order[i]]))
    && (!w.up ==> w.entries == map[] && w.order == [])
  }

  /** All that concerns one id. */
  datatype View = View(record: Option<Record>, entry: Option<Entry>, task: Option<Task>, runs: Option<nat>, result: Option<Outcome>)

  function ViewOf(w: World, id: Id): View {
    View(Look(w.store, id), Look(w.entries, id), Look(w.tasks, id), Look(w.runs, id), Look(w.result, id))
  }

  predicate ViewOk(v: View) {
    && (v.task.Some? <==> v.entry.Some? && v.entry.value.state.Progress?)
    && (v.entry.Some? && v.record.Some? ==> v.entry.value.hash == v.record.value.hash)
    && (v.runs.Some? ==> v.runs.value <= 1)
    && (v.task.Some? ==>
          && v.task.value.hash == v.entry.value.hash && v.runs.Some?
          && (v.task.value.stage.Reserved? ==> v.runs.value == 0 && v.result.None?)
          && (!v.task.value.stage.Reserved? ==> v.result == Some(v.task.value.stage.outcome))
          && (!v.task.value.stage.Saved? && v.record.Some? ==> v.record.value.outcome.None?))
    && (v.record.Some? && v.record.value.outcome.Some? ==> v.result == v.record.value.outcome)
    && (v.entry.Some? && v.entry.value.state.Complete? ==>
          || v.result == Some(v.entry.value.state.outcome)
          || (v.entry.value.state.uncertain && v.entry.value.state.outcome == NOTHING))
  }

  ghost predicate ViewsOk(w: World) { forall id :: ViewOk(ViewOf(w, id)) }

  ghost predicate Inv(w: World) { MemoryOk(w) && ViewsOk(w) }

  lemma EvictedKeeps(entries: map<Id, Entry>, order: seq<Id>, max: nat)
    requires Distinct(order) && |entries| <= max
    requires forall i :: 0 <= i < |order| ==>
      order[i] in entries && Certain(entries[order[i]])
    ensures var (es, os) := Evicted(entries, order, max);
      && |es| <= max && Distinct(os) && es.Keys <= entries.Keys
      && (forall id :: id in es ==> es[id] == entries[id])
      && (forall i :: 0 <= i < |os| ==> os[i] in es && Certain(es[os[i]]))
      && (forall id :: id in entries && !Certain(entries[id]) ==> id in es)
    decreases |order|
  {
  }

  lemma {:induction false} SubsetSize(a: set<Id>, b: set<Id>)
    requires a <= b
    ensures |a| <= |b|
    decreases |b|
  {
    if b != {} {
      var x :| x in b;
      SubsetSize(a - {x}, b - {x});
      if x in a { assert a == (a - {x}) + {x}; } else { assert a - {x} == a; }
    } else {
      assert a == {};
    }
  }

  lemma GrownMap(m: map<Id, Entry>, id: Id, e: Entry)
    requires id !in m
    ensures |m[id := e]| == |m| + 1
  {
  }

  lemma SameKeysSize(m: map<Id, Entry>, id: Id, e: Entry)
    requires id in m
    ensures |m[id := e]| == |m|
  {
  }

  /** Steps that concern one id leave what concerns the others. */
  lemma OneChanged(w: World, u: World, id: Id)
    requires ViewsOk(w) && ViewOk(ViewOf(u, id)) && forall x :: x != id ==> ViewOf(u, x) == ViewOf(w, x)
    ensures ViewsOk(u)
  {
  }

  lemma ReserveViews(u: World, id: Id, hash: Hash, now: nat, fault: Fault)
    requires ViewsOk(u) && id !in u.entries
    ensures ViewsOk(Reserve(u, id, hash, now, fault).0)
  {
    assert ViewOk(ViewOf(u, id));
    OneChanged(u, Reserve(u, id, hash, now, fault).0, id);
  }

  lemma ReserveInv(u: World, id: Id, hash: Hash, now: nat, fault: Fault)
    requires Inv(u) && id !in u.entries && |u.entries| < u.max && u.up
    ensures Inv(Reserve(u, id, hash, now, fault).0)
  {
    hide ViewsOk;
    ReserveViews(u, id, hash, now, fault);
    GrownMap(u.entries, id, Entry(hash, Progress));
  }

  lemma CleanedInv(v: World, now: nat)
    requires Inv(v)
    ensures Inv(v.(store := Cleaned(v.store, now))) && Inv(v.(store := Cleaned(v.store, now), cleaned := now))
  {
    var u := v.(store := Cleaned(v.store, now));
    forall id ensures ViewOk(ViewOf(u, id)) && ViewOf(u.(cleaned := now), id) == ViewOf(u, id) {
      assert ViewOk(ViewOf(v, id));
    }
  }

  lemma EvictInv(w: World)
    requires Inv(w)
    ensures Inv(AfterEviction(w))
  {
    EvictedKeeps(w.entries, w.order, w.max);
    hide Evicted;
    var u := AfterEviction(w);
    forall id ensures ViewOk(ViewOf(u, id)) { assert ViewOk(ViewOf(w, id)); }
    if !w.up { EvictNothing(w.max, w.order); }
  }

  lemma EvictNothing(max: nat, order: seq<Id>)
    ensures order == [] ==> Evicted(map[], order, max) == (map[], [])
  {
  }

  lemma ProceedInv(v: World, id: Id, hash: Hash, now: nat, cleanup: Fault, reserve: Fault)
    requires Inv(v) && v.up && id !in v.entries
    ensures Inv(Proceed(v, id, hash, now, cleanup, reserve).0)
  {
    hide Inv, Reserve, Cleaned;
    CleanedInv(v, now);
    if |v.entries| < v.max {
      ReserveInv(v, id, hash, now, reserve);
      ReserveInv(v.(store := Cleaned(v.store, now), cleaned := now), id, hash, now, reserve);
    }
  }

  lemma EnterInv(w: World, id: Id, hash: Hash, now: nat, cleanup: Fault, reserve: Fault)
    requires Inv(w) && w.up
    ensures Inv(Enter(w, id, hash, now, cleanup, reserve).0)
  {
    if id !in w.entries {
      EvictedKeeps(w.entries, w.order, w.max);
      hide Inv, Evicted, Proceed;
      EvictInv(w);
      ProceedInv(AfterEviction(w), id, hash, now, cleanup, reserve);
    }
  }

  lemma BodyInv(w: World, id: Id, outcome: Outcome)
    requires Inv(w)
    ensures Inv(Body(w, id, outcome))
  {
    assert ViewOk(ViewOf(w, id));
    OneChanged(w, Body(w, id, outcome), id);
  }

  lemma SaveInv(w: World, id: Id, now: nat, fault: Fault, large: Outcome -> bool)
    requires Inv(w)
    ensures Inv(Save(w, id, now, fault, large))
  {
    assert ViewOk(ViewOf(w, id));
    OneChanged(w, Save(w, id, now, fault, large), id);
  }

  lemma FinishInv(w: World, id: Id)
    requires Inv(w)
    ensures Inv(Finish(w, id))
  {
    var u := Finish(w, id);
    assert ViewOk(ViewOf(w, id));
    OneChanged(w, u, id);
    if u != w {
      SameKeysSize(w.entries, id, u.entries[id]);
      hide ViewsOk, ViewOk;
      forall i | 0 <= i < |w.order| ensures w.order[i] != id { assert Certain(w.entries[w.order[i]]); }
    }
  }

  lemma StopInv(w: World)
    requires Inv(w)
    ensures Inv(Stop(w))
  {
    forall id ensures ViewOk(ViewOf(Stop(w), id)) { assert ViewOk(ViewOf(w, id)); }
  }

  lemma {:induction false} CompletedAre(store: map<Id, Record>, ids: seq<Id>)
    requires Distinct(ids)
    ensures Distinct(Completed(store, ids))
    ensures forall x :: x in Completed(store, ids) ==> x in ids && x in store && store[x].outcome.Some?
  {
    if ids != [] {
      var n := |ids| - 1;
      assert Distinct(ids[..n]);
      CompletedAre(store, ids[..n]);
      var before := Completed(store, ids[..n]);
      forall i | 0 <= i < |before| ensures before[i] != ids[n] { assert before[i] in ids[..n]; }
    }
  }

  lemma {:induction false} LoadedSize(store: map<Id, Record>, ids: seq<Id>)
    ensures |LoadedAll(store, ids)| <= |ids|
  {
    var m := LoadedAll(store, ids);
    var all := set x | x in ids;
    assert m.Keys <= all;
    SubsetSize(m.Keys, all);
    ElementsSize(ids);
    assert |m| == |m.Keys|;
  }

  lemma {:induction false} ElementsSize(ids: seq<Id>)
    ensures |set x | x in ids| <= |ids|
  {
    if ids != [] {
      var n := |ids| - 1;
      ElementsSize(ids[..n]);
      assert (set x | x in ids) == (set x | x in ids[..n]) + {ids[n]} by { assert ids == ids[..n] + [ids[n]]; }
    } else {
      assert (set x | x in ids) == {};
    }
  }

  lemma StartInv(w: World, now: nat, ids: seq<Id>, large: Outcome -> bool)
    requires Inv(w)
    ensures Inv(Start(w, now, ids, large))
  {
    var u := Start(w, now, ids, large);
    if u.store == Swept(w.store, now, large) && !w.up && Answers(u.store, ids, w.max) {
      LoadedSize(u.store, ids);
      CompletedAre(u.store, ids);
      forall i | 0 <= i < |u.order| ensures u.order[i] in u.entries && Certain(u.entries[u.order[i]]) {
        assert u.order[i] in Completed(u.store, ids);
      }
      forall id ensures ViewOk(ViewOf(u, id)) { assert ViewOk(ViewOf(w, id)); }
    }
  }

  /** Every step keeps the invariant, whatever is called, fails, or stops. */
  lemma NextInv(w: World, s: Step, large: Outcome -> bool)
    requires Inv(w)
    ensures Inv(Next(w, s, large))
  {
    hide Inv;
    match s
    case Call(id, hash, now, cleanup, reserve) => if w.up { EnterInv(w, id, hash, now, cleanup, reserve); }
    case RunBody(id, outcome) => BodyInv(w, id, outcome);
    case SaveResult(id, now, fault) => SaveInv(w, id, now, fault, large);
    case FinishCall(id) => FinishInv(w, id);
    case Crash => StopInv(w);
    case Boot(now, ids) => StartInv(w, now, ids, large);
  }

  // ----- at most once -----

  ghost function Follow(w: World, steps: seq<Step>, large: Outcome -> bool): World
    decreases |steps|
  {
    if steps == [] then w else Follow(Next(w, steps[0], large), steps[1..], large)
  }

  lemma {:induction false} FollowInv(w: World, steps: seq<Step>, large: Outcome -> bool)
    requires Inv(w)
    ensures Inv(Follow(w, steps, large))
    decreases |steps|
  {
    hide Inv, Next;
    if steps != [] {
      NextInv(w, steps[0], large);
      FollowInv(Next(w, steps[0], large), steps[1..], large);
    }
  }

  /** The body of `id` starts at this step. */
  predicate Starts(w: World, s: Step, id: Id) {
    s.RunBody? && s.id == id && id in w.tasks && w.tasks[id].stage.Reserved?
  }

  /** The rows when a call reserves. */
  function RowsAtReserve(w: World, now: nat): map<Id, Record> {
    if now >= w.cleaned + CLEANUP_INTERVAL then Cleaned(w.store, now) else w.store
  }

  /** A row for `id` is inserted at this step. */
  predicate Inserts(w: World, s: Step, id: Id) {
    && s.Call? && s.id == id && w.up && id !in w.entries && id !in RowsAtReserve(w, s.now)
    && id in Enter(w, id, s.hash, s.now, s.cleanup, s.reserve).0.store
  }

  ghost function CountStarts(w: World, steps: seq<Step>, large: Outcome -> bool, id: Id): nat
    decreases |steps|
  {
    if steps == [] then 0
    else (if Starts(w, steps[0], id) then 1 else 0) + CountStarts(Next(w, steps[0], large), steps[1..], large, id)
  }

  ghost function CountInserts(w: World, steps: seq<Step>, large: Outcome -> bool, id: Id): nat
    decreases |steps|
  {
    if steps == [] then 0
    else (if Inserts(w, steps[0], id) then 1 else 0) + CountInserts(Next(w, steps[0], large), steps[1..], large, id)
  }

  /** A body is waiting to be run. */
  function Waiting(w: World, id: Id): nat { if id in w.tasks && w.tasks[id].stage.Reserved? then 1 else 0 }

  lemma ReserveEffect(u: World, id: Id, hash: Hash, now: nat, fault: Fault)
    ensures var r := Reserve(u, id, hash, now, fault).0;
      || (r.tasks == u.tasks && r.entries == u.entries)
      || (r.tasks == u.tasks[id := Task(hash, Reserved)] && r.entries == u.entries[id := Entry(hash, Progress)]
          && id !in u.store && id in r.store)
  {
  }

  /** What a call does to tasks and entries once there is room. */
  lemma ProceedEffect(v: World, id: Id, hash: Hash, now: nat, cleanup: Fault, reserve: Fault)
    ensures var u := Proceed(v, id, hash, now, cleanup, reserve).0;
      || (u.tasks == v.tasks && u.entries == v.entries)
      || (u.tasks == v.tasks[id := Task(hash, Reserved)] && u.entries == v.entries[id := Entry(hash, Progress)]
          && id !in RowsAtReserve(v, now) && id in u.store)
  {
    hide Cleaned, Reserve;
    ReserveEffect(v, id, hash, now, reserve);
    ReserveEffect(v.(store := Cleaned(v.store, now), cleaned := now), id, hash, now, reserve);
  }

  /** A call adds at most its own task. */
  lemma EnterTasks(w: World, id: Id, hash: Hash, now: nat, cleanup: Fault, reserve: Fault)
    requires w.up
    ensures var u := Enter(w, id, hash, now, cleanup, reserve).0;
      || u.tasks == w.tasks
      || (u.tasks == w.tasks[id := Task(hash, Reserved)] && Inserts(w, Call(id, hash, now, cleanup, reserve), id))
  {
    hide Evicted, Proceed, Cleaned;
    ProceedEffect(AfterEviction(w), id, hash, now, cleanup, reserve);
  }

  /** A call drops only completed entries, and changes none. */
  lemma EnterEntries(w: World, id: Id, hash: Hash, now: nat, cleanup: Fault, reserve: Fault, x: Id)
    requires MemoryOk(w) && w.up && x in w.entries
    ensures var u := Enter(w, id, hash, now, cleanup, reserve).0;
      (!Certain(w.entries[x]) ==> x in u.entries) && (x in u.entries ==> u.entries[x] == w.entries[x])
  {
    EvictedOne(w.entries, w.order, w.max, x);
    hide Evicted, Proceed, Certain, MemoryOk;
    ProceedEffect(AfterEviction(w), id, hash, now, cleanup, reserve);
  }

  lemma EvictedOne(entries: map<Id, Entry>, order: seq<Id>, max: nat, x: Id)
    requires Distinct(order) && |entries| <= max && x in entries
    requires forall i :: 0 <= i < |order| ==> order[i] in entries && Certain(entries[order[i]])
    ensures var es := Evicted(entries, order, max).0;
      (!Certain(entries[x]) ==> x in es) && (x in es ==> es[x] == entries[x])
  {
  }

  lemma WaitingPaid(w: World, s: Step, large: Outcome -> bool, id: Id)
    requires Inv(w)
    ensures (if Starts(w, s, id) then 1 else 0) + Waiting(Next(w, s, large), id)
            <= (if Inserts(w, s, id) then 1 else 0) + Waiting(w, id)
  {
    assert ViewOk(ViewOf(w, id));
    hide ViewsOk, MemoryOk, Enter, Start;
    match s
    case Call(x, hash, now, cleanup, reserve) =>
      if w.up { EnterTasks(w, x, hash, now, cleanup, reserve); }
    case Boot(now, ids) => StartStops(w, now, ids, large);
    case _ =>
  }

  lemma StartStops(w: World, now: nat, ids: seq<Id>, large: Outcome -> bool)
    ensures Start(w, now, ids, large) == w || (Start(w, now, ids, large).tasks == map[] && !w.up)
  {
  }

  /** In every run, however calls, failures and stops interleave, the body of an operation starts no
      more often than a row for it was inserted. */
  lemma {:induction false} OneRunPerRow(w: World, steps: seq<Step>, large: Outcome -> bool, id: Id)
    requires Inv(w)
    ensures CountStarts(w, steps, large, id) <= CountInserts(w, steps, large, id) + Waiting(w, id)
    decreases |steps|
  {
    if steps != [] {
      WaitingPaid(w, steps[0], large, id);
      NextInv(w, steps[0], large);
      hide Inv, Next, Starts, Inserts;
      OneRunPerRow(Next(w, steps[0], large), steps[1..], large, id);
    }
  }

  /** The row exists and does not expire before any step of the run looks at the clock. */
  ghost predicate Alive(w: World, steps: seq<Step>, large: Outcome -> bool, id: Id)
    decreases |steps|
  {
    && id in w.store
    && (steps != [] ==>
          && (steps[0].Call? ==> w.store[id].expires > steps[0].now)
          && (steps[0].Boot? ==> w.store[id].expires > steps[0].now)
          && Alive(Next(w, steps[0], large), steps[1..], large, id))
  }

  /** While the row of an operation is retained its body is never started again: not after a crash,
      not after its entry was evicted, and not for another request. */
  lemma {:induction false} NeverRunsAgain(w: World, steps: seq<Step>, large: Outcome -> bool, id: Id)
    requires Inv(w) && Alive(w, steps, large, id)
    ensures CountStarts(w, steps, large, id) <= Waiting(w, id)
    decreases |steps|
  {
    OneRunPerRow(w, steps, large, id);
    NoInserts(w, steps, large, id);
  }

  lemma {:induction false} NoInserts(w: World, steps: seq<Step>, large: Outcome -> bool, id: Id)
    requires Alive(w, steps, large, id)
    ensures CountInserts(w, steps, large, id) == 0
    decreases |steps|
  {
    if steps != [] {
      NoInserts(Next(w, steps[0], large), steps[1..], large, id);
    }
  }

  /** A call is told to run only when no row existed; another request for the same id, still known in
      memory or on disk, never runs and never sees the first one's outcome. */
  lemma OnlyFreshCallsRun(w: World, id: Id, hash: Hash, now: nat, cleanup: Fault, reserve: Fault)
    requires Inv(w) && w.up
    ensures var (u, answer) := Enter(w, id, hash, now, cleanup, reserve);
      && (answer.Run? ==> id !in w.entries && id !in RowsAtReserve(w, now) && u.tasks[id] == Task(hash, Reserved))
      && (id in w.entries && w.entries[id].hash != hash ==> answer.Conflict?)
      && (id !in w.entries && id in RowsAtReserve(w, now) && w.store[id].hash != hash ==>
            answer.Conflict? || answer.Full? || answer.StoreFailed?)
  {
    hide Evicted, ViewsOk, MemoryOk;
  }

  /** The row's request and the answer of its one run stay as they are while the row is retained. */
  lemma StepStays(w: World, s: Step, large: Outcome -> bool, id: Id)
    requires Inv(w) && Alive(w, [s], large, id)
    ensures var u := Next(w, s, large);
      id in u.store && u.store[id].hash == w.store[id].hash && (id in w.result ==> Look(u.result, id) == Look(w.result, id))
  {
    assert ViewOk(ViewOf(w, id));
    hide ViewsOk, MemoryOk, Enter, Start;
    match s
    case Call(x, hash, now, cleanup, reserve) => if w.up { EnterStays(w, x, hash, now, cleanup, reserve, id); }
    case Boot(now, ids) => StartStays(w, now, ids, large, id);
    case _ =>
  }

  predicate SameRow(w: World, u: World, id: Id) {
    Look(u.store, id) == Look(w.store, id) && Look(u.result, id) == Look(w.result, id)
  }

  lemma ReserveStays(w: World, x: Id, hash: Hash, now: nat, fault: Fault, id: Id)
    requires id in w.store
    ensures SameRow(w, Reserve(w, x, hash, now, fault).0, id)
  {
  }

  lemma CleanedStays(w: World, now: nat, id: Id)
    requires id in w.store && w.store[id].expires > now
    ensures SameRow(w, w.(store := Cleaned(w.store, now)), id)
    ensures SameRow(w, w.(store := Cleaned(w.store, now), cleaned := now), id)
  {
  }

  lemma EnterStays(w: World, x: Id, hash: Hash, now: nat, cleanup: Fault, reserve: Fault, id: Id)
    requires id in w.store && w.store[id].expires > now
    ensures SameRow(w, Enter(w, x, hash, now, cleanup, reserve).0, id)
  {
    var v := AfterEviction(w);
    var u := v.(store := Cleaned(v.store, now), cleaned := now);
    hide Evicted, Reserve, Cleaned;
    assert SameRow(w, v, id);
    CleanedStays(v, now, id);
    ReserveStays(v, x, hash, now, reserve, id);
    ReserveStays(u, x, hash, now, reserve, id);
  }

  lemma StartStays(w: World, now: nat, ids: seq<Id>, large: Outcome -> bool, id: Id)
    requires id in w.store && w.store[id].expires > now
    ensures var u := Start(w, now, ids, large);
      id in u.store && u.store[id].hash == w.store[id].hash && u.result == w.result
  {
    hide Answers, LoadedAll, Completed;
  }

  lemma {:induction false} RowStays(w: World, steps: seq<Step>, large: Outcome -> bool, id: Id)
    requires Inv(w) && Alive(w, steps, large, id)
    ensures var u := Follow(w, steps, large);
      id in u.store && u.store[id].hash == w.store[id].hash && (id in w.result ==> Look(u.result, id) == Look(w.result, id))
    decreases |steps|
  {
    if steps != [] {
      assert Alive(w, [steps[0]], large, id) by {
        assert [steps[0]][1..] == [];
        assert id in Next(w, steps[0], large).store;
      }
      StepStays(w, steps[0], large, id);
      NextInv(w, steps[0], large);
      hide Inv, Next;
      RowStays(Next(w, steps[0], large), steps[1..], large, id);
    }
  }

  /** What a call does to entries and results: it adds at most its own entry, with no result yet, drops only
      certain entries, and changes no other; and what it replays is the result. */
  lemma EnterShape(w: World, id: Id, hash: Hash, now: nat, cleanup: Fault, reserve: Fault)
    requires Inv(w) && w.up
    ensures var (u, answer) := Enter(w, id, hash, now, cleanup, reserve);
      && (forall x :: x in w.entries && x !in u.entries ==> Certain(w.entries[x]))
      && (forall x :: x in u.entries && !(answer.Run? && x == id) ==> x in w.entries && u.entries[x] == w.entries[x])
      && (forall x :: x != id || id in w.entries ==> Look(u.result, x) == Look(w.result, x))
      && (answer.Run? ==> id !in w.entries && id in u.entries && u.entries[id] == Entry(hash, Progress) && id !in u.result
                          && u.tasks == w.tasks[id := Task(hash, Reserved)])
      && (answer.Wait? ==> u == w && id in w.entries)
      && (answer.Replay? ==> Look(w.result, id) == Some(answer.outcome) && Look(u.result, id) == Look(w.result, id))
      && (!answer.Run? ==> u.tasks == w.tasks) && u.up
  {
    if id !in w.entries {
      EvictedKeeps(w.entries, w.order, w.max);
      EvictInv(w);
      assert ViewOk(ViewOf(w, id));
      hide Evicted, Proceed, ViewsOk, MemoryOk;
      ProceedShape(AfterEviction(w), id, hash, now, cleanup, reserve);
    }
  }

  /** The effect of a call that found no entry, once there is room. */
  ghost predicate Shape(v: World, u: World, answer: Answer, id: Id, hash: Hash) {
    && u.entries == (if answer.Run? then v.entries[id := Entry(hash, Progress)] else v.entries)
    && u.tasks == (if answer.Run? then v.tasks[id := Task(hash, Reserved)] else v.tasks)
    && (forall x :: x != id ==> Look(u.result, x) == Look(v.result, x))
    && (answer.Run? ==> id !in u.result) && !answer.Wait? && u.up == v.up
    && (answer.Replay? ==> Look(v.result, id) == Some(answer.outcome) && u.result == v.result)
  }

  lemma ProceedShape(v: World, id: Id, hash: Hash, now: nat, cleanup: Fault, reserve: Fault)
    requires id !in v.entries && ViewOk(ViewOf(v, id))
    ensures var (u, answer) := Proceed(v, id, hash, now, cleanup, reserve); Shape(v, u, answer, id, hash)
  {
    CleanedShape(v, id, hash, now);
    var t := v.(store := Cleaned(v.store, now), cleaned := now);
    hide Cleaned, Reserve, Shape, ViewOk;
    ReserveShape(v, id, hash, now, reserve);
    ReserveShape(t, id, hash, now, reserve);
    var (u, answer) := Reserve(t, id, hash, now, reserve);
    ShapeFrom(v, t, u, answer, id, hash);
  }

  lemma CleanedShape(v: World, id: Id, hash: Hash, now: nat)
    requires id !in v.entries && ViewOk(ViewOf(v, id))
    ensures ViewOk(ViewOf(v.(store := Cleaned(v.store, now), cleaned := now), id))
    ensures Shape(v, v, Full, id, hash) && Shape(v, v, StoreFailed, id, hash)
    ensures Shape(v, v.(store := Cleaned(v.store, now)), StoreFailed, id, hash)
  {
  }

  lemma ShapeFrom(v: World, t: World, u: World, answer: Answer, id: Id, hash: Hash)
    requires Shape(t, u, answer, id, hash) && t.entries == v.entries && t.tasks == v.tasks && t.result == v.result && t.up == v.up
    ensures Shape(v, u, answer, id, hash)
  {
  }

  lemma ReserveShape(v: World, id: Id, hash: Hash, now: nat, fault: Fault)
    requires id !in v.entries && ViewOk(ViewOf(v, id))
    ensures var (u, answer) := Reserve(v, id, hash, now, fault); Shape(v, u, answer, id, hash)
  {
  }

  /** While the row is retained another request for the same id never runs and is never given an outcome, at
      any later point. */
  lemma OtherRequestRefused(w: World, steps: seq<Step>, large: Outcome -> bool, id: Id, other: Step)
    requires Inv(w) && Alive(w, steps + [other], large, id) && Follow(w, steps, large).up
    requires other.Call? && other.id == id && other.hash != w.store[id].hash
    ensures var u := Follow(w, steps, large);
      var (v, answer) := Enter(u, id, other.hash, other.now, other.cleanup, other.reserve);
      (answer.Conflict? || answer.Full? || answer.StoreFailed?) && v.tasks == u.tasks
  {
    AliveParts(w, steps, other, large, id);
    RowStays(w, steps, large, id);
    FollowInv(w, steps, large);
    var u := Follow(w, steps, large);
    assert ViewOk(ViewOf(u, id));
    hide Follow, Alive, ViewsOk, MemoryOk;
    OnlyFreshCallsRun(u, id, other.hash, other.now, other.cleanup, other.reserve);
    EnterTasks(u, id, other.hash, other.now, other.cleanup, other.reserve);
  }

  lemma {:induction false} AliveParts(w: World, steps: seq<Step>, s: Step, large: Outcome -> bool, id: Id)
    requires Alive(w, steps + [s], large, id)
    ensures Alive(w, steps, large, id) && id in Follow(w, steps, large).store
    ensures s.Call? ==> Follow(w, steps, large).store[id].expires > s.now
    decreases |steps|
  {
    hide Next;
    if steps == [] {
      assert steps + [s] == [s];
    } else {
      assert (steps + [s])[1..] == steps[1..] + [s] && (steps + [s])[0] == steps[0];
      AliveParts(Next(w, steps[0], large), steps[1..], s, large, id);
    }
  }

  /** Entries never exceed the limit; one that is in progress stays until its call has finished, and a
      completed one does not change. */
  lemma EntriesStay(w: World, s: Step, large: Outcome -> bool, id: Id)
    requires Inv(w) && id in w.entries && w.up
    ensures |w.entries| <= w.max
    ensures var u := Next(w, s, large);
      && (w.entries[id].state.Progress? && !s.Crash? ==>
            id in u.entries && (u.entries[id] == w.entries[id] || (s == FinishCall(id) && w.tasks[id].stage.Saved?)))
      && (w.entries[id].state.Complete? && id in u.entries ==> u.entries[id] == w.entries[id])
  {
    assert ViewOk(ViewOf(w, id));
    hide ViewsOk, Enter, Start;
    match s
    case Call(x, hash, now, cleanup, reserve) => EnterEntries(w, x, hash, now, cleanup, reserve, id);
    case Boot(now, ids) => StartStops(w, now, ids, large);
    case _ =>
  }

  /** The state before anything was ever stored. */
  lemma EmptyInv(max: nat, retention: nat)
    requires max > 0
    ensures Inv(World(map[], false, map[], [], max, retention, 0, map[], map[], map[]))
  {
  }

  // ----- the journal in memory -----

  lemma EvictedUnfolds(entries: map<Id, Entry>, order: seq<Id>, max: nat)
    ensures |entries| >= max && order != [] ==> Evicted(entries, order, max) == Evicted(entries - {order[0]}, order[1..], max)
    ensures !(|entries| >= max && order != []) ==> Evicted(entries, order, max) == (entries, order)
  {
  }

  lemma LoadNothing(rows: map<Id, Record>, ids: seq<Id>)
    ensures LoadedAll(rows, ids[..0]) == map[] && Completed(rows, ids[..0]) == []
  {
  }

  lemma LoadNext(rows: map<Id, Record>, ids: seq<Id>, i: nat)
    requires i < |ids| && ids[i] in rows
    ensures LoadedAll(rows, ids[..i + 1]) == LoadedAll(rows, ids[..i])[ids[i] := Loaded(rows[ids[i]])]
    ensures Completed(rows, ids[..i + 1]) == Completed(rows, ids[..i]) + if rows[ids[i]].outcome.Some? then [ids[i]] else []
  {
    assert ids[..i + 1][..i] == ids[..i] && ids[..i + 1] == ids[..i] + [ids[i]];
  }

  /** The journal of a running process and the rows it works on. */
  class Journal {
    const max: nat
    const retention: nat
    var entries: map<Id, Entry>
    var order: seq<Id>
    var cleaned: nat
    var store: map<Id, Record>
    ghost var tasks: map<Id, Task>
    ghost var runs: map<Id, nat>
    ghost var result: map<Id, Outcome>

    ghost function State(): World
      reads this
    {
      World(store, true, entries, order, max, retention, cleaned, tasks, runs, result)
    }

    /** Loads the rows that the query answered. */
    constructor (max: nat, retention: nat, now: nat, rows: map<Id, Record>, ids: seq<Id>,
                 ghost before: World, large: Outcome -> bool)
      requires !before.up && rows == Swept(before.store, now, large) && Answers(rows, ids, max)
      requires before.max == max && before.retention == retention
      ensures State() == Start(before, now, ids, large)
    {
      this.max, this.retention, cleaned, store := max, retention, now, rows;
      tasks, runs, result := map[], before.runs, before.result;
      entries, order := map[], [];
      new;
      hide LoadedAll, Completed, Swept, Distinct;
      LoadNothing(rows, ids);
      for i := 0 to |ids|
        invariant entries == LoadedAll(rows, ids[..i]) && order == Completed(rows, ids[..i])
        invariant store == rows && cleaned == now && tasks == map[] && runs == before.runs && result == before.result
      {
        LoadNext(rows, ids, i);
        var row := rows[ids[i]];
        entries := entries[ids[i] := Loaded(row)];
        if row.outcome.Some? {
          order := order + [ids[i]];
        }
      }
      assert ids[..|ids|] == ids;
    }

    /** The first critical section of `Execute`. */
    method Enlist(id: Id, hash: Hash, now: nat, cleanup: Fault, reserve: Fault) returns (answer: Answer)
      modifies this
      ensures (State(), answer) == Enter(old(State()), id, hash, now, cleanup, reserve)
    {
      if id in entries {
        return if entries[id].hash != hash then Conflict else Wait;
      }
      MakeRoom();
      hide Evicted;
      if |entries| >= max {
        return Full;
      }
      if now >= cleaned + CLEANUP_INTERVAL {
        if !cleanup.Broken? {
          store := Cleaned(store, now);
        }
        if !cleanup.Fine? {
          return StoreFailed;
        }
        cleaned := now;
      }
      answer := Insert(id, hash, now, reserve);
    }

    /** Evicts completed entries, oldest first, until there is room. */
    method MakeRoom()
      modifies this`entries, this`order
      ensures State() == AfterEviction(old(State()))
    {
      hide Evicted;
      while |entries| >= max && |order| > 0
        invariant Evicted(entries, order, max) == old(Evicted(entries, order, max))
        decreases |order|
      {
        EvictedUnfolds(entries, order, max);
        var oldest := order[0];
        order := order[1..];
        entries := entries - {oldest};
      }
      EvictedUnfolds(entries, order, max);
    }

    method Insert(id: Id, hash: Hash, now: nat, fault: Fault) returns (answer: Answer)
      modifies this
      ensures (State(), answer) == Reserve(old(State()), id, hash, now, fault)
    {
      if fault.Broken? {
        return StoreFailed;
      }
      if id in store {
        if fault.Late? {
          return StoreFailed;
        }
        if store[id].hash != hash {
          return Conflict;
        }
        return if store[id].outcome.None? then Uncertain else Replay(store[id].outcome.value);
      }
      store := store[id := Record(hash, None, now + retention)];
      runs, result := runs[id := 0], result - {id};
      if fault.Late? {
        return StoreFailed;
      }
      entries := entries[id := Entry(hash, Progress)];
      tasks := tasks[id := Task(hash, Reserved)];
      return Run;
    }

    /** The second critical section: the outcome becomes visible to everyone who waits. */
    method Settle(id: Id, outcome: Outcome, ok: bool)
      requires id in tasks && tasks[id].stage == Saved(outcome, ok) && id in entries
      modifies this`entries, this`order, this`tasks
      ensures State() == Finish(old(State()), id)
    {
      entries := entries[id := entries[id].(state := Complete(outcome, !ok))];
      if ok {
        order := order + [id];
      }
      tasks := tasks - {id};
    }
  }
}
