/** Round after round of applying remote files, with stops and starts in between
    (internal/configsync/workspace_reconciler.go:90-105 and 368-410, apply_journal.go).

    A round writes the journal, changes listed names and removes the journal. When anything fails after the
    journal was written, the journal is undone at once, but whether that succeeds is ignored and the next round
    may follow. Only a start insists on a complete recovery.
 */
module ApplyRounds {
  import opened Basics
  import opened Paths
  import opened ApplyJournal

  /** `Down`: no process runs, or its start has failed. */
  datatype Phase = Quiet | Applying | Down

  /** `base` is the tree when the standing journal was written, and `first` the tree before the first round that
      has neither finished nor been undone. The code reads neither. */
  datatype World = World(tree: Tree, journal: Option<seq<Entry>>, phase: Phase, base: Tree, first: Option<Tree>)

  /** `list` are the names to apply as the code sorts them. `Change` is a step of applying, or the doing of
      anybody else. `Fail` is any failure after the journal was written, removing it included. */
  datatype Step =
    | Begin(list: seq<string>, beyond: Path -> Seen, limit: nat, written: bool)
    | Change(k: nat, node: Option<Node>)
    | Finish
    | Fail(limit: nat, budget: nat)
    | Stop
    | Restart(limit: nat, budget: nat)

  ghost predicate Begins(w: World, s: Step) {
    && s.Begin? && w.phase.Quiet? && s.list != [] && s.written
    && Increasing(s.list) && Accepted(w.tree, s.list, s.beyond, s.limit)
  }

  predicate Readable(w: World) { w.journal.Some? ==> AllPaths(w.journal.value) }

  /** The state after a recovery, complete or not. */
  function AfterRecovery(size: seq<Entry> -> nat, w: World, limit: nat, budget: nat, phase: Phase): World
    requires Readable(w)
  {
    var r := Recovering(size, w.tree, w.journal, limit, budget);
    w.(tree := r.tree, journal := r.journal, phase := phase, first := if r.journal.None? then None else w.first)
  }

  ghost function Next(size: seq<Entry> -> nat, w: World, s: Step): World {
    match s
    case Begin(list, beyond, _, _) =>
      if !Begins(w, s) then w
      else w.(journal := Some(EntriesOf(w.tree, list, beyond)), phase := Applying, base := w.tree,
              first := if w.journal.None? then Some(w.tree) else w.first)
    case Change(k, node) =>
      if w.journal.None? || k >= |w.journal.value| || w.journal.value[k].path == [] || !Plain(node) then w
      else w.(tree := Changed(w.tree, w.journal.value[k].path, node))
    case Finish => if w.phase.Applying? then w.(journal := None, phase := Quiet, first := None) else w
    case Fail(limit, budget) =>
      if w.phase.Applying? && Readable(w) then AfterRecovery(size, w, limit, budget, Quiet) else w
    case Stop => w.(phase := Down)
    case Restart(limit, budget) =>
      if w.phase.Down? && Readable(w)
      then AfterRecovery(size, w, limit, budget,
                         if Recovering(size, w.tree, w.journal, limit, budget).err.None? then Quiet else Down)
      else w
  }

  ghost function Run(size: seq<Entry> -> nat, w: World, steps: seq<Step>): World
    decreases |steps|
  {
    if steps == [] then w else Run(size, Next(size, w, steps[0]), steps[1..])
  }

  // ----- what every step keeps -----

  /** No directory goes away. */
  ghost predicate Kept(a: Tree, b: Tree) {
    forall p :: Look(a, p) == Some(Directory) ==> Look(b, p) == Some(Directory)
  }

  ghost predicate Inv(w: World) {
    && Shaped(w.tree) && (w.first.Some? <==> w.journal.Some?)
    && (w.journal.Some? ==>
          && w.journal.value != [] && Ongoing(w.tree, w.base, w.journal.value)
          && Kept(w.first.value, w.base) && Kept(w.base, w.tree))
  }

  lemma KeptOn(a: Tree, b: Tree, c: Tree)
    requires Kept(a, b) && Kept(b, c)
    ensures Kept(a, c)
  {
  }

  lemma OpenedKept(t: Tree, u: Tree, path: Path)
    requires Opened(t, u, path)
    ensures Kept(t, u)
  {
    forall p | Look(t, p) == Some(Directory) ensures Look(u, p) == Some(Directory) {
      assert Look(u, p) == Look(t, p) || Look(t, p).None?;
    }
  }

  lemma RewrittenKept(t: Tree, u: Tree, path: Path)
    requires Rewritten(t, u, path) && Plain(Look(t, path))
    ensures Kept(t, u)
  {
    forall p | Look(t, p) == Some(Directory) ensures Look(u, p) == Some(Directory) {
      assert p != path;
      assert Look(u, p) == Look(t, p) || Look(t, p).None?;
    }
  }

  lemma {:induction false} PutAllBackKept(t: Tree, start: Tree, es: seq<Entry>, n: nat, budget: nat)
    requires Ongoing(t, start, es) && n <= |es|
    ensures AllPaths(es) && Kept(t, PutAllBack(t, es, n, budget).tree)
    decreases n
  {
    if es != [] { OngoingPath(t, start, es, 0); }
    hide Ongoing, Kept, PutBack, Opened, Rewritten, Open, Blocked;
    assert Kept(t, t) by { KeptSelf(t); }
    if n > 0 {
      PutBackIs(t, start, es, n - 1, budget);
      var p := PutBack(t, es[n - 1], budget);
      if Plain(Look(t, es[n - 1].path)) {
        RewrittenKept(t, p.tree, es[n - 1].path);
      } else {
        OpenedKept(t, p.tree, es[n - 1].path);
      }
      if p.err.None? {
        PutAllBackKept(p.tree, start, es, n - 1, p.left);
        KeptOn(t, p.tree, PutAllBack(t, es, n, budget).tree);
      }
    }
  }

  lemma KeptSelf(t: Tree)
    ensures Kept(t, t)
  {
  }

  lemma RecoveryInv(size: seq<Entry> -> nat, w: World, limit: nat, budget: nat, phase: Phase)
    requires Inv(w)
    ensures Readable(w) && Inv(AfterRecovery(size, w, limit, budget, phase))
  {
    hide Shaped, Ongoing, Kept, PutAllBack, Recovering, Restored, Recoverable, OnlyListedChanged, AllPaths;
    if w.journal.Some? {
      var es := w.journal.value;
      RecoveringIs(size, w.tree, w.base, es, limit, budget);
      PutAllBackKept(w.tree, w.base, es, |es|, budget);
      OngoingParts(w.tree, w.base, es, size, limit, budget);
      RecoveringTree(size, w.tree, es, limit, budget);
      var r := Recovering(size, w.tree, w.journal, limit, budget);
      if r.tree != w.tree { KeptOn(w.base, w.tree, r.tree); }
      RecoveryParts(size, w, limit, budget, phase);
    } else {
      NothingToRecover(size, w.tree, limit, budget);
    }
  }

  lemma NothingToRecover(size: seq<Entry> -> nat, t: Tree, limit: nat, budget: nat)
    ensures Recovering(size, t, None, limit, budget).tree == t && Recovering(size, t, None, limit, budget).journal.None?
  {
  }

  lemma RecoveringTree(size: seq<Entry> -> nat, t: Tree, es: seq<Entry>, limit: nat, budget: nat)
    requires AllPaths(es)
    ensures var r := Recovering(size, t, Some(es), limit, budget).tree;
      r == t || r == PutAllBack(t, es, |es|, budget).tree
  {
    hide PutAllBack;
  }

  lemma RecoveryParts(size: seq<Entry> -> nat, w: World, limit: nat, budget: nat, phase: Phase)
    requires Inv(w) && w.journal.Some? && Readable(w)
    requires var r := Recovering(size, w.tree, w.journal, limit, budget);
      && Shaped(r.tree) && Ongoing(r.tree, w.base, w.journal.value) && Kept(w.base, r.tree)
      && (r.err.None? ==> r.journal.None?) && (r.err.Some? ==> r.journal == w.journal)
    ensures Inv(AfterRecovery(size, w, limit, budget, phase))
  {
    hide Ongoing, Kept, Recovering, Shaped;
  }

  lemma NextInv(size: seq<Entry> -> nat, w: World, s: Step)
    requires Inv(w)
    ensures Inv(Next(size, w, s))
  {
    hide Ongoing, Kept, Recovering, Changed, Shaped, Accepted, Opened, Rewritten, Blocked;
    match s
    case Begin(list, beyond, limit, _) => if Begins(w, s) { BeginInv(w, s); }
    case Change(k, node) => ChangeInv(size, w, k, node);
    case Fail(limit, budget) => RecoveryInv(size, w, limit, budget, Quiet);
    case Restart(limit, budget) =>
      RecoveryInv(size, w, limit, budget, Quiet);
      RecoveryInv(size, w, limit, budget, Down);
    case _ =>
  }

  lemma BeginInv(w: World, s: Step)
    requires Inv(w) && Begins(w, s)
    ensures Ongoing(w.tree, w.tree, EntriesOf(w.tree, s.list, s.beyond)) && Kept(w.tree, w.tree)
    ensures w.first.Some? ==> Kept(w.first.value, w.tree)
  {
    Begun(w.tree, s.list, s.beyond);
    if w.first.Some? { KeptOn(w.first.value, w.base, w.tree); }
  }

  lemma ChangeInv(size: seq<Entry> -> nat, w: World, k: nat, node: Option<Node>)
    requires Inv(w)
    ensures Inv(Next(size, w, Change(k, node)))
  {
    var u := Next(size, w, Change(k, node));
    if u != w {
      var es := w.journal.value;
      ChangedIs(w.tree, w.base, es, k, node);
      assert Shaped(u.tree);
      if Plain(Look(w.tree, es[k].path)) {
        RewrittenKept(w.tree, u.tree, es[k].path);
      } else {
        OpenedKept(w.tree, u.tree, es[k].path);
      }
      KeptOn(w.base, w.tree, u.tree);
    }
  }

  lemma {:induction false} RunInv(size: seq<Entry> -> nat, w: World, steps: seq<Step>)
    requires Inv(w)
    ensures Inv(Run(size, w, steps))
    decreases |steps|
  {
    hide Inv, Next;
    if steps != [] {
      NextInv(size, w, steps[0]);
      RunInv(size, Next(size, w, steps[0]), steps[1..]);
    }
  }

  // ----- what recovery gives back -----

  /** At `p` the tree is as `first` was, apart from set-id and sticky bits and new directories. */
  predicate SameAt(t: Tree, first: Tree, p: Path) {
    || AsWritten(Look(t, p)) == AsWritten(Look(first, p))
    || (Look(first, p).None? && Look(t, p) == Some(Directory))
  }

  ghost predicate GivenBack(t: Tree, first: Tree) { forall p :: SameAt(t, first, p) }

  /** A complete recovery ends with the tree of the journal's writing. */
  lemma RestoredGivesBack(t: Tree, base: Tree, es: seq<Entry>)
    requires Ongoing(t, base, es) && Separate(es) && Unlinked(es, base) && Restored(t, es, 0)
    ensures GivenBack(t, base)
  {
    AllBack(t, base, es);
    hide *;
    forall p ensures SameAt(t, base, p) { SameWritten(t, base, p, Listed(es, p)); }
    AllSame(t, base);
  }

  lemma SameWritten(t: Tree, base: Tree, p: Path, listed: bool)
    requires listed ==> Look(t, p) == AsWritten(Look(base, p))
    requires !listed && Look(t, p) != Look(base, p) ==> p !in base && Look(t, p) == Some(Directory)
    ensures SameAt(t, base, p)
  {
  }

  lemma AllSame(t: Tree, base: Tree)
    requires forall p :: SameAt(t, base, p)
    ensures GivenBack(t, base)
  {
  }

  lemma GivenBackOn(t: Tree, base: Tree, first: Tree)
    requires GivenBack(t, base) && Kept(first, base)
    ensures GivenBack(t, first) <==> GivenBack(base, first)
  {
    forall p ensures SameAt(t, first, p) <==> SameAt(base, first, p) {
      assert SameAt(t, base, p);
    }
  }

  /** No process runs the code yet, or it has nothing to undo. */
  predicate Fresh(w: World) { w.journal.None? && w.first.None? }

  /** In every run, however rounds, failures, stops and starts follow each other: while a journal stands, a
      recovery with enough steps completes if and only if the journal is recoverable; and then it gives back the
      tree before the first unfinished round if and only if that was still the tree when the standing journal
      was written. */
  lemma RecoveryGives(size: seq<Entry> -> nat, w: World, steps: seq<Step>, limit: nat, budget: nat)
    requires Fresh(w) && Shaped(w.tree)
    ensures var r := Run(size, w, steps);
      r.journal.Some? && budget > Work(r.journal.value) ==>
        && r.first.Some? && Readable(r)
        && var q := Recovering(size, r.tree, r.journal, limit, budget);
        && (q.err.None? <==> Recoverable(size, r.journal.value, r.base, limit))
        && (q.err.None? ==>
              && GivenBack(q.tree, r.base)
              && (GivenBack(q.tree, r.first.value) <==> GivenBack(r.base, r.first.value)))
  {
    RunInv(size, w, steps);
    var r := Run(size, w, steps);
    hide Run;
    if r.journal.Some? && budget > Work(r.journal.value) {
      RecoveringIs(size, r.tree, r.base, r.journal.value, limit, budget);
      var q := Recovering(size, r.tree, r.journal, limit, budget);
      hide Recovering, Ongoing, Restored, Separate, Unlinked, Kept, GivenBack, Work;
      if q.err.None? {
        RestoredGivesBack(q.tree, r.base, r.journal.value);
        GivenBackOn(q.tree, r.base, r.first.value);
      }
    }
  }

  /** No journal is written while one stands. */
  ghost predicate Bracketed(size: seq<Entry> -> nat, w: World, steps: seq<Step>)
    decreases |steps|
  {
    steps == [] || (!(Begins(w, steps[0]) && w.journal.Some?) && Bracketed(size, Next(size, w, steps[0]), steps[1..]))
  }

  lemma {:induction false} BracketedBase(size: seq<Entry> -> nat, w: World, steps: seq<Step>)
    requires Bracketed(size, w, steps) && (w.first.Some? ==> w.first.value == w.base)
    ensures var r := Run(size, w, steps); r.first.Some? ==> r.first.value == r.base
    decreases |steps|
  {
    if steps != [] {
      var u := Next(size, w, steps[0]);
      assert u.first.Some? ==> u.first.value == u.base by { hide Recovering, Changed, Accepted; }
      hide Next;
      BracketedBase(size, u, steps[1..]);
    }
  }

  lemma GivenBackSelf(t: Tree)
    ensures GivenBack(t, t)
  {
  }

  /** As long as no journal is written while one stands, recovery gives back the tree before the first
      unfinished round, which is then the only one. */
  lemma FirstGivenBack(size: seq<Entry> -> nat, w: World, steps: seq<Step>, limit: nat, budget: nat)
    requires Fresh(w) && Shaped(w.tree) && Bracketed(size, w, steps)
    ensures var r := Run(size, w, steps);
      r.journal.Some? && budget > Work(r.journal.value) ==>
        && r.first.Some? && Readable(r)
        && var q := Recovering(size, r.tree, r.journal, limit, budget);
        && (q.err.None? <==> Recoverable(size, r.journal.value, r.first.value, limit))
        && (q.err.None? ==> GivenBack(q.tree, r.first.value))
  {
    RecoveryGives(size, w, steps, limit, budget);
    BracketedBase(size, w, steps);
    hide Run, Recovering, GivenBack, Recoverable;
    var r := Run(size, w, steps);
    if r.first.Some? { GivenBackSelf(r.base); }
  }

  // ----- journals that are overwritten -----

  lemma RunNothing(size: seq<Entry> -> nat, w: World)
    ensures Run(size, w, []) == w
  {
  }

  lemma {:induction false} RunMore(size: seq<Entry> -> nat, w: World, steps: seq<Step>, s: Step)
    ensures Run(size, w, steps + [s]) == Next(size, Run(size, w, steps), s)
    decreases |steps|
  {
    hide Next;
    if steps == [] {
      assert steps + [s] == [s] && [s][1..] == [];
    } else {
      assert (steps + [s])[1..] == steps[1..] + [s];
      RunMore(size, Next(size, w, steps[0]), steps[1..], s);
    }
  }

  predicate NoBegin(steps: seq<Step>) { forall i :: 0 <= i < |steps| ==> !steps[i].Begin? }

  lemma {:induction false} BaseStays(size: seq<Entry> -> nat, w: World, steps: seq<Step>)
    requires NoBegin(steps)
    ensures var r := Run(size, w, steps); r.journal.Some? ==> w.journal.Some? && r.base == w.base && r.first == w.first
    decreases |steps|
  {
    if steps != [] {
      var u := Next(size, w, steps[0]);
      assert u.journal.Some? ==> w.journal.Some? && u.base == w.base && u.first == w.first by { NextBase(size, w, steps[0]); }
      hide Next;
      BaseStays(size, u, steps[1..]);
    }
  }

  lemma NextBase(size: seq<Entry> -> nat, w: World, s: Step)
    requires !s.Begin?
    ensures var u := Next(size, w, s); u.journal.Some? ==> w.journal.Some? && u.base == w.base && u.first == w.first
  {
    hide PutAllBack, Changed;
  }

  /** A file that is not what `n` is. */
  function Other(n: Option<Node>): Option<Node> { Some(File(0, if IsFile(n) then n.value.content + [0] else [])) }

  lemma OtherDiffers(t: Tree, first: Tree, p: Path)
    requires Look(t, p) == Other(Look(first, p))
    ensures !GivenBack(t, first)
  {
    assert !SameAt(t, first, p);
  }

  /** The first listed name can be changed. */
  lemma ChangeLands(size: seq<Entry> -> nat, w: World)
    requires Inv(w) && w.journal.Some? && Separate(w.journal.value) && Unlinked(w.journal.value, w.base)
    ensures var path := w.journal.value[0].path;
      !GivenBack(Next(size, w, Change(0, Other(Look(w.first.value, path)))).tree, w.first.value)
  {
    var es := w.journal.value;
    var node := Other(Look(w.first.value, es[0].path));
    NothingInTheWay(w.tree, w.base, es, 0);
    ChangedIs(w.tree, w.base, es, 0, node);
    OtherDiffers(Changed(w.tree, es[0].path, node), w.first.value, es[0].path);
  }

  /** Take any run, at a point between rounds where a journal still stands whose names have no links above them
      and do not nest, so that it can be undone if it can be read. Let its first name hold something else, as
      its round may have left it. Once a further round has written its journal, no recovery ever gives back the
      tree before the first unfinished round, whatever else happens. */
  lemma OverwritingLoses(size: seq<Entry> -> nat, w: World, steps: seq<Step>, s: Step, more: seq<Step>, limit: nat, budget: nat)
    requires Fresh(w) && Shaped(w.tree) && NoBegin(more)
    requires var r := Run(size, w, steps);
      && r.journal.Some? && r.first.Some? && r.journal.value != [] && Separate(r.journal.value) && Unlinked(r.journal.value, r.base)
      && Begins(Next(size, r, Change(0, Other(Look(r.first.value, r.journal.value[0].path)))), s)
    ensures var r := Run(size, w, steps);
      var v := Next(size, r, Change(0, Other(Look(r.first.value, r.journal.value[0].path))));
      var u := Run(size, Next(size, v, s), more);
      && Readable(u) && (u.journal.Some? ==> u.first == r.first)
      && (u.journal.Some? && Recovering(size, u.tree, u.journal, limit, budget).err.None? ==>
            !GivenBack(Recovering(size, u.tree, u.journal, limit, budget).tree, r.first.value))
  {
    RunInv(size, w, steps);
    var r := Run(size, w, steps);
    hide Run;
    ChangeLands(size, r);
    var c := Change(0, Other(Look(r.first.value, r.journal.value[0].path)));
    var v := Next(size, r, c);
    NextInv(size, r, c);
    var b := Next(size, v, s);
    NextInv(size, v, s);
    assert v.first == r.first && v.journal == r.journal && b.first == r.first && b.base == v.tree by { hide Changed, Accepted; }
    hide Next, GivenBack, Begins, Separate, Unlinked;
    RunInv(size, b, more);
    BaseStays(size, b, more);
    var u := Run(size, b, more);
    hide Inv;
    LostState(size, u, limit, budget);
  }

  /** What was not there when the journal was written is not given back. */
  lemma LostState(size: seq<Entry> -> nat, u: World, limit: nat, budget: nat)
    requires Inv(u)
    ensures Readable(u)
    ensures u.journal.Some? && !GivenBack(u.base, u.first.value) ==>
      var q := Recovering(size, u.tree, u.journal, limit, budget);
      q.err.None? ==> !GivenBack(q.tree, u.first.value)
  {
    if u.journal.Some? {
      RecoveringIs(size, u.tree, u.base, u.journal.value, limit, budget);
      var q := Recovering(size, u.tree, u.journal, limit, budget);
      hide Recovering, Ongoing, Restored, Separate, Unlinked, Kept, GivenBack, Work;
      if q.err.None? {
        RestoredGivesBack(q.tree, u.base, u.journal.value);
        GivenBackOn(q.tree, u.base, u.first.value);
      }
    }
  }

  /** A journal that nobody overwrites is replayed over whatever has happened since: after a completed start
      every listed name is as it was recorded, whatever it was changed to meanwhile. */
  lemma ReplaysOverEdits(size: seq<Entry> -> nat, w: World, k: nat, node: Option<Node>, limit: nat, budget: nat)
    requires Inv(w) && w.journal.Some? && k < |w.journal.value|
    ensures var v := Run(size, w, [Change(k, node), Stop, Restart(limit, budget)]);
      v.phase.Quiet? ==> v.journal.None? && Look(v.tree, w.journal.value[k].path) == AsWritten(w.journal.value[k].node)
  {
    var a := Next(size, w, Change(k, node));
    var b := Next(size, a, Stop);
    NextInv(size, w, Change(k, node));
    NextInv(size, a, Stop);
    assert b.journal == w.journal && b.phase.Down? by { hide Changed; }
    hide Next, Inv, Run;
    RunNothing(size, w);
    RunMore(size, w, [], Change(k, node));
    RunMore(size, w, [Change(k, node)], Stop);
    RunMore(size, w, [Change(k, node), Stop], Restart(limit, budget));
    assert [] + [Change(k, node)] == [Change(k, node)] && [Change(k, node)] + [Stop] == [Change(k, node), Stop];
    assert [Change(k, node), Stop] + [Restart(limit, budget)] == [Change(k, node), Stop, Restart(limit, budget)];
    RestartRestores(size, b, k, limit, budget);
  }

  lemma RestartRestores(size: seq<Entry> -> nat, w: World, k: nat, limit: nat, budget: nat)
    requires Inv(w) && w.phase.Down? && w.journal.Some? && k < |w.journal.value|
    ensures var v := Next(size, w, Restart(limit, budget));
      v.phase.Quiet? ==> v.journal.None? && Look(v.tree, w.journal.value[k].path) == AsWritten(w.journal.value[k].node)
  {
    RecoveringIs(size, w.tree, w.base, w.journal.value, limit, budget);
    hide Ongoing, Recovering, Kept, Recoverable;
  }

  /** The smallest loss: applying `a` fails half-way and undoing it fails too; the next round, which has only `b`
      to apply, finishes. The failed round's `a` stays, no journal is left, and every journal was tiny. */
  lemma OverwriteExample(size: seq<Entry> -> nat, x: Node, y: Node, beyond: Path -> Seen, limit: nat)
    requires x.File? && y.File? && |x.content| <= limit && limit > 0
    ensures var w := World(map[["a"] := x], None, Quiet, map[], None);
      Run(size, w, [Begin(["a"], beyond, limit, true), Change(0, Some(y)), Fail(limit, 0),
                    Begin(["b"], beyond, limit, true), Finish])
      == World(map[["a"] := y], None, Quiet, map[["a"] := y], None)
  {
    var t: Tree, u: Tree := map[["a"] := x], map[["a"] := y];
    var w := World(t, None, Quiet, map[], None);
    var a := World(t, Some([Entry(["a"], Some(x))]), Applying, t, Some(t));
    var b := a.(tree := u);
    var c := b.(phase := Quiet);
    var d := World(u, Some([Entry(["b"], None)]), Applying, u, Some(t));
    ExampleBegins(w, "a", beyond, limit);
    ExampleChanges(size, a, y, limit);
    ExampleBegins(c, "b", beyond, limit);
    var s1, s2, s3, s4 := Begin(["a"], beyond, limit, true), Change(0, Some(y)), Fail(limit, 0), Begin(["b"], beyond, limit, true);
    assert Next(size, w, s1) == a && Next(size, c, s4) == d by { hide Begins, EntriesOf; }
    assert Next(size, d, Finish) == World(u, None, Quiet, u, None);
    hide Next, Run, Begins, EntriesOf;
    RunNothing(size, w);
    RunMore(size, w, [], s1);
    RunMore(size, w, [s1], s2);
    RunMore(size, w, [s1, s2], s3);
    RunMore(size, w, [s1, s2, s3], s4);
    RunMore(size, w, [s1, s2, s3, s4], Finish);
    assert [] + [s1] == [s1] && [s1] + [s2] == [s1, s2] && [s1, s2] + [s3] == [s1, s2, s3];
    assert [s1, s2, s3] + [s4] == [s1, s2, s3, s4] && [s1, s2, s3, s4] + [Finish] == [s1, s2, s3, s4, Finish];
  }

  lemma ExampleBegins(w: World, name: string, beyond: Path -> Seen, limit: nat)
    requires w.phase.Quiet? && name in {"a", "b"} && limit > 0 && Bytes(Look(w.tree, [name])) <= limit
    requires Restorable(Look(w.tree, [name]))
    ensures Begins(w, Begin([name], beyond, limit, true))
    ensures EntriesOf(w.tree, [name], beyond) == [Entry([name], Look(w.tree, [name]))]
  {
    OneName(w.tree, name, beyond);
    hide Split, See;
  }

  lemma ExampleChanges(size: seq<Entry> -> nat, a: World, y: Node, limit: nat)
    requires a.phase.Applying? && a.journal.Some? && |a.journal.value| == 1 && a.journal.value[0].path == ["a"]
    requires ["a"] in a.tree && a.tree[["a"]].File? && y.File? && a.tree.Keys == {["a"]}
    ensures var b := Next(size, a, Change(0, Some(y)));
      b == a.(tree := map[["a"] := y]) && Next(size, b, Fail(limit, 0)) == b.(phase := Quiet)
  {
    var es := a.journal.value;
    assert Opening(a.tree, ["a"], 1, 1) == Progress(a.tree, 1, None);
    assert a.tree[["a"] := y] == map[["a"] := y];
    var t := map[["a"] := y];
    assert Opening(t, ["a"], 1, 0) == Progress(t, 0, None);
    assert PutBack(t, es[0], 0) == Progress(t, 0, Some(Stopped));
    assert PutAllBack(t, es, 1, 0) == Progress(t, 0, Some(Stopped));
  }

  // ----- the bracket as it runs -----

  /** The files are those of `w`. */
  ghost predicate Matches(home: Home, w: World)
    reads home
  {
    home.tree == w.tree && home.journal == w.journal && (w.journal.Some? ==> home.start == w.base)
  }

  /** A round begins; refused, or not written, the journal is as before. */
  method WriteJournal(home: Home, names: seq<string>, beyond: Path -> Seen, limit: nat, budget: nat, ghost w: World)
    returns (ok: bool, ghost steps: seq<Step>)
    requires Inv(w) && w.phase.Quiet? && Matches(home, w) && names != []
    modifies home
    ensures Matches(home, Run(home.size, w, steps)) && |steps| == 1 && steps[0].Begin?
    ensures Run(home.size, w, steps).phase == if ok then Applying else Quiet
  {
    assert home.Valid() by { InvValid(w); }
    hide Inv, Accepted, Increasing, EntriesOf;
    var err;
    ghost var list;
    err, list := home.Begin(names, beyond, limit, budget);
    assert list != [] by { assert names[0] in names; }
    ghost var s := Begin(list, beyond, limit, !err.Some?);
    steps := [s];
    assert [s][1..] == [];
    ok := err.None?;
    assert err.None? ==> Accepted(w.tree, list, beyond, limit) by { Ends(err); }
  }

  lemma InvValid(w: World)
    requires Inv(w)
    ensures Shaped(w.tree) && (w.journal.Some? ==> Ongoing(w.tree, w.base, w.journal.value))
  {
  }

  /** The changes of a round. */
  method MakeChanges(home: Home, changes: seq<(nat, Option<Node>)>, ghost w: World, ghost steps: seq<Step>)
    returns (ghost more: seq<Step>)
    requires Inv(w) && Matches(home, Run(home.size, w, steps)) && Run(home.size, w, steps).phase.Applying?
    modifies home
    ensures Matches(home, Run(home.size, w, more)) && Run(home.size, w, more).phase.Applying? && steps <= more
  {
    hide Inv, Changed, Ongoing, Run;
    more := steps;
    for i := 0 to |changes|
      invariant Matches(home, Run(home.size, w, more)) && Run(home.size, w, more).phase.Applying? && steps <= more
    {
      var (k, node) := changes[i];
      ghost var u := Run(home.size, w, more);
      RunInv(home.size, w, more);
      InvValid(u);
      RunMore(home.size, w, more, Change(k, node));
      if home.journal.Some? && k < |home.journal.value| && (node.None? || !node.value.Directory?) {
        home.Touch(k, node);
      }
      more := more + [Change(k, node)];
    }
  }

  /** The bracket of a round: `changes` are those made before everything is applied or something fails, `applied`
      and `removed` say whether applying them and removing the journal succeed. The result of undoing is
      ignored. */
  method ApplyRound(home: Home, names: seq<string>, beyond: Path -> Seen, limit: nat, budget: nat,
                    changes: seq<(nat, Option<Node>)>, applied: bool, removed: bool, undo: nat, ghost w: World)
    returns (ok: bool, ghost steps: seq<Step>)
    requires Inv(w) && w.phase.Quiet? && Matches(home, w)
    modifies home
    ensures Matches(home, Run(home.size, w, steps)) && Run(home.size, w, steps).phase.Quiet?
    ensures names == [] ==> steps == [] && ok
    ensures names != [] ==> steps != [] && steps[0].Begin? && (ok <==> steps[|steps| - 1] == Finish)
    ensures names != [] && ok ==> home.journal.None? && applied && removed
    ensures names != [] && !ok && applied && removed ==> |steps| == 1
  {
    steps := [];
    if |names| == 0 {
      return true, steps;
    }
    ok, steps := WriteJournal(home, names, beyond, limit, budget, w);
    if !ok {
      return;
    }
    ghost var more := MakeChanges(home, changes, w, steps);
    steps := more;
    RunInv(home.size, w, steps);
    hide Inv, Recovering, Ongoing, Run, Accepted;
    ghost var u := Run(home.size, w, steps);
    InvValid(u);
    if applied && removed {
      home.Finish();
      RunMore(home.size, w, steps, Finish);
      steps := steps + [Finish];
    } else {
      RecoveryInv(home.size, u, limit, undo, Quiet);
      InvValid(u);
      var ignored := home.Recover(limit, undo);
      RunMore(home.size, w, steps, Fail(limit, undo));
      steps := steps + [Fail(limit, undo)];
      ok := false;
    }
  }

  /** A start: it succeeds only when what an earlier process left is undone. */
  method StartAgain(home: Home, limit: nat, budget: nat, ghost w: World) returns (ok: bool)
    requires Inv(w) && w.phase.Down? && Matches(home, w)
    modifies home
    ensures var u := Next(home.size, w, Restart(limit, budget));
      Matches(home, u) && (ok <==> u.phase.Quiet?) && (ok ==> u.journal.None?)
  {
    InvValid(w);
    RecoveryInv(home.size, w, limit, budget, Quiet);
    hide Inv, Recovering, Ongoing;
    var err := home.Recover(limit, budget);
    ok := err.None?;
  }
}
