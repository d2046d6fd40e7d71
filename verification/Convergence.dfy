/** Many machines that share one remote (internal/configsync/reconcile.go, publisher.go).

    A completed round of a machine is one step: its publication is accepted only while the remote is
    still the one it planned with. Every machine is bidirectional and may write.
 */
module Convergence {
  import opened Basics
  import opened Paths
  import opened Reconcile

  const SHARED := Assignment(Bidirectional, true)

  datatype Machine = Machine(base: Files, local: Files)

  datatype System = System(machines: seq<Machine>, remote: Files)

  function SidesOf(s: System, i: nat): Sides
    requires i < |s.machines|
  {
    Sides(s.machines[i].base, s.machines[i].local, s.remote)
  }

  /** Machine `i` completes a round that leads from `s` to `t`. */
  ghost predicate Round(s: System, i: nat, t: System) {
    && i < |s.machines| == |t.machines|
    && (forall k :: 0 <= k < |s.machines| && k != i ==> t.machines[k] == s.machines[k])
    && exists paths :: RoundAlong(s, i, t, paths)
  }

  ghost predicate RoundAlong(s: System, i: nat, t: System, paths: seq<string>)
    requires i < |s.machines| == |t.machines|
  {
    var sides, plan := SidesOf(s, i), PlanAlong(SidesOf(s, i), paths, Bidirectional);
    && AllPaths(sides, paths)
    && t.machines[i].local == LocalAfter(sides, plan) && t.remote == RemoteAfter(sides, plan)
    && Recorded(t.machines[i].base, sides, plan, SHARED)
  }

  /** The round finds a path that both sides changed. */
  ghost predicate Conflicts(s: System, i: nat) {
    i < |s.machines| && exists p :: DecideAt(SidesOf(s, i), p, Bidirectional).Conflict?
  }

  /** Nothing was edited since the last round, and no conflict is pending. */
  predicate Quiet(m: Machine) { m.base == m.local }

  lemma SameFiles(a: Files, b: Files)
    requires forall p :: Look(a, p) == Look(b, p)
    ensures a == b
  {
    forall p ensures (p in a <==> p in b) && (p in a ==> a[p] == b[p]) {
      assert Look(a, p) == Look(b, p);
    }
  }

  /** What a round leaves at one path. */
  lemma RoundLeaves(s: System, i: nat, t: System, paths: seq<string>, p: string)
    requires i < |s.machines| == |t.machines| && RoundAlong(s, i, t, paths)
    ensures var sides := SidesOf(s, i);
      var d, m := DecideAt(sides, p, Bidirectional), t.machines[i];
      && (!d.Conflict? ==> Look(m.local, p) == Look(t.remote, p) && Look(m.base, p) == Look(m.local, p))
      && (Look(s.machines[i].base, p) == Look(s.machines[i].local, p) ==> !d.Conflict? && Look(t.remote, p) == Look(s.remote, p))
  {
    hide PlanAlong, AllPaths, LocalAfter, RemoteAfter, Names;
    var sides := SidesOf(s, i);
    var plan := PlanAlong(sides, paths, Bidirectional);
    assert Carried(plan, SHARED) == plan;
    RoundAt(sides, paths, SHARED, p);
  }

  /** A round without conflict leaves the machine equal to the remote, with a matching baseline. */
  lemma CleanRound(s: System, i: nat, t: System)
    requires Round(s, i, t) && !Conflicts(s, i)
    ensures t.machines[i].local == t.remote && Quiet(t.machines[i])
  {
    hide RoundAlong, DecideAt, Look;
    var paths :| RoundAlong(s, i, t, paths);
    var m := t.machines[i];
    forall p ensures Look(m.local, p) == Look(t.remote, p) && Look(m.base, p) == Look(m.local, p) {
      RoundLeaves(s, i, t, paths, p);
    }
    SameFiles(m.local, t.remote);
    SameFiles(m.base, m.local);
  }

  /** A machine without edits never conflicts, changes nothing on the remote, and ends equal to it. */
  lemma QuietRound(s: System, i: nat, t: System)
    requires Round(s, i, t) && Quiet(s.machines[i])
    ensures !Conflicts(s, i) && t.remote == s.remote && t.machines[i].local == s.remote && Quiet(t.machines[i])
  {
    hide RoundAlong, DecideAt, Look;
    var paths :| RoundAlong(s, i, t, paths);
    forall p ensures !DecideAt(SidesOf(s, i), p, Bidirectional).Conflict? && Look(t.remote, p) == Look(s.remote, p) {
      RoundLeaves(s, i, t, paths, p);
    }
    SameFiles(t.remote, s.remote);
    CleanRound(s, i, t);
  }

  // ----- runs with edits -----

  datatype Event = Sync(machine: nat) | Edit(machine: nat, files: Files)

  /** A completed round, or somebody changes files on one machine. */
  ghost predicate Happens(s: System, e: Event, t: System) {
    match e
    case Sync(i) => Round(s, i, t)
    case Edit(i, files) =>
      i < |s.machines| && t == s.(machines := s.machines[i := s.machines[i].(local := files)])
  }

  ghost predicate History(states: seq<System>, events: seq<Event>) {
    && |states| == |events| + 1
    && forall k :: 0 <= k < |events| ==> Happens(states[k], events[k], states[k + 1])
  }

  /** A quiet machine stays quiet, whatever the others edit and publish, until it is edited itself. */
  lemma {:induction false} QuietUntilEdited(states: seq<System>, events: seq<Event>, i: nat, k: nat)
    requires History(states, events) && k <= |events| && i < |states[0].machines| && Quiet(states[0].machines[i])
    requires forall j :: 0 <= j < k ==> !(events[j].Edit? && events[j].machine == i)
    ensures |states[k].machines| == |states[0].machines| && Quiet(states[k].machines[i])
  {
    if k > 0 {
      QuietUntilEdited(states, events, i, k - 1);
      assert Happens(states[k - 1], events[k - 1], states[k]);
      if events[k - 1] == Sync(i) { QuietRound(states[k - 1], i, states[k]); }
    }
  }

  /** So its next round does not conflict, publishes nothing, and leaves it equal to the remote. */
  lemma UneditedNeverConflicts(states: seq<System>, events: seq<Event>, i: nat, k: nat)
    requires History(states, events) && k < |events| && i < |states[0].machines| && Quiet(states[0].machines[i])
    requires forall j :: 0 <= j < k ==> !(events[j].Edit? && events[j].machine == i)
    requires events[k] == Sync(i)
    ensures var t := states[k + 1];
      && !Conflicts(states[k], i) && t.remote == states[k].remote
      && i < |t.machines| && t.machines[i] == Machine(t.remote, t.remote)
  {
    QuietUntilEdited(states, events, i, k);
    assert Happens(states[k], events[k], states[k + 1]);
    QuietRound(states[k], i, states[k + 1]);
  }

  // ----- passes -----

  /** A run of rounds: `states[k + 1]` follows `states[k]` by a round of machine `order[k]`. */
  ghost predicate Rounds(states: seq<System>, order: seq<nat>) {
    && |states| == |order| + 1
    && forall k :: 0 <= k < |order| ==> Round(states[k], order[k], states[k + 1])
  }

  ghost predicate ConflictFree(states: seq<System>, order: seq<nat>) {
    forall k :: 0 <= k < |order| && k < |states| ==> !Conflicts(states[k], order[k])
  }

  /** Every machine has its turn. */
  ghost predicate Full(order: seq<nat>, n: nat) { forall i :: 0 <= i < n ==> i in order }

  lemma {:induction false} SameCount(states: seq<System>, order: seq<nat>, k: nat)
    requires Rounds(states, order) && k <= |order|
    ensures |states[k].machines| == |states[0].machines|
  {
    if k > 0 {
      SameCount(states, order, k - 1);
      assert Round(states[k - 1], order[k - 1], states[k]);
    }
  }

  /** Once a machine had a round without conflict it stays quiet, as nobody edits. */
  lemma {:induction false} StaysQuiet(states: seq<System>, order: seq<nat>, i: nat, k: nat)
    requires Rounds(states, order) && ConflictFree(states, order) && k <= |order| && i < |states[0].machines|
    ensures |states[k].machines| == |states[0].machines|
    ensures Quiet(states[0].machines[i]) || i in order[..k] ==> Quiet(states[k].machines[i])
  {
    SameCount(states, order, k);
    if k > 0 {
      StaysQuiet(states, order, i, k - 1);
      assert Round(states[k - 1], order[k - 1], states[k]);
      assert order[..k] == order[..k - 1] + [order[k - 1]];
      if order[k - 1] == i { CleanRound(states[k - 1], i, states[k]); }
    }
  }

  /** While all machines are quiet the remote stands still, and whoever had a turn equals it. */
  lemma {:induction false} QuietPass(states: seq<System>, order: seq<nat>, k: nat)
    requires Rounds(states, order) && k <= |order|
    requires forall i :: 0 <= i < |states[0].machines| ==> Quiet(states[0].machines[i])
    ensures |states[k].machines| == |states[0].machines| && states[k].remote == states[0].remote
    ensures forall i :: 0 <= i < |states[0].machines| ==> Quiet(states[k].machines[i])
    ensures forall i :: 0 <= i < |states[0].machines| && i in order[..k] ==> states[k].machines[i].local == states[0].remote
  {
    SameCount(states, order, k);
    if k > 0 {
      QuietPass(states, order, k - 1);
      var j := order[k - 1];
      assert Round(states[k - 1], j, states[k]);
      assert order[..k] == order[..k - 1] + [j];
      QuietRound(states[k - 1], j, states[k]);
    }
  }

  /** When edits have stopped: one full pass without conflict and one more full pass, in any order,
      make every machine and the remote equal. The second pass cannot conflict. */
  lemma TwoPassesConverge(first: seq<System>, one: seq<nat>, second: seq<System>, two: seq<nat>)
    requires Rounds(first, one) && ConflictFree(first, one) && Full(one, |first[0].machines|)
    requires Rounds(second, two) && Full(two, |first[0].machines|) && second[0] == first[|one|]
    ensures var end := second[|two|];
      && |end.machines| == |first[0].machines| && end.remote == first[|one|].remote
      && forall i :: 0 <= i < |end.machines| ==> end.machines[i] == Machine(end.remote, end.remote)
  {
    var n := |first[0].machines|;
    SameCount(first, one, |one|);
    assert one[..|one|] == one && two[..|two|] == two;
    forall i | 0 <= i < n ensures Quiet(second[0].machines[i]) {
      StaysQuiet(first, one, i, |one|);
    }
    QuietPass(second, two, |two|);
  }
}
