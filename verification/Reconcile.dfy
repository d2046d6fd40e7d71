/** The three-way plan of a synchronisation round (internal/configsync/reconcile.go). */
module Reconcile {
  import opened Basics
  import opened Paths

  datatype FileState = FileState(hash: string, mode: nat, bytes: int, target: string)

  type Files = map<string, FileState>

  datatype Mode = PullOnly | PushOnly | Bidirectional

  datatype Reason = RemoteUpdate | ConcurrentUpdate

  datatype PathSummary = PathSummary(path: string, bytes: int, reason: Reason)

  datatype Plan = Plan(publishUpdates: seq<string>, publishDeletes: seq<string>, applyRemote: seq<string>,
                       deleteLocal: seq<string>, conflicts: seq<PathSummary>)

  datatype Decision = Leave | PublishUpdate | PublishDelete | ApplyRemote | DeleteLocal | Conflict(reason: Reason)

  /** What a round does with one path. */
  function Decide(base: Option<FileState>, local: Option<FileState>, remote: Option<FileState>, mode: Mode): Decision {
    if local == remote then Leave
    else if mode.PushOnly? && base != remote then Conflict(RemoteUpdate)
    else if base != local && base != remote then Conflict(ConcurrentUpdate)
    else if base != local && !mode.PullOnly? then (if local.Some? then PublishUpdate else PublishDelete)
    else if base != remote && !mode.PushOnly? then (if remote.Some? then ApplyRemote else DeleteLocal)
    else Leave
  }

  /** The three sides of a round. */
  datatype Sides = Sides(base: Files, local: Files, remote: Files)

  function DecideAt(s: Sides, path: string, mode: Mode): Decision {
    Decide(Look(s.base, path), Look(s.local, path), Look(s.remote, path), mode)
  }

  function RemoteBytes(s: Sides, path: string): int {
    if path in s.remote then s.remote[path].bytes else 0
  }

  function Picked(s: Sides, paths: seq<string>, mode: Mode, d: Decision): seq<string> {
    if paths == [] then []
    else
      var n := |paths| - 1;
      Picked(s, paths[..n], mode, d) + if DecideAt(s, paths[n], mode) == d then [paths[n]] else []
  }

  function Clashes(s: Sides, paths: seq<string>, mode: Mode): seq<PathSummary> {
    if paths == [] then []
    else
      var n := |paths| - 1;
      Clashes(s, paths[..n], mode)
      + match DecideAt(s, paths[n], mode)
        case Conflict(reason) => [PathSummary(paths[n], RemoteBytes(s, paths[n]), reason)]
        case _ => []
  }

  function PlanAlong(s: Sides, paths: seq<string>, mode: Mode): Plan {
    Plan(Picked(s, paths, mode, PublishUpdate), Picked(s, paths, mode, PublishDelete),
         Picked(s, paths, mode, ApplyRemote), Picked(s, paths, mode, DeleteLocal), Clashes(s, paths, mode))
  }

  /** `paths` lists every name on any side, in order. */
  ghost predicate AllPaths(s: Sides, paths: seq<string>) {
    Increasing(paths) && forall p :: p in paths <==> p in s.base || p in s.local || p in s.remote
  }

  /** A plan with one more path, decided as `d`. */
  function Extended(plan: Plan, path: string, bytes: int, d: Decision): Plan {
    match d
    case Leave => plan
    case PublishUpdate => plan.(publishUpdates := plan.publishUpdates + [path])
    case PublishDelete => plan.(publishDeletes := plan.publishDeletes + [path])
    case ApplyRemote => plan.(applyRemote := plan.applyRemote + [path])
    case DeleteLocal => plan.(deleteLocal := plan.deleteLocal + [path])
    case Conflict(reason) => plan.(conflicts := plan.conflicts + [PathSummary(path, bytes, reason)])
  }

  lemma PlanNext(s: Sides, paths: seq<string>, mode: Mode, i: nat)
    requires i < |paths|
    ensures PlanAlong(s, paths[..i + 1], mode)
            == Extended(PlanAlong(s, paths[..i], mode), paths[i], RemoteBytes(s, paths[i]), DecideAt(s, paths[i], mode))
  {
    assert paths[..i + 1][..i] == paths[..i];
    hide Decide;
  }

  lemma NothingPlanned(s: Sides, paths: seq<string>, mode: Mode)
    ensures PlanAlong(s, paths[..0], mode) == Plan([], [], [], [], [])
  {
  }

  method CollectPaths(s: Sides) returns (paths: seq<string>)
    ensures AllPaths(s, paths)
  {
    paths := SortSet(s.base.Keys + s.local.Keys + s.remote.Keys);
  }

  method PlanReconciliation(s: Sides, mode: Mode) returns (plan: Plan, paths: seq<string>)
    ensures AllPaths(s, paths) && plan == PlanAlong(s, paths, mode)
  {
    hide PlanAlong, AllPaths;
    var sorted := CollectPaths(s);
    paths := sorted;
    plan := Plan([], [], [], [], []);
    NothingPlanned(s, sorted, mode);
    for i := 0 to |sorted|
      invariant plan == PlanAlong(s, sorted[..i], mode)
    {
      PlanNext(s, sorted, mode, i);
      var path := sorted[i];
      var base, local, remote := Look(s.base, path), Look(s.local, path), Look(s.remote, path);
      var localChanged, remoteChanged := base != local, base != remote;
      if local == remote {
      } else if mode.PushOnly? && remoteChanged {
        plan := plan.(conflicts := plan.conflicts + [PathSummary(path, RemoteBytes(s, path), RemoteUpdate)]);
      } else if localChanged && remoteChanged {
        plan := plan.(conflicts := plan.conflicts + [PathSummary(path, RemoteBytes(s, path), ConcurrentUpdate)]);
      } else if localChanged && !mode.PullOnly? {
        if local.Some? {
          plan := plan.(publishUpdates := plan.publishUpdates + [path]);
        } else {
          plan := plan.(publishDeletes := plan.publishDeletes + [path]);
        }
      } else if remoteChanged && !mode.PushOnly? {
        if remote.Some? {
          plan := plan.(applyRemote := plan.applyRemote + [path]);
        } else {
          plan := plan.(deleteLocal := plan.deleteLocal + [path]);
        }
      }
    }
    assert sorted[..|sorted|] == sorted;
  }

  // ----- what a plan lists -----

  lemma {:induction false} PickedIs(s: Sides, paths: seq<string>, mode: Mode, d: Decision)
    requires Increasing(paths)
    ensures Increasing(Picked(s, paths, mode, d))
    ensures forall p :: p in Picked(s, paths, mode, d) <==> p in paths && DecideAt(s, p, mode) == d
  {
    if paths != [] {
      var n := |paths| - 1;
      PickedIs(s, paths[..n], mode, d);
      assert paths == paths[..n] + [paths[n]];
      var before := Picked(s, paths[..n], mode, d);
      forall i | 0 <= i < |before| ensures Less(before[i], paths[n]) {
        assert before[i] in paths[..n];
      }
    }
  }

  ghost predicate ConflictPaths(conflicts: seq<PathSummary>, s: Sides, mode: Mode) {
    && (forall i, j :: 0 <= i < j < |conflicts| ==> Less(conflicts[i].path, conflicts[j].path))
    && (forall c :: c in conflicts ==> DecideAt(s, c.path, mode) == Conflict(c.reason) && c.bytes == RemoteBytes(s, c.path))
  }

  function Names(conflicts: seq<PathSummary>): set<string> {
    set c | c in conflicts :: c.path
  }

  lemma NamesAppend(conflicts: seq<PathSummary>, c: PathSummary)
    ensures Names(conflicts + [c]) == Names(conflicts) + {c.path}
  {
    var all := conflicts + [c];
    forall p ensures p in Names(all) <==> p in Names(conflicts) || p == c.path {
      if p in Names(conflicts) {
        var x :| x in conflicts && x.path == p;
        assert x in all;
      }
      assert all[|conflicts|] == c;
    }
  }

  lemma {:induction false} ClashesAre(s: Sides, paths: seq<string>, mode: Mode)
    requires Increasing(paths)
    ensures ConflictPaths(Clashes(s, paths, mode), s, mode)
    ensures forall p :: p in Names(Clashes(s, paths, mode)) <==> p in paths && DecideAt(s, p, mode).Conflict?
  {
    hide DecideAt, RemoteBytes, Less, Names;
    if paths == [] {
      assert Names([]) == {} by { NoNames(); }
    } else {
      var n := |paths| - 1;
      ClashesAre(s, paths[..n], mode);
      assert paths == paths[..n] + [paths[n]];
      var before, d := Clashes(s, paths[..n], mode), DecideAt(s, paths[n], mode);
      if d.Conflict? {
        var c := PathSummary(paths[n], RemoteBytes(s, paths[n]), d.reason);
        NamesAppend(before, c);
        forall i | 0 <= i < |before| ensures Less(before[i].path, paths[n]) {
          NamedBefore(before, i);
          assert before[i].path in paths[..n];
        }
        AppendConflict(before, c, s, mode);
      } else {
        assert Clashes(s, paths, mode) == before;
      }
    }
  }

  lemma NoNames()
    ensures Names([]) == {}
  {
  }

  lemma NamedBefore(conflicts: seq<PathSummary>, i: nat)
    requires i < |conflicts|
    ensures conflicts[i].path in Names(conflicts)
  {
  }

  lemma AppendConflict(conflicts: seq<PathSummary>, c: PathSummary, s: Sides, mode: Mode)
    requires ConflictPaths(conflicts, s, mode) && (forall i :: 0 <= i < |conflicts| ==> Less(conflicts[i].path, c.path))
    requires DecideAt(s, c.path, mode) == Conflict(c.reason) && c.bytes == RemoteBytes(s, c.path)
    ensures ConflictPaths(conflicts + [c], s, mode)
  {
    hide DecideAt, RemoteBytes, Less;
  }

  // ----- one round -----

  /** How a machine takes part: the assigned mode, and whether it may publish at all. */
  datatype Assignment = Assignment(mode: Mode, writes: bool)

  /** Without writes a bidirectional assignment only pulls. */
  function Effective(a: Assignment): Mode {
    if !a.writes && a.mode.Bidirectional? then PullOnly else a.mode
  }

  /** The part of the plan that is carried out. */
  function Carried(plan: Plan, a: Assignment): Plan {
    if a.writes then plan else plan.(publishUpdates := [], publishDeletes := [])
  }

  function LocalAfter(s: Sides, plan: Plan): Files {
    (map p | p in s.local && p !in plan.deleteLocal :: s.local[p])
    + (map p | p in s.remote && p in plan.applyRemote :: s.remote[p])
  }

  function RemoteAfter(s: Sides, plan: Plan): Files {
    (map p | p in s.remote && p !in plan.publishDeletes :: s.remote[p])
    + (map p | p in s.local && p in plan.publishUpdates :: s.local[p])
  }

  function Agreed(previous: Option<FileState>, local: Option<FileState>, remote: Option<FileState>): Option<FileState> {
    if local == remote then local else previous
  }

  /** The baseline that a machine may record: what it published, or what both sides agree on. */
  method AcceptedBaseline(previous: Files, local: Files, remote: Files, a: Assignment) returns (accepted: Files)
    ensures forall p :: Look(accepted, p) == if a.writes && !a.mode.PullOnly? then Look(local, p)
                                             else Agreed(Look(previous, p), Look(local, p), Look(remote, p))
  {
    if (a.mode.Bidirectional? && a.writes) || (a.mode.PushOnly? && a.writes) {
      return local;
    }
    accepted := AgreedFiles(previous, local, remote);
  }

  method AgreedFiles(previous: Files, local: Files, remote: Files) returns (accepted: Files)
    ensures forall p :: Look(accepted, p) == Agreed(Look(previous, p), Look(local, p), Look(remote, p))
  {
    hide AcceptedSoFar, Look, Agreed;
    accepted := map[];
    var todo := previous.Keys + local.Keys + remote.Keys;
    forall p ensures AcceptedSoFar(map[], previous, local, remote, p in todo, p) {
      AcceptNothing(previous, local, remote, p);
    }
    while todo != {}
      invariant forall p :: AcceptedSoFar(accepted, previous, local, remote, p in todo, p)
      decreases |todo|
    {
      var name :| name in todo;
      ghost var was := accepted;
      if (name in local) == (name in remote) && (name !in local || local[name] == remote[name]) {
        if name in local {
          accepted := accepted[name := local[name]];
        }
      } else if name in previous {
        accepted := accepted[name := previous[name]];
      }
      forall p ensures AcceptedSoFar(accepted, previous, local, remote, p in todo - {name}, p) {
        AcceptNext(was, accepted, previous, local, remote, name, p in todo, p);
      }
      todo := todo - {name};
    }
    forall p ensures Look(accepted, p) == Agreed(Look(previous, p), Look(local, p), Look(remote, p)) {
      assert AcceptedSoFar(accepted, previous, local, remote, p in todo, p);
      AcceptAll(accepted, previous, local, remote, p);
    }
  }

  lemma AcceptNothing(previous: Files, local: Files, remote: Files, p: string)
    ensures AcceptedSoFar(map[], previous, local, remote, p in previous.Keys + local.Keys + remote.Keys, p)
  {
  }

  lemma AcceptAll(accepted: Files, previous: Files, local: Files, remote: Files, p: string)
    requires AcceptedSoFar(accepted, previous, local, remote, false, p)
    ensures Look(accepted, p) == Agreed(Look(previous, p), Look(local, p), Look(remote, p))
  {
  }

  lemma AcceptNext(was: Files, accepted: Files, previous: Files, local: Files, remote: Files, name: string, open: bool, p: string)
    requires AcceptedSoFar(was, previous, local, remote, open, p) && (p == name ==> open)
    requires
      accepted == if (name in local) == (name in remote) && (name !in local || local[name] == remote[name])
                  then (if name in local then was[name := local[name]] else was)
                  else if name in previous then was[name := previous[name]] else was
    ensures AcceptedSoFar(accepted, previous, local, remote, open && p != name, p)
  {
  }

  predicate AcceptedSoFar(accepted: Files, previous: Files, local: Files, remote: Files, open: bool, p: string) {
    Look(accepted, p) == if open then None else Agreed(Look(previous, p), Look(local, p), Look(remote, p))
  }

  /** Puts the previous ancestor of every conflict back. */
  method FreezeConflicts(accepted: Files, previous: Files, conflicts: seq<PathSummary>) returns (frozen: Files)
    ensures forall p :: Look(frozen, p) == if p in Names(conflicts) then Look(previous, p) else Look(accepted, p)
  {
    frozen := accepted;
    for i := 0 to |conflicts|
      invariant forall p :: Look(frozen, p) == if p in Names(conflicts[..i]) then Look(previous, p) else Look(accepted, p)
    {
      var path := conflicts[i].path;
      assert conflicts[..i + 1] == conflicts[..i] + [conflicts[i]];
      assert Names(conflicts[..i + 1]) == Names(conflicts[..i]) + {path} by {
        forall p ensures p in Names(conflicts[..i + 1]) <==> p in Names(conflicts[..i]) + {path} {
          NamesGrow(conflicts[..i], conflicts[i], p);
        }
      }
      if path in previous {
        frozen := frozen[path := previous[path]];
      } else {
        frozen := frozen - {path};
      }
    }
    assert conflicts[..|conflicts|] == conflicts;
  }

  lemma NamesGrow(conflicts: seq<PathSummary>, c: PathSummary, p: string)
    ensures p in Names(conflicts + [c]) <==> p in Names(conflicts) || p == c.path
  {
  }

  /** `base` is the baseline recorded after the round that `plan` describes. */
  ghost predicate Recorded(base: Files, s: Sides, plan: Plan, a: Assignment) {
    var local, remote := LocalAfter(s, Carried(plan, a)), RemoteAfter(s, Carried(plan, a));
    forall p :: Look(base, p) ==
      if p in Names(plan.conflicts) then Look(s.base, p)
      else if a.writes && !a.mode.PullOnly? then Look(local, p)
      else Agreed(Look(s.base, p), Look(local, p), Look(remote, p))
  }

  /** A completed round: plan, carry out, record. */
  method CompleteRound(s: Sides, a: Assignment) returns (after: Sides, plan: Plan, paths: seq<string>)
    ensures AllPaths(s, paths) && plan == PlanAlong(s, paths, Effective(a))
    ensures after.local == LocalAfter(s, Carried(plan, a)) && after.remote == RemoteAfter(s, Carried(plan, a))
    ensures Recorded(after.base, s, plan, a)
  {
    plan, paths := PlanReconciliation(s, Effective(a));
    var carried := Carried(plan, a);
    var local, remote := LocalAfter(s, carried), RemoteAfter(s, carried);
    var accepted := AcceptedBaseline(s.base, local, remote, a);
    var base := FreezeConflicts(accepted, s.base, plan.conflicts);
    after := Sides(base, local, remote);
  }

  // ----- what a round does to one path -----

  lemma UnknownLeft(s: Sides, paths: seq<string>, mode: Mode, p: string)
    requires AllPaths(s, paths) && p !in paths
    ensures DecideAt(s, p, mode) == Leave
  {
  }

  /** Every path is in exactly the list its decision names, so in at most one. */
  lemma PlanLists(s: Sides, paths: seq<string>, mode: Mode, p: string)
    requires AllPaths(s, paths)
    ensures var plan, d := PlanAlong(s, paths, mode), DecideAt(s, p, mode);
      && (p in plan.publishUpdates <==> d == PublishUpdate) && (p in plan.publishDeletes <==> d == PublishDelete)
      && (p in plan.applyRemote <==> d == ApplyRemote) && (p in plan.deleteLocal <==> d == DeleteLocal)
      && (p in Names(plan.conflicts) <==> d.Conflict?)
  {
    PickedIs(s, paths, mode, PublishUpdate);
    PickedIs(s, paths, mode, PublishDelete);
    PickedIs(s, paths, mode, ApplyRemote);
    PickedIs(s, paths, mode, DeleteLocal);
    ClashesAre(s, paths, mode);
    if p !in paths { UnknownLeft(s, paths, mode, p); }
    hide Picked, Clashes, Decide, Increasing, ConflictPaths, Names;
  }

  /** The lists are sorted, without repetition. */
  lemma PlanSorted(s: Sides, paths: seq<string>, mode: Mode)
    requires AllPaths(s, paths)
    ensures var plan := PlanAlong(s, paths, mode);
      && Increasing(plan.publishUpdates) && Increasing(plan.publishDeletes)
      && Increasing(plan.applyRemote) && Increasing(plan.deleteLocal) && ConflictPaths(plan.conflicts, s, mode)
  {
    PickedIs(s, paths, mode, PublishUpdate);
    PickedIs(s, paths, mode, PublishDelete);
    PickedIs(s, paths, mode, ApplyRemote);
    PickedIs(s, paths, mode, DeleteLocal);
    ClashesAre(s, paths, mode);
    hide Picked, Clashes, Decide, Increasing, ConflictPaths, Names;
  }

  lemma LookAfter(s: Sides, plan: Plan, p: string)
    ensures Look(LocalAfter(s, plan), p) ==
            if p in s.remote && p in plan.applyRemote then Some(s.remote[p])
            else if p in plan.deleteLocal then None else Look(s.local, p)
    ensures Look(RemoteAfter(s, plan), p) ==
            if p in s.local && p in plan.publishUpdates then Some(s.local[p])
            else if p in plan.publishDeletes then None else Look(s.remote, p)
  {
  }

  /** Both sides after the round, path by path. */
  lemma RoundAt(s: Sides, paths: seq<string>, a: Assignment, p: string)
    requires AllPaths(s, paths)
    ensures var plan, d := PlanAlong(s, paths, Effective(a)), DecideAt(s, p, Effective(a));
      && Look(LocalAfter(s, Carried(plan, a)), p)
         == (if d.ApplyRemote? || d.DeleteLocal? then Look(s.remote, p) else Look(s.local, p))
      && Look(RemoteAfter(s, Carried(plan, a)), p)
         == (if a.writes && (d.PublishUpdate? || d.PublishDelete?) then Look(s.local, p) else Look(s.remote, p))
      && (p in Names(plan.conflicts) <==> d.Conflict?)
  {
    hide PlanAlong, AllPaths, Names, LocalAfter, RemoteAfter;
    PlanLists(s, paths, Effective(a), p);
    LookAfter(s, Carried(PlanAlong(s, paths, Effective(a)), a), p);
  }

  /** A round overwrites only values that are still as the baseline has them, with the value of the
      other side, and touches neither side of a conflict. */
  lemma NeverOverwrites(s: Sides, paths: seq<string>, a: Assignment, p: string)
    requires AllPaths(s, paths)
    ensures var plan := PlanAlong(s, paths, Effective(a));
      var local, remote := LocalAfter(s, Carried(plan, a)), RemoteAfter(s, Carried(plan, a));
      && (Look(local, p) != Look(s.local, p) ==> Look(s.local, p) == Look(s.base, p) && Look(local, p) == Look(s.remote, p))
      && (Look(remote, p) != Look(s.remote, p) ==> Look(s.remote, p) == Look(s.base, p) && Look(remote, p) == Look(s.local, p))
      && (p in Names(plan.conflicts) ==> Look(local, p) == Look(s.local, p) && Look(remote, p) == Look(s.remote, p))
  {
    hide PlanAlong, AllPaths, LocalAfter, RemoteAfter, Names;
    RoundAt(s, paths, a, p);
  }

  // ----- what a round achieves -----

  /** The machine takes values from the remote. */
  predicate Pulls(a: Assignment) { !a.mode.PushOnly? }

  /** The machine gives values to the remote. */
  predicate Pushes(a: Assignment) { a.writes && !a.mode.PullOnly? }

  /** Both sides after a round under any mode and write setting, from the three sides alone: a side takes the value of
      the other one exactly if it still equals the baseline and the machine pulls or pushes. So they agree exactly if
      they did, or if the machine pulls and the local value is that of the baseline, or if it pushes and the remote
      one is. The new baseline is what they agree on, and elsewhere the old one. */
  lemma RoundAchieves(s: Sides, paths: seq<string>, a: Assignment, after: Sides, p: string)
    requires AllPaths(s, paths)
    requires var plan := PlanAlong(s, paths, Effective(a));
      && after.local == LocalAfter(s, Carried(plan, a)) && after.remote == RemoteAfter(s, Carried(plan, a))
      && Recorded(after.base, s, plan, a)
    ensures var base, local, remote := Look(s.base, p), Look(s.local, p), Look(s.remote, p);
      && Look(after.local, p) == (if Pulls(a) && local == base then remote else local)
      && Look(after.remote, p) == (if Pushes(a) && remote == base then local else remote)
      && (Look(after.local, p) == Look(after.remote, p) <==>
            local == remote || (Pulls(a) && local == base) || (Pushes(a) && remote == base))
      && Look(after.base, p) == (if Look(after.local, p) == Look(after.remote, p) then Look(after.local, p) else base)
  {
    hide PlanAlong, AllPaths, LocalAfter, RemoteAfter, Names;
    RoundAt(s, paths, a, p);
  }

  /** When a path conflicts and why, from the three sides alone: the sides differ, and either the machine may only push
      and the remote is not as the baseline has it, or it may pull and neither side is. The conflict carries the
      size of the remote file. */
  lemma ConflictsExactly(s: Sides, paths: seq<string>, a: Assignment, p: string, c: PathSummary)
    requires AllPaths(s, paths) && c.path == p
    ensures var base, local, remote := Look(s.base, p), Look(s.local, p), Look(s.remote, p);
      c in PlanAlong(s, paths, Effective(a)).conflicts <==>
        && local != remote && remote != base
        && (a.mode.PushOnly? || local != base)
        && c.reason == (if a.mode.PushOnly? then RemoteUpdate else ConcurrentUpdate)
        && c.bytes == (if remote.Some? then remote.value.bytes else 0)
  {
    hide PlanAlong, AllPaths, Names, ConflictPaths;
    PlanLists(s, paths, Effective(a), p);
    PlanSorted(s, paths, Effective(a));
    ListedConflict(PlanAlong(s, paths, Effective(a)).conflicts, s, Effective(a), c);
  }

  lemma ListedConflict(conflicts: seq<PathSummary>, s: Sides, mode: Mode, c: PathSummary)
    requires ConflictPaths(conflicts, s, mode)
    ensures c in conflicts <==>
      c.path in Names(conflicts) && DecideAt(s, c.path, mode) == Conflict(c.reason) && c.bytes == RemoteBytes(s, c.path)
  {
    hide DecideAt, RemoteBytes;
    if c.path in Names(conflicts) {
      var x :| x in conflicts && x.path == c.path;
    }
  }

  // ----- names that the manifest no longer manages -----

  /** What the manifest manages; the sides of a round are taken through it. */
  function ManagedPart(files: Files, manages: string -> bool): Files { map p | p in files && manages(p) :: files[p] }

  /** Names of the baseline that the manifest no longer manages: their deletion is published. */
  function Abandoned(base: Files, manages: string -> bool, a: Assignment): set<string> {
    if a.writes && !Effective(a).PullOnly? then set p | p in base && !manages(p) else {}
  }

  /** The whole repository after a round. */
  function RepositoryAfter(repository: Files, s: Sides, plan: Plan, manages: string -> bool, a: Assignment): Files {
    (map p | p in repository && !manages(p) && p !in Abandoned(s.base, manages, a) :: repository[p]) + RemoteAfter(s, Carried(plan, a))
  }

  lemma RepositoryAt(repository: Files, s: Sides, paths: seq<string>, manages: string -> bool, a: Assignment, p: string)
    requires AllPaths(s, paths) && s.remote == ManagedPart(repository, manages) && (forall q :: q in s.local ==> manages(q))
    ensures var after := RepositoryAfter(repository, s, PlanAlong(s, paths, Effective(a)), manages, a);
      && (p in Abandoned(s.base, manages, a) ==> p !in after)
      && (p !in Abandoned(s.base, manages, a) && Look(after, p) != Look(repository, p) ==> Look(repository, p) == Look(s.base, p))
  {
    NeverOverwrites(s, paths, a, p);
    hide PlanAlong, AllPaths, Names;
  }

  /** The deletion of an abandoned name looks at nobody's value. In the repository as a whole a round changes only
      what still equals the baseline if and only if that holds of the abandoned names; with every name of the
      baseline managed there are none. */
  lemma AbandonedUnseen(repository: Files, s: Sides, paths: seq<string>, manages: string -> bool, a: Assignment)
    requires AllPaths(s, paths) && s.remote == ManagedPart(repository, manages) && (forall q :: q in s.local ==> manages(q))
    ensures var after := RepositoryAfter(repository, s, PlanAlong(s, paths, Effective(a)), manages, a);
      (forall p :: Look(after, p) != Look(repository, p) ==> Look(repository, p) == Look(s.base, p)) <==>
      (forall p :: p in Abandoned(s.base, manages, a) && p in repository ==> Look(repository, p) == Look(s.base, p))
    ensures (forall p :: p in s.base ==> manages(p)) ==> Abandoned(s.base, manages, a) == {}
  {
    hide PlanAlong, AllPaths, RepositoryAfter;
    var after := RepositoryAfter(repository, s, PlanAlong(s, paths, Effective(a)), manages, a);
    forall p
      ensures p in Abandoned(s.base, manages, a) ==> p !in after
      ensures p !in Abandoned(s.base, manages, a) && Look(after, p) != Look(repository, p) ==> Look(repository, p) == Look(s.base, p)
    {
      RepositoryAt(repository, s, paths, manages, a, p);
    }
  }

  /** A value that somebody changed after the baseline is deleted, and no conflict is reported. */
  lemma ChangedValueDeleted(name: string, before: FileState, changed: FileState)
    requires before != changed
    ensures var s, a := Sides(map[name := before], map[], map[]), Assignment(Bidirectional, true);
      && AllPaths(s, [name]) && s.remote == ManagedPart(map[name := changed], _ => false)
      && var plan := PlanAlong(s, [name], Effective(a));
      && plan.conflicts == [] && name !in RepositoryAfter(map[name := changed], s, plan, _ => false, a)
  {
    var s := Sides(map[name := before], map[], map[]);
    var a := Assignment(Bidirectional, true);
    assert [name][..0] == [] && Effective(a) == Bidirectional;
    assert DecideAt(s, name, Bidirectional) == Leave;
    assert Clashes(s, [name], Bidirectional) == [];
    assert Picked(s, [name], Bidirectional, PublishUpdate) == [];
    RepositoryAt(map[name := changed], s, [name], _ => false, a, name);
    assert name in Abandoned(s.base, _ => false, a);
  }

  // ----- planning again -----

  /** After a round the same paths conflict for the same reason, and nothing else is left to do. */
  lemma SettledAt(s: Sides, paths: seq<string>, a: Assignment, after: Sides, p: string)
    requires AllPaths(s, paths)
    requires var plan := PlanAlong(s, paths, Effective(a));
      && after.local == LocalAfter(s, Carried(plan, a)) && after.remote == RemoteAfter(s, Carried(plan, a))
      && Recorded(after.base, s, plan, a)
    ensures var d, e := DecideAt(s, p, Effective(a)), DecideAt(after, p, Effective(a));
      && (d.Conflict? ==> e == d && Look(after.remote, p) == Look(s.remote, p))
      && (!d.Conflict? ==> e.Leave? || (!a.writes && (e.PublishUpdate? || e.PublishDelete?)))
  {
    hide PlanAlong, AllPaths, LocalAfter, RemoteAfter, Names;
    RoundAt(s, paths, a, p);
  }

  function PathsOf(conflicts: seq<PathSummary>): seq<string> { seq(|conflicts|, i requires 0 <= i < |conflicts| => conflicts[i].path) }

  /** Conflict lists that name the same paths, decided alike, are the same. */
  lemma SameConflicts(c: seq<PathSummary>, s: Sides, e: seq<PathSummary>, t: Sides, mode: Mode)
    requires ConflictPaths(c, s, mode) && ConflictPaths(e, t, mode) && Names(c) == Names(e)
    requires forall p :: p in Names(c) ==> DecideAt(s, p, mode) == DecideAt(t, p, mode) && Look(s.remote, p) == Look(t.remote, p)
    ensures c == e
  {
    var x, y := PathsOf(c), PathsOf(e);
    forall p ensures p in x <==> p in y {
      NamesListed(c, p);
      NamesListed(e, p);
    }
    IncreasingUnique(x, y);
    forall i | 0 <= i < |c| ensures c[i] == e[i] {
      assert x[i] == y[i];
      assert c[i] in c && e[i] in e;
      assert c[i].path in Names(c);
      assert RemoteBytes(s, c[i].path) == RemoteBytes(t, c[i].path) by { assert Look(s.remote, c[i].path) == Look(t.remote, c[i].path); }
    }
  }

  lemma NamesListed(c: seq<PathSummary>, p: string)
    ensures p in PathsOf(c) <==> p in Names(c)
  {
    if p in PathsOf(c) {
      var i :| 0 <= i < |c| && PathsOf(c)[i] == p;
      assert c[i] in c;
    }
    if p in Names(c) {
      var x :| x in c && x.path == p;
      var i :| 0 <= i < |c| && c[i] == x;
      assert PathsOf(c)[i] == p;
    }
  }

  /** Planning again right after a completed round, for any sides, mode and write setting: exactly
      the same conflicts, and no action that would be carried out. */
  lemma ReplanSettles(s: Sides, paths: seq<string>, a: Assignment, after: Sides, again: seq<string>)
    requires AllPaths(s, paths) && AllPaths(after, again)
    requires var plan := PlanAlong(s, paths, Effective(a));
      && after.local == LocalAfter(s, Carried(plan, a)) && after.remote == RemoteAfter(s, Carried(plan, a))
      && Recorded(after.base, s, plan, a)
    ensures Carried(PlanAlong(after, again, Effective(a)), a)
            == Plan([], [], [], [], PlanAlong(s, paths, Effective(a)).conflicts)
  {
    hide PlanAlong, AllPaths, Recorded, LocalAfter, RemoteAfter, Increasing, ConflictPaths, DecideAt, Names;
    var mode := Effective(a);
    var first, second := PlanAlong(s, paths, mode), PlanAlong(after, again, mode);
    PlanSorted(s, paths, mode);
    PlanSorted(after, again, mode);
    forall p
      ensures p !in second.applyRemote && p !in second.deleteLocal
      ensures a.writes ==> p !in second.publishUpdates && p !in second.publishDeletes
      ensures p in Names(first.conflicts) <==> p in Names(second.conflicts)
      ensures p in Names(first.conflicts) ==> DecideAt(s, p, mode) == DecideAt(after, p, mode) && Look(s.remote, p) == Look(after.remote, p)
    {
      SettledAt(s, paths, a, after, p);
      PlanLists(s, paths, mode, p);
      PlanLists(after, again, mode, p);
    }
    NoneListed(second.applyRemote);
    NoneListed(second.deleteLocal);
    if a.writes {
      NoneListed(second.publishUpdates);
      NoneListed(second.publishDeletes);
    }
    assert Names(first.conflicts) == Names(second.conflicts);
    SameConflicts(first.conflicts, s, second.conflicts, after, mode);
  }

  lemma NoneListed(list: seq<string>)
    requires forall p :: p !in list
    ensures list == []
  {
    if list != [] { HasMember(list); }
  }
}
