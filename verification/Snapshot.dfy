/** The pruned directory walk (internal/configsync/snapshot.go, manifest.go, policy.go). */
module Snapshot {
  import opened Basics
  import opened Paths
  import opened Reconcile
  import Manifest

  // ----- trees -----

  datatype Info =
    | Regular(state: FileState, size: nat, othersWrite: bool, stable: bool)
    | Symlink(state: FileState, size: nat, portable: bool)
    | Special

  datatype Node = Leaf(info: Info) | Folder(entries: Forest)

  /** The entries of a directory, in the order they are visited. */
  datatype Forest = Nil | Entry(name: string, node: Node, rest: Forest)

  datatype Found = Found(path: Path, info: Info)

  // ----- the rules -----

  datatype Root = Root(path: Path, directory: bool)

  /** `excluded` and `ignored` stand for the mandatory exclusions and the ignore patterns. */
  datatype Rules = Rules(roots: seq<Root>, excluded: Path -> bool, ignored: (Path, bool) -> bool)

  predicate Selected(roots: seq<Root>, p: Path) {
    exists i :: 0 <= i < |roots| && (p == roots[i].path || (roots[i].directory && Prefix(roots[i].path, p)))
  }

  predicate Manages(r: Rules, p: Path, directory: bool) {
    p != [] && !r.excluded(p) && Selected(r.roots, p) && !r.ignored(p, directory)
  }

  /** Some directory root lies above or below `p`. */
  predicate Related(roots: seq<Root>, p: Path) {
    exists i :: 0 <= i < |roots| && roots[i].directory && (Prefix(roots[i].path, p) || Prefix(p, roots[i].path))
  }

  predicate MayManageDescendant(r: Rules, p: Path) {
    p != [] && !r.excluded(p) && Related(r.roots, p)
  }

  /** Exclusion reaches everything below. */
  ghost predicate Closed(r: Rules) {
    forall p, q :: r.excluded(p) && Prefix(p, q) ==> r.excluded(q)
  }

  // ----- the walk -----

  /** What the walk visits: a directory that is neither managed nor on the way to a root is skipped. */
  function Walked(f: Forest, at: Path, r: Rules): seq<Found> {
    match f
    case Nil => []
    case Entry(name, node, rest) =>
      var p := at + [name];
      (match node
       case Leaf(info) => if Manages(r, p, false) then [Found(p, info)] else []
       case Folder(entries) => if Manages(r, p, true) || MayManageDescendant(r, p) then Walked(entries, p, r) else [])
      + Walked(rest, at, r)
  }

  /** Every file of the tree. */
  function Everything(f: Forest, at: Path): seq<Found> {
    match f
    case Nil => []
    case Entry(name, node, rest) =>
      var p := at + [name];
      (match node case Leaf(info) => [Found(p, info)] case Folder(entries) => Everything(entries, p)) + Everything(rest, at)
  }

  function Managed(found: seq<Found>, r: Rules): seq<Found> {
    if found == [] then []
    else (if Manages(r, found[0].path, false) then [found[0]] else []) + Managed(found[1..], r)
  }

  lemma {:induction false} ManagedConcat(a: seq<Found>, b: seq<Found>, r: Rules)
    ensures Managed(a + b, r) == Managed(a, r) + Managed(b, r)
    decreases |a|
  {
    if a == [] {
      assert a + b == b;
    } else {
      ManagedConcat(a[1..], b, r);
      assert (a + b)[1..] == a[1..] + b;
    }
  }

  lemma {:induction false} EverythingBelow(f: Forest, at: Path)
    ensures forall x :: x in Everything(f, at) ==> Prefix(at, x.path) && |at| < |x.path|
    decreases f
  {
    match f
    case Nil =>
    case Entry(name, node, rest) =>
      EverythingBelow(rest, at);
      if node.Folder? {
        EverythingBelow(node.entries, at + [name]);
        forall x | x in Everything(node.entries, at + [name]) ensures Prefix(at, x.path) {
          assert x.path[..|at| + 1][..|at|] == at;
        }
      }
  }

  lemma {:induction false} NoneManaged(found: seq<Found>, r: Rules)
    requires forall x :: x in found ==> !Manages(r, x.path, false)
    ensures Managed(found, r) == []
  {
    if found != [] { NoneManaged(found[1..], r); }
  }

  // ----- when pruning loses nothing -----

  /** The walk enters `p`. */
  predicate Enters(r: Rules, p: Path) { Manages(r, p, true) || MayManageDescendant(r, p) }

  /** Every directory above a managed file root is entered. True of roots with one component, and of
      directory roots. */
  ghost predicate RootsReachable(r: Rules) {
    forall i, n :: 0 <= i < |r.roots| && 0 < n < |r.roots[i].path| ==>
      NeedsNoEntry(r, r.roots[i]) || Enters(r, r.roots[i].path[..n])
  }

  predicate NeedsNoEntry(r: Rules, root: Root) { root.directory || !Manages(r, root.path, false) }

  /** Nothing is managed below a directory that is not entered. */
  lemma PrunedIsEmpty(r: Rules, p: Path, q: Path)
    requires Closed(r) && RootsReachable(r) && p != [] && Prefix(p, q) && |p| < |q| && Manages(r, q, false)
    ensures Enters(r, p)
  {
  }

  /** For every tree the pruned walk finds exactly the files that a full walk filtered by the rules
      finds, in the same order. */
  lemma {:induction false} PruningLosesNothing(f: Forest, at: Path, r: Rules)
    requires Closed(r) && RootsReachable(r)
    ensures Walked(f, at, r) == Managed(Everything(f, at), r)
    decreases f
  {
    match f
    case Nil =>
    case Entry(name, node, rest) =>
      var p := at + [name];
      PruningLosesNothing(rest, at, r);
      match node {
        case Leaf(info) =>
          ManagedConcat([Found(p, info)], Everything(rest, at), r);
          assert [Found(p, info)][1..] == [];
        case Folder(entries) =>
          ManagedConcat(Everything(entries, p), Everything(rest, at), r);
          if Enters(r, p) {
            PruningLosesNothing(entries, p, r);
          } else {
            EverythingBelow(entries, p);
            forall x | x in Everything(entries, p) ensures !Manages(r, x.path, false) {
              if Manages(r, x.path, false) { PrunedIsEmpty(r, p, x.path); }
            }
            NoneManaged(Everything(entries, p), r);
          }
      }
  }

  /** A tree with one file. */
  function Chain(p: Path, info: Info): Forest
    requires p != []
  {
    Entry(p[0], if |p| == 1 then Leaf(info) else Folder(Chain(p[1..], info)), Nil)
  }

  lemma {:induction false} ChainHolds(p: Path, at: Path, info: Info)
    requires p != []
    ensures Everything(Chain(p, info), at) == [Found(at + p, info)]
    decreases |p|
  {
    if |p| == 1 {
      assert at + [p[0]] == at + p;
    } else {
      ChainHolds(p[1..], at + [p[0]], info);
      assert at + [p[0]] + p[1..] == at + p;
    }
  }

  lemma {:induction false} ChainBlocked(p: Path, at: Path, info: Info, r: Rules, n: nat)
    requires 0 < n < |p| && !Enters(r, at + p[..n])
    ensures Walked(Chain(p, info), at, r) == []
    decreases |p|
  {
    if n == 1 {
      assert p[..1] == [p[0]];
    } else {
      assert at + [p[0]] + p[1..][..n - 1] == at + p[..n];
      ChainBlocked(p[1..], at + [p[0]], info, r, n - 1);
    }
  }

  /** Pruning is exact for all trees if and only if every managed file root can be reached: a nested
      file root below a directory that nothing else makes the walk enter is lost. */
  lemma PruningExact(r: Rules)
    requires Closed(r)
    ensures RootsReachable(r) <==> forall f :: Walked(f, [], r) == Managed(Everything(f, []), r)
  {
    if RootsReachable(r) {
      forall f ensures Walked(f, [], r) == Managed(Everything(f, []), r) { PruningLosesNothing(f, [], r); }
    } else {
      var i, n :| 0 <= i < |r.roots| && 0 < n < |r.roots[i].path|
                  && !NeedsNoEntry(r, r.roots[i]) && !Enters(r, r.roots[i].path[..n]);
      var p := r.roots[i].path;
      var f := Chain(p, Special);
      assert [] + p == p && [] + p[..n] == p[..n];
      ChainHolds(p, [], Special);
      ChainBlocked(p, [], Special, r, n);
      assert Walked(f, [], r) != Managed(Everything(f, []), r);
    }
  }

  /** Names of one component are always reached. */
  lemma ShortRootsReachable(r: Rules)
    requires forall i :: 0 <= i < |r.roots| ==> r.roots[i].directory || |r.roots[i].path| <= 1
    ensures RootsReachable(r)
  {
  }

  // ----- what is taken -----

  datatype Reason = UnsafeSymlink | SpecialFile | UnsafePermissions | MaxFileBytes | MaxBatchBytes | FileChanging

  datatype Limits = Limits(maxFile: nat, maxBatch: nat)

  datatype Taken = Taken(files: map<Path, FileState>, skipped: seq<(Path, Reason)>, bytes: nat)

  /** Why a file is left out, given the bytes taken so far. */
  function Refusal(info: Info, bytes: nat, limits: Limits): Option<Reason> {
    match info
    case Symlink(_, size, portable) =>
      if !portable then Some(UnsafeSymlink) else if bytes + size > limits.maxBatch then Some(MaxBatchBytes) else None
    case Special => Some(SpecialFile)
    case Regular(_, size, othersWrite, stable) =>
      if othersWrite then Some(UnsafePermissions)
      else if size > limits.maxFile then Some(MaxFileBytes)
      else if bytes + size > limits.maxBatch then Some(MaxBatchBytes)
      else if !stable then Some(FileChanging)
      else None
  }

  function Take(t: Taken, x: Found, limits: Limits): Taken {
    match Refusal(x.info, t.bytes, limits)
    case Some(reason) => t.(skipped := t.skipped + [(x.path, reason)])
    case None => if x.info.Special? then t
                 else t.(files := t.files[x.path := x.info.state], bytes := t.bytes + x.info.size)
  }

  function TakeAll(t: Taken, found: seq<Found>, limits: Limits): Taken {
    if found == [] then t else Take(TakeAll(t, found[..|found| - 1], limits), found[|found| - 1], limits)
  }

  lemma {:induction false} TakeConcat(t: Taken, a: seq<Found>, b: seq<Found>, limits: Limits)
    ensures TakeAll(t, a + b, limits) == TakeAll(TakeAll(t, a, limits), b, limits)
    decreases |b|
  {
    if b == [] {
      assert a + b == a;
    } else {
      TakeConcat(t, a, b[..|b| - 1], limits);
      assert (a + b)[..|a + b| - 1] == a + b[..|b| - 1];
    }
  }

  /** The batch limit holds, and every file that was found is either taken or listed with a reason. */
  lemma {:induction false} NothingUnaccounted(t: Taken, found: seq<Found>, limits: Limits)
    requires t.bytes <= limits.maxBatch
    ensures TakeAll(t, found, limits).bytes <= limits.maxBatch
    ensures forall x :: x in found ==>
      x.path in TakeAll(t, found, limits).files || exists k :: k in TakeAll(t, found, limits).skipped && k.0 == x.path
    ensures t.files.Keys <= TakeAll(t, found, limits).files.Keys && t.skipped <= TakeAll(t, found, limits).skipped
    decreases |found|
  {
    if found != [] {
      var n := |found| - 1;
      NothingUnaccounted(t, found[..n], limits);
      var before, after := TakeAll(t, found[..n], limits), TakeAll(t, found, limits);
      assert found == found[..n] + [found[n]];
      forall x | x in found ensures x.path in after.files || exists k :: k in after.skipped && k.0 == x.path {
        if x in found[..n] {
          if x.path !in before.files {
            var k :| k in before.skipped && k.0 == x.path;
            assert k in after.skipped;
          }
        } else if Refusal(x.info, before.bytes, limits).Some? {
          assert after.skipped[|before.skipped|].0 == x.path;
        }
      }
    }
  }

  /** The file may be taken, whatever else is. */
  predicate Fit(info: Info, limits: Limits) {
    match info
    case Regular(_, size, othersWrite, stable) => !othersWrite && size <= limits.maxFile && stable
    case Symlink(_, _, portable) => portable
    case Special => false
  }

  function SizeOf(info: Info): nat { if info.Special? then 0 else info.size }

  function Sizes(found: seq<Found>): nat {
    if found == [] then 0 else Sizes(found[..|found| - 1]) + SizeOf(found[|found| - 1].info)
  }

  /** The reason is true of the file, given what had been taken. */
  predicate Justified(info: Info, reason: Reason, bytes: nat, limits: Limits) {
    match reason
    case UnsafeSymlink => info.Symlink? && !info.portable
    case SpecialFile => info.Special?
    case UnsafePermissions => info.Regular? && info.othersWrite
    case MaxFileBytes => info.Regular? && info.size > limits.maxFile
    case MaxBatchBytes => !info.Special? && bytes + info.size > limits.maxBatch
    case FileChanging => info.Regular? && !info.stable
  }

  /** Every file is taken as it is if it is fit and still fits the batch, and otherwise listed with a true reason. */
  lemma TakenOrJustified(t: Taken, found: seq<Found>, i: nat, limits: Limits)
    requires i < |found|
    ensures var b, a, x := TakeAll(t, found[..i], limits), TakeAll(t, found[..i + 1], limits), found[i];
      if Fit(x.info, limits) && b.bytes + SizeOf(x.info) <= limits.maxBatch
      then a.files == b.files[x.path := x.info.state] && a.skipped == b.skipped && a.bytes == b.bytes + x.info.size
      else
        && a.files == b.files && a.bytes == b.bytes && |a.skipped| == |b.skipped| + 1 && a.skipped[..|b.skipped|] == b.skipped
        && a.skipped[|b.skipped|].0 == x.path && Justified(x.info, a.skipped[|b.skipped|].1, b.bytes, limits)
  {
    assert found[..i + 1][..i] == found[..i];
  }

  /** If all files are fit and together fit the batch, all of them are taken. */
  lemma {:induction false} AllTaken(found: seq<Found>, limits: Limits)
    requires (forall x :: x in found ==> Fit(x.info, limits)) && Sizes(found) <= limits.maxBatch
    ensures var t := TakeAll(Taken(map[], [], 0), found, limits);
      && t.skipped == [] && t.bytes == Sizes(found)
      && (forall p :: p in t.files <==> exists x :: x in found && x.path == p)
    decreases |found|
  {
    if found != [] {
      var n := |found| - 1;
      assert found == found[..n] + [found[n]];
      AllTaken(found[..n], limits);
      TakenOrJustified(Taken(map[], [], 0), found, n, limits);
      assert found[..n + 1] == found;
      hide TakeAll, Fit, Sizes;
      var b, a := TakeAll(Taken(map[], [], 0), found[..n], limits), TakeAll(Taken(map[], [], 0), found, limits);
      forall p ensures p in a.files <==> exists x :: x in found && x.path == p {
        if p in b.files {
          var x :| x in found[..n] && x.path == p;
          assert x in found;
        }
        if p == found[n].path { assert found[n] in found; }
      }
    }
  }

  /** The walk itself. It takes what a full walk filtered by the rules would take. */
  method WalkDirectory(f: Forest, at: Path, r: Rules, limits: Limits, before: Taken) returns (t: Taken)
    ensures t == TakeAll(before, Walked(f, at, r), limits)
    decreases f
  {
    t := before;
    match f
    case Nil =>
    case Entry(name, node, rest) =>
      var p := at + [name];
      ghost var here: seq<Found> := [];
      match node {
        case Leaf(info) =>
          if Manages(r, p, false) {
            here := [Found(p, info)];
            t := Take(t, Found(p, info), limits);
            assert here[..0] == [];
          }
        case Folder(entries) =>
          if Manages(r, p, true) || MayManageDescendant(r, p) {
            here := Walked(entries, p, r);
            t := WalkDirectory(entries, p, r, limits, t);
          }
      }
      TakeConcat(before, here, Walked(rest, at, r), limits);
      t := WalkDirectory(rest, at, r, limits, t);
  }

  /** Without roots nothing is selected. */
  lemma {:induction false} NoRoots(f: Forest, at: Path, r: Rules)
    requires r.roots == []
    ensures Walked(f, at, r) == []
    decreases f
  {
    match f
    case Nil =>
    case Entry(name, node, rest) => NoRoots(rest, at, r);
  }

  // ----- mandatory exclusions -----

  /** Some pattern matches the name or a directory above it, or it lies in an excluded root. */
  predicate Excluded(p: Path, roots: seq<Path>, matches: Path -> bool) {
    || (exists i :: 0 <= i < |roots| && Prefix(roots[i], p))
    || (exists n :: 0 < n <= |p| && matches(p[..n]))
  }

  method MandatoryExcluded(p: Path, roots: seq<Path>, matches: Path -> bool) returns (excluded: bool)
    ensures excluded <==> Excluded(p, roots, matches)
  {
    for i := 0 to |roots|
      invariant forall k :: 0 <= k < i ==> !Prefix(roots[k], p)
    {
      if Prefix(roots[i], p) {
        return true;
      }
    }
    var n := |p|;
    while n > 0
      invariant 0 <= n <= |p| && forall k :: n < k <= |p| ==> !matches(p[..k])
    {
      if matches(p[..n]) {
        return true;
      }
      n := n - 1;
    }
    return false;
  }

  /** Whatever the patterns: what lies below an excluded name is excluded too. */
  lemma ExclusionClosed(p: Path, q: Path, roots: seq<Path>, matches: Path -> bool)
    requires Excluded(p, roots, matches) && Prefix(p, q)
    ensures Excluded(q, roots, matches)
  {
    if n :| 0 < n <= |p| && matches(p[..n]) {
      assert q[..|p|][..n] == q[..n];
    } else {
      var i :| 0 <= i < |roots| && Prefix(roots[i], p);
      assert q[..|p|][..|roots[i]|] == q[..|roots[i]|];
    }
  }

  // ----- the rules of a manifest -----

  /** The roots of a manifest as components. */
  function RootsOf(roots: seq<Manifest.Root>): seq<Root> {
    seq(|roots|, i requires 0 <= i < |roots| => Root(Split(roots[i].path, '/'), roots[i].directory))
  }

  /** The rules that a manifest's roots, the exclusions of the policy and the ignore patterns make. */
  function RulesOf(roots: seq<Manifest.Root>, policy: Policy): Rules {
    Rules(RootsOf(roots), p => Excluded(p, policy.roots, policy.matches), policy.ignored)
  }

  /** Excluded roots, mandatory patterns and ignore patterns. */
  datatype Policy = Policy(roots: seq<Path>, matches: Path -> bool, ignored: (Path, bool) -> bool)

  lemma RulesClosed(roots: seq<Manifest.Root>, policy: Policy)
    ensures Closed(RulesOf(roots, policy))
  {
    var r := RulesOf(roots, policy);
    forall p, q | r.excluded(p) && Prefix(p, q) ensures r.excluded(q) {
      ExclusionClosed(p, q, policy.roots, policy.matches);
    }
  }

  /** Names that are clean relative paths. */
  ghost predicate AllNamed(roots: seq<Manifest.Root>) {
    forall i :: 0 <= i < |roots| ==> Named(Split(roots[i].path, '/'))
  }

  lemma CoversIs(root: Manifest.Root, p: Path)
    requires Named(p) && Named(Split(root.path, '/'))
    ensures Manifest.Covers(root, Join(p)) <==>
      p == Split(root.path, '/') || (root.directory && Prefix(Split(root.path, '/'), p))
  {
    var q := Split(root.path, '/');
    JoinSplit(root.path);
    SplitJoin(p);
    InsideIsPrefix(q, p);
    assert Prefix(q, p) && |q| == |p| ==> p == q;
  }

  /** Selecting by components is selecting by the manifest's strings. */
  lemma SelectedIs(roots: seq<Manifest.Root>, p: Path)
    requires Named(p) && AllNamed(roots)
    ensures Selected(RootsOf(roots), p) <==> Manifest.Selects(roots, Join(p))
  {
    hide Join, Split, Manifest.Covers;
    var all := RootsOf(roots);
    forall i | 0 <= i < |roots|
      ensures Manifest.Covers(roots[i], Join(p)) <==> p == all[i].path || (all[i].directory && Prefix(all[i].path, p))
    {
      CoversIs(roots[i], p);
    }
  }

  /** What a snapshot should take, said of the manifest's own lines. */
  ghost predicate Wanted(lines: seq<string>, accepts: string -> bool, policy: Policy, p: Path) {
    && p != [] && Manifest.LinesSelect(lines, accepts, Join(p))
    && !Excluded(p, policy.roots, policy.matches) && !policy.ignored(p, false)
  }

  ghost function AllWanted(found: seq<Found>, lines: seq<string>, accepts: string -> bool, policy: Policy): seq<Found> {
    if found == [] then []
    else (if Wanted(lines, accepts, policy, found[0].path) then [found[0]] else []) + AllWanted(found[1..], lines, accepts, policy)
  }

  /** The roots are those of the lines. */
  ghost predicate Parsed(roots: seq<Manifest.Root>, lines: seq<string>, accepts: string -> bool) {
    AllNamed(roots) && forall name :: Manifest.Selects(roots, name) <==> Manifest.LinesSelect(lines, accepts, name)
  }

  ghost predicate NamedForest(f: Forest)
    decreases f
  {
    match f
    case Nil => true
    case Entry(name, node, rest) => Component(name) && (node.Folder? ==> NamedForest(node.entries)) && NamedForest(rest)
  }

  lemma {:induction false} EverythingNamed(f: Forest, at: Path)
    requires NamedForest(f) && (at == [] || Named(at))
    ensures forall x :: x in Everything(f, at) ==> Named(x.path)
    decreases f
  {
    match f
    case Nil =>
    case Entry(name, node, rest) =>
      assert Named(at + [name]);
      EverythingNamed(rest, at);
      if node.Folder? { EverythingNamed(node.entries, at + [name]); }
  }

  lemma {:induction false} ManagedIsWanted(found: seq<Found>, roots: seq<Manifest.Root>, lines: seq<string>, accepts: string -> bool, policy: Policy)
    requires Parsed(roots, lines, accepts) && forall x :: x in found ==> Named(x.path)
    ensures Managed(found, RulesOf(roots, policy)) == AllWanted(found, lines, accepts, policy)
  {
    hide Parsed, Manifest.LinesSelect, Excluded, Join;
    if found != [] {
      WantedIs(found[0].path, roots, lines, accepts, policy);
      ManagedIsWanted(found[1..], roots, lines, accepts, policy);
    }
  }

  lemma WantedIs(p: Path, roots: seq<Manifest.Root>, lines: seq<string>, accepts: string -> bool, policy: Policy)
    requires Parsed(roots, lines, accepts) && Named(p)
    ensures Manages(RulesOf(roots, policy), p, false) <==> Wanted(lines, accepts, policy, p)
  {
    SelectedIs(roots, p);
    hide Manifest.LinesSelect, Manifest.Selects, Excluded, Selected;
  }

  /** For the rules of a manifest, whatever the policy: the pruned walk finds, over all trees, exactly the
      files that the manifest's lines select and nothing excludes, if and only if every managed file root
      can be reached. */
  lemma ManifestWalkExact(roots: seq<Manifest.Root>, lines: seq<string>, accepts: string -> bool, policy: Policy)
    requires Parsed(roots, lines, accepts)
    ensures RootsReachable(RulesOf(roots, policy)) <==>
      forall f :: NamedForest(f) ==>
        Walked(f, [], RulesOf(roots, policy)) == AllWanted(Everything(f, []), lines, accepts, policy)
  {
    var r := RulesOf(roots, policy);
    if RootsReachable(r) {
      forall f | NamedForest(f) ensures Walked(f, [], r) == AllWanted(Everything(f, []), lines, accepts, policy) {
        ManifestWalk(f, roots, lines, accepts, policy);
      }
    } else {
      var f := MissedTree(roots, policy);
      EverythingNamed(f, []);
      ManagedIsWanted(Everything(f, []), roots, lines, accepts, policy);
      assert Walked(f, [], r) != AllWanted(Everything(f, []), lines, accepts, policy);
    }
  }

  lemma ManifestWalk(f: Forest, roots: seq<Manifest.Root>, lines: seq<string>, accepts: string -> bool, policy: Policy)
    requires Parsed(roots, lines, accepts) && NamedForest(f) && RootsReachable(RulesOf(roots, policy))
    ensures Walked(f, [], RulesOf(roots, policy)) == AllWanted(Everything(f, []), lines, accepts, policy)
  {
    RulesClosed(roots, policy);
    PruningLosesNothing(f, [], RulesOf(roots, policy));
    EverythingNamed(f, []);
    ManagedIsWanted(Everything(f, []), roots, lines, accepts, policy);
  }

  lemma {:induction false} ChainNamed(p: Path, info: Info)
    requires Named(p)
    ensures NamedForest(Chain(p, info))
    decreases |p|
  {
    if |p| > 1 { ChainNamed(p[1..], info); }
  }

  /** A tree of which the walk misses a managed file. */
  lemma MissedTree(roots: seq<Manifest.Root>, policy: Policy) returns (f: Forest)
    requires AllNamed(roots) && !RootsReachable(RulesOf(roots, policy))
    ensures NamedForest(f) && Walked(f, [], RulesOf(roots, policy)) != Managed(Everything(f, []), RulesOf(roots, policy))
  {
    var r := RulesOf(roots, policy);
    var i, n :| 0 <= i < |r.roots| && 0 < n < |r.roots[i].path|
                && !NeedsNoEntry(r, r.roots[i]) && !Enters(r, r.roots[i].path[..n]);
    var p := r.roots[i].path;
    assert p == Split(roots[i].path, '/');
    f := Chain(p, Special);
    hide Split, Named, Excluded;
    ChainNamed(p, Special);
    assert [] + p == p && [] + p[..n] == p[..n];
    ChainHolds(p, [], Special);
    ChainBlocked(p, [], Special, r, n);
  }

  // ----- roots behind links -----

  /** What stands at a path; links are not followed. */
  function NodeAt(f: Forest, p: Path): Option<Node>
    requires p != []
    decreases |p|, f
  {
    match f
    case Nil => None
    case Entry(name, node, rest) =>
      if name != p[0] then NodeAt(rest, p)
      else if |p| == 1 then Some(node)
      else if node.Folder? then NodeAt(node.entries, p[1..])
      else None
  }

  predicate LinkAt(f: Forest, p: Path)
    requires p != []
  {
    NodeAt(f, p).Some? && NodeAt(f, p).value.Leaf? && NodeAt(f, p).value.info.Symlink?
  }

  /** A link lies above the root, or is the root of a directory. */
  predicate BehindLink(f: Forest, root: Root) {
    exists n :: 0 < n <= |root.path| && LinkAt(f, root.path[..n]) && (n < |root.path| || root.directory)
  }

  /** Below what is no directory there is nothing. */
  lemma {:induction false} NothingBelow(f: Forest, p: Path, q: Path)
    requires p != [] && |p| < |q| && Prefix(p, q)
    requires NodeAt(f, p).None? || NodeAt(f, p).value.Leaf?
    ensures NodeAt(f, q).None?
    decreases |p|, f
  {
    match f
    case Nil =>
    case Entry(name, node, rest) =>
      assert p[0] == q[0];
      if name != p[0] {
        NothingBelow(rest, p, q);
      } else if |p| > 1 && node.Folder? {
        assert q[1..][..|p| - 1] == p[1..];
        NothingBelow(node.entries, p[1..], q[1..]);
      }
  }

  /** `validateManifestRoots`: stops at the first root that is reached through a link. */
  method ValidateRoots(f: Forest, roots: seq<Root>) returns (ok: bool)
    ensures ok <==> forall i :: 0 <= i < |roots| ==> !BehindLink(f, roots[i])
  {
    for i := 0 to |roots|
      invariant forall k :: 0 <= k < i ==> !BehindLink(f, roots[k])
    {
      var p := roots[i].path;
      var n := 1;
      while n <= |p|
        invariant 1 <= n <= |p| + 1
        invariant forall k :: 0 < k < n ==> !(LinkAt(f, p[..k]) && (k < |p| || roots[i].directory))
      {
        var node := NodeAt(f, p[..n]);
        if node.None? || (node.value.Leaf? && !node.value.info.Symlink?) {
          NothingFurther(f, p, n);
          break;
        }
        if LinkAt(f, p[..n]) && (n < |p| || roots[i].directory) {
          return false;
        }
        n := n + 1;
      }
    }
    return true;
  }

  lemma NothingFurther(f: Forest, p: Path, n: nat)
    requires 0 < n <= |p| && (NodeAt(f, p[..n]).None? || NodeAt(f, p[..n]).value.Leaf?)
    ensures forall k :: n < k <= |p| ==> !LinkAt(f, p[..k])
  {
    forall k | n < k <= |p| ensures !LinkAt(f, p[..k]) {
      assert p[..k][..n] == p[..n];
      NothingBelow(f, p[..n], p[..k]);
    }
  }

  function EntryNames(f: Forest): set<string> {
    match f case Nil => {} case Entry(name, _, rest) => {name} + EntryNames(rest)
  }

  /** No directory holds a name twice. */
  predicate Distinct(f: Forest)
    decreases f
  {
    match f
    case Nil => true
    case Entry(name, node, rest) =>
      name !in EntryNames(rest) && (node.Folder? ==> Distinct(node.entries)) && Distinct(rest)
  }

  lemma {:induction false} NamedByEntries(f: Forest, at: Path)
    ensures forall x :: x in Everything(f, at) ==>
      Prefix(at, x.path) && |at| < |x.path| && x.path[|at|] in EntryNames(f)
    decreases f
  {
    match f
    case Nil =>
    case Entry(name, node, rest) =>
      NamedByEntries(rest, at);
      EverythingBelow(f, at);
      if node.Folder? {
        EverythingBelow(node.entries, at + [name]);
        forall x | x in Everything(node.entries, at + [name]) ensures x.path[|at|] == name {
          assert x.path[..|at| + 1][|at|] == name;
        }
      }
  }

  lemma NotBelow(f: Forest, at: Path, name: string, p: Path, info: Info)
    requires p != [] && (name != p[0] || |p| == 1)
    ensures Found(at + p, info) !in Everything(f, at + [name])
  {
    hide Everything;
    EverythingBelow(f, at + [name]);
    if Prefix(at + [name], at + p) {
      assert (at + p)[..|at| + 1][|at|] == name;
      assert (at + p)[|at|] == p[0];
    }
  }

  lemma NotBeside(f: Forest, at: Path, name: string, p: Path, info: Info)
    requires p != [] && name == p[0] && name !in EntryNames(f)
    ensures Found(at + p, info) !in Everything(f, at)
  {
    hide Everything;
    NamedByEntries(f, at);
    assert (at + p)[|at|] == p[0];
  }

  lemma SamePath(at: Path, name: string, p: Path)
    ensures at + [name] == at + p <==> p == [name]
  {
    if at + [name] == at + p {
      assert (at + p)[|at|..] == p && (at + [name])[|at|..] == [name];
    }
  }

  /** Looking a file up is finding it in the list of all files. */
  lemma {:induction false} LookupIsListed(f: Forest, at: Path, p: Path, info: Info)
    requires Distinct(f) && p != []
    ensures NodeAt(f, p) == Some(Leaf(info)) <==> Found(at + p, info) in Everything(f, at)
    decreases f
  {
    hide EntryNames;
    match f
    case Nil =>
    case Entry(name, node, rest) =>
      if name == p[0] { NotBeside(rest, at, name, p, info); } else { LookupIsListed(rest, at, p, info); }
      match node {
        case Leaf(other) => SamePath(at, name, p);
        case Folder(entries) =>
          if name == p[0] && |p| > 1 {
            assert at + [name] + p[1..] == at + p;
            LookupIsListed(entries, at + [name], p[1..], info);
          } else {
            NotBelow(entries, at, name, p, info);
          }
      }
  }

  /** `x` is a link that lies above the root, or is the root of a directory. */
  predicate Hides(x: Found, root: Root) {
    x.info.Symlink? && Prefix(x.path, root.path) && (x.path != root.path || root.directory)
  }

  /** A root is refused exactly when the list of all files holds a link that hides it. */
  lemma RefusedExactly(f: Forest, root: Root)
    requires Distinct(f)
    ensures BehindLink(f, root) <==> exists x :: x in Everything(f, []) && Hides(x, root)
  {
    hide Everything, NodeAt, Distinct;
    if BehindLink(f, root) {
      var n :| 0 < n <= |root.path| && LinkAt(f, root.path[..n]) && (n < |root.path| || root.directory);
      var p := root.path[..n];
      var info := NodeAt(f, p).value.info;
      LookupIsListed(f, [], p, info);
      assert [] + p == p;
      assert Hides(Found(p, info), root);
    }
    if x :| x in Everything(f, []) && Hides(x, root) {
      EverythingBelow(f, []);
      assert [] + x.path == x.path;
      LookupIsListed(f, [], x.path, x.info);
      assert root.path[..|x.path|] == x.path;
      assert LinkAt(f, root.path[..|x.path|]);
    }
  }

  /** `TakeManifestSnapshot`: refused exactly when some root lies behind a link; without roots nothing is
      walked. What it takes fits the batch and is what the pruned walk finds. */
  method TakeManifestSnapshot(f: Forest, roots: seq<Manifest.Root>, policy: Policy, limits: Limits)
    returns (ok: bool, t: Taken)
    ensures ok <==> forall i :: 0 <= i < |roots| ==> !BehindLink(f, RootsOf(roots)[i])
    ensures !ok ==> t == Taken(map[], [], 0)
    ensures ok ==> t == TakeAll(Taken(map[], [], 0), Walked(f, [], RulesOf(roots, policy)), limits)
    ensures t.bytes <= limits.maxBatch
  {
    var r := RulesOf(roots, policy);
    t := Taken(map[], [], 0);
    ok := ValidateRoots(f, r.roots);
    if !ok {
      return;
    }
    NothingUnaccounted(t, Walked(f, [], r), limits);
    if roots == [] {
      NoRoots(f, [], r);
      return;
    }
    t := WalkDirectory(f, [], r, limits, t);
  }

  /** No link of the tree hides a root. */
  ghost predicate Unhidden(f: Forest, roots: seq<Manifest.Root>) {
    forall x, i :: x in Everything(f, []) && 0 <= i < |roots| ==> !Hides(x, RootsOf(roots)[i])
  }

  lemma UnhiddenIs(f: Forest, roots: seq<Manifest.Root>)
    requires Distinct(f)
    ensures Unhidden(f, roots) <==> forall i :: 0 <= i < |roots| ==> !BehindLink(f, RootsOf(roots)[i])
  {
    hide BehindLink, Hides, Everything;
    forall i | 0 <= i < |roots|
      ensures BehindLink(f, RootsOf(roots)[i]) <==> exists x :: x in Everything(f, []) && Hides(x, RootsOf(roots)[i])
    {
      RefusedExactly(f, RootsOf(roots)[i]);
    }
  }

  /** From the lines of the include file to the snapshot: refused exactly when a line is unsafe or a link of
      the tree hides a root; otherwise, if every managed file root can be reached, it takes what the lines
      select and nothing excludes, in the order of a full walk. */
  method SnapshotOfLines(f: Forest, lines: seq<string>, accepts: string -> bool, policy: Policy, limits: Limits)
    returns (ok: bool, roots: seq<Manifest.Root>, t: Taken)
    requires NamedForest(f) && Distinct(f) && forall name :: accepts(name) ==> Named(Split(name, '/'))
    ensures Manifest.AllSafe(lines, accepts) ==> Parsed(roots, lines, accepts)
    ensures ok <==> Manifest.AllSafe(lines, accepts) && Unhidden(f, roots)
    ensures ok && RootsReachable(RulesOf(roots, policy)) ==>
      t == TakeAll(Taken(map[], [], 0), AllWanted(Everything(f, []), lines, accepts, policy), limits)
  {
    ok, roots := Manifest.ParseInclude(lines, accepts);
    t := Taken(map[], [], 0);
    if ok {
      assert AllNamed(roots) by { assert forall i :: 0 <= i < |roots| ==> roots[i] in roots; }
      if RootsReachable(RulesOf(roots, policy)) { ManifestWalk(f, roots, lines, accepts, policy); }
      UnhiddenIs(f, roots);
      ok, t := TakeManifestSnapshot(f, roots, policy, limits);
    }
  }
}
