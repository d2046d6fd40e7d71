/** The undo log of applying remote files (internal/configsync/apply_journal.go).

    Every file operation uses up one unit of `budget`; when none is left it fails or the process stops.
    The state after any interruption is thus the state after some budget.
 */
module ApplyJournal {
  import opened Basics
  import opened Paths

  type Target = t: string | t != "" witness "."

  /** `mode` holds the permissions and, above them, the set-id and sticky bits. */
  datatype Node = File(mode: nat, content: seq<byte>) | Link(target: Target) | Directory

  /** What lies below the home directory. Nothing lies below a link: what is behind it is elsewhere. */
  type Tree = map<Path, Node>

  /** One path as it was before anything was applied. */
  datatype Entry = Entry(path: Path, node: Option<Node>)

  datatype Failure = Invalid | Stopped

  /** How much larger than the content limit a journal may be. */
  const SLACK: nat := 0x10_0000

  predicate Ancestor(a: Path, p: Path) { 0 < |a| < |p| && Prefix(a, p) }

  predicate Plain(n: Option<Node>) { n.Some? ==> !n.value.Directory? }

  predicate IsLink(n: Option<Node>) { n.Some? && n.value.Link? }

  predicate IsFile(n: Option<Node>) { n.Some? && n.value.File? }

  predicate Absolute(n: Node) { n.Link? && n.target[0] == '/' }

  predicate Restorable(n: Option<Node>) { Plain(n) && (n.Some? ==> !Absolute(n.value)) }

  /** What writing an entry back leaves: only the permission bits are set again. */
  function AsWritten(n: Option<Node>): Option<Node> {
    if IsFile(n) then Some(File(n.value.mode % 0x200, n.value.content)) else n
  }

  /** Above everything in the tree there are directories. */
  ghost predicate Shaped(t: Tree) {
    [] !in t && forall p :: p in t && |p| > 1 ==> Look(t, p[..|p| - 1]) == Some(Directory)
  }

  lemma {:induction false} ShapedAbove(t: Tree, p: Path, n: nat)
    requires Shaped(t) && p in t && 0 < n < |p|
    ensures Look(t, p[..n]) == Some(Directory)
    decreases |p| - n
  {
    if n < |p| - 1 {
      ShapedAbove(t, p, n + 1);
      assert p[..n + 1][..n] == p[..n];
    }
  }

  // ----- looking names up -----

  datatype Seen = Absent | Denied | Present(node: Node)

  /** What `Lstat` finds: a missing directory hides the name, a file in its place is an error, a link is
      followed. `beyond` says what lies behind links. */
  function See(t: Tree, p: Path, n: nat, beyond: Path -> Seen): Seen
    requires 0 < n <= |p|
    decreases |p| - n
  {
    match Look(t, p[..n])
    case None => Absent
    case Some(node) =>
      if n == |p| then Present(node)
      else
        match node
        case File(_, _) => Denied
        case Link(_) => beyond(p)
        case Directory => See(t, p, n + 1, beyond)
  }

  ghost predicate LinkAbove(t: Tree, p: Path) { exists n :: 0 < n < |p| && IsLink(Look(t, p[..n])) }

  ghost predicate FileAbove(t: Tree, p: Path) { exists n :: 0 < n < |p| && IsFile(Look(t, p[..n])) }

  /** Without a link above, what is seen is what is there, and a file above denies the look. */
  lemma {:induction false} SeenIsThere(t: Tree, p: Path, n: nat, beyond: Path -> Seen)
    requires Shaped(t) && 0 < n <= |p| && forall k :: 0 < k < n ==> Look(t, p[..k]) == Some(Directory)
    ensures !LinkAbove(t, p) && !See(t, p, n, beyond).Denied? ==> Recorded(See(t, p, n, beyond)) == Look(t, p)
    ensures FileAbove(t, p) ==> See(t, p, n, beyond).Denied?
    decreases |p| - n
  {
    assert p[..|p|] == p;
    if n < |p| {
      var at := Look(t, p[..n]);
      if at == Some(Directory) {
        SeenIsThere(t, p, n + 1, beyond);
      } else {
        forall k | n < k <= |p| ensures p[..k] !in t {
          assert p[..k][..n] == p[..n];
          if p[..k] in t { ShapedAbove(t, p[..k], n); }
        }
        assert IsLink(at) ==> LinkAbove(t, p);
      }
    }
  }

  /** The entry made of what was seen. */
  function Recorded(s: Seen): Option<Node> { if s.Present? then Some(s.node) else None }

  predicate Acceptable(s: Seen) { !s.Denied? && Restorable(Recorded(s)) }

  // ----- the journal's promise -----

  predicate Listed(es: seq<Entry>, p: Path) { exists i :: 0 <= i < |es| && es[i].path == p }

  predicate Leads(es: seq<Entry>, p: Path) { exists i :: 0 <= i < |es| && Ancestor(p, es[i].path) }

  /** No name twice, and no name before one that lies above it. */
  ghost predicate Ordered(es: seq<Entry>) {
    && (forall i :: 0 <= i < |es| ==> es[i].path != [])
    && (forall i, j :: 0 <= i < j < |es| ==> es[i].path != es[j].path && !Ancestor(es[j].path, es[i].path))
  }

  /** The entries say how `start` was and can be written back. */
  ghost predicate Describes(es: seq<Entry>, start: Tree) {
    forall i :: 0 <= i < |es| ==>
      && Restorable(es[i].node) && !FileAbove(start, es[i].path)
      && (LinkAbove(start, es[i].path) || es[i].node == Look(start, es[i].path))
  }

  /** Where `t` may differ from `start` at `p`: at listed names, and by new directories above them. */
  predicate MayDiffer(t: Tree, start: Tree, es: seq<Entry>, p: Path) {
    if Leads(es, p) then
      Listed(es, p) || Look(t, p) == Look(start, p) || (Look(start, p).None? && Look(t, p) == Some(Directory))
    else if Listed(es, p) then Plain(Look(t, p))
    else Look(t, p) == Look(start, p)
  }

  ghost predicate OnlyListedChanged(t: Tree, start: Tree, es: seq<Entry>) {
    forall p :: MayDiffer(t, start, es, p)
  }

  ghost predicate Restored(t: Tree, es: seq<Entry>, from: nat) {
    forall i :: from <= i < |es| ==> Look(t, es[i].path) == AsWritten(es[i].node)
  }

  /** All that is above `p` are directories. */
  ghost predicate Open(t: Tree, p: Path) { forall n :: 0 < n < |p| ==> Look(t, p[..n]) == Some(Directory) }

  /** Something above `p` is no directory. */
  ghost predicate Blocked(t: Tree, p: Path) { LinkAbove(t, p) || FileAbove(t, p) }

  /** No name lies inside another one. */
  ghost predicate Separate(es: seq<Entry>) {
    forall i, j :: 0 <= i < |es| && 0 <= j < |es| ==> !Ancestor(es[i].path, es[j].path)
  }

  ghost predicate Unlinked(es: seq<Entry>, start: Tree) {
    forall i :: 0 <= i < |es| ==> !LinkAbove(start, es[i].path)
  }

  /** When the journal can be undone: it is small enough to be read again, no listed name has a link above
      it, and none lies inside another. All of it is known before anything is applied. */
  ghost predicate Recoverable(size: seq<Entry> -> nat, es: seq<Entry>, start: Tree, limit: nat) {
    size(es) <= limit + SLACK && Separate(es) && Unlinked(es, start)
  }

  /** Operations that restoring needs at most. */
  function Work(es: seq<Entry>): nat {
    if es == [] then 0 else Work(es[..|es| - 1]) + |es[|es| - 1].path| + 2
  }

  /** `u` is `t`, with perhaps more directories above `path`. */
  ghost predicate Opened(t: Tree, u: Tree, path: Path) {
    forall q :: Look(u, q) == Look(t, q) || (Look(t, q).None? && Look(u, q) == Some(Directory) && Ancestor(q, path))
  }

  /** `u` is `t`, with perhaps more directories above `path`, and something else at `path`. */
  ghost predicate Rewritten(t: Tree, u: Tree, path: Path) {
    forall q :: q != path ==>
      Look(u, q) == Look(t, q) || (Look(t, q).None? && Look(u, q) == Some(Directory) && Ancestor(q, path))
  }

  lemma NotOpened(t: Tree, path: Path)
    ensures Opened(t, t, path)
  {
  }

  lemma OpenedMore(t: Tree, u: Tree, path: Path, n: nat)
    requires Opened(t, u, path) && 0 < n < |path| && path[..n] !in u
    ensures Opened(t, u[path[..n] := Directory], path)
  {
    assert Ancestor(path[..n], path);
    assert Look(u, path[..n]) == Look(t, path[..n]);
  }

  lemma BlockedAt(t: Tree, u: Tree, path: Path, n: nat)
    requires Opened(t, u, path) && 0 < n < |path| && path[..n] in u && !u[path[..n]].Directory?
    ensures Blocked(t, path)
  {
    assert Look(u, path[..n]) == Look(t, path[..n]);
    assert IsLink(Look(t, path[..n])) || IsFile(Look(t, path[..n]));
  }

  lemma OpenedRewritten(t: Tree, u: Tree, path: Path)
    requires Opened(t, u, path)
    ensures Rewritten(t, u, path) && Look(u, path) == Look(t, path)
  {
  }

  lemma RewrittenTwice(t: Tree, u: Tree, v: Tree, path: Path)
    requires Rewritten(t, u, path) && Rewritten(u, v, path)
    ensures Rewritten(t, v, path)
  {
  }

  lemma DirectoryAdded(t: Tree, start: Tree, es: seq<Entry>, path: Path, n: nat)
    requires Shaped(t) && OnlyListedChanged(t, start, es) && Listed(es, path)
    requires 0 < n < |path| && path[..n] !in t && forall k :: 0 < k < n ==> Look(t, path[..k]) == Some(Directory)
    ensures var u := t[path[..n] := Directory]; Shaped(u) && OnlyListedChanged(u, start, es)
  {
    var u, q := t[path[..n] := Directory], path[..n];
    assert Leads(es, q) by {
      var i :| 0 <= i < |es| && es[i].path == path;
      assert Ancestor(q, es[i].path);
    }
    assert MayDiffer(t, start, es, q);
    forall p ensures MayDiffer(u, start, es, p) { assert MayDiffer(t, start, es, p); }
    assert n > 1 ==> q[..n - 1] == path[..n - 1];
    forall p | p in u && |p| > 1 ensures Look(u, p[..|p| - 1]) == Some(Directory) {
      if p != q { assert Look(t, p[..|p| - 1]) == Some(Directory); }
    }
  }

  /** Changing a listed name that is no directory. */
  lemma ListedChanged(t: Tree, u: Tree, start: Tree, es: seq<Entry>, path: Path)
    requires Shaped(t) && OnlyListedChanged(t, start, es) && Listed(es, path) && path != []
    requires Open(t, path) && Plain(Look(t, path)) && Plain(Look(u, path))
    requires forall q :: q != path ==> Look(u, q) == Look(t, q)
    ensures Shaped(u) && OnlyListedChanged(u, start, es) && Open(u, path) && Rewritten(t, u, path)
  {
    forall p ensures MayDiffer(u, start, es, p) { assert MayDiffer(t, start, es, p); }
    forall p | p in u && |p| > 1 ensures Look(u, p[..|p| - 1]) == Some(Directory) {
      if p == path {
        assert Look(t, path[..|path| - 1]) == Some(Directory);
      } else {
        assert Look(u, p) == Look(t, p) && Look(t, p[..|p| - 1]) == Some(Directory);
      }
    }
    assert Look(u, []) == Look(t, []);
    forall n | 0 < n < |path| ensures Look(u, path[..n]) == Some(Directory) {
      assert Look(t, path[..n]) == Some(Directory);
    }
  }

  // ----- what recovery can do -----

  /** Under the condition nothing is in the way of any entry, whatever was applied. */
  lemma NothingInTheWay(t: Tree, start: Tree, es: seq<Entry>, k: nat)
    requires Describes(es, start) && OnlyListedChanged(t, start, es) && Separate(es) && Unlinked(es, start) && k < |es|
    ensures !Blocked(t, es[k].path) && Plain(Look(t, es[k].path))
  {
    var path := es[k].path;
    assert MayDiffer(t, start, es, path) && Listed(es, path);
    forall n | 0 < n < |path| ensures !IsLink(Look(t, path[..n])) && !IsFile(Look(t, path[..n])) {
      assert Ancestor(path[..n], es[k].path);
      assert MayDiffer(t, start, es, path[..n]);
      assert !LinkAbove(start, path) && !FileAbove(start, path);
      assert !IsLink(Look(start, path[..n])) && !IsFile(Look(start, path[..n]));
    }
  }

  /** Once every name is open and no name lies inside another, there was no link above one. */
  lemma OpenUnlinked(t: Tree, start: Tree, es: seq<Entry>)
    requires OnlyListedChanged(t, start, es) && Separate(es) && forall j :: 0 <= j < |es| ==> Open(t, es[j].path)
    ensures Unlinked(es, start)
  {
    forall j | 0 <= j < |es| ensures !LinkAbove(start, es[j].path) {
      var path := es[j].path;
      forall n | 0 < n < |path| ensures !IsLink(Look(start, path[..n])) {
        assert Open(t, path) && Ancestor(path[..n], es[j].path);
        assert MayDiffer(t, start, es, path[..n]);
      }
    }
  }

  /** How far recovery has come: the entries from `from` on are back, the way to them is open, and none of
      them lies above another. */
  ghost predicate Undone(t: Tree, es: seq<Entry>, from: nat) {
    && Restored(t, es, from)
    && (forall j :: from <= j < |es| ==> Open(t, es[j].path))
    && (forall i, j :: from <= i < j < |es| ==> !Ancestor(es[i].path, es[j].path))
  }

  lemma UndoneMore(t: Tree, u: Tree, es: seq<Entry>, k: nat)
    requires Ordered(es) && k < |es| && Undone(t, es, k + 1)
    requires Plain(Look(t, es[k].path)) && Rewritten(t, u, es[k].path)
    requires Open(u, es[k].path) && Look(u, es[k].path) == AsWritten(es[k].node)
    ensures Undone(u, es, k)
  {
    forall j | k < j < |es|
      ensures !Ancestor(es[k].path, es[j].path) && Open(u, es[j].path) && Look(u, es[j].path) == AsWritten(es[j].node)
    {
      assert Open(t, es[j].path);
      forall n | 0 < n < |es[j].path| ensures Look(u, es[j].path[..n]) == Some(Directory) {
        assert Look(t, es[j].path[..n]) == Some(Directory);
        assert es[j].path[..n] != es[k].path;
      }
    }
  }

  lemma NothingUndone(t: Tree, es: seq<Entry>)
    ensures Undone(t, es, |es|)
  {
  }

  lemma UndoneAll(t: Tree, es: seq<Entry>)
    requires Ordered(es) && Undone(t, es, 0)
    ensures Separate(es) && Restored(t, es, 0) && forall j :: 0 <= j < |es| ==> Open(t, es[j].path)
  {
    forall i, j | 0 <= i < |es| && 0 <= j < |es| ensures !Ancestor(es[i].path, es[j].path) {
      if j < i { assert es[j].path != es[i].path; }
    }
  }

  // ----- restoring, with a budget of operations -----

  /** Where an operation on the tree has come: what is left of the budget, and why it ended early. */
  datatype Progress = Progress(tree: Tree, left: nat, err: Option<Failure>)

  /** `ensurePrivateParent`, from the first `n` components on: creates missing directories, and refuses what is
      no directory. */
  function Opening(t: Tree, path: Path, n: nat, budget: nat): Progress
    requires 0 < n <= |path|
    decreases |path| - n
  {
    if n == |path| then Progress(t, budget, None)
    else if path[..n] !in t then
      if budget == 0 then Progress(t, 0, Some(Stopped))
      else Opening(t[path[..n] := Directory], path, n + 1, budget - 1)
    else if !t[path[..n]].Directory? then Progress(t, budget, Some(Invalid))
    else Opening(t, path, n + 1, budget)
  }

  /** The entry is written at a name that is free. */
  function Writing(t: Tree, e: Entry, budget: nat): Progress {
    if e.node.None? then Progress(t, budget, None)
    else if budget == 0 then Progress(t, 0, Some(Stopped))
    else Progress(t[e.path := AsWritten(e.node).value], budget - 1, None)
  }

  /** Whatever is at the name goes, then the entry is written. */
  function Replacing(t: Tree, e: Entry, budget: nat): Progress {
    if e.path !in t then Writing(t, e, budget)
    else if t[e.path].Directory? then Progress(t, budget, Some(Invalid))
    else if budget == 0 then Progress(t, 0, Some(Stopped))
    else Writing(t - {e.path}, e, budget - 1)
  }

  /** `restoreApplyJournalEntry`. */
  function PutBack(t: Tree, e: Entry, budget: nat): Progress
    requires e.path != []
  {
    var p := Opening(t, e.path, 1, budget);
    if p.err.Some? then p else Replacing(p.tree, e, p.left)
  }

  predicate AllPaths(es: seq<Entry>) { forall i :: 0 <= i < |es| ==> es[i].path != [] }

  /** The first `n` entries, last one first. */
  function PutAllBack(t: Tree, es: seq<Entry>, n: nat, budget: nat): Progress
    requires n <= |es| && AllPaths(es)
    decreases n
  {
    if n == 0 then Progress(t, budget, None)
    else
      var p := PutBack(t, es[n - 1], budget);
      if p.err.Some? then p else PutAllBack(p.tree, es, n - 1, p.left)
  }

  lemma PutLastBack(t: Tree, es: seq<Entry>, n: nat, budget: nat)
    requires 0 < n <= |es| && AllPaths(es)
    ensures es[n - 1].path != []
    ensures var p := PutBack(t, es[n - 1], budget);
      PutAllBack(t, es, n, budget) == if p.err.Some? then p else PutAllBack(p.tree, es, n - 1, p.left)
  {
    hide PutBack;
  }

  lemma NothingLeft(t: Tree, es: seq<Entry>, budget: nat)
    requires AllPaths(es)
    ensures PutAllBack(t, es, 0, budget) == Progress(t, budget, None)
  {
  }

  datatype Recovery = Recovery(tree: Tree, journal: Option<seq<Entry>>, err: Option<Failure>)

  /** `recoverApplyJournal`. */
  function Recovering(size: seq<Entry> -> nat, t: Tree, journal: Option<seq<Entry>>, limit: nat, budget: nat): Recovery
    requires journal.Some? ==> AllPaths(journal.value)
  {
    if journal.None? then Recovery(t, None, None)
    else if size(journal.value) > limit + SLACK then Recovery(t, journal, Some(Invalid))
    else
      var p := PutAllBack(t, journal.value, |journal.value|, budget);
      if p.err.Some? then Recovery(p.tree, journal, p.err)
      else if p.left == 0 then Recovery(p.tree, journal, Some(Stopped))
      else Recovery(p.tree, None, None)
  }

  /** One step of applying: missing directories are made, then the name becomes anything but a directory. */
  function Changed(t: Tree, path: Path, node: Option<Node>): Tree
    requires path != []
  {
    var p := Opening(t, path, 1, |path|);
    if p.err.Some? || (path in p.tree && p.tree[path].Directory?) then p.tree
    else if node.Some? then p.tree[path := node.value] else p.tree - {path}
  }

  /** `t` is `start` as far as a journal with these entries can tell. */
  ghost predicate Ongoing(t: Tree, start: Tree, es: seq<Entry>) {
    Shaped(t) && Ordered(es) && Describes(es, start) && OnlyListedChanged(t, start, es)
  }

  lemma Ends(err: Option<Failure>)
    ensures err in {None, Some(Invalid), Some(Stopped)}
  {
    if err.Some? {
      match err.value
      case Invalid =>
      case Stopped =>
    }
  }

  lemma OpenedTwice(t: Tree, u: Tree, v: Tree, path: Path)
    requires Opened(t, u, path) && Opened(u, v, path)
    ensures Opened(t, v, path)
  {
  }

  lemma BlockedSame(t: Tree, u: Tree, path: Path)
    requires Opened(t, u, path)
    ensures Blocked(t, path) <==> Blocked(u, path)
  {
    forall n | 0 < n < |path|
      ensures (IsLink(Look(t, path[..n])) <==> IsLink(Look(u, path[..n]))) && (IsFile(Look(t, path[..n])) <==> IsFile(Look(u, path[..n])))
    {
      assert Look(u, path[..n]) == Look(t, path[..n]) || Look(u, path[..n]) == Some(Directory);
    }
  }

  /** What creating the directories above a listed name comes to. */
  lemma {:induction false} OpeningIs(t: Tree, start: Tree, es: seq<Entry>, path: Path, n: nat, budget: nat)
    requires Ongoing(t, start, es) && Listed(es, path) && 0 < n <= |path|
    requires forall k :: 0 < k < n ==> Look(t, path[..k]) == Some(Directory)
    ensures var p := Opening(t, path, n, budget);
      && Ongoing(p.tree, start, es) && p.left <= budget && Opened(t, p.tree, path)
      && (p.err.None? ==> Open(p.tree, path) && !Blocked(t, path))
      && (p.err == Some(Invalid) ==> Blocked(t, path))
      && (budget + n >= |path| ==> p.err != Some(Stopped) && p.left + |path| >= budget + n)
    decreases |path| - n
  {
    hide Shaped, Ordered, Describes, OnlyListedChanged, Opened, Blocked;
    NotOpened(t, path);
    if n == |path| {
      StillOpen(t, t, path);
    } else if path[..n] !in t {
      if budget > 0 {
        var u := t[path[..n] := Directory];
        DirectoryAdded(t, start, es, path, n);
        OpenedMore(t, t, path, n);
        OpeningIs(u, start, es, path, n + 1, budget - 1);
        OpenedTwice(t, u, Opening(t, path, n, budget).tree, path);
        BlockedSame(t, u, path);
      }
    } else if !t[path[..n]].Directory? {
      BlockedAt(t, t, path, n);
    } else {
      OpeningIs(t, start, es, path, n + 1, budget);
    }
  }

  /** What writing over a listed name comes to, once the way to it is open. */
  lemma ReplacingIs(t: Tree, start: Tree, es: seq<Entry>, k: nat, budget: nat)
    requires Ongoing(t, start, es) && k < |es| && Open(t, es[k].path)
    ensures var p := Replacing(t, es[k], budget);
      && Ongoing(p.tree, start, es) && p.left <= budget && Open(p.tree, es[k].path)
      && (Plain(Look(t, es[k].path)) ==> Rewritten(t, p.tree, es[k].path))
      && (!Plain(Look(t, es[k].path)) ==> p.tree == t)
      && (p.err.None? ==> Look(p.tree, es[k].path) == AsWritten(es[k].node))
      && (p.err == Some(Invalid) <==> !Plain(Look(t, es[k].path)))
      && (budget >= 2 ==> p.err != Some(Stopped) && p.left + 2 >= budget)
  {
    hide Open, Rewritten, Shaped, Describes, OnlyListedChanged, AsWritten;
    var e := es[k];
    assert Listed(es, e.path);
    WrittenPlain(start, es, k);
    assert Rewritten(t, t, e.path) by { NotOpened(t, e.path); OpenedRewritten(t, t, e.path); }
    if Plain(Look(t, e.path)) {
      var u := t - {e.path};
      ListedChanged(t, u, start, es, e.path);
      if e.node.Some? {
        ListedChanged(t, t[e.path := AsWritten(e.node).value], start, es, e.path);
        assert u[e.path := AsWritten(e.node).value] == t[e.path := AsWritten(e.node).value];
      }
    }
  }

  /** What putting one entry back comes to. */
  lemma PutBackIs(t: Tree, start: Tree, es: seq<Entry>, k: nat, budget: nat)
    requires Ongoing(t, start, es) && k < |es|
    ensures var p := PutBack(t, es[k], budget);
      && Ongoing(p.tree, start, es) && p.left <= budget
      && (Plain(Look(t, es[k].path)) ==> Rewritten(t, p.tree, es[k].path))
      && (!Plain(Look(t, es[k].path)) ==> Opened(t, p.tree, es[k].path))
      && (p.err.None? ==> Open(p.tree, es[k].path) && Look(p.tree, es[k].path) == AsWritten(es[k].node))
      && (p.err == Some(Invalid) <==>
            p.err != Some(Stopped) && (Blocked(t, es[k].path) || !Plain(Look(t, es[k].path))))
      && (budget >= |es[k].path| + 2 ==> p.err != Some(Stopped) && p.left + |es[k].path| + 2 >= budget)
  {
    hide Ongoing, Open, Opened, Rewritten, Blocked, AsWritten, Opening, Replacing;
    assert Listed(es, es[k].path);
    assert es[k].path != [] by { OngoingPath(t, start, es, k); }
    OpeningIs(t, start, es, es[k].path, 1, budget);
    var o := Opening(t, es[k].path, 1, budget);
    Ends(o.err);
    OpenedRewritten(t, o.tree, es[k].path);
    if o.err.None? {
      ReplacingIs(o.tree, start, es, k, o.left);
      if Plain(Look(t, es[k].path)) { RewrittenTwice(t, o.tree, PutBack(t, es[k], budget).tree, es[k].path); }
    }
  }

  lemma OngoingShaped(t: Tree, start: Tree, es: seq<Entry>)
    requires Ongoing(t, start, es)
    ensures Shaped(t)
  {
  }

  lemma OngoingPath(t: Tree, start: Tree, es: seq<Entry>, k: nat)
    requires Ongoing(t, start, es) && k < |es|
    ensures es[k].path != [] && AllPaths(es)
  {
  }

  /** What putting the first `n` entries back comes to, when the others are back already. */
  lemma {:induction false} PutAllBackIs(t: Tree, start: Tree, es: seq<Entry>, n: nat, budget: nat)
    requires Ongoing(t, start, es) && n <= |es| && Undone(t, es, n)
    ensures AllPaths(es)
    ensures var p := PutAllBack(t, es, n, budget);
      && Ongoing(p.tree, start, es) && p.left <= budget
      && (p.err.None? ==> Undone(p.tree, es, 0))
      && (p.err == Some(Invalid) ==> !(Separate(es) && Unlinked(es, start)))
      && (budget > Work(es[..n]) ==> p.err != Some(Stopped) && (p.err.None? ==> p.left > 0))
    decreases n
  {
    assert AllPaths(es);
    hide Blocked, Rewritten, Shaped, Describes, OnlyListedChanged, Undone, Restored, Separate, Unlinked, Ordered, Open, PutBack, Opened;
    if n > 0 {
      assert es[..n][..n - 1] == es[..n - 1];
      PutBackIs(t, start, es, n - 1, budget);
      var p := PutBack(t, es[n - 1], budget);
      if Separate(es) && Unlinked(es, start) { NothingInTheWay(t, start, es, n - 1); }
      if p.err.None? {
        UndoneMore(t, p.tree, es, n - 1);
        PutAllBackIs(p.tree, start, es, n - 1, p.left);
      }
    }
  }

  /** What a recovery comes to: it completes only if the journal is recoverable, is refused only if it is not,
      and with enough steps completes if it is; stopped, it can be repeated. */
  lemma RecoveringIs(size: seq<Entry> -> nat, t: Tree, start: Tree, es: seq<Entry>, limit: nat, budget: nat)
    requires Ongoing(t, start, es)
    ensures AllPaths(es)
    ensures var r := Recovering(size, t, Some(es), limit, budget);
      && Ongoing(r.tree, start, es)
      && (r.err.None? ==> r.journal.None? && Restored(r.tree, es, 0) && Recoverable(size, es, start, limit))
      && (r.err.Some? ==> r.journal == Some(es))
      && (r.err == Some(Invalid) ==> !Recoverable(size, es, start, limit))
      && (budget > Work(es) ==> (r.err.None? <==> Recoverable(size, es, start, limit)))
  {
    assert AllPaths(es);
    hide Shaped, Describes, Undone, Restored, Separate, Unlinked, Open, PutAllBack;
    NothingUndone(t, es);
    PutAllBackIs(t, start, es, |es|, budget);
    assert es[..|es|] == es;
    var p := PutAllBack(t, es, |es|, budget);
    Ends(p.err);
    if p.err.None? {
      UndoneAll(p.tree, es);
      OpenUnlinked(p.tree, start, es);
    }
  }

  /** What one step of applying comes to. */
  lemma ChangedIs(t: Tree, start: Tree, es: seq<Entry>, k: nat, node: Option<Node>)
    requires Ongoing(t, start, es) && k < |es| && Plain(node)
    ensures es[k].path != []
    ensures var u := Changed(t, es[k].path, node);
      && Ongoing(u, start, es)
      && (Plain(Look(t, es[k].path)) ==> Rewritten(t, u, es[k].path))
      && (!Plain(Look(t, es[k].path)) ==> Opened(t, u, es[k].path))
      && (!Blocked(t, es[k].path) && Plain(Look(t, es[k].path)) ==> Look(u, es[k].path) == node)
  {
    OngoingPath(t, start, es, k);
    hide Shaped, Describes, OnlyListedChanged, Open, Opened, Rewritten, Blocked, Opening;
    var path := es[k].path;
    assert Listed(es, path);
    OpeningIs(t, start, es, path, 1, |path|);
    var o := Opening(t, path, 1, |path|);
    Ends(o.err);
    OpenedRewritten(t, o.tree, path);
    if o.err.None? && Plain(Look(t, path)) {
      ListedChanged(o.tree, Changed(t, path, node), start, es, path);
      RewrittenTwice(t, o.tree, Changed(t, path, node), path);
    }
  }

  lemma OngoingParts(t: Tree, start: Tree, es: seq<Entry>, size: seq<Entry> -> nat, limit: nat, budget: nat)
    requires Ongoing(t, start, es)
    ensures AllPaths(es)
    ensures var r := Recovering(size, t, Some(es), limit, budget); OnlyListedChanged(r.tree, start, es) && Shaped(r.tree)
  {
    RecoveringIs(size, t, start, es, limit, budget);
    hide Recovering;
  }

  class Home {
    var tree: Tree
    var journal: Option<seq<Entry>>
    /** The tree when the journal was written. Not read by the code. */
    ghost var start: Tree
    /** The length of the journal's file. */
    const size: seq<Entry> -> nat

    ghost predicate Valid()
      reads this
    {
      Shaped(tree) && (journal.Some? ==> Ongoing(tree, start, journal.value))
    }

    constructor (tree: Tree, size: seq<Entry> -> nat)
      requires Shaped(tree)
      ensures Valid() && this.tree == tree && journal.None? && this.size == size
    {
      this.tree, journal, start, this.size := tree, None, map[], size;
    }

    /** Creates the missing directories above `path`; refuses when something above it is no directory. */
    method EnsureParent(path: Path, budget: nat) returns (left: nat, err: Option<Failure>)
      requires Valid() && journal.Some? && Listed(journal.value, path) && path != []
      modifies this`tree
      ensures Valid() && left <= budget && Opened(old(tree), tree, path) && err in {None, Some(Invalid), Some(Stopped)}
      ensures Progress(tree, left, err) == Opening(old(tree), path, 1, budget)
      ensures err.None? ==> Open(tree, path)
      ensures err == Some(Invalid) <==> (Blocked(old(tree), path) && err != Some(Stopped))
      ensures budget >= |path| ==> err != Some(Stopped) && left + |path| >= budget
    {
      OpeningIs(tree, start, journal.value, path, 1, budget);
      hide Ongoing, Opened, Blocked, Open;
      left := budget;
      var n := 1;
      while n < |path|
        invariant 1 <= n <= |path| && Opening(tree, path, n, left) == Opening(old(tree), path, 1, budget)
      {
        var current := path[..n];
        if current !in tree {
          if left == 0 {
            return left, Some(Stopped);
          }
          left := left - 1;
          tree := tree[current := Directory];
        } else if !tree[current].Directory? {
          return left, Some(Invalid);
        }
        n := n + 1;
      }
      err := None;
    }

    /** Removes whatever is at the path now, then writes what the entry says. Refuses when something above
        the path is no directory, or when the path itself is one. */
    method RestoreEntry(k: nat, budget: nat) returns (left: nat, err: Option<Failure>)
      requires Valid() && journal.Some? && k < |journal.value|
      modifies this`tree
      ensures Valid() && left <= budget && err in {None, Some(Invalid), Some(Stopped)}
      ensures journal.value[k].path != [] && Progress(tree, left, err) == PutBack(old(tree), journal.value[k], budget)
      ensures Plain(old(Look(tree, journal.value[k].path))) ==> Rewritten(old(tree), tree, journal.value[k].path)
      ensures err.None? ==> Open(tree, journal.value[k].path)
      ensures err.None? ==> Look(tree, journal.value[k].path) == AsWritten(journal.value[k].node)
      ensures err == Some(Invalid) <==>
        err != Some(Stopped) && (Blocked(old(tree), journal.value[k].path) || !Plain(old(Look(tree, journal.value[k].path))))
      ensures budget >= |journal.value[k].path| + 2 ==>
        err != Some(Stopped) && left + |journal.value[k].path| + 2 >= budget
    {
      hide Shaped, Blocked, Open, Opened, Rewritten, Ongoing, AsWritten, Opening, Replacing, Look;
      var entry := journal.value[k];
      OngoingPath(tree, start, journal.value, k);
      PutBackIs(tree, start, journal.value, k, budget);
      OngoingShaped(PutBack(tree, entry, budget).tree, start, journal.value);
      Ends(PutBack(tree, entry, budget).err);
      assert Listed(journal.value, entry.path);
      left, err := EnsureParent(entry.path, budget);
      if err.None? {
        left, err := Replace(entry, left);
      }
    }

    /** The file part of `restoreApplyJournalEntry`. */
    method Replace(entry: Entry, budget: nat) returns (left: nat, err: Option<Failure>)
      requires entry.path != []
      modifies this`tree
      ensures Progress(tree, left, err) == Replacing(old(tree), entry, budget)
    {
      left, err := budget, None;
      if entry.path in tree {
        if tree[entry.path].Directory? {
          return left, Some(Invalid);
        }
        if left == 0 {
          return left, Some(Stopped);
        }
        left := left - 1;
        tree := tree - {entry.path};
      }
      if entry.node.Some? {
        if left == 0 {
          return left, Some(Stopped);
        }
        left := left - 1;
        tree := tree[entry.path := AsWritten(entry.node).value];
      }
    }

    /** Puts every entry back, last one first, and only then removes the journal. With enough steps it
        completes if and only if the journal is recoverable; it is refused otherwise, and then always. When
        it completes, every listed name is as it was recorded; interrupted it can be repeated. */
    method Recover(limit: nat, budget: nat) returns (err: Option<Failure>)
      requires Valid()
      modifies this`tree, this`journal
      ensures Valid()
      ensures old(journal).Some? ==> AllPaths(old(journal).value)
      ensures Recovery(tree, journal, err) == Recovering(size, old(tree), old(journal), limit, budget)
      ensures old(journal).None? ==> err.None? && tree == old(tree) && journal.None?
      ensures old(journal).Some? ==>
        && (err.None? ==> journal.None? && Restored(tree, old(journal).value, 0))
        && (err.Some? ==> journal == old(journal))
        && OnlyListedChanged(tree, start, old(journal).value)
        && (err.None? ==> Recoverable(size, old(journal).value, start, limit))
        && (err == Some(Invalid) ==> !Recoverable(size, old(journal).value, start, limit))
        && (budget > Work(old(journal).value) ==>
              (err.None? <==> Recoverable(size, old(journal).value, start, limit)))
    {
      hide Ongoing, OnlyListedChanged, Restored, Recoverable, PutAllBack, Shaped, AllPaths;
      if journal.None? {
        return None;
      }
      var es := journal.value;
      RecoveringIs(size, tree, start, es, limit, budget);
      OngoingParts(tree, start, es, size, limit, budget);
      if size(es) > limit + SLACK {
        return Some(Invalid);
      }
      var left;
      left, err := RestoreAll(budget);
      if err.Some? {
        return;
      }
      if left == 0 {
        return Some(Stopped);
      }
      journal := None;
      return None;
    }

    /** The loop of `recoverApplyJournal`. */
    method RestoreAll(budget: nat) returns (left: nat, err: Option<Failure>)
      requires Valid() && journal.Some?
      modifies this`tree
      ensures Valid() && AllPaths(journal.value)
      ensures Progress(tree, left, err) == PutAllBack(old(tree), journal.value, |journal.value|, budget)
    {
      var es := journal.value;
      assert AllPaths(es);
      hide Ongoing, PutBack, PutAllBack, Rewritten, Open, Blocked, Shaped, AllPaths;
      var index: nat := |es|;
      left := budget;
      while index > 0
        invariant index <= |es| && journal == Some(es) && Valid()
        invariant PutAllBack(tree, es, index, left) == PutAllBack(old(tree), es, |es|, budget)
      {
        PutLastBack(tree, es, index, left);
        index := index - 1;
        left, err := RestoreEntry(index, left);
        if err.Some? {
          return;
        }
      }
      NothingLeft(tree, es, left);
      err := None;
    }

    /** One step of applying: missing directories are made, then a listed name becomes anything but a
        directory. Below a link the change lands elsewhere. */
    method Touch(k: nat, node: Option<Node>)
      requires Valid() && journal.Some? && k < |journal.value| && Plain(node)
      modifies this`tree
      ensures Valid()
      ensures journal.value[k].path != [] && tree == Changed(old(tree), journal.value[k].path, node)
      ensures !Blocked(old(tree), journal.value[k].path) && Plain(old(Look(tree, journal.value[k].path))) ==>
        Look(tree, journal.value[k].path) == node
    {
      ChangedIs(tree, start, journal.value, k, node);
      hide Blocked, Open, Opened, Rewritten, Ongoing;
      var path := journal.value[k].path;
      assert Listed(journal.value, path);
      var left, err := EnsureParent(path, |path|);
      if err.Some? || (path in tree && tree[path].Directory?) {
        return;
      }
      tree := if node.Some? then tree[path := node.value] else tree - {path};
    }

    /** Everything was applied: removing the journal makes it final. */
    method Finish()
      requires Valid()
      modifies this`journal
      ensures Valid() && journal.None?
    {
      journal := None;
    }

    /** Records every name before anything is applied, sorted and without repetition. Refuses unsafe names,
        directories, absolute links, names below a file, and more content than the limit. A journal that is
        there already is overwritten unseen. */
    method Begin(names: seq<string>, beyond: Path -> Seen, limit: nat, budget: nat)
      returns (err: Option<Failure>, ghost list: seq<string>)
      requires Valid()
      modifies this`journal, this`start
      ensures Valid() && Increasing(list) && (forall x :: x in list <==> x in names)
      ensures err == Some(Invalid) <==> !Accepted(tree, list, beyond, limit)
      ensures budget > 0 ==> err != Some(Stopped)
      ensures err.Some? ==> journal == old(journal) && start == old(start)
      ensures err.None? ==> start == tree && journal == Some(EntriesOf(tree, list, beyond))
    {
      var sorted := SortStrings(names);
      var distinct := DeduplicatePaths(sorted);
      list := distinct;
      forall x ensures x in list <==> x in names {
        assert x in sorted <==> x in multiset(sorted);
        assert x in names <==> x in multiset(names);
      }
      var ok, entries := RecordAll(tree, distinct, beyond, limit);
      if !ok {
        return Some(Invalid), list;
      }
      if budget == 0 {
        return Some(Stopped), list;
      }
      Begun(tree, distinct, beyond);
      journal, start := Some(entries), tree;
      return None, list;
    }
  }

  lemma WrittenPlain(start: Tree, es: seq<Entry>, k: nat)
    requires Describes(es, start) && k < |es|
    ensures Plain(AsWritten(es[k].node)) && (AsWritten(es[k].node).None? <==> es[k].node.None?)
  {
  }

  lemma StillOpen(t: Tree, u: Tree, path: Path)
    requires Opened(t, u, path) && Open(u, path)
    ensures !Blocked(t, path)
  {
    forall n | 0 < n < |path| ensures !IsLink(Look(t, path[..n])) && !IsFile(Look(t, path[..n])) {
      assert Look(u, path[..n]) == Some(Directory);
    }
  }

  // ----- recording -----

  /** A clean relative name. */
  predicate SafeName(name: string) {
    var p := Split(name, '/');
    |name| <= 512 && Named(p) && "." !in p && ".." !in p && '\0' !in name
  }

  function Observe(t: Tree, name: string, beyond: Path -> Seen): Seen { See(t, Split(name, '/'), 1, beyond) }

  function Bytes(n: Option<Node>): nat { if IsFile(n) then |n.value.content| else 0 }

  /** The size of the listed files. */
  function Total(t: Tree, list: seq<string>, beyond: Path -> Seen): nat {
    if list == [] then 0
    else Total(t, list[..|list| - 1], beyond) + Bytes(Recorded(Observe(t, list[|list| - 1], beyond)))
  }

  ghost predicate Accepted(t: Tree, list: seq<string>, beyond: Path -> Seen, limit: nat) {
    && limit > 0
    && (forall i :: 0 <= i < |list| ==> SafeName(list[i]) && Acceptable(Observe(t, list[i], beyond)))
    && Total(t, list, beyond) <= limit
  }

  function EntryOf(t: Tree, name: string, beyond: Path -> Seen): Entry {
    Entry(Split(name, '/'), Recorded(Observe(t, name, beyond)))
  }

  function EntriesOf(t: Tree, list: seq<string>, beyond: Path -> Seen): seq<Entry> {
    seq(|list|, i requires 0 <= i < |list| => EntryOf(t, list[i], beyond))
  }

  method RecordAll(t: Tree, list: seq<string>, beyond: Path -> Seen, limit: nat) returns (ok: bool, entries: seq<Entry>)
    ensures ok <==> Accepted(t, list, beyond, limit)
    ensures ok ==> entries == EntriesOf(t, list, beyond)
  {
    hide See, Restorable, Split, SafeName;
    entries := [];
    if limit == 0 {
      return false, entries;
    }
    var total := 0;
    for i := 0 to |list|
      invariant |entries| == i && total == Total(t, list[..i], beyond) <= limit
      invariant forall k :: 0 <= k < i ==>
        entries[k] == EntryOf(t, list[k], beyond) && SafeName(list[k]) && Acceptable(Observe(t, list[k], beyond))
    {
      assert list[..i + 1][..i] == list[..i];
      TotalGrows(t, list, beyond, i + 1);
      if !SafeName(list[i]) {
        return false, entries;
      }
      var seen := Observe(t, list[i], beyond);
      AcceptableIs(seen);
      if seen.Denied? || (seen.Present? && (seen.node.Directory? || Absolute(seen.node))) {
        return false, entries;
      }
      if seen.Present? && seen.node.File? {
        if |seen.node.content| > limit - total {
          return false, entries;
        }
        total := total + |seen.node.content|;
      }
      entries := entries + [EntryOf(t, list[i], beyond)];
    }
    assert list[..|list|] == list;
    ok := true;
  }

  lemma AcceptableIs(s: Seen)
    ensures Acceptable(s) <==> !s.Denied? && (s.Present? ==> !s.node.Directory? && !Absolute(s.node))
  {
  }

  lemma {:induction false} TotalGrows(t: Tree, list: seq<string>, beyond: Path -> Seen, n: nat)
    requires n <= |list|
    ensures Total(t, list[..n], beyond) <= Total(t, list, beyond)
    decreases |list| - n
  {
    if n < |list| {
      assert list[..n + 1][..n] == list[..n];
      TotalGrows(t, list, beyond, n + 1);
    } else {
      assert list[..n] == list;
    }
  }

  /** What `Begin` records describes the tree, in an order that never puts a name above an earlier one. */
  lemma Begun(t: Tree, list: seq<string>, beyond: Path -> Seen)
    requires Shaped(t) && Increasing(list)
    requires forall i :: 0 <= i < |list| ==> SafeName(list[i]) && Acceptable(Observe(t, list[i], beyond))
    ensures var es := EntriesOf(t, list, beyond); Ordered(es) && Describes(es, t) && OnlyListedChanged(t, t, es)
  {
    hide See;
    var es := EntriesOf(t, list, beyond);
    forall i, j | 0 <= i < j < |es| ensures es[i].path != es[j].path && !Ancestor(es[j].path, es[i].path) {
      LaterNotAbove(list[i], list[j]);
    }
    forall i | 0 <= i < |es| ensures
      && !FileAbove(t, es[i].path) && (LinkAbove(t, es[i].path) || es[i].node == Look(t, es[i].path))
    {
      SeenIsThere(t, es[i].path, 1, beyond);
    }
    forall i | 0 <= i < |es| && !Leads(es, es[i].path) ensures Plain(Look(t, es[i].path)) {
      if es[i].path in t { PresentPlain(t, es[i].path, 1, beyond); }
    }
    forall p ensures MayDiffer(t, t, es, p) { }
  }

  /** A name that is in the tree is what is seen. */
  lemma {:induction false} PresentPlain(t: Tree, p: Path, n: nat, beyond: Path -> Seen)
    requires Shaped(t) && p in t && 0 < n <= |p|
    ensures See(t, p, n, beyond) == Present(t[p])
    decreases |p| - n
  {
    if n == |p| {
      assert p[..n] == p;
    } else {
      ShapedAbove(t, p, n);
      PresentPlain(t, p, n + 1, beyond);
    }
  }

  lemma LaterNotAbove(a: string, b: string)
    requires Less(a, b) && SafeName(a) && SafeName(b)
    ensures Split(a, '/') != Split(b, '/') && !Ancestor(Split(b, '/'), Split(a, '/'))
  {
    JoinSplit(a);
    JoinSplit(b);
    LessTotal(a, b);
    InsideIsPrefix(Split(b, '/'), Split(a, '/'));
    if Inside(a, b) { PrefixLess(a, b); }
  }

  // ----- journals that cannot be undone -----

  /** Content is written in base 64. */
  function Base64(n: nat): nat { 4 * ((n + 2) / 3) }

  /** The least an entry takes: braces, field names, the name and the content. */
  function EntryFloor(e: Entry): nat { 26 + (if e.path == [] then 0 else |Join(e.path)|) + Base64(Bytes(e.node)) }

  function Floor(es: seq<Entry>): nat {
    if es == [] then 0 else EntryFloor(es[0]) + Floor(es[1..])
  }

  ghost predicate Realistic(size: seq<Entry> -> nat) { forall es :: size(es) >= Floor(es) }

  /** However the journal is laid out: for every limit above 3 MiB a file of that size is accepted, and its
      journal is refused when it should be undone. */
  lemma LargeFileRefused(size: seq<Entry> -> nat, content: seq<byte>, limit: nat, beyond: Path -> Seen)
    requires Realistic(size) && |content| == limit > 3 * SLACK
    ensures var t := map[["a"] := File(0x1A4, content)];
      && Shaped(t) && Accepted(t, ["a"], beyond, limit)
      && !Recoverable(size, EntriesOf(t, ["a"], beyond), t, limit)
  {
    var t: Tree := map[["a"] := File(0x1A4, content)];
    var es := EntriesOf(t, ["a"], beyond);
    OneName(t, "a", beyond);
    assert es[0].node == Some(File(0x1A4, content));
    assert Floor(es) >= EntryFloor(es[0]) >= Base64(limit);
  }

  /** A name of one component is looked up directly. */
  lemma OneName(t: Tree, name: string, beyond: Path -> Seen)
    requires Component(name)
    ensures Split(name, '/') == [name] && Observe(t, name, beyond) == if [name] in t then Present(t[[name]]) else Absent
    ensures Total(t, [name], beyond) == Bytes(Look(t, [name]))
  {
    NoSeparator(name, '/');
    assert [name][..1] == [name];
    assert [name][..0] == [];
  }

  /** Whatever the tree: a name below a link is recorded as what lies behind the link, but never put back. */
  lemma LinkedNameRefused(size: seq<Entry> -> nat, t: Tree, name: string, beyond: Path -> Seen, limit: nat)
    requires Shaped(t) && SafeName(name) && LinkAbove(t, Split(name, '/')) && Acceptable(beyond(Split(name, '/')))
    requires Bytes(Recorded(beyond(Split(name, '/')))) <= limit && limit > 0
    ensures Accepted(t, [name], beyond, limit)
    ensures EntriesOf(t, [name], beyond) == [Entry(Split(name, '/'), Recorded(beyond(Split(name, '/'))))]
    ensures !Recoverable(size, EntriesOf(t, [name], beyond), t, limit)
  {
    var p := Split(name, '/');
    SeenBeyond(t, p, 1, beyond);
    assert [name][..0] == [];
    assert EntriesOf(t, [name], beyond)[0].path == p;
  }

  lemma {:induction false} SeenBeyond(t: Tree, p: Path, n: nat, beyond: Path -> Seen)
    requires Shaped(t) && 0 < n <= |p| && exists k :: n <= k < |p| && IsLink(Look(t, p[..k]))
    ensures See(t, p, n, beyond) == beyond(p)
    decreases |p| - n
  {
    if !IsLink(Look(t, p[..n])) {
      var k :| n <= k < |p| && IsLink(Look(t, p[..k]));
      assert p[..k][..n] == p[..n];
      ShapedAbove(t, p[..k], n);
      SeenBeyond(t, p, n + 1, beyond);
    }
  }

  /** The smallest such case: `a` is a link and `a/b` is listed. */
  lemma LinkedNameExample(size: seq<Entry> -> nat, limit: nat)
    requires limit > 0
    ensures var t := map[["a"] := Link("c")];
      && Shaped(t) && Accepted(t, ["a/b"], _ => Absent, limit)
      && !Recoverable(size, EntriesOf(t, ["a/b"], _ => Absent), t, limit)
  {
    hide Split, See;
    var t: Tree := map[["a"] := Link("c")];
    var p: Path := ["a", "b"];
    assert p[1..] == ["b"] && Join(p) == "a/b" && p[..1] == ["a"];
    assert Component("a") && Component("b");
    SplitJoin(p);
    LinkedNameRefused(size, t, "a/b", _ => Absent, limit);
  }

  /** Of two accepted names, one inside the other, the outer one is missing or a link. */
  lemma NestedNames(t: Tree, list: seq<string>, beyond: Path -> Seen, limit: nat, i: nat, j: nat)
    requires Shaped(t) && Accepted(t, list, beyond, limit) && i < |list| && j < |list| && Inside(list[j], list[i])
    ensures Split(list[i], '/') !in t || t[Split(list[i], '/')].Link?
    ensures !Separate(EntriesOf(t, list, beyond))
  {
    var a, b := Split(list[i], '/'), Split(list[j], '/');
    JoinSplit(list[i]);
    JoinSplit(list[j]);
    InsideIsPrefix(a, b);
    var es := EntriesOf(t, list, beyond);
    assert es[i].path == a && es[j].path == b && Ancestor(a, b);
    if a in t {
      PresentPlain(t, a, 1, beyond);
      if t[a].File? {
        assert IsFile(Look(t, b[..|a|]));
        SeenIsThere(t, b, 1, beyond);
        assert false;
      }
    }
  }

  /** Missing names, one inside the other, are recorded but never put back. */
  lemma NestedNamesRefused(size: seq<Entry> -> nat, limit: nat, beyond: Path -> Seen)
    requires limit > 0
    ensures Accepted(map[], ["a", "a/b"], beyond, limit)
    ensures !Recoverable(size, EntriesOf(map[], ["a", "a/b"], beyond), map[], limit)
  {
    hide Split, Floor;
    OneName(map[], "a", beyond);
    var p: Path := ["a", "b"];
    assert p[1..] == ["b"] && Join(p) == "a/b";
    assert Component("a") && Component("b");
    SplitJoin(p);
    assert ["a", "a/b"][..1] == ["a"];
    NestedNames(map[], ["a", "a/b"], beyond, limit, 0, 1);
  }

  /** After a complete recovery the listed names are as they were before anything was applied, apart from
      set-id and sticky bits; exactly so if and only if no recorded file had such a bit. Elsewhere there are
      at most new directories that lead to listed names. */
  lemma PlainMode(n: Option<Node>)
    ensures AsWritten(n) == n <==> (IsFile(n) ==> n.value.mode < 0x200)
  {
  }

  lemma AllBack(t: Tree, start: Tree, es: seq<Entry>)
    requires Describes(es, start) && OnlyListedChanged(t, start, es) && Separate(es) && Unlinked(es, start)
    requires Restored(t, es, 0)
    ensures forall p :: Listed(es, p) ==> Look(t, p) == AsWritten(Look(start, p))
    ensures forall p :: !Listed(es, p) && Look(t, p) != Look(start, p) ==>
      Leads(es, p) && p !in start && Look(t, p) == Some(Directory)
    ensures (forall p :: Listed(es, p) ==> Look(t, p) == Look(start, p)) <==>
      forall i :: 0 <= i < |es| && IsFile(es[i].node) ==> es[i].node.value.mode < 0x200
  {
    hide AsWritten, LinkAbove, FileAbove;
    forall p | Listed(es, p) ensures Look(t, p) == AsWritten(Look(start, p)) {
      var i :| 0 <= i < |es| && es[i].path == p;
      assert !LinkAbove(start, es[i].path);
    }
    forall p | !Listed(es, p) && Look(t, p) != Look(start, p)
      ensures Leads(es, p) && p !in start && Look(t, p) == Some(Directory)
    {
      assert MayDiffer(t, start, es, p);
    }
    forall i | 0 <= i < |es|
      ensures Look(t, es[i].path) == Look(start, es[i].path) <==> (IsFile(es[i].node) ==> es[i].node.value.mode < 0x200)
    {
      assert !LinkAbove(start, es[i].path) && Listed(es, es[i].path);
      PlainMode(es[i].node);
    }
    assert forall i :: 0 <= i < |es| ==> Listed(es, es[i].path);
  }

  // ----- what is accepted -----

  lemma {:induction false} NotDenied(t: Tree, p: Path, n: nat, beyond: Path -> Seen)
    requires 0 < n <= |p| && !LinkAbove(t, p) && !FileAbove(t, p)
    ensures !See(t, p, n, beyond).Denied?
    decreases |p| - n
  {
    if n < |p| {
      assert !IsLink(Look(t, p[..n])) && !IsFile(Look(t, p[..n]));
      NotDenied(t, p, n + 1, beyond);
    }
  }

  /** The content that the tree holds under the listed names. */
  function Content(t: Tree, list: seq<string>): nat {
    if list == [] then 0 else Content(t, list[..|list| - 1]) + Bytes(Look(t, Split(list[|list| - 1], '/')))
  }

  ghost predicate Linkless(t: Tree, list: seq<string>) {
    forall i :: 0 <= i < |list| ==> !LinkAbove(t, Split(list[i], '/'))
  }

  /** What is there under a listed name can be recorded: nothing, a file, or a relative link, and no file above it. */
  ghost predicate CanRecord(t: Tree, name: string) {
    var p := Split(name, '/');
    && !FileAbove(t, p) && Look(t, p) != Some(Directory)
    && (IsLink(Look(t, p)) ==> Look(t, p).value.target[0] != '/')
  }

  lemma ObservedThere(t: Tree, name: string, beyond: Path -> Seen)
    requires Shaped(t) && !LinkAbove(t, Split(name, '/'))
    ensures Acceptable(Observe(t, name, beyond)) <==> CanRecord(t, name)
    ensures CanRecord(t, name) ==> Recorded(Observe(t, name, beyond)) == Look(t, Split(name, '/'))
  {
    var p := Split(name, '/');
    SeenIsThere(t, p, 1, beyond);
    if !FileAbove(t, p) { NotDenied(t, p, 1, beyond); }
    hide See, LinkAbove, FileAbove, Split, Shaped;
  }

  lemma {:induction false} TotalIsContent(t: Tree, list: seq<string>, beyond: Path -> Seen)
    requires Shaped(t) && Linkless(t, list) && forall i :: 0 <= i < |list| ==> CanRecord(t, list[i])
    ensures Total(t, list, beyond) == Content(t, list)
    decreases |list|
  {
    hide Observe, CanRecord, LinkAbove, Split, Shaped;
    if list != [] {
      var n := |list| - 1;
      ObservedThere(t, list[n], beyond);
      TotalIsContent(t, list[..n], beyond);
    }
  }

  /** Where no link is above a listed name: a list is accepted exactly if every name is safe, under every name there is
      nothing, a file or a relative link, nowhere a file above one, and the files together are within the limit. */
  lemma AcceptedExactly(t: Tree, list: seq<string>, beyond: Path -> Seen, limit: nat)
    requires Shaped(t) && Linkless(t, list)
    ensures Accepted(t, list, beyond, limit) <==>
      && limit > 0 && Content(t, list) <= limit
      && forall i :: 0 <= i < |list| ==> SafeName(list[i]) && CanRecord(t, list[i])
  {
    hide Observe, CanRecord, LinkAbove, Split, Shaped, SafeName, Total, Content;
    forall i | 0 <= i < |list| ensures Acceptable(Observe(t, list[i], beyond)) <==> CanRecord(t, list[i]) {
      ObservedThere(t, list[i], beyond);
    }
    if forall i :: 0 <= i < |list| ==> CanRecord(t, list[i]) { TotalIsContent(t, list, beyond); }
  }
}
