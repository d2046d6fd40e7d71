/** Attempt after attempt, with stops in between (internal/configsync/publisher.go,
    workspace_reconciler.go): what a machine has stored was the head of the remote.
 */
module PublicationHistory {
  import opened Basics
  import opened Workspace
  import opened Publisher

  /** The stored baseline and every acknowledged commit were reported as the head of the remote in `t`. */
  ghost predicate Grounded(s: Store, t: Trace) {
    && Coherent(s)
    && (s.baseline.Some? ==> Observed(t, |t|, s.baseline.value.revision))
    && (forall a :: a in s.acknowledged ==> Observed(t, |t|, a.1))
  }

  lemma ObservedLater(t: Trace, said: Said, revision: string)
    requires Observed(t, |t|, revision)
    ensures Observed(t + [said], |t| + 1, revision)
  {
    ObservedGrows(t, [said], |t|, revision);
  }

  lemma SettleGrounded(s: Store, value: Baseline, resolutions: seq<string>, commit: string, remove: bool, budget: nat, t: Trace)
    requires Grounded(s, t) && value.revision == commit && Observed(t, |t|, commit)
    ensures Grounded(Settle(s, value, resolutions, commit, remove, budget).store, t)
  {
    hide Observed;
  }

  lemma RecoveredGrounded(s: Store, remote: string, budget: nat, t: Trace)
    requires Grounded(s, t) && Observed(t, |t|, remote)
    ensures Grounded(Recovered(s, remote, budget).store, t)
  {
    hide Observed;
    if s.commitFile.Some? {
      var c := s.commitFile.value;
      if c.commit == remote { SettleGrounded(s, c.baseline, c.resolutions, c.commit, true, budget, t); }
    }
  }

  lemma ConfirmedGrounded(s: Store, commit: string, revision: string, budget: nat, t: Trace)
    requires Grounded(s, t) && Observed(t, |t|, revision)
    ensures Grounded(Confirmed(s, commit, revision, budget).store, t)
  {
    hide Observed;
    if Pends(s, commit) && revision == commit {
      var p := s.pending.value;
      if p.resolutions == [] {
        SettleGrounded(s, p.value, [], revision, false, budget, t);
      } else if budget > 0 {
        SettleGrounded(s.(commitFile := Announcement(p, revision)), p.value, p.resolutions, revision, true, budget - 1, t);
      }
    }
  }

  /** One call keeps it, if the revisions it names were reported before. */
  lemma StepGrounded(s: Store, t: Trace, said: Said)
    requires Grounded(s, t)
    requires said.call.Committed? || said.call.Reconcile? ==> Observed(t, |t|, said.call.revision)
    ensures Grounded(StoreAfter(s, said), t + [said])
  {
    var u, w := StoreAfter(s, said), said.reply.work;
    assert Grounded(u, t) by {
      hide Observed, Settle;
      match said.call
      case Reconcile(revision) => RecoveredGrounded(s, revision, w.budget, t);
      case Committed(prepared, revision) => ConfirmedGrounded(s, prepared.commit, revision, w.budget, t);
      case _ =>
    }
    GroundedLater(u, t, said);
  }

  lemma GroundedLater(s: Store, t: Trace, said: Said)
    requires Grounded(s, t)
    ensures Grounded(s, t + [said])
  {
    if s.baseline.Some? { ObservedLater(t, said, s.baseline.value.revision); }
    forall a | a in s.acknowledged ensures Observed(t + [said], |t| + 1, a.1) { ObservedLater(t, said, a.1); }
  }

  lemma ObservedInside(g: Trace, t: Trace, n: nat, revision: string)
    requires n <= |t| && Observed(t, n, revision)
    ensures Observed(g + t[..n], |g + t[..n]|, revision)
  {
    var u := g + t[..n];
    assert forall i :: 0 <= i < n ==> u[|g| + i] == t[i];
  }

  /** What an attempt has said when it is stopped, or at its end. */
  ghost predicate Attempt(t: Trace) { exists u, margin :: t <= u && Disciplined(u, margin) }

  lemma {:induction false} AttemptGrounded(s: Store, g: Trace, u: Trace, margin: int, n: nat)
    requires Grounded(s, g) && Disciplined(u, margin) && n <= |u|
    ensures Grounded(Replayed(s, u[..n]), g + u[..n])
    decreases n
  {
    hide Grounded, StoreAfter, Observed;
    if n == 0 {
      assert g + u[..0] == g;
    } else {
      AttemptGrounded(s, g, u, margin, n - 1);
      var said := u[n - 1];
      assert u[..n] == u[..n - 1] + [said] && g + u[..n] == g + u[..n - 1] + [said];
      if said.call.Committed? || said.call.Reconcile? { ObservedInside(g, u, n - 1, said.call.revision); }
      hide Disciplined;
      ReplayedOne(s, u[..n - 1], said);
      StepGrounded(Replayed(s, u[..n - 1]), g + u[..n - 1], said);
    }
  }

  /** An attempt, after a restart or not. */
  datatype Episode = Episode(trace: Trace, restart: bool)

  function Whole(es: seq<Episode>): Trace {
    if es == [] then [] else Whole(es[..|es| - 1]) + es[|es| - 1].trace
  }

  function Across(s: Store, es: seq<Episode>): Store {
    if es == [] then s
    else
      var e, u := es[|es| - 1], Across(s, es[..|es| - 1]);
      Replayed(if e.restart then Restarted(u) else u, e.trace)
  }

  const EMPTY := Store(None, None, None, {})

  /** Over every sequence of attempts, each stopped anywhere or run to its end, in one process or several:
      the revision of the stored baseline, and every commit that resolutions were acknowledged with, was
      reported as the head of the remote before. */
  lemma {:induction false} StoredWasHead(es: seq<Episode>)
    requires forall i :: 0 <= i < |es| ==> Attempt(es[i].trace)
    ensures Grounded(Across(EMPTY, es), Whole(es))
    decreases |es|
  {
    if es != [] {
      var n := |es| - 1;
      StoredWasHead(es[..n]);
      var e, before := es[n], Across(EMPTY, es[..n]);
      var s := if e.restart then Restarted(before) else before;
      var u, margin :| e.trace <= u && Disciplined(u, margin);
      assert e.trace == u[..|e.trace|];
      AttemptGrounded(s, Whole(es[..n]), u, margin, |e.trace|);
    }
  }

  /** The traces one after the other. */
  function Joined(traces: seq<Trace>): Trace {
    if traces == [] then [] else Joined(traces[..|traces| - 1]) + traces[|traces| - 1]
  }

  lemma JoinedOne(before: Trace, traces: seq<Trace>, t: Trace)
    ensures before + Joined(traces + [t]) == before + Joined(traces) + t
  {
    assert (traces + [t])[..|traces|] == traces;
  }

  lemma GroundedCoherent(s: Store, t: Trace)
    requires Grounded(s, t)
    ensures Coherent(s)
  {
    hide Observed;
  }

  /** One attempt of the running code. */
  method SyncOnce(workspace: Reconciler, answer: (Trace, Call) -> Reply, margin: int, ghost before: Trace)
    returns (ghost t: Trace, r: Result, err: Option<Error>)
    requires Grounded(workspace.State(), before)
    modifies workspace
    ensures Answered(t, answer) && Grounded(workspace.State(), before + t) && Concluded(t, r, err, margin)
    ensures err.None? ==> workspace.baseline.Some? && workspace.baseline.value.revision == r.revision
  {
    hide Grounded, Disciplined, Answered, Replayed, Concluded, Honest, Released;
    GroundedCoherent(workspace.State(), before);
    ghost var s := workspace.State();
    var x := new Exchange(answer, workspace);
    r, err := Sync(x, margin);
    t := x.trace;
    AttemptGrounded(s, before, t, margin, |t|);
    assert t[..|t|] == t;
  }

  ghost predicate AllAnswered(traces: seq<Trace>, answers: seq<(Trace, Call) -> Reply>) {
    |traces| <= |answers| && forall i :: 0 <= i < |traces| ==> Answered(traces[i], answers[i])
  }

  lemma NoneJoined(before: Trace)
    ensures before + Joined([]) == before
  {
  }

  lemma OneMoreAnswered(traces: seq<Trace>, answers: seq<(Trace, Call) -> Reply>, t: Trace)
    requires AllAnswered(traces, answers) && |traces| < |answers| && Answered(t, answers[|traces|])
    ensures AllAnswered(traces + [t], answers)
  {
    hide Answered;
  }

  /** The same for the running code: however often it synchronises, and whatever it is answered. `before` is
      what was said before, and `traces` what is said in each attempt. */
  method SyncAgain(workspace: Reconciler, answers: seq<(Trace, Call) -> Reply>, margin: int, ghost before: Trace)
    returns (ghost traces: seq<Trace>)
    requires Grounded(workspace.State(), before)
    modifies workspace
    ensures |traces| == |answers| && AllAnswered(traces, answers)
    ensures Grounded(workspace.State(), before + Joined(traces))
  {
    hide Grounded, Answered, Joined, Concluded;
    traces := [];
    NoneJoined(before);
    for i := 0 to |answers|
      invariant |traces| == i && AllAnswered(traces, answers)
      invariant Grounded(workspace.State(), before + Joined(traces))
    {
      ghost var t;
      var r, err;
      t, r, err := SyncOnce(workspace, answers[i], margin, before + Joined(traces));
      JoinedOne(before, traces, t);
      OneMoreAnswered(traces, answers, t);
      hide AllAnswered;
      traces := traces + [t];
    }
  }
}
