/** What a machine records about its publications (internal/configsync/workspace_reconciler.go).

    Each durable operation uses up one unit of a budget; when none is left it fails, or the process
    stops. So the state after every possible interruption is the state after some budget.
 */
module Workspace {
  import opened Basics
  import opened Reconcile

  datatype Baseline = Baseline(revision: string, files: Files)

  datatype Pending = Pending(commit: string, value: Baseline, resolutions: seq<string>)

  /** The resolution-commit file. */
  datatype ResolutionCommit = ResolutionCommit(commit: string, baseline: Baseline, resolutions: seq<string>)

  datatype Prepared = Prepared(expected: string, commit: string, changes: bool)

  datatype Failure = BaselineInvalid | SyncUncertain | Stopped | Refused

  /** How the surroundings answer a reconciliation: whether planning and applying succeed, whether there is
      anything to publish and as which commit, the accepted files and the resolutions that were used. */
  datatype Work = Work(ok: bool, changes: bool, commit: string, files: Files, resolutions: seq<string>, budget: nat)

  /** `pending` is in memory, `acknowledged` at the control plane, with the commit that carried each
      resolution; the rest is on disk. */
  datatype Store = Store(pending: Option<Pending>, baseline: Option<Baseline>, commitFile: Option<ResolutionCommit>,
                         acknowledged: set<(string, string)>)

  datatype Outcome = Outcome(store: Store, err: Option<Failure>)

  // ----- the operations -----

  /** The first `n` resolutions are acknowledged. */
  function Acknowledge(done: set<(string, string)>, resolutions: seq<string>, commit: string, n: nat): set<(string, string)> {
    done + set k | 0 <= k < n && k < |resolutions| :: (resolutions[k], commit)
  }

  /** Writes the baseline, acknowledges, and removes the commit file if there were resolutions. */
  function Settle(s: Store, value: Baseline, resolutions: seq<string>, commit: string, remove: bool, budget: nat): Outcome {
    if budget == 0 then Outcome(s, Some(Stopped))
    else
      var n := budget - 1;
      var t := s.(baseline := Some(value), acknowledged := Acknowledge(s.acknowledged, resolutions, commit, n));
      if n < |resolutions| || (remove && n == |resolutions|) then Outcome(t, Some(Stopped))
      else Outcome(if remove then t.(commitFile := None) else t, None)
  }

  /** `recoverResolutionCommit`. */
  function Recovered(s: Store, remote: string, budget: nat): Outcome {
    if s.commitFile.None? then Outcome(s, None)
    else
      var c := s.commitFile.value;
      if c.baseline.revision != c.commit then Outcome(s, Some(BaselineInvalid))
      else if remote != c.commit then Outcome(s, Some(SyncUncertain))
      else Settle(s, c.baseline, c.resolutions, c.commit, true, budget)
  }

  /** `Reconcile`: finishes an interrupted publication, then prepares the next one. */
  function Reconciled(s: Store, remote: string, w: Work): (Outcome, Option<Prepared>) {
    var r := Recovered(s, remote, w.budget);
    if r.err.Some? then (r, None)
    else if !w.ok || remote == "" then (Outcome(r.store.(pending := None), Some(Refused)), None)
    else
      var commit := if w.changes then w.commit else remote;
      (Outcome(r.store.(pending := Some(Pending(commit, Baseline(commit, w.files), w.resolutions))), None),
       Some(Prepared(remote, commit, w.changes)))
  }

  predicate Pends(s: Store, commit: string) { s.pending.Some? && commit != "" && s.pending.value.commit == commit }

  function Announcement(p: Pending, commit: string): Option<ResolutionCommit> {
    Some(ResolutionCommit(commit, p.value, p.resolutions))
  }

  /** `PublicationPrepared`. */
  function Announced(s: Store, commit: string, budget: nat): Outcome {
    if !Pends(s, commit) then Outcome(s, Some(BaselineInvalid))
    else if s.pending.value.resolutions == [] then Outcome(s, None)
    else if budget == 0 then Outcome(s, Some(Stopped))
    else Outcome(s.(commitFile := Announcement(s.pending.value, commit)), None)
  }

  /** `PublicationCommitted`. */
  function Confirmed(s: Store, commit: string, revision: string, budget: nat): Outcome {
    if !Pends(s, commit) || revision != commit then Outcome(s, Some(BaselineInvalid))
    else
      var p := s.pending.value;
      if p.resolutions == [] then Close(Settle(s, p.value, [], revision, false, budget))
      else if budget == 0 then Outcome(s, Some(Stopped))
      else Close(Settle(s.(commitFile := Announcement(p, revision)), p.value, p.resolutions, revision, true, budget - 1))
  }

  /** Success makes the pending baseline final. */
  function Close(o: Outcome): Outcome { if o.err.None? then o.(store := o.store.(pending := None)) else o }

  /** `PublicationAborted`. */
  function Aborted(s: Store, commit: string, budget: nat): Outcome {
    if s.commitFile.None? then Outcome(s, None)
    else if s.commitFile.value.commit != commit then Outcome(s, Some(BaselineInvalid))
    else if budget == 0 then Outcome(s, Some(Stopped))
    else Outcome(s.(commitFile := None), None)
  }

  // ----- what they promise -----

  /** A baseline carries the revision of its commit. */
  predicate Coherent(s: Store) {
    && (s.pending.Some? ==> s.pending.value.value.revision == s.pending.value.commit)
    && (s.commitFile.Some? ==> s.commitFile.value.baseline.revision == s.commitFile.value.commit)
  }

  /** Nothing is acknowledged before the baseline stands that carries it. */
  lemma BaselineFirst(s: Store, commit: string, revision: string, budget: nat)
    ensures var r := Confirmed(s, commit, revision, budget);
      && (r.store.acknowledged != s.acknowledged ==> s.pending.Some? && r.store.baseline == Some(s.pending.value.value))
      && (r.err.None? ==> forall x :: x in s.pending.value.resolutions ==> (x, revision) in r.store.acknowledged)
  {
    var r := Confirmed(s, commit, revision, budget);
    if r.err.None? {
      var rs := s.pending.value.resolutions;
      forall x | x in rs ensures (x, revision) in r.store.acknowledged {
        var k :| 0 <= k < |rs| && rs[k] == x;
      }
    }
  }

  /** The operations that recording a publication takes: the baseline and, with resolutions, the commit file, the
      acknowledgements and the removal of the commit file. */
  function Operations(resolutions: seq<string>): nat { if resolutions == [] then 1 else |resolutions| + 3 }

  /** A landed publication is recorded exactly if it is the pending one, its commit is the head, and no operation
      fails. Then the stored baseline is the pending one, nothing is pending, all resolutions are acknowledged with
      that commit and nothing else is, and no commit file is left if there were resolutions. Otherwise it stays
      pending, and a publication that does not match changes nothing. */
  lemma ConfirmedExactly(s: Store, commit: string, revision: string, budget: nat)
    ensures var r, matches := Confirmed(s, commit, revision, budget),
                              s.pending.Some? && commit != "" && s.pending.value.commit == commit == revision;
      && (r.err.None? <==> matches && budget >= Operations(s.pending.value.resolutions))
      && (r.err.None? ==>
            && r.store.baseline == Some(s.pending.value.value) && r.store.pending.None?
            && r.store.commitFile == (if s.pending.value.resolutions == [] then s.commitFile else None)
            && r.store.acknowledged == s.acknowledged + set x | x in s.pending.value.resolutions :: (x, revision))
      && (r.err.Some? ==> r.store.pending == s.pending)
      && (!matches ==> r == Outcome(s, Some(BaselineInvalid)))
  {
    if s.pending.Some? {
      AcknowledgedAll(s.acknowledged, s.pending.value.resolutions, revision, budget);
    }
  }

  lemma AcknowledgedAll(done: set<(string, string)>, resolutions: seq<string>, commit: string, n: nat)
    ensures n >= |resolutions| ==>
      Acknowledge(done, resolutions, commit, n) == done + set x | x in resolutions :: (x, commit)
    ensures n >= |resolutions| + 2 ==> Acknowledge(done, resolutions, commit, n - 2) == Acknowledge(done, resolutions, commit, n)
    ensures resolutions == [] ==> Acknowledge(done, resolutions, commit, n) == done
  {
  }

  /** A publication is announced exactly if it is the pending one and its commit file, needed only for resolutions,
      is written. That file then holds all that a later start needs, and nothing else has changed. */
  lemma AnnouncedExactly(s: Store, commit: string, budget: nat)
    ensures var r, matches := Announced(s, commit, budget), s.pending.Some? && commit != "" && s.pending.value.commit == commit;
      && (r.err.None? <==> matches && (s.pending.value.resolutions == [] || budget > 0))
      && (r.err.None? ==>
            var p := s.pending.value;
            r.store == if p.resolutions == [] then s
                       else s.(commitFile := Some(ResolutionCommit(commit, p.value, p.resolutions))))
      && (r.err.Some? ==> r.store == s)
  {
  }

  /** An aborted publication no longer blocks: whatever the head is, the next reconciliation gets past it. The commit
      file of another publication is never removed. */
  lemma AbortedUnblocks(s: Store, commit: string, budget: nat, remote: string, w: Work)
    ensures var r := Aborted(s, commit, budget);
      && (r.err.None? <==> s.commitFile.None? || (s.commitFile.value.commit == commit && budget > 0))
      && (r.err.None? ==>
            && r.store == s.(commitFile := None)
            && (w.ok && remote != "" ==> Reconciled(r.store, remote, w).1.Some?))
      && (r.err.Some? ==> r.store == s)
  {
  }

  /** A whole publication, from any state: reconciled with some head, announced, landed, recorded. What is stored in
      the end is the baseline of the files that were accepted, under the commit that landed. */
  lemma PublicationRecorded(s: Store, remote: string, w: Work, announce: nat, budget: nat)
    requires Reconciled(s, remote, w).1.Some? && (w.changes ==> w.commit != "")
    requires announce > 0 && budget >= Operations(w.resolutions)
    ensures var commit := if w.changes then w.commit else remote;
      var a := Reconciled(s, remote, w).0;
      var b := Announced(a.store, commit, announce);
      var c := Confirmed(b.store, commit, commit, budget);
      && Reconciled(s, remote, w).1 == Some(Prepared(remote, commit, w.changes))
      && a.err.None? && b.err.None? && c.err.None?
      && c.store.baseline == Some(Baseline(commit, w.files)) && c.store.pending.None? && c.store.commitFile.None?
      && forall x :: x in w.resolutions ==> (x, commit) in c.store.acknowledged
  {
    hide Confirmed;
    var commit := if w.changes then w.commit else remote;
    var a := Reconciled(s, remote, w).0;
    var b := Announced(a.store, commit, announce);
    ConfirmedExactly(b.store, commit, commit, budget);
  }

  /** With resolutions a publication that was announced and has landed is recorded even if the process stops before or
      while recording it: the next start that sees it as the head stores the same baseline, acknowledges everything
      and leaves no commit file. */
  lemma LandedIsRecorded(s: Store, commit: string, announce: nat, budget: nat, enough: nat)
    requires Coherent(s) && s.pending.Some? && s.pending.value.resolutions != [] && Announced(s, commit, announce).err.None?
    requires enough > |s.pending.value.resolutions| + 1
    ensures var a := Announced(s, commit, announce).store;
      var stopped := if Confirmed(a, commit, commit, budget).err.None? then a else Confirmed(a, commit, commit, budget).store;
      var r := Recovered(Restarted(stopped), commit, enough);
      && r.err.None? && r.store.baseline == Some(s.pending.value.value) && r.store.commitFile.None?
      && forall x :: x in s.pending.value.resolutions ==> (x, commit) in r.store.acknowledged
  {
    var a := Announced(s, commit, announce).store;
    AnnouncedExactly(s, commit, announce);
    ConfirmedExactly(a, commit, commit, enough + 1);
    hide Confirmed, Recovered, Announced;
    if Confirmed(a, commit, commit, budget).err.Some? {
      StopRepaired(a, commit, budget, enough);
    } else {
      NeverStarted(a, commit, enough);
    }
  }

  lemma NeverStarted(s: Store, commit: string, enough: nat)
    requires Coherent(s) && Pends(s, commit) && s.pending.value.resolutions != []
    requires s.commitFile == Announcement(s.pending.value, commit) && enough > |s.pending.value.resolutions| + 1
    ensures Recovered(Restarted(s), commit, enough) == Confirmed(s, commit, commit, enough + 1)
  {
  }

  lemma AcknowledgeAgain(done: set<(string, string)>, resolutions: seq<string>, commit: string, n: nat, m: nat)
    requires n <= m
    ensures Acknowledge(Acknowledge(done, resolutions, commit, n), resolutions, commit, m)
            == Acknowledge(done, resolutions, commit, m)
  {
    var all := Acknowledge(done, resolutions, commit, m);
    assert Acknowledge(done, resolutions, commit, n) <= all;
  }

  /** What is there after a stop: the pending baseline is lost with the process. */
  function Restarted(s: Store): Store { s.(pending := None) }

  /** A publication with resolutions was announced and has landed. Wherever recording it stops, or if it
      never begins, the next reconciliation that sees its commit as the head ends exactly where an
      uninterrupted recording would have ended. */
  lemma StopRepaired(s: Store, commit: string, budget: nat, enough: nat)
    requires Coherent(s) && Pends(s, commit) && s.pending.value.resolutions != []
    requires s.commitFile == Announcement(s.pending.value, commit) && enough > |s.pending.value.resolutions| + 1
    requires Confirmed(s, commit, commit, budget).err.Some?
    ensures Recovered(Restarted(s), commit, enough) == Confirmed(s, commit, commit, enough + 1)
    ensures Recovered(Restarted(Confirmed(s, commit, commit, budget).store), commit, enough) == Confirmed(s, commit, commit, enough + 1)
  {
    var p := s.pending.value;
    if budget > 1 { AcknowledgeAgain(s.acknowledged, p.resolutions, commit, budget - 2, enough - 1); }
  }

  /** An announced publication blocks every reconciliation until its commit is the head of the remote: with
      enough operations a reconciliation gets past it if and only if nothing was announced or that commit is
      the head; otherwise nothing at all changes. If the commit never lands, or another head follows it
      first, no later reconciliation ever gets past it. */
  lemma AnnouncedBlocks(s: Store, remote: string, w: Work)
    requires Coherent(s) && remote != ""
    ensures s.commitFile.None? || w.budget > |s.commitFile.value.resolutions| + 1 ==>
      (Reconciled(s, remote, w.(ok := true)).1.Some? <==> s.commitFile.None? || s.commitFile.value.commit == remote)
    ensures s.commitFile.Some? && s.commitFile.value.commit != remote ==>
      Reconciled(s, remote, w) == (Outcome(s, Some(SyncUncertain)), None)
  {
  }

  // ----- the reconciler -----

  class Reconciler {
    var pending: Option<Pending>
    var baseline: Option<Baseline>
    var commitFile: Option<ResolutionCommit>
    var acknowledged: set<(string, string)>

    ghost function State(): Store
      reads this
    {
      Store(pending, baseline, commitFile, acknowledged)
    }

    /** The pending baseline carries the revision of its commit. */
    ghost predicate Valid()
      reads this
    {
      pending.Some? ==> pending.value.value.revision == pending.value.commit
    }

    /** A new process finds what is on disk. */
    constructor (baseline: Option<Baseline>, commitFile: Option<ResolutionCommit>, acknowledged: set<(string, string)>)
      ensures Valid() && State() == Store(None, baseline, commitFile, acknowledged)
    {
      pending, this.baseline, this.commitFile, this.acknowledged := None, baseline, commitFile, acknowledged;
    }

    /** Acknowledges one resolution after the other. */
    method AcknowledgeAll(resolutions: seq<string>, commit: string, budget: nat) returns (left: nat, done: bool)
      modifies this`acknowledged
      ensures acknowledged == Acknowledge(old(acknowledged), resolutions, commit, budget)
      ensures done <==> budget >= |resolutions|
      ensures done ==> left == budget - |resolutions|
    {
      left := budget;
      for i := 0 to |resolutions|
        invariant left == budget - i && i <= budget && acknowledged == Acknowledge(old(acknowledged), resolutions, commit, i)
      {
        if left == 0 {
          return left, false;
        }
        acknowledged := acknowledged + {(resolutions[i], commit)};
        left := left - 1;
      }
      return left, true;
    }

    /** Writes the baseline, acknowledges, and removes the commit file. */
    method Finish(value: Baseline, resolutions: seq<string>, commit: string, remove: bool, budget: nat)
      returns (err: Option<Failure>)
      modifies this`baseline, this`commitFile, this`acknowledged
      ensures Outcome(State(), err) == Settle(old(State()), value, resolutions, commit, remove, budget)
    {
      if budget == 0 {
        return Some(Stopped);
      }
      baseline := Some(value);
      var left, done := AcknowledgeAll(resolutions, commit, budget - 1);
      if !done {
        return Some(Stopped);
      }
      if remove {
        if left == 0 {
          return Some(Stopped);
        }
        commitFile := None;
      }
      return None;
    }

    /** Finishes an interrupted publication, exactly when its commit is the head of the remote. */
    method RecoverResolutionCommit(remote: string, budget: nat) returns (err: Option<Failure>)
      modifies this`baseline, this`commitFile, this`acknowledged
      ensures Outcome(State(), err) == Recovered(old(State()), remote, budget)
    {
      if commitFile.None? {
        return None;
      }
      var c := commitFile.value;
      if c.baseline.revision != c.commit {
        return Some(BaselineInvalid);
      }
      if remote != c.commit {
        return Some(SyncUncertain);
      }
      err := Finish(c.baseline, c.resolutions, c.commit, true, budget);
    }

    /** Ends by setting the baseline that takes effect once its commit has landed. */
    method Reconcile(remote: string, w: Work) returns (prepared: Option<Prepared>, err: Option<Failure>)
      requires Valid()
      modifies this
      ensures Valid()
      ensures (Outcome(State(), err), prepared) == Reconciled(old(State()), remote, w)
    {
      err := RecoverResolutionCommit(remote, w.budget);
      if err.Some? {
        return None, err;
      }
      pending := None;
      if !w.ok || remote == "" {
        return None, Some(Refused);
      }
      var commit := if w.changes then w.commit else remote;
      pending := Some(Pending(commit, Baseline(commit, w.files), w.resolutions));
      return Some(Prepared(remote, commit, w.changes)), None;
    }

    /** Writes the resolution commit before the publication, so that a stop after it can be repaired. */
    method PublicationPrepared(commit: string, budget: nat) returns (err: Option<Failure>)
      modifies this`commitFile
      ensures Outcome(State(), err) == Announced(old(State()), commit, budget)
    {
      if pending.None? || commit == "" || pending.value.commit != commit {
        return Some(BaselineInvalid);
      }
      if pending.value.resolutions == [] {
        return None;
      }
      if budget == 0 {
        return Some(Stopped);
      }
      commitFile := Some(ResolutionCommit(commit, pending.value.value, pending.value.resolutions));
      return None;
    }

    /** The commit is the head of the remote: record the baseline it was prepared with. */
    method PublicationCommitted(commit: string, revision: string, budget: nat) returns (err: Option<Failure>)
      requires Valid()
      modifies this
      ensures Valid()
      ensures err.None? ==> baseline.Some? && baseline.value.revision == revision && pending.None?
      ensures Outcome(State(), err) == Confirmed(old(State()), commit, revision, budget)
    {
      if pending.None? || commit == "" || pending.value.commit != commit || revision != commit {
        return Some(BaselineInvalid);
      }
      var p, left := pending.value, budget;
      if p.resolutions != [] {
        if left == 0 {
          return Some(Stopped);
        }
        left := left - 1;
        commitFile := Some(ResolutionCommit(revision, p.value, p.resolutions));
      }
      err := Finish(p.value, p.resolutions, revision, p.resolutions != [], left);
      if err.None? {
        pending := None;
      }
    }

    /** The publication was refused: forget the resolution commit that announced it. */
    method PublicationAborted(commit: string, budget: nat) returns (err: Option<Failure>)
      modifies this`commitFile
      ensures Outcome(State(), err) == Aborted(old(State()), commit, budget)
    {
      if commitFile.None? {
        return None;
      }
      if commitFile.value.commit != commit {
        return Some(BaselineInvalid);
      }
      if budget == 0 {
        return Some(Stopped);
      }
      commitFile := None;
      return None;
    }
  }
}
