/** What an activation comes to: a committed pair was restarted, found healthy and recorded, and a single failure
    before the commit is undone (internal/hostservice/update_unix.go:103-170 and 244-269).
 */
module UpdateOutcomes {
  import opened Basics
  import opened ReleaseVersion
  import opened HostUpdate

  // ----- committed means checked -----

  predicate Starts(m: Machine, c: Change) { c.Activate? && !m.pc.Fetching? && Next(m, c).pc.Fetching? }

  /** Change `a` starts an activation. */
  predicate Begins(m: Machine, cs: seq<Change>, a: nat)
    requires a < |cs|
  {
    Starts(Run(m, cs[..a]), cs[a])
  }

  /** No later change does. */
  predicate Latest(m: Machine, cs: seq<Change>, a: nat) {
    a < |cs| && Begins(m, cs, a) && forall n :: a < n < |cs| ==> !Begins(m, cs, n)
  }

  /** Change `i` is the step at `pc`, and it succeeds. */
  predicate Passes(m: Machine, cs: seq<Change>, i: nat, pc: Pc) {
    i < |cs| && cs[i] == Step(Ok) && Run(m, cs[..i]).pc == pc
  }

  /** Where the latest activation began, and where it passed its first `n` checks. */
  datatype Evidence = Evidence(begun: nat, restarted: nat, healthy: nat, recorded: nat)

  predicate Shows(m: Machine, cs: seq<Change>, e: Evidence, n: nat) {
    && Latest(m, cs, e.begun)
    && (n >= 1 ==> e.begun < e.restarted && Passes(m, cs, e.restarted, Restarting))
    && (n >= 2 ==> e.restarted < e.healthy && Passes(m, cs, e.healthy, CheckingHealth))
    && (n >= 3 ==> e.healthy < e.recorded && Passes(m, cs, e.recorded, Recording))
  }

  /** How many checks lie behind. */
  function Behind(m: Machine): nat {
    if m.committed || m.pc == Writing(Committed) then 3
    else if m.pc.Recording? then 2
    else if m.pc.CheckingHealth? then 1
    else 0
  }

  predicate Active(m: Machine) { m.committed || BeforeCommit(m.pc) }

  lemma {:induction false} RunLast(m: Machine, cs: seq<Change>)
    requires cs != []
    ensures Run(m, cs) == Next(Run(m, cs[..|cs| - 1]), cs[|cs| - 1])
  {
    hide Next;
    var n := |cs| - 1;
    RunConcat(m, cs[..n], [cs[n]]);
    assert cs == cs[..n] + [cs[n]];
    assert [cs[n]][1..] == [];
  }

  /** What the changes so far show is still shown with one more, unless that starts an activation. */
  lemma ShowsOn(m: Machine, cs: seq<Change>, e: Evidence, n: nat)
    requires cs != [] && Shows(m, cs[..|cs| - 1], e, n) && !Begins(m, cs, |cs| - 1)
    ensures Shows(m, cs, e, n)
  {
    hide Run, Next;
    var ds := cs[..|cs| - 1];
    forall i | 0 <= i < |ds| ensures ds[..i] == cs[..i] && ds[i] == cs[i] && Begins(m, cs, i) == Begins(m, ds, i) {
      assert ds[..i] == cs[..i];
    }
  }

  lemma FinishQuiet(m: Machine, r: Role, at: Finish, ok: bool)
    ensures var u := FinishStep(m, r, at, ok); u.committed == m.committed && !BeforeCommit(u.pc)
  {
  }

  lemma UndoQuiet(m: Machine, at: Undo, out: Outcome)
    ensures var u := UndoStep(m, at, out); u.committed == m.committed && !BeforeCommit(u.pc)
  {
  }

  /** The check at `n`. */
  function CheckAt(n: nat): Pc { if n == 0 then Restarting else if n == 1 then CheckingHealth else Recording }

  /** One change, seen from the checks: none is skipped. */
  lemma NoCheckSkipped(m: Machine, c: Change)
    requires m.committed ==> !BeforeCommit(m.pc)
    ensures var u := Next(m, c);
      && (u.committed ==> !BeforeCommit(u.pc))
      && (Starts(m, c) ==> Behind(u) == 0)
      && (Active(u) && !Starts(m, c) ==>
            && Active(m)
            && (Behind(u) <= Behind(m) || (c == Step(Ok) && Behind(u) == Behind(m) + 1 && m.pc == CheckAt(Behind(m)))))
  {
    hide FinishStep, UndoStep, Precedes;
    if c.Step? {
      match m.pc
      case Finalizing(r, at) => FinishQuiet(m, r, at, c.outcome.Ok?);
      case Undoing(at) => UndoQuiet(m, at, c.outcome);
      case _ =>
    }
  }

  /** The next check is passed by the last change. */
  lemma ShowsMore(m: Machine, cs: seq<Change>, e: Evidence, n: nat) returns (f: Evidence)
    requires cs != [] && Shows(m, cs[..|cs| - 1], e, n) && n < 3
    requires cs[|cs| - 1] == Step(Ok) && Run(m, cs[..|cs| - 1]).pc == CheckAt(n)
    ensures Shows(m, cs, f, n + 1)
  {
    hide Run, Next, Shows;
    assert !Begins(m, cs, |cs| - 1);
    ShowsOn(m, cs, e, n);
    var k := |cs| - 1;
    f := if n == 0 then e.(restarted := k) else if n == 1 then e.(healthy := k) else e.(recorded := k);
    Extends(m, cs, e, f, n);
  }

  lemma Extends(m: Machine, cs: seq<Change>, e: Evidence, f: Evidence, n: nat)
    requires cs != [] && Shows(m, cs, e, n) && Shows(m, cs[..|cs| - 1], e, n) && n < 3
    requires Passes(m, cs, |cs| - 1, CheckAt(n))
    requires f == if n == 0 then e.(restarted := |cs| - 1) else if n == 1 then e.(healthy := |cs| - 1) else e.(recorded := |cs| - 1)
    ensures Shows(m, cs, f, n + 1)
  {
    hide Run, Next;
  }

  /** The last change starts an activation. */
  lemma ShowsStart(m: Machine, cs: seq<Change>) returns (f: Evidence)
    requires cs != [] && Starts(Run(m, cs[..|cs| - 1]), cs[|cs| - 1])
    ensures Shows(m, cs, f, 0)
  {
    f := Evidence(|cs| - 1, 0, 0, 0);
  }

  lemma Fewer(m: Machine, cs: seq<Change>, e: Evidence, k: nat, n: nat)
    requires Shows(m, cs, e, n) && k <= n
    ensures Shows(m, cs, e, k)
  {
    hide Run;
  }

  lemma {:induction false} Track(m: Machine, cs: seq<Change>) returns (e: Evidence)
    requires !m.committed && !BeforeCommit(m.pc)
    ensures var r := Run(m, cs);
      && (r.committed ==> !BeforeCommit(r.pc))
      && (Active(r) ==> Shows(m, cs, e, Behind(r)))
    decreases |cs|
  {
    hide Next, Shows, Starts;
    if cs == [] {
      e := Evidence(0, 0, 0, 0);
    } else {
      var n := |cs| - 1;
      var u, c := Run(m, cs[..n]), cs[n];
      RunLast(m, cs);
      hide Run;
      e := Track(m, cs[..n]);
      NoCheckSkipped(u, c);
      var r := Next(u, c);
      if Starts(u, c) {
        e := ShowsStart(m, cs);
      } else if Active(r) {
        if Behind(r) <= Behind(u) {
          ShowsOn(m, cs, e, Behind(u));
          Fewer(m, cs, e, Behind(r), Behind(u));
        } else {
          e := ShowsMore(m, cs, e, Behind(u));
        }
      }
    }
  }

  /** Over every run, whatever fails or stops, and without exception: a pair is committed only if, since the
      latest activation began, the restart, then the health check, then the version record succeeded. */
  lemma CommittedWasChecked(m: Machine, cs: seq<Change>)
    requires Start(m)
    ensures Run(m, cs).committed ==>
      exists a: nat, i: nat, j: nat, k: nat :: a < i < j < k && Latest(m, cs, a)
                           && Passes(m, cs, i, Restarting) && Passes(m, cs, j, CheckingHealth) && Passes(m, cs, k, Recording)
  {
    var e := Track(m, cs);
    hide Run, Latest, Passes;
    if Run(m, cs).committed {
      assert Shows(m, cs, e, 3);
    }
  }

  // ----- a single failure is undone -----

  /** On the way back to the old pair. */
  predicate Reverting(m: Machine) {
    && !m.committed
    && match m.pc
       case Ready => true
       case Leaving(_, good) => good
       case Replacing(_, at) => at.PuttingBack?
       case Undoing(at) =>
         && m.caller.Activation? && m.disk.journal.Some? == !at.Counting?
         && (match at
             case Removing(_, failed) => !failed
             case Returning(_, failed) => !failed
             case RestartingBack(failed) => !failed && m.disk.record == Some(m.version)
             case Forgetting(failed) => !failed && m.disk.record == Some(m.version)
             case Counting => m.disk.record == Some(m.version)
             case _ => true)
       case _ => false
  }

  lemma UndoReverts(m: Machine)
    requires Inv(m) && Reverting(m) && m.pc.Undoing?
    ensures var r := Continue(m, Ok);
      && Reverting(r) && r.before == m.before && r.version == m.version
      && (r.pc.Undoing? ==> r.disk.rollbacks == m.disk.rollbacks)
      && (!r.pc.Undoing? ==> r.disk.rollbacks == m.disk.rollbacks + 1 && r.disk.record == Some(m.version) && r.disk.journal.None?)
  {
    hide FinishStep, FinishAt, ReplaceStep, ReplaceAt, Keeps, Switched;
  }

  /** What a rollback leaves besides the old pair. */
  predicate CountedBack(r: Machine, rollbacks: nat, version: string) {
    r.disk.rollbacks == rollbacks + 1 && r.disk.record == Some(version) && r.disk.journal.None?
  }

  lemma LeavingReverts(m: Machine)
    requires Inv(m) && Reverting(m) && m.pc.Leaving?
    ensures var r := Continue(m, Ok);
      && Reverting(r) && (r.pc.Leaving? || r.pc.Ready?) && r.before == m.before && r.version == m.version
      && r.disk.rollbacks == m.disk.rollbacks && r.disk.record == m.disk.record && r.disk.journal == m.disk.journal
  {
    hide FinishStep, FinishAt, ReplaceStep, ReplaceAt, Keeps, Switched;
  }

  lemma PutBackReverts(m: Machine)
    requires Inv(m) && Reverting(m) && m.pc.Replacing?
    ensures var r := Continue(m, Ok);
      && Reverting(r) && r.pc.Undoing? && r.before == m.before && r.version == m.version && r.disk.rollbacks == m.disk.rollbacks
  {
    hide FinishStep, FinishAt, Keeps, Switched;
  }

  lemma {:induction false} SettleReverts(m: Machine)
    requires Inv(m) && Reverting(m)
    ensures var r := Settle(m);
      && r.pc.Ready? && Clean(r.disk) && Installed(r.disk, m.before) && !r.committed && r.version == m.version
      && (m.pc.Undoing? || m.pc.Replacing? ==> CountedBack(r, m.disk.rollbacks, m.version))
      && (m.pc.Leaving? ==> r.disk.rollbacks == m.disk.rollbacks && r.disk.record == m.disk.record && r.disk.journal == m.disk.journal)
    decreases Rank(m.pc)
  {
    if m.pc.Ready? {
      assert Keeps(m.disk.worker, m.before.worker) && Keeps(m.disk.host, m.before.host);
    } else {
      ContinueInv(m, Ok);
      Descends(m);
      var r := Continue(m, Ok);
      if m.pc.Undoing? { UndoReverts(m); } else if m.pc.Leaving? { LeavingReverts(m); } else { PutBackReverts(m); }
      SettleStep(m);
      hide Inv, Continue, Settle, Clean, Installed;
      SettleReverts(r);
    }
  }

  /** The binaries were not touched yet. */
  predicate Preparing(pc: Pc) { pc.Fetching? || pc.Inspecting? || pc == Writing(Staged) || pc == Writing(Activating) }

  lemma StepFails(m: Machine, out: Outcome)
    requires Inv(m) && Advancing(m) && BeforeCommit(m.pc) && !m.committed
    requires out.Fail? || (out.Late? && m.pc != Writing(Committed))
    ensures var r := Continue(m, out);
      && Inv(r) && Reverting(r) && r.before == m.before && r.version == m.version
      && r.disk.rollbacks == m.disk.rollbacks
      && (if Preparing(m.pc) then r.pc.Leaving? && r.disk.record == m.disk.record else r.pc.Undoing? || r.pc.Replacing?)
  {
    ContinueInv(m, out);
    hide FinishStep, FinishAt, UndoStep, UndoAt, Keeps, Switched;
  }

  lemma GoesOn(m: Machine)
    requires Inv(m) && Advancing(m)
    ensures var r := Continue(m, Ok);
      && (BeforeCommit(r.pc) ==>
            && BeforeCommit(m.pc) && r.version == m.version && r.disk.rollbacks == m.disk.rollbacks && r.committed == m.committed
            && (Preparing(r.pc) ==> Preparing(m.pc) && r.disk.record == m.disk.record))
  {
    hide FinishStep, FinishAt, UndoStep, UndoAt, Keeps, Switched;
    if m.pc.Finalizing? { FinishQuiet(m, m.pc.role, m.pc.finish, true); }
    assert Continue(m, Ok) == m || !m.pc.Ready?;
  }

  lemma {:induction false} AdvancingAfter(m: Machine, n: nat)
    requires Inv(m) && Advancing(m) && BeforeCommit(m.pc) && !m.committed && Preparing(m.pc)
    ensures var t := After(m, n);
      && Inv(t) && Advancing(t) && t.before == m.before
      && (BeforeCommit(t.pc) ==> !t.committed && t.version == m.version && t.disk.rollbacks == m.disk.rollbacks)
      && (Preparing(t.pc) ==> t.disk.record == m.disk.record)
    decreases n
  {
    if n == 0 {
      AfterNothing(m);
    } else {
      hide Inv, Advancing, Continue, After;
      AdvancingAfter(m, n - 1);
      var t := After(m, n - 1);
      AfterMore(m, n - 1, 1);
      AfterStep(t, 0);
      AfterNothing(Continue(t, Ok));
      ContinueInv(t, Ok);
      GoesOn(t);
      if t.pc.Ready? { StaysReady(t); } else { AdvanceOn(t); }
    }
  }

  lemma StaysReady(m: Machine)
    requires m.pc.Ready?
    ensures Continue(m, Ok) == m
  {
  }

  /** In every run, an activation of a ready manager in which one step fails before the commit, or takes effect and
      reports a failure, and nothing else fails: the manager is ready again with the pair and the version it had.
      Once the binaries are being replaced the failure is counted and the old version recorded. Only a commit that
      takes effect and reports a failure is excepted, see `LateCommitMixes`. */
  lemma SingleFailureUndone(m: Machine, cs: seq<Change>, pair: Pair, version: string, n: nat, out: Outcome)
    requires Start(m) && RegularRun(m, cs) && Run(m, cs).pc.Ready? && Precedes(Run(m, cs).version, version)
    requires out.Fail? || out.Late?
    ensures var s := Run(m, cs);
      var t := After(Next(s, Activate(pair, version)), n);
      BeforeCommit(t.pc) && !(out.Late? && t.pc == Writing(Committed)) ==>
        && var r := Settle(Continue(t, out));
        && r.pc.Ready? && Clean(r.disk) && !r.committed && r.version == s.version
        && r.disk.worker.current == s.disk.worker.current && r.disk.host.current == s.disk.host.current
        && (if Preparing(t.pc) then r.disk.rollbacks == s.disk.rollbacks && r.disk.record == s.disk.record
            else CountedBack(r, s.disk.rollbacks, s.version))
  {
    hide Run, RegularRun, After, Settle, Continue, Precedes;
    RunInv(m, cs);
    var s := Run(m, cs);
    NextInv(s, Activate(pair, version));
    var a := Next(s, Activate(pair, version));
    AdvancingAfter(a, n);
    var t := After(a, n);
    hide Advancing, Next;
    if BeforeCommit(t.pc) && !(out.Late? && t.pc == Writing(Committed)) {
      StepFails(t, out);
      SettleReverts(Continue(t, out));
    }
  }

  /** The three checks come after fourteen steps. */
  lemma ChecksReached(m: Machine, cs: seq<Change>, pair: Pair, version: string)
    requires Start(m) && RegularRun(m, cs) && Run(m, cs).pc.Ready? && Precedes(Run(m, cs).version, version)
    ensures var a := Next(Run(m, cs), Activate(pair, version));
      After(a, 14).pc.Restarting? && After(a, 15).pc.CheckingHealth? && After(a, 16).pc.Recording?
  {
    hide Run, RegularRun, After, Precedes, Continue;
    RunInv(m, cs);
    var a := Next(Run(m, cs), Activate(pair, version));
    Downloads(a);
    var b := After(a, 5);
    Replaces(b, Worker);
    var c := After(b, 4);
    Replaces(c, Host);
    var d := After(c, 4);
    AfterMore(a, 5, 4); AfterMore(a, 9, 4); AfterMore(a, 13, 1); AfterMore(a, 13, 2); AfterMore(a, 13, 3);
    ChecksFollow(d);
  }

  lemma ChecksFollow(m: Machine)
    requires m.pc == Writing(Checking)
    ensures After(m, 1).pc.Restarting? && After(m, 2).pc.CheckingHealth? && After(m, 3).pc.Recording?
  {
    hide After, ReplaceStep, FinishStep, UndoStep;
    var a := Continue(m, Ok);
    var b := Continue(a, Ok);
    var c := Continue(b, Ok);
    AfterStep(m, 0); AfterStep(m, 1); AfterStep(m, 2); AfterStep(a, 0); AfterStep(a, 1); AfterStep(b, 0);
    AfterNothing(a); AfterNothing(b); AfterNothing(c);
  }

  // ----- the version after a recovery -----

  /** The version that an undisturbed recovery will end with. */
  function Target(m: Machine): string {
    var marked := if m.disk.journal.Some? then m.disk.journal.value.version else m.version;
    match m.pc
    case Loading => if Marked(m.disk) then marked else m.version
    case CheckingAgain => marked
    case Finalizing(_, _) => marked
    case _ => m.version
  }

  lemma TargetStays(m: Machine)
    requires Inv(m) && Recovering(m) && !m.pc.Ready?
    ensures Target(Continue(m, Ok)) == Target(m)
  {
    hide ReplaceStep, ReplaceAt, FinishStep, UndoStep, Keeps, Switched, UndoAt;
    match m.pc
    case Finalizing(r, at) => FinishTarget(m, r, at);
    case Undoing(at) => UndoTarget(m, at);
    case _ =>
  }

  lemma FinishTarget(m: Machine, r: Role, at: Finish)
    requires m.pc == Finalizing(r, at) && m.caller.Recovery?
    ensures Target(FinishStep(m, r, at, true)) == Target(m)
  {
  }

  lemma UndoTarget(m: Machine, at: Undo)
    requires m.pc == Undoing(at)
    ensures Target(UndoStep(m, at, Ok)) == Target(m)
  {
  }

  lemma {:induction false} SettleTarget(m: Machine)
    requires Inv(m) && Recovering(m)
    ensures Settle(m).version == Target(m)
    decreases Rank(m.pc)
  {
    if m.pc.Ready? {
      assert Settle(m) == m;
    } else {
      ContinueInv(m, Ok);
      RecoveringOn(m);
      TargetStays(m);
      Descends(m);
      SettleStep(m);
      hide Inv, Continue, Recovering, Settle, Target;
      SettleTarget(Continue(m, Ok));
    }
  }

  /** After a stop anywhere in any run: an undisturbed recovery takes the version from a committed journal, and keeps
      the one it was started with otherwise. */
  lemma RecoveredVersion(m: Machine, cs: seq<Change>, version: string)
    requires Start(m) && RegularRun(m, cs) && Run(m, cs).pc.Down?
    ensures var s, r := Run(m, cs), Settle(Next(Run(m, cs), Recover(version)));
      r.version == if Marked(s.disk) then s.disk.journal.value.version else version
  {
    hide Settle, RegularRun, Run;
    RunInv(m, cs);
    var s := Run(m, cs);
    NextInv(s, Recover(version));
    SettleTarget(Next(s, Recover(version)));
  }

  /** A committed pair that is found unhealthy at a start: undisturbed, the start fails after what was set aside was put
      back, the previous version recorded, the journal removed and the rollback counted. If nothing was set aside any
      more, the new pair stays under the previous version. */
  lemma RevertRecords(m: Machine)
    requires Inv(m) && m.pc.CheckingAgain?
    ensures var r := Settle(Continue(m, Fail));
      && r.pc.Down? && r.version == m.disk.journal.value.previous
      && CountedBack(r, m.disk.rollbacks, m.disk.journal.value.previous)
      && r.disk.worker.current == PutBack(m.disk.worker).current && r.disk.host.current == PutBack(m.disk.host).current
  {
    hide Settle, ReplaceStep, FinishStep;
    var a := Continue(m, Fail);
    UndoSettles(a);
    ClosesDown(BothBack(a));
  }

  lemma ClosesDown(m: Machine)
    requires m.pc == Undoing(RecordingBack) && m.caller.Reversion? && m.disk.journal.Some?
    ensures var r := Settle(m);
      && r.pc.Down? && r.version == m.version && CountedBack(r, m.disk.rollbacks, m.version)
      && r.disk.worker == m.disk.worker && r.disk.host == m.disk.host
  {
    hide Settle, ReplaceStep, FinishStep;
    var a := Continue(m, Ok);
    var b := Continue(a, Ok);
    var c := Continue(b, Ok);
    var d := Continue(c, Ok);
    SettleStep(m); SettleStep(a); SettleStep(b); SettleStep(c); SettleStep(d);
  }

  /** When a rollback has put the binaries back, and then recording the old version or restarting the worker fails and
      nothing else does: the journal is removed all the same, the rollback is not counted, and the activation leaves a
      manager that is stuck with the old binaries in place. */
  lemma ForgetsAnyway(m: Machine, restart: bool)
    requires m.caller.Activation? && m.disk.journal.Some?
    requires m.pc == if restart then Undoing(RestartingBack(false)) else Undoing(RecordingBack)
    ensures var r := Settle(Continue(m, Fail));
      r.pc.Stuck? && r.disk.journal.None? && r.disk.rollbacks == m.disk.rollbacks && SameBinaries(r.disk, m.disk)
  {
    hide Settle, ReplaceStep, FinishStep;
    var a := Continue(m, Fail);
    var b := if restart then a else Continue(a, Ok);
    if !restart { SettleStep(a); }
    assert b.pc == Undoing(Forgetting(true));
    ForgettingLeaves(b);
  }

  lemma ForgettingLeaves(m: Machine)
    requires m.caller.Activation? && m.disk.journal.Some? && m.pc == Undoing(Forgetting(true))
    ensures var r := Settle(m);
      r.pc.Stuck? && r.disk.journal.None? && r.disk.rollbacks == m.disk.rollbacks && SameBinaries(r.disk, m.disk)
  {
    hide Settle, ReplaceStep, FinishStep;
    var a := Continue(m, Ok);
    var b := Continue(a, Ok);
    var c := Continue(b, Ok);
    SettleStep(m); SettleStep(a); SettleStep(b); SettleStep(c);
  }

  // ----- downloads are removed -----

  /** The code of an activation is running. */
  predicate InActivation(m: Machine) {
    BeforeCommit(m.pc) || m.pc.Leaving? || ((m.pc.Finalizing? || m.pc.Undoing?) && m.caller.Activation?)
  }

  /** What is left of the downloads on the way out. */
  predicate Tidy(m: Machine) {
    && (AtRest(m.pc) ==> m.disk.worker.staged.None? && m.disk.host.staged.None?)
    && (m.pc.Leaving? && m.pc.role.Worker? ==> m.disk.host.staged.None?)
  }

  lemma TidyOn(m: Machine)
    requires InActivation(m) && Tidy(m)
    ensures var r := Continue(m, Ok); Tidy(r) && (InActivation(r) || r.pc.Ready? || r.pc.Stuck?)
  {
    hide UndoStep, ReplaceStep, FinishStep;
    match m.pc
    case Undoing(at) => TidyUndo(m, at);
    case Replacing(r, at) => TidyReplace(m, r, at);
    case Finalizing(r, at) => TidyFinish(m, r, at);
    case _ =>
  }

  lemma TidyUndo(m: Machine, at: Undo)
    requires m.caller.Activation?
    ensures var r := UndoStep(m, at, Ok);
      r.caller.Activation? && (r.pc.Undoing? || (r.pc.Leaving? && r.pc.role.Host?))
  {
  }

  lemma TidyReplace(m: Machine, r: Role, at: Replace)
    ensures var u := ReplaceStep(m, r, at, true);
      BeforeCommit(u.pc) || (u.pc.Undoing? && u.caller.Activation?)
  {
  }

  lemma TidyFinish(m: Machine, r: Role, at: Finish)
    requires m.caller.Activation?
    ensures var u := FinishStep(m, r, at, true);
      u.caller.Activation? && (u.pc.Finalizing? || (u.pc.Leaving? && u.pc.role.Host?))
  {
  }

  /** From any point of any activation on, if nothing more fails: it comes to an end, ready or stuck, and no downloaded
      file is left. */
  lemma {:induction false} DownloadsRemoved(m: Machine)
    requires InActivation(m) && Tidy(m)
    ensures var r := Settle(m);
      (r.pc.Ready? || r.pc.Stuck?) && r.disk.worker.staged.None? && r.disk.host.staged.None?
    decreases Rank(m.pc)
  {
    TidyOn(m);
    Descends(m);
    SettleStep(m);
    hide Continue, InActivation;
    var r := Continue(m, Ok);
    if r.pc.Ready? || r.pc.Stuck? {
      assert Settle(r) == r;
    } else {
      hide Settle, Tidy;
      DownloadsRemoved(r);
    }
  }

  lemma ClosesRecovery(m: Machine)
    requires m.pc == Undoing(RecordingBack) && m.caller.Recovery? && m.disk.journal.Some?
    ensures var r := Settle(m); r.pc.Ready? && r.disk.worker == m.disk.worker && r.disk.host == m.disk.host
  {
    hide Settle, ReplaceStep, FinishStep;
    var a := Continue(m, Ok);
    var b := Continue(a, Ok);
    var c := Continue(b, Ok);
    var d := Continue(c, Ok);
    SettleStep(m); SettleStep(a); SettleStep(b); SettleStep(c); SettleStep(d);
  }

  /** An undisturbed recovery from a journal that is not committed removes the downloads which that journal names. */
  lemma RecoveryUnstages(m: Machine, r: Role)
    requires m.pc.Loading? && m.disk.journal.Some? && !Marked(m.disk) && r in m.disk.journal.value.staged
    ensures Get(Settle(m).disk, r).staged.None?
  {
    hide Settle, ReplaceStep, FinishStep, UndoStep;
    var a := Continue(m, Ok);
    var b := Continue(a, Ok);
    var c := Continue(b, Ok);
    SettleStep(m); SettleStep(a); SettleStep(b);
    UndoSettles(c);
    ClosesRecovery(BothBack(c));
  }

  /** So once an activation has announced its downloads, a stop before the binaries are replaced leaves none of them. */
  lemma StopUnstages(m: Machine, version: string, r: Role)
    requires m.pc == Writing(Staged)
    ensures Get(Settle(Next(Continue(Continue(m, Ok), Crash), Recover(version))).disk, r).staged.None?
  {
    hide Settle, ReplaceStep, FinishStep, UndoStep;
    RecoveryUnstages(Next(Continue(Continue(m, Ok), Crash), Recover(version)), r);
  }
}
