/** The update manager as it runs: methods that change files one after the other
    (internal/hostservice/update_unix.go). What every file operation does, and where the process stops, is
    decided by a tape of outcomes. The files are at every point those of the machine in HostUpdate after
    the same outcomes.
 */
module UpdateManagerFiles {
  import opened Basics
  import opened ReleaseVersion
  import opened HostUpdate

  /** How a method ended; `Halted` means that the process stopped inside it. */
  datatype End = Done | Failed | Halted

  function EndOf(out: Outcome): End { if out.Ok? then Done else if out.Crash? then Halted else Failed }

  /** Where the machine is when `rollback` has returned. */
  function BackPc(caller: Caller, ok: bool): Pc {
    match caller
    case Activation => Leaving(Host, ok)
    case Recovery => if ok then Ready else Down
    case Reversion => Down
  }

  /** Where the machine is after one turn of the loop of `rollback`. */
  function BackNextPc(caller: Caller, r: Role, failed: bool): Pc {
    if r.Worker? then Undoing(Removing(Host, failed)) else if failed then BackPc(caller, false) else Undoing(RecordingBack)
  }

  /** The ghost records of an activation, which only the start of another one changes. */
  predicate SameUpdate(m: Machine, n: Machine) {
    n.before == m.before && n.after == m.after && n.next == m.next && n.version == m.version
  }

  /** The outcomes in a trace. */
  function OutcomesOf(cs: seq<Change>): seq<Outcome> {
    if cs == [] then []
    else OutcomesOf(cs[..|cs| - 1]) + if cs[|cs| - 1].Step? then [cs[|cs| - 1].outcome] else []
  }

  /** `machine` is where the trace leads, and the outcomes in the trace are those of the tape so far. */
  ghost predicate Follows(origin: Machine, trace: seq<Change>, machine: Machine, tape: nat -> Outcome, position: nat) {
    machine == Run(origin, trace) && OutcomesOf(trace) == Taken(tape, position)
  }

  function Taken(tape: nat -> Outcome, position: nat): seq<Outcome> {
    seq(position, i requires 0 <= i => tape(i))
  }

  lemma TakenOneMore(tape: nat -> Outcome, position: nat)
    ensures Taken(tape, position + 1) == Taken(tape, position) + [tape(position)]
  {
  }

  lemma FollowsRun(origin: Machine, trace: seq<Change>, machine: Machine, tape: nat -> Outcome, position: nat)
    requires Follows(origin, trace, machine, tape, position)
    ensures machine == Run(origin, trace)
  {
  }

  lemma RunOneMore(m: Machine, cs: seq<Change>, c: Change)
    ensures Run(m, cs + [c]) == Next(Run(m, cs), c)
    ensures OutcomesOf(cs + [c]) == OutcomesOf(cs) + if c.Step? then [c.outcome] else []
  {
    hide Next, Run;
    RunConcat(m, cs, [c]);
    Prepend(Run(m, cs), c, []);
    assert [c] + [] == [c];
    RunNothing(Next(Run(m, cs), c));
    assert (cs + [c])[..|cs|] == cs;
  }

  lemma FollowsOn(origin: Machine, trace: seq<Change>, machine: Machine, tape: nat -> Outcome, position: nat)
    requires Follows(origin, trace, machine, tape, position)
    ensures var c := Step(tape(position)); Follows(origin, trace + [c], Next(machine, c), tape, position + 1)
  {
    hide Taken, OutcomesOf, Run, Next;
    TakenOneMore(tape, position);
    RunOneMore(origin, trace, Step(tape(position)));
  }

  // ----- one step of the machine, by what runs -----

  lemma StepReplacing(m: Machine, out: Outcome)
    requires m.pc.Replacing? && !out.Crash?
    ensures Continue(m, out) == ReplaceStep(m, m.pc.role, m.pc.replace, out.Ok?)
  {
  }

  lemma StepUndoing(m: Machine, out: Outcome)
    requires m.pc.Undoing? && !out.Crash?
    ensures Continue(m, out) == UndoStep(m, m.pc.undo, out)
  {
  }

  lemma StepFinalizing(m: Machine, out: Outcome)
    requires m.pc.Finalizing? && !out.Crash?
    ensures Continue(m, out) == FinishStep(m, m.pc.role, m.pc.finish, out.Ok?)
  {
  }

  lemma StepWriting(m: Machine, out: Outcome)
    requires m.pc.Writing? && !out.Crash?
    ensures Continue(m, out) == WriteStep(m, m.pc.stage, out)
  {
  }

  lemma StepCrash(m: Machine)
    ensures Continue(m, Crash) == m.(pc := Down)
  {
  }

  class UpdateManager {
    var disk: Disk
    var version: string
    const tape: nat -> Outcome
    /** How much of the tape was used. */
    var position: nat
    ghost const origin: Machine
    /** What has happened since `origin`, and the machine after it. Not read by the code. */
    ghost var trace: seq<Change>
    ghost var machine: Machine

    ghost predicate Sound()
      reads this
    {
      Follows(origin, trace, machine, tape, position)
    }

    ghost predicate Valid()
      reads this
    {
      Sound() && machine.disk == disk && machine.version == version
    }

    constructor (disk: Disk, version: string, tape: nat -> Outcome, ghost origin: Machine)
      requires origin.disk == disk && origin.version == version
      ensures Valid() && machine == origin == this.origin && trace == [] && position == 0
      ensures this.disk == disk && this.version == version && this.tape == tape
    {
      this.disk, this.version, this.tape, position := disk, version, tape, 0;
      this.origin, trace, machine := origin, [], origin;
    }

    /** The machine begins the same operation. */
    ghost method Follow(c: Change)
      requires Sound() && !c.Step?
      modifies this`trace, this`machine
      ensures Sound() && machine == Next(old(machine), c) && trace == old(trace) + [c]
    {
      RunOneMore(origin, trace, c);
      trace, machine := trace + [c], Next(machine, c);
    }

    /** The outcome of the next operation. */
    method Try() returns (out: Outcome)
      requires Sound()
      modifies this`position, this`trace, this`machine
      ensures Sound() && machine == Continue(old(machine), out)
      ensures trace == old(trace) + [Step(out)] && position == old(position) + 1 && out == tape(old(position))
    {
      hide Follows, Continue, Run;
      out := tape(position);
      FollowsOn(origin, trace, machine, tape, position);
      position := position + 1;
      trace, machine := trace + [Step(out)], Next(machine, Step(out));
    }

    /** `replaceUpdateBinary`. */
    method ReplaceBinary(r: Role) returns (end: End)
      requires Valid() && machine.pc == Replacing(r, Clearing)
      modifies this`disk, this`position, this`trace, this`machine
      ensures Valid() && SameUpdate(old(machine), machine) && old(trace) <= trace
      ensures end.Done? ==> machine.pc == if r.Worker? then Replacing(Host, Clearing) else Writing(Checking)
      ensures end.Failed? ==> machine.pc == Undoing(Removing(Worker, false)) && machine.caller.Activation?
      ensures end.Halted? ==> machine.pc.Down?
    {
      hide Continue, Follows;
      StepCrash(machine);
      ghost var m := machine;
      var out := Try();
      var s := Get(disk, r);
      if out.Crash? {
        return Halted;
      }
      StepReplacing(m, out);
      if !out.Ok? || s.current.None? || s.staged.None? {
        return Failed;
      }
      disk := Put(disk, r, s.(rollback := None));
      end := SetAside(r);
      if !end.Done? {
        return;
      }
      end := Install(r);
    }

    /** The first rename of `replaceUpdateBinary`. */
    method SetAside(r: Role) returns (end: End)
      requires Valid() && machine.pc == Replacing(r, SettingAside)
      modifies this`disk, this`position, this`trace, this`machine
      ensures Valid() && SameUpdate(old(machine), machine) && old(trace) <= trace
      ensures end.Done? ==> machine.pc == Replacing(r, Installing)
      ensures end.Failed? ==> machine.pc == Undoing(Removing(Worker, false)) && machine.caller.Activation?
      ensures end.Halted? ==> machine.pc.Down?
    {
      hide Continue, Follows;
      StepCrash(machine);
      ghost var m := machine;
      var out := Try();
      if !out.Crash? { StepReplacing(m, out); }
      if out.Ok? {
        disk := Put(disk, r, Get(disk, r).(rollback := Get(disk, r).current, current := None));
      }
      end := EndOf(out);
    }

    /** The second rename, undone by a third one if it fails, and the sync. */
    method Install(r: Role) returns (end: End)
      requires Valid() && machine.pc == Replacing(r, Installing)
      modifies this`disk, this`position, this`trace, this`machine
      ensures Valid() && SameUpdate(old(machine), machine) && old(trace) <= trace
      ensures end.Done? ==> machine.pc == if r.Worker? then Replacing(Host, Clearing) else Writing(Checking)
      ensures end.Failed? ==> machine.pc == Undoing(Removing(Worker, false)) && machine.caller.Activation?
      ensures end.Halted? ==> machine.pc.Down?
    {
      hide Continue, Follows;
      StepCrash(machine);
      ghost var m := machine;
      var out := Try();
      if out.Crash? {
        return Halted;
      }
      StepReplacing(m, out);
      var s := Get(disk, r);
      if out.Ok? {
        disk := Put(disk, r, s.(current := s.staged, staged := None));
      }
      var renamed := out.Ok?;
      m := machine;
      StepCrash(machine);
      out := Try();
      if out.Crash? {
        return Halted;
      }
      StepReplacing(m, out);
      if !renamed && out.Ok? {
        disk := Put(disk, r, s.(current := s.rollback, rollback := None));
      }
      end := if renamed && out.Ok? then Done else Failed;
    }

    /** One turn of the loop of `rollback`. */
    method PutBack(r: Role, failed: bool) returns (end: End)
      requires Valid() && machine.pc == Undoing(Removing(r, failed))
      modifies this`disk, this`position, this`trace, this`machine
      ensures Valid() && SameUpdate(old(machine), machine) && old(trace) <= trace && machine.caller == old(machine.caller)
      ensures disk.journal == old(disk.journal)
      ensures end.Halted? ==> machine.pc.Down?
      ensures !end.Halted? ==> machine.pc == BackNextPc(machine.caller, r, failed || end.Failed?)
    {
      hide Continue, Follows;
      StepCrash(machine);
      ghost var m := machine;
      var out := Try();
      if out.Crash? {
        return Halted;
      }
      StepUndoing(m, out);
      var s := Get(disk, r);
      if !out.Ok? {
        return Failed;
      }
      if s.rollback.None? {
        return Done;
      }
      disk := Put(disk, r, s.(current := None));
      StepCrash(machine);
      m := machine;
      out := Try();
      if out.Crash? {
        return Halted;
      }
      StepUndoing(m, out);
      if out.Ok? {
        disk := Put(disk, r, s.(current := s.rollback, rollback := None));
      }
      end := EndOf(out);
    }

    /** `rollback`: goes on to the second binary when the first one fails. */
    method Rollback() returns (end: End)
      requires Valid() && machine.pc == Undoing(Removing(Worker, false))
      modifies this`disk, this`position, this`trace, this`machine
      ensures Valid() && SameUpdate(old(machine), machine) && old(trace) <= trace && machine.caller == old(machine.caller)
      ensures end.Halted? ==> machine.pc.Down?
      ensures !end.Halted? ==> machine.pc == BackPc(machine.caller, end.Done?)
    {
      hide Continue, Follows;
      var failed := false;
      var roles := [Worker, Host];
      for i := 0 to 2
        invariant Valid() && SameUpdate(old(machine), machine) && machine.caller == old(machine.caller) && old(trace) <= trace
        invariant machine.pc == if i < 2 then Undoing(Removing(roles[i], failed)) else BackNextPc(machine.caller, Host, failed)
        invariant i == 0 ==> !failed
      {
        var one := PutBack(roles[i], failed);
        if one.Halted? {
          return Halted;
        }
        failed := failed || one.Failed?;
      }
      if failed {
        return Failed;
      }
      end := CloseRollback();
    }

    /** Records the version, restarts the worker and forgets the journal, whatever the first two answer. */
    method CloseRollback() returns (end: End)
      requires Valid() && machine.pc == Undoing(RecordingBack)
      modifies this`disk, this`position, this`trace, this`machine
      ensures Valid() && SameUpdate(old(machine), machine) && old(trace) <= trace && machine.caller == old(machine.caller)
      ensures end.Halted? ==> machine.pc.Down?
      ensures !end.Halted? ==> machine.pc == BackPc(machine.caller, end.Done?)
    {
      hide Continue, Follows;
      StepCrash(machine);
      ghost var m := machine;
      var out := Try();
      if out.Crash? {
        return Halted;
      }
      StepUndoing(m, out);
      if !out.Fail? {
        disk := disk.(record := Some(version));
      }
      var failed := !out.Ok?;
      StepCrash(machine);
      m := machine;
      out := Try();
      if out.Crash? {
        return Halted;
      }
      StepUndoing(m, out);
      end := Forget(failed || !out.Ok?);
    }

    method Forget(failed: bool) returns (end: End)
      requires Valid() && machine.pc == Undoing(Forgetting(failed))
      modifies this`disk, this`position, this`trace, this`machine
      ensures Valid() && SameUpdate(old(machine), machine) && old(trace) <= trace && machine.caller == old(machine.caller)
      ensures end.Halted? ==> machine.pc.Down?
      ensures !end.Halted? ==> machine.pc == BackPc(machine.caller, end.Done?)
    {
      hide Continue, Follows;
      StepCrash(machine);
      ghost var m := machine;
      var out := Try();
      if out.Crash? {
        return Halted;
      }
      StepUndoing(m, out);
      if !out.Ok? || disk.journal.None? {
        return Failed;
      }
      disk := disk.(journal := None);
      if failed {
        return Failed;
      }
      StepCrash(machine);
      m := machine;
      out := Try();
      if out.Crash? {
        return Halted;
      }
      StepUndoing(m, out);
      if out.Ok? {
        disk := disk.(rollbacks := disk.rollbacks + 1);
      }
      end := EndOf(out);
    }

    /** One turn of the loop of `finalizePrevious`. The machine takes over the new version when both turns
        are done; the manager does so after the call. */
    method KeepPrevious(r: Role) returns (end: End)
      requires Valid() && machine.pc == Finalizing(r, Dropping)
      modifies this`disk, this`position, this`trace, this`machine
      ensures Sound() && machine.disk == disk && machine.caller == old(machine.caller) && disk.journal == old(disk.journal)
      ensures machine.before == old(machine.before) && machine.after == old(machine.after) && machine.next == old(machine.next)
      ensures machine.committed == old(machine.committed) && old(trace) <= trace
      ensures end.Halted? ==> machine == old(machine).(pc := Down, disk := disk)
      ensures end.Failed? ==> machine == Finalized(old(machine).(disk := disk), false)
      ensures end.Done? ==> machine == KeepNext(old(machine).(disk := disk), r)
    {
      hide Continue, Follows;
      StepCrash(machine);
      ghost var m := machine;
      var out := Try();
      if !out.Ok? {
        if !out.Crash? { StepFinalizing(m, out); }
        return EndOf(out);
      }
      StepFinalizing(m, out);
      var s := Get(disk, r);
      if s.rollback.None? {
        return Done;
      }
      disk := Put(disk, r, s.(previous := None));
      StepCrash(machine);
      m := machine;
      out := Try();
      if !out.Ok? {
        if !out.Crash? { StepFinalizing(m, out); }
        return EndOf(out);
      }
      StepFinalizing(m, out);
      disk := Put(disk, r, s.(previous := s.rollback, rollback := None));
      StepCrash(machine);
      m := machine;
      out := Try();
      if !out.Crash? { StepFinalizing(m, out); }
      end := EndOf(out);
    }

    /** `finalizePrevious`. */
    method FinalizePrevious() returns (end: End)
      requires Valid() && machine.pc == Finalizing(Worker, Dropping)
      modifies this`disk, this`position, this`trace, this`machine
      ensures Sound() && machine.disk == disk && machine.caller == old(machine.caller) && disk.journal == old(disk.journal)
      ensures machine.before == old(machine.before) && machine.after == old(machine.after) && machine.next == old(machine.next)
      ensures machine.committed == old(machine.committed) && old(trace) <= trace
      ensures end.Halted? ==> machine.pc.Down? && machine.version == version
      ensures end.Failed? ==> machine == Finalized(old(machine).(disk := disk), false)
      ensures end.Done? ==> machine == Finalized(old(machine).(disk := disk), true)
    {
      hide Continue, Follows;
      var roles := [Worker, Host];
      for i := 0 to 2
        invariant Sound() && machine.disk == disk && disk.journal == old(disk.journal) && old(trace) <= trace
        invariant i < 2 ==> machine == old(machine).(disk := disk, pc := Finalizing(roles[i], Dropping))
        invariant i == 2 ==> machine == Finalized(old(machine).(disk := disk), true)
      {
        end := KeepPrevious(roles[i]);
        if !end.Done? {
          return;
        }
      }
      return Done;
    }

    /** Writes an entry. The first two name the staged files. */
    method WriteJournal(stage: Stage, next: string, staged: set<Role>) returns (end: End)
      requires Valid() && machine.pc == Writing(stage) && machine.next == next
      requires staged == if stage.Staged? || stage.Activating? then {Worker, Host} else {}
      modifies this`disk, this`position, this`trace, this`machine
      ensures Valid() && SameUpdate(old(machine), machine) && old(trace) <= trace
      ensures end.Halted? ==> machine.pc.Down?
      ensures end.Done? ==> machine == AfterWrite(HostUpdate.WriteJournal(old(machine), stage), stage)
      ensures end.Failed? && (stage.Staged? || stage.Activating?) ==> machine.pc == Leaving(Host, Clean(disk))
      ensures end.Failed? && (stage.Checking? || stage.Committed?) ==>
        machine.pc == Undoing(Removing(Worker, false)) && machine.caller.Activation?
    {
      hide Continue, Follows;
      StepCrash(machine);
      ghost var m := machine;
      var out := Try();
      if !out.Crash? { StepWriting(m, out); }
      if out.Ok? || out.Late? {
        disk := disk.(journal := Some(Journal(stage, next, version, staged)));
      }
      end := EndOf(out);
    }

    /** Fetches both binaries and checks what was fetched. */
    method Download(pair: Pair) returns (end: End)
      requires Valid() && machine.pc == Fetching(Worker) && machine.after == pair
      modifies this`disk, this`position, this`trace, this`machine
      ensures Valid() && SameUpdate(old(machine), machine) && old(trace) <= trace && machine.committed == old(machine.committed)
      ensures end.Halted? ==> machine.pc.Down?
      ensures end.Failed? ==> machine.pc == Leaving(Host, Clean(disk))
      ensures end.Done? ==> machine.pc == Writing(Staged)
    {
      hide ReplaceStep, FinishStep, UndoStep, WriteStep, Follows;
      var out := Try();
      if !out.Ok? {
        return EndOf(out);
      }
      disk := disk.(worker := disk.worker.(staged := Some(pair.worker)));
      out := Try();
      if !out.Ok? {
        return EndOf(out);
      }
      disk := disk.(host := disk.host.(staged := Some(pair.host)));
      out := Try();
      end := EndOf(out);
    }

    /** Removes the staged files, last fetched first; failures are ignored. */
    method RemoveStaged(ghost good: bool) returns (end: End)
      requires Valid() && machine.pc == Leaving(Host, good)
      modifies this`disk, this`position, this`trace, this`machine
      ensures Valid() && SameUpdate(old(machine), machine) && old(trace) <= trace && machine.committed == old(machine.committed)
      ensures end.Halted? ==> machine.pc.Down?
      ensures !end.Halted? ==> end.Done? && machine.pc == if good then Ready else Stuck
    {
      hide ReplaceStep, FinishStep, UndoStep, WriteStep, Follows;
      var out := Try();
      if out.Crash? {
        return Halted;
      }
      if out.Ok? {
        disk := disk.(host := disk.host.(staged := None));
      }
      out := Try();
      if out.Crash? {
        return Halted;
      }
      if out.Ok? {
        disk := disk.(worker := disk.worker.(staged := None));
      }
      end := Done;
    }

    /** Both binaries are replaced. */
    method ReplaceBoth() returns (end: End)
      requires Valid() && machine.pc == Replacing(Worker, Clearing)
      modifies this`disk, this`position, this`trace, this`machine
      ensures Valid() && SameUpdate(old(machine), machine) && old(trace) <= trace
      ensures end.Halted? ==> machine.pc.Down?
      ensures end.Failed? ==> machine.pc == Undoing(Removing(Worker, false)) && machine.caller.Activation?
      ensures end.Done? ==> machine.pc == Writing(Checking)
    {
      hide Continue, Follows;
      end := ReplaceBinary(Worker);
      if end.Done? {
        end := ReplaceBinary(Host);
      }
    }

    /** Restart, health check and version record. */
    method Prove(next: string) returns (end: End)
      requires Valid() && machine.pc == Restarting && machine.next == next
      modifies this`disk, this`position, this`trace, this`machine
      ensures Valid() && SameUpdate(old(machine), machine) && old(trace) <= trace
      ensures end.Halted? ==> machine.pc.Down?
      ensures end.Failed? ==> machine.pc == Undoing(Removing(Worker, false)) && machine.caller.Activation?
      ensures end.Done? ==> machine.pc == Writing(Committed) && disk == old(disk).(record := Some(next))
    {
      hide ReplaceStep, FinishStep, UndoStep, WriteStep, Follows;
      var out := Try();
      if !out.Ok? {
        return EndOf(out);
      }
      out := Try();
      if !out.Ok? {
        return EndOf(out);
      }
      out := Try();
      if out.Ok? || out.Late? {
        disk := disk.(record := Some(next));
      }
      end := EndOf(out);
    }

    /** From the replacement to the committed entry. */
    method Attempt(next: string) returns (end: End)
      requires Valid() && machine.pc == Replacing(Worker, Clearing) && machine.next == next
      modifies this`disk, this`position, this`trace, this`machine
      ensures Valid() && SameUpdate(old(machine), machine) && old(trace) <= trace
      ensures end.Halted? ==> machine.pc.Down?
      ensures end.Failed? ==> machine.pc == Undoing(Removing(Worker, false)) && machine.caller.Activation?
      ensures end.Done? ==>
        machine.pc == Finalizing(Worker, Dropping) && machine.caller.Activation? && machine.committed && Marked(disk)
    {
      hide Continue, Follows;
      end := ReplaceBoth();
      if !end.Done? {
        return;
      }
      end := WriteJournal(Checking, next, {});
      if !end.Done? {
        return;
      }
      end := Prove(next);
      if !end.Done? {
        return;
      }
      end := WriteJournal(Committed, next, {});
    }

    /** The attempt; every error rolls back. */
    method Switch(next: string) returns (end: End)
      requires Valid() && machine.pc == Replacing(Worker, Clearing) && machine.next == next
      modifies this`disk, this`position, this`trace, this`machine
      ensures Valid() && SameUpdate(old(machine), machine) && old(trace) <= trace
      ensures end.Halted? ==> machine.pc.Down?
      ensures end.Failed? ==> machine.pc == Leaving(Host, true) || machine.pc == Leaving(Host, false)
      ensures end.Done? ==>
        machine.pc == Finalizing(Worker, Dropping) && machine.caller.Activation? && machine.committed && Marked(disk)
    {
      hide Continue, Follows;
      end := Attempt(next);
      if end.Failed? {
        end := Rollback();
        end := if end.Halted? then Halted else Failed;
      }
    }

    /** Downloads, and the first two entries; errors only end the activation. */
    method Prepare(pair: Pair, next: string) returns (end: End)
      requires Valid() && machine.pc == Fetching(Worker) && machine.after == pair && machine.next == next
      modifies this`disk, this`position, this`trace, this`machine
      ensures Valid() && SameUpdate(old(machine), machine) && old(trace) <= trace
      ensures end.Halted? ==> machine.pc.Down?
      ensures end.Failed? ==> machine.pc == Leaving(Host, Clean(disk))
      ensures end.Done? ==> machine.pc == Replacing(Worker, Clearing)
    {
      hide Continue, Follows;
      end := Download(pair);
      if !end.Done? {
        return;
      }
      end := WriteJournal(Staged, next, {Worker, Host});
      if !end.Done? {
        return;
      }
      end := WriteJournal(Activating, next, {Worker, Host});
    }

    /** What `activate` does before its deferred removals. */
    method Carry(pair: Pair, next: string) returns (end: End)
      requires Valid() && machine.pc == Fetching(Worker) && machine.after == pair && machine.next == next
      modifies this`disk, this`position, this`trace, this`machine, this`version
      ensures Valid() && machine.after == pair && old(trace) <= trace
      ensures end.Halted? ==> machine.pc.Down?
      ensures !end.Halted? ==> machine.pc == Leaving(Host, true) || (machine.pc == Leaving(Host, false) && end.Failed?)
      ensures end.Done? ==> machine.committed && version == next
    {
      hide Continue, Follows, Clean;
      end := Prepare(pair, next);
      if !end.Done? {
        return;
      }
      end := Switch(next);
      if !end.Done? {
        return;
      }
      end := FinalizePrevious();
      if end.Done? {
        version := next;
      }
    }

    /** `activate`. An older version, or the same one unless it is installed already, is refused. Otherwise
        the files go through the machine's activation, whatever fails and wherever it stops. If everything
        since a regular start was regular, a manager that is ready again has a pair in place: the new one
        exactly when the activation was committed. */
    method Activate(pair: Pair, next: string) returns (end: End)
      requires Valid() && (machine.pc.Ready? || machine.pc.Stuck?)
      modifies this
      ensures Valid() && (end.Halted? ==> machine.pc.Down?) && (!end.Halted? ==> machine.pc.Ready? || machine.pc.Stuck?)
      ensures !Precedes(old(version), next) ==>
        && disk == old(disk) && version == old(version) && machine == old(machine) && trace == old(trace)
        && (end.Done? <==> AgreeTo(old(version), next, 4) && Marked(disk) && disk.journal.value.version == next && Installed(disk, pair))
      ensures Precedes(old(version), next) ==> machine.after == pair && old(trace) + [HostUpdate.Activate(pair, next)] <= trace
      ensures Precedes(old(version), next) && end.Done? ==> machine.pc.Ready? && machine.committed && version == next
      ensures Start(origin) && RegularRun(origin, trace) && machine.pc.Ready? ==>
        Clean(disk) && Installed(disk, Settled(machine)) && (machine.committed ==> PreviousKept(machine))
    {
      hide Continue, Run, RegularRun, Follows;
      var comparison := CompareRelease(next, version);
      if comparison <= 0 {
        AgreeBothWays(next, version);
        FollowsRun(origin, trace, machine, tape, position);
        if Start(origin) && RegularRun(origin, trace) { NeverMixed(origin, trace); }
        return if comparison == 0 && Marked(disk) && disk.journal.value.version == next && Installed(disk, pair) then Done else Failed;
      }
      Follow(HostUpdate.Activate(pair, next));
      end := Carry(pair, next);
      if !end.Halted? {
        var left := RemoveStaged(machine.pc.good);
        end := if left.Halted? then Halted else end;
      }
      FollowsRun(origin, trace, machine, tape, position);
      if Start(origin) && RegularRun(origin, trace) { NeverMixed(origin, trace); }
    }

    /** `recover`, from whatever a stop left, and again from whatever a stopped recovery left: a committed
        entry whose worker is healthy is completed, another one undone. If everything since a regular start
        was regular, success means the old pair before the commit and the new one after it. */
    method Recover(current: string) returns (end: End)
      requires Valid() && machine.pc.Down?
      modifies this
      ensures Valid() && (end.Done? <==> machine.pc.Ready?) && (!end.Done? ==> machine.pc.Down?)
      ensures old(trace) + [HostUpdate.Recover(current)] <= trace
      ensures Start(origin) && RegularRun(origin, trace) && end.Done? ==>
        Clean(disk) && Installed(disk, Settled(machine)) && (machine.committed ==> PreviousKept(machine))
    {
      hide Continue, Run, RegularRun, Follows;
      version := current;
      Follow(HostUpdate.Recover(current));
      end := Reload();
      FollowsRun(origin, trace, machine, tape, position);
      if Start(origin) && RegularRun(origin, trace) { NeverMixed(origin, trace); }
    }

    /** Reads the journal and acts on it. */
    method Reload() returns (end: End)
      requires Valid() && machine.pc.Loading?
      modifies this`disk, this`position, this`trace, this`machine, this`version
      ensures Valid() && (end.Done? <==> machine.pc.Ready?) && (!end.Done? ==> machine.pc.Down?) && old(trace) <= trace
    {
      hide ReplaceStep, FinishStep, UndoStep, WriteStep, Follows;
      var out := Try();
      if !out.Ok? {
        return EndOf(out);
      }
      if disk.journal.None? {
        return Done;
      }
      var journal := disk.journal.value;
      if journal.stage.Committed? {
        end := Complete(journal);
      } else {
        end := Unstage(journal.staged);
        if end.Done? {
          end := Rollback();
        }
      }
    }

    /** Checks a committed activation again and finishes it, or reverts it. */
    method Complete(journal: Journal) returns (end: End)
      requires Valid() && machine.pc.CheckingAgain? && disk.journal == Some(journal)
      modifies this`disk, this`position, this`trace, this`machine, this`version
      ensures Valid() && (end.Done? <==> machine.pc.Ready?) && (!end.Done? ==> machine.pc.Down?) && old(trace) <= trace
    {
      hide ReplaceStep, FinishStep, UndoStep, WriteStep, Follows;
      var out := Try();
      if out.Crash? {
        return Halted;
      }
      if !out.Ok? {
        version := journal.previous;
        end := Rollback();
        return if end.Halted? then Halted else Failed;
      }
      end := FinalizePrevious();
      if end.Done? {
        version := journal.version;
      }
    }

    /** Removes the staged files that the journal names; failures are ignored. */
    method Unstage(named: set<Role>) returns (end: End)
      requires Valid() && machine.pc == Unstaging(Worker) && disk.journal.Some? && disk.journal.value.staged == named
      modifies this`disk, this`position, this`trace, this`machine
      ensures Valid() && SameUpdate(old(machine), machine) && old(trace) <= trace
      ensures end.Halted? ==> machine.pc.Down?
      ensures !end.Halted? ==> end.Done? && machine.pc == Undoing(Removing(Worker, false)) && machine.caller.Recovery?
    {
      hide ReplaceStep, FinishStep, UndoStep, WriteStep, Follows;
      var roles := [Worker, Host];
      for i := 0 to 2
        invariant Valid() && SameUpdate(old(machine), machine) && old(trace) <= trace
        invariant disk.journal == old(disk.journal)
        invariant i < 2 ==> machine.pc == Unstaging(roles[i])
        invariant i == 2 ==> machine.pc == Undoing(Removing(Worker, false)) && machine.caller.Recovery?
      {
        var out := Try();
        if out.Crash? {
          return Halted;
        }
        if out.Ok? && roles[i] in named {
          disk := Put(disk, roles[i], Get(disk, roles[i]).(staged := None));
        }
      }
      return Done;
    }
  }

  lemma AgreeBothWays(a: string, b: string)
    ensures AgreeTo(a, b, 4) <==> AgreeTo(b, a, 4)
  {
  }
}
