/** Replacing the worker and host binaries as a pair (internal/hostservice/update_unix.go).

    Every file operation is one atomic step. It may succeed, fail, or (for writes that rename and then
    sync) report failure after taking effect; the process may stop between any two steps.
 */
module HostUpdate {
  import opened Basics
  import opened ReleaseVersion

  type Binary = string

  datatype Role = Worker | Host

  /** The files of one binary: itself, `.rollback`, `.previous` and the downloaded replacement. */
  datatype Slot = Slot(current: Option<Binary>, rollback: Option<Binary>, previous: Option<Binary>, staged: Option<Binary>)

  datatype Stage = Staged | Activating | Checking | Committed

  datatype Journal = Journal(stage: Stage, version: string, previous: string, staged: set<Role>)

  datatype Disk = Disk(worker: Slot, host: Slot, journal: Option<Journal>, record: Option<string>, rollbacks: nat)

  datatype Pair = Pair(worker: Binary, host: Binary)

  /** Who called `rollback`: `activate`, `recover`, or `recover` after a failed health check. */
  datatype Caller = Activation | Recovery | Reversion

  /** Steps of `replaceUpdateBinary`, `finalizePrevious` and `rollback`. */
  datatype Replace = Clearing | SettingAside | Installing | PuttingBack | Syncing
  datatype Finish = Dropping | Keeping | SyncingPrevious
  datatype Undo =
    | Removing(role: Role, failed: bool) | Returning(role: Role, failed: bool)
    | RecordingBack | RestartingBack(failed: bool) | Forgetting(failed: bool) | Counting

  /** The next step of the running code. `Ready`: the last operation succeeded, or cleaned up after
      itself. `Stuck`: a binary may still be set aside. */
  datatype Pc =
    | Down | Ready | Stuck
    | Fetching(role: Role) | Inspecting | Writing(stage: Stage)
    | Replacing(role: Role, replace: Replace)
    | Restarting | CheckingHealth | Recording
    | Finalizing(role: Role, finish: Finish)
    | Undoing(undo: Undo)
    | Leaving(role: Role, good: bool)
    | Loading | CheckingAgain | Unstaging(role: Role)

  /** `before` and `after` are the pairs of the latest activation; `committed` records that its journal
      entry was committed. They are not read by the code. */
  datatype Machine = Machine(disk: Disk, pc: Pc, caller: Caller, version: string, next: string,
                             before: Pair, after: Pair, committed: bool)

  datatype Outcome = Ok | Fail | Late | Crash

  datatype Change =
    | Activate(pair: Pair, version: string)
    | Boot(version: string)
    | Recover(version: string)
    | Step(outcome: Outcome)

  function Get(d: Disk, r: Role): Slot { if r.Worker? then d.worker else d.host }

  function Put(d: Disk, r: Role, s: Slot): Disk { if r.Worker? then d.(worker := s) else d.(host := s) }

  function Of(p: Pair, r: Role): Binary { if r.Worker? then p.worker else p.host }

  /** No binary is set aside. */
  predicate Clean(d: Disk) { d.worker.rollback.None? && d.host.rollback.None? }

  predicate Installed(d: Disk, p: Pair) { d.worker.current == Some(p.worker) && d.host.current == Some(p.host) }

  // ----- the code -----

  function Goto(m: Machine, pc: Pc): Machine { m.(pc := pc) }

  /** `rollback` begins. */
  function Back(m: Machine, caller: Caller): Machine { m.(pc := Undoing(Removing(Worker, false)), caller := caller) }

  function WriteJournal(m: Machine, stage: Stage): Machine {
    var names := if stage.Staged? || stage.Activating? then {Worker, Host} else {};
    m.(disk := m.disk.(journal := Some(Journal(stage, m.next, m.version, names))),
       committed := m.committed || stage.Committed?)
  }

  function AfterWrite(m: Machine, stage: Stage): Machine {
    match stage
    case Staged => Goto(m, Writing(Activating))
    case Activating => Goto(m, Replacing(Worker, Clearing))
    case Checking => Goto(m, Restarting)
    case Committed => Goto(m, Finalizing(Worker, Dropping)).(caller := Activation)
  }

  /** `activate` gives up before it has changed a binary. */
  function GiveUp(m: Machine): Machine { Goto(m, Leaving(Host, Clean(m.disk))) }

  /** Before anything was replaced a failed write only ends the activation. */
  function WriteFailed(m: Machine, stage: Stage): Machine {
    if stage.Staged? || stage.Activating? then GiveUp(m) else Back(m, Activation)
  }

  /** `finalizePrevious` returned. */
  function Finalized(m: Machine, ok: bool): Machine {
    if m.caller.Activation? then
      if ok then m.(pc := Leaving(Host, true), version := m.next) else Goto(m, Leaving(Host, false))
    else if ok then m.(pc := Ready, version := if m.disk.journal.Some? then m.disk.journal.value.version else m.version)
    else Goto(m, Down)
  }

  function KeepNext(m: Machine, r: Role): Machine {
    if r.Worker? then Goto(m, Finalizing(Host, Dropping)) else Finalized(m, true)
  }

  function BackNext(m: Machine, r: Role, failed: bool): Machine {
    if r.Worker? then Goto(m, Undoing(Removing(Host, failed)))
    else if failed then BackDone(m, false)
    else Goto(m, Undoing(RecordingBack))
  }

  /** `rollback` returned. */
  function BackDone(m: Machine, ok: bool): Machine {
    match m.caller
    case Activation => Goto(m, Leaving(Host, ok))
    case Recovery => Goto(m, if ok then Ready else Down)
    case Reversion => Goto(m, Down)
  }

  function WriteStep(m: Machine, stage: Stage, out: Outcome): Machine {
    if out.Ok? then AfterWrite(WriteJournal(m, stage), stage)
    else if out.Late? then WriteFailed(WriteJournal(m, stage), stage)
    else WriteFailed(m, stage)
  }

  /** `recover` reads the journal, then finishes or undoes what it says. */
  function LoadStep(m: Machine, ok: bool): Machine {
    if !ok then Goto(m, Down)
    else if m.disk.journal.None? then Goto(m, Ready)
    else if m.disk.journal.value.stage.Committed? then Goto(m, CheckingAgain)
    else Goto(m, Unstaging(Worker))
  }

  function CheckStep(m: Machine, ok: bool): Machine {
    if ok then m.(pc := Finalizing(Worker, Dropping), caller := Recovery)
    else Back(m.(version := if m.disk.journal.Some? then m.disk.journal.value.previous else m.version), Reversion)
  }

  function UnstageStep(m: Machine, r: Role, ok: bool): Machine {
    var d := m.disk;
    var named := d.journal.Some? && r in d.journal.value.staged;
    var w := if ok && named then m.(disk := Put(d, r, Get(d, r).(staged := None))) else m;
    if r.Worker? then Goto(w, Unstaging(Host)) else Back(w, Recovery)
  }

  function ReplaceStep(m: Machine, r: Role, at: Replace, ok: bool): Machine {
    var d, s := m.disk, Get(m.disk, r);
    match at
    case Clearing =>
      if !ok || s.current.None? || s.staged.None? then Back(m, Activation)
      else m.(disk := Put(d, r, s.(rollback := None)), pc := Replacing(r, SettingAside))
    case SettingAside =>
      if ok then m.(disk := Put(d, r, s.(rollback := s.current, current := None)), pc := Replacing(r, Installing))
      else Back(m, Activation)
    case Installing =>
      if ok then m.(disk := Put(d, r, s.(current := s.staged, staged := None)), pc := Replacing(r, Syncing))
      else Goto(m, Replacing(r, PuttingBack))
    case PuttingBack =>
      if ok then Back(m.(disk := Put(d, r, s.(current := s.rollback, rollback := None))), Activation)
      else Back(m, Activation)
    case Syncing =>
      if !ok then Back(m, Activation)
      else Goto(m, if r.Worker? then Replacing(Host, Clearing) else Writing(Checking))
  }

  function FinishStep(m: Machine, r: Role, at: Finish, ok: bool): Machine {
    var d, s := m.disk, Get(m.disk, r);
    if !ok then Finalized(m, false)
    else match at
    case Dropping =>
      if s.rollback.None? then KeepNext(m, r)
      else m.(disk := Put(d, r, s.(previous := None)), pc := Finalizing(r, Keeping))
    case Keeping => m.(disk := Put(d, r, s.(previous := s.rollback, rollback := None)), pc := Finalizing(r, SyncingPrevious))
    case SyncingPrevious => KeepNext(m, r)
  }

  function UndoStep(m: Machine, at: Undo, out: Outcome): Machine {
    var d, ok := m.disk, out.Ok?;
    match at
    case Removing(r, failed) =>
      var s := Get(d, r);
      if !ok then BackNext(m, r, true)
      else if s.rollback.None? then BackNext(m, r, failed)
      else m.(disk := Put(d, r, s.(current := None)), pc := Undoing(Returning(r, failed)))
    case Returning(r, failed) =>
      var s := Get(d, r);
      if !ok then BackNext(m, r, true)
      else BackNext(m.(disk := Put(d, r, s.(current := s.rollback, rollback := None))), r, failed)
    case RecordingBack =>
      Goto(if out.Fail? then m else m.(disk := d.(record := Some(m.version))), Undoing(RestartingBack(!ok)))
    case RestartingBack(failed) => Goto(m, Undoing(Forgetting(failed || !ok)))
    case Forgetting(failed) =>
      if !ok || d.journal.None? then BackDone(m, false)
      else if failed then BackDone(m.(disk := d.(journal := None)), false)
      else m.(disk := d.(journal := None), pc := Undoing(Counting))
    case Counting =>
      if ok then BackDone(m.(disk := d.(rollbacks := d.rollbacks + 1)), true) else BackDone(m, false)
  }

  /** One step of the running code. */
  function Continue(m: Machine, out: Outcome): Machine {
    var d, ok := m.disk, out.Ok?;
    if out.Crash? then Goto(m, Down)
    else match m.pc
    case Down => m
    case Ready => m
    case Stuck => m
    case Fetching(r) =>
      if !ok then GiveUp(m)
      else m.(disk := Put(d, r, Get(d, r).(staged := Some(Of(m.after, r)))), pc := if r.Worker? then Fetching(Host) else Inspecting)
    case Inspecting => if ok then Goto(m, Writing(Staged)) else GiveUp(m)
    case Writing(stage) => WriteStep(m, stage, out)
    case Replacing(r, at) => ReplaceStep(m, r, at, ok)
    case Restarting => if ok then Goto(m, CheckingHealth) else Back(m, Activation)
    case CheckingHealth => if ok then Goto(m, Recording) else Back(m, Activation)
    case Recording =>
      var w := if out.Fail? then m else m.(disk := d.(record := Some(m.next)));
      if ok then Goto(w, Writing(Committed)) else Back(w, Activation)
    case Finalizing(r, at) => FinishStep(m, r, at, ok)
    case Undoing(at) => UndoStep(m, at, out)
    case Leaving(r, good) =>
      var w := if ok then m.(disk := Put(d, r, Get(d, r).(staged := None))) else m;
      Goto(w, if r.Host? then Leaving(Worker, good) else if good then Ready else Stuck)
    case Loading => LoadStep(m, ok)
    case CheckingAgain => CheckStep(m, ok)
    case Unstaging(r) => UnstageStep(m, r, ok)
  }

  predicate Present(d: Disk) { d.worker.current.Some? && d.host.current.Some? }

  /** No binary that is set aside can be lost by an activation: it would have to be deleted first, which
      happens only if something is in its place, and the host's turn comes after the worker's. */
  predicate Startable(d: Disk) {
    Clean(d) || d.worker.current.None? || (d.worker.rollback.None? && d.host.current.None?)
  }

  function Next(m: Machine, c: Change): Machine {
    match c
    case Activate(pair, version) =>
      if (!m.pc.Ready? && !m.pc.Stuck?) || !Precedes(m.version, version) then m
      else m.(pc := Fetching(Worker), next := version, committed := false, after := pair,
              before := if Present(m.disk) then Pair(m.disk.worker.current.value, m.disk.host.current.value) else m.before)
    case Boot(version) => if m.pc.Down? && Present(m.disk) then m.(pc := Loading, version := version) else m
    case Recover(version) => if m.pc.Down? then m.(pc := Loading, version := version) else m
    case Step(out) => Continue(m, out)
  }

  function Run(m: Machine, cs: seq<Change>): Machine
    decreases |cs|
  {
    if cs == [] then m else Run(Next(m, cs[0]), cs[1..])
  }

  // ----- what every step keeps -----

  /** What `rollback` would put back is `b`. */
  predicate Keeps(s: Slot, b: Binary) {
    s.rollback == Some(b) || (s.rollback.None? && s.current == Some(b))
  }

  /** `after` is in place and `before` is set aside or kept as `.previous`. */
  predicate Switched(s: Slot, before: Binary, after: Binary) {
    s.current == Some(after) && (s.rollback == Some(before) || (s.rollback.None? && s.previous == Some(before)))
  }

  predicate SetAside(s: Slot, before: Binary) { s.current.None? && s.rollback == Some(before) }

  predicate Replaced(s: Slot, before: Binary, after: Binary) { s.current == Some(after) && s.rollback == Some(before) }

  predicate Marked(d: Disk) { d.journal.Some? && d.journal.value.stage.Committed? }

  /** Between steps, also when the process has stopped. */
  predicate OnDisk(m: Machine) {
    var d := m.disk;
    && (d.journal.None? ==> Clean(d))
    && (if m.committed then
          && Switched(d.worker, m.before.worker, m.after.worker) && Switched(d.host, m.before.host, m.after.host)
          && (Marked(d) || Clean(d))
        else
          && Keeps(d.worker, m.before.worker) && Keeps(d.host, m.before.host)
          && (Marked(d) ==> Clean(d)))
  }

  /** Both binaries are replaced, and the old ones set aside. */
  predicate BothReplaced(m: Machine) {
    && Unmarked(m)
    && Replaced(m.disk.worker, m.before.worker, m.after.worker) && Replaced(m.disk.host, m.before.host, m.after.host)
  }

  predicate BothStaged(m: Machine) {
    m.disk.worker.staged == Some(m.after.worker) && m.disk.host.staged == Some(m.after.host)
  }

  /** What the next step may rely on. */
  predicate AtPc(m: Machine) {
    var d := m.disk;
    match m.pc
    case Down => true
    case Stuck => true
    case Ready => Clean(d)
    case Fetching(r) => Untouched(m) && (r.Host? ==> d.worker.staged == Some(m.after.worker))
    case Inspecting => Untouched(m) && BothStaged(m)
    case Writing(stage) =>
      if stage.Staged? then Untouched(m) && BothStaged(m)
      else if stage.Activating? then Unmarked(m) && Startable(d) && BothStaged(m)
      else BothReplaced(m)
    case Replacing(r, at) => ReplaceAt(m, r, at)
    case Restarting => BothReplaced(m)
    case CheckingHealth => BothReplaced(m)
    case Recording => BothReplaced(m)
    case Finalizing(r, at) => FinishAt(m, r, at)
    case Undoing(at) => UndoAt(m, at)
    case Leaving(_, good) => good ==> Clean(d)
    case Loading => true
    case CheckingAgain => Marked(d)
    case Unstaging(_) => Unmarked(m) || Clean(d)
  }

  /** An activation that has not written its journal yet. */
  predicate Untouched(m: Machine) { !m.committed && (Clean(m.disk) || (Unmarked(m) && Startable(m.disk))) }

  /** Set aside with nothing in its place, or not set aside. */
  predicate Single(s: Slot) { s.rollback.None? || s.current.None? }

  predicate ReplaceAt(m: Machine, r: Role, at: Replace) {
    var s := Get(m.disk, r);
    && Unmarked(m)
    && (if r.Worker? then (at.Clearing? || Single(m.disk.host)) && m.disk.host.staged == Some(m.after.host)
        else Replaced(m.disk.worker, m.before.worker, m.after.worker))
    && (if at.Syncing? then Replaced(s, Of(m.before, r), Of(m.after, r))
        else
          && s.staged == Some(Of(m.after, r))
          && (match at
              case Clearing => if r.Worker? then Startable(m.disk) else Single(s)
              case SettingAside => s.rollback.None?
              case _ => SetAside(s, Of(m.before, r))))
  }

  predicate FinishAt(m: Machine, r: Role, at: Finish) {
    && Marked(m.disk) && (m.committed || Clean(m.disk)) && (r.Host? ==> m.disk.worker.rollback.None?)
    && (at.Keeping? ==> m.committed && Get(m.disk, r).rollback.Some?)
    && (at.SyncingPrevious? ==> Get(m.disk, r).rollback.None?)
  }

  predicate UndoAt(m: Machine, at: Undo) {
    match at
    case Removing(r, failed) => (Unmarked(m) || Clean(m.disk)) && (r.Host? && !failed ==> m.disk.worker.rollback.None?)
    case Returning(r, failed) =>
      Unmarked(m) && Get(m.disk, r).rollback.Some? && (r.Host? && !failed ==> m.disk.worker.rollback.None?)
    case _ => Clean(m.disk)
  }

  /** The commit has not been reached, neither in the code nor in the journal. */
  predicate Unmarked(m: Machine) { !m.committed && m.disk.journal.Some? && !Marked(m.disk) }

  predicate Inv(m: Machine) { OnDisk(m) && AtPc(m) }

  /** The three conditions under which the guarantees hold. Each can be read off the disk, or off the
      outcome of a call, and each is needed; see the lemmas at the end. */
  predicate Regular(m: Machine, c: Change) {
    match c
    case Activate(_, _) => m.pc.Stuck? ==> Startable(m.disk)
    case Step(out) =>
      && !(m.pc == Writing(Committed) && out.Late?)
      && (m.pc.CheckingAgain? && (out.Fail? || out.Late?) ==> Clean(m.disk))
    case _ => true
  }

  lemma ReplaceInv(m: Machine, r: Role, at: Replace, ok: bool)
    requires OnDisk(m) && ReplaceAt(m, r, at)
    ensures Inv(ReplaceStep(m, r, at, ok))
  {
  }

  lemma FinishInv(m: Machine, r: Role, at: Finish, ok: bool)
    requires OnDisk(m) && FinishAt(m, r, at)
    ensures Inv(FinishStep(m, r, at, ok))
  {
  }

  lemma UndoInv(m: Machine, at: Undo, out: Outcome)
    requires OnDisk(m) && UndoAt(m, at)
    ensures Inv(UndoStep(m, at, out))
  {
    match at
    case Removing(r, failed) =>
    case Returning(r, failed) =>
    case _ => hide Keeps, Switched; CloseInv(m, at, out);
  }

  lemma CloseInv(m: Machine, at: Undo, out: Outcome)
    requires OnDisk(m) && Clean(m.disk) && !at.Removing? && !at.Returning?
    ensures Inv(UndoStep(m, at, out))
  {
    hide Keeps, Switched;
  }

  lemma WriteInv(m: Machine, stage: Stage, out: Outcome)
    requires Inv(m) && m.pc == Writing(stage) && !(stage.Committed? && out.Late?) && !out.Crash?
    ensures Inv(WriteStep(m, stage, out))
  {
  }

  lemma RecoverInv(m: Machine, out: Outcome)
    requires Inv(m) && Regular(m, Step(out)) && !out.Crash?
    ensures m.pc.Loading? ==> Inv(LoadStep(m, out.Ok?))
    ensures m.pc.CheckingAgain? ==> Inv(CheckStep(m, out.Ok?))
    ensures m.pc.Unstaging? ==> Inv(UnstageStep(m, m.pc.role, out.Ok?))
  {
    hide ReplaceAt;
  }

  lemma ContinueInv(m: Machine, out: Outcome)
    requires Inv(m) && Regular(m, Step(out))
    ensures Inv(Continue(m, out))
  {
    hide ReplaceStep, FinishStep, UndoStep, WriteStep, LoadStep, CheckStep, UnstageStep;
    if !out.Crash? {
      match m.pc
      case Replacing(r, at) => ReplaceInv(m, r, at, out.Ok?);
      case Finalizing(r, at) => FinishInv(m, r, at, out.Ok?);
      case Undoing(at) => UndoInv(m, at, out);
      case Writing(stage) => WriteInv(m, stage, out);
      case Loading => RecoverInv(m, out);
      case CheckingAgain => RecoverInv(m, out);
      case Unstaging(_) => RecoverInv(m, out);
      case _ =>
    }
  }

  lemma NextInv(m: Machine, c: Change)
    requires Inv(m) && Regular(m, c)
    ensures Inv(Next(m, c))
  {
    if c.Step? { ContinueInv(m, c.outcome); }
  }

  // ----- every run -----

  predicate RegularRun(m: Machine, cs: seq<Change>)
    decreases |cs|
  {
    cs == [] || (Regular(m, cs[0]) && RegularRun(Next(m, cs[0]), cs[1..]))
  }

  /** A running service with nothing set aside. */
  predicate Start(m: Machine) {
    m.pc.Ready? && !m.committed && Clean(m.disk) && Installed(m.disk, m.before)
  }

  lemma {:induction false} RunInv(m: Machine, cs: seq<Change>)
    requires Inv(m) && RegularRun(m, cs)
    ensures Inv(Run(m, cs))
    decreases |cs|
  {
    hide Inv, Next, Regular;
    if cs != [] {
      NextInv(m, cs[0]);
      RunInv(Next(m, cs[0]), cs[1..]);
    }
  }

  /** The pair that the latest activation left: the new one exactly when it was committed. */
  function Settled(m: Machine): Pair { if m.committed then m.after else m.before }

  predicate PreviousKept(m: Machine) {
    m.disk.worker.previous == Some(m.before.worker) && m.disk.host.previous == Some(m.before.host)
  }

  /** Whatever failed or stopped, and however often: whenever the manager is ready again the two
      binaries are a pair, the old one or (exactly when the journal was committed) the new one with
      the old one as `.previous`; and until the commit the old pair is still on disk. */
  lemma NeverMixed(m: Machine, cs: seq<Change>)
    requires Start(m) && RegularRun(m, cs)
    ensures var r := Run(m, cs);
      && (r.pc.Ready? ==> Clean(r.disk) && Installed(r.disk, Settled(r)) && (r.committed ==> PreviousKept(r)))
      && (!r.committed ==> Keeps(r.disk.worker, r.before.worker) && Keeps(r.disk.host, r.before.host))
      && (r.committed ==> Installed(r.disk, r.after))
  {
    RunInv(m, cs);
  }

  // ----- recovery ends -----

  function ReplaceRank(at: Replace): nat {
    match at case Clearing => 4 case SettingAside => 3 case Installing => 2 case PuttingBack => 1 case Syncing => 1
  }

  function FinishRank(at: Finish): nat { match at case Dropping => 3 case Keeping => 2 case SyncingPrevious => 1 }

  function UndoRank(at: Undo): nat {
    match at
    case Removing(r, _) => if r.Worker? then 7 else 5
    case Returning(r, _) => if r.Worker? then 6 else 4
    case RecordingBack => 3
    case RestartingBack(_) => 2
    case Forgetting(_) => 1
    case Counting => 0
  }

  /** Decreases with every step that succeeds. */
  function Rank(pc: Pc): nat {
    match pc
    case Down => 0
    case Ready => 0
    case Stuck => 0
    case Leaving(r, _) => if r.Worker? then 1 else 2
    case Undoing(at) => 3 + UndoRank(at)
    case Finalizing(r, at) => 20 + FinishRank(at) + if r.Worker? then 4 else 0
    case CheckingAgain => 30
    case Unstaging(r) => if r.Worker? then 32 else 31
    case Loading => 33
    case Recording => 42
    case CheckingHealth => 43
    case Restarting => 44
    case Replacing(r, at) => 50 + ReplaceRank(at) + if r.Worker? then 5 else 0
    case Writing(stage) => (match stage case Staged => 62 case Activating => 61 case Checking => 45 case Committed => 41)
    case Inspecting => 63
    case Fetching(r) => if r.Worker? then 65 else 64
  }

  predicate AtRest(pc: Pc) { pc.Down? || pc.Ready? || pc.Stuck? }

  lemma PartsDescend(m: Machine)
    ensures m.pc.Replacing? ==> Rank(ReplaceStep(m, m.pc.role, m.pc.replace, true).pc) < Rank(m.pc)
    ensures m.pc.Finalizing? ==> Rank(FinishStep(m, m.pc.role, m.pc.finish, true).pc) < Rank(m.pc)
  {
  }

  lemma UndoDescends(m: Machine)
    requires m.pc.Undoing?
    ensures Rank(UndoStep(m, m.pc.undo, Ok).pc) < Rank(m.pc)
  {
    match m.pc.undo
    case Removing(r, failed) =>
    case Returning(r, failed) =>
    case RecordingBack =>
    case RestartingBack(failed) =>
    case Forgetting(failed) =>
    case Counting =>
  }

  lemma Descends(m: Machine)
    requires !AtRest(m.pc)
    ensures Rank(Continue(m, Ok).pc) < Rank(m.pc)
  {
    PartsDescend(m);
    if m.pc.Undoing? { UndoDescends(m); }
    hide ReplaceStep, FinishStep, UndoStep;
  }

  /** Runs the code to its end, every step succeeding. */
  function Settle(m: Machine): Machine
    decreases Rank(m.pc)
  {
    if AtRest(m.pc) then m else Descends(m); Settle(Continue(m, Ok))
  }

  /** On the way of a recovery: it will end well. */
  predicate Recovering(m: Machine) {
    match m.pc
    case Ready => true
    case Loading => true
    case CheckingAgain => true
    case Unstaging(_) => m.disk.journal.Some?
    case Finalizing(_, _) => m.caller.Recovery?
    case Undoing(at) =>
      && m.caller.Recovery? && m.disk.journal.Some? == !at.Counting?
      && (match at
          case Removing(_, failed) => !failed
          case Returning(_, failed) => !failed
          case RestartingBack(failed) => !failed
          case Forgetting(failed) => !failed
          case _ => true)
    case _ => false
  }

  lemma RecoveringOn(m: Machine)
    requires Inv(m) && Recovering(m) && !m.pc.Ready?
    ensures Recovering(Continue(m, Ok)) && Continue(m, Ok).committed == m.committed
    ensures Continue(m, Ok).before == m.before && Continue(m, Ok).after == m.after
  {
    hide UndoStep, UndoAt, FinishStep, FinishAt, ReplaceStep, ReplaceAt;
    if m.pc.Undoing? { UndoingOn(m); }
    if m.pc.Finalizing? { FinalizingOn(m); }
  }

  lemma UndoingOn(m: Machine)
    requires Inv(m) && Recovering(m) && m.pc.Undoing?
    ensures Recovering(Continue(m, Ok)) && Continue(m, Ok).committed == m.committed
    ensures Continue(m, Ok).before == m.before && Continue(m, Ok).after == m.after
  {
    hide FinishStep, FinishAt, ReplaceStep, ReplaceAt;
  }

  lemma FinalizingOn(m: Machine)
    requires Inv(m) && Recovering(m) && m.pc.Finalizing?
    ensures Recovering(Continue(m, Ok)) && Continue(m, Ok).committed == m.committed
    ensures Continue(m, Ok).before == m.before && Continue(m, Ok).after == m.after
  {
    hide UndoStep, UndoAt, ReplaceStep, ReplaceAt;
  }

  lemma {:induction false} SettleRecovers(m: Machine)
    requires Inv(m) && Recovering(m)
    ensures var r := Settle(m);
      r.pc.Ready? && Inv(r) && Settled(r) == Settled(m) && r.committed == m.committed && r.before == m.before
    decreases Rank(m.pc)
  {
    if !m.pc.Ready? {
      ContinueInv(m, Ok);
      RecoveringOn(m);
      Descends(m);
      hide Inv, Continue, Recovering;
      SettleRecovers(Continue(m, Ok));
    }
  }

  /** Stop the process at any point of any run, including in the middle of earlier recoveries: one
      undisturbed recovery (with the health check passing when the journal is committed) puts the
      old pair back before the commit, and keeps the new pair with the old one aside after it. */
  lemma RecoverRestores(m: Machine, cs: seq<Change>, version: string)
    requires Start(m) && RegularRun(m, cs) && Run(m, cs).pc.Down?
    ensures var s, r := Run(m, cs), Settle(Next(Run(m, cs), Recover(version)));
      && r.pc.Ready? && Clean(r.disk) && Installed(r.disk, if s.committed then s.after else s.before)
      && (s.committed ==> PreviousKept(r))
  {
    RunInv(m, cs);
    var s := Run(m, cs);
    var t := Next(s, Recover(version));
    NextInv(s, Recover(version));
    hide Run, RegularRun, Settle, Start;
    SettleRecovers(t);
  }

  /** A start of the service checks that both binaries exist before it recovers: it recovers exactly
      when they do. */
  lemma BootRecovers(m: Machine, cs: seq<Change>, version: string)
    requires Start(m) && RegularRun(m, cs) && Run(m, cs).pc.Down?
    ensures var s := Run(m, cs);
      Settle(Next(s, Boot(version))).pc.Ready? <==> s.disk.worker.current.Some? && s.disk.host.current.Some?
  {
    var s := Run(m, cs);
    if Present(s.disk) {
      RecoverRestores(m, cs, version);
      assert Next(s, Boot(version)) == Next(s, Recover(version));
    }
  }

  /** That check can fail: stopping between the two renames of a replacement leaves no binary in
      place, although recovery would put it back. */
  lemma BootBlocked(m: Machine, version: string)
    requires Inv(m) && m.pc == Replacing(Worker, Installing)
    ensures var s := Continue(m, Crash);
      && Next(s, Boot(version)) == s
      && Installed(Settle(Next(s, Recover(version))).disk, m.before)
  {
    var s := Continue(m, Crash);
    ContinueInv(m, Crash);
    NextInv(s, Recover(version));
    SettleRecovers(Next(s, Recover(version)));
  }

  // ----- an undisturbed activation -----

  /** On the way of an activation in which nothing fails. */
  predicate Advancing(m: Machine) {
    match m.pc
    case Fetching(_) => Clean(m.disk)
    case Inspecting => Clean(m.disk)
    case Writing(stage) =>
      if stage.Committed? then m.disk.record == Some(m.next) else stage.Checking? || Clean(m.disk)
    case Replacing(r, at) => !at.PuttingBack? && (at.Clearing? || r.Worker? ==> m.disk.host.rollback.None?)
                             && (at.Clearing? && r.Worker? ==> m.disk.worker.rollback.None?)
    case Restarting => true
    case CheckingHealth => true
    case Recording => true
    case Finalizing(_, _) => m.caller.Activation? && m.committed && m.disk.record == Some(m.next)
    case Leaving(_, good) => good && m.committed && m.disk.record == Some(m.next) && m.version == m.next
    case Ready => m.committed && m.disk.record == Some(m.next) && m.version == m.next
    case _ => false
  }

  lemma AdvanceOn(m: Machine)
    requires Inv(m) && Advancing(m) && !m.pc.Ready?
    ensures var r := Continue(m, Ok);
      Advancing(r) && r.before == m.before && r.after == m.after && r.next == m.next
  {
    hide UndoStep, UndoAt, ReplaceStep, ReplaceAt, FinishStep, FinishAt, Switched;
    if m.pc.Replacing? { ReplacingAdvances(m); }
    if m.pc.Finalizing? { FinalizingAdvances(m); }
  }

  lemma ReplacingAdvances(m: Machine)
    requires Inv(m) && Advancing(m) && m.pc.Replacing?
    ensures var r := Continue(m, Ok);
      Advancing(r) && r.before == m.before && r.after == m.after && r.next == m.next
  {
    hide UndoStep, UndoAt, FinishStep, FinishAt, Switched;
  }

  lemma FinalizingAdvances(m: Machine)
    requires Inv(m) && Advancing(m) && m.pc.Finalizing?
    ensures var r := Continue(m, Ok);
      Advancing(r) && r.before == m.before && r.after == m.after && r.next == m.next
  {
    hide UndoStep, UndoAt, ReplaceStep, ReplaceAt, Switched;
  }

  lemma {:induction false} SettleAdvances(m: Machine)
    requires Inv(m) && Advancing(m)
    ensures var r := Settle(m);
      && r.pc.Ready? && Inv(r) && r.committed && r.before == m.before && r.after == m.after
      && r.disk.record == Some(m.next) && r.version == m.next
    decreases Rank(m.pc)
  {
    if !m.pc.Ready? {
      ContinueInv(m, Ok);
      AdvanceOn(m);
      Descends(m);
      hide Inv, Continue, Advancing;
      SettleAdvances(Continue(m, Ok));
    } else {
      assert Advancing(m);
    }
  }

  /** When nothing fails the new pair is installed, the old one is kept as `.previous` and the new
      version is recorded. */
  lemma ActivationInstalls(m: Machine, cs: seq<Change>, pair: Pair, version: string)
    requires Start(m) && RegularRun(m, cs) && Run(m, cs).pc.Ready? && Precedes(Run(m, cs).version, version)
    ensures var s, r := Run(m, cs), Settle(Next(Run(m, cs), Activate(pair, version)));
      && r.pc.Ready? && Clean(r.disk) && Installed(r.disk, pair)
      && r.disk.worker.previous == s.disk.worker.current && r.disk.host.previous == s.disk.host.current
      && r.version == version && r.disk.record == Some(version)
  {
    RunInv(m, cs);
    var s := Run(m, cs);
    NextInv(s, Activate(pair, version));
    hide Run, RegularRun, Settle, Start, Continue;
    SettleAdvances(Next(s, Activate(pair, version)));
  }

  // ----- the journal -----

  /** What `loadJournal` demands of the order of the versions in an entry. */
  predicate Loads(j: Journal) { Precedes(j.previous, j.version) }

  predicate BeforeCommit(pc: Pc) {
    || pc.Fetching? || pc.Inspecting? || pc.Writing? || pc.Replacing?
    || pc.Restarting? || pc.CheckingHealth? || pc.Recording?
  }

  predicate Upgrading(m: Machine) {
    && (m.disk.journal.Some? ==> Loads(m.disk.journal.value))
    && (BeforeCommit(m.pc) ==> Precedes(m.version, m.next))
  }

  lemma ReplaceUpgrading(m: Machine, r: Role, at: Replace, ok: bool)
    requires Upgrading(m) && m.pc == Replacing(r, at)
    ensures Upgrading(ReplaceStep(m, r, at, ok))
  {
    hide Loads, Precedes;
  }

  lemma FinishUpgrading(m: Machine, r: Role, at: Finish, ok: bool)
    requires Upgrading(m)
    ensures Upgrading(FinishStep(m, r, at, ok))
  {
    hide Loads, Precedes;
  }

  lemma UndoUpgrading(m: Machine, at: Undo, out: Outcome)
    requires Upgrading(m)
    ensures Upgrading(UndoStep(m, at, out))
  {
    hide Loads, Precedes;
  }

  lemma NextUpgrading(m: Machine, c: Change)
    requires Upgrading(m)
    ensures Upgrading(Next(m, c))
  {
    hide Precedes, ReplaceStep, FinishStep, UndoStep;
    if c.Step? {
      match m.pc
      case Replacing(r, at) => ReplaceUpgrading(m, r, at, c.outcome.Ok?);
      case Finalizing(r, at) => FinishUpgrading(m, r, at, c.outcome.Ok?);
      case Undoing(at) => UndoUpgrading(m, at, c.outcome);
      case _ =>
    }
  }

  /** Every journal entry ever left on disk can be loaded again, whatever fails. */
  lemma {:induction false} JournalLoads(m: Machine, cs: seq<Change>)
    requires Upgrading(m)
    ensures Upgrading(Run(m, cs))
    decreases |cs|
  {
    hide Upgrading, Next;
    if cs != [] {
      NextUpgrading(m, cs[0]);
      JournalLoads(Next(m, cs[0]), cs[1..]);
    }
  }

  // ----- why the conditions are needed -----

  lemma Prepend(m: Machine, c: Change, cs: seq<Change>)
    ensures Run(m, [c] + cs) == Run(Next(m, c), cs)
    ensures RegularRun(m, [c] + cs) <==> Regular(m, c) && RegularRun(Next(m, c), cs)
  {
  }

  lemma RunNothing(m: Machine)
    ensures Run(m, []) == m
  {
  }

  lemma SettleStep(m: Machine)
    ensures Settle(m) == if AtRest(m.pc) then m else Settle(Continue(m, Ok))
  {
  }

  /** A recovery that finds a committed journal, the worker put back and the host not. */
  lemma HalfUndone(m: Machine)
    requires m.pc.Loading? && Marked(m.disk) && m.disk.worker.rollback.None? && m.disk.host.rollback.Some?
    ensures var r := Settle(m);
      r.pc.Ready? && r.disk.worker.current == m.disk.worker.current && r.disk.host.current == m.disk.host.current
  {
    hide Settle, UndoStep, ReplaceStep;
    var a := Continue(m, Ok);
    var b := Continue(a, Ok);
    var c := Continue(b, Ok);
    var d := Continue(c, Ok);
    var e := Continue(d, Ok);
    var f := Continue(e, Ok);
    SettleStep(m); SettleStep(a); SettleStep(b); SettleStep(c); SettleStep(d); SettleStep(e); SettleStep(f);
  }

  lemma LateCommitHalfUndone(m: Machine, version: string)
    requires Inv(m) && m.pc == Writing(Committed)
    ensures var c := Next(Next(Next(m, Step(Outcome.Late)), Step(Ok)), Step(Ok));
      var e := Next(Next(c, Step(Crash)), Recover(version));
      && e.pc.Loading? && Marked(e.disk) && e.disk.worker.rollback.None? && e.disk.host.rollback.Some?
      && e.disk.worker.current == Some(m.before.worker) && e.disk.host.current == Some(m.after.host)
  {
    hide FinishStep, ReplaceStep;
  }

  /** If the committed entry reaches the disk but its write reports a failure, the code rolls back
      under a committed journal. Stopped half-way, a recovery that finds the worker healthy keeps a
      mixed pair. */
  lemma LateCommitMixes(m: Machine, version: string)
    requires Inv(m) && m.pc == Writing(Committed)
    ensures var s := Run(m, [Step(Outcome.Late), Step(Ok), Step(Ok), Step(Crash), Recover(version)]);
      Settle(s).pc.Ready? && Installed(Settle(s).disk, Pair(m.before.worker, m.after.host))
  {
    hide Run, RegularRun, Settle, Next, Inv;
    LateCommitHalfUndone(m, version);
    var ok, a := Step(Ok), Next(m, Step(Outcome.Late));
    var b := Next(a, ok);
    var c := Next(b, ok);
    var d := Next(c, Step(Crash));
    var e := Next(d, Recover(version));
    HalfUndone(e);
    Prepend(d, Recover(version), []);
    RunNothing(e);
    assert [Recover(version)] + [] == [Recover(version)];
    Prepend(c, Step(Crash), [Recover(version)]);
    assert [Step(Crash)] + [Recover(version)] == [Step(Crash), Recover(version)];
    Prepend(b, ok, [Step(Crash), Recover(version)]);
    assert [ok] + [Step(Crash), Recover(version)] == [ok, Step(Crash), Recover(version)];
    Prepend(a, ok, [ok, Step(Crash), Recover(version)]);
    assert [ok] + [ok, Step(Crash), Recover(version)] == [ok, ok, Step(Crash), Recover(version)];
    Prepend(m, Step(Outcome.Late), [ok, ok, Step(Crash), Recover(version)]);
    assert [Step(Outcome.Late)] + [ok, ok, Step(Crash), Recover(version)] == [Step(Outcome.Late), ok, ok, Step(Crash), Recover(version)];
  }

  /** From here on no binary is touched. */
  predicate Closing(pc: Pc) {
    AtRest(pc) || pc.Leaving? || (pc.Undoing? && !pc.undo.Removing? && !pc.undo.Returning?)
  }

  lemma CloseStep(m: Machine)
    requires Closing(m.pc) && !AtRest(m.pc)
    ensures var r := Continue(m, Ok);
      Closing(r.pc) && r.disk.worker.current == m.disk.worker.current && r.disk.host.current == m.disk.host.current
  {
    hide FinishStep, ReplaceStep;
  }

  lemma {:induction false} Closes(m: Machine)
    requires Closing(m.pc)
    ensures Settle(m).disk.worker.current == m.disk.worker.current && Settle(m).disk.host.current == m.disk.host.current
    decreases Rank(m.pc)
  {
    if !AtRest(m.pc) {
      CloseStep(m);
      Descends(m);
      hide Continue;
      Closes(Continue(m, Ok));
    }
  }

  /** A binary with its rollback, if there is one, put back. */
  function PutBack(s: Slot): Slot {
    if s.rollback.Some? then s.(current := s.rollback, rollback := None) else s
  }

  /** `rollback` with both binaries put back. */
  function BothBack(m: Machine): Machine {
    m.(disk := m.disk.(worker := PutBack(m.disk.worker), host := PutBack(m.disk.host)), pc := Undoing(RecordingBack))
  }

  lemma WorkerBack(m: Machine)
    requires m.pc == Undoing(Removing(Worker, false))
    ensures Settle(m) == Settle(m.(disk := m.disk.(worker := PutBack(m.disk.worker)), pc := Undoing(Removing(Host, false))))
  {
    hide Settle;
    var a := Continue(m, Ok);
    SettleStep(m);
    SettleStep(a);
  }

  lemma HostBack(m: Machine)
    requires m.pc == Undoing(Removing(Host, false))
    ensures Settle(m) == Settle(m.(disk := m.disk.(host := PutBack(m.disk.host)), pc := Undoing(RecordingBack)))
  {
    hide Settle;
    var a := Continue(m, Ok);
    SettleStep(m);
    SettleStep(a);
  }

  lemma UndoSettles(m: Machine)
    requires m.pc == Undoing(Removing(Worker, false))
    ensures Settle(m) == Settle(BothBack(m))
  {
    WorkerBack(m);
    HostBack(m.(disk := m.disk.(worker := PutBack(m.disk.worker)), pc := Undoing(Removing(Host, false))));
  }

  /** A failed health check after the commit puts back what is still set aside. Undisturbed, that
      leaves a pair exactly when both binaries were still set aside or neither was. */
  lemma RevertIsPair(m: Machine)
    requires Inv(m) && m.committed && m.pc.CheckingAgain?
    requires m.before.worker != m.after.worker && m.before.host != m.after.host
    ensures var r := Settle(Continue(m, Fail));
      (Installed(r.disk, m.before) || Installed(r.disk, m.after)) <==>
      (m.disk.worker.rollback.Some? <==> m.disk.host.rollback.Some?)
  {
    var a := Continue(m, Fail);
    hide Settle;
    UndoSettles(a);
    Closes(BothBack(a));
  }

  // ----- activations of a stuck manager -----

  predicate OnlySteps(cs: seq<Change>) { forall i :: 0 <= i < |cs| ==> cs[i].Step? }

  lemma {:induction false} RunConcat(m: Machine, cs: seq<Change>, ds: seq<Change>)
    ensures Run(m, cs + ds) == Run(Run(m, cs), ds)
    ensures RegularRun(m, cs + ds) <==> RegularRun(m, cs) && RegularRun(Run(m, cs), ds)
    decreases |cs|
  {
    hide Next, Regular;
    if cs == [] {
      assert cs + ds == ds;
    } else {
      RunConcat(Next(m, cs[0]), cs[1..], ds);
      assert (cs + ds)[1..] == cs[1..] + ds;
    }
  }

  /** `n` steps that succeed. */
  function After(m: Machine, n: nat): Machine
    decreases n
  {
    if n == 0 then m else After(Continue(m, Ok), n - 1)
  }

  function Oks(n: nat): seq<Change> { if n == 0 then [] else [Step(Ok)] + Oks(n - 1) }

  lemma {:induction false} AfterRuns(m: Machine, n: nat)
    ensures Run(m, Oks(n)) == After(m, n) && RegularRun(m, Oks(n)) && OnlySteps(Oks(n))
    decreases n
  {
    hide Continue;
    if n > 0 {
      AfterRuns(Continue(m, Ok), n - 1);
      Prepend(m, Step(Ok), Oks(n - 1));
    }
  }

  lemma {:induction false} AfterMore(m: Machine, k: nat, n: nat)
    ensures After(m, k + n) == After(After(m, k), n)
    decreases k
  {
    hide Continue;
    if k > 0 { AfterMore(Continue(m, Ok), k - 1, n); }
  }

  /** The steps by which `Settle` comes to rest. */
  lemma {:induction false} SettleRuns(m: Machine) returns (n: nat)
    ensures After(m, n) == Settle(m)
    decreases Rank(m.pc)
  {
    if AtRest(m.pc) {
      n := 0;
    } else {
      Descends(m);
      hide Continue;
      var k := SettleRuns(Continue(m, Ok));
      n := k + 1;
    }
  }

  /** Binaries in place and set aside are the same. */
  predicate SameBinaries(d: Disk, e: Disk) {
    && d.worker.current == e.worker.current && d.worker.rollback == e.worker.rollback
    && d.host.current == e.host.current && d.host.rollback == e.host.rollback
  }

  /** The machines of one activation, at another step. */
  predicate SameActivation(m: Machine, r: Machine) {
    r.before == m.before && r.after == m.after && r.version == m.version && r.next == m.next
  }

  /** An activation has downloaded both binaries and begins to replace them. */
  lemma Downloads(m: Machine)
    requires m.pc == Fetching(Worker) && !m.committed
    ensures var r := After(m, 5);
      && r.pc == Replacing(Worker, Clearing) && SameBinaries(r.disk, m.disk) && SameActivation(m, r) && !r.committed
      && BothStaged(r) && r.disk.journal.Some?
  {
    hide After, ReplaceStep, FinishStep, UndoStep;
    var a := Continue(m, Ok);
    var b := Continue(a, Ok);
    var c := Continue(b, Ok);
    AfterStep(m, 4); AfterStep(a, 3); AfterStep(b, 2);
    Journals(c);
  }

  lemma Journals(m: Machine)
    requires m.pc == Writing(Staged)
    ensures var r := After(m, 2);
      && r.pc == Replacing(Worker, Clearing) && SameBinaries(r.disk, m.disk) && SameActivation(m, r)
      && r.committed == m.committed && r.disk.journal.Some?
      && r.disk.worker.staged == m.disk.worker.staged && r.disk.host.staged == m.disk.host.staged
  {
    hide After, ReplaceStep, FinishStep, UndoStep;
    var a := Continue(m, Ok);
    var b := Continue(a, Ok);
    AfterStep(m, 1); AfterStep(a, 0); AfterNothing(b);
  }

  lemma AfterStep(m: Machine, n: nat)
    ensures After(m, n + 1) == After(Continue(m, Ok), n)
  {
  }

  lemma AfterNothing(m: Machine)
    ensures After(m, 0) == m
  {
  }

  lemma ContinueReplaces(m: Machine)
    requires m.pc.Replacing?
    ensures Continue(m, Ok) == ReplaceStep(m, m.pc.role, m.pc.replace, true)
  {
  }

  /** One binary is replaced. */
  lemma Replaces(m: Machine, r: Role)
    requires m.pc == Replacing(r, Clearing) && Get(m.disk, r).current.Some? && Get(m.disk, r).staged.Some?
    ensures var s := Get(m.disk, r);
      After(m, 4) == m.(disk := Put(m.disk, r, s.(current := s.staged, staged := None, rollback := s.current)),
                        pc := if r.Worker? then Replacing(Host, Clearing) else Writing(Checking))
  {
    hide After, Continue;
    var a := Continue(m, Ok);
    ContinueReplaces(m);
    var b := Continue(a, Ok);
    ContinueReplaces(a);
    AfterStep(m, 3); AfterStep(a, 2);
    Installs(b, r);
  }

  lemma Installs(m: Machine, r: Role)
    requires m.pc == Replacing(r, Installing)
    ensures After(m, 2) == m.(disk := Put(m.disk, r, Get(m.disk, r).(current := Get(m.disk, r).staged, staged := None)),
                              pc := if r.Worker? then Replacing(Host, Clearing) else Writing(Checking))
  {
    hide After, Continue;
    var a := Continue(m, Ok);
    ContinueReplaces(m);
    var b := Continue(a, Ok);
    ContinueReplaces(a);
    AfterStep(m, 1); AfterStep(a, 0); AfterNothing(b);
  }

  /** The new pair is checked and committed. */
  lemma Commits(m: Machine)
    requires m.pc == Writing(Checking)
    ensures var r := After(m, 5);
      && r.pc == Finalizing(Worker, Dropping) && r.committed && r.caller.Activation? && SameActivation(m, r)
      && SameBinaries(r.disk, m.disk) && Marked(r.disk)
  {
    hide After, ReplaceStep, FinishStep, UndoStep;
    var a := Continue(m, Ok);
    var b := Continue(a, Ok);
    var c := Continue(b, Ok);
    AfterStep(m, 4); AfterStep(a, 3); AfterStep(b, 2);
    var d := Continue(c, Ok);
    var e := Continue(d, Ok);
    AfterStep(c, 1); AfterStep(d, 0); AfterNothing(e);
  }

  /** `rollback` in an activation closes well. */
  lemma ClosesReady(m: Machine)
    requires m.pc == Undoing(RecordingBack) && m.caller.Activation? && m.disk.journal.Some?
    ensures Settle(m).pc.Ready? && SameBinaries(Settle(m).disk, m.disk)
  {
    hide Settle, ReplaceStep, FinishStep;
    var a := Continue(m, Ok);
    var b := Continue(a, Ok);
    var c := Continue(b, Ok);
    SettleStep(m); SettleStep(a); SettleStep(b);
    LeavesReady(c);
  }

  lemma LeavesReady(m: Machine)
    requires m.pc == Undoing(Counting) && m.caller.Activation?
    ensures Settle(m).pc.Ready? && SameBinaries(Settle(m).disk, m.disk)
  {
    hide Settle, ReplaceStep, FinishStep;
    var a := Continue(m, Ok);
    var b := Continue(a, Ok);
    var c := Continue(b, Ok);
    SettleStep(m); SettleStep(a); SettleStep(b); SettleStep(c);
  }

  /** The next step fails and everything that is set aside is put back. */
  lemma FailAndUndo(m: Machine) returns (cs: seq<Change>)
    requires m.pc.Replacing? && m.disk.journal.Some?
    requires Continue(m, Fail) == Back(m, Activation)
    ensures OnlySteps(cs) && RegularRun(m, cs) && Run(m, cs).pc.Ready? && Clean(Run(m, cs).disk)
    ensures Run(m, cs).disk.worker.current == PutBack(m.disk.worker).current
    ensures Run(m, cs).disk.host.current == PutBack(m.disk.host).current
  {
    var b := Continue(m, Fail);
    hide Settle, Run, RegularRun, After, Oks;
    UndoSettles(b);
    ClosesReady(BothBack(b));
    hide Continue;
    var n := SettleRuns(b);
    AfterRuns(b, n);
    cs := [Step(Fail)] + Oks(n);
    Prepend(m, Step(Fail), Oks(n));
  }

  /** Exactly one of the two binaries is that of `p`. */
  predicate Half(d: Disk, p: Pair) {
    (d.worker.current == Some(p.worker)) != (d.host.current == Some(p.host))
  }

  predicate Differs(s: Slot) { s.rollback.Some? && s.current.Some? ==> s.current != s.rollback }

  /** Old and new binaries are different files. */
  predicate Apart(m: Machine) {
    && Differs(m.disk.worker) && Differs(m.disk.host)
    && (m.committed ==> m.before.worker != m.after.worker && m.before.host != m.after.host)
  }

  /** From every stuck state that is not startable an activation with one failing operation, and no stop,
      ends with a mixed pair. */
  lemma MixingRun(m: Machine, pair: Pair, version: string) returns (cs: seq<Change>)
    requires Inv(m) && m.pc.Stuck? && !Startable(m.disk) && Apart(m) && Precedes(m.version, version)
    ensures var a := Next(m, Activate(pair, version));
      OnlySteps(cs) && RegularRun(a, cs) && Run(a, cs).pc.Ready? && Half(Run(a, cs).disk, m.before)
  {
    hide Run, RegularRun, After, Oks, Precedes, WriteStep, FinishStep, UndoStep;
    var a := Next(m, Activate(pair, version));
    var n: nat := 5;
    Downloads(a);
    var p := After(a, 5);
    if m.committed && m.disk.host.rollback.None? {
    } else if m.committed || m.disk.worker.rollback.Some? {
      n := 6;
      AfterMore(a, 5, 1);
      AfterStep(p, 0);
      AfterNothing(Continue(p, Ok));
    } else {
      n := 10;
      AfterMore(a, 5, 5);
      AfterMore(p, 4, 1);
      Replaces(p, Worker);
      AfterStep(After(p, 4), 0);
      AfterNothing(Continue(After(p, 4), Ok));
    }
    var q := After(a, n);
    var ds := FailAndUndo(q);
    AfterRuns(a, n);
    cs := Oks(n) + ds;
    hide Continue, Next;
    RunConcat(a, Oks(n), ds);
  }

  lemma {:induction false} StepsKeep(m: Machine, cs: seq<Change>)
    requires OnlySteps(cs)
    ensures Run(m, cs).before == m.before && Run(m, cs).after == m.after
    decreases |cs|
  {
    if cs != [] {
      StepKeeps(m, cs[0].outcome);
      hide Continue;
      StepsKeep(Next(m, cs[0]), cs[1..]);
    }
  }

  lemma StepKeeps(m: Machine, out: Outcome)
    ensures Continue(m, out).before == m.before && Continue(m, out).after == m.after
  {
  }

  /** From a startable state it never does. */
  lemma NoMixingRun(m: Machine, pair: Pair, version: string, cs: seq<Change>)
    requires Inv(m) && m.pc.Stuck? && Startable(m.disk) && Apart(m) && Precedes(m.version, version)
    requires pair.worker != m.before.worker && pair.host != m.before.host
    requires OnlySteps(cs) && RegularRun(Next(m, Activate(pair, version)), cs)
    ensures var r := Run(Next(m, Activate(pair, version)), cs); r.pc.Ready? ==> !Half(r.disk, m.before)
  {
    var a := Next(m, Activate(pair, version));
    NextInv(m, Activate(pair, version));
    RunInv(a, cs);
    StepsKeep(a, cs);
  }

  /** Whatever fails in it, a late committed write apart, an activation of a stuck manager leaves no mixed
      pair if and only if the state is startable; while both binaries are in place that means that none is
      set aside. */
  lemma StuckActivation(m: Machine, pair: Pair, version: string)
    requires Inv(m) && m.pc.Stuck? && Apart(m) && Precedes(m.version, version)
    requires pair.worker != m.before.worker && pair.host != m.before.host
    ensures var a := Next(m, Activate(pair, version));
      Startable(m.disk) <==>
      forall cs :: OnlySteps(cs) && RegularRun(a, cs) && Run(a, cs).pc.Ready? ==> !Half(Run(a, cs).disk, m.before)
    ensures Present(m.disk) ==> (Startable(m.disk) <==> Clean(m.disk))
  {
    var a := Next(m, Activate(pair, version));
    if Startable(m.disk) {
      forall cs | OnlySteps(cs) && RegularRun(a, cs) && Run(a, cs).pc.Ready? ensures !Half(Run(a, cs).disk, m.before) {
        NoMixingRun(m, pair, version, cs);
      }
    } else {
      var cs := MixingRun(m, pair, version);
      assert Half(Run(a, cs).disk, m.before);
    }
  }

  /** An activation is committed, and dropping the old worker fails: both old binaries stay set aside. */
  lemma GetsStuck(m: Machine, pair: Pair, version: string) returns (cs: seq<Change>)
    requires Start(m) && Precedes(m.version, version)
    ensures RegularRun(m, cs)
    ensures var s := Run(m, cs);
      && s.pc.Stuck? && s.committed && s.before == m.before && s.after == pair && s.version == m.version
      && s.disk.worker.rollback == Some(m.before.worker) && s.disk.host.rollback == Some(m.before.host)
  {
    hide Run, RegularRun, After, Oks, Precedes, Continue;
    var a := Next(m, Activate(pair, version));
    Downloads(a);
    var b := After(a, 5);
    Replaces(b, Worker);
    var c := After(b, 4);
    Replaces(c, Host);
    var d := After(c, 4);
    Commits(d);
    var e := After(d, 5);
    AfterMore(a, 5, 4); AfterMore(a, 9, 4); AfterMore(a, 13, 5);
    AfterRuns(a, 18);
    var f := Next(e, Step(Fail));
    DroppingFails(e);
    Leaves(f);
    AfterRuns(f, 2);
    var ds := Oks(18) + ([Step(Fail)] + Oks(2));
    cs := [Activate(pair, version)] + ds;
    Prepend(m, Activate(pair, version), ds);
    RunConcat(a, Oks(18), [Step(Fail)] + Oks(2));
    Prepend(e, Step(Fail), Oks(2));
  }

  lemma DroppingFails(m: Machine)
    requires m.pc == Finalizing(Worker, Dropping) && m.caller.Activation?
    ensures Continue(m, Fail) == m.(pc := Leaving(Host, false))
  {
  }

  lemma Leaves(m: Machine)
    requires m.pc == Leaving(Host, false)
    ensures var r := After(m, 2);
      && r.pc.Stuck? && SameBinaries(r.disk, m.disk) && SameActivation(m, r) && r.committed == m.committed
  {
    hide After;
    var a := Continue(m, Ok);
    var b := Continue(a, Ok);
    AfterStep(m, 1); AfterStep(a, 0); AfterNothing(b);
  }

  /** Two failing operations and no stop lead from any start to a ready manager with a mixed pair: dropping
      the old worker fails after the commit, and setting the worker aside fails in the next activation. */
  lemma StaleRollbackMixes(m: Machine, pair: Pair, version: string, later: Pair, next: string)
    returns (cs: seq<Change>, ds: seq<Change>)
    requires Start(m) && Precedes(m.version, version) && Precedes(m.version, next)
    requires pair.worker != m.before.worker && pair.host != m.before.host
    ensures RegularRun(m, cs) && Run(m, cs).pc.Stuck? && OnlySteps(ds)
    ensures var a := Next(Run(m, cs), Activate(later, next));
      RegularRun(a, ds) && Run(a, ds).pc.Ready? && Half(Run(a, ds).disk, m.before)
  {
    cs := GetsStuck(m, pair, version);
    RunInv(m, cs);
    hide Run, RegularRun, Continue, Precedes;
    ds := MixingRun(Run(m, cs), later, next);
  }
}
