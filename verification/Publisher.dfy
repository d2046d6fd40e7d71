/** One publication attempt under a lease (internal/configsync/publisher.go).

    The authority, the remote and the clock answer every call in any way they like; an answer may depend
    on everything that was said before. What the repository keeps is kept by the reconciler in Workspace.
 */
module Publisher {
  import opened Basics
  import opened Workspace

  datatype Lease = Lease(base: string, token: int, expires: int)

  datatype Published = Published(revision: string, landed: bool, uncertain: bool)

  datatype Call =
    | Fetch
    | Credential
    | Reconcile(revision: string)
    | Committed(prepared: Prepared, revision: string)
    | Acquire(revision: string)
    | Release(lease: Lease)
    | Renew(lease: Lease)
    | Clock
    | Journal(prepared: Prepared)
    | Publish(prepared: Prepared, token: int)
    | Abort(prepared: Prepared)
    | Observe(commit: string)

  /** Every call reads the fields that concern it. `conflict` marks the error of a conflict, and `work` is
      what the reconciler finds around it. */
  datatype Reply = Reply(ok: bool, conflict: bool, revision: string, prepared: Prepared, lease: Lease,
                         published: Published, landed: bool, now: int, work: Work)

  datatype Said = Said(call: Call, reply: Reply)

  type Trace = seq<Said>

  datatype Error = RemoteChanged | Authorization | Conflict | LeaseLost | Uncertain | Answer

  // ----- what the calls do to the store -----

  function StoreAfter(s: Store, said: Said): Store {
    var w := said.reply.work;
    match said.call
    case Reconcile(revision) => Reconciled(s, revision, w).0.store
    case Journal(prepared) => Announced(s, prepared.commit, w.budget).store
    case Committed(prepared, revision) => Confirmed(s, prepared.commit, revision, w.budget).store
    case Abort(prepared) => Aborted(s, prepared.commit, w.budget).store
    case _ => s
  }

  function Replayed(s: Store, t: Trace): Store {
    if t == [] then s else StoreAfter(Replayed(s, t[..|t| - 1]), t[|t| - 1])
  }

  lemma ReplayedOne(s: Store, t: Trace, said: Said)
    ensures Replayed(s, t + [said]) == StoreAfter(Replayed(s, t), said)
  {
    assert (t + [said])[..|t|] == t;
  }

  /** The calls that act on the reconciler, which decides whether they succeed and what is prepared. */
  predicate Local(call: Call) { call.Reconcile? || call.Journal? || call.Committed? || call.Abort? }

  /** Everything was answered by `answer`, apart from what the reconciler decides. */
  ghost predicate Answered(t: Trace, answer: (Trace, Call) -> Reply) {
    forall k :: 0 <= k < |t| ==> AnsweredAt(t[k], answer(t[..k], t[k].call))
  }

  predicate AnsweredAt(said: Said, given: Reply) {
    said.reply == if Local(said.call) then given.(ok := said.reply.ok, prepared := said.reply.prepared) else given
  }

  lemma AnsweredOne(t: Trace, said: Said, answer: (Trace, Call) -> Reply)
    requires Answered(t, answer) && AnsweredAt(said, answer(t, said.call))
    ensures Answered(t + [said], answer)
  {
    var u := t + [said];
    forall k | 0 <= k < |u| ensures AnsweredAt(u[k], answer(u[..k], u[k].call)) {
      if k < |t| { assert u[..k] == t[..k]; } else { assert u[..k] == t; }
    }
  }

  /** The reconciler's word: a call on it succeeds exactly if the store says so, and what it prepares is reported. */
  predicate HonestAt(s: Store, said: Said) {
    var w := said.reply.work;
    match said.call
    case Reconcile(revision) =>
      && said.reply.ok == Reconciled(s, revision, w).1.Some?
      && (said.reply.ok ==> said.reply.prepared == Reconciled(s, revision, w).1.value)
    case Journal(prepared) => said.reply.ok == Announced(s, prepared.commit, w.budget).err.None?
    case Committed(prepared, revision) => said.reply.ok == Confirmed(s, prepared.commit, revision, w.budget).err.None?
    case Abort(prepared) => said.reply.ok == Aborted(s, prepared.commit, w.budget).err.None?
    case _ => true
  }

  ghost predicate Honest(s: Store, t: Trace) {
    forall k :: 0 <= k < |t| ==> HonestAt(Replayed(s, t[..k]), t[k])
  }

  lemma HonestOne(s: Store, t: Trace, said: Said)
    requires Honest(s, t) && HonestAt(Replayed(s, t), said)
    ensures Honest(s, t + [said])
  {
    hide HonestAt, Replayed;
    var u := t + [said];
    forall k | 0 <= k < |u| ensures HonestAt(Replayed(s, u[..k]), u[k]) {
      if k < |t| { assert u[..k] == t[..k]; } else { assert u[..k] == t; }
    }
  }

  lemma ReconciledReports(s: Store, remote: string, w: Work)
    ensures Reconciled(s, remote, w).1.Some? <==> Reconciled(s, remote, w).0.err.None?
  {
  }

  /** The parties, and what was said so far. The calls that change the store act on the reconciler. */
  class Exchange {
    const answer: (Trace, Call) -> Reply
    const workspace: Reconciler
    var trace: Trace
    ghost const start: Store

    ghost predicate Valid()
      reads this, workspace
    {
      && workspace.Valid() && workspace.State() == Replayed(start, trace)
      && Answered(trace, answer) && Honest(start, trace)
    }

    constructor (answer: (Trace, Call) -> Reply, workspace: Reconciler)
      requires workspace.Valid()
      ensures Valid() && trace == [] && this.answer == answer && this.workspace == workspace && start == workspace.State()
    {
      this.answer, this.workspace, trace, start := answer, workspace, [], workspace.State();
    }

    method Ask(call: Call) returns (reply: Reply)
      requires Valid()
      modifies this, workspace
      ensures Valid() && trace == old(trace) + [Said(call, reply)]
      ensures !Local(call) ==> workspace.State() == old(workspace.State())
    {
      hide Reconciled, Announced, Confirmed, Aborted, Replayed, Answered, Honest;
      reply := answer(trace, call);
      ghost var given := reply;
      ghost var s := workspace.State();
      match call {
        case Reconcile(revision) =>
          ReconciledReports(s, revision, reply.work);
          var prepared, err := workspace.Reconcile(revision, reply.work);
          reply := reply.(ok := err.None?, prepared := if prepared.Some? then prepared.value else reply.prepared);
        case Journal(prepared) =>
          var err := workspace.PublicationPrepared(prepared.commit, reply.work.budget);
          reply := reply.(ok := err.None?);
        case Committed(prepared, revision) =>
          var err := workspace.PublicationCommitted(prepared.commit, revision, reply.work.budget);
          reply := reply.(ok := err.None?);
        case Abort(prepared) =>
          var err := workspace.PublicationAborted(prepared.commit, reply.work.budget);
          reply := reply.(ok := err.None?);
        case _ =>
      }
      ReplayedOne(start, trace, Said(call, reply));
      assert AnsweredAt(Said(call, reply), given);
      AnsweredOne(trace, Said(call, reply), answer);
      HonestOne(start, trace, Said(call, reply));
      trace := trace + [Said(call, reply)];
    }
  }

  // ----- what a trace must look like -----

  ghost predicate FetchedAt(t: Trace, i: nat, revision: string) {
    i < |t| && t[i].call == Fetch && t[i].reply.ok && t[i].reply.revision == revision
  }

  ghost predicate AcquiredAt(t: Trace, i: nat) { i < |t| && t[i].call.Acquire? && t[i].reply.ok }

  /** A head of the remote that somebody reported before step `k`. */
  ghost predicate Observed(t: Trace, k: nat, revision: string) {
    exists i :: 0 <= i < k && i < |t| && (
      || (t[i].call.Fetch? && t[i].reply.ok && t[i].reply.revision == revision)
      || (t[i].call.Publish? && t[i].reply.ok && t[i].reply.published.landed && !t[i].reply.published.uncertain
          && t[i].reply.published.revision == revision)
      || (t[i].call.Observe? && t[i].reply.ok && t[i].reply.landed && t[i].reply.revision == revision))
  }

  /** Where the steps happened that a publication rests on. */
  datatype Basis = Basis(fetched: nat, acquired: nat, verified: nat, renewed: nat, clock: nat, credential: nat, current: nat)

  /** Fetched, leased on that head, fetched again, renewed, in time, authorised, and fetched once more
      before step `k`, always the same head; and the publication was journaled just before. */
  ghost predicate Allows(t: Trace, k: nat, push: Call, margin: int, w: Basis) {
    && push.Publish? && w.fetched < w.acquired < w.verified < w.renewed < w.clock < w.credential < w.current < k - 1 < |t|
    && var head, lease, renewal := push.prepared.expected, t[w.acquired].reply.lease, t[w.renewed];
    && FetchedAt(t, w.fetched, head) && FetchedAt(t, w.verified, head) && FetchedAt(t, w.current, head)
    && t[w.acquired].call == Acquire(head) && t[w.acquired].reply.ok && lease.base == head
    && renewal.call == Renew(lease) && renewal.reply.ok && renewal.reply.lease.token == push.token
    && t[w.clock].call == Clock && t[w.clock].reply.now < renewal.reply.lease.expires - margin
    && t[w.credential].call == Credential && t[w.credential].reply.ok
    && t[k - 1].call == Journal(push.prepared) && t[k - 1].reply.ok
  }

  ghost predicate MayPublish(t: Trace, k: nat, push: Call, margin: int) {
    && (exists w :: Allows(t, k, push, margin, w))
    && push.Publish? && push.prepared.changes && push.prepared.commit != ""
  }

  /** What must be said after a publication was answered: record it if it landed, abort it if it
      failed, and look at the remote if its outcome is unclear. */
  predicate FollowUp(s: Said, next: Call)
    requires s.call.Publish?
  {
    var prepared, p := s.call.prepared, s.reply.published;
    if s.reply.ok && p.landed && !p.uncertain && p.revision != "" then next == Committed(prepared, p.revision)
    else if !s.reply.ok && !p.uncertain then next == Abort(prepared)
    else next == Observe(prepared.commit)
  }

  /** No publication is left without its follow-up. */
  predicate Settled(t: Trace) { t == [] || !t[|t| - 1].call.Publish? }

  ghost predicate Disciplined(t: Trace, margin: int) {
    && (forall k, j :: 0 <= k < j < |t| && j == k + 1 && t[k].call.Publish? ==> FollowUp(t[k], t[j].call))
    && (forall i, j :: 0 <= i < j < |t| ==> !(t[i].call.Publish? && t[j].call.Publish?))
    && (forall i, j :: 0 <= i < j < |t| ==> !(t[i].call.Release? && t[j].call.Release?))
    && (forall k :: 0 <= k < |t| && t[k].call.Publish? ==> MayPublish(t, k, t[k].call, margin))
    && (forall k :: 0 <= k < |t| && (t[k].call.Committed? || t[k].call.Reconcile?) ==> Observed(t, k, t[k].call.revision))
  }

  /** The lease that was named last: acquired, or whatever the renewal answered. */
  ghost predicate NamesLease(t: Trace, lease: Lease) {
    exists i :: 0 <= i < |t| && (t[i].call.Acquire? || t[i].call.Renew?) && t[i].reply.lease == lease
      && forall j :: i < j < |t| ==> !t[j].call.Acquire? && !t[j].call.Renew?
  }

  ghost predicate Leased(t: Trace) { exists i :: AcquiredAt(t, i) }

  /** After an acquired lease the last call releases it; otherwise nothing is released. */
  ghost predicate Released(t: Trace) {
    if Leased(t) then
      t != [] && t[|t| - 1].call.Release? && NamesLease(t[..|t| - 1], t[|t| - 1].call.lease)
    else forall i :: 0 <= i < |t| ==> !t[i].call.Release?
  }

  // ----- traces grow -----

  /** Nothing yet that the rules speak about. */
  ghost predicate Harmless(t: Trace) {
    forall i :: 0 <= i < |t| ==> !t[i].call.Publish? && !t[i].call.Release? && !t[i].call.Committed?
  }

  lemma ObservedGrows(t: Trace, more: Trace, k: nat, revision: string)
    requires Observed(t, k, revision)
    ensures Observed(t + more, k, revision)
  {
    var i :| 0 <= i < k && i < |t| && (
      || (t[i].call.Fetch? && t[i].reply.ok && t[i].reply.revision == revision)
      || (t[i].call.Publish? && t[i].reply.ok && t[i].reply.published.landed && !t[i].reply.published.uncertain
          && t[i].reply.published.revision == revision)
      || (t[i].call.Observe? && t[i].reply.ok && t[i].reply.landed && t[i].reply.revision == revision));
    assert (t + more)[i] == t[i];
  }

  lemma MayPublishGrows(t: Trace, more: Trace, k: nat, push: Call, margin: int)
    requires MayPublish(t, k, push, margin)
    ensures MayPublish(t + more, k, push, margin)
  {
    var w :| Allows(t, k, push, margin, w);
    assert Allows(t + more, k, push, margin, w);
  }

  lemma NothingDisciplined(margin: int)
    ensures Disciplined([], margin)
  {
  }

  /** The rules allow `call` after `t`. */
  ghost predicate Fits(t: Trace, call: Call, margin: int) {
    && (Settled(t) || FollowUp(t[|t| - 1], call))
    && (call.Publish? ==> MayPublish(t, |t|, call, margin) && forall i :: 0 <= i < |t| ==> !t[i].call.Publish?)
    && (call.Release? ==> forall i :: 0 <= i < |t| ==> !t[i].call.Release?)
    && (call.Committed? || call.Reconcile? ==> Observed(t, |t|, call.revision))
  }

  lemma Grow(t: Trace, s: Said, margin: int)
    requires Disciplined(t, margin) && Fits(t, s.call, margin)
    ensures Disciplined(t + [s], margin)
  {
    hide MayPublish, Observed;
    var u := t + [s];
    forall k | 0 <= k < |u| && u[k].call.Publish? ensures MayPublish(u, k, u[k].call, margin) {
      MayPublishGrows(t, [s], k, u[k].call, margin);
    }
    forall k | 0 <= k < |u| && (u[k].call.Committed? || u[k].call.Reconcile?) ensures Observed(u, k, u[k].call.revision) {
      ObservedGrows(t, [s], k, u[k].call.revision);
    }
  }

  /** `u` continues `t` without touching the lease. */
  ghost predicate Follows(t: Trace, u: Trace) {
    && |t| <= |u| && u[..|t|] == t
    && forall i :: |t| <= i < |u| ==> !u[i].call.Acquire? && !u[i].call.Renew? && !u[i].call.Release?
  }

  lemma FollowsOne(t: Trace, u: Trace, s: Said)
    requires Follows(t, u) && !s.call.Acquire? && !s.call.Renew? && !s.call.Release?
    ensures Follows(t, u + [s])
  {
  }

  // ----- the attempt -----

  datatype Result = Result(revision: string, landed: bool, uncertain: bool)

  const NOTHING := Result("", false, false)

  /** Success means landed, and a landed result was recorded: the observer accepted that revision. */
  ghost predicate Accounted(t: Trace, r: Result, err: Option<Error>) {
    err.None? ==> r.landed && exists k :: 0 <= k < |t| && t[k].call.Committed? && t[k].call.revision == r.revision && t[k].reply.ok
  }

  lemma AccountedGrows(t: Trace, s: Said, r: Result, err: Option<Error>)
    requires Accounted(t, r, err)
    ensures Accounted(t + [s], r, err)
  {
    if err.None? {
      var k :| 0 <= k < |t| && t[k].call.Committed? && t[k].call.revision == r.revision && t[k].reply.ok;
      assert (t + [s])[k] == t[k];
    }
  }

  // ----- what an attempt comes to -----

  /** The answer `s`, given after `last` in an attempt that began with the answer `first`, ends the attempt without
      success: a call fails, the head is missing or another one, the lease is for another head or too short, or
      there is nothing to publish it as. An unclear publication is no such answer yet, and neither is an abort. */
  predicate Bad(first: Said, last: Option<Said>, s: Said, margin: int) {
    var a, head := s.reply, first.reply.revision;
    match s.call
    case Fetch =>
      || !a.ok || a.revision == "" || a.revision != head
      || (last.Some? && last.value.call.Acquire? && last.value.reply.lease.base != head)
    case Reconcile(_) =>
      || !a.ok
      || (last.Some? && last.value.call.Fetch? && a.prepared.changes && (a.prepared.expected != head || a.prepared.commit == ""))
    case Clock => last.Some? && last.value.call.Renew? && last.value.reply.lease.expires - margin <= a.now
    case Publish(_, _) => !a.ok && !a.published.uncertain
    case Observe(_) => !a.ok || !a.landed
    case Abort(_) => false
    case _ => !a.ok
  }

  /** The error that it becomes. */
  function Blame(last: Option<Said>, s: Said): Error {
    var a := s.reply;
    match s.call
    case Fetch => if a.ok then RemoteChanged else Answer
    case Credential => Authorization
    case Reconcile(_) =>
      if a.ok then RemoteChanged
      else if a.conflict && last.Some? && last.value.call.Credential? then Conflict else Answer
    case Clock => LeaseLost
    case Observe(_) => Uncertain
    case _ => Answer
  }

  /** The result reported with it. */
  function Report(first: Said, last: Option<Said>, s: Said): Result {
    if Blame(last, s).Conflict? then Result(first.reply.revision, false, false)
    else if s.call.Observe? then Result(if s.reply.ok then s.reply.revision else "", false, true)
    else NOTHING
  }

  function Last(t: Trace, k: nat): Option<Said>
    requires k <= |t|
  {
    if k == 0 then None else Some(t[k - 1])
  }

  predicate Trouble(t: Trace, k: nat, margin: int)
    requires k < |t|
  {
    Bad(t[0], Last(t, k), t[k], margin)
  }

  ghost predicate NoTrouble(t: Trace, margin: int) { forall k :: 0 <= k < |t| ==> !Trouble(t, k, margin) }

  /** Everything prepared so far had changes. */
  ghost predicate Eager(t: Trace) { forall k :: 0 <= k < |t| && t[k].call.Reconcile? ==> t[k].reply.prepared.changes }

  ghost predicate Pushed(t: Trace) { exists k :: 0 <= k < |t| && t[k].call.Publish? }

  /** No answer so far ends the attempt. */
  ghost predicate Calm(t: Trace, margin: int) { NoTrouble(t, margin) && Eager(t) }

  ghost predicate FirstTrouble(t: Trace, k: nat, margin: int) {
    k < |t| && Trouble(t, k, margin) && forall j :: 0 <= j < k ==> !Trouble(t, j, margin)
  }

  /** An attempt succeeds if and only if no answer was bad, and then it has published exactly if every preparation
      had changes. Otherwise error and result are those of the first bad answer; only when that is the answer to the
      release is the result the successful one. */
  ghost predicate Told(t: Trace, r: Result, err: Option<Error>, margin: int) {
    if err.None? then NoTrouble(t, margin) && (Pushed(t) <==> Eager(t))
    else exists k: nat :: FirstTrouble(t, k, margin) && err.value == Blame(Last(t, k), t[k])
                     && (t[k].call.Release? || r == Report(t[0], Last(t, k), t[k]))
  }

  lemma TroubleSame(t: Trace, s: Said, k: nat, margin: int)
    requires k < |t|
    ensures Trouble(t + [s], k, margin) == Trouble(t, k, margin)
  {
  }

  /** One more answer. */
  lemma Judge(t: Trace, s: Said, margin: int)
    requires Calm(t, margin)
    ensures var last := Last(t, |t|);
      var first := if t == [] then s else t[0];
      && (!Bad(first, last, s, margin) ==> NoTrouble(t + [s], margin))
      && (!Bad(first, last, s, margin) && (s.call.Reconcile? ==> s.reply.prepared.changes) ==> Calm(t + [s], margin))
      && (Bad(first, last, s, margin) ==> Told(t + [s], Report(first, last, s), Some(Blame(last, s)), margin))
  {
    hide Bad, Blame, Report;
    forall k | 0 <= k < |t| ensures !Trouble(t + [s], k, margin) { TroubleSame(t, s, k, margin); }
    assert Trouble(t + [s], |t|, margin) == Bad(if t == [] then s else t[0], Last(t, |t|), s, margin);
    if Trouble(t + [s], |t|, margin) { assert FirstTrouble(t + [s], |t|, margin); }
  }

  /** The attempt is over, with what it reports explained by what was said. */
  ghost predicate Concluded(t: Trace, r: Result, err: Option<Error>, margin: int) {
    Accounted(t, r, err) && Told(t, r, err, margin)
  }

  /** A call whose answer matters only for its success. */
  lemma PlainJudged(t: Trace, s: Said, margin: int)
    requires Calm(t, margin) && t != []
    requires s.call.Credential? || s.call.Acquire? || s.call.Renew? || s.call.Journal?
    ensures s.reply.ok ==> Calm(t + [s], margin)
    ensures !s.reply.ok ==> Concluded(t + [s], NOTHING, Some(if s.call.Credential? then Authorization else Answer), margin)
  {
    hide Calm, Told;
    Judge(t, s, margin);
  }

  lemma FetchJudged(t: Trace, s: Said, head: string, margin: int)
    requires Calm(t, margin) && t != [] && t[0].reply.revision == head && head != "" && s.call.Fetch?
    ensures var last := t[|t| - 1];
      if s.reply.ok && s.reply.revision == head && (last.call.Acquire? ==> last.reply.lease.base == head)
      then Calm(t + [s], margin)
      else Concluded(t + [s], NOTHING, Some(if s.reply.ok then RemoteChanged else Answer), margin)
  {
    hide Calm, Told;
    Judge(t, s, margin);
  }

  lemma ClockJudged(t: Trace, s: Said, margin: int)
    requires Calm(t, margin) && t != [] && t[|t| - 1].call.Renew? && s.call.Clock?
    ensures s.reply.now < t[|t| - 1].reply.lease.expires - margin ==> Calm(t + [s], margin)
    ensures t[|t| - 1].reply.lease.expires - margin <= s.reply.now ==> Concluded(t + [s], NOTHING, Some(LeaseLost), margin)
  {
    hide Calm, Told;
    Judge(t, s, margin);
  }

  /** Preparing again, under the lease. */
  lemma PreparedJudged(t: Trace, s: Said, head: string, margin: int)
    requires Calm(t, margin) && t != [] && t[0].reply.revision == head && t[|t| - 1].call.Fetch? && s.call.Reconcile?
    ensures var p := s.reply.prepared;
      && (!s.reply.ok ==> Concluded(t + [s], NOTHING, Some(Answer), margin))
      && (s.reply.ok && !p.changes ==> NoTrouble(t + [s], margin) && !Eager(t + [s]))
      && (s.reply.ok && p.changes ==>
            if p.expected == head && p.commit != "" then Calm(t + [s], margin)
            else Concluded(t + [s], NOTHING, Some(RemoteChanged), margin))
  {
    hide Calm, Told, NoTrouble;
    Judge(t, s, margin);
    assert (t + [s])[|t|] == s;
  }

  /** A failed attempt stays failed for the same reason. */
  lemma ToldStays(t: Trace, s: Said, r: Result, err: Option<Error>, margin: int)
    requires Told(t, r, err, margin) && err.Some?
    ensures Told(t + [s], r, err, margin) && Concluded(t + [s], r, err, margin)
  {
    hide Bad, Blame, Report;
    var k: nat :| FirstTrouble(t, k, margin) && err.value == Blame(Last(t, k), t[k])
             && (t[k].call.Release? || r == Report(t[0], Last(t, k), t[k]));
    forall j | 0 <= j <= k ensures Trouble(t + [s], j, margin) == Trouble(t, j, margin) { TroubleSame(t, s, j, margin); }
    assert FirstTrouble(t + [s], k, margin);
  }

  /** Nothing bad was answered, and the attempt ends after one more good answer. */
  lemma ToldAtEnd(t: Trace, s: Said, r: Result, margin: int)
    requires NoTrouble(t, margin) && t != [] && (Pushed(t) <==> Eager(t)) && !s.call.Publish? && !s.call.Reconcile?
    ensures !Bad(t[0], Last(t, |t|), s, margin) ==> Told(t + [s], r, None, margin)
    ensures Bad(t[0], Last(t, |t|), s, margin) && (s.call.Release? || r == Report(t[0], Last(t, |t|), s)) ==>
      Told(t + [s], r, Some(Blame(Last(t, |t|), s)), margin)
  {
    hide Bad, Blame, Report;
    var u := t + [s];
    forall k | 0 <= k < |t| ensures !Trouble(u, k, margin) { TroubleSame(t, s, k, margin); }
    if Pushed(t) { var k :| 0 <= k < |t| && t[k].call.Publish?; assert u[k].call.Publish?; }
    if Eager(u) { assert forall k :: 0 <= k < |t| ==> u[k] == t[k]; }
    if Trouble(u, |t|, margin) { assert FirstTrouble(u, |t|, margin); }
  }

  lemma BeginsCalm(margin: int)
    ensures Calm([], margin)
  {
  }

  /** What success has stored: the baseline of the reported revision, and nothing is pending. */
  predicate Kept(s: Store, r: Result, err: Option<Error>) {
    err.None? ==> s.baseline.Some? && s.baseline.value.revision == r.revision && s.pending.None?
  }

  lemma RecordedHere(start: Store, t: Trace, said: Said)
    requires Honest(start, t + [said]) && said.call.Committed? && said.reply.ok
    requires var s := Replayed(start, t); s.pending.Some? ==> s.pending.value.value.revision == s.pending.value.commit
    ensures Kept(Replayed(start, t + [said]), Result(said.call.revision, true, false), None)
  {
    var u, s := t + [said], Replayed(start, t);
    assert u[..|t|] == t && HonestAt(Replayed(start, u[..|t|]), u[|t|]);
    ReplayedOne(start, t, said);
    hide Replayed, Confirmed;
    ConfirmedExactly(s, said.call.prepared.commit, said.call.revision, said.reply.work.budget);
  }

  /** One call that the rules allow. */
  method Say(x: Exchange, call: Call, margin: int, ghost t: Trace) returns (reply: Reply)
    requires Disciplined(x.trace, margin) && Fits(x.trace, call, margin) && Follows(t, x.trace)
    requires !call.Acquire? && !call.Renew? && !call.Release?
    requires x.Valid()
    modifies x, x.workspace
    ensures x.Valid()
    ensures x.trace == old(x.trace) + [Said(call, reply)] && Disciplined(x.trace, margin) && Follows(t, x.trace)
  {
    hide Honest, Answered, Replayed, Disciplined, Fits, Follows;
    reply := x.Ask(call);
    Grow(old(x.trace), Said(call, reply), margin);
    FollowsOne(t, old(x.trace), Said(call, reply));
  }

  /** One call that no rule speaks about. */
  method SayFreely(x: Exchange, call: Call, margin: int, ghost t: Trace) returns (reply: Reply)
    requires Disciplined(x.trace, margin) && Settled(x.trace) && Follows(t, x.trace)
    requires call.Fetch? || call.Credential? || call.Clock? || call.Journal?
      || (call.Reconcile? && Observed(x.trace, |x.trace|, call.revision))
    requires x.Valid()
    modifies x, x.workspace
    ensures x.Valid()
    ensures x.trace == old(x.trace) + [Said(call, reply)]
    ensures Disciplined(x.trace, margin) && Settled(x.trace) && Follows(t, x.trace)
  {
    hide Disciplined, Follows, Observed, Honest, Answered, Replayed;
    reply := Say(x, call, margin, t);
  }

  /** `PublicationCommitted`, then the result that reports it. */
  method Record(x: Exchange, margin: int, prepared: Prepared, revision: string, ghost t: Trace)
    returns (r: Result, err: Option<Error>)
    requires Disciplined(x.trace, margin) && Fits(x.trace, Committed(prepared, revision), margin) && Follows(t, x.trace)
    requires NoTrouble(x.trace, margin) && x.trace != [] && (Pushed(x.trace) <==> Eager(x.trace))
    requires x.Valid()
    modifies x, x.workspace
    ensures x.Valid()
    ensures Disciplined(x.trace, margin) && Settled(x.trace) && Follows(t, x.trace)
    ensures Concluded(x.trace, r, err, margin) && Kept(x.workspace.State(), r, err)
  {
    hide Honest, Answered, Replayed, Disciplined, Fits, Follows, NoTrouble, Pushed, Eager, Told;
    ghost var before := x.trace;
    var reply := Say(x, Committed(prepared, revision), margin, t);
    ghost var said := Said(Committed(prepared, revision), reply);
    ToldAtEnd(before, said, if reply.ok then Result(revision, true, false) else NOTHING, margin);
    if !reply.ok {
      return NOTHING, Some(Answer);
    }
    RecordedHere(x.start, before, said);
    assert x.trace[|x.trace| - 1] == said;
    return Result(revision, true, false), None;
  }

  /** What holds when a lease was just acquired: step 3 of the attempt. */
  ghost predicate JustLeased(t: Trace, head: string, lease: Lease) {
    && |t| == 4 && Harmless(t) && FetchedAt(t, 0, head)
    && t[3].call == Acquire(head) && t[3].reply.ok && t[3].reply.lease == lease
  }

  /** What holds when everything is ready to be published: after step 9. */
  ghost predicate Cleared(t: Trace, margin: int, prepared: Prepared, lease: Lease) {
    var head := prepared.expected;
    && |t| == 10 && Harmless(t)
    && FetchedAt(t, 0, head) && FetchedAt(t, 4, head) && FetchedAt(t, 9, head)
    && t[3].call == Acquire(head) && t[3].reply.ok && t[3].reply.lease.base == head
    && t[6].call == Renew(t[3].reply.lease) && t[6].reply.ok && t[6].reply.lease == lease
    && t[7].call == Clock && t[7].reply.now < lease.expires - margin
    && t[8].call == Credential && t[8].reply.ok
    && (forall i :: 6 < i < |t| ==> !t[i].call.Acquire? && !t[i].call.Renew?)
    && prepared.changes && prepared.commit != ""
  }

  lemma PublishFits(t: Trace, journal: Said, margin: int, prepared: Prepared, lease: Lease)
    requires Cleared(t, margin, prepared, lease) && journal.call == Journal(prepared) && journal.reply.ok
    ensures Fits(t + [journal], Publish(prepared, lease.token), margin)
  {
    assert Allows(t + [journal], 11, Publish(prepared, lease.token), margin, Basis(0, 3, 4, 6, 7, 8, 9));
  }

  lemma LandedIsObserved(t: Trace, s: Said)
    ensures s.call.Publish? && s.reply.ok && s.reply.published.landed && !s.reply.published.uncertain ==>
      Observed(t + [s], |t| + 1, s.reply.published.revision)
    ensures s.call.Observe? && s.reply.ok && s.reply.landed ==> Observed(t + [s], |t| + 1, s.reply.revision)
  {
    assert (t + [s])[|t|] == s;
  }

  /** What may follow an answered publication. */
  lemma FollowUpFits(u: Trace, s: Said, margin: int)
    requires s.call.Publish?
    ensures var t, p := u + [s], s.reply.published;
      && (s.reply.ok && p.landed && !p.uncertain && p.revision != "" ==> Fits(t, Committed(s.call.prepared, p.revision), margin))
      && (!s.reply.ok && !p.uncertain ==> Fits(t, Abort(s.call.prepared), margin))
      && (!(s.reply.ok && p.landed && !p.uncertain && p.revision != "") && (s.reply.ok || p.uncertain) ==>
            Fits(t, Observe(s.call.prepared.commit), margin))
  {
    LandedIsObserved(u, s);
    hide Observed;
  }

  lemma FetchedIsObserved(t: Trace, i: nat, revision: string)
    requires FetchedAt(t, i, revision)
    ensures Observed(t, |t|, revision)
  {
  }

  /** Calls that no rule forbids. */
  lemma FreeGrow(t: Trace, s: Said, margin: int)
    requires Disciplined(t, margin) && Settled(t) && (s.call.Acquire? || s.call.Renew?)
    ensures Disciplined(t + [s], margin)
  {
    Grow(t, s, margin);
  }

  lemma FetchedFits(t: Trace, i: nat, prepared: Prepared, revision: string, margin: int)
    requires Settled(t) && FetchedAt(t, i, revision)
    ensures Fits(t, Committed(prepared, revision), margin)
  {
  }

  lemma ObservedFits(u: Trace, s: Said, prepared: Prepared, margin: int)
    requires s.call.Observe? && s.reply.ok && s.reply.landed
    ensures Fits(u + [s], Committed(prepared, s.reply.revision), margin)
  {
    LandedIsObserved(u, s);
    hide Observed;
  }

  /** Publishes, and finds out what became of it. */
  method Push(x: Exchange, margin: int, prepared: Prepared, lease: Lease) returns (r: Result, err: Option<Error>)
    requires Cleared(x.trace, margin, prepared, lease) && Disciplined(x.trace, margin) && Calm(x.trace, margin)
    requires x.Valid()
    modifies x, x.workspace
    ensures x.Valid()
    ensures Disciplined(x.trace, margin) && Settled(x.trace) && Follows(old(x.trace), x.trace)
    ensures Concluded(x.trace, r, err, margin) && Kept(x.workspace.State(), r, err)
  {
    hide Disciplined, Follows, Cleared, Fits, Honest, Answered, Replayed, Calm, Concluded, Kept, Pushed;
    ghost var t := x.trace;
    ClearedFollows(t, margin, prepared, lease);
    var journal := SayFreely(x, Journal(prepared), margin, t);
    PlainJudged(t, Said(Journal(prepared), journal), margin);
    if !journal.ok {
      NothingKept(x.workspace.State(), NOTHING, Answer);
      return NOTHING, Some(Answer);
    }
    PublishFits(t, Said(Journal(prepared), journal), margin, prepared, lease);
    ghost var u := x.trace;
    var reply := Say(x, Publish(prepared, lease.token), margin, t);
    FollowUpFits(u, Said(Publish(prepared, lease.token), reply), margin);
    PublishJudged(u, Said(Publish(prepared, lease.token), reply), margin);
    r, err := Resolve(x, margin, prepared, reply, t);
  }

  lemma NothingKept(s: Store, r: Result, e: Error)
    ensures Kept(s, r, Some(e))
  {
  }

  lemma ClearedFollows(t: Trace, margin: int, prepared: Prepared, lease: Lease)
    requires Cleared(t, margin, prepared, lease)
    ensures Follows(t, t) && Settled(t) && t != []
  {
  }

  lemma PublishJudged(t: Trace, s: Said, margin: int)
    requires Calm(t, margin) && t != [] && s.call.Publish?
    ensures s.reply.ok || s.reply.published.uncertain ==> Calm(t + [s], margin) && Pushed(t + [s])
    ensures !s.reply.ok && !s.reply.published.uncertain ==> Concluded(t + [s], NOTHING, Some(Answer), margin)
  {
    hide Calm, Told;
    Judge(t, s, margin);
    assert (t + [s])[|t|] == s;
  }

  /** What became of the publication. */
  method Resolve(x: Exchange, margin: int, prepared: Prepared, reply: Reply, ghost t: Trace)
    returns (r: Result, err: Option<Error>)
    requires Disciplined(x.trace, margin) && Follows(t, x.trace)
    requires var p := reply.published;
      && (reply.ok && p.landed && !p.uncertain && p.revision != "" ==> Fits(x.trace, Committed(prepared, p.revision), margin))
      && (!reply.ok && !p.uncertain ==> Fits(x.trace, Abort(prepared), margin))
      && (!(reply.ok && p.landed && !p.uncertain && p.revision != "") && (reply.ok || p.uncertain) ==>
            Fits(x.trace, Observe(prepared.commit), margin))
    requires x.trace != []
    requires if reply.ok || reply.published.uncertain then Calm(x.trace, margin) && Pushed(x.trace)
             else Concluded(x.trace, NOTHING, Some(Answer), margin)
    requires x.Valid()
    modifies x, x.workspace
    ensures x.Valid()
    ensures Disciplined(x.trace, margin) && Settled(x.trace) && Follows(t, x.trace)
    ensures Concluded(x.trace, r, err, margin) && Kept(x.workspace.State(), r, err)
  {
    hide Disciplined, Follows, Fits, Honest, Answered, Replayed, NoTrouble, Eager, Pushed, Concluded;
    var published := reply.published;
    if reply.ok && published.landed && !published.uncertain && published.revision != "" {
      r, err := Record(x, margin, prepared, published.revision, t);
      return;
    }
    if !reply.ok && !published.uncertain {
      ghost var u := x.trace;
      var aborted := Say(x, Abort(prepared), margin, t);
      ConcludedStays(u, Said(Abort(prepared), aborted), NOTHING, Answer, margin);
      return NOTHING, Some(Answer);
    }
    ghost var v := x.trace;
    var observed := Say(x, Observe(prepared.commit), margin, t);
    ObserveJudged(v, Said(Observe(prepared.commit), observed), margin);
    if !observed.ok {
      return Result("", false, true), Some(Uncertain);
    }
    if observed.landed {
      ObservedFits(v, Said(Observe(prepared.commit), observed), prepared, margin);
      r, err := Record(x, margin, prepared, observed.revision, t);
      return;
    }
    return Result(observed.revision, false, true), Some(Uncertain);
  }

  lemma ConcludedStays(t: Trace, s: Said, r: Result, e: Error, margin: int)
    requires Concluded(t, r, Some(e), margin)
    ensures Concluded(t + [s], r, Some(e), margin)
  {
    hide Told;
    ToldStays(t, s, r, Some(e), margin);
  }

  lemma ObserveJudged(t: Trace, s: Said, margin: int)
    requires Calm(t, margin) && Pushed(t) && t != [] && s.call.Observe?
    ensures s.reply.ok && s.reply.landed ==> Calm(t + [s], margin) && Pushed(t + [s])
    ensures !(s.reply.ok && s.reply.landed) ==>
      Concluded(t + [s], Result(if s.reply.ok then s.reply.revision else "", false, true), Some(Uncertain), margin)
  {
    Judge(t, s, margin);
    var k :| 0 <= k < |t| && t[k].call.Publish?;
    assert (t + [s])[k].call.Publish?;
    hide Calm, Told, Pushed;
  }

  /** The last call on a lease stays the last one as long as nobody touches it. */
  lemma StillNamed(t: Trace, s: Said, u: Trace)
    requires (s.call.Acquire? || s.call.Renew?) && Follows(t + [s], u)
    ensures NamesLease(u, s.reply.lease)
  {
    assert u[..|t| + 1][|t|] == s && u[|t|] == s;
  }

  lemma FollowsKeeps(t: Trace, u: Trace)
    requires Follows(t, u) && (forall i :: 0 <= i < |t| ==> !t[i].call.Release?)
    ensures forall i :: 0 <= i < |u| ==> !u[i].call.Release?
    ensures |t| <= |u| && forall i :: 0 <= i < |t| ==> u[i] == t[i]
  {
  }

  /** What holds when the renewal was answered: after step 6. */
  ghost predicate RenewalAnswered(t: Trace, lease: Lease, prepared: Prepared) {
    && |t| == 7 && Harmless(t) && FetchedAt(t, 0, prepared.expected) && FetchedAt(t, 4, prepared.expected)
    && t[3].call == Acquire(prepared.expected) && t[3].reply.ok && t[3].reply.lease == lease
    && lease.base == prepared.expected && t[6].call == Renew(lease)
    && prepared.changes && prepared.commit != ""
  }

  lemma RenewalIsCleared(t: Trace, margin: int, prepared: Prepared, lease: Lease, clock: Said, credential: Said, current: Said)
    requires RenewalAnswered(t, lease, prepared) && t[6].reply.ok && credential.call.Credential? && credential.reply.ok
    requires clock.call.Clock? && clock.reply.now < t[6].reply.lease.expires - margin
    requires current.call.Fetch? && current.reply.ok && current.reply.revision == prepared.expected
    ensures Cleared(t + [clock] + [credential] + [current], margin, prepared, t[6].reply.lease)
  {
  }

  /** From the renewed lease to the publication: the lease lasts, the machine is authorised, the head is the same. */
  method Confirm(x: Exchange, margin: int, prepared: Prepared, lease: Lease, renewed: Reply) returns (err: Option<Error>)
    requires RenewalAnswered(x.trace, lease, prepared) && x.trace[6].reply == renewed && Disciplined(x.trace, margin)
    requires renewed.ok && Calm(x.trace, margin) && prepared.expected != ""
    requires x.Valid()
    modifies x, x.workspace
    ensures x.Valid()
    ensures Disciplined(x.trace, margin) && Settled(x.trace) && Follows(old(x.trace), x.trace)
    ensures err.Some? ==> Concluded(x.trace, NOTHING, err, margin)
    ensures err.None? ==> Cleared(x.trace, margin, prepared, renewed.lease) && Calm(x.trace, margin)
  {
    ghost var t := x.trace;
    RenewalFacts(t, lease, prepared);
    hide Disciplined, Follows, Cleared, Fits, Honest, Answered, Replayed, Calm, Concluded, RenewalAnswered;
    var clock := SayFreely(x, Clock, margin, t);
    ghost var a := x.trace;
    ClockJudged(t, Said(Clock, clock), margin);
    if renewed.lease.expires - margin <= clock.now {
      return Some(LeaseLost);
    }
    var credential := SayFreely(x, Credential, margin, t);
    ghost var b := x.trace;
    PlainJudged(a, Said(Credential, credential), margin);
    if !credential.ok {
      return Some(Authorization);
    }
    var current := SayFreely(x, Fetch, margin, t);
    FetchJudged(b, Said(Fetch, current), prepared.expected, margin);
    if !current.ok {
      return Some(Answer);
    }
    if current.revision != prepared.expected {
      return Some(RemoteChanged);
    }
    RenewalIsCleared(t, margin, prepared, lease, Said(Clock, clock), Said(Credential, credential), Said(Fetch, current));
    return None;
  }

  /** From the answer to the renewal to the end. */
  method AfterRenewal(x: Exchange, margin: int, prepared: Prepared, lease: Lease, renewed: Reply)
    returns (r: Result, err: Option<Error>)
    requires RenewalAnswered(x.trace, lease, prepared) && x.trace[6].reply == renewed && Disciplined(x.trace, margin)
    requires if renewed.ok then Calm(x.trace, margin) && prepared.expected != "" else Concluded(x.trace, NOTHING, Some(Answer), margin)
    requires x.Valid()
    modifies x, x.workspace
    ensures x.Valid()
    ensures Disciplined(x.trace, margin) && Settled(x.trace) && Follows(old(x.trace), x.trace)
    ensures Concluded(x.trace, r, err, margin) && Kept(x.workspace.State(), r, err)
  {
    ghost var t := x.trace;
    RenewalFacts(t, lease, prepared);
    hide Disciplined, Follows, Cleared, Fits, Honest, Answered, Replayed, Calm, Concluded, RenewalAnswered;
    if !renewed.ok {
      return NOTHING, Some(Answer);
    }
    err := Confirm(x, margin, prepared, lease, renewed);
    if err.Some? {
      return NOTHING, err;
    }
    ghost var u := x.trace;
    r, err := Push(x, margin, prepared, renewed.lease);
    FollowsOn(t, u, x.trace);
  }

  lemma RenewalFacts(t: Trace, lease: Lease, prepared: Prepared)
    requires RenewalAnswered(t, lease, prepared)
    ensures Follows(t, t) && Settled(t) && |t| == 7 && t[0].reply.revision == prepared.expected && t[6].call.Renew?
  {
  }

  lemma FollowsOn(t: Trace, u: Trace, v: Trace)
    requires Follows(t, u) && Follows(u, v)
    ensures Follows(t, v)
  {
  }

  lemma RenewalFollows(t: Trace, u: Trace, lease: Lease, prepared: Prepared, renew: Said)
    requires JustLeased(t, prepared.expected, lease) && Follows(t, u) && |u| == 6 && u[5].call.Reconcile?
    requires u[4].call.Fetch? && u[4].reply.ok && u[4].reply.revision == prepared.expected == lease.base
    requires renew.call == Renew(lease) && prepared.changes && prepared.commit != ""
    ensures RenewalAnswered(u + [renew], lease, prepared)
  {
  }

  /** Everything between acquiring and releasing the lease. `last` is the lease variable at the end:
      the renewal's answer replaces the acquired lease even when the renewal failed. */
  method UnderLease(x: Exchange, margin: int, head: string, lease: Lease)
    returns (r: Result, err: Option<Error>, last: Lease)
    requires JustLeased(x.trace, head, lease) && Disciplined(x.trace, margin) && Calm(x.trace, margin) && head != ""
    requires x.Valid()
    modifies x, x.workspace
    ensures x.Valid()
    ensures Disciplined(x.trace, margin) && Settled(x.trace) && NamesLease(x.trace, last)
    ensures Concluded(x.trace, r, err, margin) && Kept(x.workspace.State(), r, err)
    ensures |x.trace| >= 4 && x.trace[3] == old(x.trace[3]) && forall i :: 0 <= i < |x.trace| ==> !x.trace[i].call.Release?
  {
    hide Disciplined, NamesLease, Follows, FetchedAt, Honest, Answered, Replayed, Calm, Concluded;
    ghost var t := x.trace;
    last := lease;
    var before := BeforeRenewal(x, margin, head, lease);
    ghost var u := x.trace;
    FollowsKeeps(t, u);
    if before.Over? {
      assert t[..3] + [t[3]] == t;
      StillNamed(t[..3], t[3], u);
      return before.result, before.error, last;
    }
    var renewed := x.Ask(Renew(lease));
    last := renewed.lease;
    ghost var renew := Said(Renew(lease), renewed);
    RenewalFollows(t, u, lease, before.prepared, renew);
    FreeGrow(u, renew, margin);
    PlainJudged(u, renew, margin);
    ghost var v := x.trace;
    r, err := AfterRenewal(x, margin, before.prepared, lease, renewed);
    StillNamed(u, renew, x.trace);
    FollowsKeeps(v, x.trace);
  }

  datatype Before = Over(result: Result, error: Option<Error>) | Go(prepared: Prepared)

  /** The head is still the one that the lease was asked for. */
  method Verify(x: Exchange, margin: int, head: string, lease: Lease) returns (err: Option<Error>)
    requires JustLeased(x.trace, head, lease) && Disciplined(x.trace, margin) && Calm(x.trace, margin) && head != ""
    requires x.Valid()
    modifies x, x.workspace
    ensures x.Valid()
    ensures Disciplined(x.trace, margin) && Settled(x.trace) && Follows(old(x.trace), x.trace)
    ensures err.Some? ==> Concluded(x.trace, NOTHING, err, margin)
    ensures err.None? ==> |x.trace| == 5 && Harmless(x.trace) && FetchedAt(x.trace, 4, head) && x.trace[0].reply.revision == head
    ensures err.None? ==> Calm(x.trace, margin) && lease.base == head
  {
    ghost var t := x.trace;
    LeasedFacts(t, head, lease);
    hide Disciplined, Follows, Fits, Honest, Answered, Replayed, Calm, Concluded, JustLeased;
    var verified := SayFreely(x, Fetch, margin, t);
    FetchJudged(t, Said(Fetch, verified), head, margin);
    if !verified.ok {
      return Some(Answer);
    }
    if verified.revision != head || lease.base != head {
      return Some(RemoteChanged);
    }
    return None;
  }

  /** Verifies the head and prepares the publication again under the lease. */
  method BeforeRenewal(x: Exchange, margin: int, head: string, lease: Lease) returns (b: Before)
    requires JustLeased(x.trace, head, lease) && Disciplined(x.trace, margin) && Calm(x.trace, margin) && head != ""
    requires x.Valid()
    modifies x, x.workspace
    ensures x.Valid()
    ensures Disciplined(x.trace, margin) && Settled(x.trace) && Follows(old(x.trace), x.trace)
    ensures b.Over? ==> Concluded(x.trace, b.result, b.error, margin) && Kept(x.workspace.State(), b.result, b.error)
    ensures b.Go? ==>
      && |x.trace| == 6 && x.trace[4].call.Fetch? && x.trace[4].reply.ok && x.trace[4].reply.revision == head
      && x.trace[5].call.Reconcile? && lease.base == head
      && b.prepared.expected == head && b.prepared.changes && b.prepared.commit != "" && Calm(x.trace, margin)
  {
    hide Disciplined, Follows, Fits, Honest, Answered, Replayed, Calm, NoTrouble, Pushed, Eager, Concluded, Observed, JustLeased, Harmless;
    ghost var t := x.trace;
    var err := Verify(x, margin, head, lease);
    if err.Some? {
      return Over(NOTHING, err);
    }
    ghost var u := x.trace;
    FetchedIsObserved(u, 4, head);
    var again := SayFreely(x, Reconcile(head), margin, t);
    ghost var said := Said(Reconcile(head), again);
    PreparedJudged(u, said, head, margin);
    if !again.ok {
      return Over(NOTHING, Some(Answer));
    }
    var prepared := again.prepared;
    if !prepared.changes {
      FetchedFits(x.trace, 4, prepared, head, margin);
      NothingPushed(u, said);
      var r, failed := Record(x, margin, prepared, head, t);
      return Over(r, failed);
    }
    if prepared.expected != head || prepared.commit == "" {
      return Over(NOTHING, Some(RemoteChanged));
    }
    return Go(prepared);
  }

  lemma LeasedFacts(t: Trace, head: string, lease: Lease)
    requires JustLeased(t, head, lease)
    ensures Follows(t, t) && Settled(t) && |t| == 4 && t[0].reply.revision == head && Harmless(t)
    ensures t[3].call.Acquire? && t[3].reply.lease == lease
  {
  }

  /** Nothing was published. */
  lemma NothingPushed(t: Trace, s: Said)
    requires Harmless(t) && !s.call.Publish?
    ensures !Pushed(t + [s])
  {
  }

  lemma ReleaseEnds(t: Trace, lease: Lease, margin: int, released: Reply)
    requires Disciplined(t, margin) && Settled(t) && NamesLease(t, lease) && Leased(t)
    requires forall i :: 0 <= i < |t| ==> !t[i].call.Release?
    ensures Disciplined(t + [Said(Release(lease), released)], margin) && Released(t + [Said(Release(lease), released)])
  {
    var s := Said(Release(lease), released);
    Grow(t, s, margin);
    var i :| AcquiredAt(t, i);
    assert AcquiredAt(t + [s], i);
    assert (t + [s])[..|t|] == t;
    hide NamesLease, Disciplined;
  }

  datatype First = Ended(result: Result, error: Option<Error>) | Publishes(head: string)

  lemma NeverLeased(t: Trace)
    requires Follows([], t)
    ensures Released(t)
  {
  }

  /** The pull, which needs no lease, and what there is to publish after it. */
  method FirstPass(x: Exchange, margin: int) returns (f: First)
    requires x.trace == []
    requires x.Valid()
    modifies x, x.workspace
    ensures x.Valid()
    ensures Disciplined(x.trace, margin) && Settled(x.trace) && Follows([], x.trace)
    ensures f.Ended? ==> Concluded(x.trace, f.result, f.error, margin) && Kept(x.workspace.State(), f.result, f.error)
    ensures f.Publishes? ==> |x.trace| == 3 && Harmless(x.trace) && FetchedAt(x.trace, 0, f.head)
    ensures f.Publishes? ==> Calm(x.trace, margin) && f.head != "" && x.trace[0].reply.revision == f.head
  {
    NothingDisciplined(margin);
    assert Follows([], []);
    hide Disciplined, Follows, Fits, Observed, Harmless, FetchedAt, Honest, Answered, Replayed, Calm, NoTrouble, Pushed, Eager, Concluded;
    var remote := SayFreely(x, Fetch, margin, []);
    ghost var fetch := Said(Fetch, remote);
    assert x.trace == [fetch];
    FirstJudged(fetch, margin);
    if !remote.ok {
      return Ended(NOTHING, Some(Answer));
    }
    if remote.revision == "" {
      return Ended(NOTHING, Some(RemoteChanged));
    }
    var credential := SayFreely(x, Credential, margin, []);
    ghost var said := Said(Credential, credential);
    PlainJudged([fetch], said, margin);
    if !credential.ok {
      return Ended(NOTHING, Some(Authorization));
    }
    f := FirstPull(x, margin, remote.revision, fetch, said);
  }

  lemma FirstJudged(s: Said, margin: int)
    requires s.call.Fetch?
    ensures if s.reply.ok && s.reply.revision != "" then Calm([s], margin)
            else Concluded([s], NOTHING, Some(if s.reply.ok then RemoteChanged else Answer), margin)
  {
    BeginsCalm(margin);
    Judge([], s, margin);
    assert [] + [s] == [s];
    hide Calm, Told;
  }

  /** The first preparation. */
  lemma PullJudged(t: Trace, s: Said, margin: int)
    requires Calm(t, margin) && t != [] && t[|t| - 1].call.Credential? && s.call.Reconcile?
    ensures !s.reply.ok ==>
      Concluded(t + [s], if s.reply.conflict then Result(t[0].reply.revision, false, false) else NOTHING,
                Some(if s.reply.conflict then Conflict else Answer), margin)
    ensures s.reply.ok && s.reply.prepared.changes ==> Calm(t + [s], margin)
    ensures s.reply.ok && !s.reply.prepared.changes ==> NoTrouble(t + [s], margin) && !Eager(t + [s])
  {
    hide Calm, Told, NoTrouble;
    Judge(t, s, margin);
    assert (t + [s])[|t|] == s;
  }

  method FirstPull(x: Exchange, margin: int, head: string, ghost fetch: Said, ghost credential: Said) returns (f: First)
    requires x.trace == [fetch] + [credential] && fetch.call.Fetch? && fetch.reply.ok && fetch.reply.revision == head != ""
    requires credential.call.Credential? && Calm(x.trace, margin)
    requires Disciplined(x.trace, margin) && Settled(x.trace) && Follows([], x.trace)
    requires x.Valid()
    modifies x, x.workspace
    ensures x.Valid()
    ensures Disciplined(x.trace, margin) && Settled(x.trace) && Follows([], x.trace)
    ensures f.Ended? ==> Concluded(x.trace, f.result, f.error, margin) && Kept(x.workspace.State(), f.result, f.error)
    ensures f.Publishes? ==> |x.trace| == 3 && Harmless(x.trace) && FetchedAt(x.trace, 0, f.head)
    ensures f.Publishes? ==> Calm(x.trace, margin) && f.head != "" && x.trace[0].reply.revision == f.head
  {
    hide Disciplined, Follows, Fits, Observed, Harmless, FetchedAt, Honest, Answered, Replayed, Calm, NoTrouble, Pushed, Eager, Concluded;
    ghost var asked := x.trace;
    FetchedFirst(asked, fetch);
    FetchedIsObserved(asked, 0, head);
    var first := SayFreely(x, Reconcile(head), margin, []);
    ghost var said := Said(Reconcile(head), first);
    FetchedFirst(x.trace, fetch);
    PullJudged(asked, said, margin);
    if !first.ok {
      return Ended(if first.conflict then Result(head, false, false) else NOTHING,
                   Some(if first.conflict then Conflict else Answer));
    }
    if !first.prepared.changes {
      FetchedFits(x.trace, 0, first.prepared, head, margin);
      NothingPushed(asked, said);
      var r, err := Record(x, margin, first.prepared, head, []);
      return Ended(r, err);
    }
    return Publishes(head);
  }

  lemma FetchedFirst(t: Trace, fetch: Said)
    requires t != [] && t[0] == fetch && fetch.call.Fetch? && fetch.reply.ok
    requires forall i :: 0 <= i < |t| ==> t[i].call.Fetch? || t[i].call.Credential? || t[i].call.Reconcile?
    ensures Harmless(t) && FetchedAt(t, 0, fetch.reply.revision)
  {
  }

  lemma AcquireAsked(t: Trace, s: Said, head: string)
    requires Follows([], t) && |t| == 3 && Harmless(t) && FetchedAt(t, 0, head) && s.call == Acquire(head)
    ensures s.reply.ok ==> JustLeased(t + [s], head, s.reply.lease)
    ensures !s.reply.ok ==> Released(t + [s])
  {
  }

  /** `Sync`: at most one publication, only under the rules of `MayPublish`; every acquired lease is
      released exactly once, at the very end; and every revision that is reconciled with or recorded was
      observed. */
  method Sync(x: Exchange, margin: int) returns (r: Result, err: Option<Error>)
    requires x.trace == []
    requires x.Valid()
    modifies x, x.workspace
    ensures x.Valid()
    ensures Disciplined(x.trace, margin) && Settled(x.trace) && Released(x.trace)
    ensures Concluded(x.trace, r, err, margin)
    ensures err.None? ==>
      x.workspace.baseline.Some? && x.workspace.baseline.value.revision == r.revision && x.workspace.pending.None?
  {
    hide Disciplined, Follows, Fits, JustLeased, Released, Concluded, FetchedAt, NamesLease, Harmless, Honest, Answered, Replayed, Calm;
    var first := FirstPass(x, margin);
    ghost var s := x.trace;
    if first.Ended? {
      NeverLeased(s);
      return first.result, first.error;
    }
    var acquired := x.Ask(Acquire(first.head));
    ghost var t := x.trace;
    ghost var acquire := Said(Acquire(first.head), acquired);
    FreeGrow(s, acquire, margin);
    AcquireAsked(s, acquire, first.head);
    PlainJudged(s, acquire, margin);
    if !acquired.ok {
      return NOTHING, Some(Answer);
    }
    var last;
    r, err, last := UnderLease(x, margin, first.head, acquired.lease);
    ghost var u := x.trace;
    assert AcquiredAt(u, 3);
    var released := x.Ask(Release(last));
    ReleaseEnds(u, last, margin, released);
    ConcludedReleased(u, Said(Release(last), released), r, err, margin);
    if err.None? && !released.ok {
      err := Some(Answer);
    }
  }

  lemma ConcludedReleased(t: Trace, s: Said, r: Result, err: Option<Error>, margin: int)
    requires Concluded(t, r, err, margin) && s.call.Release? && t != []
    ensures Concluded(t + [s], r, if err.None? && !s.reply.ok then Some(Answer) else err, margin)
  {
    AccountedGrows(t, s, r, err);
    if err.Some? {
      ToldStays(t, s, r, err, margin);
    } else {
      ToldAtEnd(t, s, r, margin);
    }
  }
}
