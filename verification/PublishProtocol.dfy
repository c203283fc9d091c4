/**
  The publish execution protocol as a state machine.  One publication row is changed by API
  commands, the scanning dispatcher, stale recovery, human reconciliation and any number of
  workers.  Every await of the original is a place where the steps of different actors interleave:
  a read and the compare-and-swap that follows it are two steps.  The job queue is adversarial: any
  job, with any version and operation id, may be delivered to any worker at any time and any number
  of times, and a worker may crash between any two steps.
*/
module PublishProtocol {
  import opened Wrappers
  import opened ExecutionMetadata
  import PS = PublicationStatus

  // ---------------------------------------------------------------- the database

  datatype Row = Row(status: PS.PostStatus, version: nat, meta: Option<Metadata>, externalPostId: Option<string>) {
    function Snap(): Snapshot { Snapshot(version, meta) }
  }

  datatype Category = Transient | RateLimited | AuthRequired | Validation | Permanent | UnknownResult

  datatype AttemptStatus = InProgress | Succeeded | AttemptFailed

  datatype Attempt = Attempt(status: AttemptStatus, category: Option<Category>)

  // ---------------------------------------------------------------- the workers

  type WorkerId = nat

  datatype Job = Job(version: nat, operationId: Option<OperationId>)

  /** What a provider adapter can do.  `finalizesOnPoll`: a poll can lead to the final mutation
      (finalizePublish exists).  `asyncAfterFinal`: the adapter may answer PROCESSING after it has
      passed the final checkpoint. */
  datatype Adapter = Adapter(provider: Provider, finalizesOnPoll: bool, asyncAfterFinal: bool)

  /** How the worker came to own the operation: to publish, to poll a remote resource, or only to
      stop a blind retry of a publish request. */
  datatype Mode = Publish | Poll | Guard

  /** The local variables of `process`.  `base` is not one of them: it records the metadata the row
      held when the row had the worker's version, and no step branches on it. */
  datatype Context = Context(
    op: OperationId,
    version: nat,
    mode: Mode,
    source: Phase,
    attempt: nat,
    permit: bool,
    base: Metadata)

  /** Why a worker calls transitionOperation. */
  datatype Goal =
    | Prepare(containerId: Option<string>, state: Option<Json>)
    | Finalize
    | Processing(delayMs: int, remoteId: Option<string>, providerState: Option<Json>)
    | Complete(finalId: Option<string>)
    | Fail(category: Category)
    | MarkAmbiguous
    | StopRetry

  datatype Worker =
    | Idle
    | Loaded(job: Job, seen: Row)
    | Fenced(category: Category)
    | Claimed
    | Starting(readVersion: nat)
    | Owned(ctx: Context)
    | Attached(ctx: Context)
    | Running(ctx: Context)
    | Seeking(ctx: Context, goal: Goal, expected: Phase)
    | Checked(ctx: Context, goal: Goal, expected: Phase, now: Millis, next: Metadata)
    | Closing(attempt: nat, status: PS.PostStatus, category: Category)

  /** What the adapter gives back to `process`. */
  datatype AdapterResult =
    | Published(externalPostId: Option<string>)
    | StillProcessing(remoteId: Option<string>, providerState: Option<Json>, delay: Option<int>)
    | Failure(category: Category, ambiguousContainer: bool)
    | Threw(coordination: bool)

  // ---------------------------------------------------------------- dispatcher and operator

  datatype Recovery = Recovery(attempt: nat, meta: Option<Metadata>)

  datatype Decision = ConfirmPublished(externalPostId: string) | ConfirmFailed

  datatype Reconciliation = Reconciliation(decision: Decision, next: Metadata)

  // ---------------------------------------------------------------- history

  datatype Author = ByStart(w: WorkerId) | ByTransition(w: WorkerId) | ByRecovery | ByReconcile

  datatype Commit = Commit(author: Author, from: Option<Phase>, to: Phase)

  /** What has happened so far; no step branches on it. */
  datatype History = History(
    commits: seq<Commit>,
    enqueues: nat,
    claims: seq<nat>,
    permits: seq<WorkerId>,
    mutations: seq<OperationId>,
    recoveredCompleted: bool)

  datatype State = State(
    row: Row,
    attempts: seq<Attempt>,
    workers: map<WorkerId, Worker>,
    recoveries: map<nat, Recovery>,
    reconciliations: map<nat, Reconciliation>,
    deletable: bool,
    h: History)

  const INITIAL :=
    State(Row(PS.Draft, 0, None, None), [], map[], map[], map[], false, History([], 0, [], [], [], false))

  function At(s: State, w: WorkerId): Worker {
    if w in s.workers then s.workers[w] else Idle
  }

  function Put(s: State, w: WorkerId, k: Worker): State {
    s.(workers := s.workers[w := k])
  }

  // ---------------------------------------------------------------- API and dispatcher steps

  function Enqueue(s: State): State {
    s.(row := s.row.(status := PS.Queued, version := s.row.version + 1),
       h := s.h.(enqueues := s.h.enqueues + 1))
  }

  /** transitionVariantState: a guarded status update that bumps the version on entry to QUEUED. */
  function DoCommand(s: State, c: PS.Command): State {
    if s.row.status !in PS.Sources(c) then s
    else if PS.Target(c).Queued? then Enqueue(s)
    else s.(row := s.row.(status := PS.Target(c)), deletable := s.deletable || PS.Target(c).Deleting?)
  }

  /** promoteScheduled, for a schedule that is due. */
  function Promote(s: State): State {
    if s.row.status.Scheduled? then Enqueue(s) else s
  }

  /** The unguarded status write at the end of a delete job. */
  function DeleteWrite(s: State, deleted: bool): State {
    if s.deletable then s.(row := s.row.(status := if deleted then PS.Deleted else PS.Unknown)) else s
  }

  /** The scan of recoverStalePublishing reads a stale attempt together with the metadata; a
      well-formed PROCESSING_REMOTE value is left to the dispatcher. */
  function RecoverRead(s: State, r: nat, a: nat): State {
    if a < |s.attempts| && s.attempts[a].status.InProgress?
       && !(s.row.meta.Some? && WellFormed(s.row.meta.value) && s.row.meta.value.phase.ProcessingRemote?)
    then s.(recoveries := s.recoveries[r := Recovery(a, s.row.meta)])
    else s
  }

  /** The recovery transaction: guarded by the status only, it writes the metadata of the scan. */
  function RecoverCommit(s: State, r: nat): State {
    if r !in s.recoveries then s
    else
      var rec := s.recoveries[r];
      var s1 := s.(recoveries := s.recoveries - {r});
      if !s.row.status.Publishing? then s1
      else
        var s2 := s1.(attempts := FailIfInProgress(s.attempts, rec.attempt));
        if rec.meta.None? then s2.(row := s.row.(status := PS.Unknown))
        else
          s2.(row := s.row.(status := PS.Unknown, version := s.row.version + 1,
                            meta := Some(rec.meta.value.(phase := Phase.Ambiguous))),
              h := s.h.(commits := s.h.commits + [Commit(ByRecovery, PhaseOf(s.row), Phase.Ambiguous)],
                        recoveredCompleted := s.h.recoveredCompleted || rec.meta.value.phase.Completed?))
  }

  function PhaseOf(row: Row): Option<Phase> {
    if row.meta.Some? then Some(row.meta.value.phase) else None
  }

  function FailIfInProgress(attempts: seq<Attempt>, a: nat): seq<Attempt> {
    if a < |attempts| && attempts[a].status.InProgress?
    then attempts[a := Attempt(AttemptFailed, Some(UnknownResult))]
    else attempts
  }

  predicate Blank(s: string) {
    forall i | 0 <= i < |s| :: s[i] in {' ', '\t', '\n', '\r'}
  }

  /** What a reconciliation that read `row` would write, or nothing when it refuses. */
  function PlanReconcile(row: Row, d: Decision): Option<Reconciliation> {
    if !row.status.Unknown? || row.meta.None? || !row.meta.value.phase.Ambiguous? then None
    else match d
      case ConfirmPublished(id) =>
        if Blank(id) then None
        else Some(Reconciliation(d, row.meta.value.(phase := Phase.Completed, finalRemoteId := Some(id))))
      case ConfirmFailed =>
        Some(Reconciliation(d, row.meta.value.(phase := Phase.Failed)))
  }

  function ReconcileRead(s: State, c: nat, d: Decision): State {
    var plan := PlanReconcile(s.row, d);
    if plan.None? then s else s.(reconciliations := s.reconciliations[c := plan.value])
  }

  function Eligible(attempts: seq<Attempt>): set<nat> {
    set i | 0 <= i < |attempts| && attempts[i] == Attempt(AttemptFailed, Some(UnknownResult))
  }

  /** The reconciliation transaction: it commits when the status is still UNKNOWN and exactly one
      attempt failed with an unknown result, and otherwise rolls back. */
  predicate ReconcileCommits(s: State, c: nat) {
    c in s.reconciliations && s.row.status.Unknown?
    && exists a :: a in Eligible(s.attempts) && Eligible(s.attempts) == {a}
  }

  function ReconcileCommit(s: State, c: nat): State {
    if c !in s.reconciliations then s
    else
      var s1 := s.(reconciliations := s.reconciliations - {c});
      if !ReconcileCommits(s, c) then s1
      else
        var rec := s.reconciliations[c];
        var a :| a in Eligible(s.attempts) && Eligible(s.attempts) == {a};
        var commits := s.h.commits + [Commit(ByReconcile, PhaseOf(s.row), rec.next.phase)];
        match rec.decision
        case ConfirmPublished(id) =>
          s1.(row := s.row.(status := PS.Published, meta := Some(rec.next), externalPostId := Some(id)),
              attempts := s.attempts[a := Attempt(Succeeded, None)],
              h := s.h.(commits := commits))
        case ConfirmFailed =>
          s1.(row := s.row.(status := PS.Failed, meta := Some(rec.next)),
              attempts := s.attempts[a := Attempt(AttemptFailed, Some(Permanent))],
              h := s.h.(commits := commits))
  }

  // ---------------------------------------------------------------- worker steps up to ownership

  /** The authoritative load and the stale-job check. */
  function Deliver(s: State, w: WorkerId, job: Job): State {
    if At(s, w).Idle? && (s.row.status.Queued? || s.row.status.Publishing?) && s.row.version == job.version
    then Put(s, w, Loaded(job, s.row))
    else s
  }

  /** The categories an early fence reports: account, billing or validation. */
  predicate EarlyCategory(c: Category) {
    c.AuthRequired? || c.Permanent? || c.Validation?
  }

  /** An early fence: an unguarded status write. */
  function EarlyFail(s: State, w: WorkerId, c: Category): State {
    if At(s, w).Loaded? && EarlyCategory(c) then Put(s.(row := s.row.(status := PS.Failed)), w, Fenced(c)) else s
  }

  function RecordEarly(s: State, w: WorkerId): State {
    match At(s, w)
    case Fenced(c) => Put(s.(attempts := s.attempts + [Attempt(AttemptFailed, Some(c))]), w, Idle)
    case _ => s
  }

  /** The atomic claim of a queued publication. */
  function Claim(s: State, w: WorkerId): State {
    match At(s, w)
    case Loaded(job, seen) =>
      if !seen.status.Queued? then s
      else if s.row.status.Queued? && s.row.version == job.version then
        Put(s.(row := s.row.(status := PS.Publishing), h := s.h.(claims := s.h.claims + [job.version])), w, Claimed)
      else Put(s, w, Idle)
    case _ => s
  }

  function StartRead(s: State, w: WorkerId): State {
    if !At(s, w).Claimed? then s
    else Put(s, w, if s.row.meta.Some? then Idle else Starting(s.row.version))
  }

  function StartCommit(cfg: Adapter, s: State, w: WorkerId, op: OperationId): State {
    match At(s, w)
    case Starting(v) =>
      if s.row.version != v then Put(s, w, Idle)
      else
        var m := Fresh(op, cfg.provider);
        Put(s.(row := s.row.(meta := Some(m), version := v + 1),
               h := s.h.(commits := s.h.commits + [Commit(ByStart(w), PhaseOf(s.row), Initiated)])),
            w, Owned(Context(op, v + 1, Publish, Initiated, 0, false, m)))
    case _ => s
  }

  /** A job that finds the publication PUBLISHING continues the persisted operation. */
  function Continue(s: State, w: WorkerId): State {
    match At(s, w)
    case Loaded(job, seen) =>
      if !seen.status.Publishing? then s
      else if seen.meta.None? || !WellFormed(seen.meta.value) || Terminal(seen.meta.value.phase)
              || (job.operationId.Some? && job.operationId.value != seen.meta.value.operationId)
      then Put(s, w, Idle)
      else
        var m := seen.meta.value;
        var mode := if m.phase.ProcessingRemote? then Poll else if m.phase.PublishRequested? then Guard else Publish;
        Put(s, w, Owned(Context(m.operationId, seen.version, mode, ProcessingRemote, 0, false, m)))
    case _ => s
  }

  /** Creates a publication attempt or adopts an existing one. */
  function Attach(s: State, w: WorkerId, reuse: Option<nat>): State {
    match At(s, w)
    case Owned(ctx) =>
      if reuse.Some? && reuse.value < |s.attempts| then Put(s, w, Attached(ctx.(attempt := reuse.value)))
      else Put(s.(attempts := s.attempts + [Attempt(InProgress, None)]), w, Attached(ctx.(attempt := |s.attempts|)))
    case _ => s
  }

  // ---------------------------------------------------------------- worker steps around the adapter

  /** A persisted publish request is never retried blindly; otherwise credentials are acquired
      (`None` when they are, or the failure that ends the job) and the adapter is invoked. */
  function Invoke(s: State, w: WorkerId, credentialsRevoked: bool): State {
    match At(s, w)
    case Attached(ctx) =>
      if ctx.mode.Guard? then Put(s, w, Seeking(ctx, StopRetry, PublishRequested))
      else if credentialsRevoked then Put(s, w, Closing(ctx.attempt, PS.Failed, AuthRequired))
      else Put(s, w, Running(ctx))
    case _ => s
  }

  /** The adapter calls onRemotePrepared or beforeFinalMutation; the hook reads the current phase.
      Outside `publish` the final hook is reachable only through finalizePublish. */
  function Hook(cfg: Adapter, s: State, w: WorkerId, goal: Goal): State {
    match At(s, w)
    case Running(ctx) =>
      if !(goal.Prepare? || (goal.Finalize? && (ctx.mode.Publish? || cfg.finalizesOnPoll))) then s
      else if s.row.meta.None? then Put(s, w, Idle)
      else Put(s, w, Seeking(ctx.(permit := false), goal, s.row.meta.value.phase))
    case _ => s
  }

  /** The final, non-idempotent remote mutation, made only right after beforeFinalMutation returned. */
  function Mutate(s: State, w: WorkerId): State {
    match At(s, w)
    case Running(ctx) =>
      if !ctx.permit then s
      else Put(s.(h := s.h.(mutations := s.h.mutations + [ctx.op])), w, Running(ctx.(permit := false)))
    case _ => s
  }

  /** `result.delayMs || 60000` */
  function DelayOrDefault(delay: Option<int>): int {
    if delay.None? || delay.value == 0 then 60000 else delay.value
  }

  /** The adapter returns or throws, and `process` decides how to record it. */
  function Conclude(ctx: Context, result: AdapterResult): Worker {
    var requested := ctx.source.PublishRequested?;
    var quiet := ctx.(permit := false);
    match result
    case Published(id) => Seeking(quiet, Complete(id), ctx.source)
    case StillProcessing(remote, state, delay) =>
      Seeking(quiet, Processing(DelayOrDefault(delay), remote, state), ctx.source)
    case Failure(category, ambiguousContainer) =>
      if category.UnknownResult? || (requested && category.Transient?) || ambiguousContainer then
        if !requested && !ambiguousContainer then Idle else Seeking(quiet, MarkAmbiguous, ctx.source)
      else Seeking(quiet, Fail(category), ctx.source)
    case Threw(coordination) =>
      if coordination || ctx.source.ProcessingRemote? then Idle
      else if requested then Seeking(quiet, MarkAmbiguous, ctx.source)
      else Closing(ctx.attempt, PS.Unknown, UnknownResult)
  }

  function Finish(cfg: Adapter, s: State, w: WorkerId, result: AdapterResult): State {
    match At(s, w)
    case Running(ctx) =>
      if result.StillProcessing? && ctx.source.PublishRequested? && !cfg.asyncAfterFinal then s
      else Put(s, w, Conclude(ctx, result))
    case _ => s
  }

  // ---------------------------------------------------------------- transitionOperation in two steps

  function NextPhase(g: Goal): Phase {
    match g
    case Prepare(_, _) => ContainerCreated
    case Finalize => PublishRequested
    case Processing(_, _, _) => ProcessingRemote
    case Complete(_) => Completed
    case Fail(_) => Phase.Failed
    case MarkAmbiguous => Ambiguous
    case StopRetry => Ambiguous
  }

  function DataOf(g: Goal): TransitionData {
    match g
    case Prepare(id, state) => NO_DATA.(containerId := id, preparationState := state)
    case Processing(delay, remote, state) =>
      NO_DATA.(delayMs := Some(delay), remoteResourceId := remote, preparationState := state)
    case Complete(id) => NO_DATA.(finalRemoteId := id)
    case _ => NO_DATA
  }

  function Plan(row: Snapshot, ctx: Context, goal: Goal, expected: Phase, now: Millis)
    : Result<Metadata, TransitionError>
  {
    PlanTransition(row, ctx.op, expected, NextPhase(goal), ctx.version, DataOf(goal), now)
  }

  /** Where a worker goes when transitionOperation refuses. */
  function Refused(ctx: Context, goal: Goal): Worker {
    if goal.Processing? || goal.Complete? then Closing(ctx.attempt, PS.Unknown, UnknownResult) else Idle
  }

  function Check(s: State, w: WorkerId, now: Millis): State {
    match At(s, w)
    case Seeking(ctx, goal, expected) =>
      var plan := Plan(s.row.Snap(), ctx, goal, expected, now);
      Put(s, w, if plan.Ok? then Checked(ctx, goal, expected, now, plan.value) else Refused(ctx, goal))
    case _ => s
  }

  /** The row after a transition has committed: a terminal goal also writes the status, in the same
      transaction. */
  function CommittedRow(row: Row, goal: Goal, next: Metadata): Row {
    var row1 := row.(meta := Some(next), version := row.version + 1);
    match goal
    case Complete(id) => row1.(status := PS.Published, externalPostId := id)
    case Fail(_) => row1.(status := PS.Failed)
    case MarkAmbiguous => row1.(status := PS.Unknown)
    case _ => row1
  }

  /** The attempt a terminal goal closes in that transaction. */
  function CommittedAttempts(attempts: seq<Attempt>, a: nat, goal: Goal): seq<Attempt> {
    match goal
    case Complete(_) => SetAttempt(attempts, a, Attempt(Succeeded, None))
    case Fail(c) => SetAttempt(attempts, a, Attempt(AttemptFailed, Some(c)))
    case MarkAmbiguous => SetAttempt(attempts, a, Attempt(AttemptFailed, Some(UnknownResult)))
    case _ => attempts
  }

  function CommittedHistory(row: Row, h: History, w: WorkerId, goal: Goal, next: Metadata): History {
    h.(commits := h.commits + [Commit(ByTransition(w), PhaseOf(row), next.phase)],
       permits := if goal.Finalize? then h.permits + [w] else h.permits)
  }

  function SetAttempt(attempts: seq<Attempt>, a: nat, v: Attempt): seq<Attempt> {
    if a < |attempts| then attempts[a := v] else attempts
  }

  /** Where a worker goes once its transition has committed. */
  function Accepted(w: WorkerId, ctx: Context, goal: Goal, next: Metadata): Worker {
    match goal
    case Prepare(_, _) => Running(ctx.(version := ctx.version + 1, source := ContainerCreated, base := next))
    case Finalize =>
      Running(ctx.(version := ctx.version + 1, source := PublishRequested, permit := true, base := next))
    case StopRetry => Closing(ctx.attempt, PS.Unknown, UnknownResult)
    case _ => Idle
  }

  /** The compare-and-swap on the dispatch version. */
  function CommitStep(s: State, w: WorkerId): State {
    match At(s, w)
    case Checked(ctx, goal, expected, now, next) =>
      if s.row.version != ctx.version then Put(s, w, Refused(ctx, goal))
      else
        Put(s.(row := CommittedRow(s.row, goal, next),
               attempts := CommittedAttempts(s.attempts, ctx.attempt, goal),
               h := CommittedHistory(s.row, s.h, w, goal, next)),
            w, Accepted(w, ctx, goal, next))
    case _ => s
  }

  /** handleUnknown or handleFailure without a transition: unguarded writes. */
  function Close(s: State, w: WorkerId): State {
    match At(s, w)
    case Closing(a, status, category) =>
      Put(s.(row := s.row.(status := status),
             attempts := SetAttempt(s.attempts, a, Attempt(AttemptFailed, Some(category)))), w, Idle)
    case _ => s
  }

  // ---------------------------------------------------------------- runs

  datatype Event =
    | EvCommand(c: PS.Command)
    | EvPromote
    | EvDeleteWrite(deleted: bool)
    | EvRecoverRead(r: nat, a: nat)
    | EvRecoverCommit(r: nat)
    | EvReconcileRead(c0: nat, d: Decision)
    | EvReconcileCommit(c0: nat)
    | EvDeliver(w: WorkerId, job: Job)
    | EvEarlyFail(w: WorkerId, category: Category)
    | EvRecordEarly(w: WorkerId)
    | EvClaim(w: WorkerId)
    | EvStartRead(w: WorkerId)
    | EvStartCommit(w: WorkerId, op: OperationId)
    | EvContinue(w: WorkerId)
    | EvAttach(w: WorkerId, reuse: Option<nat>)
    | EvInvoke(w: WorkerId, credentialsRevoked: bool)
    | EvHook(w: WorkerId, goal: Goal)
    | EvMutate(w: WorkerId)
    | EvFinish(w: WorkerId, result: AdapterResult)
    | EvCheck(w: WorkerId, now: Millis)
    | EvCommit(w: WorkerId)
    | EvClose(w: WorkerId)
    | EvCrash(w: WorkerId)

  function Step(cfg: Adapter, s: State, e: Event): State {
    match e
    case EvCommand(c) => DoCommand(s, c)
    case EvPromote => Promote(s)
    case EvDeleteWrite(deleted) => DeleteWrite(s, deleted)
    case EvRecoverRead(r, a) => RecoverRead(s, r, a)
    case EvRecoverCommit(r) => RecoverCommit(s, r)
    case EvReconcileRead(c, d) => ReconcileRead(s, c, d)
    case EvReconcileCommit(c) => ReconcileCommit(s, c)
    case EvDeliver(w, job) => Deliver(s, w, job)
    case EvEarlyFail(w, c) => EarlyFail(s, w, c)
    case EvRecordEarly(w) => RecordEarly(s, w)
    case EvClaim(w) => Claim(s, w)
    case EvStartRead(w) => StartRead(s, w)
    case EvStartCommit(w, op) => StartCommit(cfg, s, w, op)
    case EvContinue(w) => Continue(s, w)
    case EvAttach(w, reuse) => Attach(s, w, reuse)
    case EvInvoke(w, revoked) => Invoke(s, w, revoked)
    case EvHook(w, goal) => Hook(cfg, s, w, goal)
    case EvMutate(w) => Mutate(s, w)
    case EvFinish(w, result) => Finish(cfg, s, w, result)
    case EvCheck(w, now) => Check(s, w, now)
    case EvCommit(w) => CommitStep(s, w)
    case EvClose(w) => Close(s, w)
    case EvCrash(w) => Put(s, w, Idle)
  }

  function Run(cfg: Adapter, s: State, es: seq<Event>): State
    decreases |es|
  {
    if es == [] then s else Run(cfg, Step(cfg, s, es[0]), es[1..])
  }
}
