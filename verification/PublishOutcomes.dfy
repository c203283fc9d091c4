/**
  What the other actors of the publish protocol leave in the row and the attempts: a job from its delivery to
  the adapter, an early fence, a stale recovery and a reconciliation.
*/
module PublishOutcomes {
  import opened Wrappers
  import opened ExecutionMetadata
  import opened PublishProtocol
  import opened PublishInvariant
  import opened PublishTheorems
  import opened PublishAnswers
  import PublishExceptions
  import PS = PublicationStatus

  // ---------------------------------------------------------------- a job

  function Owning(cfg: Adapter, s: State, w: WorkerId, op: OperationId): State {
    Continue(StartCommit(cfg, StartRead(Claim(s, w), w), w, op), w)
  }

  /** A job that nothing disturbs, up to the adapter: load, claim, start or continue, attach, acquire credentials. */
  function Handled(cfg: Adapter, s: State, w: WorkerId, job: Job, op: OperationId, reuse: Option<nat>, revoked: bool,
                   now: Millis): State
  {
    FromOwning(Owning(cfg, Deliver(s, w, job), w, op), w, reuse, revoked, now)
  }

  function FromOwning(s: State, w: WorkerId, reuse: Option<nat>, revoked: bool, now: Millis): State {
    Recording(Check(Invoke(Attach(s, w, reuse), w, revoked), w, now), w)
  }

  /** An attempt in progress that the worker finds is its own; if it finds none it adds one. */
  function OwnAttempt(attempts: seq<Attempt>, reuse: Option<nat>): (r: (seq<Attempt>, nat))
    ensures r.1 < |r.0|
  {
    if reuse.Some? && reuse.value < |attempts| then (attempts, reuse.value)
    else (attempts + [Attempt(InProgress, None)], |attempts|)
  }

  predicate Due(row: Row, job: Job) {
    (row.status.Queued? || row.status.Publishing?) && row.version == job.version
  }

  /** The job can continue the operation that the row carries. */
  predicate Continues(row: Row, job: Job) {
    && row.status.Publishing? && row.meta.Some? && WellFormed(row.meta.value) && !Terminal(row.meta.value.phase)
    && (job.operationId.Some? ==> job.operationId.value == row.meta.value.operationId)
  }

  /** The worker runs its adapter for the operation of the row, and believes the row to be in phase `source`. */
  predicate Runs(s: State, w: WorkerId, source: Phase, attempt: nat) {
    && At(s, w).Running? && s.row.meta.Some?
    && var ctx := At(s, w).ctx;
       && ctx.op == s.row.meta.value.operationId && ctx.version == s.row.version
       && ctx.source == source && ctx.attempt == attempt && !ctx.permit
  }

  /** The worker's own attempt has been closed as failed. */
  predicate FailedOwn(s: State, s': State, reuse: Option<nat>, category: Category) {
    var (attempts, a) := OwnAttempt(s.attempts, reuse);
    s'.attempts == attempts[a := Attempt(AttemptFailed, Some(category))]
  }

  /** The worker has its attempt and the adapter invoked; without credentials the publication fails and its metadata is
      left as it is. */
  predicate Invoked(s: State, s': State, w: WorkerId, row: Row, source: Phase, reuse: Option<nat>, revoked: bool) {
    if revoked then
      s'.row == row.(status := PS.Failed) && FailedOwn(s, s', reuse, AuthRequired) && At(s', w).Idle?
    else
      && s'.row == row && s'.attempts == OwnAttempt(s.attempts, reuse).0
      && Runs(s', w, source, OwnAttempt(s.attempts, reuse).1)
  }

  predicate JobOutcome(cfg: Adapter, s: State, s': State, w: WorkerId, job: Job, op: OperationId, reuse: Option<nat>,
                       revoked: bool)
  {
    if !Due(s.row, job) then Untouched(s, s') && At(s', w).Idle?
    else if s.row.status.Queued? then
      if s.row.meta.Some? then
        s'.row == s.row.(status := PS.Publishing) && s'.attempts == s.attempts && At(s', w).Idle?
      else
        var started := s.row.(status := PS.Publishing, version := job.version + 1, meta := Some(Fresh(op, cfg.provider)));
        Invoked(s, s', w, started, Initiated, reuse, revoked)
    else if !Continues(s.row, job) then Untouched(s, s') && At(s', w).Idle?
    else if s.row.meta.value.phase.PublishRequested? then
      s'.row == Ended(s.row, PS.Unknown, Ambiguous) && FailedOwn(s, s', reuse, UnknownResult) && At(s', w).Idle?
    else Invoked(s, s', w, s.row, ProcessingRemote, reuse, revoked)
  }

  /** A job that nothing disturbs.  A stale one does nothing.  One for a queued publication starts the operation;
      if the publication already carries one, it is left PUBLISHING and nobody owns it.  One for a publication that
      is PUBLISHING continues a well-formed, unfinished operation; a publish request is never repeated, but ends
      AMBIGUOUS.  No permit is granted and nothing is mutated before the adapter runs. */
  lemma JobIsHandled(cfg: Adapter, s: State, w: WorkerId, job: Job, op: OperationId, reuse: Option<nat>, revoked: bool,
                 now: Millis)
    requires At(s, w).Idle?
    ensures var s' := Handled(cfg, s, w, job, op, reuse, revoked, now);
      && JobOutcome(cfg, s, s', w, job, op, reuse, revoked)
      && Aloof(s, s', w) && s'.h.permits == s.h.permits && s'.h.mutations == s.h.mutations
  {
    if !Due(s.row, job) {
      IdleDoesNothing(cfg, s, w, op, reuse, revoked, now);
    } else if s.row.status.Queued? {
      QueuedJob(cfg, s, w, job, op, reuse, revoked, now);
    } else {
      PublishingJob(cfg, s, w, job, op, reuse, revoked, now);
    }
  }

  lemma IdleDoesNothing(cfg: Adapter, s: State, w: WorkerId, op: OperationId, reuse: Option<nat>, revoked: bool,
                 now: Millis)
    requires At(s, w).Idle?
    ensures Owning(cfg, s, w, op) == s
    ensures FromOwning(s, w, reuse, revoked, now) == s
  {
  }

  lemma QueuedJob(cfg: Adapter, s: State, w: WorkerId, job: Job, op: OperationId, reuse: Option<nat>, revoked: bool,
                 now: Millis)
    requires At(s, w).Idle? && Due(s.row, job) && s.row.status.Queued?
    ensures var s' := Handled(cfg, s, w, job, op, reuse, revoked, now);
      && JobOutcome(cfg, s, s', w, job, op, reuse, revoked)
      && Aloof(s, s', w) && s'.h.permits == s.h.permits && s'.h.mutations == s.h.mutations
  {
    var s1 := Claim(Deliver(s, w, job), w);
    Claims(s, w, job);
    if s.row.meta.Some? {
      IdleDoesNothing(cfg, StartRead(s1, w), w, op, reuse, revoked, now);
      assert At(StartRead(s1, w), w).Idle?;
    } else {
      StartsOperation(cfg, s1, w, op);
      var s2 := Continue(StartCommit(cfg, StartRead(s1, w), w, op), w);
      InvokesAdapter(s2, w, At(s2, w).ctx, reuse, revoked, now);
    }
  }

  lemma Claims(s: State, w: WorkerId, job: Job)
    requires At(s, w).Idle? && Due(s.row, job) && s.row.status.Queued?
    ensures var s' := Claim(Deliver(s, w, job), w);
      && At(s', w).Claimed? && s'.row == s.row.(status := PS.Publishing) && s'.attempts == s.attempts
      && Aloof(s, s', w) && s'.h.permits == s.h.permits && s'.h.mutations == s.h.mutations
  {
    assert At(Deliver(s, w, job), w) == Loaded(job, s.row);
  }

  lemma StartsOperation(cfg: Adapter, s: State, w: WorkerId, op: OperationId)
    requires At(s, w).Claimed? && s.row.meta.None?
    ensures var s' := Continue(StartCommit(cfg, StartRead(s, w), w, op), w);
      && s'.row == s.row.(version := s.row.version + 1, meta := Some(Fresh(op, cfg.provider))) && s'.attempts == s.attempts
      && At(s', w) == Owned(Context(op, s.row.version + 1, Publish, Initiated, 0, false, Fresh(op, cfg.provider)))
      && Aloof(s, s', w) && s'.h.permits == s.h.permits && s'.h.mutations == s.h.mutations
  {
    assert At(StartRead(s, w), w) == Starting(s.row.version);
  }

  /** From ownership to the adapter. */
  lemma InvokesAdapter(s: State, w: WorkerId, ctx: Context, reuse: Option<nat>, revoked: bool, now: Millis)
    requires At(s, w) == Owned(ctx) && !ctx.mode.Guard? && !ctx.permit
    requires s.row.meta.Some? && s.row.meta.value.operationId == ctx.op && s.row.version == ctx.version
    ensures var s' := FromOwning(s, w, reuse, revoked, now);
      && Invoked(s, s', w, s.row, ctx.source, reuse, revoked)
      && Aloof(s, s', w) && s'.h.permits == s.h.permits && s'.h.mutations == s.h.mutations
  {
    AttachOf(s, w, ctx, reuse);
    var s1 := Attach(s, w, reuse);
    InvokeOf(s1, w, s1.workers[w].ctx, revoked, now);
  }

  lemma AttachOf(s: State, w: WorkerId, ctx: Context, reuse: Option<nat>)
    requires At(s, w) == Owned(ctx)
    ensures var s' := Attach(s, w, reuse);
      && w in s'.workers && s'.workers[w] == Attached(ctx.(attempt := OwnAttempt(s.attempts, reuse).1))
      && s'.row == s.row && s'.attempts == OwnAttempt(s.attempts, reuse).0 && s'.h == s.h && Aloof(s, s', w)
  {
  }

  lemma InvokeOf(s: State, w: WorkerId, ctx: Context, revoked: bool, now: Millis)
    requires At(s, w) == Attached(ctx) && !ctx.mode.Guard? && ctx.attempt < |s.attempts|
    ensures var s' := Recording(Check(Invoke(s, w, revoked), w, now), w);
      && Aloof(s, s', w) && s'.h == s.h
      && if revoked then
           && s'.row == s.row.(status := PS.Failed) && At(s', w).Idle?
           && s'.attempts == s.attempts[ctx.attempt := Attempt(AttemptFailed, Some(AuthRequired))]
         else s'.row == s.row && s'.attempts == s.attempts && At(s', w) == Running(ctx)
  {
    var s2 := Invoke(s, w, revoked);
    assert Check(s2, w, now) == s2 && CommitStep(s2, w) == s2;
  }

  lemma PublishingJob(cfg: Adapter, s: State, w: WorkerId, job: Job, op: OperationId, reuse: Option<nat>, revoked: bool,
                 now: Millis)
    requires At(s, w).Idle? && Due(s.row, job) && s.row.status.Publishing?
    ensures var s' := Handled(cfg, s, w, job, op, reuse, revoked, now);
      && JobOutcome(cfg, s, s', w, job, op, reuse, revoked)
      && Aloof(s, s', w) && s'.h.permits == s.h.permits && s'.h.mutations == s.h.mutations
  {
    var s1 := Deliver(s, w, job);
    Joins(cfg, s, w, job, op);
    var s2 := Owning(cfg, s1, w, op);
    if !Continues(s.row, job) {
      IdleDoesNothing(cfg, s2, w, op, reuse, revoked, now);
    } else if At(s2, w).ctx.mode.Guard? {
      StopsRetry(s2, w, At(s2, w).ctx, reuse, revoked, now);
    } else {
      InvokesAdapter(s2, w, At(s2, w).ctx, reuse, revoked, now);
    }
  }

  lemma Joins(cfg: Adapter, s: State, w: WorkerId, job: Job, op: OperationId)
    requires At(s, w).Idle? && Due(s.row, job) && s.row.status.Publishing?
    ensures var s' := Owning(cfg, Deliver(s, w, job), w, op);
      && s'.row == s.row && s'.attempts == s.attempts && Aloof(s, s', w) && s'.h == s.h
      && if !Continues(s.row, job) then At(s', w).Idle?
         else
           && At(s', w).Owned?
           && var ctx := At(s', w).ctx;
              && ctx.op == s.row.meta.value.operationId && ctx.version == s.row.version
              && ctx.source.ProcessingRemote? && !ctx.permit
              && (ctx.mode.Guard? <==> s.row.meta.value.phase.PublishRequested?)
  {
    var s1 := Deliver(s, w, job);
    assert At(s1, w) == Loaded(job, s.row);
    assert Claim(s1, w) == s1 && StartRead(s1, w) == s1 && StartCommit(cfg, s1, w, op) == s1;
  }

  /** A publish request that a job finds is never repeated. */
  lemma StopsRetry(s: State, w: WorkerId, ctx: Context, reuse: Option<nat>, revoked: bool, now: Millis)
    requires At(s, w) == Owned(ctx) && ctx.mode.Guard? && s.row.version == ctx.version
    requires s.row.meta.Some? && s.row.meta.value.operationId == ctx.op && WellFormed(s.row.meta.value)
    requires s.row.meta.value.phase.PublishRequested?
    ensures var s' := FromOwning(s, w, reuse, revoked, now);
      && s'.row == Ended(s.row, PS.Unknown, Ambiguous) && FailedOwn(s, s', reuse, UnknownResult) && At(s', w).Idle?
      && Aloof(s, s', w) && s'.h.permits == s.h.permits && s'.h.mutations == s.h.mutations
  {
    var owner := ctx.(attempt := OwnAttempt(s.attempts, reuse).1);
    var s2 := Invoke(Attach(s, w, reuse), w, revoked);
    SeeksToStop(s, w, ctx, reuse, revoked);
    StopIsPlanned(s.row.Snap(), owner, now);
    var next := Plan(s.row.Snap(), owner, StopRetry, PublishRequested, now).value;
    CheckOf(s2, w, owner, StopRetry, PublishRequested, now);
    StopCommits(Check(s2, w, now), w, owner, now, next);
  }

  lemma StopIsPlanned(row: Snapshot, ctx: Context, now: Millis)
    requires row.version == ctx.version && row.meta.Some? && row.meta.value.operationId == ctx.op
    requires WellFormed(row.meta.value) && row.meta.value.phase.PublishRequested?
    ensures Plan(row, ctx, StopRetry, PublishRequested, now).Ok?
  {
  }

  lemma SeeksToStop(s: State, w: WorkerId, ctx: Context, reuse: Option<nat>, revoked: bool)
    requires At(s, w) == Owned(ctx) && ctx.mode.Guard?
    ensures var s' := Invoke(Attach(s, w, reuse), w, revoked);
      && At(s', w) == Seeking(ctx.(attempt := OwnAttempt(s.attempts, reuse).1), StopRetry, PublishRequested)
      && s'.row == s.row && s'.attempts == OwnAttempt(s.attempts, reuse).0 && s'.h == s.h && Aloof(s, s', w)
  {
    AttachOf(s, w, ctx, reuse);
  }

  lemma StopCommits(s: State, w: WorkerId, ctx: Context, now: Millis, next: Metadata)
    requires At(s, w) == Checked(ctx, StopRetry, PublishRequested, now, next) && s.row.version == ctx.version
    requires Plan(s.row.Snap(), ctx, StopRetry, PublishRequested, now) == Ok(next) && ctx.attempt < |s.attempts|
    ensures var s' := Recording(s, w);
      && s.row.meta.Some? && s'.row == Ended(s.row, PS.Unknown, Ambiguous)
      && s'.attempts == s.attempts[ctx.attempt := Attempt(AttemptFailed, Some(UnknownResult))]
      && At(s', w).Idle? && Aloof(s, s', w) && s'.h.permits == s.h.permits && s'.h.mutations == s.h.mutations
  {
    CommitOf(s, w, ctx, StopRetry, PublishRequested, now, next);
    GoalWrites(s, CommitStep(s, w), w, ctx, StopRetry, PublishRequested, now);
    CloseOf(CommitStep(s, w), w, ctx.attempt);
  }

  // ---------------------------------------------------------------- an early fence

  /** A fence leaves the metadata and the version alone, whatever became of the row since the worker loaded it. */
  lemma FenceIsRecorded(s: State, w: WorkerId, c: Category)
    requires At(s, w).Loaded?
    ensures var s' := RecordEarly(EarlyFail(s, w, c), w);
      if c.AuthRequired? || c.Permanent? || c.Validation? then
        && s'.row == s.row.(status := PS.Failed) && s'.attempts == s.attempts + [Attempt(AttemptFailed, Some(c))]
        && At(s', w).Idle? && Aloof(s, s', w) && s'.h == s.h
      else s' == s
  {
  }

  // ---------------------------------------------------------------- commands

  /** From `s` to `s'` the status alone has changed, and the version if the publication was queued. */
  predicate Restored(s: State, s': State, status: PS.PostStatus, queued: nat) {
    s'.row == s.row.(status := status, version := s.row.version + queued) && s'.attempts == s.attempts
  }

  /** What one command did another takes back: the row is as before, but a visit to the queue has made every job
      of the old version stale.  A deletion ends in DELETED or UNKNOWN with everything else in place. */
  lemma CommandsTakeBack(s: State, deleted: bool)
    ensures s.row.status.Draft? ==>
      && Restored(s, DoCommand(DoCommand(s, PS.QueueForPublishing), PS.CancelQueued), PS.Draft, 1)
      && Restored(s, DoCommand(DoCommand(s, PS.Schedule), PS.Unschedule), PS.Draft, 0)
      && Restored(s, DoCommand(Promote(DoCommand(s, PS.Schedule)), PS.CancelQueued), PS.Draft, 1)
    ensures s.row.status.Scheduled? ==>
      && Restored(s, DoCommand(s, PS.Reschedule), PS.Scheduled, 0)
      && Restored(s, DoCommand(s, PS.QueueForPublishing), PS.Queued, 1)
    ensures s.row.status.Failed? ==>
      Restored(s, DoCommand(DoCommand(s, PS.Retry), PS.CancelQueued), PS.Draft, 1)
    ensures s.row.status in {PS.Published, PS.Failed, PS.Unknown} ==>
      Restored(s, DeleteWrite(DoCommand(s, PS.QueueForDeletion), deleted), if deleted then PS.Deleted else PS.Unknown, 0)
  {
  }

  // ---------------------------------------------------------------- a stale recovery

  /** Nobody else works on this recovery. */
  ghost predicate LeavesScan(es: seq<Event>, r: nat) {
    forall e | e in es :: !(e.EvRecoverRead? && e.r == r) && !(e.EvRecoverCommit? && e.r == r)
  }

  lemma OutsideKeepsScan(cfg: Adapter, s: State, e: Event, r: nat)
    requires ActorOf(e).None? && !(e.EvRecoverRead? && e.r == r) && !(e.EvRecoverCommit? && e.r == r)
    ensures r in Step(cfg, s, e).recoveries <==> r in s.recoveries
    ensures r in s.recoveries ==> Step(cfg, s, e).recoveries[r] == s.recoveries[r]
  {
  }

  lemma WorkersKeepScan(cfg: Adapter, s: State, e: Event)
    requires ActorOf(e).Some?
    ensures Step(cfg, s, e).recoveries == s.recoveries
  {
    if Enters(e) {
      EntryKeepsScan(cfg, s, e);
    }
  }

  lemma EntryKeepsScan(cfg: Adapter, s: State, e: Event)
    requires Enters(e)
    ensures Step(cfg, s, e).recoveries == s.recoveries
  {
  }

  lemma {:induction false} ScanLasts(cfg: Adapter, s: State, es: seq<Event>, r: nat)
    requires LeavesScan(es, r)
    ensures r in Run(cfg, s, es).recoveries <==> r in s.recoveries
    ensures r in s.recoveries ==> Run(cfg, s, es).recoveries[r] == s.recoveries[r]
    decreases |es|
  {
    if es != [] {
      if ActorOf(es[0]).None? {
        OutsideKeepsScan(cfg, s, es[0], r);
      } else {
        WorkersKeepScan(cfg, s, es[0]);
      }
      ScanLasts(cfg, Step(cfg, s, es[0]), es[1..], r);
    }
  }

  /** The scan passes over an attempt that has ended and a publication that the provider is processing. */
  predicate Stale(s: State, a: nat) {
    && a < |s.attempts| && s.attempts[a].status.InProgress?
    && (s.row.meta.Some? && s.row.meta.value.phase.ProcessingRemote? ==> !WellFormed(s.row.meta.value))
  }

  /** A recovery that scanned `scanned` and writes on `s`: it acts if the publication is still PUBLISHING, and then
      writes back the metadata of the scan, whatever is there now. */
  predicate RecoveryOutcome(scanned: State, s: State, s': State, a: nat) {
    if !Stale(scanned, a) || !s.row.status.Publishing? then Untouched(s, s')
    else
      && s'.row.status.Unknown? && s'.row.externalPostId == s.row.externalPostId
      && (if scanned.row.meta.None? then s'.row.Snap() == s.row.Snap()
          else s'.row.Snap() == Snapshot(s.row.version + 1, Some(scanned.row.meta.value.(phase := Phase.Ambiguous))))
      && |s'.attempts| == |s.attempts|
      && (forall i | 0 <= i < |s.attempts| :: s'.attempts[i] ==
            if i == a && s.attempts[i].status.InProgress? then Attempt(AttemptFailed, Some(UnknownResult)) else s.attempts[i])
  }

  /** In every run, whatever happens between the scan and the write. */
  lemma RecoveryIsRecorded(cfg: Adapter, es: seq<Event>, r: nat, a: nat, fs: seq<Event>)
    requires r !in Run(cfg, INITIAL, es).recoveries && LeavesScan(fs, r)
    ensures var scanned := Run(cfg, INITIAL, es);
      var s := Run(cfg, RecoverRead(scanned, r, a), fs);
      RecoveryOutcome(scanned, s, RecoverCommit(s, r), a)
  {
    ScanLasts(cfg, RecoverRead(Run(cfg, INITIAL, es), r, a), fs, r);
  }

  // ---------------------------------------------------------------- a reconciliation

  predicate LeavesDecision(es: seq<Event>, c: nat) {
    forall i | 0 <= i < |es| :: PublishExceptions.LeavesWaiting(es[i], c)
  }

  lemma OutsideKeepsDecision(cfg: Adapter, s: State, e: Event, c: nat)
    requires ActorOf(e).None? && PublishExceptions.LeavesWaiting(e, c)
    ensures c in Step(cfg, s, e).reconciliations <==> c in s.reconciliations
    ensures c in s.reconciliations ==> Step(cfg, s, e).reconciliations[c] == s.reconciliations[c]
  {
  }

  lemma {:induction false} DecisionLasts(cfg: Adapter, s: State, es: seq<Event>, c: nat)
    requires LeavesDecision(es, c)
    ensures c in Run(cfg, s, es).reconciliations <==> c in s.reconciliations
    ensures c in s.reconciliations ==> Run(cfg, s, es).reconciliations[c] == s.reconciliations[c]
    decreases |es|
  {
    if es != [] {
      if ActorOf(es[0]).None? {
        OutsideKeepsDecision(cfg, s, es[0], c);
      } else {
        PublishExceptions.WorkersKeepReconciliations(cfg, s, es[0]);
      }
      DecisionLasts(cfg, Step(cfg, s, es[0]), es[1..], c);
    }
  }

  /** The operator may decide: the publication is UNKNOWN and AMBIGUOUS, and a published one is given its id. */
  predicate MayDecide(row: Row, d: Decision) {
    && row.status.Unknown? && PhaseOf(row) == Some(Ambiguous)
    && (d.ConfirmPublished? ==> exists i :: 0 <= i < |d.externalPostId| && d.externalPostId[i] !in {' ', '\t', '\n', '\r'})
  }

  /** A decision made on `read` and written on `s`. */
  ghost predicate DecisionOutcome(read: State, s: State, s': State, d: Decision) {
    if MayDecide(read.row, d) && s.row.status.Unknown? && PublishExceptions.OneEligible(s.attempts) then
      && s'.row == (match d
                    case ConfirmPublished(id) =>
                      Row(PS.Published, s.row.version,
                          Some(read.row.meta.value.(phase := Completed, finalRemoteId := Some(id))), Some(id))
                    case ConfirmFailed =>
                      s.row.(status := PS.Failed, meta := Some(read.row.meta.value.(phase := Phase.Failed))))
      && exists a :: Eligible(s.attempts) == {a} && 0 <= a < |s.attempts|
           && s'.attempts == s.attempts[a := if d.ConfirmPublished? then Attempt(Succeeded, None)
                                             else Attempt(AttemptFailed, Some(Permanent))]
    else Untouched(s, s')
  }

  /** In every run, whatever happens between the reading and the write. */
  lemma DecisionIsRecorded(cfg: Adapter, es: seq<Event>, c: nat, d: Decision, fs: seq<Event>)
    requires c !in Run(cfg, INITIAL, es).reconciliations && LeavesDecision(fs, c)
    ensures var read := Run(cfg, INITIAL, es);
      var s := Run(cfg, ReconcileRead(read, c, d), fs);
      DecisionOutcome(read, s, ReconcileCommit(s, c), d)
  {
    var read := Run(cfg, INITIAL, es);
    var s := Run(cfg, ReconcileRead(read, c, d), fs);
    DecisionLasts(cfg, ReconcileRead(read, c, d), fs, c);
    DecisionPlanned(read, c, d);
    if c in s.reconciliations {
      DecisionWritten(s, c);
    }
  }

  lemma DecisionPlanned(read: State, c: nat, d: Decision)
    requires c !in read.reconciliations
    ensures var s := ReconcileRead(read, c, d);
      && (c in s.reconciliations <==> MayDecide(read.row, d))
      && (c in s.reconciliations ==>
            s.reconciliations[c] == Reconciliation(d, match d
              case ConfirmPublished(id) => read.row.meta.value.(phase := Completed, finalRemoteId := Some(id))
              case ConfirmFailed => read.row.meta.value.(phase := Phase.Failed)))
  {
  }

  lemma DecisionWritten(s: State, c: nat)
    requires c in s.reconciliations
    ensures var s', rec := ReconcileCommit(s, c), s.reconciliations[c];
      if s.row.status.Unknown? && PublishExceptions.OneEligible(s.attempts) then
        && s'.row == (match rec.decision
                      case ConfirmPublished(id) => Row(PS.Published, s.row.version, Some(rec.next), Some(id))
                      case ConfirmFailed => s.row.(status := PS.Failed, meta := Some(rec.next)))
        && exists a :: Eligible(s.attempts) == {a} && 0 <= a < |s.attempts|
             && s'.attempts == s.attempts[a := if rec.decision.ConfirmPublished? then Attempt(Succeeded, None)
                                               else Attempt(AttemptFailed, Some(Permanent))]
      else Untouched(s, s')
  {
    if ReconcileCommits(s, c) {
      var a :| a in Eligible(s.attempts) && Eligible(s.attempts) == {a};
      assert Eligible(s.attempts) == {a} && 0 <= a < |s.attempts|;
    }
  }
}
