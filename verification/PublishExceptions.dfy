/**
  Where three promises of the publish protocol stop: the strict schema of the metadata, the exclusiveness of
  human reconciliation, and the fencing of workers by the version.  For the first two, the exact step at which
  the promise stops and a run that takes it; for the third, whose exact condition is OvertakenExactly, a run.
*/
module PublishExceptions {
  import opened Wrappers
  import opened ExecutionMetadata
  import opened PublishProtocol
  import opened PublishInvariant
  import opened PublishRuns
  import opened PublishTheorems
  import PS = PublicationStatus

  // ---------------------------------------------------------------- the schema

  /** Stale recovery is about to rewrite a COMPLETED value it read in its scan. */
  predicate RecoversCompleted(s: State, e: Event) {
    && e.EvRecoverCommit? && e.r in s.recoveries && s.row.status.Publishing?
    && s.recoveries[e.r].meta.Some? && s.recoveries[e.r].meta.value.phase.Completed?
  }

  predicate Parses(row: Row) {
    row.meta.Some? ==> WellFormed(row.meta.value)
  }

  lemma OnlyRecoveryFlags(cfg: Adapter, s: State, e: Event)
    ensures Step(cfg, s, e).h.recoveredCompleted <==> s.h.recoveredCompleted || RecoversCompleted(s, e)
  {
    if ActorOf(e).None? {
      OutsideFlags(cfg, s, e);
    } else {
      assert Step(cfg, s, e).h.recoveredCompleted == s.h.recoveredCompleted;
    }
  }

  lemma OutsideFlags(cfg: Adapter, s: State, e: Event)
    requires ActorOf(e).None?
    ensures Step(cfg, s, e).h.recoveredCompleted <==> s.h.recoveredCompleted || RecoversCompleted(s, e)
  {
  }

  /** As long as no COMPLETED value was recovered, a step leaves metadata that does not parse exactly when it is
      a stale recovery that finds the publication PUBLISHING again and carries a COMPLETED value. */
  lemma SchemaBreaksExactly(cfg: Adapter, s: State, e: Event)
    requires Inv(cfg, s) && !s.h.recoveredCompleted
    ensures !Parses(Step(cfg, s, e).row) <==> RecoversCompleted(s, e)
  {
    StepInv(cfg, s, e);
    OnlyRecoveryFlags(cfg, s, e);
    if RecoversCompleted(s, e) {
      assert RecoveryOk(s.row, s.h, s.recoveries[e.r]);
      RecoveryWellFormed(s.recoveries[e.r].meta.value);
    }
  }

  /** The history flag means what it says: some step of the run was such a recovery. */
  lemma {:induction false} FlaggedExactly(cfg: Adapter, s: State, es: seq<Event>)
    requires !s.h.recoveredCompleted
    ensures Run(cfg, s, es).h.recoveredCompleted
       <==> exists i :: 0 <= i < |es| && RecoversCompleted(Run(cfg, s, es[..i]), es[i])
    decreases |es|
  {
    if es != [] {
      var n := |es| - 1;
      var front, last := es[..n], es[n];
      FlaggedExactly(cfg, s, front);
      RunSplit(cfg, s, front, [last]);
      assert front + [last] == es;
      OneStep(cfg, Run(cfg, s, front), last);
      OnlyRecoveryFlags(cfg, Run(cfg, s, front), last);
      assert forall i | 0 <= i < n :: front[..i] == es[..i] && front[i] == es[i];
    }
  }

  /** Every run whose steps are no such recoveries leaves metadata that parses. */
  lemma ParsesUntilRecovered(cfg: Adapter, es: seq<Event>)
    requires forall i | 0 <= i < |es| :: !RecoversCompleted(Run(cfg, INITIAL, es[..i]), es[i])
    ensures Parses(Run(cfg, INITIAL, es).row)
  {
    ReachableInv(cfg, es);
    FlaggedExactly(cfg, INITIAL, es);
  }

  lemma OneStep(cfg: Adapter, s: State, e: Event)
    ensures Run(cfg, s, [e]) == Step(cfg, s, e)
  {
    assert [e][1..] == [];
  }

  // ---------------------------------------------------------------- the first steps of two runs

  /** A failed publication is retried: worker 3 claims it, and its status is PUBLISHING again. */
  lemma RetryIsClaimed(s: State)
    requires s.row.status.Failed? && At(s, 3).Idle?
    ensures var job := Job(s.row.version + 1, None);
      var s' := Claim(Deliver(DoCommand(s, PS.Retry), 3, job), 3);
      && s' == s.(row := s.row.(status := PS.Publishing, version := s.row.version + 1),
                  workers := s.workers[3 := Claimed], h := s'.h)
      && s'.h.recoveredCompleted == s.h.recoveredCompleted
  {
    var job := Job(s.row.version + 1, None);
    var s2 := Deliver(DoCommand(s, PS.Retry), 3, job);
    assert At(s2, 3) == Loaded(job, s2.row);
    assert s2.workers[3 := Claimed] == s.workers[3 := Claimed];
  }

  lemma ReachesRetry(cfg: Adapter, s: State)
    requires Reachable(cfg, s)
    ensures Reachable(cfg, Claim(Deliver(DoCommand(s, PS.Retry), 3, Job(s.row.version + 1, None)), 3))
  {
    var job := Job(s.row.version + 1, None);
    ReachableStep(cfg, s, EvCommand(PS.Retry));
    ReachableStep(cfg, DoCommand(s, PS.Retry), EvDeliver(3, job));
    ReachableStep(cfg, Deliver(DoCommand(s, PS.Retry), 3, job), EvClaim(3));
  }

  lemma ThenRecordEarly(cfg: Adapter, s: State, w: WorkerId)
    requires Reachable(cfg, s)
    ensures Reachable(cfg, RecordEarly(s, w))
  {
    ReachableStep(cfg, s, EvRecordEarly(w));
  }

  const FENCED_ATTEMPT := Attempt(AttemptFailed, Some(AuthRequired))

  /** Worker 1 starts the operation; worker 0, which has loaded the same job, fences the publication as FAILED. */
  lemma ReachesEarlyFence(cfg: Adapter) returns (s: State, m: Metadata, c1: Context)
    ensures Reachable(cfg, s) && !s.h.recoveredCompleted && m == Fresh(7, cfg.provider)
    ensures s == State(Row(PS.Failed, 2, Some(m), None), [FENCED_ATTEMPT], map[0 := Idle, 1 := Owned(c1)], map[], map[], false, s.h)
  {
    var s1 := ReachesDelivery(cfg);
    ThenClaim(cfg, s1, 1);
    var s2 := Claim(s1, 1);
    assert At(s2, 1).Claimed?;
    var s3, ctx, meta := Starts(cfg, s2, 1);
    m, c1 := meta, ctx;
    ThenEarlyFail(cfg, s3, 0);
    var s4 := EarlyFail(s3, 0, AuthRequired);
    ThenRecordEarly(cfg, s4, 0);
    s := RecordEarly(s4, 0);
    assert s.workers == map[0 := Idle, 1 := Owned(c1)];
  }

  /** The publication is retried.  Worker 3 claims the new version but cannot start a second operation; a second
      delivery of the same job lets worker 0 continue the first one, which worker 1 still believes it owns. */
  lemma ReachesRequeued(cfg: Adapter) returns (s: State, m: Metadata, c0: Context, c1: Context)
    ensures Holding(cfg, s, Owned(c0), m) && !s.h.recoveredCompleted
    ensures m == Fresh(7, cfg.provider) && c0 == Context(7, 3, Publish, ProcessingRemote, 0, false, m)
    ensures s.row == Row(PS.Publishing, 3, Some(m), None) && s.attempts == [FENCED_ATTEMPT]
    ensures s.recoveries == map[] && s.reconciliations == map[]
    ensures At(s, 1) == Owned(c1) && At(s, 3).Idle? && At(s, 4).Idle?
  {
    var s1, meta, ctx1 := ReachesEarlyFence(cfg);
    m, c1 := meta, ctx1;
    RetryIsClaimed(s1);
    ReachesRetry(cfg, s1);
    var s2 := Claim(Deliver(DoCommand(s1, PS.Retry), 3, Job(s1.row.version + 1, None)), 3);
    ThenStartRead(cfg, s2, 3);
    var s3 := StartRead(s2, 3);
    assert At(s3, 3).Idle? && At(s3, 0).Idle? && At(s3, 1) == Owned(c1) && At(s3, 4).Idle?;
    s, c0 := ReachesContinuation(cfg, s3, m);
  }

  // ---------------------------------------------------------------- a run that breaks the schema

  /** Worker 4 has loaded the row too when worker 0 attaches its attempt. */
  lemma ReachesAttached(cfg: Adapter) returns (s: State, m: Metadata, c0: Context, c1: Context)
    ensures Holding(cfg, s, Attached(c0), m) && !s.h.recoveredCompleted && m == Fresh(7, cfg.provider)
    ensures c0 == Context(7, 3, Publish, ProcessingRemote, 1, false, m)
    ensures s.row == Row(PS.Publishing, 3, Some(m), None) && s.recoveries == map[]
    ensures s.attempts == [FENCED_ATTEMPT, Attempt(InProgress, None)]
    ensures At(s, 1) == Owned(c1) && At(s, 3).Idle? && At(s, 4).Loaded?
  {
    var s1, begun, ctx0, ctx1 := ReachesRequeued(cfg);
    m, c1 := begun, ctx1;
    ThenDeliver(cfg, s1, 4, Job(3, None));
    var s2 := Deliver(s1, 4, Job(3, None));
    ThenAttach(cfg, s2, 0);
    s := Attach(s2, 0, None);
    c0 := ctx0.(attempt := 1);
  }

  /** Worker 0 publishes. */
  lemma ReachesPublished(cfg: Adapter) returns (s: State, m: Metadata, c0: Context, c1: Context)
    ensures Holding(cfg, s, Running(c0), m) && !s.h.recoveredCompleted && m.phase.PublishRequested?
    ensures c0.source.PublishRequested? && c0.attempt == 1 && c0.op == m.operationId
    ensures s.row.version == c0.version == 4 && s.row.status.Publishing?
    ensures s.attempts == [FENCED_ATTEMPT, Attempt(InProgress, None)] && s.recoveries == map[]
    ensures At(s, 1) == Owned(c1) && At(s, 3).Idle? && At(s, 4).Loaded?
  {
    var s1, m1, ctx0, ctx1 := ReachesAttached(cfg);
    c1 := ctx1;
    s, c0, m := ReachesMutation(cfg, s1, ctx0, m1);
  }

  lemma CompletionCommits(s: State, ctx: Context, done: Metadata)
    requires At(s, 0) == Checked(ctx, Complete(Some("p")), PublishRequested, 0, done)
    requires s.row.version == ctx.version && ctx.attempt < |s.attempts|
    ensures var s' := CommitStep(s, 0);
      && s'.row == Row(PS.Published, ctx.version + 1, Some(done), Some("p"))
      && s'.attempts == s.attempts[ctx.attempt := Attempt(Succeeded, None)] && s'.recoveries == s.recoveries
      && (forall w | w != 0 :: At(s', w) == At(s, w)) && s'.h.recoveredCompleted == s.h.recoveredCompleted
  {
  }

  /** Worker 0 completes the operation. */
  lemma ReachesCompletion(cfg: Adapter) returns (s: State, done: Metadata, c1: Context)
    ensures Reachable(cfg, s) && !s.h.recoveredCompleted && WellFormed(done) && done.phase.Completed?
    ensures s.row == Row(PS.Published, 5, Some(done), Some("p")) && s.recoveries == map[]
    ensures s.attempts == [FENCED_ATTEMPT, Attempt(Succeeded, None)]
    ensures At(s, 1) == Owned(c1) && At(s, 3).Idle? && At(s, 4).Loaded?
  {
    var s1, m, c0, ctx1 := ReachesPublished(cfg);
    c1 := ctx1;
    ThenFinish(cfg, s1, 0, Published(Some("p")));
    var s2 := Finish(cfg, s1, 0, Published(Some("p")));
    var quiet := c0.(permit := false);
    assert s2 == Put(s1, 0, Seeking(quiet, Complete(Some("p")), PublishRequested));
    var s3, next := ReachesChecked(cfg, s2, quiet, Complete(Some("p")), m);
    done := next;
    ThenCommit(cfg, s3, 0);
    CompletionCommits(s3, quiet, done);
    s := CommitStep(s3, 0);
  }

  /** Worker 1, slow but alive, attaches an attempt of its own; worker 4 fences the publication as FAILED. */
  lemma ReachesLateFence(cfg: Adapter) returns (s: State, done: Metadata)
    ensures Reachable(cfg, s) && !s.h.recoveredCompleted && WellFormed(done) && done.phase.Completed?
    ensures s.row == Row(PS.Failed, 5, Some(done), Some("p")) && s.recoveries == map[] && At(s, 3).Idle?
    ensures s.attempts == [FENCED_ATTEMPT, Attempt(Succeeded, None), Attempt(InProgress, None)]
  {
    var s1, next, c1 := ReachesCompletion(cfg);
    done := next;
    ThenAttach(cfg, s1, 1);
    var s2 := Attach(s1, 1, None);
    ThenEarlyFail(cfg, s2, 4);
    s := EarlyFail(s2, 4, AuthRequired);
  }

  /** A run in which the schema breaks: after that an operator retries the publication, and the recovery of the
      late attempt meets COMPLETED under the status PUBLISHING. */
  lemma SchemaCanBreak(cfg: Adapter) returns (es: seq<Event>)
    ensures !Parses(Run(cfg, INITIAL, es).row)
  {
    var s1, done := ReachesLateFence(cfg);
    RetryIsClaimed(s1);
    ReachesRetry(cfg, s1);
    var s2 := Claim(Deliver(DoCommand(s1, PS.Retry), 3, Job(s1.row.version + 1, None)), 3);
    ThenRecover(cfg, s2, 2);
    var s3 := RecoverCommit(RecoverRead(s2, 2, 2), 2);
    Recovered(s2, 2);
    RecoveryWellFormed(done);
    es :| Run(cfg, INITIAL, es) == s3;
  }

  /** The scan and the commit of a stale recovery, with nothing in between. */
  lemma Recovered(s: State, a: nat)
    requires a < |s.attempts| && s.attempts[a].status.InProgress? && s.recoveries == map[]
    requires s.row.status.Publishing? && s.row.meta.Some? && !s.row.meta.value.phase.ProcessingRemote?
    ensures var s' := RecoverCommit(RecoverRead(s, a, a), a);
      && s'.row == s.row.(status := PS.Unknown, version := s.row.version + 1,
                          meta := Some(s.row.meta.value.(phase := Ambiguous)))
      && s'.attempts == s.attempts[a := Attempt(AttemptFailed, Some(UnknownResult))]
      && s'.workers == s.workers && s'.recoveries == map[] && s'.reconciliations == s.reconciliations
  {
    assert RecoverRead(s, a, a).recoveries == map[a := Recovery(a, s.row.meta)];
  }

  // ---------------------------------------------------------------- a run that escapes the fence

  /** A worker has claimed the publication and not yet read it again when another, which loaded the same job,
      fences it as FAILED. */
  lemma ReachesOvertakenClaim(cfg: Adapter) returns (s: State)
    ensures Reachable(cfg, s) && At(s, 0).Claimed? && s.row == Row(PS.Failed, 1, None, None)
    ensures s.h.permits == [] && s.h.mutations == []
  {
    var s1 := ReachesDelivery(cfg);
    ThenClaim(cfg, s1, 0);
    var s2 := Claim(s1, 0);
    ThenEarlyFail(cfg, s2, 1);
    s := EarlyFail(s2, 1, AuthRequired);
  }

  /** An operator retries the publication, so that its version rises; the first worker is not behind.  It starts
      the operation, is granted the permit and publishes, while the publication is QUEUED. */
  lemma OvertakenClaimPublishes(cfg: Adapter) returns (s: State, s': State)
    ensures Reachable(cfg, s) && At(s, 0).Claimed? && s.row.version < DoCommand(s, PS.Retry).row.version
    ensures !Behind(DoCommand(s, PS.Retry), 0)
    ensures Reachable(cfg, s') && s'.row.status.Queued? && s'.h.permits == [0] && s'.h.mutations == [7]
  {
    s := ReachesOvertakenClaim(cfg);
    ThenCommand(cfg, s, PS.Retry);
    var s1 := DoCommand(s, PS.Retry);
    var s2, ctx, m := Starts(cfg, s1, 0);
    ThenAttach(cfg, s2, 0);
    var s3 := Attach(s2, 0, None);
    var attached := ctx.(attempt := |s2.attempts|);
    assert At(s3, 0) == Attached(attached);
    var last, _, _ := ReachesMutation(cfg, s3, attached, m);
    s' := last;
  }

  // ---------------------------------------------------------------- reconciliation

  predicate OneEligible(attempts: seq<Attempt>) {
    exists a :: a in Eligible(attempts) && Eligible(attempts) == {a}
  }

  /** The step makes the status UNKNOWN and leaves exactly one attempt failed with an unknown result: a stale
      recovery that finds the publication PUBLISHING and marks its attempt, if that is still in progress; the
      unguarded result of a worker, which marks its own attempt; or the unguarded end of a delete job. */
  predicate Reopens(s: State, e: Event) {
    match e
    case EvRecoverCommit(r) =>
      && r in s.recoveries && s.row.status.Publishing?
      && var a := s.recoveries[r].attempt;
         if a < |s.attempts| && s.attempts[a].status.InProgress? then Eligible(s.attempts) == {}
         else OneEligible(s.attempts)
    case EvClose(w) =>
      && At(s, w).Closing? && At(s, w).status.Unknown?
      && var a := At(s, w).attempt;
         if a < |s.attempts| then Eligible(s.attempts) <= {a} else OneEligible(s.attempts)
    case EvDeleteWrite(deleted) => s.deletable && !deleted && OneEligible(s.attempts)
    case _ => false
  }

  /** A reconciliation that waits and cannot commit becomes able to exactly at such a step. */
  lemma ReopensExactly(cfg: Adapter, s: State, e: Event, d: nat)
    requires Inv(cfg, s) && d in s.reconciliations && !ReconcileCommits(s, d)
    ensures ReconcileCommits(Step(cfg, s, e), d) <==> Reopens(s, e)
  {
    if ActorOf(e).None? {
      OutsideReopens(cfg, s, e, d);
    } else if Enters(e) {
      EntryNeverReopens(cfg, s, e, d);
    } else if e.EvCommit? {
      CommitNeverReopens(cfg, s, e.w, d);
    } else {
      WorkerReopens(cfg, s, e, d);
    }
  }

  /** Marking one more attempt as failed with an unknown result. */
  lemma OneMoreEligible(attempts: seq<Attempt>, a: nat)
    requires a < |attempts|
    ensures var after := attempts[a := Attempt(AttemptFailed, Some(UnknownResult))];
      && Eligible(after) == Eligible(attempts) + {a}
      && (OneEligible(after) <==> Eligible(attempts) <= {a})
  {
    var after := attempts[a := Attempt(AttemptFailed, Some(UnknownResult))];
    assert Eligible(after) == Eligible(attempts) + {a};
    if Eligible(attempts) <= {a} {
      assert a in Eligible(after) && Eligible(after) == {a};
    }
  }

  lemma OutsideReopens(cfg: Adapter, s: State, e: Event, d: nat)
    requires Inv(cfg, s) && d in s.reconciliations && !ReconcileCommits(s, d) && ActorOf(e).None?
    ensures ReconcileCommits(Step(cfg, s, e), d) <==> Reopens(s, e)
  {
    if e.EvRecoverCommit? {
      RecoveryReopens(s, e.r, d);
    }
  }

  lemma RecoveryReopens(s: State, r: nat, d: nat)
    requires d in s.reconciliations && !ReconcileCommits(s, d)
    ensures ReconcileCommits(RecoverCommit(s, r), d) <==> Reopens(s, EvRecoverCommit(r))
  {
    if r in s.recoveries && s.row.status.Publishing? {
      var a := s.recoveries[r].attempt;
      if a < |s.attempts| && s.attempts[a].status.InProgress? {
        OneMoreEligible(s.attempts, a);
        assert a !in Eligible(s.attempts);
      }
    }
  }

  lemma EntryNeverReopens(cfg: Adapter, s: State, e: Event, d: nat)
    requires Inv(cfg, s) && d in s.reconciliations && !ReconcileCommits(s, d) && Enters(e)
    ensures !ReconcileCommits(Step(cfg, s, e), d)
  {
    if e.EvRecordEarly? {
      RecordNeverReopens(cfg, s, e.w);
    } else {
      EntryKeepsClosed(cfg, s, e);
    }
  }

  /** An early fence never reports an unknown result. */
  lemma RecordNeverReopens(cfg: Adapter, s: State, w: WorkerId)
    requires Inv(cfg, s)
    ensures RecordEarly(s, w).row == s.row && Eligible(RecordEarly(s, w).attempts) == Eligible(s.attempts)
  {
    ActorOk(cfg, s, w);
  }

  lemma EntryKeepsClosed(cfg: Adapter, s: State, e: Event)
    requires Enters(e) && !e.EvRecordEarly?
    ensures var s' := Step(cfg, s, e);
      s'.attempts == s.attempts && s'.reconciliations == s.reconciliations && (s'.row.status.Unknown? ==> s.row.status.Unknown?)
  {
  }

  lemma WorkerReopens(cfg: Adapter, s: State, e: Event, d: nat)
    requires Inv(cfg, s) && d in s.reconciliations && !ReconcileCommits(s, d)
    requires ActorOf(e).Some? && !Enters(e) && !e.EvCommit?
    ensures ReconcileCommits(Step(cfg, s, e), d) <==> Reopens(s, e)
  {
    if e.EvClose? {
      CloseReopens(cfg, s, e.w, d);
    } else if e.EvAttach? {
      AttachNeverReopens(s, e.w, e.reuse);
    } else {
      OthersNeverReopen(cfg, s, e);
    }
  }

  lemma CloseReopens(cfg: Adapter, s: State, w: WorkerId, d: nat)
    requires Inv(cfg, s) && d in s.reconciliations && !ReconcileCommits(s, d)
    ensures ReconcileCommits(Close(s, w), d) <==> Reopens(s, EvClose(w))
  {
    ActorOk(cfg, s, w);
    if At(s, w).Closing? && At(s, w).attempt < |s.attempts| {
      OneMoreEligible(s.attempts, At(s, w).attempt);
    }
  }

  lemma AttachNeverReopens(s: State, w: WorkerId, reuse: Option<nat>)
    ensures Attach(s, w, reuse).row == s.row && Eligible(Attach(s, w, reuse).attempts) == Eligible(s.attempts)
  {
  }

  lemma OthersNeverReopen(cfg: Adapter, s: State, e: Event)
    requires ActorOf(e).Some? && !Enters(e) && !e.EvCommit? && !e.EvClose? && !e.EvAttach?
    ensures Step(cfg, s, e).row == s.row && Step(cfg, s, e).attempts == s.attempts
  {
  }

  /** While a reconciliation waits the phase is terminal, and no worker can commit a transition. */
  lemma CommitNeverReopens(cfg: Adapter, s: State, w: WorkerId, d: nat)
    requires Inv(cfg, s) && d in s.reconciliations && !ReconcileCommits(s, d)
    ensures !ReconcileCommits(CommitStep(s, w), d)
  {
    assert ReconciliationOk(s.row, s.h, s.reconciliations[d]);
    ActorOk(cfg, s, w);
  }

  /** Nobody reads or writes this reconciliation anew. */
  predicate LeavesWaiting(e: Event, d: nat) {
    !(e.EvReconcileRead? && e.c0 == d) && !(e.EvReconcileCommit? && e.c0 == d)
  }

  lemma StillWaiting(cfg: Adapter, s: State, e: Event, d: nat)
    requires d in s.reconciliations && LeavesWaiting(e, d)
    ensures d in Step(cfg, s, e).reconciliations
  {
    if ActorOf(e).Some? {
      WorkersKeepReconciliations(cfg, s, e);
    }
  }

  lemma WorkersKeepReconciliations(cfg: Adapter, s: State, e: Event)
    requires ActorOf(e).Some?
    ensures Step(cfg, s, e).reconciliations == s.reconciliations
  {
    if Enters(e) {
      EntryKeepsReconciliations(cfg, s, e);
    }
  }

  lemma EntryKeepsReconciliations(cfg: Adapter, s: State, e: Event)
    requires Enters(e)
    ensures Step(cfg, s, e).reconciliations == s.reconciliations
  {
  }

  /** A reconciliation that waits at the end of a run in which it could not commit at first becomes able to at
      one of the steps that reopen it. */
  lemma {:induction false} SomethingReopened(cfg: Adapter, s: State, fs: seq<Event>, d: nat)
    requires Inv(cfg, s) && d in s.reconciliations && !ReconcileCommits(s, d)
    requires forall i | 0 <= i < |fs| :: LeavesWaiting(fs[i], d)
    requires ReconcileCommits(Run(cfg, s, fs), d)
    ensures exists k :: 0 <= k < |fs| && Reopens(Run(cfg, s, fs[..k]), fs[k])
    decreases |fs|
  {
    var s1 := Step(cfg, s, fs[0]);
    StepInv(cfg, s, fs[0]);
    StillWaiting(cfg, s, fs[0], d);
    ReopensExactly(cfg, s, fs[0], d);
    if ReconcileCommits(s1, d) {
      assert fs[..0] == [];
      assert Reopens(Run(cfg, s, fs[..0]), fs[0]);
    } else {
      SomethingReopened(cfg, s1, fs[1..], d);
      var k :| 0 <= k < |fs[1..]| && Reopens(Run(cfg, s1, fs[1..][..k]), fs[1..][k]);
      PrefixOfRest(cfg, s, fs, k);
      assert Reopens(Run(cfg, s, fs[..k + 1]), fs[k + 1]);
    }
  }

  lemma PrefixOfRest(cfg: Adapter, s: State, fs: seq<Event>, k: nat)
    requires fs != [] && k <= |fs[1..]|
    ensures Run(cfg, s, fs[..k + 1]) == Run(cfg, Step(cfg, s, fs[0]), fs[1..][..k])
  {
    assert fs[..k + 1][1..] == fs[1..][..k];
  }

  /** In every run: after one reconciliation has committed, another that keeps waiting can commit only once a
      step has reopened the publication. */
  lemma SecondReconcileNeedsReopening(cfg: Adapter, es: seq<Event>, c: nat, fs: seq<Event>, d: nat)
    requires var s := Run(cfg, INITIAL, es); c != d && ReconcileCommits(s, c) && d in s.reconciliations
    requires forall i | 0 <= i < |fs| :: LeavesWaiting(fs[i], d)
    requires ReconcileCommits(Run(cfg, ReconcileCommit(Run(cfg, INITIAL, es), c), fs), d)
    ensures var s1 := ReconcileCommit(Run(cfg, INITIAL, es), c);
      exists k :: 0 <= k < |fs| && Reopens(Run(cfg, s1, fs[..k]), fs[k])
  {
    var s := Run(cfg, INITIAL, es);
    ReachableInv(cfg, es);
    ReconcileCommitInv(cfg, s, c);
    ReconcileExclusive(s, c, d);
    SomethingReopened(cfg, ReconcileCommit(s, c), fs, d);
  }

  // ---------------------------------------------------------------- a run in which both reconciliations commit

  /** Worker 0 attaches attempt 1 and crashes; stale recovery leaves the publication UNKNOWN. */
  lemma ReachesUncertainty(cfg: Adapter) returns (s: State, c1: Context)
    ensures Reachable(cfg, s) && At(s, 1) == Owned(c1) && At(s, 3).Idle?
    ensures s.row == Row(PS.Unknown, 4, Some(Fresh(7, cfg.provider).(phase := Ambiguous)), None)
    ensures s.attempts == [FENCED_ATTEMPT, Attempt(AttemptFailed, Some(UnknownResult))]
    ensures s.recoveries == map[] && s.reconciliations == map[]
  {
    var s1, m, c0, ctx1 := ReachesRequeued(cfg);
    c1 := ctx1;
    ThenAttach(cfg, s1, 0);
    var s2 := Attach(s1, 0, None);
    ThenCrash(cfg, s2, 0);
    var s3 := Put(s2, 0, Idle);
    assert s3.attempts == [FENCED_ATTEMPT, Attempt(InProgress, None)] && At(s3, 1) == Owned(c1);
    Recovered(s3, 1);
    ThenRecover(cfg, s3, 1);
    s := RecoverCommit(RecoverRead(s3, 1, 1), 1);
  }

  /** Two operators read the same uncertainty; either may commit. */
  lemma ReachesTwoReconciliations(cfg: Adapter) returns (s: State, c1: Context)
    ensures Reachable(cfg, s) && At(s, 1) == Owned(c1) && At(s, 3).Idle? && s.recoveries == map[]
    ensures s.row == Row(PS.Unknown, 4, Some(Fresh(7, cfg.provider).(phase := Ambiguous)), None)
    ensures s.attempts == [FENCED_ATTEMPT, Attempt(AttemptFailed, Some(UnknownResult))]
    ensures var r := Reconciliation(ConfirmFailed, Fresh(7, cfg.provider).(phase := Phase.Failed));
      s.reconciliations == map[10 := r, 11 := r]
  {
    var s1, ctx := ReachesUncertainty(cfg);
    c1 := ctx;
    ReachableStep(cfg, s1, EvReconcileRead(10, ConfirmFailed));
    var s2 := ReconcileRead(s1, 10, ConfirmFailed);
    ReachableStep(cfg, s2, EvReconcileRead(11, ConfirmFailed));
    s := ReconcileRead(s2, 11, ConfirmFailed);
  }

  /** One failed attempt is eligible: the reconciliation that commits marks exactly it. */
  lemma FirstReconcile(s: State)
    requires s.row.status.Unknown? && s.attempts == [FENCED_ATTEMPT, Attempt(AttemptFailed, Some(UnknownResult))]
    requires 10 in s.reconciliations && s.reconciliations[10].decision.ConfirmFailed?
    ensures var s' := ReconcileCommit(s, 10);
      && ReconcileCommits(s, 10)
      && s'.row == s.row.(status := PS.Failed, meta := Some(s.reconciliations[10].next))
      && s'.attempts == [FENCED_ATTEMPT, Attempt(AttemptFailed, Some(Permanent))]
      && s'.workers == s.workers && s'.recoveries == s.recoveries && s'.reconciliations == s.reconciliations - {10}
  {
    assert Eligible(s.attempts) == {1};
    var a :| a in Eligible(s.attempts) && Eligible(s.attempts) == {a};
  }

  /** The decision FAILED is retried and claimed, worker 1, slow but alive, attaches an attempt, and its recovery
      makes the publication UNKNOWN again. */
  const RETRY: seq<Event> := [EvCommand(PS.Retry), EvDeliver(3, Job(5, None)), EvClaim(3)]
  const RECOVERY: seq<Event> := [EvAttach(1, None), EvRecoverRead(2, 2), EvRecoverCommit(2)]

  lemma ThreeSteps(cfg: Adapter, s: State, a: Event, b: Event, c: Event)
    ensures Run(cfg, s, [a, b, c]) == Step(cfg, Step(cfg, Step(cfg, s, a), b), c)
  {
    assert [a, b, c] == [a] + ([b] + ([c] + []));
    FirstStep(cfg, s, a, [b] + ([c] + []));
    FirstStep(cfg, Step(cfg, s, a), b, [c] + []);
    FirstStep(cfg, Step(cfg, Step(cfg, s, a), b), c, []);
  }

  lemma FirstStep(cfg: Adapter, s: State, e: Event, es: seq<Event>)
    ensures Run(cfg, s, [e] + es) == Run(cfg, Step(cfg, s, e), es)
  {
    assert ([e] + es)[1..] == es;
  }

  lemma RetryRuns(cfg: Adapter, s: State)
    requires s.row.version == 4 && s.row.status.Failed? && At(s, 3).Idle?
    ensures var s' := Run(cfg, s, RETRY);
      s' == s.(row := s.row.(status := PS.Publishing, version := 5), workers := s.workers[3 := Claimed], h := s'.h)
  {
    ThreeSteps(cfg, s, EvCommand(PS.Retry), EvDeliver(3, Job(5, None)), EvClaim(3));
    RetryIsClaimed(s);
  }

  lemma RecoveryRuns(cfg: Adapter, s: State)
    ensures Run(cfg, s, RECOVERY) == RecoverCommit(RecoverRead(Attach(s, 1, None), 2, 2), 2)
  {
    ThreeSteps(cfg, s, EvAttach(1, None), EvRecoverRead(2, 2), EvRecoverCommit(2));
  }

  lemma ReopenedByRecovery(cfg: Adapter, s: State, c1: Context)
    requires At(s, 1) == Owned(c1) && s.attempts == [FENCED_ATTEMPT, Attempt(AttemptFailed, Some(Permanent))]
    requires s.row.status.Publishing? && s.row.meta.Some? && s.row.meta.value.phase.Failed?
    requires s.recoveries == map[] && 11 in s.reconciliations
    ensures ReconcileCommits(Run(cfg, s, RECOVERY), 11)
  {
    RecoveryRuns(cfg, s);
    var s1 := Attach(s, 1, None);
    assert s1.attempts == [FENCED_ATTEMPT, Attempt(AttemptFailed, Some(Permanent)), Attempt(InProgress, None)];
    Recovered(s1, 2);
    assert Eligible(Run(cfg, s, RECOVERY).attempts) == {2};
  }

  /** A run in which both commit, without a single unguarded status write after the first commit. */
  lemma BothCanCommit(cfg: Adapter) returns (s: State)
    ensures Reachable(cfg, s) && ReconcileCommits(s, 10) && 11 in s.reconciliations
    ensures ReconcileCommits(Run(cfg, ReconcileCommit(s, 10), RETRY + RECOVERY), 11)
  {
    var s0, c1 := ReachesTwoReconciliations(cfg);
    s := s0;
    FirstReconcile(s);
    var s1 := ReconcileCommit(s, 10);
    RetryRuns(cfg, s1);
    ReopenedByRecovery(cfg, Run(cfg, s1, RETRY), c1);
    RunSplit(cfg, s1, RETRY, RECOVERY);
  }
}
