/**
  How the witness runs of the publish protocol are built: one lemma for every kind of step that says the
  state after it is reachable, and one for every stretch of a run that says where it ends.  Every job in
  these runs is one that the dispatcher enqueues: it carries a version at which the publication was QUEUED,
  or at which it was processed remotely.
*/
module PublishRuns {
  import opened Wrappers
  import opened ExecutionMetadata
  import opened PublishProtocol
  import opened PublishInvariant
  import PS = PublicationStatus

  lemma {:induction false} RunSplit(cfg: Adapter, s: State, es: seq<Event>, fs: seq<Event>)
    ensures Run(cfg, s, es + fs) == Run(cfg, Run(cfg, s, es), fs)
    decreases |es|
  {
    if es == [] {
      assert es + fs == fs;
    } else {
      assert (es + fs)[1..] == es[1..] + fs;
      RunSplit(cfg, Step(cfg, s, es[0]), es[1..], fs);
    }
  }

  ghost predicate Reachable(cfg: Adapter, s: State) {
    exists es :: Run(cfg, INITIAL, es) == s
  }

  lemma ReachableStep(cfg: Adapter, s: State, e: Event)
    requires Reachable(cfg, s)
    ensures Reachable(cfg, Step(cfg, s, e))
  {
    var es :| Run(cfg, INITIAL, es) == s;
    RunSplit(cfg, INITIAL, es, [e]);
    assert Run(cfg, INITIAL, es + [e]) == Step(cfg, s, e);
  }

  // ---------------------------------------------------------------- one step

  lemma ThenCommand(cfg: Adapter, s: State, c: PS.Command)
    requires Reachable(cfg, s)
    ensures Reachable(cfg, DoCommand(s, c))
  {
    ReachableStep(cfg, s, EvCommand(c));
  }

  lemma ThenDeliver(cfg: Adapter, s: State, w: WorkerId, job: Job)
    requires Reachable(cfg, s)
    ensures Reachable(cfg, Deliver(s, w, job))
  {
    ReachableStep(cfg, s, EvDeliver(w, job));
  }

  lemma ThenEarlyFail(cfg: Adapter, s: State, w: WorkerId)
    requires Reachable(cfg, s)
    ensures Reachable(cfg, EarlyFail(s, w, AuthRequired))
  {
    ReachableStep(cfg, s, EvEarlyFail(w, AuthRequired));
  }

  lemma ThenClaim(cfg: Adapter, s: State, w: WorkerId)
    requires Reachable(cfg, s)
    ensures Reachable(cfg, Claim(s, w))
  {
    ReachableStep(cfg, s, EvClaim(w));
  }

  lemma ThenStartRead(cfg: Adapter, s: State, w: WorkerId)
    requires Reachable(cfg, s)
    ensures Reachable(cfg, StartRead(s, w))
  {
    ReachableStep(cfg, s, EvStartRead(w));
  }

  lemma ThenStartCommit(cfg: Adapter, s: State, w: WorkerId, op: OperationId)
    requires Reachable(cfg, s)
    ensures Reachable(cfg, StartCommit(cfg, s, w, op))
  {
    ReachableStep(cfg, s, EvStartCommit(w, op));
  }

  lemma ThenContinue(cfg: Adapter, s: State, w: WorkerId)
    requires Reachable(cfg, s)
    ensures Reachable(cfg, Continue(s, w))
  {
    ReachableStep(cfg, s, EvContinue(w));
  }

  lemma ThenAttach(cfg: Adapter, s: State, w: WorkerId)
    requires Reachable(cfg, s)
    ensures Reachable(cfg, Attach(s, w, None))
  {
    ReachableStep(cfg, s, EvAttach(w, None));
  }

  lemma ThenInvoke(cfg: Adapter, s: State, w: WorkerId)
    requires Reachable(cfg, s)
    ensures Reachable(cfg, Invoke(s, w, false))
  {
    ReachableStep(cfg, s, EvInvoke(w, false));
  }

  lemma ThenHook(cfg: Adapter, s: State, w: WorkerId, goal: Goal)
    requires Reachable(cfg, s)
    ensures Reachable(cfg, Hook(cfg, s, w, goal))
  {
    ReachableStep(cfg, s, EvHook(w, goal));
  }

  lemma ThenMutate(cfg: Adapter, s: State, w: WorkerId)
    requires Reachable(cfg, s)
    ensures Reachable(cfg, Mutate(s, w))
  {
    ReachableStep(cfg, s, EvMutate(w));
  }

  lemma ThenFinish(cfg: Adapter, s: State, w: WorkerId, result: AdapterResult)
    requires Reachable(cfg, s)
    ensures Reachable(cfg, Finish(cfg, s, w, result))
  {
    ReachableStep(cfg, s, EvFinish(w, result));
  }

  lemma ThenCheck(cfg: Adapter, s: State, w: WorkerId, now: Millis)
    requires Reachable(cfg, s)
    ensures Reachable(cfg, Check(s, w, now))
  {
    ReachableStep(cfg, s, EvCheck(w, now));
  }

  lemma ThenCommit(cfg: Adapter, s: State, w: WorkerId)
    requires Reachable(cfg, s)
    ensures Reachable(cfg, CommitStep(s, w))
  {
    ReachableStep(cfg, s, EvCommit(w));
  }

  lemma ThenCrash(cfg: Adapter, s: State, w: WorkerId)
    requires Reachable(cfg, s)
    ensures Reachable(cfg, Put(s, w, Idle))
  {
    ReachableStep(cfg, s, EvCrash(w));
  }

  lemma ThenRecover(cfg: Adapter, s: State, a: nat)
    requires Reachable(cfg, s)
    ensures Reachable(cfg, RecoverCommit(RecoverRead(s, a, a), a))
  {
    ReachableStep(cfg, s, EvRecoverRead(a, a));
    ReachableStep(cfg, RecoverRead(s, a, a), EvRecoverCommit(a));
  }

  // ---------------------------------------------------------------- to the final mutation and beyond

  /** Worker 0 is at `k` and the row holds `m`. */
  ghost predicate Holding(cfg: Adapter, s: State, k: Worker, m: Metadata) {
    && Reachable(cfg, s) && At(s, 0) == k
    && s.row.meta == Some(m) && WellFormed(m)
  }

  /** From `s` to `s'` worker 0 alone has moved, and has changed neither the status nor an attempt. */
  ghost predicate Aside(s: State, s': State) {
    && s'.row.status == s.row.status && s'.attempts == s.attempts
    && s'.recoveries == s.recoveries && s'.reconciliations == s.reconciliations
    && s'.h.recoveredCompleted == s.h.recoveredCompleted
    && (forall w | w != 0 :: At(s', w) == At(s, w))
  }

  lemma ReachesSeeking(cfg: Adapter, s: State, ctx: Context, m: Metadata) returns (s': State)
    requires Holding(cfg, s, Attached(ctx), m)
    requires ctx.mode.Publish? || (ctx.mode.Poll? && cfg.finalizesOnPoll)
    ensures Holding(cfg, s', Seeking(ctx.(permit := false), Finalize, m.phase), m) && Aside(s, s')
    ensures s'.row == s.row && s'.h == s.h
  {
    ThenInvoke(cfg, s, 0);
    var s1 := Invoke(s, 0, false);
    assert At(s1, 0) == Running(ctx);
    ThenHook(cfg, s1, 0, Finalize);
    s' := Hook(cfg, s1, 0, Finalize);
  }

  lemma ReachesChecked(cfg: Adapter, s: State, ctx: Context, goal: Goal, m: Metadata) returns (s': State, next: Metadata)
    requires Holding(cfg, s, Seeking(ctx, goal, m.phase), m)
    requires Plan(s.row.Snap(), ctx, goal, m.phase, 0).Ok?
    ensures Plan(s.row.Snap(), ctx, goal, m.phase, 0) == Ok(next)
    ensures next.phase == NextPhase(goal) && WellFormed(next) && next.operationId == ctx.op
    ensures Holding(cfg, s', Checked(ctx, goal, m.phase, 0, next), m) && Aside(s, s')
    ensures s'.row == s.row && s'.h == s.h && s.row.version == ctx.version
  {
    PlanIsLegal(s.row.Snap(), ctx.op, m.phase, NextPhase(goal), ctx.version, DataOf(goal), 0);
    next := Plan(s.row.Snap(), ctx, goal, m.phase, 0).value;
    ThenCheck(cfg, s, 0, 0);
    s' := Check(s, 0, 0);
  }

  lemma ReachesCommitted(cfg: Adapter, s: State, ctx: Context, goal: Goal, expected: Phase, next: Metadata, m: Metadata)
    returns (s': State)
    requires Holding(cfg, s, Checked(ctx, goal, expected, 0, next), m) && s.row.version == ctx.version
    requires WellFormed(next) && (goal.Finalize? || goal.Processing?)
    ensures Holding(cfg, s', Accepted(0, ctx, goal, next), next) && Aside(s, s')
    ensures s'.row.version == ctx.version + 1 && s'.h.mutations == s.h.mutations
    ensures s'.h.permits == if goal.Finalize? then s.h.permits + [0] else s.h.permits
  {
    ThenCommit(cfg, s, 0);
    s' := CommitStep(s, 0);
  }

  lemma UsesPermit(cfg: Adapter, s: State, ctx: Context, m: Metadata) returns (s': State, ctx': Context)
    requires Holding(cfg, s, Running(ctx), m) && ctx.permit
    ensures ctx' == ctx.(permit := false) && Holding(cfg, s', Running(ctx'), m) && Aside(s, s')
    ensures s'.row == s.row && s'.h == s.h.(mutations := s.h.mutations + [ctx.op])
  {
    ThenMutate(cfg, s, 0);
    s' := Mutate(s, 0);
    ctx' := ctx.(permit := false);
  }

  /** A worker that has just attached itself to an operation it may publish reaches the final
      mutation. */
  lemma ReachesMutation(cfg: Adapter, s: State, ctx: Context, m: Metadata) returns (s': State, ctx': Context, m': Metadata)
    requires Holding(cfg, s, Attached(ctx), m) && s.row.version == ctx.version
    requires ctx.op == m.operationId && PublishRequested in Allowed(m.phase)
    requires ctx.mode.Publish? || (ctx.mode.Poll? && cfg.finalizesOnPoll)
    ensures Holding(cfg, s', Running(ctx'), m') && Aside(s, s') && s'.row.version == ctx'.version == ctx.version + 1
    ensures ctx'.source.PublishRequested? && m'.phase.PublishRequested? && ctx'.op == m'.operationId
    ensures ctx'.attempt == ctx.attempt && m'.operationId == m.operationId
    ensures s'.h.mutations == s.h.mutations + [ctx.op] && s'.h.permits == s.h.permits + [0]
  {
    var s1 := ReachesSeeking(cfg, s, ctx, m);
    var quiet := ctx.(permit := false);
    var s2, next := ReachesChecked(cfg, s1, quiet, Finalize, m);
    var s3 := ReachesCommitted(cfg, s2, quiet, Finalize, m.phase, next, m);
    m' := next;
    s', ctx' := UsesPermit(cfg, s3, Accepted(0, quiet, Finalize, next).ctx, next);
  }

  /** From a publish request, an asynchronous adapter's answer returns the row to remote processing. */
  lemma ReachesProcessing(cfg: Adapter, s: State, ctx: Context, m: Metadata) returns (s': State, m': Metadata)
    requires Holding(cfg, s, Running(ctx), m) && s.row.version == ctx.version && cfg.asyncAfterFinal
    requires ctx.source.PublishRequested? && m.phase.PublishRequested? && ctx.op == m.operationId
    ensures Holding(cfg, s', Idle, m') && Aside(s, s') && m'.phase.ProcessingRemote? && s'.h.mutations == s.h.mutations
  {
    var answer := StillProcessing(None, None, None);
    ThenFinish(cfg, s, 0, answer);
    var s1 := Finish(cfg, s, 0, answer);
    var quiet := ctx.(permit := false);
    var goal := Processing(60000, None, None);
    assert s1 == Put(s, 0, Seeking(quiet, goal, PublishRequested));
    var s2, next := ReachesChecked(cfg, s1, quiet, goal, m);
    s' := ReachesCommitted(cfg, s2, quiet, goal, PublishRequested, next, m);
    m' := next;
  }

  /** The continuation job of a remotely processed publication attaches itself to poll. */
  lemma ReachesPoll(cfg: Adapter, s: State, m: Metadata) returns (s': State, ctx: Context)
    requires Holding(cfg, s, Idle, m) && m.phase.ProcessingRemote? && s.row.status.Publishing?
    ensures Holding(cfg, s', Attached(ctx), m) && s'.row.version == ctx.version
    ensures ctx.mode.Poll? && ctx.op == m.operationId && s'.h.mutations == s.h.mutations
  {
    var s2, ctx2 := ReachesContinuation(cfg, s, m);
    ThenAttach(cfg, s2, 0);
    s' := Attach(s2, 0, None);
    ctx := ctx2.(attempt := |s2.attempts|);
  }

  /** A delivery of the job for the present version finds the publication PUBLISHING and continues it. */
  lemma ReachesContinuation(cfg: Adapter, s: State, m: Metadata) returns (s': State, ctx: Context)
    requires Holding(cfg, s, Idle, m) && s.row.status.Publishing?
    requires m.phase.ProcessingRemote? || m.phase.Initiated?
    ensures Holding(cfg, s', Owned(ctx), m) && Aside(s, s')
    ensures s'.row == s.row && s'.h == s.h
    ensures var mode := if m.phase.ProcessingRemote? then Poll else Publish;
      ctx == Context(m.operationId, s.row.version, mode, ProcessingRemote, 0, false, m)
  {
    var job := Job(s.row.version, if m.phase.ProcessingRemote? then Some(m.operationId) else None);
    ThenDeliver(cfg, s, 0, job);
    var s1 := Deliver(s, 0, job);
    assert At(s1, 0) == Loaded(job, s.row);
    ThenContinue(cfg, s1, 0);
    s' := Continue(s1, 0);
    ctx := At(s', 0).ctx;
  }

  // ---------------------------------------------------------------- the first attachment

  /** The publication is queued, its job delivered to worker 0 and once more to worker 1. */
  lemma ReachesDelivery(cfg: Adapter) returns (s: State)
    ensures Reachable(cfg, s)
    ensures var row := Row(PS.Queued, 1, None, None);
      s == State(row, [], map[0 := Loaded(Job(1, None), row), 1 := Loaded(Job(1, None), row)], map[], map[], false, s.h)
    ensures s.h.mutations == [] && s.h.permits == [] && !s.h.recoveredCompleted
  {
    assert Run(cfg, INITIAL, []) == INITIAL;
    ThenCommand(cfg, INITIAL, PS.QueueForPublishing);
    var s1 := DoCommand(INITIAL, PS.QueueForPublishing);
    ThenDeliver(cfg, s1, 0, Job(1, None));
    var s2 := Deliver(s1, 0, Job(1, None));
    ThenDeliver(cfg, s2, 1, Job(1, None));
    s := Deliver(s2, 1, Job(1, None));
    assert s.workers == map[0 := Loaded(Job(1, None), s1.row), 1 := Loaded(Job(1, None), s1.row)];
  }

  /** A worker that has claimed starts the operation on a row that carries none. */
  lemma Starts(cfg: Adapter, s: State, w: WorkerId) returns (s': State, ctx: Context, m: Metadata)
    requires Reachable(cfg, s) && At(s, w).Claimed? && s.row.meta.None?
    ensures Reachable(cfg, s') && m == Fresh(7, cfg.provider)
    ensures ctx == Context(7, s.row.version + 1, Publish, Initiated, 0, false, m)
    ensures s' == s.(row := s.row.(meta := Some(m), version := s.row.version + 1), workers := s.workers[w := Owned(ctx)], h := s'.h)
    ensures s'.h == s.h.(commits := s'.h.commits)
  {
    ThenStartRead(cfg, s, w);
    var s1 := StartRead(s, w);
    assert At(s1, w) == Starting(s.row.version);
    ThenStartCommit(cfg, s1, w, 7);
    s' := StartCommit(cfg, s1, w, 7);
    m := Fresh(7, cfg.provider);
    ctx := At(s', w).ctx;
    assert s1.workers[w := Owned(ctx)] == s.workers[w := Owned(ctx)];
  }

  lemma ReachesFirstAttachment(cfg: Adapter) returns (s: State, ctx: Context, m: Metadata)
    ensures Holding(cfg, s, Attached(ctx), m) && s.row.version == ctx.version && s.row.status.Publishing?
    ensures ctx.mode.Publish? && m.phase.Initiated? && ctx.op == m.operationId && s.h.mutations == []
  {
    var s1 := ReachesDelivery(cfg);
    ThenClaim(cfg, s1, 0);
    var s2 := Claim(s1, 0);
    assert At(s2, 0).Claimed?;
    var s3, ctx3, m3 := Starts(cfg, s2, 0);
    m := m3;
    ThenAttach(cfg, s3, 0);
    s := Attach(s3, 0, None);
    ctx := ctx3.(attempt := |s3.attempts|);
  }

  /** Without discipline a second poll publishes again. */
  lemma ReachesTwoMutations(cfg: Adapter) returns (s: State)
    requires !Disciplined(cfg)
    ensures Reachable(cfg, s) && |s.h.mutations| == 2
  {
    var s1, ctx1, m1 := ReachesFirstAttachment(cfg);
    var s2, ctx2, m2 := ReachesMutation(cfg, s1, ctx1, m1);
    var s3, m3 := ReachesProcessing(cfg, s2, ctx2, m2);
    var s4, ctx4 := ReachesPoll(cfg, s3, m3);
    var s5, _, _ := ReachesMutation(cfg, s4, ctx4, m3);
    s := s5;
  }
}
