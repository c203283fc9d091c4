/**
  What a worker records of its adapter: from the answer, or from the call of a checkpoint, to the row and the
  attempts.  Everything anyone else does between the answer, the check of the row and the write is allowed for;
  each outcome is stated over the state at the write.
*/
module PublishAnswers {
  import opened Wrappers
  import opened ExecutionMetadata
  import opened PublishProtocol
  import opened PublishInvariant
  import opened PublishTheorems
  import PublishExceptions
  import PS = PublicationStatus

  // ---------------------------------------------------------------- what holds in every reachable state

  ghost predicate Sound(cfg: Adapter, s: State) {
    && Inv(cfg, s) && AttemptsNamed(s)
    && (s.h.recoveredCompleted ==> s.row.meta.Some? && Terminal(s.row.meta.value.phase))
  }

  lemma SoundStep(cfg: Adapter, s: State, e: Event)
    requires Sound(cfg, s)
    ensures Sound(cfg, Step(cfg, s, e)) && Evolves(s.row.Snap(), Step(cfg, s, e).row.Snap())
  {
    StepInv(cfg, s, e);
    AttemptsStep(cfg, s, e);
    PublishExceptions.OnlyRecoveryFlags(cfg, s, e);
    if PublishExceptions.RecoversCompleted(s, e) {
      RecoveryEnds(s, e.r);
    }
  }

  lemma RecoveryEnds(s: State, r: nat)
    requires r in s.recoveries && s.row.status.Publishing? && s.recoveries[r].meta.Some?
    ensures RecoverCommit(s, r).row.meta == Some(s.recoveries[r].meta.value.(phase := Phase.Ambiguous))
  {
  }

  lemma SoundFinish(cfg: Adapter, s: State, w: WorkerId, answer: AdapterResult)
    requires Sound(cfg, s)
    ensures Sound(cfg, Finish(cfg, s, w, answer))
  {
    SoundStep(cfg, s, EvFinish(w, answer));
  }

  lemma SoundCheck(cfg: Adapter, s: State, w: WorkerId, now: Millis)
    requires Sound(cfg, s)
    ensures Sound(cfg, Check(s, w, now))
  {
    SoundStep(cfg, s, EvCheck(w, now));
  }

  lemma {:induction false} SoundRun(cfg: Adapter, s: State, es: seq<Event>)
    requires Sound(cfg, s)
    ensures Sound(cfg, Run(cfg, s, es)) && Evolves(s.row.Snap(), Run(cfg, s, es).row.Snap())
    decreases |es|
  {
    if es != [] {
      var s1 := Step(cfg, s, es[0]);
      SoundStep(cfg, s, es[0]);
      SoundRun(cfg, s1, es[1..]);
      EvolvesTransitive(s.row.Snap(), s1.row.Snap(), Run(cfg, s, es).row.Snap());
    }
  }

  lemma ReachableSound(cfg: Adapter, es: seq<Event>)
    ensures Sound(cfg, Run(cfg, INITIAL, es))
  {
    SoundRun(cfg, INITIAL, es);
  }

  /** Steps of everybody but worker `w`. */
  ghost predicate Others(es: seq<Event>, w: WorkerId) {
    forall e | e in es :: ActorOf(e) != Some(w)
  }

  lemma {:induction false} OthersRun(cfg: Adapter, s: State, es: seq<Event>, w: WorkerId)
    requires Others(es, w)
    ensures At(Run(cfg, s, es), w) == At(s, w)
    decreases |es|
  {
    if es != [] {
      OthersKeepRecord(cfg, s, es[0], w);
      OthersRun(cfg, Step(cfg, s, es[0]), es[1..], w);
    }
  }

  lemma {:induction false} AttemptsOnlyGrow(cfg: Adapter, s: State, es: seq<Event>)
    ensures |Run(cfg, s, es).attempts| >= |s.attempts|
    decreases |es|
  {
    if es != [] {
      AttemptsGrow(cfg, s, es[0]);
      AttemptsOnlyGrow(cfg, Step(cfg, s, es[0]), es[1..]);
    }
  }

  /** What other actors leave in place. */
  lemma Meanwhile(cfg: Adapter, s: State, w: WorkerId, fs: seq<Event>)
    requires Sound(cfg, s) && Others(fs, w)
    ensures var s' := Run(cfg, s, fs);
      && Sound(cfg, s') && Evolves(s.row.Snap(), s'.row.Snap()) && At(s', w) == At(s, w)
      && |s.attempts| <= |s'.attempts|
  {
    SoundRun(cfg, s, fs);
    OthersRun(cfg, s, fs, w);
    AttemptsOnlyGrow(cfg, s, fs);
  }

  // ---------------------------------------------------------------- a transition, whatever happens meanwhile

  /** The version the worker believes in is the row's, and the row is in a phase from which `next` is allowed. */
  predicate MayMove(row: Row, version: nat, from: Phase, next: Phase) {
    row.version == version && PhaseOf(row) == Some(from) && next in Allowed(from)
  }

  /** From `s` to `s'` only the record of worker `w` has changed, to `k`. */
  ghost predicate OnlyRecord(s: State, s': State, w: WorkerId, k: Worker) {
    && s'.row == s.row && s'.attempts == s.attempts && s'.h == s.h && Aloof(s, s', w) && At(s', w) == k
  }

  /** Nobody else's record has changed. */
  ghost predicate Aloof(s: State, s': State, w: WorkerId) {
    && s'.recoveries == s.recoveries && s'.reconciliations == s.reconciliations && s'.deletable == s.deletable
    && forall x | x != w :: At(s', x) == At(s, x)
  }

  /** What the transition leaves if it commits on state `t`. */
  ghost predicate Transits(t: State, t': State, w: WorkerId, ctx: Context, goal: Goal, from: Phase, now: Millis) {
    && Plan(t.row.Snap(), ctx, goal, from, now).Ok?
    && var next := Plan(t.row.Snap(), ctx, goal, from, now).value;
       && t'.row == CommittedRow(t.row, goal, next)
       && t'.attempts == CommittedAttempts(t.attempts, ctx.attempt, goal)
       && t'.h == CommittedHistory(t.row, t.h, w, goal, next)
       && At(t', w) == Accepted(w, ctx, goal, next) && Aloof(t, t', w)
  }

  lemma CommitOf(t: State, w: WorkerId, ctx: Context, goal: Goal, from: Phase, now: Millis, next: Metadata)
    requires At(t, w) == Checked(ctx, goal, from, now, next)
    ensures t.row.version != ctx.version ==> OnlyRecord(t, CommitStep(t, w), w, Refused(ctx, goal))
    ensures t.row.version == ctx.version && Plan(t.row.Snap(), ctx, goal, from, now) == Ok(next) ==>
      Transits(t, CommitStep(t, w), w, ctx, goal, from, now)
  {
  }

  lemma RefusedStays(t: State, w: WorkerId, ctx: Context, goal: Goal)
    requires At(t, w) == Refused(ctx, goal)
    ensures OnlyRecord(t, CommitStep(t, w), w, Refused(ctx, goal))
  {
  }

  lemma CheckOf(s: State, w: WorkerId, ctx: Context, goal: Goal, from: Phase, now: Millis)
    requires At(s, w) == Seeking(ctx, goal, from)
    ensures var plan := Plan(s.row.Snap(), ctx, goal, from, now);
      Check(s, w, now) == Put(s, w, if plan.Ok? then Checked(ctx, goal, from, now, plan.value) else Refused(ctx, goal))
  {
  }

  /** In a sound state the plan exists exactly if the row is the one the worker believes in. */
  lemma PlanIsPossible(cfg: Adapter, t: State, ctx: Context, goal: Goal, from: Phase, now: Millis)
    requires Sound(cfg, t) && t.row.meta.Some? && t.row.meta.value.operationId == ctx.op
    ensures Plan(t.row.Snap(), ctx, goal, from, now).Ok?
       <==> MayMove(t.row, ctx.version, from, NextPhase(goal)) && Supplied(NextPhase(goal), DataOf(goal))
  {
    PlanSucceedsExactly(t.row.Snap(), ctx.op, from, NextPhase(goal), ctx.version, DataOf(goal), now);
  }

  /** What a worker that holds the operation may believe of the row it will find. */
  lemma BeliefAtCommit(cfg: Adapter, s: State, w: WorkerId, ctx: Context, row: Row)
    requires Inv(cfg, s) && ContextOf(At(s, w)) == Some(ctx) && Evolves(s.row.Snap(), row.Snap())
    ensures row.meta.Some? && row.meta.value.operationId == ctx.op && ctx.version <= s.row.version <= row.version
    ensures row.version == ctx.version ==> row.Snap() == s.row.Snap()
  {
    ActorOk(cfg, s, w);
    EvolvesTransitive(Snapshot(ctx.version, Some(ctx.base)), s.row.Snap(), row.Snap());
  }

  /** Between the check of a transition and its commit anything may happen.  The transition commits exactly if the
      row at the commit is the one the worker believes in, and writes the plan made for that row. */
  lemma TransitionCommits(cfg: Adapter, s: State, w: WorkerId, ctx: Context, goal: Goal, from: Phase, now: Millis, gs: seq<Event>)
    requires Sound(cfg, s) && At(s, w) == Seeking(ctx, goal, from) && Others(gs, w)
    ensures var t := Run(cfg, Check(s, w, now), gs);
      var t' := CommitStep(t, w);
      && Sound(cfg, t) && Evolves(s.row.Snap(), t.row.Snap())
      && t.row.meta.Some? && t.row.meta.value.operationId == ctx.op && ctx.attempt < |t.attempts|
      && if MayMove(t.row, ctx.version, from, NextPhase(goal)) && Supplied(NextPhase(goal), DataOf(goal))
         then Transits(t, t', w, ctx, goal, from, now)
         else OnlyRecord(t, t', w, Refused(ctx, goal))
  {
    var s1 := Check(s, w, now);
    var t := Run(cfg, s1, gs);
    Checking(cfg, s, w, ctx, goal, from, now);
    Meanwhile(cfg, s1, w, gs);
    BeliefAtCommit(cfg, s, w, ctx, t.row);
    PlanIsPossible(cfg, t, ctx, goal, from, now);
    var plan := Plan(s.row.Snap(), ctx, goal, from, now);
    if plan.Ok? {
      CommitOf(t, w, ctx, goal, from, now, plan.value);
    } else {
      RefusedStays(t, w, ctx, goal);
    }
  }

  lemma Checking(cfg: Adapter, s: State, w: WorkerId, ctx: Context, goal: Goal, from: Phase, now: Millis)
    requires Sound(cfg, s) && At(s, w) == Seeking(ctx, goal, from)
    ensures var s', plan := Check(s, w, now), Plan(s.row.Snap(), ctx, goal, from, now);
      && Sound(cfg, s') && s'.row == s.row && ctx.attempt < |s'.attempts|
      && At(s', w) == if plan.Ok? then Checked(ctx, goal, from, now, plan.value) else Refused(ctx, goal)
  {
    SoundCheck(cfg, s, w, now);
    CheckOf(s, w, ctx, goal, from, now);
    assert NamesAttempt(s.workers[w], |s.attempts|);
  }

  // ---------------------------------------------------------------- the adapter's answer

  /** The worker was too late or in no position to record what it knows: the status says UNKNOWN, its attempt
      failed with an unknown result, and the metadata is left alone. */
  predicate LeftUnknown(s: State, s': State, a: nat)
    requires a < |s.attempts|
  {
    && s'.row == s.row.(status := PS.Unknown)
    && s'.attempts == s.attempts[a := Attempt(AttemptFailed, Some(UnknownResult))]
  }

  predicate Untouched(s: State, s': State) {
    s'.row == s.row && s'.attempts == s.attempts
  }

  /** The row with its next version, and the metadata it carried in a terminal phase. */
  function Ended(row: Row, status: PS.PostStatus, phase: Phase): Row
    requires row.meta.Some?
  {
    var m := row.meta.value.(phase := phase, lastCheckedAt := None, nextCheckAt := None);
    row.(status := status, version := row.version + 1, meta := Some(m))
  }

  function Polling(row: Row, now: Millis, delay: int, remoteId: Option<string>, state: Option<Json>): Row
    requires row.meta.Some?
  {
    var m := row.meta.value;
    row.(version := row.version + 1,
         meta := Some(m.(phase := ProcessingRemote, lastCheckedAt := Some(now), nextCheckAt := Some(now + delay),
                         remoteResourceId := if Present(remoteId) then remoteId else m.remoteResourceId,
                         preparationState := OrElse(state, m.preparationState))))
  }

  function Prepared(row: Row, now: Millis, containerId: Option<string>, state: Option<Json>): Row
    requires row.meta.Some?
  {
    var m := row.meta.value;
    row.(version := row.version + 1,
         meta := Some(m.(phase := ContainerCreated, containerId := containerId, containerCreatedAt := Some(now),
                         preparationState := OrElse(state, m.preparationState))))
  }

  function Requested(row: Row, now: Millis): Row
    requires row.meta.Some?
  {
    row.(version := row.version + 1,
         meta := Some(row.meta.value.(phase := PublishRequested, publishRequestedAt := Some(now))))
  }

  /** An outcome nobody can know is recorded as AMBIGUOUS, if the row is still the worker's to record it. */
  predicate Uncertain(s: State, s': State, version: nat, from: Phase, a: nat)
    requires s.row.meta.Some? && a < |s.attempts|
  {
    if MayMove(s.row, version, from, Ambiguous) then
      && s'.row == Ended(s.row, PS.Unknown, Ambiguous)
      && s'.attempts == s.attempts[a := Attempt(AttemptFailed, Some(UnknownResult))]
    else Untouched(s, s')
  }

  /** What an answer of the adapter leaves.  `version` and `from` are the worker's own: the version its last
      checkpoint left, and the phase it believes the row to be in. */
  predicate Recorded(s: State, s': State, version: nat, from: Phase, a: nat, answer: AdapterResult, now: Millis)
    requires s.row.meta.Some? && a < |s.attempts|
  {
    match answer
    case Published(id) =>
      if MayMove(s.row, version, from, Completed) && Present(id) then
        var ended := Ended(s.row, PS.Published, Completed);
        && s'.row == ended.(externalPostId := id, meta := Some(ended.meta.value.(finalRemoteId := id)))
        && s'.attempts == s.attempts[a := Attempt(Succeeded, None)]
      else LeftUnknown(s, s', a)
    case StillProcessing(remoteId, state, delay) =>
      var d := if delay == None || delay == Some(0) then 60000 else delay.value;
      if MayMove(s.row, version, from, ProcessingRemote) && MIN_DELAY_MS <= d <= MAX_DELAY_MS then
        s'.row == Polling(s.row, now, d, remoteId, state) && s'.attempts == s.attempts
      else LeftUnknown(s, s', a)
    case Failure(category, ambiguousContainer) =>
      var unclear := category.UnknownResult? || (from.PublishRequested? && category.Transient?);
      if ambiguousContainer || (unclear && from.PublishRequested?) then Uncertain(s, s', version, from, a)
      else if !unclear && MayMove(s.row, version, from, Phase.Failed) then
        && s'.row == Ended(s.row, PS.Failed, Phase.Failed)
        && s'.attempts == s.attempts[a := Attempt(AttemptFailed, Some(category))]
      else Untouched(s, s')
    case Threw(coordination) =>
      if coordination || from.ProcessingRemote? then Untouched(s, s')
      else if from.PublishRequested? then Uncertain(s, s', version, from, a)
      else LeftUnknown(s, s', a)
  }

  /** Recording an answer ends the worker and leaves everybody else, the permits and the mutations alone. */
  ghost predicate Ends(s: State, s': State, w: WorkerId) {
    && At(s', w).Idle? && Aloof(s, s', w)
    && s'.h.permits == s.h.permits && s'.h.mutations == s.h.mutations
  }

  /** An adapter that cannot be asynchronous after its final checkpoint does not answer PROCESSING then. */
  predicate MayAnswer(cfg: Adapter, from: Phase, answer: AdapterResult) {
    answer.StillProcessing? && from.PublishRequested? ==> cfg.asyncAfterFinal
  }

  /** The state at the commit: the worker's adapter answers, anything happens, the worker checks the row, and
      anything happens again. */
  function AtCommit(cfg: Adapter, s: State, w: WorkerId, answer: AdapterResult, fs: seq<Event>, now: Millis, gs: seq<Event>): State {
    Run(cfg, Check(Run(cfg, Finish(cfg, s, w, answer), fs), w, now), gs)
  }

  function Recording(s: State, w: WorkerId): State {
    Close(CommitStep(s, w), w)
  }

  /** In every run, whatever the other actors do between the answer, the check and the write: what the worker
      records is what the answer demands of the row it finds. */
  lemma AnswerIsRecorded(cfg: Adapter, es: seq<Event>, w: WorkerId, answer: AdapterResult, fs: seq<Event>, now: Millis, gs: seq<Event>)
    requires At(Run(cfg, INITIAL, es), w).Running? && Others(fs, w) && Others(gs, w)
    requires MayAnswer(cfg, At(Run(cfg, INITIAL, es), w).ctx.source, answer)
    ensures var ctx := At(Run(cfg, INITIAL, es), w).ctx;
      var s := AtCommit(cfg, Run(cfg, INITIAL, es), w, answer, fs, now, gs);
      && s.row.meta.Some? && s.row.meta.value.operationId == ctx.op && ctx.attempt < |s.attempts|
      && Recorded(s, Recording(s, w), ctx.version, ctx.source, ctx.attempt, answer, now)
      && Ends(s, Recording(s, w), w)
  {
    var s := Run(cfg, INITIAL, es);
    ReachableSound(cfg, es);
    AnswerFrom(cfg, s, w, answer, fs, now, gs);
  }

  lemma AnswerFrom(cfg: Adapter, s: State, w: WorkerId, answer: AdapterResult, fs: seq<Event>, now: Millis, gs: seq<Event>)
    requires Sound(cfg, s) && At(s, w).Running? && Others(fs, w) && Others(gs, w)
    requires MayAnswer(cfg, At(s, w).ctx.source, answer)
    ensures var ctx := At(s, w).ctx;
      var t := AtCommit(cfg, s, w, answer, fs, now, gs);
      && t.row.meta.Some? && t.row.meta.value.operationId == ctx.op && ctx.attempt < |t.attempts|
      && Recorded(t, Recording(t, w), ctx.version, ctx.source, ctx.attempt, answer, now)
      && Ends(t, Recording(t, w), w)
  {
    var s1 := Finish(cfg, s, w, answer);
    Concluded(cfg, s, w, answer);
    Meanwhile(cfg, s1, w, fs);
    AnswerWritten(cfg, s, Run(cfg, s1, fs), w, At(s, w).ctx, answer, now, gs);
  }

  lemma Concluded(cfg: Adapter, s: State, w: WorkerId, answer: AdapterResult)
    requires Sound(cfg, s) && At(s, w).Running? && MayAnswer(cfg, At(s, w).ctx.source, answer)
    ensures var s' := Finish(cfg, s, w, answer);
      Sound(cfg, s') && s'.row == s.row && s'.attempts == s.attempts && At(s', w) == Conclude(At(s, w).ctx, answer)
  {
    SoundFinish(cfg, s, w, answer);
    FinishOf(cfg, s, w, answer);
  }

  /** From the state in which the worker, having concluded, checks the row. */
  lemma AnswerWritten(cfg: Adapter, s: State, s2: State, w: WorkerId, ctx: Context, answer: AdapterResult, now: Millis, gs: seq<Event>)
    requires Sound(cfg, s) && At(s, w) == Running(ctx)
    requires Sound(cfg, s2) && Evolves(s.row.Snap(), s2.row.Snap()) && |s.attempts| <= |s2.attempts|
    requires At(s2, w) == Conclude(ctx, answer) && Others(gs, w)
    ensures var t := Run(cfg, Check(s2, w, now), gs);
      && t.row.meta.Some? && t.row.meta.value.operationId == ctx.op && ctx.attempt < |t.attempts|
      && Recorded(t, Recording(t, w), ctx.version, ctx.source, ctx.attempt, answer, now)
      && Ends(t, Recording(t, w), w)
  {
    var k, t := Conclude(ctx, answer), Run(cfg, Check(s2, w, now), gs);
    if k.Seeking? {
      TransitionCommits(cfg, s2, w, k.ctx, k.goal, k.expected, now, gs);
      SeekingRecords(t, w, ctx, answer, now);
    } else {
      NothingToCheck(cfg, s, s2, w, now, gs);
      SettledRecords(t, w, ctx, answer, now);
    }
  }

  /** What the commit of a goal leaves in the row. */
  lemma GoalWrites(t: State, t': State, w: WorkerId, ctx: Context, goal: Goal, from: Phase, now: Millis)
    requires Transits(t, t', w, ctx, goal, from, now)
    ensures var m := t.row.meta;
      m.Some? && match goal
      case Complete(id) =>
        var ended := Ended(t.row, PS.Published, Completed);
        t'.row == ended.(externalPostId := id, meta := Some(ended.meta.value.(finalRemoteId := id)))
      case Fail(_) => t'.row == Ended(t.row, PS.Failed, Phase.Failed)
      case MarkAmbiguous => t'.row == Ended(t.row, PS.Unknown, Ambiguous)
      case StopRetry => t'.row == Ended(t.row, t.row.status, Ambiguous)
      case Processing(delay, remoteId, state) => t'.row == Polling(t.row, now, delay, remoteId, state)
      case Prepare(id, state) => t'.row == Prepared(t.row, now, id, state)
      case Finalize => t'.row == Requested(t.row, now)
  {
    PlanSucceedsExactly(t.row.Snap(), ctx.op, from, NextPhase(goal), ctx.version, DataOf(goal), now);
    PlanIsLegal(t.row.Snap(), ctx.op, from, NextPhase(goal), ctx.version, DataOf(goal), now);
    PlanWrites(t.row.Snap(), ctx.op, from, NextPhase(goal), ctx.version, DataOf(goal), now);
  }

  lemma CloseOf(t: State, w: WorkerId, a: nat)
    requires At(t, w) == Closing(a, PS.Unknown, UnknownResult) && a < |t.attempts|
    ensures LeftUnknown(t, Close(t, w), a) && Ends(t, Close(t, w), w)
  {
  }

  lemma NoClose(t: State, w: WorkerId)
    requires !At(t, w).Closing?
    ensures Close(t, w) == t
  {
  }

  /** The goal that an answer leads to has been committed on state `t`, or refused. */
  lemma SeekingRecords(t: State, w: WorkerId, ctx: Context, answer: AdapterResult, now: Millis)
    requires Conclude(ctx, answer).Seeking? && t.row.meta.Some? && ctx.attempt < |t.attempts|
    requires var k := Conclude(ctx, answer);
      if MayMove(t.row, k.ctx.version, k.expected, NextPhase(k.goal)) && Supplied(NextPhase(k.goal), DataOf(k.goal))
      then Transits(t, CommitStep(t, w), w, k.ctx, k.goal, k.expected, now)
      else OnlyRecord(t, CommitStep(t, w), w, Refused(k.ctx, k.goal))
    ensures Recorded(t, Recording(t, w), ctx.version, ctx.source, ctx.attempt, answer, now)
    ensures Ends(t, Recording(t, w), w)
  {
    var k := Conclude(ctx, answer);
    var t1 := CommitStep(t, w);
    if MayMove(t.row, k.ctx.version, k.expected, NextPhase(k.goal)) && Supplied(NextPhase(k.goal), DataOf(k.goal)) {
      GoalWrites(t, t1, w, k.ctx, k.goal, k.expected, now);
      NoClose(t1, w);
    } else if k.goal.Complete? || k.goal.Processing? {
      CloseOf(t1, w, ctx.attempt);
    } else {
      NoClose(t1, w);
    }
  }

  lemma SettledRecords(t: State, w: WorkerId, ctx: Context, answer: AdapterResult, now: Millis)
    requires !Conclude(ctx, answer).Seeking? && t.row.meta.Some? && ctx.attempt < |t.attempts|
    requires At(t, w) == Conclude(ctx, answer)
    ensures Recorded(t, Recording(t, w), ctx.version, ctx.source, ctx.attempt, answer, now)
    ensures Ends(t, Recording(t, w), w)
  {
    assert CommitStep(t, w) == t;
    if At(t, w).Closing? {
      CloseOf(t, w, ctx.attempt);
    }
  }

  lemma FinishOf(cfg: Adapter, s: State, w: WorkerId, answer: AdapterResult)
    requires At(s, w).Running? && MayAnswer(cfg, At(s, w).ctx.source, answer)
    ensures Finish(cfg, s, w, answer) == Put(s, w, Conclude(At(s, w).ctx, answer))
  {
  }

  /** A worker that is done, or that only has a failure to close, does not check the row. */
  lemma NothingToCheck(cfg: Adapter, s: State, s2: State, w: WorkerId, now: Millis, gs: seq<Event>)
    requires Sound(cfg, s) && Sound(cfg, s2) && Evolves(s.row.Snap(), s2.row.Snap()) && |s.attempts| <= |s2.attempts|
    requires At(s, w).Running? && !At(s2, w).Seeking? && Others(gs, w)
    ensures var t := Run(cfg, Check(s2, w, now), gs);
      && At(t, w) == At(s2, w) && t.row.meta.Some? && t.row.meta.value.operationId == At(s, w).ctx.op
      && At(s, w).ctx.attempt < |t.attempts|
  {
    assert Check(s2, w, now) == s2;
    SoundRun(cfg, s2, gs);
    OthersRun(cfg, s2, gs, w);
    AttemptsOnlyGrow(cfg, s2, gs);
    var t := Run(cfg, s2, gs);
    EvolvesTransitive(s.row.Snap(), s2.row.Snap(), t.row.Snap());
    BeliefAtCommit(cfg, s, w, At(s, w).ctx, t.row);
  }

  // ---------------------------------------------------------------- checkpoints

  function AtCheckpoint(cfg: Adapter, s: State, w: WorkerId, goal: Goal, fs: seq<Event>, now: Millis, gs: seq<Event>): State {
    Run(cfg, Check(Run(cfg, Hook(cfg, s, w, goal), fs), w, now), gs)
  }

  /** What a checkpoint leaves: the row is in its phase and the worker goes on, after the final one with the permit
      to mutate once; or the row has moved on, and the worker gives up without a trace. */
  ghost predicate Passed(s: State, s': State, w: WorkerId, ctx: Context, goal: Goal, now: Millis)
    requires s.row.meta.Some?
  {
    if s.row.version == ctx.version && NextPhase(goal) in Allowed(s.row.meta.value.phase)
       && (goal.Prepare? ==> Present(goal.containerId))
    then
      && s'.row == (if goal.Prepare? then Prepared(s.row, now, goal.containerId, goal.state) else Requested(s.row, now))
      && s'.attempts == s.attempts && Aloof(s, s', w) && At(s', w).Running?
      && (var on := At(s', w).ctx;
          && on.op == ctx.op && on.version == s'.row.version && on.attempt == ctx.attempt
          && Some(on.source) == PhaseOf(s'.row) && (on.permit <==> goal.Finalize?))
      && s'.h.permits == (if goal.Finalize? then s.h.permits + [w] else s.h.permits)
      && Mutate(s', w).h.mutations == (if goal.Finalize? then s.h.mutations + [ctx.op] else s.h.mutations)
    else OnlyRecord(s, s', w, Idle)
  }

  /** In every run, whatever the other actors do between the call, the check and the write. */
  lemma CheckpointIsRecorded(cfg: Adapter, es: seq<Event>, w: WorkerId, goal: Goal, fs: seq<Event>, now: Millis, gs: seq<Event>)
    requires At(Run(cfg, INITIAL, es), w).Running? && Others(fs, w) && Others(gs, w)
    requires goal.Prepare? || (goal.Finalize? && (At(Run(cfg, INITIAL, es), w).ctx.mode.Publish? || cfg.finalizesOnPoll))
    ensures var t := AtCheckpoint(cfg, Run(cfg, INITIAL, es), w, goal, fs, now, gs);
      t.row.meta.Some? && Passed(t, CommitStep(t, w), w, At(Run(cfg, INITIAL, es), w).ctx, goal, now)
  {
    var s := Run(cfg, INITIAL, es);
    ReachableSound(cfg, es);
    CheckpointFrom(cfg, s, w, goal, fs, now, gs);
  }

  lemma SoundHook(cfg: Adapter, s: State, w: WorkerId, goal: Goal)
    requires Sound(cfg, s)
    ensures Sound(cfg, Hook(cfg, s, w, goal))
  {
    SoundStep(cfg, s, EvHook(w, goal));
  }

  lemma HookOf(cfg: Adapter, s: State, w: WorkerId, ctx: Context, goal: Goal)
    requires At(s, w) == Running(ctx) && s.row.meta.Some?
    requires goal.Prepare? || (goal.Finalize? && (ctx.mode.Publish? || cfg.finalizesOnPoll))
    ensures Hook(cfg, s, w, goal) == Put(s, w, Seeking(ctx.(permit := false), goal, s.row.meta.value.phase))
  {
  }

  lemma CheckpointFrom(cfg: Adapter, s: State, w: WorkerId, goal: Goal, fs: seq<Event>, now: Millis, gs: seq<Event>)
    requires Sound(cfg, s) && At(s, w).Running? && Others(fs, w) && Others(gs, w)
    requires goal.Prepare? || (goal.Finalize? && (At(s, w).ctx.mode.Publish? || cfg.finalizesOnPoll))
    ensures var t := AtCheckpoint(cfg, s, w, goal, fs, now, gs);
      t.row.meta.Some? && Passed(t, CommitStep(t, w), w, At(s, w).ctx, goal, now)
  {
    var ctx := At(s, w).ctx;
    BeliefAtCommit(cfg, s, w, ctx, s.row);
    HookOf(cfg, s, w, ctx, goal);
    SoundHook(cfg, s, w, goal);
    Meanwhile(cfg, Hook(cfg, s, w, goal), w, fs);
    CheckpointWritten(cfg, s, Run(cfg, Hook(cfg, s, w, goal), fs), w, ctx, goal, now, gs);
  }

  lemma CheckpointWritten(cfg: Adapter, s: State, s2: State, w: WorkerId, ctx: Context, goal: Goal, now: Millis, gs: seq<Event>)
    requires Sound(cfg, s) && At(s, w) == Running(ctx) && s.row.meta.Some? && (goal.Prepare? || goal.Finalize?)
    requires Sound(cfg, s2) && Evolves(s.row.Snap(), s2.row.Snap())
    requires At(s2, w) == Seeking(ctx.(permit := false), goal, s.row.meta.value.phase) && Others(gs, w)
    ensures var t := Run(cfg, Check(s2, w, now), gs);
      t.row.meta.Some? && Passed(t, CommitStep(t, w), w, ctx, goal, now)
  {
    var quiet, from, t := ctx.(permit := false), s.row.meta.value.phase, Run(cfg, Check(s2, w, now), gs);
    TransitionCommits(cfg, s2, w, quiet, goal, from, now, gs);
    EvolvesTransitive(s.row.Snap(), s2.row.Snap(), t.row.Snap());
    BeliefAtCommit(cfg, s, w, ctx, t.row);
    if MayMove(t.row, ctx.version, from, NextPhase(goal)) && Supplied(NextPhase(goal), DataOf(goal)) {
      CheckpointPasses(t, CommitStep(t, w), w, ctx, goal, from, now);
    }
  }

  lemma CheckpointPasses(t: State, t': State, w: WorkerId, ctx: Context, goal: Goal, from: Phase, now: Millis)
    requires goal.Prepare? || goal.Finalize?
    requires MayMove(t.row, ctx.version, from, NextPhase(goal)) && Supplied(NextPhase(goal), DataOf(goal))
    requires Transits(t, t', w, ctx.(permit := false), goal, from, now)
    ensures Passed(t, t', w, ctx, goal, now)
  {
    GoalWrites(t, t', w, ctx.(permit := false), goal, from, now);
  }
}
