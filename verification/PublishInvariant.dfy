/**
  The inductive invariant of the publish protocol, kept by every step of every actor.
  The proof is a rely-guarantee argument: each step moves the row along `Evolves`, so whatever
  an actor once read still evolves to the row it will find when it writes.
*/
module PublishInvariant {
  import opened Wrappers
  import opened ExecutionMetadata
  import opened PublishProtocol
  import PS = PublicationStatus

  // ---------------------------------------------------------------- the commit log

  function PhaseAfter(log: seq<Commit>): Option<Phase> {
    if log == [] then None else Some(log[|log| - 1].to)
  }

  /** A publish was requested and the provider has not been polled since. */
  predicate Unresolved(log: seq<Commit>) {
    log != [] &&
    var last := log[|log| - 1];
    last.to.PublishRequested? || (!last.to.ProcessingRemote? && Unresolved(log[..|log| - 1]))
  }

  /** The commits that bump the dispatch version: all but reconciliation. */
  function Bumps(log: seq<Commit>): nat {
    if log == [] then 0
    else Bumps(log[..|log| - 1]) + if log[|log| - 1].author.ByReconcile? then 0 else 1
  }

  /** May `c` be committed after `log`? */
  predicate LegalCommit(log: seq<Commit>, c: Commit) {
    && c.from == PhaseAfter(log)
    && match c.author
       case ByStart(_) => c.from.None? && c.to.Initiated?
       case ByTransition(_) =>
         c.from.Some? && c.to in Allowed(c.from.value) && (c.to.Failed? ==> !Unresolved(log))
       case ByRecovery => c.from.Some? && c.to.Ambiguous?
       case ByReconcile => c.from.Some? && Terminal(c.from.value) && (c.to.Completed? || c.to.Failed?)
  }

  predicate LegalLog(log: seq<Commit>) {
    log == [] || (LegalLog(log[..|log| - 1]) && LegalCommit(log[..|log| - 1], log[|log| - 1]))
  }

  lemma AppendCommit(log: seq<Commit>, c: Commit)
    ensures PhaseAfter(log + [c]) == Some(c.to)
    ensures Unresolved(log + [c]) <==> c.to.PublishRequested? || (!c.to.ProcessingRemote? && Unresolved(log))
    ensures Bumps(log + [c]) == Bumps(log) + if c.author.ByReconcile? then 0 else 1
    ensures LegalLog(log + [c]) <==> LegalLog(log) && LegalCommit(log, c)
  {
    assert (log + [c])[..|log + [c]| - 1] == log;
  }

  // ---------------------------------------------------------------- the row

  predicate MetaInv(row: Row, h: History) {
    row.meta.Some? ==>
      && (!h.recoveredCompleted ==> WellFormed(row.meta.value))
      && PollWindow(row.meta.value)
      && (row.meta.value.phase.Completed? ==>
            Present(row.meta.value.finalRemoteId) && row.externalPostId == row.meta.value.finalRemoteId)
  }

  predicate LogInv(row: Row, h: History) {
    && LegalLog(h.commits)
    && PhaseAfter(h.commits) == PhaseOf(row)
    && (Unresolved(h.commits) ==>
          row.meta.Some? && (row.meta.value.phase.PublishRequested? || Terminal(row.meta.value.phase)))
    && row.version == h.enqueues + Bumps(h.commits)
  }

  /** A poll of an asynchronous adapter cannot lead to a second final mutation. */
  predicate Disciplined(cfg: Adapter) {
    !(cfg.finalizesOnPoll && cfg.asyncAfterFinal)
  }

  predicate PermitInv(cfg: Adapter, row: Row, h: History) {
    && (h.permits != [] ==>
          row.meta.Some? &&
          var p := row.meta.value.phase;
          p.PublishRequested? || Terminal(p) || (p.ProcessingRemote? && cfg.asyncAfterFinal))
    && (Disciplined(cfg) ==> |h.mutations| <= |h.permits| <= 1)
    && (h.mutations != [] ==> row.meta.Some?)
    && (row.meta.Some? ==> forall op | op in h.mutations :: op == row.meta.value.operationId)
  }

  predicate ClaimInv(row: Row, h: History) {
    && (forall i, j | 0 <= i < j < |h.claims| :: h.claims[i] != h.claims[j])
    && (forall i | 0 <= i < |h.claims| :: h.claims[i] <= row.version)
    && (row.status.Queued? ==> row.version !in h.claims)
  }

  predicate RowInv(cfg: Adapter, row: Row, h: History) {
    MetaInv(row, h) && LogInv(row, h) && PermitInv(cfg, row, h) && ClaimInv(row, h)
  }

  // ---------------------------------------------------------------- the actors

  predicate ContextOk(cfg: Adapter, row: Row, h: History, w: WorkerId, ctx: Context) {
    && Evolves(Snapshot(ctx.version, Some(ctx.base)), row.Snap())
    && ctx.base.operationId == ctx.op
    && !Terminal(ctx.base.phase)
    && (ctx.mode.Publish? ==> !ctx.base.phase.ProcessingRemote?)
    && (Disciplined(cfg) && ctx.permit ==> h.permits == [w] && h.mutations == [])
  }

  predicate GoalOk(cfg: Adapter, ctx: Context, goal: Goal, expected: Phase) {
    && (goal.Finalize? ==> ctx.mode.Publish? || cfg.finalizesOnPoll)
    && (goal.Processing? && expected.PublishRequested? ==> cfg.asyncAfterFinal)
    && !ctx.permit
  }

  predicate WorkerOk(cfg: Adapter, row: Row, h: History, w: WorkerId, k: Worker) {
    match k
    case Loaded(job, seen) => Evolves(seen.Snap(), row.Snap()) && seen.version == job.version
    case Starting(v) => Evolves(Snapshot(v, None), row.Snap())
    case Owned(ctx) => ContextOk(cfg, row, h, w, ctx) && !ctx.permit
    case Attached(ctx) => ContextOk(cfg, row, h, w, ctx) && !ctx.permit
    case Running(ctx) => ContextOk(cfg, row, h, w, ctx)
    case Seeking(ctx, goal, expected) => ContextOk(cfg, row, h, w, ctx) && GoalOk(cfg, ctx, goal, expected)
    case Checked(ctx, goal, expected, now, next) =>
      && ContextOk(cfg, row, h, w, ctx) && GoalOk(cfg, ctx, goal, expected)
      && Plan(Snapshot(ctx.version, Some(ctx.base)), ctx, goal, expected, now) == Ok(next)
    case Fenced(category) => EarlyCategory(category)
    case Closing(_, status, category) => status.Failed? || (status.Unknown? && category.UnknownResult?)
    case _ => true
  }

  predicate RecoveryOk(row: Row, h: History, rec: Recovery) {
    rec.meta.Some? ==>
      && row.meta.Some? && SameOperation(rec.meta.value, row.meta.value)
      && (!h.recoveredCompleted ==> WellFormed(rec.meta.value))
      && !(WellFormed(rec.meta.value) && rec.meta.value.phase.ProcessingRemote?)
  }

  predicate ReconciliationOk(row: Row, h: History, rec: Reconciliation) {
    && row.meta.Some? && SameOperation(rec.next, row.meta.value) && Terminal(row.meta.value.phase)
    && (!h.recoveredCompleted ==> WellFormed(rec.next))
    && match rec.decision
       case ConfirmPublished(id) => rec.next.phase.Completed? && rec.next.finalRemoteId == Some(id) && id != ""
       case ConfirmFailed => rec.next.phase.Failed?
  }

  ghost predicate Inv(cfg: Adapter, s: State) {
    && RowInv(cfg, s.row, s.h)
    && (forall w | w in s.workers :: WorkerOk(cfg, s.row, s.h, w, s.workers[w]))
    && (forall r | r in s.recoveries :: RecoveryOk(s.row, s.h, s.recoveries[r]))
    && (forall c | c in s.reconciliations :: ReconciliationOk(s.row, s.h, s.reconciliations[c]))
  }

  // ---------------------------------------------------------------- how a commit changes the row

  lemma LogAfter(row: Row, h: History, row': Row, h': History, c: Commit)
    requires LogInv(row, h) && LegalCommit(h.commits, c)
    requires h'.commits == h.commits + [c] && h'.enqueues == h.enqueues
    requires PhaseOf(row') == Some(c.to)
    requires row'.version == row.version + if c.author.ByReconcile? then 0 else 1
    requires Unresolved(h.commits) ==> c.to.PublishRequested? || c.to.ProcessingRemote? || Terminal(c.to)
    ensures LogInv(row', h')
  {
    AppendCommit(h.commits, c);
  }

  lemma ClaimsAfter(row: Row, h: History, row': Row, h': History)
    requires ClaimInv(row, h) && h'.claims == h.claims && row.version <= row'.version
    requires row'.status.Queued? ==> row.status.Queued? || row.version < row'.version
    ensures ClaimInv(row', h')
  {
    assert forall v | v in h.claims :: v <= row.version;
  }

  lemma PermitsAfter(cfg: Adapter, row: Row, h: History, row': Row, h': History)
    requires PermitInv(cfg, row, h) && h'.permits == h.permits && h'.mutations == h.mutations
    requires row.meta.Some? ==> row'.meta.Some? && SameOperation(row.meta.value, row'.meta.value)
    requires row'.meta.Some? && h.permits != [] ==>
      row'.meta == row.meta || Terminal(row'.meta.value.phase)
      || (row'.meta.value.phase.ProcessingRemote? && cfg.asyncAfterFinal)
    ensures PermitInv(cfg, row', h')
  {
  }

  // ---------------------------------------------------------------- framing

  /** What the step of actor `w` may do to the history that other workers rely on. */
  predicate HistoryStep(cfg: Adapter, h: History, h': History, w: Option<WorkerId>) {
    && (h.recoveredCompleted ==> h'.recoveredCompleted)
    && (Disciplined(cfg) ==>
          && (h'.permits == h.permits || h.permits == [])
          && (h'.mutations == h.mutations || (w.Some? && h.permits == [w.value])))
  }

  lemma WorkerStable(cfg: Adapter, row: Row, h: History, row': Row, h': History, a: Option<WorkerId>,
                     w: WorkerId, k: Worker)
    requires Evolves(row.Snap(), row'.Snap()) && HistoryStep(cfg, h, h', a) && a != Some(w)
    requires WorkerOk(cfg, row, h, w, k)
    ensures WorkerOk(cfg, row', h', w, k)
  {
    match k {
      case Loaded(job, seen) => EvolvesTransitive(seen.Snap(), row.Snap(), row'.Snap());
      case Starting(v) => EvolvesTransitive(Snapshot(v, None), row.Snap(), row'.Snap());
      case Owned(ctx) => ContextStable(cfg, row, h, row', h', a, w, ctx);
      case Attached(ctx) => ContextStable(cfg, row, h, row', h', a, w, ctx);
      case Running(ctx) => ContextStable(cfg, row, h, row', h', a, w, ctx);
      case Seeking(ctx, _, _) => ContextStable(cfg, row, h, row', h', a, w, ctx);
      case Checked(ctx, _, _, _, _) => ContextStable(cfg, row, h, row', h', a, w, ctx);
      case _ =>
    }
  }

  lemma ContextStable(cfg: Adapter, row: Row, h: History, row': Row, h': History, a: Option<WorkerId>,
                      w: WorkerId, ctx: Context)
    requires Evolves(row.Snap(), row'.Snap()) && HistoryStep(cfg, h, h', a) && a != Some(w)
    requires ContextOk(cfg, row, h, w, ctx)
    ensures ContextOk(cfg, row', h', w, ctx)
  {
    EvolvesTransitive(Snapshot(ctx.version, Some(ctx.base)), row.Snap(), row'.Snap());
  }

  /** A step is sound when it moves the row along `Evolves`, keeps the row invariant, and leaves the
      record of its own actor in order: everyone else is then safe by stability. */
  lemma Frame(cfg: Adapter, s: State, s': State, a: Option<WorkerId>)
    requires Inv(cfg, s)
    requires RowInv(cfg, s'.row, s'.h)
    requires Evolves(s.row.Snap(), s'.row.Snap()) && HistoryStep(cfg, s.h, s'.h, a)
    requires forall w | w in s'.workers ::
      if a == Some(w) then WorkerOk(cfg, s'.row, s'.h, w, s'.workers[w])
      else w in s.workers && s'.workers[w] == s.workers[w]
    requires forall r | r in s'.recoveries ::
      (r in s.recoveries && s'.recoveries[r] == s.recoveries[r]) || RecoveryOk(s'.row, s'.h, s'.recoveries[r])
    requires forall c | c in s'.reconciliations ::
      (c in s.reconciliations && s'.reconciliations[c] == s.reconciliations[c])
      || ReconciliationOk(s'.row, s'.h, s'.reconciliations[c])
    ensures Inv(cfg, s')
  {
    forall w | w in s'.workers
      ensures WorkerOk(cfg, s'.row, s'.h, w, s'.workers[w])
    {
      if a != Some(w) {
        WorkerStable(cfg, s.row, s.h, s'.row, s'.h, a, w, s.workers[w]);
      }
    }
  }

  // ---------------------------------------------------------------- API, dispatcher, operator

  lemma EnqueueInv(cfg: Adapter, s: State)
    requires Inv(cfg, s)
    ensures Inv(cfg, Enqueue(s)) && Evolves(s.row.Snap(), Enqueue(s).row.Snap())
  {
    Frame(cfg, s, Enqueue(s), None);
  }

  lemma CommandInv(cfg: Adapter, s: State, c: PS.Command)
    requires Inv(cfg, s)
    ensures Inv(cfg, DoCommand(s, c)) && Evolves(s.row.Snap(), DoCommand(s, c).row.Snap())
  {
    if s.row.status in PS.Sources(c) && PS.Target(c).Queued? {
      EnqueueInv(cfg, s);
    } else {
      Frame(cfg, s, DoCommand(s, c), None);
    }
  }

  lemma DeleteWriteInv(cfg: Adapter, s: State, deleted: bool)
    requires Inv(cfg, s)
    ensures Inv(cfg, DeleteWrite(s, deleted)) && Evolves(s.row.Snap(), DeleteWrite(s, deleted).row.Snap())
  {
    Frame(cfg, s, DeleteWrite(s, deleted), None);
  }

  lemma RecoverReadInv(cfg: Adapter, s: State, r: nat, a: nat)
    requires Inv(cfg, s)
    ensures Inv(cfg, RecoverRead(s, r, a)) && RecoverRead(s, r, a).row == s.row
  {
    Frame(cfg, s, RecoverRead(s, r, a), None);
  }

  lemma RecoverCommitInv(cfg: Adapter, s: State, r: nat)
    requires Inv(cfg, s)
    ensures Inv(cfg, RecoverCommit(s, r)) && Evolves(s.row.Snap(), RecoverCommit(s, r).row.Snap())
  {
    if r in s.recoveries && s.row.status.Publishing? && s.recoveries[r].meta.Some? {
      RecoverRowInv(cfg, s, r);
      Frame(cfg, s, RecoverCommit(s, r), None);
    } else {
      RecoverStatusInv(cfg, s, r);
    }
  }

  /** A recovery that finds no metadata, or comes too late. */
  lemma RecoverStatusInv(cfg: Adapter, s: State, r: nat)
    requires Inv(cfg, s)
    requires !(r in s.recoveries && s.row.status.Publishing? && s.recoveries[r].meta.Some?)
    ensures Inv(cfg, RecoverCommit(s, r)) && Evolves(s.row.Snap(), RecoverCommit(s, r).row.Snap())
  {
    StatusRowInv(cfg, s.row, s.h, PS.Unknown);
    Frame(cfg, s, RecoverCommit(s, r), None);
  }

  lemma RecoverRowInv(cfg: Adapter, s: State, r: nat)
    requires Inv(cfg, s)
    requires r in s.recoveries && s.row.status.Publishing? && s.recoveries[r].meta.Some?
    ensures var s' := RecoverCommit(s, r);
      RowInv(cfg, s'.row, s'.h) && Evolves(s.row.Snap(), s'.row.Snap())
  {
    var s' := RecoverCommit(s, r);
    assert RecoveryOk(s.row, s.h, s.recoveries[r]);
    LogAfter(s.row, s.h, s'.row, s'.h, Commit(ByRecovery, PhaseOf(s.row), Phase.Ambiguous));
    ClaimsAfter(s.row, s.h, s'.row, s'.h);
    PermitsAfter(cfg, s.row, s.h, s'.row, s'.h);
  }

  lemma ReconcileReadInv(cfg: Adapter, s: State, c: nat, d: Decision)
    requires Inv(cfg, s)
    ensures Inv(cfg, ReconcileRead(s, c, d)) && ReconcileRead(s, c, d).row == s.row
  {
    var plan := PlanReconcile(s.row, d);
    if plan.Some? {
      ReconcilePlanOk(cfg, s.row, s.h, d);
      Frame(cfg, s, ReconcileRead(s, c, d), None);
    }
  }

  lemma ReconcilePlanOk(cfg: Adapter, row: Row, h: History, d: Decision)
    requires RowInv(cfg, row, h) && PlanReconcile(row, d).Some?
    ensures ReconciliationOk(row, h, PlanReconcile(row, d).value)
  {
  }

  lemma ReconcileCommitInv(cfg: Adapter, s: State, c: nat)
    requires Inv(cfg, s)
    ensures Inv(cfg, ReconcileCommit(s, c)) && Evolves(s.row.Snap(), ReconcileCommit(s, c).row.Snap())
  {
    if c in s.reconciliations && ReconcileCommits(s, c) {
      ReconcileRowInv(cfg, s, c);
    }
    Frame(cfg, s, ReconcileCommit(s, c), None);
  }

  lemma ReconcileRowInv(cfg: Adapter, s: State, c: nat)
    requires Inv(cfg, s) && c in s.reconciliations && ReconcileCommits(s, c)
    ensures var s' := ReconcileCommit(s, c);
      RowInv(cfg, s'.row, s'.h) && Evolves(s.row.Snap(), s'.row.Snap())
  {
    var s' := ReconcileCommit(s, c);
    assert ReconciliationOk(s.row, s.h, s.reconciliations[c]);
    LogAfter(s.row, s.h, s'.row, s'.h, Commit(ByReconcile, PhaseOf(s.row), s.reconciliations[c].next.phase));
    ClaimsAfter(s.row, s.h, s'.row, s'.h);
    PermitsAfter(cfg, s.row, s.h, s'.row, s'.h);
  }

  // ---------------------------------------------------------------- workers

  /** The step of worker `w`, given what it leaves in the row, the attempts and its own record. */
  lemma WorkerStep(cfg: Adapter, s: State, row': Row, attempts': seq<Attempt>, h': History, w: WorkerId, k: Worker)
    requires Inv(cfg, s)
    requires RowInv(cfg, row', h') && Evolves(s.row.Snap(), row'.Snap()) && HistoryStep(cfg, s.h, h', Some(w))
    requires WorkerOk(cfg, row', h', w, k)
    ensures Inv(cfg, Put(s.(row := row', attempts := attempts', h := h'), w, k))
  {
    Frame(cfg, s, Put(s.(row := row', attempts := attempts', h := h'), w, k), Some(w));
  }

  lemma LocalInv(cfg: Adapter, s: State, w: WorkerId, k: Worker)
    requires Inv(cfg, s) && WorkerOk(cfg, s.row, s.h, w, k)
    ensures Inv(cfg, Put(s, w, k))
  {
    WorkerStep(cfg, s, s.row, s.attempts, s.h, w, k);
  }

  /** Status writes touch nothing the invariant speaks of, unless they enter QUEUED. */
  lemma StatusRowInv(cfg: Adapter, row: Row, h: History, status: PS.PostStatus)
    requires RowInv(cfg, row, h) && !status.Queued?
    ensures RowInv(cfg, row.(status := status), h)
    ensures Evolves(row.Snap(), row.(status := status).Snap())
  {
  }

  lemma ActorOk(cfg: Adapter, s: State, w: WorkerId)
    requires Inv(cfg, s)
    ensures WorkerOk(cfg, s.row, s.h, w, At(s, w))
  {
    if w in s.workers {
      assert WorkerOk(cfg, s.row, s.h, w, s.workers[w]);
    }
  }

  lemma DeliverInv(cfg: Adapter, s: State, w: WorkerId, job: Job)
    requires Inv(cfg, s)
    ensures Inv(cfg, Deliver(s, w, job)) && Deliver(s, w, job).row == s.row
  {
    if Deliver(s, w, job) != s {
      LocalInv(cfg, s, w, Loaded(job, s.row));
    }
  }

  lemma EarlyFailInv(cfg: Adapter, s: State, w: WorkerId, c: Category)
    requires Inv(cfg, s)
    ensures Inv(cfg, EarlyFail(s, w, c)) && Evolves(s.row.Snap(), EarlyFail(s, w, c).row.Snap())
  {
    if At(s, w).Loaded? && EarlyCategory(c) {
      StatusRowInv(cfg, s.row, s.h, PS.Failed);
      WorkerStep(cfg, s, s.row.(status := PS.Failed), s.attempts, s.h, w, Fenced(c));
    }
  }

  lemma RecordEarlyInv(cfg: Adapter, s: State, w: WorkerId)
    requires Inv(cfg, s)
    ensures Inv(cfg, RecordEarly(s, w)) && RecordEarly(s, w).row == s.row
  {
    if At(s, w).Fenced? {
      WorkerStep(cfg, s, s.row, s.attempts + [Attempt(AttemptFailed, Some(At(s, w).category))], s.h, w, Idle);
    }
  }

  lemma ClaimInvStep(cfg: Adapter, s: State, w: WorkerId)
    requires Inv(cfg, s)
    ensures Inv(cfg, Claim(s, w)) && Evolves(s.row.Snap(), Claim(s, w).row.Snap())
  {
    if At(s, w).Loaded? && At(s, w).seen.status.Queued? {
      var job := At(s, w).job;
      if s.row.status.Queued? && s.row.version == job.version {
        ClaimRowInv(cfg, s.row, s.h);
        WorkerStep(cfg, s, s.row.(status := PS.Publishing), s.attempts,
                   s.h.(claims := s.h.claims + [job.version]), w, Claimed);
      } else {
        LocalInv(cfg, s, w, Idle);
      }
    }
  }

  lemma ClaimRowInv(cfg: Adapter, row: Row, h: History)
    requires RowInv(cfg, row, h) && row.status.Queued?
    ensures var row' := row.(status := PS.Publishing);
      RowInv(cfg, row', h.(claims := h.claims + [row.version])) && Evolves(row.Snap(), row'.Snap())
  {
  }

  lemma StartReadInv(cfg: Adapter, s: State, w: WorkerId)
    requires Inv(cfg, s)
    ensures Inv(cfg, StartRead(s, w)) && StartRead(s, w).row == s.row
  {
    if At(s, w).Claimed? {
      LocalInv(cfg, s, w, if s.row.meta.Some? then Idle else Starting(s.row.version));
    }
  }

  lemma StartCommitInv(cfg: Adapter, s: State, w: WorkerId, op: OperationId)
    requires Inv(cfg, s)
    ensures Inv(cfg, StartCommit(cfg, s, w, op)) && Evolves(s.row.Snap(), StartCommit(cfg, s, w, op).row.Snap())
  {
    if At(s, w).Starting? {
      ActorOk(cfg, s, w);
      if s.row.version == At(s, w).readVersion {
        Started(cfg, s, w, op);
      } else {
        LocalInv(cfg, s, w, Idle);
      }
    }
  }

  lemma Started(cfg: Adapter, s: State, w: WorkerId, op: OperationId)
    requires Inv(cfg, s) && At(s, w) == Starting(s.row.version) && s.row.meta.None?
    ensures Inv(cfg, StartCommit(cfg, s, w, op)) && Evolves(s.row.Snap(), StartCommit(cfg, s, w, op).row.Snap())
  {
    var m := Fresh(op, cfg.provider);
    var row' := s.row.(meta := Some(m), version := s.row.version + 1);
    var h' := s.h.(commits := s.h.commits + [Commit(ByStart(w), None, Initiated)]);
    var k := Owned(Context(op, row'.version, Publish, Initiated, 0, false, m));
    StartRowInv(cfg, s.row, s.h, row', h', w, m);
    StartWorkerOk(cfg, row', h', w, op, m);
    WorkerStep(cfg, s, row', s.attempts, h', w, k);
    assert StartCommit(cfg, s, w, op) == Put(s.(row := row', attempts := s.attempts, h := h'), w, k);
  }

  lemma StartWorkerOk(cfg: Adapter, row: Row, h: History, w: WorkerId, op: OperationId, m: Metadata)
    requires RowInv(cfg, row, h) && row.meta == Some(m) && m == Fresh(op, cfg.provider)
    ensures WorkerOk(cfg, row, h, w, Owned(Context(op, row.version, Publish, Initiated, 0, false, m)))
  {
  }

  lemma StartRowInv(cfg: Adapter, row: Row, h: History, row': Row, h': History, w: WorkerId, m: Metadata)
    requires RowInv(cfg, row, h) && row.meta.None?
    requires m == Fresh(m.operationId, m.provider)
    requires row' == row.(meta := Some(m), version := row.version + 1)
    requires h' == h.(commits := h.commits + [Commit(ByStart(w), None, Initiated)])
    ensures RowInv(cfg, row', h') && Evolves(row.Snap(), row'.Snap())
  {
    LogAfter(row, h, row', h', Commit(ByStart(w), None, Initiated));
    ClaimsAfter(row, h, row', h');
    PermitsAfter(cfg, row, h, row', h');
  }

  lemma ContinueWorkerOk(cfg: Adapter, s: State, w: WorkerId)
    requires At(s, w).Loaded? && At(s, w).seen.status.Publishing? && WorkerOk(cfg, s.row, s.h, w, At(s, w))
    ensures WorkerOk(cfg, s.row, s.h, w, At(Continue(s, w), w))
  {
  }

  lemma ContinueInv(cfg: Adapter, s: State, w: WorkerId)
    requires Inv(cfg, s)
    ensures Inv(cfg, Continue(s, w)) && Continue(s, w).row == s.row
  {
    if At(s, w).Loaded? {
      ActorOk(cfg, s, w);
      if Continue(s, w) != s {
        ContinueWorkerOk(cfg, s, w);
        LocalInv(cfg, s, w, At(Continue(s, w), w));
      }
    }
  }

  lemma AttachInv(cfg: Adapter, s: State, w: WorkerId, reuse: Option<nat>)
    requires Inv(cfg, s)
    ensures Inv(cfg, Attach(s, w, reuse)) && Attach(s, w, reuse).row == s.row
  {
    if At(s, w).Owned? {
      ActorOk(cfg, s, w);
      var ctx := At(s, w).ctx;
      if reuse.Some? && reuse.value < |s.attempts| {
        LocalInv(cfg, s, w, Attached(ctx.(attempt := reuse.value)));
      } else {
        WorkerStep(cfg, s, s.row, s.attempts + [Attempt(InProgress, None)], s.h, w,
                   Attached(ctx.(attempt := |s.attempts|)));
      }
    }
  }

  lemma InvokeInv(cfg: Adapter, s: State, w: WorkerId, revoked: bool)
    requires Inv(cfg, s)
    ensures Inv(cfg, Invoke(s, w, revoked)) && Invoke(s, w, revoked).row == s.row
  {
    if At(s, w).Attached? {
      ActorOk(cfg, s, w);
      var ctx := At(s, w).ctx;
      LocalInv(cfg, s, w,
               if ctx.mode.Guard? then Seeking(ctx, StopRetry, PublishRequested)
               else if revoked then Closing(ctx.attempt, PS.Failed, AuthRequired)
               else Running(ctx));
    }
  }

  lemma HookInv(cfg: Adapter, s: State, w: WorkerId, goal: Goal)
    requires Inv(cfg, s)
    ensures Inv(cfg, Hook(cfg, s, w, goal)) && Hook(cfg, s, w, goal).row == s.row
  {
    if At(s, w).Running? && Hook(cfg, s, w, goal) != s {
      ActorOk(cfg, s, w);
      var ctx := At(s, w).ctx;
      LocalInv(cfg, s, w,
               if s.row.meta.None? then Idle else Seeking(ctx.(permit := false), goal, s.row.meta.value.phase));
    }
  }

  lemma MutateInv(cfg: Adapter, s: State, w: WorkerId)
    requires Inv(cfg, s)
    ensures Inv(cfg, Mutate(s, w)) && Mutate(s, w).row == s.row
  {
    if At(s, w).Running? && At(s, w).ctx.permit {
      ActorOk(cfg, s, w);
      var ctx := At(s, w).ctx;
      WorkerStep(cfg, s, s.row, s.attempts, s.h.(mutations := s.h.mutations + [ctx.op]), w,
                 Running(ctx.(permit := false)));
    }
  }

  lemma FinishInv(cfg: Adapter, s: State, w: WorkerId, result: AdapterResult)
    requires Inv(cfg, s)
    ensures Inv(cfg, Finish(cfg, s, w, result)) && Finish(cfg, s, w, result).row == s.row
  {
    if At(s, w).Running? && Finish(cfg, s, w, result) != s {
      ActorOk(cfg, s, w);
      LocalInv(cfg, s, w, Conclude(At(s, w).ctx, result));
    }
  }

  lemma CheckInv(cfg: Adapter, s: State, w: WorkerId, now: Millis)
    requires Inv(cfg, s)
    ensures Inv(cfg, Check(s, w, now)) && Check(s, w, now).row == s.row
  {
    if At(s, w).Seeking? {
      var Seeking(ctx, goal, expected) := At(s, w);
      ActorOk(cfg, s, w);
      var plan := Plan(s.row.Snap(), ctx, goal, expected, now);
      if plan.Ok? {
        LocalInv(cfg, s, w, Checked(ctx, goal, expected, now, plan.value));
      } else {
        LocalInv(cfg, s, w, Refused(ctx, goal));
      }
    }
  }

  /** A transition that commits does so on exactly the row its plan was made for. */
  lemma CommitStepInv(cfg: Adapter, s: State, w: WorkerId)
    requires Inv(cfg, s)
    ensures Inv(cfg, CommitStep(s, w)) && Evolves(s.row.Snap(), CommitStep(s, w).row.Snap())
  {
    if At(s, w).Checked? {
      var Checked(ctx, goal, expected, now, next) := At(s, w);
      ActorOk(cfg, s, w);
      if s.row.version != ctx.version {
        LocalInv(cfg, s, w, Refused(ctx, goal));
      } else {
        CheckedPlan(cfg, s.row, s.h, w, ctx, goal, expected, now, next);
        TransitionRowInv(cfg, s.row, s.h, w, ctx, goal, next);
        TransitionWorkerOk(cfg, s.row, s.h, w, ctx, goal, next);
        WorkerStep(cfg, s, CommittedRow(s.row, goal, next), CommittedAttempts(s.attempts, ctx.attempt, goal),
                   CommittedHistory(s.row, s.h, w, goal, next), w, Accepted(w, ctx, goal, next));
      }
    }
  }

  /** The facts a successful plan gives about the value it writes. */
  predicate PlannedFrom(cfg: Adapter, ctx: Context, goal: Goal, next: Metadata) {
    && next.phase == NextPhase(goal) && next.phase in Allowed(ctx.base.phase)
    && SameOperation(ctx.base, next) && WellFormed(next) && PollWindow(next)
    && (goal.Complete? ==> Present(next.finalRemoteId) && next.finalRemoteId == goal.finalId)
    && (goal.Finalize? ==> ctx.mode.Publish? || cfg.finalizesOnPoll)
    && (goal.Processing? && ctx.base.phase.PublishRequested? ==> cfg.asyncAfterFinal)
  }

  lemma CheckedPlan(cfg: Adapter, row: Row, h: History, w: WorkerId, ctx: Context, goal: Goal, expected: Phase,
                    now: Millis, next: Metadata)
    requires WorkerOk(cfg, row, h, w, Checked(ctx, goal, expected, now, next))
    ensures PlannedFrom(cfg, ctx, goal, next)
  {
    PlanIsLegal(Snapshot(ctx.version, Some(ctx.base)), ctx.op, expected, NextPhase(goal), ctx.version,
                DataOf(goal), now);
  }

  lemma TransitionRowInv(cfg: Adapter, row: Row, h: History, w: WorkerId, ctx: Context, goal: Goal, next: Metadata)
    requires RowInv(cfg, row, h) && ContextOk(cfg, row, h, w, ctx) && row.version == ctx.version
    requires PlannedFrom(cfg, ctx, goal, next)
    ensures var row', h' := CommittedRow(row, goal, next), CommittedHistory(row, h, w, goal, next);
      RowInv(cfg, row', h') && Evolves(row.Snap(), row'.Snap()) && HistoryStep(cfg, h, h', Some(w))
  {
    var row', h' := CommittedRow(row, goal, next), CommittedHistory(row, h, w, goal, next);
    assert row.meta == Some(ctx.base);
    LogAfter(row, h, row', h', Commit(ByTransition(w), PhaseOf(row), next.phase));
    ClaimsAfter(row, h, row', h');
    if goal.Finalize? {
      assert Disciplined(cfg) ==> h.permits == [];
    } else {
      PermitsAfter(cfg, row, h, row', h');
    }
  }

  lemma TransitionWorkerOk(cfg: Adapter, row: Row, h: History, w: WorkerId, ctx: Context, goal: Goal, next: Metadata)
    requires RowInv(cfg, row, h) && ContextOk(cfg, row, h, w, ctx) && row.version == ctx.version && !ctx.permit
    requires PlannedFrom(cfg, ctx, goal, next)
    ensures WorkerOk(cfg, CommittedRow(row, goal, next), CommittedHistory(row, h, w, goal, next), w,
                     Accepted(w, ctx, goal, next))
  {
    assert row.meta == Some(ctx.base);
    if goal.Finalize? {
      assert Disciplined(cfg) ==> h.permits == [] && h.mutations == [];
    }
  }

  lemma CloseInv(cfg: Adapter, s: State, w: WorkerId)
    requires Inv(cfg, s)
    ensures Inv(cfg, Close(s, w)) && Evolves(s.row.Snap(), Close(s, w).row.Snap())
  {
    if At(s, w).Closing? {
      ActorOk(cfg, s, w);
      var Closing(a, status, category) := At(s, w);
      StatusRowInv(cfg, s.row, s.h, status);
      WorkerStep(cfg, s, s.row.(status := status),
                 SetAttempt(s.attempts, a, Attempt(AttemptFailed, Some(category))), s.h, w, Idle);
    }
  }

  // ---------------------------------------------------------------- every step, every run

  /** The worker that takes the step, if a worker does. */
  function ActorOf(e: Event): Option<WorkerId> {
    match e
    case EvDeliver(w, _) => Some(w)
    case EvEarlyFail(w, _) => Some(w)
    case EvRecordEarly(w) => Some(w)
    case EvClaim(w) => Some(w)
    case EvStartRead(w) => Some(w)
    case EvStartCommit(w, _) => Some(w)
    case EvContinue(w) => Some(w)
    case EvAttach(w, _) => Some(w)
    case EvInvoke(w, _) => Some(w)
    case EvHook(w, _) => Some(w)
    case EvMutate(w) => Some(w)
    case EvFinish(w, _) => Some(w)
    case EvCheck(w, _) => Some(w)
    case EvCommit(w) => Some(w)
    case EvClose(w) => Some(w)
    case EvCrash(w) => Some(w)
    case _ => None
  }

  /** The steps by which a worker comes to own the operation. */
  predicate Enters(e: Event) {
    e.EvDeliver? || e.EvEarlyFail? || e.EvRecordEarly? || e.EvClaim? || e.EvStartRead? || e.EvStartCommit? || e.EvContinue?
  }

  lemma OutsideStepInv(cfg: Adapter, s: State, e: Event)
    requires Inv(cfg, s) && ActorOf(e).None?
    ensures Inv(cfg, Step(cfg, s, e)) && Evolves(s.row.Snap(), Step(cfg, s, e).row.Snap())
  {
    match e {
      case EvCommand(c) => CommandInv(cfg, s, c);
      case EvPromote => if s.row.status.Scheduled? { EnqueueInv(cfg, s); }
      case EvDeleteWrite(deleted) => DeleteWriteInv(cfg, s, deleted);
      case EvRecoverRead(r, a) => RecoverReadInv(cfg, s, r, a);
      case EvRecoverCommit(r) => RecoverCommitInv(cfg, s, r);
      case EvReconcileRead(c, d) => ReconcileReadInv(cfg, s, c, d);
      case EvReconcileCommit(c) => ReconcileCommitInv(cfg, s, c);
    }
  }

  lemma EntryStepInv(cfg: Adapter, s: State, e: Event)
    requires Inv(cfg, s) && Enters(e)
    ensures Inv(cfg, Step(cfg, s, e)) && Evolves(s.row.Snap(), Step(cfg, s, e).row.Snap())
  {
    match e {
      case EvClaim(w) => ClaimInvStep(cfg, s, w);
      case EvStartRead(w) => StartReadInv(cfg, s, w);
      case EvStartCommit(w, op) => StartCommitInv(cfg, s, w, op);
      case EvContinue(w) => ContinueInv(cfg, s, w);
      case _ => EarlyStepInv(cfg, s, e);
    }
  }

  lemma EarlyStepInv(cfg: Adapter, s: State, e: Event)
    requires Inv(cfg, s) && (e.EvDeliver? || e.EvEarlyFail? || e.EvRecordEarly?)
    ensures Inv(cfg, Step(cfg, s, e)) && Evolves(s.row.Snap(), Step(cfg, s, e).row.Snap())
  {
    match e {
      case EvDeliver(w, job) => DeliverInv(cfg, s, w, job);
      case EvEarlyFail(w, c) => EarlyFailInv(cfg, s, w, c);
      case EvRecordEarly(w) => RecordEarlyInv(cfg, s, w);
    }
  }

  lemma StepInv(cfg: Adapter, s: State, e: Event)
    requires Inv(cfg, s)
    ensures Inv(cfg, Step(cfg, s, e)) && Evolves(s.row.Snap(), Step(cfg, s, e).row.Snap())
  {
    if ActorOf(e).None? {
      OutsideStepInv(cfg, s, e);
    } else if Enters(e) {
      EntryStepInv(cfg, s, e);
    } else {
      match e {
        case EvAttach(w, reuse) => AttachInv(cfg, s, w, reuse);
        case EvInvoke(w, revoked) => InvokeInv(cfg, s, w, revoked);
        case EvHook(w, goal) => HookInv(cfg, s, w, goal);
        case EvMutate(w) => MutateInv(cfg, s, w);
        case EvFinish(w, result) => FinishInv(cfg, s, w, result);
        case EvCheck(w, now) => CheckInv(cfg, s, w, now);
        case EvCommit(w) => CommitStepInv(cfg, s, w);
        case EvClose(w) => CloseInv(cfg, s, w);
        case EvCrash(w) => LocalInv(cfg, s, w, Idle);
      }
    }
  }

  lemma {:induction false} RunInv(cfg: Adapter, s: State, es: seq<Event>)
    requires Inv(cfg, s)
    ensures Inv(cfg, Run(cfg, s, es)) && Evolves(s.row.Snap(), Run(cfg, s, es).row.Snap())
    decreases |es|
  {
    if es != [] {
      var s1 := Step(cfg, s, es[0]);
      StepInv(cfg, s, es[0]);
      RunInv(cfg, s1, es[1..]);
      EvolvesTransitive(s.row.Snap(), s1.row.Snap(), Run(cfg, s, es).row.Snap());
    }
  }
}
