/** What the invariant of the publish protocol means for every run. */
module PublishTheorems {
  import opened Wrappers
  import opened ExecutionMetadata
  import opened PublishProtocol
  import opened PublishInvariant
  import opened PublishRuns
  import PS = PublicationStatus

  lemma ReachableInv(cfg: Adapter, es: seq<Event>)
    ensures Inv(cfg, Run(cfg, INITIAL, es))
  {
    RunInv(cfg, INITIAL, es);
  }

  // ---------------------------------------------------------------- at most one publication

  /** Whatever the schedule, the crashes, the duplicated and stale jobs, the recoveries and the
      retries: a disciplined adapter issues at most one final mutation, and it belongs to the one
      operation the row carries. */
  lemma AtMostOncePublish(cfg: Adapter, es: seq<Event>)
    requires Disciplined(cfg)
    ensures var s := Run(cfg, INITIAL, es);
      && |s.h.mutations| <= 1
      && forall op | op in s.h.mutations :: s.row.meta.Some? && s.row.meta.value.operationId == op
  {
    ReachableInv(cfg, es);
  }

  /** The adapters the platform registers.  A poll leads Instagram, and only it, to finalizePublish, and its
      answer after the final mutation is final; YouTube is still processing then, and has no finalizePublish;
      Facebook, which also serves the name meta, never becomes ready by a poll, and LinkedIn cannot be polled. */
  const FACEBOOK := Adapter(Facebook, false, false)
  const INSTAGRAM := Adapter(Instagram, true, false)
  const LINKEDIN := Adapter(LinkedIn, false, false)
  const YOUTUBE := Adapter(YouTube, false, true)

  lemma RegisteredAdaptersPublishAtMostOnce(cfg: Adapter, es: seq<Event>)
    requires cfg in {FACEBOOK, INSTAGRAM, LINKEDIN, YOUTUBE}
    ensures |Run(cfg, INITIAL, es).h.mutations| <= 1
  {
    AtMostOncePublish(cfg, es);
  }

  /** The discipline of the adapter is exactly what at-most-once publishing needs: without it some
      run mutates twice. */
  lemma AtMostOnceExactly(cfg: Adapter)
    ensures (forall s | Reachable(cfg, s) :: |s.h.mutations| <= 1) <==> Disciplined(cfg)
  {
    if Disciplined(cfg) {
      forall s | Reachable(cfg, s)
        ensures |s.h.mutations| <= 1
      {
        var es :| Run(cfg, INITIAL, es) == s;
        AtMostOncePublish(cfg, es);
      }
    } else {
      var s := ReachesTwoMutations(cfg);
      assert Reachable(cfg, s) && |s.h.mutations| == 2;
    }
  }

  // ---------------------------------------------------------------- the read and the write as one

  /** A transition whose compare-and-swap succeeds has the effect of reading, checking and writing
      in one atomic step at the moment of the commit, whatever ran in between. */
  lemma SplitStepRefinement(cfg: Adapter, es: seq<Event>, w: WorkerId)
    requires var s := Run(cfg, INITIAL, es);
      At(s, w).Checked? && s.row.version == At(s, w).ctx.version
    ensures var s := Run(cfg, INITIAL, es);
      var k := At(s, w);
      && Plan(s.row.Snap(), k.ctx, k.goal, k.expected, k.now) == Ok(k.next)
      && CommitStep(s, w) == CommitStep(Check(Put(s, w, Seeking(k.ctx, k.goal, k.expected)), w, k.now), w)
  {
    var s := Run(cfg, INITIAL, es);
    var k := At(s, w);
    ReachableInv(cfg, es);
    ActorOk(cfg, s, w);
    PlanSurvives(Snapshot(k.ctx.version, Some(k.ctx.base)), s.row.Snap(), k.ctx.op, k.expected, NextPhase(k.goal),
                 k.ctx.version, DataOf(k.goal), k.now);
    var s1 := Put(s, w, Seeking(k.ctx, k.goal, k.expected));
    assert Check(s1, w, k.now) == Put(s1, w, k);
    assert s1.workers[w := k] == s.workers;
  }

  /** The same for startOperation: the row a start commits on still has no metadata. */
  lemma StartIsAtomic(cfg: Adapter, es: seq<Event>, w: WorkerId)
    requires var s := Run(cfg, INITIAL, es);
      At(s, w).Starting? && s.row.version == At(s, w).readVersion
    ensures Run(cfg, INITIAL, es).row.meta.None?
  {
    ReachableInv(cfg, es);
    ActorOk(cfg, Run(cfg, INITIAL, es), w);
  }

  // ---------------------------------------------------------------- fencing

  function ContextOf(k: Worker): Option<Context> {
    match k
    case Owned(ctx) => Some(ctx)
    case Attached(ctx) => Some(ctx)
    case Running(ctx) => Some(ctx)
    case Seeking(ctx, _, _) => Some(ctx)
    case Checked(ctx, _, _, _, _) => Some(ctx)
    case _ => None
  }

  /** The worker has lost the row: what it read or holds is of an older version, it has claimed a row that
      already carries an operation, or it has given up. */
  predicate Behind(s: State, w: WorkerId) {
    match At(s, w)
    case Loaded(_, seen) => seen.version < s.row.version
    case Claimed => s.row.meta.Some?
    case Starting(readVersion) => readVersion < s.row.version
    case Idle => true
    case Fenced(_) => true
    case Closing(_, _, _) => true
    case _ => ContextOf(At(s, w)).Some? && ContextOf(At(s, w)).value.version < s.row.version
  }

  /** The starts and transitions worker `w` has committed. */
  function CommitsOf(log: seq<Commit>, w: WorkerId): nat {
    if log == [] then 0
    else CommitsOf(log[..|log| - 1], w) + if IsBy(log[|log| - 1].author, w) then 1 else 0
  }

  predicate IsBy(author: Author, w: WorkerId) {
    author == ByStart(w) || author == ByTransition(w)
  }

  lemma CommitsOfAppend(log: seq<Commit>, c: Commit, w: WorkerId)
    ensures CommitsOf(log + [c], w) == CommitsOf(log, w) + if IsBy(c.author, w) then 1 else 0
  {
    assert (log + [c])[..|log + [c]| - 1] == log;
  }

  predicate Extends(log: seq<Commit>, log': seq<Commit>) {
    log' == log || (|log'| == |log| + 1 && log' == log + [log'[|log|]])
  }

  /** The commits and permits of a single step. */
  ghost predicate CommitsAndPermits(cfg: Adapter, s: State, e: Event, h': History) {
    && Extends(s.h.commits, h'.commits)
    && (forall w | h'.commits != s.h.commits && IsBy(h'.commits[|s.h.commits|].author, w) ::
          || (e == EvCommit(w) && At(s, w).Checked? && At(s, w).ctx.version == s.row.version)
          || (e.EvStartCommit? && e.w == w && At(s, w).Starting? && At(s, w).readVersion == s.row.version))
    && (h'.permits == s.h.permits
        || (e.EvCommit? && h'.permits == s.h.permits + [e.w] && At(s, e.w).Checked?
            && At(s, e.w).ctx.version == s.row.version))
  }

  lemma OutsideCommits(cfg: Adapter, s: State, e: Event)
    requires ActorOf(e).None?
    ensures CommitsAndPermits(cfg, s, e, Step(cfg, s, e).h)
  {
    if e.EvRecoverCommit? {
      RecoveryCommits(cfg, s, e);
    } else if e.EvReconcileCommit? {
      ReconcileCommitsOnce(cfg, s, e);
    } else {
      assert Step(cfg, s, e).h.commits == s.h.commits && Step(cfg, s, e).h.permits == s.h.permits;
    }
  }

  lemma RecoveryCommits(cfg: Adapter, s: State, e: Event)
    requires e.EvRecoverCommit?
    ensures CommitsAndPermits(cfg, s, e, RecoverCommit(s, e.r).h)
  {
  }

  lemma ReconcileCommitsOnce(cfg: Adapter, s: State, e: Event)
    requires e.EvReconcileCommit?
    ensures CommitsAndPermits(cfg, s, e, ReconcileCommit(s, e.c0).h)
  {
  }

  lemma StepCommits(cfg: Adapter, s: State, e: Event)
    ensures CommitsAndPermits(cfg, s, e, Step(cfg, s, e).h)
  {
    if ActorOf(e).None? {
      OutsideCommits(cfg, s, e);
    } else if !e.EvCommit? && !e.EvStartCommit? {
      assert Step(cfg, s, e).h.commits == s.h.commits && Step(cfg, s, e).h.permits == s.h.permits;
    }
  }

  lemma BehindGetsNothing(cfg: Adapter, s: State, e: Event, w: WorkerId)
    requires Behind(s, w)
    ensures var h' := Step(cfg, s, e).h;
      && CommitsOf(h'.commits, w) == CommitsOf(s.h.commits, w)
      && multiset(h'.permits)[w] == multiset(s.h.permits)[w]
  {
    var h' := Step(cfg, s, e).h;
    StepCommits(cfg, s, e);
    if h'.commits != s.h.commits {
      CommitsOfAppend(s.h.commits, h'.commits[|s.h.commits|], w);
    }
  }

  lemma BehindStep(cfg: Adapter, s: State, e: Event, w: WorkerId)
    requires Inv(cfg, s) && Behind(s, w) && !(e.EvDeliver? && e.w == w)
    ensures var s' := Step(cfg, s, e);
      && Behind(s', w)
      && CommitsOf(s'.h.commits, w) == CommitsOf(s.h.commits, w)
      && multiset(s'.h.permits)[w] == multiset(s.h.permits)[w]
  {
    StepInv(cfg, s, e);
    BehindGetsNothing(cfg, s, e, w);
    ActorOk(cfg, s, w);
    BehindLocal(cfg, s, e, w);
  }

  lemma BehindLocal(cfg: Adapter, s: State, e: Event, w: WorkerId)
    requires Behind(s, w) && !(e.EvDeliver? && e.w == w) && WorkerOk(cfg, s.row, s.h, w, At(s, w))
    requires Evolves(s.row.Snap(), Step(cfg, s, e).row.Snap())
    ensures Behind(Step(cfg, s, e), w)
  {
    if ActorOf(e) != Some(w) {
      OthersKeepRecord(cfg, s, e, w);
    } else if Enters(e) {
      BehindCannotEnter(cfg, s, e, w);
    } else {
      BehindCannotCatchUp(cfg, s, e, w);
    }
  }

  lemma BehindCannotEnter(cfg: Adapter, s: State, e: Event, w: WorkerId)
    requires Behind(s, w) && !e.EvDeliver? && Enters(e) && ActorOf(e) == Some(w)
    requires WorkerOk(cfg, s.row, s.h, w, At(s, w)) && s.row.version <= Step(cfg, s, e).row.version
    ensures Behind(Step(cfg, s, e), w)
  {
  }

  lemma BehindCannotCatchUp(cfg: Adapter, s: State, e: Event, w: WorkerId)
    requires Behind(s, w) && !Enters(e) && ActorOf(e) == Some(w) && Evolves(s.row.Snap(), Step(cfg, s, e).row.Snap())
    ensures Behind(Step(cfg, s, e), w)
  {
    if e.EvCommit? {
      BehindCannotCommit(s, w);
    } else if e.EvFinish? || e.EvCheck? || e.EvClose? || e.EvCrash? {
      BehindLeaves(cfg, s, e, w);
    } else {
      BehindProceeds(cfg, s, e, w);
    }
  }

  lemma BehindLeaves(cfg: Adapter, s: State, e: Event, w: WorkerId)
    requires Behind(s, w) && ActorOf(e) == Some(w) && (e.EvFinish? || e.EvCheck? || e.EvClose? || e.EvCrash?)
    ensures Behind(Step(cfg, s, e), w)
  {
  }

  lemma BehindProceeds(cfg: Adapter, s: State, e: Event, w: WorkerId)
    requires Behind(s, w) && ActorOf(e) == Some(w) && (e.EvAttach? || e.EvInvoke? || e.EvHook? || e.EvMutate?)
    ensures Behind(Step(cfg, s, e), w)
  {
  }

  lemma BehindCannotCommit(s: State, w: WorkerId)
    requires Behind(s, w)
    ensures Behind(CommitStep(s, w), w)
  {
  }

  lemma OutsideKeepsRecords(cfg: Adapter, s: State, e: Event)
    requires ActorOf(e).None?
    ensures Step(cfg, s, e).workers == s.workers
  {
  }

  lemma EntryKeepsOthers(cfg: Adapter, s: State, e: Event, w: WorkerId)
    requires Enters(e) && ActorOf(e) != Some(w)
    ensures At(Step(cfg, s, e), w) == At(s, w)
  {
  }

  lemma OthersKeepRecord(cfg: Adapter, s: State, e: Event, w: WorkerId)
    requires ActorOf(e) != Some(w)
    ensures At(Step(cfg, s, e), w) == At(s, w)
  {
    if ActorOf(e).None? {
      OutsideKeepsRecords(cfg, s, e);
    } else if Enters(e) {
      EntryKeepsOthers(cfg, s, e, w);
    }
  }

  /** Once a worker is behind it stays behind: until it accepts a new job, no start, no transition and
      no publish permit it seeks is ever granted. */
  lemma {:induction false} FencedForever(cfg: Adapter, s: State, es: seq<Event>, w: WorkerId)
    requires Inv(cfg, s) && Behind(s, w)
    requires forall e | e in es :: !(e.EvDeliver? && e.w == w)
    ensures var s' := Run(cfg, s, es);
      && Behind(s', w)
      && CommitsOf(s'.h.commits, w) == CommitsOf(s.h.commits, w)
      && multiset(s'.h.permits)[w] == multiset(s.h.permits)[w]
    decreases |es|
  {
    if es != [] {
      BehindStep(cfg, s, es[0], w);
      StepInv(cfg, s, es[0]);
      FencedForever(cfg, Step(cfg, s, es[0]), es[1..], w);
    }
  }

  /** Any commit of another actor that bumps the version, be it a transition, a recovery that
      rewrites metadata or a re-queue, puts every worker that holds the operation behind. */
  lemma OvertakenWorkerIsBehind(cfg: Adapter, s: State, e: Event, w: WorkerId)
    requires Inv(cfg, s) && ContextOf(At(s, w)).Some? && ActorOf(e) != Some(w)
    requires s.row.version < Step(cfg, s, e).row.version
    ensures ContextOf(At(s, w)).value.version <= s.row.version
    ensures Behind(Step(cfg, s, e), w)
  {
    ActorOk(cfg, s, w);
    OthersKeepRecord(cfg, s, e, w);
  }

  /** Which workers a bump of the version by somebody else puts behind: all but those that have claimed and
      not yet read the row again, as long as the row carries no operation. */
  lemma OvertakenExactly(cfg: Adapter, s: State, e: Event, w: WorkerId)
    requires Inv(cfg, s) && ActorOf(e) != Some(w) && s.row.version < Step(cfg, s, e).row.version
    ensures Behind(Step(cfg, s, e), w) <==> !(At(s, w).Claimed? && Step(cfg, s, e).row.meta.None?)
  {
    ActorOk(cfg, s, w);
    OthersKeepRecord(cfg, s, e, w);
  }

  // ---------------------------------------------------------------- one operation, for life

  lemma {:induction false} LegalPrefix(log: seq<Commit>, i: nat)
    requires LegalLog(log) && i < |log|
    ensures LegalLog(log[..i]) && LegalCommit(log[..i], log[i])
    decreases |log|
  {
    if i < |log| - 1 {
      LegalPrefix(log[..|log| - 1], i);
      assert log[..|log| - 1][..i] == log[..i];
    }
  }

  /** A publication starts at most one operation in its whole life, however often it is retried,
      because nothing ever clears its metadata. */
  lemma OneOperationForLife(cfg: Adapter, es: seq<Event>, i: nat)
    requires var log := Run(cfg, INITIAL, es).h.commits; i < |log|
    ensures var log := Run(cfg, INITIAL, es).h.commits;
      log[i].author.ByStart? <==> i == 0
  {
    var log := Run(cfg, INITIAL, es).h.commits;
    ReachableInv(cfg, es);
    LegalPrefix(log, i);
  }

  /** Hence a retry of a finished publication publishes nothing: no permit is ever granted again. */
  lemma {:induction false} FinishedPublicationGrantsNoPermit(cfg: Adapter, s: State, es: seq<Event>)
    requires Inv(cfg, s) && s.row.meta.Some? && Terminal(s.row.meta.value.phase)
    ensures Run(cfg, s, es).h.permits == s.h.permits
    decreases |es|
  {
    if es != [] {
      var s1 := Step(cfg, s, es[0]);
      StepInv(cfg, s, es[0]);
      StepCommits(cfg, s, es[0]);
      if s1.h.permits != s.h.permits {
        ActorOk(cfg, s, es[0].w);
        assert false;
      }
      FinishedPublicationGrantsNoPermit(cfg, s1, es[1..]);
    }
  }

  // ---------------------------------------------------------------- no blind failure

  lemma {:induction false} UnresolvedSince(log: seq<Commit>, i: nat)
    requires i < |log| && log[i].to.PublishRequested?
    requires forall k | i < k < |log| :: !log[k].to.ProcessingRemote?
    ensures Unresolved(log)
    decreases |log|
  {
    if i < |log| - 1 {
      UnresolvedSince(log[..|log| - 1], i);
    }
  }

  /** An operation that has requested publication is recorded as FAILED only after the provider was
      polled, or by a human. */
  lemma NoBlindFailure(cfg: Adapter, es: seq<Event>, i: nat, j: nat)
    requires var log := Run(cfg, INITIAL, es).h.commits;
      i < j < |log| && log[i].to.PublishRequested? && log[j].to.Failed?
    ensures var log := Run(cfg, INITIAL, es).h.commits;
      log[j].author.ByReconcile? || exists k :: i < k < j && log[k].to.ProcessingRemote?
  {
    var log := Run(cfg, INITIAL, es).h.commits;
    ReachableInv(cfg, es);
    LegalPrefix(log, j);
    if forall k | i < k < j :: !log[k].to.ProcessingRemote? {
      UnresolvedSince(log[..j], i);
    }
  }

  /** Every transition any worker ever commits follows an edge of the phase graph, out of the phase
      the previous commit left. */
  lemma PhasePathIsLegal(cfg: Adapter, es: seq<Event>, i: nat)
    requires var log := Run(cfg, INITIAL, es).h.commits; 0 < i < |log|
    ensures var log := Run(cfg, INITIAL, es).h.commits;
      && log[i].from == Some(log[i - 1].to)
      && (log[i].author.ByTransition? ==> log[i].to in Allowed(log[i - 1].to))
      && (Terminal(log[i - 1].to) ==> Terminal(log[i].to) && !log[i].author.ByTransition?)
  {
    var log := Run(cfg, INITIAL, es).h.commits;
    ReachableInv(cfg, es);
    LegalPrefix(log, i);
  }

  // ---------------------------------------------------------------- versions and claims

  /** The version counts the entries into QUEUED, the successful starts and transitions and the
      recoveries that rewrote metadata, and nothing else. */
  lemma VersionAccounting(cfg: Adapter, es: seq<Event>)
    ensures var s := Run(cfg, INITIAL, es); s.row.version == s.h.enqueues + Bumps(s.h.commits)
  {
    ReachableInv(cfg, es);
  }

  /** From `s` to `s'` the version moved by one exactly when the publication entered QUEUED or a
      commit other than a reconciliation was recorded, and metadata changed only with a commit. */
  predicate VersionMoves(s: State, s': State) {
    && Extends(s.h.commits, s'.h.commits)
    && (s'.row.meta != s.row.meta ==> s'.h.commits != s.h.commits)
    && var queued := !s.row.status.Queued? && s'.row.status.Queued?;
       var committed := s'.h.commits != s.h.commits && !s'.h.commits[|s.h.commits|].author.ByReconcile?;
       s'.row.version == s.row.version + if queued || committed then 1 else 0
  }

  lemma VersionStep(cfg: Adapter, s: State, e: Event)
    requires Inv(cfg, s)
    ensures VersionMoves(s, Step(cfg, s, e))
  {
    if ActorOf(e).None? {
      OutsideMoves(cfg, s, e);
    } else {
      match e {
        case EvStartCommit(w, op) => StartMoves(cfg, s, w, op);
        case EvCommit(w) => CommitMoves(s, w);
        case EvClose(w) => CloseMoves(cfg, s, w);
        case _ => QuietMoves(cfg, s, e);
      }
    }
  }

  lemma OutsideMoves(cfg: Adapter, s: State, e: Event)
    requires ActorOf(e).None?
    ensures VersionMoves(s, Step(cfg, s, e))
  {
    match e {
      case EvCommand(c) => CommandMoves(s, c);
      case EvRecoverCommit(r) => RecoverMoves(s, r);
      case EvReconcileCommit(c) => ReconcileMoves(s, c);
      case _ =>
    }
  }

  lemma CommandMoves(s: State, c: PS.Command)
    ensures VersionMoves(s, DoCommand(s, c))
  {
  }

  lemma RecoverMoves(s: State, r: nat)
    ensures VersionMoves(s, RecoverCommit(s, r))
  {
  }

  lemma ReconcileMoves(s: State, c: nat)
    ensures VersionMoves(s, ReconcileCommit(s, c))
  {
  }

  lemma StartMoves(cfg: Adapter, s: State, w: WorkerId, op: OperationId)
    ensures VersionMoves(s, StartCommit(cfg, s, w, op))
  {
  }

  lemma CommitMoves(s: State, w: WorkerId)
    ensures VersionMoves(s, CommitStep(s, w))
  {
  }

  lemma CloseMoves(cfg: Adapter, s: State, w: WorkerId)
    requires Inv(cfg, s)
    ensures VersionMoves(s, Close(s, w))
  {
    ActorOk(cfg, s, w);
  }

  lemma QuietMoves(cfg: Adapter, s: State, e: Event)
    requires ActorOf(e).Some? && !e.EvStartCommit? && !e.EvCommit? && !e.EvClose?
    ensures VersionMoves(s, Step(cfg, s, e))
  {
    if Enters(e) {
      EntryMoves(cfg, s, e);
    }
  }

  lemma EntryMoves(cfg: Adapter, s: State, e: Event)
    requires Enters(e) && !e.EvStartCommit?
    ensures VersionMoves(s, Step(cfg, s, e))
  {
  }

  /** Each dispatch version is claimed at most once. */
  lemma ClaimedOnce(cfg: Adapter, es: seq<Event>, i: nat, j: nat)
    requires var c := Run(cfg, INITIAL, es).h.claims; i < j < |c|
    ensures var c := Run(cfg, INITIAL, es).h.claims; c[i] != c[j]
  {
    ReachableInv(cfg, es);
  }

  lemma OutsideClaimsNothing(cfg: Adapter, s: State, e: Event)
    requires ActorOf(e).None?
    ensures Step(cfg, s, e).h.claims == s.h.claims
  {
  }

  lemma ClaimStep(cfg: Adapter, s: State, e: Event)
    ensures var c' := Step(cfg, s, e).h.claims;
      c' == s.h.claims || c' == s.h.claims + [s.row.version]
  {
    if ActorOf(e).None? {
      OutsideClaimsNothing(cfg, s, e);
    } else if !Enters(e) {
      assert Step(cfg, s, e).h.claims == s.h.claims;
    }
  }

  /** A job that was enqueued before the version moved on, say before a cancel and a re-queue, never
      claims: every later claim is for the current version or a newer one. */
  lemma {:induction false} StaleJobNeverClaims(cfg: Adapter, s: State, es: seq<Event>)
    requires Inv(cfg, s)
    ensures var c := Run(cfg, s, es).h.claims;
      && s.h.claims <= c
      && forall i | |s.h.claims| <= i < |c| :: s.row.version <= c[i]
    decreases |es|
  {
    if es != [] {
      ClaimStep(cfg, s, es[0]);
      StepInv(cfg, s, es[0]);
      StaleJobNeverClaims(cfg, Step(cfg, s, es[0]), es[1..]);
    }
  }

  // ---------------------------------------------------------------- schema and agreement

  /** Every persisted value parses under the strict schema and polls inside the window, unless a
      recovery has rewritten a COMPLETED value. */
  lemma SchemaClosure(cfg: Adapter, es: seq<Event>)
    requires var s := Run(cfg, INITIAL, es); s.row.meta.Some?
    ensures var s := Run(cfg, INITIAL, es);
      (!s.h.recoveredCompleted ==> WellFormed(s.row.meta.value)) && PollWindow(s.row.meta.value)
  {
    ReachableInv(cfg, es);
  }

  /** A COMPLETED operation names a non-empty final remote id, and it is the external post id. */
  lemma CompletionAgreement(cfg: Adapter, es: seq<Event>)
    requires var s := Run(cfg, INITIAL, es); PhaseOf(s.row) == Some(Completed)
    ensures var s := Run(cfg, INITIAL, es);
      Present(s.row.externalPostId) && s.row.meta.value.finalRemoteId == s.row.externalPostId
  {
    ReachableInv(cfg, es);
  }

  /** Between any two moments of a run the operation keeps its identity, a finished operation stays
      finished, and an unchanged version means unchanged metadata unless a human resolved it. */
  lemma OperationEvolves(cfg: Adapter, es: seq<Event>, fs: seq<Event>)
    ensures Evolves(Run(cfg, INITIAL, es).row.Snap(), Run(cfg, INITIAL, es + fs).row.Snap())
  {
    ReachableInv(cfg, es);
    RunSplit(cfg, INITIAL, es, fs);
    RunInv(cfg, Run(cfg, INITIAL, es), fs);
  }

  // ---------------------------------------------------------------- attempts

  /** A worker that has attached itself names an attempt that exists. */
  predicate NamesAttempt(k: Worker, attempts: nat) {
    match k
    case Attached(ctx) => ctx.attempt < attempts
    case Running(ctx) => ctx.attempt < attempts
    case Seeking(ctx, _, _) => ctx.attempt < attempts
    case Checked(ctx, _, _, _, _) => ctx.attempt < attempts
    case Closing(a, _, _) => a < attempts
    case _ => true
  }

  ghost predicate AttemptsNamed(s: State) {
    forall w | w in s.workers :: NamesAttempt(s.workers[w], |s.attempts|)
  }

  lemma AttemptsGrow(cfg: Adapter, s: State, e: Event)
    ensures |Step(cfg, s, e).attempts| >= |s.attempts|
  {
    if ActorOf(e).None? {
      OutsideKeepsAttempts(cfg, s, e);
    } else if Enters(e) {
      EntryKeepsAttempts(cfg, s, e);
    }
  }

  lemma OutsideKeepsAttempts(cfg: Adapter, s: State, e: Event)
    requires ActorOf(e).None?
    ensures |Step(cfg, s, e).attempts| == |s.attempts|
  {
  }

  lemma EntryKeepsAttempts(cfg: Adapter, s: State, e: Event)
    requires Enters(e)
    ensures |Step(cfg, s, e).attempts| >= |s.attempts|
  {
  }

  lemma ActorNamesAttempt(cfg: Adapter, s: State, e: Event, w: WorkerId)
    requires ActorOf(e) == Some(w) && NamesAttempt(At(s, w), |s.attempts|)
    ensures NamesAttempt(At(Step(cfg, s, e), w), |Step(cfg, s, e).attempts|)
  {
    if Enters(e) {
      EntryNamesNothing(cfg, s, e, w);
    }
  }

  lemma EntryNamesNothing(cfg: Adapter, s: State, e: Event, w: WorkerId)
    requires ActorOf(e) == Some(w) && Enters(e) && NamesAttempt(At(s, w), |s.attempts|)
    ensures NamesAttempt(At(Step(cfg, s, e), w), |Step(cfg, s, e).attempts|)
  {
  }

  lemma AttemptsStep(cfg: Adapter, s: State, e: Event)
    requires AttemptsNamed(s)
    ensures AttemptsNamed(Step(cfg, s, e))
  {
    var s' := Step(cfg, s, e);
    AttemptsGrow(cfg, s, e);
    forall w | w in s'.workers
      ensures NamesAttempt(s'.workers[w], |s'.attempts|)
    {
      assert s'.workers[w] == At(s', w);
      if ActorOf(e) == Some(w) {
        ActorNamesAttempt(cfg, s, e, w);
      } else {
        OthersKeepRecord(cfg, s, e, w);
      }
    }
  }

  lemma {:induction false} AttemptsRun(cfg: Adapter, s: State, es: seq<Event>)
    requires AttemptsNamed(s)
    ensures AttemptsNamed(Run(cfg, s, es))
    decreases |es|
  {
    if es != [] {
      AttemptsStep(cfg, s, es[0]);
      AttemptsRun(cfg, Step(cfg, s, es[0]), es[1..]);
    }
  }

  /** What a finished operation looks like to everybody else: status, phase, external id and attempt. */
  predicate Outcome(row: Row, a: Attempt, goal: Goal) {
    match goal
    case Complete(id) => row.status.Published? && PhaseOf(row) == Some(Completed) && a == Attempt(Succeeded, None)
                         && Present(id) && row.externalPostId == id == row.meta.value.finalRemoteId
    case Fail(category) => row.status.Failed? && PhaseOf(row) == Some(Phase.Failed)
                           && a == Attempt(AttemptFailed, Some(category))
    case MarkAmbiguous => row.status.Unknown? && PhaseOf(row) == Some(Ambiguous)
                          && a == Attempt(AttemptFailed, Some(UnknownResult))
    case _ => false
  }

  /** In every run, a worker's commit of a terminal result leaves status, phase, external id and the worker's
      own attempt agreeing, touches no other attempt, and ends the worker; a commit that lost its fence
      changes nothing. */
  lemma TerminalCommitAgrees(cfg: Adapter, es: seq<Event>, w: WorkerId)
    requires var k := At(Run(cfg, INITIAL, es), w);
      k.Checked? && (k.goal.Complete? || k.goal.Fail? || k.goal.MarkAmbiguous?)
    ensures var s := Run(cfg, INITIAL, es);
      var k := At(s, w);
      var s' := CommitStep(s, w);
      if s.row.version != k.ctx.version then s'.row == s.row && s'.attempts == s.attempts
      else
        && k.ctx.attempt < |s.attempts| == |s'.attempts|
        && Outcome(s'.row, s'.attempts[k.ctx.attempt], k.goal)
        && (forall i | 0 <= i < |s.attempts| && i != k.ctx.attempt :: s'.attempts[i] == s.attempts[i])
        && At(s', w).Idle?
  {
    var s := Run(cfg, INITIAL, es);
    var k := At(s, w);
    ReachableInv(cfg, es);
    AttemptsRun(cfg, INITIAL, es);
    ActorOk(cfg, s, w);
    CheckedPlan(cfg, s.row, s.h, w, k.ctx, k.goal, k.expected, k.now, k.next);
  }

  // ---------------------------------------------------------------- reconciliation

  /** A reconciliation that commits leaves status, phase, external id and attempt agreeing; one that
      does not changes neither the row nor the attempts. */
  lemma ReconcileAgrees(cfg: Adapter, es: seq<Event>, c: nat)
    requires c in Run(cfg, INITIAL, es).reconciliations
    ensures var s := Run(cfg, INITIAL, es);
      var s' := ReconcileCommit(s, c);
      if !ReconcileCommits(s, c) then s'.row == s.row && s'.attempts == s.attempts
      else
        && Eligible(s'.attempts) == {}
        && s'.row.version == s.row.version
        && match s.reconciliations[c].decision
           case ConfirmPublished(id) =>
             && s'.row.status.Published? && PhaseOf(s'.row) == Some(Completed)
             && s'.row.externalPostId == Some(id) == s'.row.meta.value.finalRemoteId
             && (exists a | a in Eligible(s.attempts) :: s'.attempts[a].status.Succeeded?)
           case ConfirmFailed =>
             && s'.row.status.Failed? && PhaseOf(s'.row) == Some(Phase.Failed)
             && s'.row.externalPostId == s.row.externalPostId
             && (exists a | a in Eligible(s.attempts) :: s'.attempts[a] == Attempt(AttemptFailed, Some(Permanent)))
  {
    var s := Run(cfg, INITIAL, es);
    ReachableInv(cfg, es);
    assert ReconciliationOk(s.row, s.h, s.reconciliations[c]);
    if ReconcileCommits(s, c) {
      var s' := ReconcileCommit(s, c);
      var a :| a in Eligible(s.attempts) && Eligible(s.attempts) == {a};
      assert forall i | i in Eligible(s'.attempts) :: i in Eligible(s.attempts);
    }
  }

  /** Of two reconciliations that are both waiting to write, at most one commits. */
  lemma ReconcileExclusive(s: State, c: nat, d: nat)
    requires c != d && ReconcileCommits(s, c)
    ensures !ReconcileCommits(ReconcileCommit(s, c), d)
  {
  }

  /** A property that a run acquires is acquired at one of its steps. */
  lemma {:induction false} Acquired(cfg: Adapter, s: State, fs: seq<Event>, p: State -> bool)
    requires !p(s) && p(Run(cfg, s, fs))
    ensures exists k :: 0 <= k < |fs| && !p(Run(cfg, s, fs[..k])) && p(Run(cfg, s, fs[..k + 1]))
    decreases |fs|
  {
    var n := |fs| - 1;
    assert n >= 0 && fs[..n + 1] == fs;
    if p(Run(cfg, s, fs[..n])) {
      Acquired(cfg, s, fs[..n], p);
      var k :| 0 <= k < n && !p(Run(cfg, s, fs[..n][..k])) && p(Run(cfg, s, fs[..n][..k + 1]));
      assert fs[..n][..k] == fs[..k] && fs[..n][..k + 1] == fs[..k + 1];
    }
  }

  /** Over any run: after one reconciliation has committed, another can only commit once the status was
      set back to UNKNOWN and an attempt failed anew with an unknown result. */
  lemma ReconciledOncePerUncertainty(cfg: Adapter, s: State, c: nat, fs: seq<Event>, d: nat)
    requires ReconcileCommits(s, c) && ReconcileCommits(Run(cfg, ReconcileCommit(s, c), fs), d)
    ensures var s1 := ReconcileCommit(s, c);
      && (exists k :: 0 <= k < |fs| && !Run(cfg, s1, fs[..k]).row.status.Unknown?
                      && Run(cfg, s1, fs[..k + 1]).row.status.Unknown?)
      && (exists k :: 0 <= k < |fs| && Eligible(Run(cfg, s1, fs[..k]).attempts) == {}
                      && Eligible(Run(cfg, s1, fs[..k + 1]).attempts) != {})
  {
    var s1 := ReconcileCommit(s, c);
    var a :| a in Eligible(s.attempts) && Eligible(s.attempts) == {a};
    assert forall i | i in Eligible(s1.attempts) :: i in Eligible(s.attempts);
    Acquired(cfg, s1, fs, (x: State) => x.row.status.Unknown?);
    Acquired(cfg, s1, fs, (x: State) => Eligible(x.attempts) != {});
  }

  // ---------------------------------------------------------------- status

  /** API commands, promotion, claim, recovery and reconciliation move the status only along the
      documented table. */
  lemma GuardedStatusIsLegal(cfg: Adapter, s: State, e: Event)
    requires e.EvCommand? || e.EvPromote? || e.EvClaim? || e.EvRecoverCommit? || e.EvReconcileCommit?
    ensures PS.CanTransition(s.row.status, Step(cfg, s, e).row.status)
  {
    if e.EvCommand? && s.row.status in PS.Sources(e.c) {
      PS.CommandsAreLegal(e.c, s.row.status);
    }
  }
}
