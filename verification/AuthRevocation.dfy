/**
  What becomes of a session after its user's epoch has moved on: exactly when it can still be accepted, and a
  run in which a revoked one is.
*/
module AuthRevocation {
  import opened Wrappers
  import opened SessionStore
  import opened AuthProtocol
  import opened AuthTheorems

  // ---------------------------------------------------------------- what can restore a session

  /** The guard is about to accept this session. */
  predicate AcceptsNow(s: State, t: TaskId, sid: SessionId) {
    Accepting(s, t) && At(s, t).sid == sid
  }

  /** Some continuation of the run brings the guard to accept the session. */
  ghost predicate CanBeAccepted(s: State, sid: SessionId) {
    exists es, t :: AcceptsNow(Run(s, es), t, sid)
  }

  /** A request that may still stamp the session with an epoch that is accepted: one that the guard has let in,
      up to the commit of its password change, or the clean-up of the change that produced the present epoch. */
  predicate CanStamp(k: Task, sid: SessionId, epoch: int) {
    match k
    case Authenticated(x, _) => x == sid
    case ChangeRead(x, _, _, _) => x == sid
    case ChangeVerified(x, _, _, _) => x == sid
    case ChangeCleanup(x, _, e, _) => x == sid && e == epoch
    case _ => false
  }

  /** The session of `u` can come back: the guard has validated it with the present epoch, or it is alive and
      carries the present epoch or may still be stamped with one. */
  ghost predicate Restorable(s: State, sid: SessionId, u: UserId)
    requires u in s.users
  {
    || (exists t :: t in s.tasks && AcceptsNow(s, t, sid))
    || (sid in Live(s.store) && Accepts(Live(s.store)[sid].epoch, s.users[u].epoch))
    || (sid in Live(s.store) && exists t :: t in s.tasks && CanStamp(s.tasks[t], sid, s.users[u].epoch))
  }

  // ---------------------------------------------------------------- what cannot be restored stays refused

  /** The operation a step performs on the session store, if it performs one. */
  function StoreOp(s: State, e: Event): Option<Op> {
    match e
    case EvLoginCreate(t, sid) =>
      if At(s, t).LoginVerified? && sid !in s.past.owner then Some(OpCreate(sid, At(s, t).u, Some(At(s, t).epoch))) else None
    case EvRefuse(t, fails) => if At(s, t).Refusing? && !fails then Some(OpDestroy(At(s, t).sid)) else None
    case EvGuardValidate(t, sid) =>
      if At(s, t).NoTask? && Exists(s.store, sid) && sid in s.past.origin then Some(OpValidate(sid)) else None
    case EvLogout(t) => if At(s, t).Authenticated? then Some(OpDestroy(At(s, t).sid)) else None
    case EvChangeClean(t, reply) =>
      if At(s, t).ChangeCleanup? && !reply.Down?
      then Some(OpDestroyOthers(At(s, t).u, Some(At(s, t).sid), Some(At(s, t).epoch))) else None
    case EvRevokeClean(t, reply) => if At(s, t).RevokeCleanup? && !reply.Down? then Some(OpDestroyAll(At(s, t).u)) else None
    case EvList(u) => Some(OpList(u))
    case EvTick(d) => Some(OpTick(d))
    case _ => None
  }

  lemma StoreStep(s: State, e: Event)
    ensures Step(s, e).store == if StoreOp(s, e).Some? then Apply(s.store, StoreOp(s, e).value) else s.store
  {
  }

  lemma OpIsCalled(s: State, e: Event)
    requires AuthTheorems.Inv(s) && StoreOp(s, e).Some?
    ensures Called(s.store, s.past.owner.Keys, StoreOp(s, e).value)
  {
    if e.EvChangeClean? {
      TaskAt(s, e.t);
      var sid := At(s, e.t).sid;
      if Exists(s.store, sid) {
        assert sid in Live(s.store);
      }
    }
  }

  /** No script revives a session that was handed out before, and only the clean-up that keeps it changes its stamp. */
  lemma OpLive(st: Store, used: set<SessionId>, op: Op, sid: SessionId)
    requires SessionStore.Inv(st) && KnownKeys(st, used) && Called(st, used, op) && sid in used
    requires sid in Live(Apply(st, op))
    ensures sid in Live(st)
    ensures Live(Apply(st, op))[sid].epoch
         == if op.OpDestroyOthers? && op.keep == Some(sid) && op.newEpoch.Some? then op.newEpoch else Live(st)[sid].epoch
  {
    ApplyRefines(st, used, op);
  }

  /** Of such a session a step leaves the stamp, or puts that of the clean-up that keeps it. */
  lemma LiveStep(s: State, e: Event, sid: SessionId)
    requires AuthTheorems.Inv(s) && sid in s.past.owner && sid in Live(Step(s, e).store)
    ensures sid in Live(s.store)
    ensures var before, after := Live(s.store)[sid].epoch, Live(Step(s, e).store)[sid].epoch;
      || after == before
      || (e.EvChangeClean? && At(s, e.t).ChangeCleanup? && At(s, e.t).sid == sid && after == Some(At(s, e.t).epoch))
  {
    StoreStep(s, e);
    if StoreOp(s, e).Some? {
      OpIsCalled(s, e);
      OpLive(s.store, s.past.owner.Keys, StoreOp(s, e).value, sid);
    }
  }

  /** What a record says of epochs is about the past. */
  lemma RecordsArePast(s: State, t: TaskId, sid: SessionId, u: UserId)
    requires AuthTheorems.Inv(s) && Owns(s.past, u, sid) && u in s.users
    ensures At(s, t).GuardValidated? && At(s, t).sid == sid ==>
      At(s, t).session.user == u && (At(s, t).session.epoch.Some? ==> At(s, t).session.epoch.value <= s.users[u].epoch)
    ensures At(s, t).ChangeCleanup? && At(s, t).sid == sid ==> At(s, t).u == u && At(s, t).epoch <= s.users[u].epoch
    ensures 1 <= s.users[u].epoch
  {
    TaskAt(s, t);
  }

  /** A record is harmless if the guard does not accept it and it can stamp nothing that is alive. */
  ghost predicate Harmless(s: State, k: Task, epoch: int, sid: SessionId) {
    && !(k.GuardValidated? && k.sid == sid && Accepts(k.session.epoch, epoch))
    && (CanStamp(k, sid, epoch) ==> sid !in Live(s.store))
  }

  lemma HarmlessNow(s: State, t: TaskId, sid: SessionId, u: UserId)
    requires AuthTheorems.Inv(s) && Owns(s.past, u, sid) && u in s.users && !Restorable(s, sid, u)
    ensures Harmless(s, At(s, t), s.users[u].epoch, sid)
  {
    RecordsArePast(s, t, sid, u);
    if At(s, t) != NoTask {
      assert t in s.tasks;
      assert AcceptsNow(s, t, sid) <==> At(s, t).GuardValidated? && At(s, t).sid == sid && Accepting(s, t);
    }
  }

  /** It stays harmless when the epoch moves on. */
  lemma HarmlessLater(s: State, t: TaskId, sid: SessionId, u: UserId, epoch: int)
    requires AuthTheorems.Inv(s) && Owns(s.past, u, sid) && u in s.users && !Restorable(s, sid, u)
    requires s.users[u].epoch <= epoch
    ensures Harmless(s, At(s, t), epoch, sid)
  {
    RecordsArePast(s, t, sid, u);
    HarmlessNow(s, t, sid, u);
  }

  /** The guard's own step leaves a harmless record. */
  lemma GuardRecord(s: State, t: TaskId, x: SessionId, sid: SessionId, u: UserId)
    requires AuthTheorems.Inv(s) && Owns(s.past, u, sid) && u in s.users && !Restorable(s, sid, u)
    ensures Harmless(s, At(GuardValidate(s, t, x), t), s.users[u].epoch, sid)
    ensures Harmless(s, At(GuardDecide(s, t), t), s.users[u].epoch, sid)
  {
    RecordsArePast(s, t, sid, u);
    HarmlessNow(s, t, sid, u);
    if x == sid && Exists(s.store, sid) {
      assert sid in Live(s.store);
    }
  }

  /** So do the steps of a password change and of a revocation. */
  lemma RotationRecord(s: State, e: Event, t: TaskId, sid: SessionId, u: UserId, epoch: int)
    requires AuthTheorems.Inv(s) && Owns(s.past, u, sid) && u in s.users && !Restorable(s, sid, u)
    requires Rotates(e) && e.t == t && s.users[u].epoch <= epoch
    ensures Harmless(s, At(Step(s, e), t), epoch, sid)
  {
    HarmlessLater(s, t, sid, u, epoch);
    TaskAt(s, t);
    if e.EvChangeCommit? {
      CommitRecord(s, t, e.h, sid, epoch);
    } else {
      PreparedRecord(s, e, t, epoch, sid);
    }
  }

  lemma CommitRecord(s: State, t: TaskId, h: Hash, sid: SessionId, epoch: int)
    requires Harmless(s, At(s, t), epoch, sid)
    ensures Harmless(s, At(ChangeCommit(s, t, h), t), epoch, sid)
  {
  }

  lemma PreparedRecord(s: State, e: Event, t: TaskId, epoch: int, sid: SessionId)
    requires Rotates(e) && !e.EvChangeCommit? && e.t == t && Harmless(s, At(s, t), epoch, sid)
    ensures Harmless(s, At(Step(s, e), t), epoch, sid)
  {
  }

  /** The request a step moves, if it moves one. */
  function Mover(e: Event): Option<TaskId> {
    match e
    case EvSignup(_, _) => None
    case EvList(_) => None
    case EvTick(_) => None
    case EvLoginFind(t, _) => Some(t)
    case EvLoginVerify(t, _) => Some(t)
    case EvLoginCreate(t, _) => Some(t)
    case EvLoginRecheck(t, _) => Some(t)
    case EvRefuse(t, _) => Some(t)
    case EvGuardValidate(t, _) => Some(t)
    case EvGuardDecide(t) => Some(t)
    case EvLogout(t) => Some(t)
    case EvChangeFind(t) => Some(t)
    case EvChangeVerify(t, _) => Some(t)
    case EvChangeCommit(t, _) => Some(t)
    case EvChangeClean(t, _) => Some(t)
    case EvRevokeCommit(t) => Some(t)
    case EvRevokeClean(t, _) => Some(t)
    case EvAbandon(t) => Some(t)
  }

  lemma OthersStand(s: State, e: Event, t: TaskId)
    requires Mover(e) != Some(t)
    ensures At(Step(s, e), t) == At(s, t)
  {
  }

  /** Login, logout, refusal and abandonment leave records that concern no session of the guard. */
  lemma PlainRecord(s: State, e: Event, t: TaskId, epoch: int, sid: SessionId)
    requires Mover(e) == Some(t) && !Rotates(e) && !e.EvGuardValidate? && !e.EvGuardDecide?
    requires Harmless(s, At(s, t), epoch, sid)
    ensures Harmless(s, At(Step(s, e), t), epoch, sid)
  {
  }

  lemma GuardKeepsUsers(s: State, t: TaskId, x: SessionId)
    ensures GuardValidate(s, t, x).users == s.users && GuardDecide(s, t).users == s.users
  {
  }

  lemma RecordStep(s: State, e: Event, t: TaskId, sid: SessionId, u: UserId)
    requires AuthTheorems.Inv(s) && Owns(s.past, u, sid) && u in s.users && !Restorable(s, sid, u)
    requires EpochsGrow(s, Step(s, e))
    ensures Harmless(s, At(Step(s, e), t), Step(s, e).users[u].epoch, sid)
  {
    var epoch := Step(s, e).users[u].epoch;
    HarmlessLater(s, t, sid, u, epoch);
    if Mover(e) != Some(t) {
      OthersStand(s, e, t);
    } else if Rotates(e) {
      RotationRecord(s, e, t, sid, u, epoch);
    } else if e.EvGuardValidate? {
      GuardKeepsUsers(s, t, e.sid);
      GuardRecord(s, t, e.sid, sid, u);
    } else if e.EvGuardDecide? {
      GuardKeepsUsers(s, t, sid);
      GuardRecord(s, t, sid, sid, u);
    } else {
      PlainRecord(s, e, t, epoch, sid);
    }
  }

  lemma NotRestorableStep(s: State, e: Event, sid: SessionId, u: UserId)
    requires AuthTheorems.Inv(s) && ChangesInv(s.past) && Owns(s.past, u, sid) && u in s.users && !Restorable(s, sid, u)
    ensures AuthTheorems.Inv(Step(s, e)) && ChangesInv(Step(s, e).past) && Owns(Step(s, e).past, u, sid)
    ensures u in Step(s, e).users && !Restorable(Step(s, e), sid, u)
  {
    var s' := Step(s, e);
    StepInv(s, e);
    StepEpochs(s, e);
    forall t | t in s'.tasks
      ensures !AcceptsNow(s', t, sid)
      ensures CanStamp(s'.tasks[t], sid, s'.users[u].epoch) ==> sid !in Live(s.store)
    {
      assert s'.tasks[t] == At(s', t);
      RecordStep(s, e, t, sid, u);
      RecordsArePast(s', t, sid, u);
    }
    if sid in Live(s'.store) {
      LiveStep(s, e, sid);
      StampStaysOld(s, e, sid, u);
    }
  }

  lemma StampStaysOld(s: State, e: Event, sid: SessionId, u: UserId)
    requires AuthTheorems.Inv(s) && Owns(s.past, u, sid) && u in s.users && !Restorable(s, sid, u)
    requires u in Step(s, e).users && s.users[u].epoch <= Step(s, e).users[u].epoch
    requires sid in Live(s.store) && sid in Live(Step(s, e).store)
    ensures !Accepts(Live(Step(s, e).store)[sid].epoch, Step(s, e).users[u].epoch)
  {
    LiveStep(s, e, sid);
    assert Accounted(s.past, sid, Live(s.store)[sid].user, Live(s.store)[sid].epoch, s.past.origin[sid]);
    if e.EvChangeClean? && At(s, e.t).ChangeCleanup? && At(s, e.t).sid == sid {
      RecordsArePast(s, e.t, sid, u);
      assert e.t in s.tasks && !CanStamp(s.tasks[e.t], sid, s.users[u].epoch);
    }
  }

  lemma {:induction false} NeverAccepted(s: State, es: seq<Event>, sid: SessionId, u: UserId, t: TaskId)
    requires AuthTheorems.Inv(s) && ChangesInv(s.past) && Owns(s.past, u, sid) && u in s.users && !Restorable(s, sid, u)
    ensures !AcceptsNow(Run(s, es), t, sid)
    decreases |es|
  {
    if es == [] {
      assert AcceptsNow(s, t, sid) ==> t in s.tasks;
    } else {
      NotRestorableStep(s, es[0], sid, u);
      NeverAccepted(Step(s, es[0]), es[1..], sid, u, t);
    }
  }

  // ---------------------------------------------------------------- what can be restored comes back

  lemma AlsoBefore(s: State, e: Event, sid: SessionId)
    requires CanBeAccepted(Step(s, e), sid)
    ensures CanBeAccepted(s, sid)
  {
    var es, t :| AcceptsNow(Run(Step(s, e), es), t, sid);
    assert ([e] + es)[1..] == es;
    assert AcceptsNow(Run(s, [e] + es), t, sid);
  }

  lemma Above(numbers: set<nat>) returns (n: nat)
    ensures n !in numbers
  {
    n := 0;
    var left := numbers;
    while left != {}
      invariant forall x | x in numbers && x !in left :: x < n
      decreases left
    {
      var x :| x in left;
      left := left - {x};
      if n <= x {
        n := x + 1;
      }
    }
  }

  lemma AcceptedWhenValidated(s: State, sid: SessionId, u: UserId)
    requires AuthTheorems.Inv(s) && Owns(s.past, u, sid) && u in s.users
    requires sid in Live(s.store) && Accepts(Live(s.store)[sid].epoch, s.users[u].epoch)
    ensures CanBeAccepted(s, sid)
  {
    var t := Above(s.tasks.Keys);
    assert Accounted(s.past, sid, Live(s.store)[sid].user, Live(s.store)[sid].epoch, s.past.origin[sid]);
    var s1 := Step(s, EvGuardValidate(t, sid));
    assert At(s1, t) == GuardValidated(sid, Validated(s.store, sid).value, s.past.origin[sid]);
    assert AcceptsNow(Run(s1, []), t, sid);
    AlsoBefore(s, EvGuardValidate(t, sid), sid);
  }

  /** The clean-up of the change that produced the present epoch stamps the session with it. */
  lemma AcceptedWhenCleaned(s: State, t: TaskId, sid: SessionId, u: UserId)
    requires AuthTheorems.Inv(s) && ChangesInv(s.past) && Owns(s.past, u, sid) && u in s.users && sid in Live(s.store)
    requires At(s, t).ChangeCleanup? && At(s, t).sid == sid && At(s, t).epoch == s.users[u].epoch
    ensures CanBeAccepted(s, sid)
  {
    var e := EvChangeClean(t, Done);
    RecordsArePast(s, t, sid, u);
    StepInv(s, e);
    StoreStep(s, e);
    OpIsCalled(s, e);
    ApplyRefines(s.store, s.past.owner.Keys, StoreOp(s, e).value);
    assert Accounted(s.past, sid, Live(s.store)[sid].user, Live(s.store)[sid].epoch, s.past.origin[sid]);
    AcceptedWhenValidated(Step(s, e), sid, u);
    AlsoBefore(s, e, sid);
  }

  lemma SomeNewHash(p: Past, u: UserId) returns (h: Hash)
    ensures IsNewHash(p, u, h)
  {
    h := Above(p.hashes.Values);
    assert forall k | k in p.hashes :: p.hashes[k] in p.hashes.Values;
  }

  lemma BeforeCommit(s: State, t: TaskId, h: Hash, sid: SessionId)
    requires CanBeAccepted(ChangeCommit(s, t, h), sid)
    ensures CanBeAccepted(s, sid)
  {
    AlsoBefore(s, EvChangeCommit(t, h), sid);
  }

  lemma ChangeCommits(s: State, t: TaskId, h: Hash)
    requires At(s, t).ChangeVerified? && At(s, t).u in s.users && IsNewHash(s.past, At(s, t).u, h)
    ensures var s', u, sid := ChangeCommit(s, t, h), At(s, t).u, At(s, t).sid;
      && u in s'.users && s'.users[u].epoch == s.users[u].epoch + 1
      && At(s', t) == ChangeCleanup(sid, u, s.users[u].epoch + 1, 1) && s'.store == s.store && s'.past.owner == s.past.owner
  {
  }

  lemma AcceptedWhenChanged(s: State, t: TaskId, sid: SessionId, u: UserId)
    requires AuthTheorems.Inv(s) && ChangesInv(s.past) && Owns(s.past, u, sid) && u in s.users && sid in Live(s.store)
    requires At(s, t).ChangeVerified? && At(s, t).sid == sid
    ensures CanBeAccepted(s, sid)
  {
    TaskAt(s, t);
    var h := SomeNewHash(s.past, u);
    ChangeCommitInv(s, t, h);
    ChangeCommits(s, t, h);
    AcceptedWhenCleaned(ChangeCommit(s, t, h), t, sid, u);
    BeforeCommit(s, t, h, sid);
  }

  lemma AcceptedWhenRead(s: State, t: TaskId, sid: SessionId, u: UserId)
    requires AuthTheorems.Inv(s) && ChangesInv(s.past) && Owns(s.past, u, sid) && u in s.users && sid in Live(s.store)
    requires At(s, t).ChangeRead? && At(s, t).sid == sid
    ensures CanBeAccepted(s, sid)
  {
    ChangeVerifyInv(s, t, true);
    AcceptedWhenChanged(ChangeVerify(s, t, true), t, sid, u);
    AlsoBefore(s, EvChangeVerify(t, true), sid);
  }

  lemma AcceptedWhenLetIn(s: State, t: TaskId, sid: SessionId, u: UserId)
    requires AuthTheorems.Inv(s) && ChangesInv(s.past) && Owns(s.past, u, sid) && u in s.users && sid in Live(s.store)
    requires At(s, t).Authenticated? && At(s, t).sid == sid
    ensures CanBeAccepted(s, sid)
  {
    TaskAt(s, t);
    ChangeFindInv(s, t);
    AcceptedWhenRead(ChangeFind(s, t), t, sid, u);
    AlsoBefore(s, EvChangeFind(t), sid);
  }

  /** A session can still be accepted exactly when it is restorable. */
  lemma AcceptableExactly(s: State, sid: SessionId, u: UserId)
    requires AuthTheorems.Inv(s) && ChangesInv(s.past) && Owns(s.past, u, sid) && u in s.users
    ensures CanBeAccepted(s, sid) <==> Restorable(s, sid, u)
  {
    if !Restorable(s, sid, u) {
      forall es, t
        ensures !AcceptsNow(Run(s, es), t, sid)
      {
        NeverAccepted(s, es, sid, u, t);
      }
    } else if t :| t in s.tasks && AcceptsNow(s, t, sid) {
      assert AcceptsNow(Run(s, []), t, sid);
    } else if Accepts(Live(s.store)[sid].epoch, s.users[u].epoch) {
      AcceptedWhenValidated(s, sid, u);
    } else {
      var t :| t in s.tasks && CanStamp(s.tasks[t], sid, s.users[u].epoch);
      if At(s, t).ChangeCleanup? {
        AcceptedWhenCleaned(s, t, sid, u);
      } else if At(s, t).ChangeVerified? {
        AcceptedWhenChanged(s, t, sid, u);
      } else if At(s, t).ChangeRead? {
        AcceptedWhenRead(s, t, sid, u);
      } else {
        AcceptedWhenLetIn(s, t, sid, u);
      }
    }
  }

  // ---------------------------------------------------------------- the theorems

  /** The session's stamp lies below the user's present epoch: a password change or a revocation meant to end it. */
  predicate Revoked(s: State, sid: SessionId, u: UserId)
    requires u in s.users
  {
    sid in Live(s.store) ==> !Accepts(Live(s.store)[sid].epoch, s.users[u].epoch)
  }

  /** In every run, even if no clean-up in Redis ever succeeds: a session that a change or a revocation meant to
      end, alive or not, is accepted in some continuation exactly when the guard has already validated it with
      the present epoch, or it is alive and one of its own requests that was let in before is still under way. */
  lemma RevokedSessionsStayRefused(s0: State, es: seq<Event>, sid: SessionId, u: UserId)
    requires Initial(s0)
    ensures var s := Run(s0, es);
      u in s.users && Owns(s.past, u, sid) && Revoked(s, sid, u) ==>
        (CanBeAccepted(s, sid) <==>
          || (exists t :: t in s.tasks && AcceptsNow(s, t, sid))
          || (sid in Live(s.store) && exists t :: t in s.tasks && CanStamp(s.tasks[t], sid, s.users[u].epoch)))
  {
    InitialInv(s0);
    RunInv(s0, es);
    var s := Run(s0, es);
    if u in s.users && Owns(s.past, u, sid) {
      AcceptableExactly(s, sid, u);
    }
  }

  /** An accepted stamp is never below an epoch that the user had reached at any earlier moment. */
  lemma AcceptedStampIsPresent(s0: State, es: seq<Event>, fs: seq<Event>, t: TaskId)
    requires Initial(s0)
    ensures Accepting(Run(s0, es + fs), t) && At(Run(s0, es + fs), t).session.user in Run(s0, es).users ==>
      var session := At(Run(s0, es + fs), t).session;
      var reached := Run(s0, es).users[session.user].epoch;
      if session.epoch.Some? then reached <= session.epoch.value else reached == 1
  {
    InitialInv(s0);
    RunSplit(s0, es, fs);
    RunInv(s0, es);
    RunInv(Run(s0, es), fs);
    if Accepting(Run(s0, es + fs), t) && At(Run(s0, es + fs), t).session.user in Run(s0, es).users {
      RefusedBelow(Run(s0, es), Run(s0, es + fs), t);
    }
  }

  lemma RefusedBelow(s: State, s': State, t: TaskId)
    requires AuthTheorems.Inv(s) && EpochsGrow(s, s') && Accepting(s', t) && At(s', t).session.user in s.users
    ensures var session := At(s', t).session;
      var reached := s.users[session.user].epoch;
      if session.epoch.Some? then reached <= session.epoch.value else reached == 1
  {
  }

  // ---------------------------------------------------------------- a run in which a revoked session returns

  const NOBODY: State := State(map[], EMPTY, map[], Past(map[], map[], map[], {}, map[]))

  ghost predicate Reached(s: State) {
    exists es :: Run(NOBODY, es) == s
  }

  lemma ThenStep(s: State, e: Event)
    requires Reached(s)
    ensures Reached(Step(s, e))
  {
    var es :| Run(NOBODY, es) == s;
    RunSplit(NOBODY, es, [e]);
    assert [e][1..] == [];
    assert Run(NOBODY, es + [e]) == Step(s, e);
  }

  function SignedIn(s: State): State {
    LoginRecheck(LoginCreate(LoginVerify(LoginFind(Signup(s, 7, 100), 0, 7), 0, true), 0, 5), 0, false)
  }

  function LetIn(s: State, t: TaskId): State {
    GuardDecide(GuardValidate(s, t, 5), t)
  }

  function Verified(s: State, t: TaskId): State {
    ChangeVerify(ChangeFind(s, t), t, true)
  }

  /** The sessions are revoked; Redis fails all three times it is asked to clean up. */
  function RevokedInVain(s: State, t: TaskId): State {
    RevokeClean(RevokeClean(RevokeClean(RevokeCommit(s, t), t, Down), t, Down), t, Down)
  }

  lemma ThenLogin(s: State)
    requires Reached(s)
    ensures Reached(SignedIn(s))
  {
    ThenStep(s, EvSignup(7, 100));
    ThenStep(Signup(s, 7, 100), EvLoginFind(0, 7));
    ThenStep(LoginFind(Signup(s, 7, 100), 0, 7), EvLoginVerify(0, true));
    ThenCreate(LoginVerify(LoginFind(Signup(s, 7, 100), 0, 7), 0, true));
  }

  lemma ThenCreate(s: State)
    requires Reached(s)
    ensures Reached(LoginRecheck(LoginCreate(s, 0, 5), 0, false))
  {
    ThenStep(s, EvLoginCreate(0, 5));
    ThenStep(LoginCreate(s, 0, 5), EvLoginRecheck(0, false));
  }

  lemma ThenLetIn(s: State, t: TaskId)
    requires Reached(s)
    ensures Reached(LetIn(s, t))
  {
    ThenStep(s, EvGuardValidate(t, 5));
    ThenStep(GuardValidate(s, t, 5), EvGuardDecide(t));
  }

  lemma ThenVerified(s: State, t: TaskId)
    requires Reached(s)
    ensures Reached(Verified(s, t))
  {
    ThenStep(s, EvChangeFind(t));
    ThenStep(ChangeFind(s, t), EvChangeVerify(t, true));
  }

  lemma ThenClean(s: State, t: TaskId)
    requires Reached(s)
    ensures Reached(RevokeClean(s, t, Down))
  {
    ThenStep(s, EvRevokeClean(t, Down));
  }

  lemma ThenRevoked(s: State, t: TaskId)
    requires Reached(s)
    ensures Reached(RevokedInVain(s, t))
  {
    ThenStep(s, EvRevokeCommit(t));
    ThenClean(RevokeCommit(s, t), t);
    ThenClean(RevokeClean(RevokeCommit(s, t), t, Down), t);
    ThenClean(RevokeClean(RevokeClean(RevokeCommit(s, t), t, Down), t, Down), t);
  }

  /** User 7 has epoch `epoch`, and session 5 is theirs, alive and stamped 1. */
  ghost predicate Stamped(s: State, epoch: int) {
    && 7 in s.users && s.users[7].epoch == epoch && Owns(s.past, 7, 5) && 5 in s.past.origin
    && 5 in Live(s.store) && Live(s.store)[5].user == 7 && Live(s.store)[5].epoch == Some(1)
  }

  lemma LoginStamps()
    ensures var s := SignedIn(NOBODY); Stamped(s, 1) && At(s, 1).NoTask? && At(s, 2).NoTask?
  {
    var s1 := LoginVerify(LoginFind(Signup(NOBODY, 7, 100), 0, 7), 0, true);
    assert At(s1, 0) == LoginVerified(7, 100, 1) && s1.store == EMPTY && s1.past.owner == map[];
    var s2 := LoginCreate(s1, 0, 5);
    assert At(s2, 0) == LoginCreated(7, 100, 1, 5);
    assert s2.store.sessions[5] == Session(7, Some(1), SESSION_TTL) && s2.store.now == 0;
  }

  lemma LetInIsAuthenticated(s: State, t: TaskId)
    requires Stamped(s, 1) && At(s, t).NoTask?
    ensures var s' := LetIn(s, t);
      Stamped(s', 1) && At(s', t) == Authenticated(5, 7) && forall x | x != t :: At(s', x) == At(s, x)
  {
    var s1 := GuardValidate(s, t, 5);
    assert At(s1, t) == GuardValidated(5, Validated(s.store, 5).value, s.past.origin[5]);
    assert Stamped(s1, 1);
  }

  lemma RevocationIsInVain(s: State, t: TaskId)
    requires Stamped(s, 1) && At(s, t) == Authenticated(5, 7)
    ensures var s' := RevokedInVain(s, t);
      Stamped(s', 2) && At(s', t).NoTask? && forall x | x != t :: At(s', x) == At(s, x)
  {
    var s1 := RevokeCommit(s, t);
    assert At(s1, t) == RevokeCleanup(7, 1) && Stamped(s1, 2);
    assert At(RevokeClean(s1, t, Down), t) == RevokeCleanup(7, 2);
    assert At(RevokeClean(RevokeClean(s1, t, Down), t, Down), t) == RevokeCleanup(7, 3);
  }

  /** The run: request 1 is let in and verifies the current password; then request 2 revokes all sessions. */
  function RevokedUnderway(): State {
    RevokedInVain(LetIn(Verified(LetIn(SignedIn(NOBODY), 1), 1), 2), 2)
  }

  lemma ReachesRevoked()
    ensures Reached(RevokedUnderway())
  {
    assert Run(NOBODY, []) == NOBODY;
    ThenLogin(NOBODY);
    var s1 := SignedIn(NOBODY);
    ThenLetIn(s1, 1);
    ThenVerified(LetIn(s1, 1), 1);
    ThenLetIn(Verified(LetIn(s1, 1), 1), 2);
    ThenRevoked(LetIn(Verified(LetIn(s1, 1), 1), 2), 2);
  }

  lemma RevokedUnderwayFacts()
    ensures var s := RevokedUnderway();
      Stamped(s, 2) && At(s, 1).ChangeVerified? && At(s, 1).sid == 5 && At(s, 2).NoTask?
  {
    LoginStamps();
    var s1 := SignedIn(NOBODY);
    LetInIsAuthenticated(s1, 1);
    var s2 := LetIn(s1, 1);
    VerifiedKeeps(s2, 1);
    var s3 := Verified(s2, 1);
    LetInIsAuthenticated(s3, 2);
    RevocationIsInVain(LetIn(s3, 2), 2);
  }

  lemma VerifiedKeeps(s: State, t: TaskId)
    requires Stamped(s, 1) && At(s, t) == Authenticated(5, 7)
    ensures var s' := Verified(s, t);
      && Stamped(s', 1) && At(s', t).ChangeVerified? && At(s', t).sid == 5
      && forall x | x != t :: At(s', x) == At(s, x)
  {
  }

  lemma NobodyIsInitial()
    ensures Initial(NOBODY)
  {
    assert Live(NOBODY.store) == map[];
  }

  lemma ReachedInv(s: State)
    requires Reached(s)
    ensures AuthTheorems.Inv(s) && ChangesInv(s.past)
  {
    var es :| Run(NOBODY, es) == s;
    NobodyIsInitial();
    InitialInv(NOBODY);
    RunInv(NOBODY, es);
  }

  lemma ReturnsFrom(s: State)
    requires Reached(s) && Stamped(s, 2) && At(s, 1).ChangeVerified? && At(s, 1).sid == 5
    ensures Revoked(s, 5, 7) && CanBeAccepted(s, 5)
  {
    ReachedInv(s);
    AcceptedWhenChanged(s, 1, 5, 7);
  }

  lemma ReachesRevokedState() returns (s: State)
    ensures Reached(s) && Stamped(s, 2) && At(s, 1).ChangeVerified? && At(s, 1).sid == 5 && At(s, 2).NoTask?
  {
    ReachesRevoked();
    RevokedUnderwayFacts();
    s := RevokedUnderway();
  }

  /** A run from an empty system in which session 5 is alive, stamped 1 and revoked, its user's epoch being 2 and
      the revocation over, and yet comes back: its own password change, which the guard had let in before, stamps
      it anew. */
  lemma RevokedSessionCanReturn() returns (s: State)
    ensures Reached(s) && Stamped(s, 2) && At(s, 2).NoTask? && Revoked(s, 5, 7)
    ensures CanBeAccepted(s, 5)
  {
    s := ReachesRevokedState();
    ReturnsFrom(s);
  }
}
