/**
  When a login is answered with success, where the password checks of a run are, and how sessions end.  A login
  reads the row, verifies the password, creates the session and then reads the row again; anything may happen
  between two of these steps.
*/
module AuthLogins {
  import opened Wrappers
  import opened SessionStore
  import opened AuthProtocol
  import opened AuthTheorems
  import opened AuthRevocation
  import opened AuthPasswordChanges

  // ---------------------------------------------------------------- changes and revocations along a run

  /** The step commits a password change or a revocation of the user. */
  predicate CommitsRotation(s: State, e: Event, u: UserId) {
    || CommitsChange(s, e, u)
    || (e.EvRevokeCommit? && At(s, e.t).Authenticated? && At(s, e.t).u == u && u in s.users)
  }

  predicate RotatesAlong(s: State, es: seq<Event>, u: UserId)
    decreases |es|
  {
    es != [] && (CommitsRotation(s, es[0], u) || RotatesAlong(Step(s, es[0]), es[1..], u))
  }

  lemma RotationStep(s: State, e: Event, u: UserId)
    requires u in s.users
    ensures u in Step(s, e).users
    ensures if CommitsRotation(s, e, u) then Step(s, e).users[u].epoch == s.users[u].epoch + 1
            else Step(s, e).users[u] == s.users[u]
  {
    if !e.EvChangeCommit? && !e.EvRevokeCommit? && !e.EvSignup? {
      UsersStay(s, e);
    }
  }

  lemma UsersStay(s: State, e: Event)
    requires !e.EvChangeCommit? && !e.EvRevokeCommit? && !e.EvSignup?
    ensures Step(s, e).users == s.users
  {
  }

  /** The epoch tells whether any committed along the run, and without one the row is as it was. */
  lemma {:induction false} RotationsAreCounted(s: State, es: seq<Event>, u: UserId)
    requires u in s.users
    ensures u in Run(s, es).users && s.users[u].epoch <= Run(s, es).users[u].epoch
    ensures Run(s, es).users[u].epoch == s.users[u].epoch <==> !RotatesAlong(s, es, u)
    ensures !RotatesAlong(s, es, u) ==> Run(s, es).users[u] == s.users[u]
    decreases |es|
  {
    if es != [] {
      RotationStep(s, es[0], u);
      RotationsAreCounted(Step(s, es[0]), es[1..], u);
    }
  }

  // ---------------------------------------------------------------- what a login has read

  predicate InLogin(k: Task) {
    k.LoginRead? || k.LoginVerified? || k.LoginCreated?
  }

  predicate LoginHasRead(k: Task, u: UserId, h: Hash, epoch: int) {
    InLogin(k) ==> k.u == u && k.hash == h && k.epoch == epoch
  }

  lemma LoginReadStays(s: State, e: Event, t: TaskId, u: UserId, h: Hash, epoch: int)
    requires LoginHasRead(At(s, t), u, h, epoch) && !(e.EvLoginFind? && e.t == t)
    ensures LoginHasRead(At(Step(s, e), t), u, h, epoch)
  {
    if Mover(e) != Some(t) {
      OthersStand(s, e, t);
    } else if Rotates(e) && InLogin(At(Step(s, e), t)) {
      RotationLeavesLogin(s, e, t);
    }
  }

  lemma RotationLeavesLogin(s: State, e: Event, t: TaskId)
    requires Rotates(e) && InLogin(At(Step(s, e), t))
    ensures At(Step(s, e), t) == At(s, t)
  {
  }

  ghost predicate NoFind(es: seq<Event>, t: TaskId) {
    forall e | e in es :: !(e.EvLoginFind? && e.t == t)
  }

  lemma {:induction false} LoginReadLasts(s: State, es: seq<Event>, t: TaskId, u: UserId, h: Hash, epoch: int)
    requires LoginHasRead(At(s, t), u, h, epoch) && NoFind(es, t)
    ensures LoginHasRead(At(Run(s, es), t), u, h, epoch)
    decreases |es|
  {
    if es != [] {
      LoginReadStays(s, es[0], t, u, h, epoch);
      LoginReadLasts(Step(s, es[0]), es[1..], t, u, h, epoch);
    }
  }

  /** A login passes the password check only with the right password. */
  lemma CheckIsNeeded(s: State, e: Event, t: TaskId)
    requires !At(s, t).LoginVerified? && !At(s, t).LoginCreated? && e != EvLoginVerify(t, true)
    ensures !At(Step(s, e), t).LoginVerified? && !At(Step(s, e), t).LoginCreated?
  {
    if Mover(e) != Some(t) {
      OthersStand(s, e, t);
    } else if Rotates(e) && InLogin(At(Step(s, e), t)) {
      RotationLeavesLogin(s, e, t);
    }
  }

  lemma {:induction false} CheckWasMade(s: State, es: seq<Event>, t: TaskId)
    requires !At(s, t).LoginVerified? && !At(s, t).LoginCreated?
    ensures At(Run(s, es), t).LoginVerified? || At(Run(s, es), t).LoginCreated? ==> EvLoginVerify(t, true) in es
    decreases |es|
  {
    if es != [] && es[0] != EvLoginVerify(t, true) {
      CheckIsNeeded(s, es[0], t);
      CheckWasMade(Step(s, es[0]), es[1..], t);
    }
  }

  // ---------------------------------------------------------------- the stamp of a session that is not yet handed out

  /** As long as the user's epoch has not moved on, a login's new session carries it, and no change keeps it. */
  ghost predicate StampOk(s: State, t: TaskId) {
    At(s, t).LoginCreated? && At(s, t).u in s.users && s.users[At(s, t).u].epoch == At(s, t).epoch ==>
      && (At(s, t).sid in Live(s.store) ==> Live(s.store)[At(s, t).sid].epoch == Some(At(s, t).epoch))
      && forall x :: !(At(s, x).ChangeCleanup? && At(s, x).sid == At(s, t).sid)
  }

  lemma StampCreated(s: State, t: TaskId, sid: SessionId)
    requires AuthTheorems.Inv(s) && StampOk(s, t)
    ensures StampOk(LoginCreate(s, t, sid), t)
  {
    if At(s, t).LoginVerified? && sid !in s.past.owner {
      var k, s' := At(s, t), LoginCreate(s, t, sid);
      ApplyRefines(s.store, s.past.owner.Keys, OpCreate(sid, k.u, Some(k.epoch)));
      forall x
        ensures !(At(s', x).ChangeCleanup? && At(s', x).sid == sid)
      {
        TaskAt(s, x);
      }
    }
  }

  /** A change that keeps the session has moved the user to a new epoch. */
  lemma StampKept(s: State, e: Event, t: TaskId)
    requires AuthTheorems.Inv(s) && StampOk(s, t) && At(s, t).LoginCreated? && At(Step(s, e), t) == At(s, t)
    requires At(s, t).u in s.users && At(s, t).epoch <= s.users[At(s, t).u].epoch
    ensures StampOk(Step(s, e), t)
  {
    var LoginCreated(u, _, epoch, sid) := At(s, t);
    var s' := Step(s, e);
    RotationStep(s, e, u);
    if s'.users[u].epoch == epoch {
      assert s.users[u].epoch == epoch;
      TaskAt(s, t);
      forall x
        ensures !(At(s', x).ChangeCleanup? && At(s', x).sid == sid)
      {
        if At(s', x).ChangeCleanup? && At(s', x).sid == sid {
          CleanupIsCommitted(s, e, x, sid, u);
        }
      }
      if sid in Live(s'.store) {
        LiveStep(s, e, sid);
      }
    }
  }

  lemma CleanupIsCommitted(s: State, e: Event, x: TaskId, sid: SessionId, u: UserId)
    requires AuthTheorems.Inv(s) && Owns(s.past, u, sid) && u in s.users && !CommitsRotation(s, e, u)
    requires At(Step(s, e), x).ChangeCleanup? && At(Step(s, e), x).sid == sid
    ensures At(s, x).ChangeCleanup? && At(s, x).sid == sid
  {
    TaskAt(s, x);
    if Mover(e) != Some(x) {
      OthersStand(s, e, x);
    }
  }

  lemma {:induction false} StampLasts(s: State, es: seq<Event>, t: TaskId, u: UserId, h: Hash, epoch: int)
    requires AuthTheorems.Inv(s) && ChangesInv(s.past) && StampOk(s, t) && NoFind(es, t)
    requires LoginHasRead(At(s, t), u, h, epoch) && u in s.users && epoch <= s.users[u].epoch
    ensures StampOk(Run(s, es), t)
    decreases |es|
  {
    if es != [] {
      StampStep(s, es[0], t, u, h, epoch);
      StepInv(s, es[0]);
      RotationStep(s, es[0], u);
      LoginReadStays(s, es[0], t, u, h, epoch);
      StampLasts(Step(s, es[0]), es[1..], t, u, h, epoch);
    }
  }

  lemma StampStep(s: State, e: Event, t: TaskId, u: UserId, h: Hash, epoch: int)
    requires AuthTheorems.Inv(s) && StampOk(s, t)
    requires LoginHasRead(At(s, t), u, h, epoch) && u in s.users && epoch <= s.users[u].epoch
    ensures StampOk(Step(s, e), t)
  {
    if e.EvLoginCreate? && e.t == t {
      StampCreated(s, t, e.sid);
    } else if At(Step(s, e), t).LoginCreated? {
      CreatedBefore(s, e, t);
      StampKept(s, e, t);
    }
  }

  lemma CreatedBefore(s: State, e: Event, t: TaskId)
    requires At(Step(s, e), t).LoginCreated? && !(e.EvLoginCreate? && e.t == t)
    ensures At(Step(s, e), t) == At(s, t)
  {
    if Mover(e) != Some(t) {
      OthersStand(s, e, t);
    } else if Rotates(e) {
      RotationLeavesLogin(s, e, t);
    }
  }

  // ---------------------------------------------------------------- the answer

  /** A login has created its session and now reads the row again. */
  lemma Rechecked(s: State, t: TaskId, readFails: bool)
    requires AuthTheorems.Inv(s) && At(s, t).LoginCreated? && At(s, t).u in s.users
    requires HashOf(s.past, At(s, t).u, At(s, t).epoch, At(s, t).hash)
    ensures var k, s' := At(s, t), LoginRecheck(s, t, readFails);
      && s' == Put(s, t, At(s', t))
      && if !readFails && s.users[k.u].epoch == k.epoch then At(s', t).NoTask? && s.users[k.u].hash == k.hash
         else At(s', t) == Refusing(k.sid)
  {
  }

  lemma RefusalEnds(s: State, t: TaskId, sid: SessionId)
    requires AuthTheorems.Inv(s) && At(s, t) == Refusing(sid)
    ensures sid !in Live(Refuse(s, t, false).store)
  {
    ApplyRefines(s.store, s.past.owner.Keys, OpDestroy(sid));
  }

  /** In every run, whatever steps `fs` happen since the login read the row: it is answered with success exactly if
      the row can be read again and no change or revocation of that user committed in between.  Then the password
      was right, the row still holds the hash it was checked against, and the new session, if it is still alive,
      carries the user's present epoch.  Otherwise the session is refused, and gone once Redis answers. */
  lemma LoginSucceedsExactly(s0: State, es: seq<Event>, t: TaskId, u: UserId, fs: seq<Event>, readFails: bool)
    requires Initial(s0) && NoFind(fs, t)
    ensures var before := Run(s0, es);
      var found := LoginFind(before, t, u);
      var s := Run(found, fs);
      At(before, t).NoTask? && u in before.users && At(s, t).LoginCreated? ==>
        var k, s' := At(s, t), LoginRecheck(s, t, readFails);
        && k.u == u && u in s.users && EvLoginVerify(t, true) in fs
        && (At(s', t).NoTask? <==> !readFails && !RotatesAlong(found, fs, u))
        && (if At(s', t).NoTask? then
              && s.users[u].hash == k.hash == before.users[u].hash
              && (k.sid in Live(s'.store) ==> Live(s'.store)[k.sid].epoch == Some(s.users[u].epoch))
            else At(s', t) == Refusing(k.sid) && k.sid !in Live(Refuse(s', t, false).store))
  {
    var before := Run(s0, es);
    InitialInv(s0);
    RunInv(s0, es);
    if At(before, t).NoTask? && u in before.users && At(Run(LoginFind(before, t, u), fs), t).LoginCreated? {
      AnsweredFrom(before, t, u, fs, readFails);
    }
  }

  lemma FindInv(s: State, t: TaskId, u: UserId)
    requires AuthTheorems.Inv(s) && ChangesInv(s.past)
    ensures AuthTheorems.Inv(LoginFind(s, t, u)) && ChangesInv(LoginFind(s, t, u).past)
  {
    StepInv(s, EvLoginFind(t, u));
  }

  lemma AnsweredFrom(s: State, t: TaskId, u: UserId, fs: seq<Event>, readFails: bool)
    requires AuthTheorems.Inv(s) && ChangesInv(s.past) && NoFind(fs, t)
    requires At(s, t).NoTask? && u in s.users && At(Run(LoginFind(s, t, u), fs), t).LoginCreated?
    ensures var found := LoginFind(s, t, u);
      var r := Run(found, fs);
      var k, r' := At(r, t), LoginRecheck(r, t, readFails);
      && k.u == u && u in r.users && EvLoginVerify(t, true) in fs
      && (At(r', t).NoTask? <==> !readFails && !RotatesAlong(found, fs, u))
      && (if At(r', t).NoTask? then
            && r.users[u].hash == k.hash == s.users[u].hash
            && (k.sid in Live(r'.store) ==> Live(r'.store)[k.sid].epoch == Some(r.users[u].epoch))
          else At(r', t) == Refusing(k.sid) && k.sid !in Live(Refuse(r', t, false).store))
  {
    var found := LoginFind(s, t, u);
    var r, h, epoch := Run(found, fs), s.users[u].hash, s.users[u].epoch;
    var r' := LoginRecheck(r, t, readFails);
    FindInv(s, t, u);
    RunInv(found, fs);
    LoginReadLasts(found, fs, t, u, h, epoch);
    CheckWasMade(found, fs, t);
    RotationsAreCounted(found, fs, u);
    StampLasts(found, fs, t, u, h, epoch);
    HashesStay(found, fs);
    Rechecked(r, t, readFails);
    RecheckInv(r, t, readFails);
    if At(r', t).Refusing? {
      RefusalEnds(r', t, At(r, t).sid);
    }
  }

  /** What hash was in force at an epoch is never forgotten. */
  lemma {:induction false} HashesStay(s: State, es: seq<Event>)
    requires AuthTheorems.Inv(s) && ChangesInv(s.past)
    ensures forall k | k in s.past.hashes :: k in Run(s, es).past.hashes && Run(s, es).past.hashes[k] == s.past.hashes[k]
    decreases |es|
  {
    if es != [] {
      StepInv(s, es[0]);
      HashesStay(Step(s, es[0]), es[1..]);
    }
  }

  // ---------------------------------------------------------------- the password checks of a run

  /** The step is a login's successful check of this hash. */
  predicate ChecksPassword(s: State, e: Event, u: UserId, h: Hash) {
    e.EvLoginVerify? && e.matches && At(s, e.t).LoginRead? && At(s, e.t).u == u && At(s, e.t).hash == h
  }

  lemma VerifiedStep(s: State, e: Event, u: UserId, h: Hash)
    ensures (u, h) in Step(s, e).past.verified <==> (u, h) in s.past.verified || ChecksPassword(s, e, u, h)
  {
    if !e.EvLoginVerify? {
      NothingVerified(s, e);
    }
  }

  lemma NothingVerified(s: State, e: Event)
    requires !e.EvLoginVerify?
    ensures Step(s, e).past.verified == s.past.verified
  {
  }

  /** A hash counts as verified exactly if some login of the run was given the right password for it. */
  lemma {:induction false} VerifiedExactly(s: State, es: seq<Event>, u: UserId, h: Hash)
    requires (u, h) !in s.past.verified
    ensures (u, h) in Run(s, es).past.verified
       <==> exists i :: 0 <= i < |es| && ChecksPassword(Run(s, es[..i]), es[i], u, h)
    decreases |es|
  {
    if es != [] {
      var n := |es| - 1;
      var front, last := es[..n], es[n];
      VerifiedExactly(s, front, u, h);
      RunSplit(s, front, [last]);
      assert front + [last] == es && [last][1..] == [];
      assert Run(s, es) == Step(Run(s, front), last);
      VerifiedStep(Run(s, front), last, u, h);
      assert forall i | 0 <= i < n :: front[..i] == es[..i] && front[i] == es[i];
    }
  }

  // ---------------------------------------------------------------- an undisturbed login

  function LoggingIn(s: State, t: TaskId, u: UserId, sid: SessionId): State {
    LoginRecheck(LoginCreate(LoginVerify(LoginFind(s, t, u), t, true), t, sid), t, false)
  }

  lemma LoggingInLeaves(s: State, t: TaskId, u: UserId, sid: SessionId)
    requires AuthTheorems.Inv(s) && At(s, t).NoTask? && u in s.users && sid !in s.past.owner
    ensures var s' := LoggingIn(s, t, u, sid);
      && s'.users == s.users && At(s', t).NoTask? && sid in s'.past.origin
      && Live(s'.store) == Live(s.store)[sid := Session(u, Some(s.users[u].epoch), s.store.now + SESSION_TTL)]
      && s'.store.now == s.store.now
  {
    var UserRow(h, e) := s.users[u];
    ApplyRefines(s.store, s.past.owner.Keys, OpCreate(sid, u, Some(e)));
    var s1 := LoginVerify(LoginFind(s, t, u), t, true);
    assert At(s1, t) == LoginVerified(u, h, e);
    assert At(LoginCreate(s1, t, sid), t) == LoginCreated(u, h, e, sid);
  }

  /** From any state an undisturbed login with the right password yields a session that the guard lets in. */
  lemma FreshLoginIsLetIn(s0: State, es: seq<Event>, t: TaskId, u: UserId, sid: SessionId)
    requires Initial(s0)
    ensures var s := Run(s0, es);
      At(s, t).NoTask? && u in s.users && sid !in s.past.owner ==>
        var s' := LoggingIn(s, t, u, sid);
        At(s', t).NoTask? && At(GuardDecide(GuardValidate(s', t, sid), t), t) == Authenticated(sid, u)
  {
    var s := Run(s0, es);
    InitialInv(s0);
    RunInv(s0, es);
    if At(s, t).NoTask? && u in s.users && sid !in s.past.owner {
      LoggingInLeaves(s, t, u, sid);
      LetsIn(LoggingIn(s, t, u, sid), t, u, sid);
    }
  }

  lemma LetsIn(s: State, t: TaskId, u: UserId, sid: SessionId)
    requires At(s, t).NoTask? && sid in s.past.origin && u in s.users && 1 <= s.users[u].epoch
    requires sid in Live(s.store) && Live(s.store)[sid].user == u && Live(s.store)[sid].epoch == Some(s.users[u].epoch)
    ensures At(GuardDecide(GuardValidate(s, t, sid), t), t) == Authenticated(sid, u)
  {
    assert At(GuardValidate(s, t, sid), t) == GuardValidated(sid, Validated(s.store, sid).value, s.past.origin[sid]);
  }

  // ---------------------------------------------------------------- the clean-up gives up

  /** A request that has committed a change or a revocation and is cleaning up in Redis. */
  predicate CleansUp(k: Task) {
    k.ChangeCleanup? || k.RevokeCleanup?
  }

  function Clean(s: State, t: TaskId, reply: Reply): State {
    if At(s, t).ChangeCleanup? then ChangeClean(s, t, reply) else RevokeClean(s, t, reply)
  }

  lemma CleanOnce(s: State, t: TaskId, reply: Reply)
    requires CleansUp(At(s, t))
    ensures var k := At(Clean(s, t, reply), t);
      if reply.Done? || At(s, t).attempt >= 3 then k.NoTask? else CleansUp(k) && k.attempt == At(s, t).attempt + 1
  {
  }

  lemma CleansNothing(s: State, t: TaskId, reply: Reply)
    requires At(s, t).NoTask?
    ensures Clean(s, t, reply) == s
  {
  }

  /** A clean-up that Redis does not confirm is tried three times in all, and never again after a confirmation. */
  lemma CleanupTriesThrice(s: State, t: TaskId, first: Reply, second: Reply, third: Reply)
    requires CleansUp(At(s, t)) && At(s, t).attempt == 1
    ensures var s1 := Clean(s, t, first);
      var s2 := Clean(s1, t, second);
      && (CleansUp(At(s1, t)) <==> !first.Done?) && (CleansUp(At(s2, t)) <==> !first.Done? && !second.Done?)
      && At(Clean(s2, t, third), t).NoTask?
  {
    var s1 := Clean(s, t, first);
    var s2 := Clean(s1, t, second);
    CleanOnce(s, t, first);
    if first.Done? {
      CleansNothing(s1, t, second);
    } else {
      CleanOnce(s1, t, second);
    }
    if CleansUp(At(s2, t)) {
      CleanOnce(s2, t, third);
    } else {
      CleansNothing(s2, t, third);
    }
  }

  // ---------------------------------------------------------------- how sessions end

  /** The step is meant to end the session: its logout, a refusal, a revocation's clean-up, or that of a password
      change that keeps another. */
  predicate EndsSession(s: State, e: Event, sid: SessionId, u: UserId) {
    match e
    case EvLogout(t) => At(s, t).Authenticated? && At(s, t).sid == sid
    case EvRefuse(t, fails) => At(s, t) == Refusing(sid) && !fails
    case EvRevokeClean(t, reply) => At(s, t).RevokeCleanup? && At(s, t).u == u && !reply.Down?
    case EvChangeClean(t, reply) => At(s, t).ChangeCleanup? && At(s, t).u == u && At(s, t).sid != sid && !reply.Down?
    case _ => false
  }

  lemma EndedIsDead(s: State, e: Event, sid: SessionId, u: UserId)
    requires AuthTheorems.Inv(s) && Owns(s.past, u, sid) && EndsSession(s, e, sid, u)
    ensures sid !in Live(Step(s, e).store)
  {
    StoreStep(s, e);
    OpIsCalled(s, e);
    ApplyRefines(s.store, s.past.owner.Keys, StoreOp(s, e).value);
    if sid in Live(s.store) {
      assert Accounted(s.past, sid, Live(s.store)[sid].user, Live(s.store)[sid].epoch, s.past.origin[sid]);
    }
  }

  /** In every run: a session that a step has ended is gone, whatever stamp it carries, and can only be accepted by
      a guard that has validated it before, with the present epoch. */
  lemma EndedSessionsStayEnded(s0: State, es: seq<Event>, e: Event, sid: SessionId, u: UserId)
    requires Initial(s0)
    ensures var s := Run(s0, es);
      u in s.users && Owns(s.past, u, sid) && EndsSession(s, e, sid, u) ==>
        var s' := Step(s, e);
        && sid !in Live(s'.store)
        && (CanBeAccepted(s', sid) <==> exists t :: t in s'.tasks && AcceptsNow(s', t, sid))
  {
    var s := Run(s0, es);
    InitialInv(s0);
    RunInv(s0, es);
    if u in s.users && Owns(s.past, u, sid) && EndsSession(s, e, sid, u) {
      EndedIsDead(s, e, sid, u);
      StepInv(s, e);
      StepEpochs(s, e);
      AcceptableExactly(Step(s, e), sid, u);
    }
  }
}
