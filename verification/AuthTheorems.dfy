/** Where an accepted session comes from, in every run of the authentication protocol. */
module AuthTheorems {
  import opened Wrappers
  import opened SessionStore
  import opened AuthProtocol

  // ---------------------------------------------------------------- the invariant

  /** The epoch of a session is accounted for. */
  predicate Accounted(p: Past, sid: SessionId, u: UserId, epoch: Option<int>, o: Origin) {
    && sid in p.owner && p.owner[sid] == u
    && match epoch
       case None => o.Legacy?
       case Some(e) =>
         && (u, e) in p.hashes
         && match o
            case LoggedIn(h) => (u, h) in p.verified && p.hashes[(u, e)] == h
            case Kept => (u, e) in p.changes && p.changes[(u, e)] == sid
            case Legacy => false
  }

  predicate HashOf(p: Past, u: UserId, e: int, h: Hash) {
    (u, e) in p.hashes && p.hashes[(u, e)] == h
  }

  predicate Owns(p: Past, u: UserId, sid: SessionId) {
    sid in p.owner && p.owner[sid] == u
  }

  predicate TaskOk(p: Past, k: Task) {
    match k
    case LoginRead(u, h, e) => HashOf(p, u, e, h)
    case LoginVerified(u, h, e) => HashOf(p, u, e, h) && (u, h) in p.verified
    case LoginCreated(u, h, e, sid) => Owns(p, u, sid)
    case GuardValidated(sid, session, o) => Accounted(p, sid, session.user, session.epoch, o)
    case Authenticated(sid, u) => Owns(p, u, sid)
    case ChangeRead(sid, u, h, e) => Owns(p, u, sid) && HashOf(p, u, e, h)
    case ChangeVerified(sid, u, h, e) => Owns(p, u, sid) && HashOf(p, u, e, h)
    case ChangeCleanup(sid, u, e, _) =>
      Owns(p, u, sid) && (u, e) in p.hashes && (u, e) in p.changes && p.changes[(u, e)] == sid
    case _ => true
  }

  ghost predicate UsersInv(users: map<UserId, UserRow>, p: Past) {
    && (forall u | u in users :: 1 <= users[u].epoch && HashOf(p, u, users[u].epoch, users[u].hash))
    && (forall u, e | (u, e) in p.hashes :: u in users && 1 <= e <= users[u].epoch)
  }

  ghost predicate SessionsInv(live: map<SessionId, Session>, p: Past) {
    forall sid | sid in live :: sid in p.origin && Accounted(p, sid, live[sid].user, live[sid].epoch, p.origin[sid])
  }

  ghost predicate StoreInv(st: Store, p: Past) {
    SessionStore.Inv(st) && KnownKeys(st, p.owner.Keys) && SessionsInv(Live(st), p)
  }

  ghost predicate Inv(s: State) {
    && UsersInv(s.users, s.past)
    && StoreInv(s.store, s.past)
    && (forall t | t in s.tasks :: TaskOk(s.past, s.tasks[t]))
  }

  // ---------------------------------------------------------------- framing

  /** The past only grows. */
  predicate Grows(p: Past, q: Past) {
    && (forall k | k in p.hashes :: k in q.hashes && q.hashes[k] == p.hashes[k])
    && (forall k | k in p.owner :: k in q.owner && q.owner[k] == p.owner[k])
    && p.verified <= q.verified
    && (forall k | k in p.changes :: k in q.changes && q.changes[k] == p.changes[k])
  }

  lemma TaskStable(p: Past, q: Past, k: Task)
    requires Grows(p, q) && TaskOk(p, k)
    ensures TaskOk(q, k)
  {
  }

  lemma SessionsStable(live: map<SessionId, Session>, p: Past, q: Past)
    requires Grows(p, q) && SessionsInv(live, p)
    requires forall sid | sid in live :: sid in q.origin && q.origin[sid] == p.origin[sid]
    ensures SessionsInv(live, q)
  {
    forall sid | sid in live
      ensures Accounted(q, sid, live[sid].user, live[sid].epoch, q.origin[sid])
    {
      assert Accounted(p, sid, live[sid].user, live[sid].epoch, p.origin[sid]);
    }
  }

  lemma Frame(s: State, users: map<UserId, UserRow>, st: Store, p: Past, t: TaskId, k: Task)
    requires Inv(s) && UsersInv(users, p) && StoreInv(st, p) && Grows(s.past, p) && TaskOk(p, k)
    ensures Inv(Put(State(users, st, s.tasks, p), t, k))
  {
    var s' := Put(State(users, st, s.tasks, p), t, k);
    forall x | x in s'.tasks
      ensures TaskOk(p, s'.tasks[x])
    {
      if x != t {
        TaskStable(s.past, p, s.tasks[x]);
      }
    }
  }

  lemma Local(s: State, t: TaskId, k: Task)
    requires Inv(s) && TaskOk(s.past, k)
    ensures Inv(Put(s, t, k))
  {
    Frame(s, s.users, s.store, s.past, t, k);
  }

  lemma TaskAt(s: State, t: TaskId)
    requires Inv(s)
    ensures TaskOk(s.past, At(s, t))
  {
    if t in s.tasks {
      assert TaskOk(s.past, s.tasks[t]);
    }
  }

  // ---------------------------------------------------------------- the scripts keep the store in order

  lemma CreateStoreInv(st: Store, p: Past, sid: SessionId, u: UserId, h: Hash, e: int)
    requires StoreInv(st, p) && sid !in p.owner && HashOf(p, u, e, h) && (u, h) in p.verified
    ensures var q := p.(owner := p.owner[sid := u], origin := p.origin[sid := LoggedIn(h)]);
      StoreInv(Create(st, sid, u, Some(e)), q) && Grows(p, q)
  {
    var q := p.(owner := p.owner[sid := u], origin := p.origin[sid := LoggedIn(h)]);
    ApplyRefines(st, p.owner.Keys, OpCreate(sid, u, Some(e)));
    assert q.owner.Keys == p.owner.Keys + {sid};
    var live := Live(Create(st, sid, u, Some(e)));
    forall x | x in live
      ensures x in q.origin && Accounted(q, x, live[x].user, live[x].epoch, q.origin[x])
    {
      if x != sid {
        assert x in Live(st) && Accounted(p, x, live[x].user, live[x].epoch, p.origin[x]);
      }
    }
  }

  /** Any operation after which each live session is an earlier one with the same owner and epoch. */
  lemma ShrinkStoreInv(st: Store, p: Past, op: Op)
    requires StoreInv(st, p) && (op.OpValidate? || op.OpDestroy? || op.OpDestroyAll? || op.OpList? || op.OpTick?)
    ensures StoreInv(Apply(st, op), p)
  {
    ApplyRefines(st, p.owner.Keys, op);
    var live, live' := Live(st), Live(Apply(st, op));
    forall x | x in live'
      ensures x in p.origin && Accounted(p, x, live'[x].user, live'[x].epoch, p.origin[x])
    {
      assert x in live && live'[x].user == live[x].user && live'[x].epoch == live[x].epoch;
    }
  }

  lemma KeepStoreInv(st: Store, p: Past, u: UserId, sid: SessionId, e: int)
    requires StoreInv(st, p) && Owns(p, u, sid)
    requires (u, e) in p.hashes && (u, e) in p.changes && p.changes[(u, e)] == sid
    ensures var q := p.(origin := if Exists(st, sid) then p.origin[sid := Kept] else p.origin);
      StoreInv(DestroyOthers(st, u, Some(sid), Some(e)), q) && Grows(p, q)
  {
    var q := p.(origin := if Exists(st, sid) then p.origin[sid := Kept] else p.origin);
    var op := OpDestroyOthers(u, Some(sid), Some(e));
    if Exists(st, sid) {
      assert sid in Live(st);
    }
    ApplyRefines(st, p.owner.Keys, op);
    var live, live' := Live(st), Live(DestroyOthers(st, u, Some(sid), Some(e)));
    forall x | x in live'
      ensures x in q.origin && Accounted(q, x, live'[x].user, live'[x].epoch, q.origin[x])
    {
      assert x in live && Accounted(p, x, live[x].user, live[x].epoch, p.origin[x]);
      assert x == sid ==> Exists(st, sid);
    }
  }

  // ---------------------------------------------------------------- every step

  /** A step that moves a user to a new epoch. */
  lemma NewEpoch(s: State, u: UserId, h: Hash, changer: Option<SessionId>, q: Past)
    requires Inv(s) && u in s.users
    requires var e := s.users[u].epoch + 1;
      && q.hashes == s.past.hashes[(u, e) := h]
      && q.changes == (if changer.Some? then s.past.changes[(u, e) := changer.value] else s.past.changes)
      && q.owner == s.past.owner && q.origin == s.past.origin && q.verified == s.past.verified
      && (u, e) !in s.past.changes
    ensures UsersInv(s.users[u := UserRow(h, s.users[u].epoch + 1)], q)
    ensures StoreInv(s.store, q) && Grows(s.past, q)
  {
    SessionsStable(Live(s.store), s.past, q);
  }

  lemma MovesToNewEpoch(s: State, u: UserId, h: Hash, changer: Option<SessionId>, q: Past, t: TaskId, k: Task)
    requires Inv(s) && ChangesInv(s.past) && u in s.users
    requires var e := s.users[u].epoch + 1;
      && q == s.past.(hashes := s.past.hashes[(u, e) := h],
                      changes := if changer.Some? then s.past.changes[(u, e) := changer.value] else s.past.changes)
    requires TaskOk(q, k)
    ensures var s' := Put(State(s.users[u := UserRow(h, s.users[u].epoch + 1)], s.store, s.tasks, q), t, k);
      Inv(s') && ChangesInv(s'.past) && Grows(s.past, s'.past)
  {
    ChangesAreHashed(s);
    NewEpoch(s, u, h, changer, q);
    Frame(s, s.users[u := UserRow(h, s.users[u].epoch + 1)], s.store, q, t, k);
  }

  lemma ChangesAreHashed(s: State)
    requires Inv(s) && ChangesInv(s.past)
    ensures forall u | u in s.users :: (u, s.users[u].epoch + 1) !in s.past.changes
  {
  }

  /** Every password change has left the hash it installed. */
  predicate ChangesInv(p: Past) {
    forall k | k in p.changes :: k in p.hashes
  }

  /** The steps that move a user to a new epoch, or prepare or clean up after it. */
  predicate Rotates(e: Event) {
    e.EvChangeFind? || e.EvChangeVerify? || e.EvChangeCommit? || e.EvChangeClean? || e.EvRevokeCommit? || e.EvRevokeClean?
  }

  lemma RotationInv(s: State, e: Event)
    requires Inv(s) && ChangesInv(s.past) && Rotates(e)
    ensures Inv(Step(s, e)) && ChangesInv(Step(s, e).past) && Grows(s.past, Step(s, e).past)
  {
    match e {
      case EvChangeFind(t) => ChangeFindInv(s, t);
      case EvChangeVerify(t, accepted) => ChangeVerifyInv(s, t, accepted);
      case EvChangeCommit(t, h) => ChangeCommitInv(s, t, h);
      case EvChangeClean(t, reply) => ChangeCleanInv(s, t, reply);
      case EvRevokeCommit(t) => RevokeCommitInv(s, t);
      case EvRevokeClean(t, reply) => RevokeCleanInv(s, t, reply);
    }
  }

  lemma StepInv(s: State, e: Event)
    requires Inv(s) && ChangesInv(s.past)
    ensures Inv(Step(s, e)) && ChangesInv(Step(s, e).past) && Grows(s.past, Step(s, e).past)
  {
    if Rotates(e) {
      RotationInv(s, e);
    } else {
      match e {
        case EvSignup(u, h) => SignupInv(s, u, h);
        case EvLoginFind(t, u) =>
          if Step(s, e) != s {
            Local(s, t, LoginRead(u, s.users[u].hash, s.users[u].epoch));
          }
        case EvLoginVerify(t, matches) => LoginVerifyInv(s, t, matches);
        case EvLoginCreate(t, sid) => LoginCreateInv(s, t, sid);
        case EvLoginRecheck(t, readFails) => RecheckInv(s, t, readFails);
        case EvRefuse(t, fails) => RefuseInv(s, t, fails);
        case EvGuardValidate(t, sid) => GuardValidateInv(s, t, sid);
        case EvGuardDecide(t) => GuardDecideInv(s, t);
        case EvLogout(t) => LogoutInv(s, t);
        case EvList(u) => ShrinkStoreInv(s.store, s.past, OpList(u));
        case EvTick(d) => ShrinkStoreInv(s.store, s.past, OpTick(d));
        case EvAbandon(t) => Local(s, t, NoTask);
      }
    }
  }

  lemma SignupInv(s: State, u: UserId, h: Hash)
    requires Inv(s) && ChangesInv(s.past)
    ensures Inv(Signup(s, u, h)) && ChangesInv(Signup(s, u, h).past) && Grows(s.past, Signup(s, u, h).past)
  {
    if u !in s.users {
      var q := s.past.(hashes := s.past.hashes[(u, 1) := h]);
      SessionsStable(Live(s.store), s.past, q);
      forall t | t in s.tasks
        ensures TaskOk(q, s.tasks[t])
      {
        TaskStable(s.past, q, s.tasks[t]);
      }
    }
  }

  lemma LoginVerifyInv(s: State, t: TaskId, matches: bool)
    requires Inv(s) && ChangesInv(s.past)
    ensures var s' := LoginVerify(s, t, matches); Inv(s') && ChangesInv(s'.past) && Grows(s.past, s'.past)
  {
    if At(s, t).LoginRead? {
      TaskAt(s, t);
      if matches {
        var LoginRead(u, h, e) := At(s, t);
        var q := s.past.(verified := s.past.verified + {(u, h)});
        SessionsStable(Live(s.store), s.past, q);
        Frame(s, s.users, s.store, q, t, LoginVerified(u, h, e));
      } else {
        Local(s, t, NoTask);
      }
    }
  }

  lemma LoginCreateInv(s: State, t: TaskId, sid: SessionId)
    requires Inv(s) && ChangesInv(s.past)
    ensures var s' := LoginCreate(s, t, sid); Inv(s') && ChangesInv(s'.past) && Grows(s.past, s'.past)
  {
    if At(s, t).LoginVerified? && sid !in s.past.owner {
      TaskAt(s, t);
      var LoginVerified(u, h, e) := At(s, t);
      CreateStoreInv(s.store, s.past, sid, u, h, e);
      var q := s.past.(owner := s.past.owner[sid := u], origin := s.past.origin[sid := LoggedIn(h)]);
      Frame(s, s.users, Create(s.store, sid, u, Some(e)), q, t, LoginCreated(u, h, e, sid));
    }
  }

  lemma RecheckInv(s: State, t: TaskId, readFails: bool)
    requires Inv(s)
    ensures var s' := LoginRecheck(s, t, readFails); Inv(s') && s'.past == s.past
  {
    if At(s, t).LoginCreated? {
      var k := At(LoginRecheck(s, t, readFails), t);
      Local(s, t, k);
    }
  }

  lemma RefuseInv(s: State, t: TaskId, fails: bool)
    requires Inv(s)
    ensures var s' := Refuse(s, t, fails); Inv(s') && s'.past == s.past
  {
    if At(s, t).Refusing? {
      ShrinkStoreInv(s.store, s.past, OpDestroy(At(s, t).sid));
      Frame(s, s.users, if fails then s.store else Destroy(s.store, At(s, t).sid), s.past, t, NoTask);
    }
  }

  lemma GuardValidateInv(s: State, t: TaskId, sid: SessionId)
    requires Inv(s)
    ensures var s' := GuardValidate(s, t, sid); Inv(s') && s'.past == s.past
  {
    if GuardValidate(s, t, sid) != s && At(s, t).NoTask? && Exists(s.store, sid) && sid in s.past.origin {
      ShrinkStoreInv(s.store, s.past, OpValidate(sid));
      assert sid in Live(s.store);
      var session := Validated(s.store, sid).value;
      assert Accounted(s.past, sid, session.user, session.epoch, s.past.origin[sid]);
      Frame(s, s.users, Validate(s.store, sid), s.past, t, GuardValidated(sid, session, s.past.origin[sid]));
    }
  }

  lemma GuardDecideInv(s: State, t: TaskId)
    requires Inv(s)
    ensures var s' := GuardDecide(s, t); Inv(s') && s'.past == s.past
  {
    if At(s, t).GuardValidated? {
      TaskAt(s, t);
      Local(s, t, At(GuardDecide(s, t), t));
    }
  }

  lemma LogoutInv(s: State, t: TaskId)
    requires Inv(s)
    ensures var s' := Logout(s, t); Inv(s') && s'.past == s.past
  {
    if At(s, t).Authenticated? {
      ShrinkStoreInv(s.store, s.past, OpDestroy(At(s, t).sid));
      Frame(s, s.users, Destroy(s.store, At(s, t).sid), s.past, t, NoTask);
    }
  }

  lemma ChangeFindInv(s: State, t: TaskId)
    requires Inv(s)
    ensures var s' := ChangeFind(s, t); Inv(s') && s'.past == s.past
  {
    if At(s, t).Authenticated? {
      TaskAt(s, t);
      Local(s, t, At(ChangeFind(s, t), t));
    }
  }

  lemma ChangeVerifyInv(s: State, t: TaskId, accepted: bool)
    requires Inv(s)
    ensures var s' := ChangeVerify(s, t, accepted); Inv(s') && s'.past == s.past
  {
    if At(s, t).ChangeRead? {
      TaskAt(s, t);
      Local(s, t, At(ChangeVerify(s, t, accepted), t));
    }
  }

  lemma ChangeCommitInv(s: State, t: TaskId, h: Hash)
    requires Inv(s) && ChangesInv(s.past)
    ensures var s' := ChangeCommit(s, t, h); Inv(s') && ChangesInv(s'.past) && Grows(s.past, s'.past)
  {
    if At(s, t).ChangeVerified? {
      TaskAt(s, t);
      var u := At(s, t).u;
      if u !in s.users {
        Local(s, t, NoTask);
      } else if IsNewHash(s.past, u, h) {
        Changed(s, t, h, At(s, t).sid, u);
      }
    }
  }

  lemma Changed(s: State, t: TaskId, h: Hash, sid: SessionId, u: UserId)
    requires Inv(s) && ChangesInv(s.past) && At(s, t).ChangeVerified? && At(s, t).sid == sid && At(s, t).u == u
    requires Owns(s.past, u, sid) && u in s.users && IsNewHash(s.past, u, h)
    ensures var s' := ChangeCommit(s, t, h); Inv(s') && ChangesInv(s'.past) && Grows(s.past, s'.past)
  {
    var e := s.users[u].epoch + 1;
    var q := s.past.(hashes := s.past.hashes[(u, e) := h], changes := s.past.changes[(u, e) := sid]);
    MovesToNewEpoch(s, u, h, Some(sid), q, t, ChangeCleanup(sid, u, e, 1));
    assert ChangeCommit(s, t, h)
        == Put(State(s.users[u := UserRow(h, e)], s.store, s.tasks, q), t, ChangeCleanup(sid, u, e, 1));
  }

  lemma ChangeCleanInv(s: State, t: TaskId, reply: Reply)
    requires Inv(s) && ChangesInv(s.past)
    ensures var s' := ChangeClean(s, t, reply); Inv(s') && ChangesInv(s'.past) && Grows(s.past, s'.past)
  {
    if At(s, t).ChangeCleanup? {
      TaskAt(s, t);
      var ChangeCleanup(sid, u, e, attempt) := At(s, t);
      var k := At(ChangeClean(s, t, reply), t);
      if reply.Down? {
        Local(s, t, k);
      } else {
        KeepStoreInv(s.store, s.past, u, sid, e);
        var q := s.past.(origin := if Exists(s.store, sid) then s.past.origin[sid := Kept] else s.past.origin);
        Frame(s, s.users, DestroyOthers(s.store, u, Some(sid), Some(e)), q, t, k);
      }
    }
  }

  lemma RevokeCommitInv(s: State, t: TaskId)
    requires Inv(s) && ChangesInv(s.past)
    ensures var s' := RevokeCommit(s, t); Inv(s') && ChangesInv(s'.past) && Grows(s.past, s'.past)
  {
    if At(s, t).Authenticated? {
      var u := At(s, t).u;
      if u in s.users {
        var h, e := s.users[u].hash, s.users[u].epoch + 1;
        var q := s.past.(hashes := s.past.hashes[(u, e) := h]);
        MovesToNewEpoch(s, u, h, None, q, t, RevokeCleanup(u, 1));
      } else {
        Local(s, t, NoTask);
      }
    }
  }

  lemma RevokeCleanInv(s: State, t: TaskId, reply: Reply)
    requires Inv(s)
    ensures var s' := RevokeClean(s, t, reply); Inv(s') && s'.past == s.past
  {
    if At(s, t).RevokeCleanup? {
      TaskAt(s, t);
      var k := At(RevokeClean(s, t, reply), t);
      if reply.Down? {
        Local(s, t, k);
      } else {
        var u := At(s, t).u;
        ShrinkStoreInv(s.store, s.past, OpDestroyAll(u));
        Frame(s, s.users, DestroyAll(s.store, u), s.past, t, k);
      }
    }
  }

  // ---------------------------------------------------------------- every run

  lemma InitialInv(s: State)
    requires Initial(s)
    ensures Inv(s) && ChangesInv(s.past)
  {
  }

  /** Epochs never go back. */
  predicate EpochsGrow(s: State, s': State) {
    forall u | u in s.users :: u in s'.users && s.users[u].epoch <= s'.users[u].epoch
  }

  lemma StepEpochs(s: State, e: Event)
    ensures EpochsGrow(s, Step(s, e))
  {
  }

  lemma {:induction false} RunInv(s: State, es: seq<Event>)
    requires Inv(s) && ChangesInv(s.past)
    ensures Inv(Run(s, es)) && ChangesInv(Run(s, es).past) && EpochsGrow(s, Run(s, es))
    decreases |es|
  {
    if es != [] {
      StepInv(s, es[0]);
      StepEpochs(s, es[0]);
      RunInv(Step(s, es[0]), es[1..]);
    }
  }

  // ---------------------------------------------------------------- the theorems

  /** The guard is about to accept: it has validated the session and now reads the user. */
  predicate Accepting(s: State, t: TaskId) {
    && At(s, t).GuardValidated?
    && var session := At(s, t).session;
       session.user in s.users && Accepts(session.epoch, s.users[session.user].epoch)
  }

  /** Where the session that the guard is looking at got its right to be accepted. */
  predicate Provenance(s: State, t: TaskId)
    requires Accepting(s, t)
  {
    var GuardValidated(sid, session, origin) := At(s, t);
    var user := s.users[session.user];
    && Owns(s.past, session.user, sid)
    && match origin
       case LoggedIn(h) => session.epoch == Some(user.epoch) && h == user.hash && (session.user, h) in s.past.verified
       case Kept => session.epoch == Some(user.epoch)
                    && (session.user, user.epoch) in s.past.changes
                    && s.past.changes[(session.user, user.epoch)] == sid
       case Legacy => session.epoch.None? && user.epoch == 1
  }

  lemma AcceptedIsAccounted(s: State, t: TaskId)
    requires Inv(s) && Accepting(s, t)
    ensures Provenance(s, t)
  {
    TaskAt(s, t);
  }

  /** In every run, whatever logins are in flight, whatever password changes and revocations run
      concurrently and whichever Redis clean-ups fail: an accepted session that carries an epoch comes
      from a login verified against the hash the user has right now, or it is the one session kept by
      the password change that produced the current epoch.  A session without an epoch is accepted
      only while the user has never left epoch 1. */
  lemma AuthenticationProvenance(s0: State, es: seq<Event>, t: TaskId)
    requires Initial(s0)
    ensures Accepting(Run(s0, es), t) ==> Provenance(Run(s0, es), t)
  {
    InitialInv(s0);
    RunInv(s0, es);
    if Accepting(Run(s0, es), t) {
      AcceptedIsAccounted(Run(s0, es), t);
    }
  }

  lemma {:induction false} RunSplit(s: State, es: seq<Event>, fs: seq<Event>)
    ensures Run(s, es + fs) == Run(Run(s, es), fs)
    decreases |es|
  {
    if es == [] {
      assert es + fs == fs;
    } else {
      assert (es + fs)[1..] == es[1..] + fs;
      RunSplit(Step(s, es[0]), es[1..], fs);
    }
  }
}
