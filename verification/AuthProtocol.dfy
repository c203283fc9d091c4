/**
  Login, password change, revocation and the guard, interleaved at every await, on top of the real
  session scripts.  A database row per user carries the password hash and the security epoch; Redis
  may fail whenever it is asked to clean up; a request may be abandoned at any point.
*/
module AuthProtocol {
  import opened Wrappers
  import opened SessionStore

  /** A salted password hash: hashing the same password twice gives different values. */
  type Hash = nat

  type TaskId = nat

  datatype UserRow = UserRow(hash: Hash, epoch: int)

  /** How a session came by the epoch it carries. */
  datatype Origin = LoggedIn(checked: Hash) | Kept | Legacy

  datatype Task =
    | NoTask
    | LoginRead(u: UserId, hash: Hash, epoch: int)
    | LoginVerified(u: UserId, hash: Hash, epoch: int)
    | LoginCreated(u: UserId, hash: Hash, epoch: int, sid: SessionId)
    | Refusing(sid: SessionId)
    | GuardValidated(sid: SessionId, session: Session, origin: Origin)
    | Authenticated(sid: SessionId, u: UserId)
    | ChangeRead(sid: SessionId, u: UserId, hash: Hash, epoch: int)
    | ChangeVerified(sid: SessionId, u: UserId, hash: Hash, epoch: int)
    | ChangeCleanup(sid: SessionId, u: UserId, epoch: int, attempt: nat)
    | RevokeCleanup(u: UserId, attempt: nat)

  /** What has happened so far.  Steps consult it only for fresh session ids and hashes and to note a session's origin.
      `hashes` is the hash in force at each epoch of each user, `verified` the hashes some login presented the
      right password for, `changes` the session a password change chose to keep, by the epoch that change
      produced.  A password change remembers the hash and the epoch it has read; it uses only the hash. */
  datatype Past = Past(
    hashes: map<(UserId, int), Hash>,
    owner: map<SessionId, UserId>,
    origin: map<SessionId, Origin>,
    verified: set<(UserId, Hash)>,
    changes: map<(UserId, int), SessionId>)

  datatype State = State(users: map<UserId, UserRow>, store: Store, tasks: map<TaskId, Task>, past: Past)

  const MAX_ATTEMPTS := 3

  /** What a clean-up request to Redis meets: it is done, it is not done, or it is done but reported as failed. */
  datatype Reply = Done | Down | AnswerLost

  function At(s: State, t: TaskId): Task {
    if t in s.tasks then s.tasks[t] else NoTask
  }

  function Put(s: State, t: TaskId, k: Task): State {
    s.(tasks := s.tasks[t := k])
  }

  // ---------------------------------------------------------------- signup and login

  function Signup(s: State, u: UserId, h: Hash): State {
    if u in s.users then s
    else s.(users := s.users[u := UserRow(h, 1)], past := s.past.(hashes := s.past.hashes[(u, 1) := h]))
  }

  function LoginFind(s: State, t: TaskId, u: UserId): State {
    if At(s, t).NoTask? && u in s.users then Put(s, t, LoginRead(u, s.users[u].hash, s.users[u].epoch)) else s
  }

  /** argon2.verify against the hash that was read. */
  function LoginVerify(s: State, t: TaskId, matches: bool): State {
    match At(s, t)
    case LoginRead(u, h, e) =>
      if !matches then Put(s, t, NoTask)
      else Put(s.(past := s.past.(verified := s.past.verified + {(u, h)})), t, LoginVerified(u, h, e))
    case _ => s
  }

  /** createSession with the epoch that was read before the password was verified. */
  function LoginCreate(s: State, t: TaskId, sid: SessionId): State {
    match At(s, t)
    case LoginVerified(u, h, e) =>
      if sid in s.past.owner then s
      else
        Put(s.(store := Create(s.store, sid, u, Some(e)),
               past := s.past.(owner := s.past.owner[sid := u], origin := s.past.origin[sid := LoggedIn(h)])),
            t, LoginCreated(u, h, e, sid))
    case _ => s
  }

  /** The in-flight mitigation: the row is read again. */
  function LoginRecheck(s: State, t: TaskId, readFails: bool): State {
    match At(s, t)
    case LoginCreated(u, h, e, sid) =>
      if !readFails && u in s.users && s.users[u].hash == h && s.users[u].epoch == e then Put(s, t, NoTask)
      else Put(s, t, Refusing(sid))
    case _ => s
  }

  /** destroySession on behalf of a refused login or a refused request; Redis may fail. */
  function Refuse(s: State, t: TaskId, redisFails: bool): State {
    match At(s, t)
    case Refusing(sid) => Put(if redisFails then s else s.(store := Destroy(s.store, sid)), t, NoTask)
    case _ => s
  }

  // ---------------------------------------------------------------- the guard

  function GuardValidate(s: State, t: TaskId, sid: SessionId): State {
    if !At(s, t).NoTask? || !Exists(s.store, sid) || sid !in s.past.origin then s
    else
      Put(s.(store := Validate(s.store, sid)), t,
          GuardValidated(sid, Validated(s.store, sid).value, s.past.origin[sid]))
  }

  /** The acceptance rule: a missing epoch is tolerated only while the user is still at epoch 1. */
  predicate Accepts(session: Option<int>, user: int) {
    match session
    case None => user == 1
    case Some(e) => 1 <= e && e == user
  }

  function GuardDecide(s: State, t: TaskId): State {
    match At(s, t)
    case GuardValidated(sid, session, _) =>
      if session.user !in s.users then Put(s, t, NoTask)
      else if Accepts(session.epoch, s.users[session.user].epoch) then Put(s, t, Authenticated(sid, session.user))
      else Put(s, t, Refusing(sid))
    case _ => s
  }

  // ---------------------------------------------------------------- authenticated requests

  function Logout(s: State, t: TaskId): State {
    match At(s, t)
    case Authenticated(sid, u) => Put(s.(store := Destroy(s.store, sid)), t, NoTask)
    case _ => s
  }

  function ChangeFind(s: State, t: TaskId): State {
    match At(s, t)
    case Authenticated(sid, u) =>
      if u in s.users then Put(s, t, ChangeRead(sid, u, s.users[u].hash, s.users[u].epoch))
      else Put(s, t, NoTask)
    case _ => s
  }

  /** Verifies the current password and refuses an unchanged one. */
  function ChangeVerify(s: State, t: TaskId, accepted: bool): State {
    match At(s, t)
    case ChangeRead(sid, u, h, e) => Put(s, t, if accepted then ChangeVerified(sid, u, h, e) else NoTask)
    case _ => s
  }

  /** Salting makes every computed hash a new one. */
  predicate IsNewHash(p: Past, u: UserId, h: Hash) {
    forall k | k in p.hashes && k.0 == u :: p.hashes[k] != h
  }

  /** updatePasswordAndIncrementEpoch: one statement, not fenced by the hash that was verified. */
  function ChangeCommit(s: State, t: TaskId, h: Hash): State {
    match At(s, t)
    case ChangeVerified(sid, u, _, _) =>
      if u !in s.users then Put(s, t, NoTask)
      else if !IsNewHash(s.past, u, h) then s
      else
        var e := s.users[u].epoch + 1;
        Put(s.(users := s.users[u := UserRow(h, e)],
               past := s.past.(hashes := s.past.hashes[(u, e) := h], changes := s.past.changes[(u, e) := sid])),
            t, ChangeCleanup(sid, u, e, 1))
    case _ => s
  }

  /** One attempt at destroyOtherUserSessions; after three failures it is left to the guard. */
  function ChangeClean(s: State, t: TaskId, reply: Reply): State {
    match At(s, t)
    case ChangeCleanup(sid, u, e, attempt) =>
      var k := if reply.Done? || attempt >= MAX_ATTEMPTS then NoTask else ChangeCleanup(sid, u, e, attempt + 1);
      if reply.Down? then Put(s, t, k)
      else
        var origin := if Exists(s.store, sid) then s.past.origin[sid := Kept] else s.past.origin;
        Put(s.(store := DestroyOthers(s.store, u, Some(sid), Some(e)), past := s.past.(origin := origin)), t, k)
    case _ => s
  }

  /** revokeAllUserSessions: the epoch first, then the sessions. */
  function RevokeCommit(s: State, t: TaskId): State {
    match At(s, t)
    case Authenticated(sid, u) =>
      if u !in s.users then Put(s, t, NoTask)
      else
        var e := s.users[u].epoch + 1;
        Put(s.(users := s.users[u := s.users[u].(epoch := e)],
               past := s.past.(hashes := s.past.hashes[(u, e) := s.users[u].hash])),
            t, RevokeCleanup(u, 1))
    case _ => s
  }

  function RevokeClean(s: State, t: TaskId, reply: Reply): State {
    match At(s, t)
    case RevokeCleanup(u, attempt) =>
      var k := if reply.Done? || attempt >= MAX_ATTEMPTS then NoTask else RevokeCleanup(u, attempt + 1);
      Put(if reply.Down? then s else s.(store := DestroyAll(s.store, u)), t, k)
    case _ => s
  }

  // ---------------------------------------------------------------- runs

  datatype Event =
    | EvSignup(u: UserId, h: Hash)
    | EvLoginFind(t: TaskId, u: UserId)
    | EvLoginVerify(t: TaskId, matches: bool)
    | EvLoginCreate(t: TaskId, sid: SessionId)
    | EvLoginRecheck(t: TaskId, readFails: bool)
    | EvRefuse(t: TaskId, redisFails: bool)
    | EvGuardValidate(t: TaskId, sid: SessionId)
    | EvGuardDecide(t: TaskId)
    | EvLogout(t: TaskId)
    | EvChangeFind(t: TaskId)
    | EvChangeVerify(t: TaskId, accepted: bool)
    | EvChangeCommit(t: TaskId, h: Hash)
    | EvChangeClean(t: TaskId, reply: Reply)
    | EvRevokeCommit(t: TaskId)
    | EvRevokeClean(t: TaskId, reply: Reply)
    | EvList(u: UserId)
    | EvTick(d: nat)
    | EvAbandon(t: TaskId)

  function Step(s: State, e: Event): State {
    match e
    case EvSignup(u, h) => Signup(s, u, h)
    case EvLoginFind(t, u) => LoginFind(s, t, u)
    case EvLoginVerify(t, matches) => LoginVerify(s, t, matches)
    case EvLoginCreate(t, sid) => LoginCreate(s, t, sid)
    case EvLoginRecheck(t, readFails) => LoginRecheck(s, t, readFails)
    case EvRefuse(t, fails) => Refuse(s, t, fails)
    case EvGuardValidate(t, sid) => GuardValidate(s, t, sid)
    case EvGuardDecide(t) => GuardDecide(s, t)
    case EvLogout(t) => Logout(s, t)
    case EvChangeFind(t) => ChangeFind(s, t)
    case EvChangeVerify(t, accepted) => ChangeVerify(s, t, accepted)
    case EvChangeCommit(t, h) => ChangeCommit(s, t, h)
    case EvChangeClean(t, reply) => ChangeClean(s, t, reply)
    case EvRevokeCommit(t) => RevokeCommit(s, t)
    case EvRevokeClean(t, reply) => RevokeClean(s, t, reply)
    case EvList(u) => s.(store := GetAndClean(s.store, u))
    case EvTick(d) => s.(store := SessionStore.Tick(s.store, d))
    case EvAbandon(t) => Put(s, t, NoTask)
  }

  function Run(s: State, es: seq<Event>): State
    decreases |es|
  {
    if es == [] then s else Run(Step(s, es[0]), es[1..])
  }

  /** The system when the epoch was introduced: every user at epoch 1, and sessions without one. */
  ghost predicate Initial(s: State) {
    && SessionStore.Inv(s.store) && KnownKeys(s.store, s.past.owner.Keys)
    && s.tasks == map[]
    && (forall u | u in s.users :: s.users[u].epoch == 1)
    && s.past.hashes == (map u | u in s.users :: (u, 1) := s.users[u].hash)
    && s.past.verified == {} && s.past.changes == map[]
    && s.past.origin == (map sid | sid in s.past.owner :: Legacy)
    && (forall sid | sid in Live(s.store) ::
          sid in s.past.owner && s.past.owner[sid] == Live(s.store)[sid].user && Live(s.store)[sid].epoch.None?)
  }
}
