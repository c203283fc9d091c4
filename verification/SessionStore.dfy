/**
  The session store of packages/session/src/SessionManager.ts: two kinds of Redis keys, one per
  session and one index per user, each with its own expiry, changed by six atomic scripts.
  Time is counted in whole ticks (seconds); a key is gone once its expiry is reached.
*/
module SessionStore {
  import opened Wrappers

  type SessionId = nat
  type UserId = nat
  type Time = int

  const SESSION_TTL := 604800

  datatype Session = Session(user: UserId, epoch: Option<int>, expiresAt: Time)

  /** A Redis set; without an expiry it lives forever. */
  datatype Index = Index(members: set<SessionId>, expiry: Option<Time>)

  datatype Store = Store(now: Time, sessions: map<SessionId, Session>, indexes: map<UserId, Index>)

  // ---------------------------------------------------------------- Redis commands

  predicate Exists(st: Store, sid: SessionId) {
    sid in st.sessions && st.now < st.sessions[sid].expiresAt
  }

  predicate IndexExists(st: Store, u: UserId) {
    u in st.indexes && (st.indexes[u].expiry.None? || st.now < st.indexes[u].expiry.value)
  }

  function SMembers(st: Store, u: UserId): set<SessionId> {
    if IndexExists(st, u) then st.indexes[u].members else {}
  }

  function Ttl(st: Store, u: UserId): int {
    if !IndexExists(st, u) then -2
    else if st.indexes[u].expiry.None? then -1
    else st.indexes[u].expiry.value - st.now
  }

  /** SADD creates a missing key, without an expiry. */
  function SAdd(st: Store, u: UserId, sid: SessionId): Store {
    var expiry := if IndexExists(st, u) then st.indexes[u].expiry else None;
    st.(indexes := st.indexes[u := Index(SMembers(st, u) + {sid}, expiry)])
  }

  /** SREM of the last member removes the key. */
  function SRem(st: Store, u: UserId, sid: SessionId): Store {
    if !IndexExists(st, u) then st
    else if st.indexes[u].members - {sid} == {} then st.(indexes := st.indexes - {u})
    else st.(indexes := st.indexes[u := st.indexes[u].(members := st.indexes[u].members - {sid})])
  }

  function Expire(st: Store, u: UserId, ttl: int): Store {
    if IndexExists(st, u) then st.(indexes := st.indexes[u := st.indexes[u].(expiry := Some(st.now + ttl))]) else st
  }

  function SetSession(st: Store, sid: SessionId, s: Session): Store {
    st.(sessions := st.sessions[sid := s])
  }

  function DelSession(st: Store, sid: SessionId): Store {
    st.(sessions := st.sessions - {sid})
  }

  /** Adds a session to an index and makes the index live at least a full session longer. */
  function Touch(st: Store, u: UserId, sid: SessionId): Store {
    var st1 := SAdd(st, u, sid);
    if Ttl(st1, u) < SESSION_TTL then Expire(st1, u, SESSION_TTL) else st1
  }

  // ---------------------------------------------------------------- the six scripts

  function Create(st: Store, sid: SessionId, u: UserId, epoch: Option<int>): Store {
    Touch(SetSession(st, sid, Session(u, epoch, st.now + SESSION_TTL)), u, sid)
  }

  function Validate(st: Store, sid: SessionId): Store {
    if !Exists(st, sid) then st
    else
      var s := st.sessions[sid];
      Touch(SetSession(st, sid, s.(expiresAt := st.now + SESSION_TTL)), s.user, sid)
  }

  function Validated(st: Store, sid: SessionId): Option<Session> {
    if Exists(st, sid) then Some(st.sessions[sid].(expiresAt := st.now + SESSION_TTL)) else None
  }

  function Destroy(st: Store, sid: SessionId): Store {
    DelSession(if Exists(st, sid) then SRem(st, st.sessions[sid].user, sid) else st, sid)
  }

  function DestroyAll(st: Store, u: UserId): Store {
    st.(sessions := st.sessions - SMembers(st, u), indexes := st.indexes - {u})
  }

  /** The index after every member but `keep` has been removed from it. */
  function KeepOnly(st: Store, u: UserId, keep: Option<SessionId>): Store {
    if !IndexExists(st, u) then st
    else
      var rest := st.indexes[u].members - Others(st, u, keep);
      if st.indexes[u].members == rest then st
      else if rest == {} then st.(indexes := st.indexes - {u})
      else st.(indexes := st.indexes[u := st.indexes[u].(members := rest)])
  }

  function Others(st: Store, u: UserId, keep: Option<SessionId>): set<SessionId> {
    set sid | sid in SMembers(st, u) && keep != Some(sid)
  }

  function DestroyOthers(st: Store, u: UserId, keep: Option<SessionId>, epoch: Option<int>): Store {
    var st1 := KeepOnly(st.(sessions := st.sessions - Others(st, u, keep)), u, keep);
    if keep.None? then st1
    else
      var st2 := Touch(st1, u, keep.value);
      if epoch.Some? && Exists(st2, keep.value)
      then SetSession(st2, keep.value, st2.sessions[keep.value].(epoch := epoch))
      else st2
  }

  function Active(st: Store, u: UserId): set<SessionId> {
    set sid | sid in SMembers(st, u) && Exists(st, sid)
  }

  function GetAndClean(st: Store, u: UserId): Store {
    if !IndexExists(st, u) || Active(st, u) == st.indexes[u].members then st
    else if Active(st, u) == {} then st.(indexes := st.indexes - {u})
    else st.(indexes := st.indexes[u := st.indexes[u].(members := Active(st, u))])
  }

  function Tick(st: Store, d: nat): Store {
    st.(now := st.now + d)
  }

  // ---------------------------------------------------------------- the simple store it refines

  /** The sessions that are alive: the plain map the two kinds of keys are meant to represent. */
  function Live(st: Store): map<SessionId, Session> {
    map sid | sid in st.sessions && Exists(st, sid) :: st.sessions[sid]
  }

  function OwnedBy(live: map<SessionId, Session>, u: UserId): set<SessionId> {
    set sid | sid in live && live[sid].user == u
  }

  /** Every live session is in the index of its owner, the index outlives it, and no index holds a
      live session of somebody else. */
  ghost predicate Inv(st: Store) {
    && (forall sid | Exists(st, sid) :: Indexed(st, sid))
    && (forall u, sid :: ProperMember(st, u, sid))
    && (forall sid | sid in st.sessions :: st.sessions[sid].expiresAt <= st.now + SESSION_TTL)
  }

  predicate Indexed(st: Store, sid: SessionId)
    requires Exists(st, sid)
  {
    var u := st.sessions[sid].user;
    && IndexExists(st, u) && sid in st.indexes[u].members
    && (st.indexes[u].expiry.Some? ==> st.sessions[sid].expiresAt <= st.indexes[u].expiry.value)
  }

  predicate ProperMember(st: Store, u: UserId, sid: SessionId) {
    sid in SMembers(st, u) && Exists(st, sid) ==> st.sessions[sid].user == u
  }

  // ---------------------------------------------------------------- each script refines a map update

  /** Touching leaves the sessions alone and indexes `sid` for at least a full session. */
  lemma TouchFacts(st: Store, u: UserId, sid: SessionId)
    ensures var st' := Touch(st, u, sid);
      && st'.sessions == st.sessions && st'.now == st.now
      && IndexExists(st', u) && st'.indexes[u].members == SMembers(st, u) + {sid}
      && st'.indexes[u].expiry.Some? && st.now + SESSION_TTL <= st'.indexes[u].expiry.value
      && (IndexExists(st, u) && st.indexes[u].expiry.Some? ==>
            st.indexes[u].expiry.value <= st'.indexes[u].expiry.value)
      && (forall v | v != u :: IndexExists(st', v) == IndexExists(st, v) && SMembers(st', v) == SMembers(st, v))
      && (forall v | v != u && v in st.indexes :: v in st'.indexes && st'.indexes[v] == st.indexes[v])
  {
  }

  /** Touching keeps the invariant exactly when it does not index somebody else's live session. */
  lemma TouchInv(st: Store, u: UserId, sid: SessionId)
    requires forall x | Exists(st, x) :: x == sid || Indexed(st, x)
    requires forall v, x :: ProperMember(st, v, x)
    requires forall x | x in st.sessions :: st.sessions[x].expiresAt <= st.now + SESSION_TTL
    requires Exists(st, sid) && st.sessions[sid].user != u ==> Indexed(st, sid)
    ensures Inv(Touch(st, u, sid)) <==> (Exists(st, sid) ==> st.sessions[sid].user == u)
  {
    var st' := Touch(st, u, sid);
    TouchFacts(st, u, sid);
    if Exists(st, sid) && st.sessions[sid].user != u {
      assert !ProperMember(st', u, sid);
    } else {
      forall v, x
        ensures ProperMember(st', v, x)
      {
        assert ProperMember(st, v, x);
      }
      forall x | Exists(st', x)
        ensures Indexed(st', x)
      {
        assert Exists(st, x);
      }
    }
  }

  /** A session id is fresh when no key mentions it. */
  predicate Unused(st: Store, sid: SessionId) {
    sid !in st.sessions && forall u | u in st.indexes :: sid !in st.indexes[u].members
  }

  lemma CreateRefines(st: Store, sid: SessionId, u: UserId, epoch: Option<int>)
    requires Inv(st) && Unused(st, sid)
    ensures Inv(Create(st, sid, u, epoch))
    ensures Live(Create(st, sid, u, epoch)) == Live(st)[sid := Session(u, epoch, st.now + SESSION_TTL)]
  {
    var st1 := SetSession(st, sid, Session(u, epoch, st.now + SESSION_TTL));
    forall x | Exists(st1, x)
      ensures x == sid || Indexed(st1, x)
    {
      if x != sid {
        assert Exists(st, x) && Indexed(st, x);
      }
    }
    forall v, x
      ensures ProperMember(st1, v, x)
    {
      assert ProperMember(st, v, x);
    }
    TouchInv(st1, u, sid);
    TouchFacts(st1, u, sid);
  }

  lemma ValidateRefines(st: Store, sid: SessionId)
    requires Inv(st)
    ensures Inv(Validate(st, sid))
    ensures Validated(st, sid).Some? <==> sid in Live(st)
    ensures Live(Validate(st, sid)) == (if sid in Live(st) then Live(st)[sid := Validated(st, sid).value] else Live(st))
  {
    if Exists(st, sid) {
      var s := st.sessions[sid];
      var st1 := SetSession(st, sid, s.(expiresAt := st.now + SESSION_TTL));
      forall x | Exists(st1, x)
        ensures x == sid || Indexed(st1, x)
      {
        if x != sid {
          assert Exists(st, x) && Indexed(st, x);
        }
      }
      forall v, x
        ensures ProperMember(st1, v, x)
      {
        assert ProperMember(st, v, x);
      }
      TouchInv(st1, s.user, sid);
      TouchFacts(st1, s.user, sid);
    }
  }

  lemma SRemFacts(st: Store, u: UserId, sid: SessionId)
    ensures var st' := SRem(st, u, sid);
      && st'.sessions == st.sessions && st'.now == st.now
      && SMembers(st', u) == SMembers(st, u) - {sid}
      && (forall x | x in SMembers(st', u) :: IndexExists(st', u) && st'.indexes[u].expiry == st.indexes[u].expiry)
      && (forall v | v != u :: SMembers(st', v) == SMembers(st, v) && IndexExists(st', v) == IndexExists(st, v))
      && (forall v | v != u && v in st.indexes :: v in st'.indexes && st'.indexes[v] == st.indexes[v])
  {
  }

  lemma DestroyRefines(st: Store, sid: SessionId)
    requires Inv(st)
    ensures Inv(Destroy(st, sid))
    ensures Live(Destroy(st, sid)) == Live(st) - {sid}
  {
    var st' := Destroy(st, sid);
    if Exists(st, sid) {
      SRemFacts(st, st.sessions[sid].user, sid);
    }
    forall v, x
      ensures ProperMember(st', v, x)
    {
      assert ProperMember(st, v, x);
    }
    forall x | Exists(st', x)
      ensures Indexed(st', x)
    {
      assert Indexed(st, x);
    }
  }

  /** Revoke-all removes exactly the live sessions of that user. */
  lemma DestroyAllRefines(st: Store, u: UserId)
    requires Inv(st)
    ensures Inv(DestroyAll(st, u))
    ensures Live(DestroyAll(st, u)) == Live(st) - OwnedBy(Live(st), u)
    ensures SMembers(DestroyAll(st, u), u) == {}
  {
    var st' := DestroyAll(st, u);
    forall v, x
      ensures ProperMember(st', v, x)
    {
      assert ProperMember(st, v, x);
    }
    forall x | Exists(st', x)
      ensures Indexed(st', x)
    {
      assert Exists(st, x) && Indexed(st, x);
    }
    forall x | x in Live(st)
      ensures x in Live(st') <==> x !in OwnedBy(Live(st), u)
    {
      assert Exists(st, x) && Indexed(st, x) && ProperMember(st, u, x);
    }
  }

  /** The map update behind revoke-others. */
  function Retain(live: map<SessionId, Session>, u: UserId, keep: Option<SessionId>, epoch: Option<int>)
    : map<SessionId, Session>
  {
    map sid | sid in live && (live[sid].user != u || keep == Some(sid)) ::
      if keep == Some(sid) && epoch.Some? then live[sid].(epoch := epoch) else live[sid]
  }

  function Kept(keep: Option<SessionId>): set<SessionId> {
    if keep.Some? then {keep.value} else {}
  }

  /** The same update as a deletion followed by a stamp. */
  lemma RetainInTwo(live: map<SessionId, Session>, u: UserId, keep: Option<SessionId>, epoch: Option<int>)
    ensures var rest := live - (OwnedBy(live, u) - Kept(keep));
      Retain(live, u, keep, epoch)
        == if keep.Some? && epoch.Some? && keep.value in rest
           then rest[keep.value := rest[keep.value].(epoch := epoch)] else rest
  {
  }

  lemma KeepOnlyIndex(st: Store, u: UserId, keep: Option<SessionId>)
    ensures var st' := KeepOnly(st, u, keep);
      && st'.sessions == st.sessions && st'.now == st.now
      && SMembers(st', u) == SMembers(st, u) - Others(st, u, keep)
      && (SMembers(st', u) != {} ==> IndexExists(st', u) && st'.indexes[u].expiry == st.indexes[u].expiry)
      && (forall v | v != u :: SMembers(st', v) == SMembers(st, v) && IndexExists(st', v) == IndexExists(st, v))
      && (forall v | v != u && v in st.indexes :: v in st'.indexes && st'.indexes[v] == st.indexes[v])
  {
  }

  /** The first half of revoke-others: everything but `keep` is gone from the index and the keys. */
  lemma KeepOnlyFacts(st: Store, u: UserId, keep: Option<SessionId>)
    requires Inv(st)
    ensures var st1 := KeepOnly(st.(sessions := st.sessions - Others(st, u, keep)), u, keep);
      && Inv(st1) && st1.now == st.now
      && Live(st1) == Live(st) - (OwnedBy(Live(st), u) - Kept(keep))
      && (forall x | x in SMembers(st1, u) :: keep == Some(x))
  {
    var st0 := st.(sessions := st.sessions - Others(st, u, keep));
    KeepOnlyIndex(st0, u, keep);
    assert Others(st0, u, keep) == Others(st, u, keep);
    KeepOnlyInv(st, u, keep);
    OthersAreOwned(st, u, keep);
    assert forall x :: Exists(KeepOnly(st0, u, keep), x) <==> Exists(st, x) && x !in Others(st, u, keep);
  }

  lemma OthersAreOwned(st: Store, u: UserId, keep: Option<SessionId>)
    requires Inv(st)
    ensures forall x | Exists(st, x) :: x in Others(st, u, keep) <==> st.sessions[x].user == u && keep != Some(x)
  {
    forall x | Exists(st, x)
      ensures x in Others(st, u, keep) <==> st.sessions[x].user == u && keep != Some(x)
    {
      assert Indexed(st, x) && ProperMember(st, u, x);
    }
  }

  lemma KeepOnlyInv(st: Store, u: UserId, keep: Option<SessionId>)
    requires Inv(st)
    ensures Inv(KeepOnly(st.(sessions := st.sessions - Others(st, u, keep)), u, keep))
  {
    var st0 := st.(sessions := st.sessions - Others(st, u, keep));
    var st1 := KeepOnly(st0, u, keep);
    KeepOnlyIndex(st0, u, keep);
    assert Others(st0, u, keep) == Others(st, u, keep);
    forall v, x
      ensures ProperMember(st1, v, x)
    {
      assert ProperMember(st, v, x);
    }
    forall x | Exists(st1, x)
      ensures Indexed(st1, x)
    {
      assert x in st.sessions && x !in Others(st, u, keep);
      assert Exists(st, x) && Indexed(st, x);
      var v := st.sessions[x].user;
      assert x in SMembers(st0, v) && x in SMembers(st1, v);
    }
  }

  /** Revoke-others leaves at most the kept session of that user, stamped with the new epoch, and
      touches nobody else's; the index stays sound exactly when the kept session, if it is alive,
      belongs to that user. */
  lemma DestroyOthersRefines(st: Store, u: UserId, keep: Option<SessionId>, epoch: Option<int>)
    requires Inv(st)
    ensures Live(DestroyOthers(st, u, keep, epoch)) == Retain(Live(st), u, keep, epoch)
    ensures Inv(DestroyOthers(st, u, keep, epoch))
       <==> (keep.Some? && keep.value in Live(st) ==> Live(st)[keep.value].user == u)
  {
    var st1 := KeepOnly(st.(sessions := st.sessions - Others(st, u, keep)), u, keep);
    KeepOnlyFacts(st, u, keep);
    RetainInTwo(Live(st), u, keep, epoch);
    if keep.Some? {
      var k := keep.value;
      var st2 := Touch(st1, u, k);
      TouchFacts(st1, u, k);
      TouchInv(st1, u, k);
      TouchLive(st1, u, k);
      assert Exists(st2, k) <==> k in Live(st2);
      if epoch.Some? && Exists(st2, k) {
        StampInv(st2, k, epoch);
        StampLive(st2, k, epoch);
      }
    }
  }

  lemma TouchLive(st: Store, u: UserId, sid: SessionId)
    ensures Live(Touch(st, u, sid)) == Live(st)
  {
    TouchFacts(st, u, sid);
  }

  lemma StampLive(st: Store, k: SessionId, epoch: Option<int>)
    requires Exists(st, k)
    ensures Live(SetSession(st, k, st.sessions[k].(epoch := epoch))) == Live(st)[k := Live(st)[k].(epoch := epoch)]
  {
  }

  /** Rewriting the epoch of a session in place concerns neither the index nor the clock. */
  lemma StampInv(st: Store, k: SessionId, epoch: Option<int>)
    requires Exists(st, k)
    ensures Inv(SetSession(st, k, st.sessions[k].(epoch := epoch))) <==> Inv(st)
  {
    var st' := SetSession(st, k, st.sessions[k].(epoch := epoch));
    assert forall x :: Exists(st', x) <==> Exists(st, x);
    assert forall x | Exists(st, x) :: Indexed(st', x) <==> Indexed(st, x);
    assert forall u, x :: ProperMember(st', u, x) <==> ProperMember(st, u, x);
    assert forall x | x in st.sessions :: st'.sessions[x].expiresAt == st.sessions[x].expiresAt;
  }

  /** The cleaned listing returns exactly the live sessions of the user and changes none of them. */
  lemma GetAndCleanRefines(st: Store, u: UserId)
    requires Inv(st)
    ensures Inv(GetAndClean(st, u)) && Live(GetAndClean(st, u)) == Live(st)
    ensures Active(st, u) == OwnedBy(Live(st), u)
    ensures SMembers(GetAndClean(st, u), u) == OwnedBy(Live(st), u)
  {
    var st' := GetAndClean(st, u);
    forall v, x
      ensures ProperMember(st', v, x)
    {
      assert ProperMember(st, v, x);
    }
    forall x | Exists(st, x) && st.sessions[x].user == u
      ensures x in Active(st, u)
    {
      assert Indexed(st, x);
    }
    assert forall x | x in Active(st, u) :: ProperMember(st, u, x);
    forall x | Exists(st', x)
      ensures Indexed(st', x)
    {
      assert Exists(st, x) && Indexed(st, x);
    }
  }

  /** Time expires sessions no later than the index that lists them. */
  lemma TickRefines(st: Store, d: nat)
    requires Inv(st)
    ensures Inv(Tick(st, d))
    ensures Live(Tick(st, d)) == map sid | sid in Live(st) && st.now + d < Live(st)[sid].expiresAt :: Live(st)[sid]
  {
    var st' := Tick(st, d);
    forall x | Exists(st', x)
      ensures Indexed(st', x)
    {
      assert Exists(st, x) && Indexed(st, x);
    }
    forall v, x
      ensures ProperMember(st', v, x)
    {
      assert ProperMember(st, v, x);
    }
  }

  // ---------------------------------------------------------------- any run of the scripts

  datatype Op =
    | OpCreate(sid: SessionId, u: UserId, epoch: Option<int>)
    | OpValidate(sid: SessionId)
    | OpDestroy(sid: SessionId)
    | OpDestroyAll(u: UserId)
    | OpDestroyOthers(u: UserId, keep: Option<SessionId>, newEpoch: Option<int>)
    | OpList(u: UserId)
    | OpTick(d: nat)

  function Apply(st: Store, op: Op): Store {
    match op
    case OpCreate(sid, u, epoch) => Create(st, sid, u, epoch)
    case OpValidate(sid) => Validate(st, sid)
    case OpDestroy(sid) => Destroy(st, sid)
    case OpDestroyAll(u) => DestroyAll(st, u)
    case OpDestroyOthers(u, keep, epoch) => DestroyOthers(st, u, keep, epoch)
    case OpList(u) => GetAndClean(st, u)
    case OpTick(d) => Tick(st, d)
  }

  /** The simple store: a clock and a map from session id to session. */
  function ApplySimple(now: Time, live: map<SessionId, Session>, op: Op): map<SessionId, Session> {
    match op
    case OpCreate(sid, u, epoch) => live[sid := Session(u, epoch, now + SESSION_TTL)]
    case OpValidate(sid) =>
      if sid in live then live[sid := live[sid].(expiresAt := now + SESSION_TTL)] else live
    case OpDestroy(sid) => live - {sid}
    case OpDestroyAll(u) => live - OwnedBy(live, u)
    case OpDestroyOthers(u, keep, epoch) => Retain(live, u, keep, epoch)
    case OpList(u) => live
    case OpTick(d) => map sid | sid in live && now + d < live[sid].expiresAt :: live[sid]
  }

  function Advance(now: Time, op: Op): Time {
    if op.OpTick? then now + op.d else now
  }

  /** What the callers guarantee: a new session has an id never handed out before, and the session
      kept by revoke-others is one that was handed out and, if alive, belongs to that user. */
  predicate Called(st: Store, used: set<SessionId>, op: Op) {
    match op
    case OpCreate(sid, _, _) => sid !in used
    case OpDestroyOthers(u, keep, _) =>
      keep.Some? ==> keep.value in used && (Exists(st, keep.value) ==> st.sessions[keep.value].user == u)
    case _ => true
  }

  function Use(used: set<SessionId>, op: Op): set<SessionId> {
    if op.OpCreate? then used + {op.sid} else used
  }

  ghost predicate KnownKeys(st: Store, used: set<SessionId>) {
    st.sessions.Keys <= used && forall u | u in st.indexes :: st.indexes[u].members <= used
  }

  ghost predicate CalledRun(st: Store, used: set<SessionId>, ops: seq<Op>)
    decreases |ops|
  {
    ops != [] ==> Called(st, used, ops[0]) && CalledRun(Apply(st, ops[0]), Use(used, ops[0]), ops[1..])
  }

  function RunStore(st: Store, ops: seq<Op>): Store
    decreases |ops|
  {
    if ops == [] then st else RunStore(Apply(st, ops[0]), ops[1..])
  }

  function RunSimple(now: Time, live: map<SessionId, Session>, ops: seq<Op>): map<SessionId, Session>
    decreases |ops|
  {
    if ops == [] then live else RunSimple(Advance(now, ops[0]), ApplySimple(now, live, ops[0]), ops[1..])
  }

  lemma ApplyRefines(st: Store, used: set<SessionId>, op: Op)
    requires Inv(st) && KnownKeys(st, used) && Called(st, used, op)
    ensures Inv(Apply(st, op)) && KnownKeys(Apply(st, op), Use(used, op))
    ensures Apply(st, op).now == Advance(st.now, op)
    ensures Live(Apply(st, op)) == ApplySimple(st.now, Live(st), op)
  {
    ApplyKnownKeys(st, used, op);
    match op {
      case OpCreate(sid, u, epoch) => CreateRefines(st, sid, u, epoch);
      case OpValidate(sid) => ValidateRefines(st, sid);
      case OpDestroy(sid) => DestroyRefines(st, sid);
      case OpDestroyAll(u) => DestroyAllRefines(st, u);
      case OpDestroyOthers(u, keep, epoch) => DestroyOthersRefines(st, u, keep, epoch);
      case OpList(u) => GetAndCleanRefines(st, u);
      case OpTick(d) => TickRefines(st, d);
    }
  }

  lemma ApplyKnownKeys(st: Store, used: set<SessionId>, op: Op)
    requires KnownKeys(st, used) && Called(st, used, op)
    ensures KnownKeys(Apply(st, op), Use(used, op))
    ensures Apply(st, op).now == Advance(st.now, op)
  {
  }

  const EMPTY := Store(0, map[], map[])

  /** Over any run of the scripts and of the clock, the two kinds of keys behave like the simple map,
      and every index invariant holds throughout. */
  lemma {:induction false} StoreRefinesSimpleMap(st: Store, used: set<SessionId>, ops: seq<Op>)
    requires Inv(st) && KnownKeys(st, used) && CalledRun(st, used, ops)
    ensures Inv(RunStore(st, ops))
    ensures Live(RunStore(st, ops)) == RunSimple(st.now, Live(st), ops)
    decreases |ops|
  {
    if ops != [] {
      ApplyRefines(st, used, ops[0]);
      StoreRefinesSimpleMap(Apply(st, ops[0]), Use(used, ops[0]), ops[1..]);
    }
  }

  /** In particular from an empty store: after any run, listing a user's sessions returns exactly
      those of the simple map that are theirs. */
  lemma ListingIsExact(ops: seq<Op>, u: UserId)
    requires CalledRun(EMPTY, {}, ops)
    ensures Active(RunStore(EMPTY, ops), u) == OwnedBy(RunSimple(0, map[], ops), u)
  {
    StoreRefinesSimpleMap(EMPTY, {}, ops);
    assert Live(EMPTY) == map[];
    GetAndCleanRefines(RunStore(EMPTY, ops), u);
  }
}
