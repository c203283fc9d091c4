/**
  The scripts of SessionManager as they run: Redis commands issued one after the other inside one
  atomic script, with loops over the members of an index in whatever order Redis lists them.
  Each method is proved to leave the store that the functions of SessionStore describe.
*/
module SessionManagement {
  import opened Wrappers
  import opened SessionStore

  class SessionManager {
    var redis: Store

    constructor ()
      ensures redis == EMPTY
    {
      redis := EMPTY;
    }

    method AddAndRefresh(u: UserId, sid: SessionId)
      modifies this
      ensures redis == Touch(old(redis), u, sid)
    {
      redis := SAdd(redis, u, sid);
      var currentTtl := Ttl(redis, u);
      if currentTtl < SESSION_TTL {
        redis := Expire(redis, u, SESSION_TTL);
      }
    }

    method CreateSession(sid: SessionId, u: UserId, epoch: Option<int>)
      requires Inv(redis) && Unused(redis, sid)
      modifies this
      ensures redis == Create(old(redis), sid, u, epoch) && Inv(redis)
      ensures Live(redis) == Live(old(redis))[sid := Session(u, epoch, old(redis).now + SESSION_TTL)]
    {
      CreateRefines(redis, sid, u, epoch);
      redis := SetSession(redis, sid, Session(u, epoch, redis.now + SESSION_TTL));
      AddAndRefresh(u, sid);
    }

    /** A revoked or expired session is refused and not resurrected. */
    method ValidateSession(sid: SessionId) returns (r: Option<Session>)
      requires Inv(redis)
      modifies this
      ensures redis == Validate(old(redis), sid) && Inv(redis)
      ensures r.Some? <==> sid in Live(old(redis))
      ensures r.None? ==> redis == old(redis)
      ensures r.Some? ==> Live(redis) == Live(old(redis))[sid := r.value]
                          && r.value == Live(old(redis))[sid].(expiresAt := redis.now + SESSION_TTL)
    {
      ValidateRefines(redis, sid);
      if !Exists(redis, sid) {
        return None;
      }
      var data := redis.sessions[sid];
      data := data.(expiresAt := redis.now + SESSION_TTL);
      redis := SetSession(redis, sid, data);
      AddAndRefresh(data.user, sid);
      return Some(data);
    }

    method DestroySession(sid: SessionId)
      requires Inv(redis)
      modifies this
      ensures redis == Destroy(old(redis), sid) && Inv(redis)
      ensures Live(redis) == Live(old(redis)) - {sid}
    {
      DestroyRefines(redis, sid);
      if Exists(redis, sid) {
        redis := SRem(redis, redis.sessions[sid].user, sid);
      }
      redis := DelSession(redis, sid);
    }

    method DestroyAllUserSessions(u: UserId)
      requires Inv(redis)
      modifies this
      ensures redis == DestroyAll(old(redis), u) && Inv(redis)
      ensures Live(redis) == Live(old(redis)) - OwnedBy(Live(old(redis)), u)
    {
      DestroyAllRefines(redis, u);
      var sessionIds := SMembers(redis, u);
      var left := sessionIds;
      while left != {}
        invariant left <= sessionIds
        invariant redis == old(redis).(sessions := old(redis).sessions - (sessionIds - left))
        decreases left
      {
        var sid :| sid in left;
        redis := DelSession(redis, sid);
        left := left - {sid};
        assert old(redis).sessions - (sessionIds - left)
            == old(redis).sessions - (sessionIds - left - {sid}) - {sid};
      }
      assert sessionIds - {} == sessionIds;
      redis := redis.(indexes := redis.indexes - {u});
    }

    method DeleteOthers(u: UserId, keep: Option<SessionId>) returns (destroyed: nat)
      modifies this
      ensures redis == KeepOnly(old(redis).(sessions := old(redis).sessions - Others(old(redis), u, keep)), u, keep)
      ensures destroyed == |Others(old(redis), u, keep)|
    {
      ghost var before := redis;
      var left := SMembers(redis, u);
      ghost var gone: set<SessionId> := {};
      destroyed := 0;
      while left != {}
        invariant Between(before, u, keep, left, gone)
        invariant destroyed == |gone|
        invariant redis == Thinned(before, u, gone)
        decreases left
      {
        var sid :| sid in left;
        BetweenStep(before, u, keep, left, gone, sid);
        if keep != Some(sid) {
          ThinnedStep(before, u, gone, sid);
          redis := DelSession(redis, sid);
          redis := SRem(redis, u, sid);
          destroyed := destroyed + 1;
          gone := gone + {sid};
        }
        left := left - {sid};
      }
      ThinnedIsKeepOnly(before, u, keep);
    }

    /** Returns how many other sessions the index listed. */
    method DestroyOtherUserSessions(u: UserId, keep: Option<SessionId>, newEpoch: Option<int>) returns (destroyed: nat)
      requires Inv(redis)
      modifies this
      ensures redis == DestroyOthers(old(redis), u, keep, newEpoch)
      ensures Inv(redis) <==> (keep.Some? && keep.value in Live(old(redis)) ==> Live(old(redis))[keep.value].user == u)
      ensures Live(redis) == Retain(Live(old(redis)), u, keep, newEpoch)
      ensures destroyed == |Others(old(redis), u, keep)|
    {
      DestroyOthersRefines(redis, u, keep, newEpoch);
      destroyed := DeleteOthers(u, keep);
      if keep.Some? {
        AddAndRefresh(u, keep.value);
        if newEpoch.Some? {
          if Exists(redis, keep.value) {
            var data := redis.sessions[keep.value];
            data := data.(epoch := newEpoch);
            redis := SetSession(redis, keep.value, data);
          }
        }
      }
    }

    /** Returns exactly the live sessions of the user and forgets the index entries of dead ones. */
    method GetUserSessionIds(u: UserId) returns (activeIds: set<SessionId>)
      requires Inv(redis)
      modifies this
      ensures redis == GetAndClean(old(redis), u) && Inv(redis)
      ensures activeIds == OwnedBy(Live(redis), u) && Live(redis) == Live(old(redis))
    {
      GetAndCleanRefines(redis, u);
      var sessionIds := SMembers(redis, u);
      var left := sessionIds;
      ghost var gone: set<SessionId> := {};
      activeIds := {};
      while left != {}
        invariant left <= sessionIds
        invariant gone == (sessionIds - left) - Active(old(redis), u)
        invariant activeIds == (sessionIds - left) * Active(old(redis), u)
        invariant redis == Unlisted(old(redis), u, gone)
        decreases left
      {
        var sid :| sid in left;
        if Exists(redis, sid) {
          activeIds := activeIds + {sid};
        } else {
          UnlistedStep(old(redis), u, gone, sid);
          redis := SRem(redis, u, sid);
          gone := gone + {sid};
        }
        left := left - {sid};
      }
      assert gone == SMembers(old(redis), u) - Active(old(redis), u);
      UnlistedIsClean(old(redis), u);
    }
  }

  // ---------------------------------------------------------------- the loops, described

  /** The store after the ids in `gone` have been removed from the index of `u`. */
  function Unlisted(st: Store, u: UserId, gone: set<SessionId>): Store {
    if !IndexExists(st, u) || gone == {} then st
    else if st.indexes[u].members - gone == {} then st.(indexes := st.indexes - {u})
    else st.(indexes := st.indexes[u := st.indexes[u].(members := st.indexes[u].members - gone)])
  }

  lemma UnlistedStep(st: Store, u: UserId, gone: set<SessionId>, sid: SessionId)
    requires gone <= SMembers(st, u) && sid in SMembers(st, u) - gone
    ensures SRem(Unlisted(st, u, gone), u, sid) == Unlisted(st, u, gone + {sid})
  {
    var m := st.indexes[u].members;
    var st1 := Unlisted(st, u, gone);
    assert sid in m - gone;
    assert m - {} == m;
    assert IndexExists(st1, u) && st1.indexes[u] == st.indexes[u].(members := m - gone);
    assert m - gone - {sid} == m - (gone + {sid});
    if m - (gone + {sid}) == {} {
      assert Unlisted(st, u, gone).indexes - {u} == st.indexes - {u};
    } else {
      assert Unlisted(st, u, gone).indexes[u := st.indexes[u].(members := m - (gone + {sid}))]
          == st.indexes[u := st.indexes[u].(members := m - (gone + {sid}))];
    }
  }

  lemma UnlistedIsClean(st: Store, u: UserId)
    ensures Unlisted(st, u, SMembers(st, u) - Active(st, u)) == GetAndClean(st, u)
  {
    if IndexExists(st, u) {
      var m := st.indexes[u].members;
      assert Active(st, u) <= m;
      assert m - (m - Active(st, u)) == Active(st, u);
    }
  }

  /** The store after the sessions in `gone` have been deleted and unlisted. */
  function Thinned(st: Store, u: UserId, gone: set<SessionId>): Store {
    Unlisted(st.(sessions := st.sessions - gone), u, gone)
  }

  /** The loop has still to visit `left`, and has destroyed every other member but the kept one. */
  ghost predicate Between(st: Store, u: UserId, keep: Option<SessionId>, left: set<SessionId>, gone: set<SessionId>) {
    left <= SMembers(st, u) && gone == Others(st, u, keep) - left
  }

  lemma BetweenStep(st: Store, u: UserId, keep: Option<SessionId>, left: set<SessionId>, gone: set<SessionId>, sid: SessionId)
    requires Between(st, u, keep, left, gone) && sid in left
    ensures sid !in gone && gone <= SMembers(st, u)
    ensures Between(st, u, keep, left - {sid}, if keep == Some(sid) then gone else gone + {sid})
  {
  }

  lemma ThinnedStep(st: Store, u: UserId, gone: set<SessionId>, sid: SessionId)
    requires gone <= SMembers(st, u) && sid in SMembers(st, u) - gone
    ensures SRem(DelSession(Thinned(st, u, gone), sid), u, sid) == Thinned(st, u, gone + {sid})
  {
    var st1 := st.(sessions := st.sessions - (gone + {sid}));
    assert st.sessions - gone - {sid} == st1.sessions;
    assert DelSession(Thinned(st, u, gone), sid) == Unlisted(st1, u, gone);
    UnlistedStep(st1, u, gone, sid);
  }

  lemma ThinnedIsKeepOnly(st: Store, u: UserId, keep: Option<SessionId>)
    ensures Thinned(st, u, Others(st, u, keep))
         == KeepOnly(st.(sessions := st.sessions - Others(st, u, keep)), u, keep)
  {
    var others := Others(st, u, keep);
    assert Others(st.(sessions := st.sessions - others), u, keep) == others;
    if IndexExists(st, u) {
      var m := st.indexes[u].members;
      assert others == {} <==> m == m - others;
    }
  }
}
