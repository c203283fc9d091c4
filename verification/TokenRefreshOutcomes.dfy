/** What a refresher, a reconnect and a commit leave in the credential row. */
module TokenRefreshOutcomes {
  import opened Wrappers
  import opened TokenRefresh

  // ---------------------------------------------------------------- the commit, in every run

  lemma {:induction false} AnswerWasGiven(s: State, events: seq<Event>, w: WorkerId)
    requires !At(s, w).Answered?
    ensures var k := At(Run(s, events), w);
      k.Answered? ==> EvAnswer(w, k.access, k.expiresAt, k.rotates) in events
    decreases |events|
  {
    if events != [] {
      var s1 := Step(s, events[0]);
      if At(s1, w).Answered? {
        AnswerStays(s1, events[1..], w, At(s1, w).access, At(s1, w).expiresAt, At(s1, w).rotates);
      } else {
        AnswerWasGiven(s1, events[1..], w);
      }
    }
  }

  predicate Holds(k: Worker, access: Cipher, expiresAt: Option<int>, rotates: bool) {
    k.Answered? && k.access == access && k.expiresAt == expiresAt && k.rotates == rotates
  }

  /** A refresher keeps the answer it was given; one that has left its call never calls again. */
  predicate PastCall(k: Worker, access: Cipher, expiresAt: Option<int>, rotates: bool) {
    Holds(k, access, expiresAt, rotates) || k.Leaving? || k.Gone?
  }

  lemma PastCallStep(s: State, e: Event, w: WorkerId, access: Cipher, expiresAt: Option<int>, rotates: bool)
    requires w in s.workers && PastCall(At(s, w), access, expiresAt, rotates)
    ensures w in Step(s, e).workers && PastCall(At(Step(s, e), w), access, expiresAt, rotates)
  {
  }

  lemma {:induction false} AnswerStays(s: State, events: seq<Event>, w: WorkerId, access: Cipher, expiresAt: Option<int>,
                                       rotates: bool)
    requires w in s.workers && PastCall(At(s, w), access, expiresAt, rotates)
    ensures PastCall(At(Run(s, events), w), access, expiresAt, rotates)
    decreases |events|
  {
    if events != [] {
      PastCallStep(s, events[0], w, access, expiresAt, rotates);
      AnswerStays(Step(s, events[0]), events[1..], w, access, expiresAt, rotates);
    }
  }

  /** In every run: a commit writes what the provider answered, keeping what it left out, exactly if the refresh
      column was not written since the refresher read it; otherwise the row is left alone. */
  lemma CommitIsRecorded(events: seq<Event>, w: WorkerId, rotated: Cipher)
    ensures var s := Run(INITIAL, events);
      var k := At(s, w);
      k.Answered? && (k.rotates ==> IsNew(s.log, rotated)) ==>
        var s' := Commit(s, w, rotated);
        && EvAnswer(w, k.access, k.expiresAt, k.rotates) in events
        && At(s', w).Leaving? && s'.lock == s.lock && (k.seen.columns == |s.log| ==> s.row.Some?)
        && s'.row == if k.seen.columns != |s.log| then s.row
             else Some(Connection(Some(k.access), if k.rotates then Some(rotated) else Some(k.base),
                                  if k.expiresAt.Some? then k.expiresAt else s.row.value.expiresAt))
  {
    var s := Run(INITIAL, events);
    AnswerWasGiven(INITIAL, events, w);
    if At(s, w).Answered? {
      CommitExactlyWhenUnchanged(events, w);
    }
  }

  // ---------------------------------------------------------------- one refresher that nothing disturbs

  function Handled(s: State, w: WorkerId, redis: bool, refreshes: bool, access: Cipher, expiresAt: Option<int>,
                   rotates: bool, rotated: Cipher): State
  {
    var s1 := Read(Acquire(Step(s, EvStart(w)), w, redis), w, refreshes);
    Release(Commit(Answer(s1, w, access, expiresAt, rotates), w, rotated), w)
  }

  /** The stored token is missing, or expires within five minutes, or at a time nobody knows. */
  predicate NearExpiry(c: Connection, now: int) {
    c.access.None? || c.expiresAt.None? || c.expiresAt.value <= now + 300000
  }

  /** It waits while the lock is taken; otherwise it asks the provider exactly if the token is near its expiry and
      can be refreshed, stores the answer, and leaves the lock free. */
  lemma RefreshIsHandled(s: State, w: WorkerId, redis: bool, refreshes: bool, access: Cipher, expiresAt: Option<int>,
                         rotates: bool, rotated: Cipher)
    requires w !in s.workers && (rotates ==> IsNew(s.log, rotated))
    ensures var s' := Handled(s, w, redis, refreshes, access, expiresAt, rotates, rotated);
      && (forall x | x != w :: At(s', x) == At(s, x))
      && if redis && LockTaken(s) then At(s', w).Waiting? && s'.row == s.row && s'.lock == s.lock
         else
           && At(s', w).Gone? && s'.lock == (if redis then None else s.lock)
           && s'.row == if !(s.row.Some? && NearExpiry(s.row.value, s.now) && s.row.value.refresh.Some? && refreshes) then s.row
                else Some(Connection(Some(access), if rotates then Some(rotated) else s.row.value.refresh,
                                     if expiresAt.Some? then expiresAt else s.row.value.expiresAt))
  {
    var s1 := Acquire(Step(s, EvStart(w)), w, redis);
    if redis && LockTaken(s) {
      assert At(s1, w).Waiting?;
    } else {
      assert At(s1, w) == Entered(if redis then Some(s.now) else None);
      ReadOn(s1, w, refreshes, access, expiresAt, rotates, rotated);
    }
  }

  lemma ReadOn(s: State, w: WorkerId, refreshes: bool, access: Cipher, expiresAt: Option<int>, rotates: bool, rotated: Cipher)
    requires At(s, w).Entered? && (rotates ==> IsNew(s.log, rotated))
    requires At(s, w).since.Some? ==> s.lock == Some(Lock(w, s.now + LOCK_TTL_MS))
    ensures var s' := Release(Commit(Answer(Read(s, w, refreshes), w, access, expiresAt, rotates), w, rotated), w);
      && (forall x | x != w :: At(s', x) == At(s, x))
      && At(s', w).Gone? && s'.lock == (if At(s, w).since.Some? then None else s.lock)
      && s'.row == if !(s.row.Some? && NearExpiry(s.row.value, s.now) && s.row.value.refresh.Some? && refreshes) then s.row
           else Some(Connection(Some(access), if rotates then Some(rotated) else s.row.value.refresh,
                                if expiresAt.Some? then expiresAt else s.row.value.expiresAt))
  {
  }

  /** A refresher whose provider fails writes nothing and frees its own lock, and nobody else's. */
  lemma FailureIsHandled(events: seq<Event>, w: WorkerId)
    ensures var s := Run(INITIAL, events);
      At(s, w).Calling? ==>
        var s' := Release(Step(s, EvProviderFails(w)), w);
        && At(s', w).Gone? && s'.row == s.row && s'.log == s.log && (forall x | x != w :: At(s', x) == At(s, x))
        && (HoldsLock(At(s, w), s.now) ==> s'.lock == None)
        && (LockTaken(s) && s.lock.value.holder != w ==> s'.lock == s.lock)
  {
    RunInv(INITIAL, events);
    if At(Run(INITIAL, events), w).Calling? {
      OwnLock(Run(INITIAL, events), w);
    }
  }

  lemma OwnLock(s: State, w: WorkerId)
    requires TokenRefresh.Inv(s) && At(s, w).Calling?
    ensures HoldsLock(At(s, w), s.now) ==> LockTaken(s) && s.lock.value.holder == w
  {
    assert LockOk(w, s.workers[w], s.now, s.lock);
  }

  // ---------------------------------------------------------------- reconnect and disconnect

  /** A reconnect stores the new access token and keeps what the provider left out; after a disconnect there is
      nothing left to keep. */
  lemma ReconnectKeeps(s: State, access: Cipher, refresh: Option<Cipher>, expiresAt: Option<int>)
    requires refresh.Some? ==> IsNew(s.log, refresh.value)
    ensures var connected := Connection(Some(access), refresh, expiresAt);
      && (s.row.None? ==> Connect(s, access, refresh, expiresAt).row == Some(connected) && Disconnect(s) == s)
      && (s.row.Some? ==>
            && Connect(s, access, refresh, expiresAt).row
                 == Some(Connection(Some(access), if refresh.Some? then refresh else s.row.value.refresh,
                                    if expiresAt.Some? then expiresAt else s.row.value.expiresAt))
            && Connect(Disconnect(s), access, refresh, expiresAt).row == Some(connected))
  {
    assert refresh.Some? ==> IsNew(Disconnect(s).log, refresh.value);
  }
}
