/**
  A password change verifies the current password against the hash it has read, and then replaces whatever hash
  is in force, in one statement that is not fenced by the hash it verified.  When it was right to do so.
*/
module AuthPasswordChanges {
  import opened SessionStore
  import opened AuthProtocol
  import opened AuthTheorems
  import opened AuthRevocation

  /** Each epoch of a user after the first has the hash of the epoch before, unless a password change produced
      it: then its hash is one the user never had before. */
  ghost predicate HashSteps(p: Past) {
    forall u, e | (u, e) in p.hashes && e > 1 :: FollowsOn(p, u, e)
  }

  ghost predicate FollowsOn(p: Past, u: UserId, e: int) {
    && (u, e) in p.hashes && (u, e - 1) in p.hashes
    && ((u, e) in p.changes ==> forall i | (u, i) in p.hashes && i < e :: p.hashes[(u, i)] != p.hashes[(u, e)])
    && ((u, e) !in p.changes ==> p.hashes[(u, e)] == p.hashes[(u, e - 1)])
  }

  lemma StillFollowsOn(p: Past, q: Past, u: UserId, e: int, v: UserId, i: int, h: Hash)
    requires FollowsOn(p, v, i) && (forall k | (u, k) in p.hashes :: k < e) && (u, e) !in p.changes
    requires q.hashes == p.hashes[(u, e) := h] && ((v, i) in q.changes <==> (v, i) in p.changes)
    ensures FollowsOn(q, v, i)
  {
  }

  lemma NextEpoch(p: Past, q: Past, u: UserId, e: int, h: Hash)
    requires HashSteps(p) && (u, e) in p.hashes && 1 <= e
    requires (forall k | (u, k) in p.hashes :: k < e + 1) && (u, e + 1) !in p.changes
    requires q.hashes == p.hashes[(u, e + 1) := h]
    requires || (q.changes == p.changes && h == p.hashes[(u, e)])
             || (q.changes.Keys == p.changes.Keys + {(u, e + 1)} && IsNewHash(p, u, h))
    ensures HashSteps(q)
  {
    forall v, i | (v, i) in q.hashes && i > 1
      ensures FollowsOn(q, v, i)
    {
      if (v, i) != (u, e + 1) {
        assert (v, i) in q.changes.Keys <==> (v, i) in p.changes.Keys;
        StillFollowsOn(p, q, u, e + 1, v, i, h);
      } else if q.changes != p.changes {
        assert (u, e + 1) in q.changes.Keys;
      }
    }
  }

  lemma StepHashes(s: State, e: Event)
    requires AuthTheorems.Inv(s) && ChangesInv(s.past) && HashSteps(s.past)
    ensures HashSteps(Step(s, e).past)
  {
    match e {
      case EvSignup(u, h) => SignupHashes(s, u, h);
      case EvChangeCommit(t, h) => ChangeHashes(s, t, h);
      case EvRevokeCommit(t) => RevokeHashes(s, t);
      case _ => QuietHashes(s, e); SameSteps(s.past, Step(s, e).past);
    }
  }

  lemma SameSteps(p: Past, q: Past)
    requires HashSteps(p) && q.hashes == p.hashes && q.changes == p.changes
    ensures HashSteps(q)
  {
    forall v, i | (v, i) in q.hashes && i > 1
      ensures FollowsOn(q, v, i)
    {
      assert FollowsOn(p, v, i);
    }
  }

  lemma QuietHashes(s: State, e: Event)
    requires !e.EvSignup? && !e.EvChangeCommit? && !e.EvRevokeCommit?
    ensures Step(s, e).past.hashes == s.past.hashes && Step(s, e).past.changes == s.past.changes
  {
  }

  lemma SignupHashes(s: State, u: UserId, h: Hash)
    requires AuthTheorems.Inv(s) && ChangesInv(s.past) && HashSteps(s.past)
    ensures HashSteps(Signup(s, u, h).past)
  {
    var p, q := s.past, Signup(s, u, h).past;
    if u !in s.users {
      assert forall k :: (u, k) !in p.hashes;
      forall v, i | (v, i) in q.hashes && i > 1
        ensures FollowsOn(q, v, i)
      {
        StillFollowsOn(p, q, u, 1, v, i, h);
      }
    }
  }

  lemma ChangeHashes(s: State, t: TaskId, h: Hash)
    requires AuthTheorems.Inv(s) && ChangesInv(s.past) && HashSteps(s.past)
    ensures HashSteps(ChangeCommit(s, t, h).past)
  {
    if At(s, t).ChangeVerified? {
      var u := At(s, t).u;
      if u in s.users && IsNewHash(s.past, u, h) {
        ChangesAreHashed(s);
        NextEpoch(s.past, ChangeCommit(s, t, h).past, u, s.users[u].epoch, h);
      }
    }
  }

  lemma RevokeHashes(s: State, t: TaskId)
    requires AuthTheorems.Inv(s) && ChangesInv(s.past) && HashSteps(s.past)
    ensures HashSteps(RevokeCommit(s, t).past)
  {
    if At(s, t).Authenticated? {
      var u := At(s, t).u;
      if u in s.users {
        ChangesAreHashed(s);
        NextEpoch(s.past, RevokeCommit(s, t).past, u, s.users[u].epoch, s.users[u].hash);
      }
    }
  }

  lemma {:induction false} RunHashes(s: State, es: seq<Event>)
    requires AuthTheorems.Inv(s) && ChangesInv(s.past) && HashSteps(s.past)
    ensures HashSteps(Run(s, es).past)
    decreases |es|
  {
    if es != [] {
      StepInv(s, es[0]);
      StepHashes(s, es[0]);
      RunHashes(Step(s, es[0]), es[1..]);
    }
  }

  /** No password change of the user produced an epoch after `lo` up to `hi`. */
  predicate NoChangeBetween(p: Past, u: UserId, lo: int, hi: int) {
    forall i | lo < i <= hi :: (u, i) !in p.changes
  }

  /** A hash is still in force exactly when no change came between. */
  lemma {:induction false} SameHash(p: Past, u: UserId, lo: int, hi: int)
    requires HashSteps(p) && (u, lo) in p.hashes && (u, hi) in p.hashes && 1 <= lo <= hi
    ensures p.hashes[(u, lo)] == p.hashes[(u, hi)] <==> NoChangeBetween(p, u, lo, hi)
    decreases hi - lo
  {
    if lo < hi {
      assert FollowsOn(p, u, hi);
      if (u, hi) !in p.changes {
        SameHash(p, u, lo, hi - 1);
        assert NoChangeBetween(p, u, lo, hi) <==> NoChangeBetween(p, u, lo, hi - 1);
      }
    }
  }

  // ---------------------------------------------------------------- along a run

  /** The step commits a change of the user's password. */
  predicate CommitsChange(s: State, e: Event, u: UserId) {
    && e.EvChangeCommit? && At(s, e.t).ChangeVerified? && At(s, e.t).u == u
    && u in s.users && IsNewHash(s.past, u, e.h)
  }

  predicate ChangesAlong(s: State, es: seq<Event>, u: UserId)
    decreases |es|
  {
    es != [] && (CommitsChange(s, es[0], u) || ChangesAlong(Step(s, es[0]), es[1..], u))
  }

  lemma ChangeStep(s: State, e: Event, u: UserId)
    requires AuthTheorems.Inv(s) && u in s.users
    ensures u in Step(s, e).users && s.users[u].epoch <= Step(s, e).users[u].epoch
    ensures CommitsChange(s, e, u) ==> (u, Step(s, e).users[u].epoch) in Step(s, e).past.changes
    ensures CommitsChange(s, e, u) ==> s.users[u].epoch < Step(s, e).users[u].epoch
    ensures !CommitsChange(s, e, u) ==> forall i :: (u, i) in Step(s, e).past.changes <==> (u, i) in s.past.changes
    ensures forall i | i <= s.users[u].epoch :: (u, i) in Step(s, e).past.changes <==> (u, i) in s.past.changes
  {
    StepEpochs(s, e);
    if !e.EvChangeCommit? {
      NoNewChanges(s, e);
    }
  }

  lemma NoNewChanges(s: State, e: Event)
    requires !e.EvChangeCommit?
    ensures Step(s, e).past.changes == s.past.changes
  {
  }

  /** The epochs that changes produced since then tell whether any committed along the run. */
  lemma {:induction false} ChangesAreRecorded(s: State, es: seq<Event>, u: UserId)
    requires AuthTheorems.Inv(s) && ChangesInv(s.past) && u in s.users
    ensures var s' := Run(s, es);
      && u in s'.users && s.users[u].epoch <= s'.users[u].epoch
      && (forall i | i <= s.users[u].epoch :: (u, i) in s'.past.changes <==> (u, i) in s.past.changes)
      && (NoChangeBetween(s'.past, u, s.users[u].epoch, s'.users[u].epoch) <==> !ChangesAlong(s, es, u))
    decreases |es|
  {
    if es != [] {
      var s1, s' := Step(s, es[0]), Run(s, es);
      StepInv(s, es[0]);
      ChangeStep(s, es[0], u);
      ChangesAreRecorded(s1, es[1..], u);
      var lo, mid, hi := s.users[u].epoch, s1.users[u].epoch, s'.users[u].epoch;
      assert forall i | (u, i) in s.past.changes :: (u, i) in s.past.hashes && i <= lo;
      assert (u, mid) in s'.past.changes <==> (u, mid) in s1.past.changes;
      if !CommitsChange(s, es[0], u) {
        assert NoChangeBetween(s'.past, u, lo, hi) <==> NoChangeBetween(s'.past, u, mid, hi);
      }
    }
  }

  /** What a request that is changing a password has read. */
  predicate HasRead(k: Task, u: UserId, h: Hash, epoch: int) {
    k.ChangeRead? || k.ChangeVerified? ==> k.u == u && k.hash == h && k.epoch == epoch
  }

  lemma ReadStays(s: State, e: Event, t: TaskId, u: UserId, h: Hash, epoch: int)
    requires HasRead(At(s, t), u, h, epoch) && e != EvChangeFind(t)
    ensures HasRead(At(Step(s, e), t), u, h, epoch)
  {
  }

  lemma {:induction false} ReadLasts(s: State, es: seq<Event>, t: TaskId, u: UserId, h: Hash, epoch: int)
    requires HasRead(At(s, t), u, h, epoch) && EvChangeFind(t) !in es
    ensures HasRead(At(Run(s, es), t), u, h, epoch)
    decreases |es|
  {
    if es != [] {
      ReadStays(s, es[0], t, u, h, epoch);
      ReadLasts(Step(s, es[0]), es[1..], t, u, h, epoch);
    }
  }

  /** A change passes the password check only with the right password. */
  lemma {:induction false} ChangeWasChecked(s: State, es: seq<Event>, t: TaskId)
    requires !At(s, t).ChangeVerified?
    ensures At(Run(s, es), t).ChangeVerified? ==> EvChangeVerify(t, true) in es
    decreases |es|
  {
    if es != [] && es[0] != EvChangeVerify(t, true) {
      NotChecked(s, es[0], t);
      ChangeWasChecked(Step(s, es[0]), es[1..], t);
    }
  }

  lemma NotChecked(s: State, e: Event, t: TaskId)
    requires !At(s, t).ChangeVerified? && e != EvChangeVerify(t, true)
    ensures !At(Step(s, e), t).ChangeVerified?
  {
  }

  // ---------------------------------------------------------------- the theorems

  /** The change that is about to commit has verified the password that is in force now. */
  predicate VerifiedPresentHash(s: State, t: TaskId)
    requires At(s, t).ChangeVerified? && At(s, t).u in s.users
  {
    At(s, t).hash == s.users[At(s, t).u].hash
  }

  lemma VerifiedPresentHashNow(s: State, t: TaskId)
    requires AuthTheorems.Inv(s) && HashSteps(s.past) && At(s, t).ChangeVerified?
    ensures var u, read := At(s, t).u, At(s, t).epoch;
      && u in s.users && 1 <= read <= s.users[u].epoch
      && (VerifiedPresentHash(s, t) <==> NoChangeBetween(s.past, u, read, s.users[u].epoch))
  {
    TaskAt(s, t);
    SameHash(s.past, At(s, t).u, At(s, t).epoch, s.users[At(s, t).u].epoch);
  }

  /** In every run: a password change that is about to commit, after any steps `fs` since it read the row, was given
      the current password, and replaces the very hash it was checked against exactly when no other change of that
      user's password committed among them. */
  lemma VerifiedPresentHashExactly(s0: State, es: seq<Event>, t: TaskId, fs: seq<Event>)
    requires Initial(s0) && EvChangeFind(t) !in fs
    ensures var before := Run(s0, es);
      var found := ChangeFind(before, t);
      var s := Run(found, fs);
      At(before, t).Authenticated? && At(s, t).ChangeVerified? ==>
        var u := At(before, t).u;
        && At(s, t).u == u && u in s.users && EvChangeVerify(t, true) in fs
        && (VerifiedPresentHash(s, t) <==> !ChangesAlong(found, fs, u))
  {
    var before := Run(s0, es);
    InitialInv(s0);
    RunInv(s0, es);
    RunHashes(s0, es);
    if At(before, t).Authenticated? && At(Run(ChangeFind(before, t), fs), t).ChangeVerified? {
      FoundNow(before, t, fs);
    }
  }

  lemma FindReads(s: State, t: TaskId)
    requires At(s, t).Authenticated?
    ensures !At(ChangeFind(s, t), t).ChangeVerified?
  {
  }

  lemma FoundNow(s: State, t: TaskId, fs: seq<Event>)
    requires AuthTheorems.Inv(s) && ChangesInv(s.past) && HashSteps(s.past)
    requires At(s, t).Authenticated? && EvChangeFind(t) !in fs && At(Run(ChangeFind(s, t), fs), t).ChangeVerified?
    ensures var found, u := ChangeFind(s, t), At(s, t).u;
      var s' := Run(found, fs);
      && At(s', t).u == u && u in s'.users && EvChangeVerify(t, true) in fs
      && (VerifiedPresentHash(s', t) <==> !ChangesAlong(found, fs, u))
  {
    var found, u := ChangeFind(s, t), At(s, t).u;
    ChangeFindInv(s, t);
    RunInv(found, fs);
    RunHashes(found, fs);
    FindReads(s, t);
    ChangeWasChecked(found, fs, t);
    if u in s.users {
      ReadLasts(found, fs, t, u, s.users[u].hash, s.users[u].epoch);
      VerifiedPresentHashNow(Run(found, fs), t);
      ChangesAreRecorded(found, fs, u);
    } else {
      NothingRead(found, fs, t);
    }
  }

  /** A request that has read nothing reads nothing: its record would have to fit two different epochs. */
  lemma {:induction false} NothingRead(s: State, fs: seq<Event>, t: TaskId)
    requires !At(s, t).ChangeRead? && !At(s, t).ChangeVerified? && EvChangeFind(t) !in fs
    ensures !At(Run(s, fs), t).ChangeVerified?
    decreases |fs|
  {
    if fs != [] {
      ReadStays(s, fs[0], t, 0, 0, 0);
      ReadStays(s, fs[0], t, 0, 0, 1);
      NothingRead(Step(s, fs[0]), fs[1..], t);
    }
  }

  // ---------------------------------------------------------------- a run in which a change is lost

  /** Requests 1 and 2 of one session both verify the current password. */
  function BothVerified(): State {
    Verified(LetIn(Verified(LetIn(SignedIn(NOBODY), 1), 1), 2), 2)
  }

  lemma ReachesBothVerified()
    ensures Reached(BothVerified())
  {
    assert Run(NOBODY, []) == NOBODY;
    ThenLogin(NOBODY);
    var s1 := SignedIn(NOBODY);
    ThenLetIn(s1, 1);
    ThenVerified(LetIn(s1, 1), 1);
    ThenLetIn(Verified(LetIn(s1, 1), 1), 2);
    ThenVerified(LetIn(Verified(LetIn(s1, 1), 1), 2), 2);
  }

  lemma LoginLeaves()
    ensures SignedIn(NOBODY).users == map[7 := UserRow(100, 1)]
    ensures SignedIn(NOBODY).past.hashes == map[(7, 1) := 100]
  {
    var s1 := LoginVerify(LoginFind(Signup(NOBODY, 7, 100), 0, 7), 0, true);
    assert At(s1, 0) == LoginVerified(7, 100, 1) && s1.past.owner == map[];
  }

  lemma RequestLeaves(s: State, t: TaskId)
    requires Stamped(s, 1) && At(s, t).NoTask? && s.users == map[7 := UserRow(100, 1)]
    ensures var s' := Verified(LetIn(s, t), t);
      && Stamped(s', 1) && At(s', t) == ChangeVerified(5, 7, 100, 1)
      && s'.users == s.users && s'.past.hashes == s.past.hashes
      && forall x | x != t :: At(s', x) == At(s, x)
  {
    LetInIsAuthenticated(s, t);
    assert LetIn(s, t).users == s.users;
    VerifiedKeeps(LetIn(s, t), t);
  }

  lemma BothVerifiedFacts()
    ensures var s := BothVerified();
      && s.users == map[7 := UserRow(100, 1)] && s.past.hashes == map[(7, 1) := 100]
      && At(s, 1) == At(s, 2) == ChangeVerified(5, 7, 100, 1)
  {
    LoginStamps();
    LoginLeaves();
    RequestLeaves(SignedIn(NOBODY), 1);
    RequestLeaves(Verified(LetIn(SignedIn(NOBODY), 1), 1), 2);
  }

  lemma SecondChangeOverwrites(s: State)
    requires s.users == map[7 := UserRow(100, 1)] && s.past.hashes == map[(7, 1) := 100]
    requires At(s, 1) == At(s, 2) == ChangeVerified(5, 7, 100, 1)
    ensures var s1 := ChangeCommit(s, 1, 200);
      && s1.users[7] == UserRow(200, 2) && At(s1, 2) == ChangeVerified(5, 7, 100, 1)
      && ChangeCommit(s1, 2, 300).users[7] == UserRow(300, 3)
  {
    assert IsNewHash(s.past, 7, 200);
    assert IsNewHash(ChangeCommit(s, 1, 200).past, 7, 300);
  }

  /** A run from an empty system in which two changes of one password have both verified hash 100: the first to
      commit sets 200, and the second, which never saw 200, replaces it. */
  lemma ChangeCanBeLost() returns (s: State)
    ensures Reached(s) && At(s, 2).ChangeVerified? && At(s, 2).u == 7 && 7 in s.users
    ensures s.users[7].hash == 200 && !VerifiedPresentHash(s, 2)
    ensures Reached(ChangeCommit(s, 2, 300)) && ChangeCommit(s, 2, 300).users[7] == UserRow(300, 3)
  {
    ReachesBothVerified();
    BothVerifiedFacts();
    s := AfterTwo(BothVerified());
  }

  lemma AfterTwo(both: State) returns (s: State)
    requires Reached(both) && both.users == map[7 := UserRow(100, 1)] && both.past.hashes == map[(7, 1) := 100]
    requires At(both, 1) == At(both, 2) == ChangeVerified(5, 7, 100, 1)
    ensures Reached(s) && At(s, 2) == ChangeVerified(5, 7, 100, 1) && 7 in s.users && s.users[7].hash == 200
    ensures Reached(ChangeCommit(s, 2, 300)) && ChangeCommit(s, 2, 300).users[7] == UserRow(300, 3)
  {
    s := ChangeCommit(both, 1, 200);
    SecondChangeOverwrites(both);
    ThenStep(both, EvChangeCommit(1, 200));
    ThenStep(s, EvChangeCommit(2, 300));
  }
}
