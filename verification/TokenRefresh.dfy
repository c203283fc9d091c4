/** Token refresh: a Redis lock with an expiry in front of a compare-and-swap on the stored refresh ciphertext,
  * against concurrent refreshers, disconnects and reconnects. */
module TokenRefresh {
  import opened Wrappers

  /** A ciphertext; every encryption draws a new one. */
  type Cipher = nat
  /** A refresher, named by the random token it puts in the lock. */
  type WorkerId = nat

  const LOCK_TTL_MS: int := 10000
  const REFRESH_THRESHOLD_MS: int := 5 * 60 * 1000

  datatype Connection = Connection(access: Option<Cipher>, refresh: Option<Cipher>, expiresAt: Option<int>)

  datatype Lock = Lock(holder: WorkerId, until: int)

  /** What the history had recorded when a refresher read the row: how many writes of the refresh column,
    * and how many writes of the row. */
  datatype Seen = Seen(columns: nat, rows: nat)

  /** Where a refresher stands. `since` is when it took the lock, None when it runs without Redis. */
  datatype Worker =
    | Waiting
    | Entered(since: Option<int>)
    | Calling(since: Option<int>, base: Cipher, seen: Seen)
    | Answered(since: Option<int>, base: Cipher, seen: Seen, access: Cipher, expiresAt: Option<int>, rotates: bool)
    | Leaving(since: Option<int>)
    | Gone

  /** One write of the refresh column, in commit order. */
  datatype Write = Connected(stored: Cipher) | Rotated(worker: WorkerId, base: Cipher, stored: Cipher) | Wiped

  /** One write of the credential row: the access token it stored, and whether it wrote the refresh column. */
  datatype RowWrite = RowWrite(access: Option<Cipher>, refreshColumn: bool)

  datatype State = State(
    now: int,
    row: Option<Connection>,
    lock: Option<Lock>,
    workers: map<WorkerId, Worker>,
    log: seq<Write>,
    rows: seq<RowWrite>)

  const INITIAL: State := State(0, None, None, map[], [], [])

  datatype Event =
    | EvTick(d: nat)
    | EvConnect(access: Cipher, refresh: Option<Cipher>, expiresAt: Option<int>)
    | EvDisconnect
    | EvStart(w: WorkerId)
    | EvAcquire(w: WorkerId, redis: bool)
    | EvRead(w: WorkerId, providerRefreshes: bool)
    | EvAnswer(w: WorkerId, access: Cipher, expiresAt: Option<int>, rotates: bool)
    | EvProviderFails(w: WorkerId)
    | EvCommit(w: WorkerId, rotated: Cipher)
    | EvRelease(w: WorkerId)
    | EvAbandon(w: WorkerId)

  // ---------------------------------------------------------------- the steps

  function Written(e: Write): Option<Cipher> {
    match e
    case Connected(c) => Some(c)
    case Rotated(_, _, c) => Some(c)
    case Wiped => None
  }

  predicate IsNew(log: seq<Write>, c: Cipher) {
    forall i | 0 <= i < |log| :: Written(log[i]) != Some(c)
  }

  function At(s: State, w: WorkerId): Worker {
    if w in s.workers then s.workers[w] else Gone
  }

  function Put(s: State, w: WorkerId, k: Worker): State {
    s.(workers := s.workers[w := k])
  }

  predicate LockTaken(s: State) {
    s.lock.Some? && s.now < s.lock.value.until
  }

  /** Good for more than the threshold, so nobody needs to refresh. */
  predicate StillFresh(c: Connection, now: int) {
    c.expiresAt.Some? && c.expiresAt.value > now + REFRESH_THRESHOLD_MS && c.access.Some?
  }

  function OrElse<T>(a: Option<T>, b: Option<T>): Option<T> {
    if a.Some? then a else b
  }

  /** Reconnecting keeps the stored refresh token when the provider returned none. */
  function Connect(s: State, access: Cipher, refresh: Option<Cipher>, expiresAt: Option<int>): State {
    if refresh.Some? && !IsNew(s.log, refresh.value) then s
    else
      var row :=
        if s.row.None? then Connection(Some(access), refresh, expiresAt)
        else Connection(Some(access), OrElse(refresh, s.row.value.refresh), OrElse(expiresAt, s.row.value.expiresAt));
      s.(row := Some(row),
         log := if refresh.Some? then s.log + [Connected(refresh.value)] else s.log,
         rows := s.rows + [RowWrite(Some(access), refresh.Some?)])
  }

  function Disconnect(s: State): State {
    if s.row.None? then s
    else s.(row := Some(Connection(None, None, None)), log := s.log + [Wiped], rows := s.rows + [RowWrite(None, true)])
  }

  function Acquire(s: State, w: WorkerId, redis: bool): State {
    if !At(s, w).Waiting? then s
    else if !redis then Put(s, w, Entered(None))
    else if LockTaken(s) then s
    else Put(s.(lock := Some(Lock(w, s.now + LOCK_TTL_MS))), w, Entered(Some(s.now)))
  }

  function Read(s: State, w: WorkerId, providerRefreshes: bool): State {
    if !At(s, w).Entered? then s
    else
      var since := At(s, w).since;
      if s.row.None? || StillFresh(s.row.value, s.now) || s.row.value.refresh.None? || !providerRefreshes then
        Put(s, w, Leaving(since))
      else
        Put(s, w, Calling(since, s.row.value.refresh.value, Seen(|s.log|, |s.rows|)))
  }

  function Answer(s: State, w: WorkerId, access: Cipher, expiresAt: Option<int>, rotates: bool): State {
    if !At(s, w).Calling? then s
    else
      var Calling(since, base, seen) := At(s, w);
      Put(s, w, Answered(since, base, seen, access, expiresAt, rotates))
  }

  predicate CasMatches(s: State, w: WorkerId) {
    At(s, w).Answered? && s.row.Some? && s.row.value.refresh == Some(At(s, w).base)
  }

  /** The credential write: it happens only while the row holds the ciphertext the refresher started from. */
  function Commit(s: State, w: WorkerId, refresh: Cipher): State {
    if !At(s, w).Answered? then s
    else
      var Answered(since, base, _, access, expiresAt, rotates) := At(s, w);
      if rotates && !IsNew(s.log, refresh) then s
      else if !CasMatches(s, w) then Put(s, w, Leaving(since))
      else
        var row := Connection(
          Some(access),
          if rotates then Some(refresh) else s.row.value.refresh,
          OrElse(expiresAt, s.row.value.expiresAt));
        Put(s.(row := Some(row),
               log := if rotates then s.log + [Rotated(w, base, refresh)] else s.log,
               rows := s.rows + [RowWrite(Some(access), rotates)]),
            w, Leaving(since))
  }

  /** The release script deletes the key only while it holds the caller's token. */
  function Release(s: State, w: WorkerId): State {
    if !At(s, w).Leaving? then s
    else
      var mine := At(s, w).since.Some? && LockTaken(s) && s.lock.value.holder == w;
      Put(if mine then s.(lock := None) else s, w, Gone)
  }

  function Step(s: State, e: Event): State {
    match e
    case EvTick(d) => s.(now := s.now + d)
    case EvConnect(access, refresh, expiresAt) => Connect(s, access, refresh, expiresAt)
    case EvDisconnect => Disconnect(s)
    case EvStart(w) => if w in s.workers then s else Put(s, w, Waiting)
    case EvAcquire(w, redis) => Acquire(s, w, redis)
    case EvRead(w, providerRefreshes) => Read(s, w, providerRefreshes)
    case EvAnswer(w, access, expiresAt, rotates) => Answer(s, w, access, expiresAt, rotates)
    case EvProviderFails(w) => if At(s, w).Calling? then Put(s, w, Leaving(At(s, w).since)) else s
    case EvCommit(w, refresh) => Commit(s, w, refresh)
    case EvRelease(w) => Release(s, w)
    case EvAbandon(w) => if w in s.workers then Put(s, w, Gone) else s
  }

  function Run(s: State, events: seq<Event>): State
    decreases |events|
  {
    if events == [] then s else Run(Step(s, events[0]), events[1..])
  }

  // ---------------------------------------------------------------- the invariant

  /** No ciphertext is written twice. */
  ghost predicate DistinctWrites(log: seq<Write>) {
    forall i, j | 0 <= i < j < |log| :: Written(log[i]).Some? ==> Written(log[i]) != Written(log[j])
  }

  /** The token history is one chain: every rotation replaces what the write before it stored. */
  ghost predicate OneChain(log: seq<Write>) {
    forall i | 0 <= i < |log| && log[i].Rotated? :: i > 0 && Written(log[i - 1]) == Some(log[i].base)
  }

  /** The refresh column holds what was written last. */
  predicate RowHoldsLast(row: Option<Connection>, log: seq<Write>) {
    if row.None? then log == []
    else row.value.refresh == if log == [] then None else Written(log[|log| - 1])
  }

  /** A row without an access token has nothing else either. */
  predicate NeverHalfWiped(row: Option<Connection>) {
    row.Some? && row.value.access.None? ==> row.value == Connection(None, None, None)
  }

  /** The refresher read a ciphertext that was the last one written at the time. */
  predicate SeenOk(k: Worker, log: seq<Write>) {
    k.Calling? || k.Answered? ==> 0 < k.seen.columns <= |log| && Written(log[k.seen.columns - 1]) == Some(k.base)
  }

  function Since(k: Worker): Option<int> {
    match k
    case Entered(t) => t
    case Calling(t, _, _) => t
    case Answered(t, _, _, _, _, _) => t
    case Leaving(t) => t
    case _ => None
  }

  /** The refresher took the lock and its time has not run out. */
  predicate HoldsLock(k: Worker, now: int) {
    Since(k).Some? && now < Since(k).value + LOCK_TTL_MS
  }

  predicate LockOk(w: WorkerId, k: Worker, now: int, lock: Option<Lock>) {
    && (Since(k).Some? ==> Since(k).value <= now)
    && (HoldsLock(k, now) ==> lock == Some(Lock(w, Since(k).value + LOCK_TTL_MS)))
  }

  /** What each refresher's record must say, given the histories, the clock and the lock. */
  ghost predicate WorkersOk(s: State) {
    forall w | w in s.workers :: SeenOk(s.workers[w], s.log) && LockOk(w, s.workers[w], s.now, s.lock)
  }

  ghost predicate Inv(s: State) {
    && DistinctWrites(s.log) && OneChain(s.log) && RowHoldsLast(s.row, s.log) && NeverHalfWiped(s.row)
    && WorkersOk(s)
  }

  lemma AppendedLog(log: seq<Write>, e: Write)
    requires DistinctWrites(log) && OneChain(log)
    requires Written(e).Some? ==> IsNew(log, Written(e).value)
    requires e.Rotated? ==> log != [] && Written(log[|log| - 1]) == Some(e.base)
    ensures DistinctWrites(log + [e]) && OneChain(log + [e])
  {
  }

  lemma StepInv(s: State, e: Event)
    requires Inv(s)
    ensures Inv(Step(s, e))
  {
    match e {
      case EvConnect(access, refresh, expiresAt) => ConnectInv(s, access, refresh, expiresAt);
      case EvDisconnect => DisconnectInv(s);
      case EvAcquire(w, redis) => AcquireInv(s, w, redis);
      case EvRead(w, providerRefreshes) => ReadInv(s, w, providerRefreshes);
      case EvCommit(w, refresh) => CommitInv(s, w, refresh);
      case EvRelease(w) => ReleaseInv(s, w);
      case _ => QuietInv(s, e);
    }
  }

  /** The steps that touch neither the row nor the lock. */
  lemma QuietInv(s: State, e: Event)
    requires Inv(s) && (e.EvTick? || e.EvStart? || e.EvAnswer? || e.EvProviderFails? || e.EvAbandon?)
    ensures Inv(Step(s, e))
  {
  }

  lemma ConnectInv(s: State, access: Cipher, refresh: Option<Cipher>, expiresAt: Option<int>)
    requires Inv(s)
    ensures Inv(Connect(s, access, refresh, expiresAt))
  {
    if refresh.Some? && IsNew(s.log, refresh.value) {
      AppendedLog(s.log, Connected(refresh.value));
    }
  }

  lemma DisconnectInv(s: State)
    requires Inv(s)
    ensures Inv(Disconnect(s))
  {
    AppendedLog(s.log, Wiped);
  }

  lemma AcquireInv(s: State, w: WorkerId, redis: bool)
    requires Inv(s)
    ensures Inv(Acquire(s, w, redis))
  {
  }

  lemma ReadInv(s: State, w: WorkerId, providerRefreshes: bool)
    requires Inv(s)
    ensures Inv(Read(s, w, providerRefreshes))
  {
  }

  lemma ReleaseInv(s: State, w: WorkerId)
    requires Inv(s)
    ensures Inv(Release(s, w))
  {
  }

  lemma CommitInv(s: State, w: WorkerId, refresh: Cipher)
    requires Inv(s)
    ensures Inv(Commit(s, w, refresh))
  {
    if CasMatches(s, w) && At(s, w).rotates && IsNew(s.log, refresh) {
      AppendedLog(s.log, Rotated(w, At(s, w).base, refresh));
    }
  }

  lemma {:induction false} RunInv(s: State, events: seq<Event>)
    requires Inv(s)
    ensures Inv(Run(s, events))
    decreases |events|
  {
    if events != [] {
      StepInv(s, events[0]);
      RunInv(Step(s, events[0]), events[1..]);
    }
  }

  // ---------------------------------------------------------------- what every run guarantees

  /** The compare-and-swap has no ABA: it matches exactly when the refresh column was not written since the read. */
  lemma CommitExactlyWhenUnchanged(events: seq<Event>, w: WorkerId)
    requires At(Run(INITIAL, events), w).Answered?
    ensures var s := Run(INITIAL, events); CasMatches(s, w) <==> At(s, w).seen.columns == |s.log|
  {
    RunInv(INITIAL, events);
    var s := Run(INITIAL, events);
    assert SeenOk(s.workers[w], s.log);
  }

  /** All refresh tokens ever stored form one chain, and no stored token is ever rotated twice. */
  lemma RotationsFormOneChain(events: seq<Event>)
    ensures var log := Run(INITIAL, events).log;
      && OneChain(log)
      && (forall i, j | 0 <= i < j < |log| && log[i].Rotated? && log[j].Rotated? :: log[i].base != log[j].base)
  {
    RunInv(INITIAL, events);
    var log := Run(INITIAL, events).log;
    forall i, j | 0 <= i < j < |log| && log[i].Rotated? && log[j].Rotated?
      ensures log[i].base != log[j].base
    {
      assert Written(log[i - 1]) == Some(log[i].base) && Written(log[j - 1]) == Some(log[j].base);
    }
  }

  /** A refresher whose token was overwritten or wiped after it read the row. */
  predicate Overtaken(s: State, w: WorkerId) {
    (At(s, w).Calling? || At(s, w).Answered?) && At(s, w).seen.columns < |s.log|
  }

  /** A refresher that is out of the race. */
  predicate NeverWrites(s: State, w: WorkerId) {
    w in s.workers && (Overtaken(s, w) || At(s, w).Leaving? || At(s, w).Gone?)
  }

  lemma OvertakenStep(s: State, w: WorkerId, e: Event)
    requires Inv(s) && NeverWrites(s, w)
    ensures NeverWrites(Step(s, e), w)
    ensures e.EvCommit? && e.w == w ==> Step(s, e).row == s.row && Step(s, e).log == s.log
  {
    assert SeenOk(s.workers[w], s.log);
  }

  /** Once overtaken, a refresher never writes again, whatever else happens: not after its lock expired,
    * not after a disconnect, not after the reconnect that follows. */
  lemma {:induction false} OvertakenNeverWrites(s: State, w: WorkerId, events: seq<Event>, refresh: Cipher)
    requires Inv(s) && NeverWrites(s, w)
    ensures var s' := Run(s, events);
      && NeverWrites(s', w)
      && Commit(s', w, refresh).row == s'.row && Commit(s', w, refresh).log == s'.log
    decreases |events|
  {
    if events == [] {
      OvertakenStep(s, w, EvCommit(w, refresh));
    } else {
      OvertakenStep(s, w, events[0]);
      StepInv(s, events[0]);
      OvertakenNeverWrites(Step(s, events[0]), w, events[1..], refresh);
    }
  }

  /** A disconnect or a rotation by anyone overtakes every refresher that had read the row before. */
  lemma ColumnWriteOvertakes(s: State, e: Event, w: WorkerId)
    requires Inv(s) && |Step(s, e).log| > |s.log|
    requires (At(s, w).Calling? || At(s, w).Answered?) && !(e.EvCommit? && e.w == w)
    ensures NeverWrites(Step(s, e), w)
  {
    assert SeenOk(s.workers[w], s.log);
  }

  /** However refreshes, disconnects and reconnects interleave, the row holds either the refresh token written
    * last, with an access token whenever there is one, or nothing at all. */
  lemma CredentialsAreWhole(events: seq<Event>)
    ensures var s := Run(INITIAL, events);
      && RowHoldsLast(s.row, s.log)
      && (s.row.Some? && s.row.value.access.None? <==> s.row == Some(Connection(None, None, None)))
  {
    RunInv(INITIAL, events);
  }

  /** Wiped credentials stay wiped until somebody reconnects the account. */
  lemma {:induction false} WipedUntilReconnect(s: State, events: seq<Event>)
    requires s.row == Some(Connection(None, None, None))
    requires forall i | 0 <= i < |events| :: !events[i].EvConnect?
    ensures Run(s, events).row == s.row
    decreases |events|
  {
    if events != [] {
      assert !events[0].EvConnect?;
      assert Step(s, events[0]).row == s.row;
      WipedUntilReconnect(Step(s, events[0]), events[1..]);
    }
  }

  // ---------------------------------------------------------------- access tokens

  /** How many writes of the row wrote the refresh column. */
  function Columns(rows: seq<RowWrite>): nat {
    if rows == [] then 0
    else Columns(rows[..|rows| - 1]) + if rows[|rows| - 1].refreshColumn then 1 else 0
  }

  /** A refresher's two counts are those of one moment. */
  predicate CountsOk(k: Worker, rows: seq<RowWrite>) {
    k.Calling? || k.Answered? ==> k.seen.rows <= |rows| && Columns(rows[..k.seen.rows]) == k.seen.columns
  }

  /** The two histories agree with each other, with the row and with the refreshers. */
  ghost predicate RowsOk(s: State) {
    && Columns(s.rows) == |s.log|
    && (s.row.Some? ==> s.rows != [] && s.row.value.access == s.rows[|s.rows| - 1].access)
    && (forall w | w in s.workers :: CountsOk(s.workers[w], s.rows))
  }

  lemma AppendedRow(rows: seq<RowWrite>, r: RowWrite)
    ensures Columns(rows + [r]) == Columns(rows) + if r.refreshColumn then 1 else 0
    ensures forall k | 0 <= k <= |rows| :: (rows + [r])[..k] == rows[..k]
  {
    assert (rows + [r])[..|rows + [r]| - 1] == rows;
  }

  lemma StepRows(s: State, e: Event)
    requires RowsOk(s)
    ensures RowsOk(Step(s, e))
  {
    if e.EvConnect? || e.EvDisconnect? || e.EvCommit? {
      WrittenRows(s, e);
    } else {
      assert s.rows[..|s.rows|] == s.rows;
    }
  }

  lemma WrittenRows(s: State, e: Event)
    requires RowsOk(s) && (e.EvConnect? || e.EvDisconnect? || e.EvCommit?)
    ensures RowsOk(Step(s, e))
  {
    var s' := Step(s, e);
    if s'.rows != s.rows {
      var r := s'.rows[|s.rows|];
      assert s'.rows == s.rows + [r] && s'.row.Some? && s'.row.value.access == r.access;
      OneMoreRow(s, s', r);
    }
  }

  lemma OneMoreRow(s: State, s': State, r: RowWrite)
    requires RowsOk(s) && s'.rows == s.rows + [r] && |s'.log| == |s.log| + if r.refreshColumn then 1 else 0
    requires s'.row.Some? && s'.row.value.access == r.access
    requires forall w | w in s'.workers :: s'.workers[w].Leaving? || (w in s.workers && s'.workers[w] == s.workers[w])
    ensures RowsOk(s')
  {
    AppendedRow(s.rows, r);
  }

  lemma {:induction false} RunRows(s: State, events: seq<Event>)
    requires RowsOk(s)
    ensures RowsOk(Run(s, events))
    decreases |events|
  {
    if events != [] {
      StepRows(s, events[0]);
      RunRows(Step(s, events[0]), events[1..]);
    }
  }

  lemma {:induction false} SameColumns(rows: seq<RowWrite>, k: nat)
    requires k <= |rows|
    ensures Columns(rows[..k]) <= Columns(rows)
    ensures Columns(rows[..k]) == Columns(rows) <==> forall i | k <= i < |rows| :: !rows[i].refreshColumn
  {
    if k == |rows| {
      assert rows[..k] == rows;
    } else {
      var front := rows[..|rows| - 1];
      SameColumns(front, k);
      assert front[..k] == rows[..k];
      assert forall i | k <= i < |front| :: front[i] == rows[i];
    }
  }

  /** The row was written after this refresher read it. */
  predicate WrittenSince(s: State, w: WorkerId)
    requires At(s, w).Answered?
  {
    At(s, w).seen.rows < |s.rows|
  }

  /** The compare-and-swap guards the refresh column only. A commit replaces an access token that was written
    * after its refresher's read exactly when something wrote the row since and nothing wrote that column:
    * every later write was a reconnect without a refresh token or a refresh that did not rotate. */
  lemma CommitReplacesNewerAccessExactly(events: seq<Event>, w: WorkerId, refresh: Cipher)
    requires At(Run(INITIAL, events), w).Answered?
    requires At(Run(INITIAL, events), w).rotates ==> IsNew(Run(INITIAL, events).log, refresh)
    ensures var s := Run(INITIAL, events);
      var k, rows := At(s, w), Commit(s, w, refresh).rows;
      && (WrittenSince(s, w) && rows != s.rows <==>
            WrittenSince(s, w) && forall i | 0 <= k.seen.rows <= i < |s.rows| :: !s.rows[i].refreshColumn)
      && (rows != s.rows ==> rows == s.rows + [RowWrite(Some(k.access), k.rotates)])
  {
    var s := Run(INITIAL, events);
    RunInv(INITIAL, events);
    RunRows(INITIAL, events);
    CommitExactlyWhenUnchanged(events, w);
    assert CountsOk(s.workers[w], s.rows);
    SameColumns(s.rows, At(s, w).seen.rows);
  }

  /** The stored access token is the one written last. */
  lemma AccessIsWrittenLast(events: seq<Event>)
    ensures var s := Run(INITIAL, events);
      s.row.Some? ==> s.rows != [] && s.row.value.access == s.rows[|s.rows| - 1].access
  {
    RunRows(INITIAL, events);
  }

  /** It happens: a refresher that does not rotate puts its access token 3 over the 9 of a reconnect. */
  lemma CommitCanReplaceNewerAccess()
    ensures var s := Run(INITIAL, [EvConnect(1, Some(2), Some(0)), EvStart(0), EvAcquire(0, false), EvRead(0, true),
                                   EvAnswer(0, 3, None, false), EvConnect(9, None, None)]);
      && At(s, 0).Answered? && At(s, 0).seen.rows < |s.rows|
      && s.row == Some(Connection(Some(9), Some(2), Some(0)))
      && Commit(s, 0, 0).row == Some(Connection(Some(3), Some(2), Some(0)))
  {
  }

  // ---------------------------------------------------------------- the lock

  /** Within its expiry the lock admits one refresher, and nobody else's release can free it. */
  lemma LockIsExclusive(events: seq<Event>, w: WorkerId, x: WorkerId)
    ensures var s := Run(INITIAL, events);
      && (HoldsLock(At(s, w), s.now) && HoldsLock(At(s, x), s.now) ==> w == x)
      && (HoldsLock(At(s, w), s.now) && x != w ==> Release(s, x).lock == s.lock)
  {
    RunInv(INITIAL, events);
  }
}
