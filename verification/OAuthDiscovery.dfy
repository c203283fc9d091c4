/** The single-use discovery token: get, compare-and-delete, select, and restore after a database failure. */
module OAuthDiscovery {
  import opened Wrappers

  type TaskId = nat

  const LIFETIME_SECONDS: int := 900

  /** A selection in progress. `Restoring` has computed the remaining life but not yet written the key. */
  datatype Task =
    | Found
    | Holding
    | Restoring(remaining: int, computedAt: int)
    | Selected
    | Refused

  /** One discovery id: when its session was created, whether it was ever stored, when its key expires.
    * `lag` is the longest time that passed between reading the clock for an expiry and setting the key. */
  datatype State = State(
    now: int,
    createdAt: Option<int>,
    stored: bool,
    key: Option<int>,
    tasks: map<TaskId, Task>,
    successes: nat,
    lag: int)

  const INITIAL: State := State(0, None, false, None, map[], 0, 0)

  datatype Event =
    | EvTick(ms: nat)
    | EvCreate
    | EvStore
    | EvGet(t: TaskId, owner: bool)
    | EvClaim(t: TaskId)
    | EvInvalid(t: TaskId)
    | EvCommit(t: TaskId)
    | EvDatabaseFails(t: TaskId)
    | EvRestore(t: TaskId)
    | EvDie(t: TaskId)

  // ---------------------------------------------------------------- the steps

  predicate Present(s: State) {
    s.key.Some? && s.now < s.key.value
  }

  predicate Holds(k: Task) {
    k.Holding? || k.Restoring?
  }

  function Max(a: int, b: int): int {
    if a < b then b else a
  }

  function Put(s: State, t: TaskId, k: Task): State {
    s.(tasks := s.tasks[t := k])
  }

  function Create(s: State): State {
    if s.createdAt.Some? then s else s.(createdAt := Some(s.now))
  }

  function Store(s: State): State {
    if s.createdAt.None? || s.stored then s
    else s.(stored := true, key := Some(s.now + 1000 * LIFETIME_SECONDS), lag := Max(s.lag, s.now - s.createdAt.value))
  }

  /** Read the session; a missing key and a foreign session are both refused. */
  function Get(s: State, t: TaskId, owner: bool): State {
    if t in s.tasks then s else Put(s, t, if Present(s) && owner then Found else Refused)
  }

  /** Compare-and-delete of the value that was read: a restored key holds the same value. */
  function Claim(s: State, t: TaskId): State {
    if !(t in s.tasks && s.tasks[t].Found?) then s
    else if Present(s) then Put(s.(key := None), t, Holding)
    else Put(s, t, Refused)
  }

  function RemainingSeconds(now: int, createdAt: int): int {
    LIFETIME_SECONDS - (now - createdAt) / 1000
  }

  function DatabaseFails(s: State, t: TaskId): State {
    if !(t in s.tasks && s.tasks[t].Holding?) || s.createdAt.None? then s
    else
      var remaining := RemainingSeconds(s.now, s.createdAt.value);
      Put(s, t, if remaining > 0 then Restoring(remaining, s.now) else Refused)
  }

  /** SET EX NX. */
  function Restore(s: State, t: TaskId): State {
    if !(t in s.tasks && s.tasks[t].Restoring?) then s
    else
      var Restoring(remaining, computedAt) := s.tasks[t];
      if Present(s) then Put(s, t, Refused)
      else Put(s.(key := Some(s.now + 1000 * remaining), lag := Max(s.lag, s.now - computedAt)), t, Refused)
  }

  function Step(s: State, e: Event): State {
    match e
    case EvTick(ms) => s.(now := s.now + ms)
    case EvCreate => Create(s)
    case EvStore => Store(s)
    case EvGet(t, owner) => Get(s, t, owner)
    case EvClaim(t) => Claim(s, t)
    case EvInvalid(t) => if t in s.tasks && s.tasks[t].Holding? then Put(s, t, Refused) else s
    case EvCommit(t) =>
      if t in s.tasks && s.tasks[t].Holding? then Put(s, t, Selected).(successes := s.successes + 1) else s
    case EvDatabaseFails(t) => DatabaseFails(s, t)
    case EvRestore(t) => Restore(s, t)
    case EvDie(t) => if t in s.tasks && s.tasks[t] != Selected then Put(s, t, Refused) else s
  }

  function Run(s: State, events: seq<Event>): State
    decreases |events|
  {
    if events == [] then s else Run(Step(s, events[0]), events[1..])
  }

  // ---------------------------------------------------------------- conservation

  function Holders(tasks: map<TaskId, Task>): set<TaskId> {
    set t | t in tasks && Holds(tasks[t])
  }

  /** The tokens in existence: the key, the claimants that may still restore it, the selections made with it. */
  function Tokens(s: State): nat {
    (if Present(s) then 1 else 0) + |Holders(s.tasks)| + s.successes
  }

  lemma HoldersPut(tasks: map<TaskId, Task>, t: TaskId, k: Task)
    ensures |Holders(tasks[t := k])|
              == |Holders(tasks)| - (if t in tasks && Holds(tasks[t]) then 1 else 0) + (if Holds(k) then 1 else 0)
  {
    var before := Holders(tasks);
    assert Holders(tasks[t := k]) == if Holds(k) then before + {t} else before - {t};
  }

  /** No step makes a token, except the one that stores the session. */
  lemma TokensStep(s: State, e: Event)
    requires s.stored || Tokens(s) == 0
    ensures Tokens(Step(s, e)) <= Tokens(s) + if e.EvStore? && !s.stored then 1 else 0
    ensures Step(s, e).stored == (s.stored || (e.EvStore? && s.createdAt.Some?))
  {
    match e {
      case EvGet(t, owner) => HoldersPut(s.tasks, t, Get(s, t, owner).tasks[t]);
      case EvClaim(t) => HoldersPut(s.tasks, t, if Present(s) then Holding else Refused);
      case EvInvalid(t) => HoldersPut(s.tasks, t, Refused);
      case EvCommit(t) => HoldersPut(s.tasks, t, Selected);
      case EvDatabaseFails(t) =>
        if t in s.tasks {
          HoldersPut(s.tasks, t, DatabaseFails(s, t).tasks[t]);
        }
      case EvRestore(t) => HoldersPut(s.tasks, t, Refused);
      case EvDie(t) => HoldersPut(s.tasks, t, Refused);
      case _ =>
    }
  }

  lemma {:induction false} TokensRun(s: State, events: seq<Event>)
    requires Tokens(s) <= if s.stored then 1 else 0
    ensures Tokens(Run(s, events)) <= if Run(s, events).stored then 1 else 0
    decreases |events|
  {
    if events != [] {
      TokensStep(s, events[0]);
      TokensRun(Step(s, events[0]), events[1..]);
    }
  }

  /** In every run the key, the open claims and the successful selections together never exceed one. */
  lemma TokenIsConserved(events: seq<Event>)
    ensures Tokens(Run(INITIAL, events)) <= 1
  {
    TokensRun(INITIAL, events);
  }

  /** Hence a successful selection is the last thing that ever happens to the token, a claimant is alone,
    * and its restore is never stopped by the NX flag. */
  lemma OneUse(events: seq<Event>, more: seq<Event>, t: TaskId)
    ensures var s := Run(INITIAL, events);
      && s.successes <= 1
      && (s.successes == 1 ==>
            var s' := Run(s, more); s'.successes == 1 && !Present(s') && Holders(s'.tasks) == {})
      && (t in s.tasks && s.tasks[t].Restoring? ==> !Present(s) && Holders(s.tasks) == {t} && Present(Restore(s, t)))
  {
    TokensRun(INITIAL, events);
    var s := Run(INITIAL, events);
    LifeRun(INITIAL, events);
    if s.successes == 1 {
      TokensRun(s, more);
      SuccessesGrow(s, more);
    }
    if t in s.tasks && s.tasks[t].Restoring? {
      assert t in Holders(s.tasks);
      OnlyMember(Holders(s.tasks), t);
    }
  }

  lemma OnlyMember(s: set<TaskId>, t: TaskId)
    requires t in s && |s| <= 1
    ensures s == {t}
  {
    assert |s - {t}| == |s| - 1;
    assert s == (s - {t}) + {t};
  }

  lemma {:induction false} SuccessesGrow(s: State, events: seq<Event>)
    ensures Run(s, events).successes >= s.successes
    decreases |events|
  {
    if events != [] {
      SuccessesGrow(Step(s, events[0]), events[1..]);
    }
  }

  // ---------------------------------------------------------------- ownership

  /** The task has passed the ownership check and not been refused since. */
  predicate Admitted(s: State, t: TaskId) {
    t in s.tasks && !s.tasks[t].Refused?
  }

  lemma AdmittedStep(s: State, e: Event, t: TaskId)
    ensures Admitted(Step(s, e), t) ==> Admitted(s, t) || e == EvGet(t, true)
  {
  }

  /** The successful selections, counted by task. */
  function Winners(s: State): set<TaskId> {
    set t | t in s.tasks && s.tasks[t].Selected?
  }

  lemma WinnersStep(s: State, e: Event)
    requires s.successes == |Winners(s)|
    ensures Step(s, e).successes == |Winners(Step(s, e))|
  {
    var s' := Step(s, e);
    if e.EvCommit? && e.t in s.tasks && s.tasks[e.t].Holding? {
      assert Winners(s') == Winners(s) + {e.t};
    } else {
      assert Winners(s') == Winners(s);
    }
  }

  lemma {:induction false} AdmittedRun(s: State, events: seq<Event>, t: TaskId)
    requires s.successes == |Winners(s)|
    ensures Admitted(Run(s, events), t) ==> Admitted(s, t) || EvGet(t, true) in events
    ensures Run(s, events).successes == |Winners(Run(s, events))|
    decreases |events|
  {
    if events != [] {
      AdmittedStep(s, events[0], t);
      WinnersStep(s, events[0]);
      AdmittedRun(Step(s, events[0]), events[1..], t);
    }
  }

  /** In every run only the session's owner finds it, and so claims it, restores it or selects with it; and as many
      tasks have selected as there are successes. */
  lemma OnlyTheOwnerSelects(events: seq<Event>, t: TaskId)
    ensures var s := Run(INITIAL, events);
      && ((t in s.tasks && (s.tasks[t].Found? || Holds(s.tasks[t]) || s.tasks[t].Selected?)) ==> EvGet(t, true) in events)
      && s.successes == |set x | x in s.tasks && s.tasks[x].Selected?|
  {
    AdmittedRun(INITIAL, events, t);
    assert Winners(Run(INITIAL, events)) == set x | x in Run(INITIAL, events).tasks && Run(INITIAL, events).tasks[x].Selected?;
  }

  /** A run whose reads are all by others never claims, restores or selects. */
  lemma ForeignersGetNothing(events: seq<Event>)
    requires forall t :: EvGet(t, true) !in events
    ensures var s := Run(INITIAL, events);
      && s.successes == 0 && forall t | t in s.tasks :: s.tasks[t].Refused?
  {
    var s := Run(INITIAL, events);
    forall t | t in s.tasks
      ensures s.tasks[t].Refused?
    {
      AdmittedRun(INITIAL, events, t);
    }
    AdmittedRun(INITIAL, events, 0);
    assert Winners(s) == {};
  }

  function Selection(t: TaskId, owner: bool): seq<Event> {
    [EvGet(t, owner)] + ([EvClaim(t)] + ([EvCommit(t)] + []))
  }

  lemma Unfold(s: State, e: Event, rest: seq<Event>)
    ensures Run(s, [e] + rest) == Run(Step(s, e), rest)
  {
    assert ([e] + rest)[1..] == rest;
  }

  /** From any state: a selection that nothing disturbs succeeds exactly if the key is there and the user owns it,
      and then the key is gone; otherwise the key is left as it was. */
  lemma SelectionSucceedsExactly(s: State, t: TaskId, owner: bool)
    requires t !in s.tasks
    ensures var s' := Run(s, Selection(t, owner));
      t in s'.tasks &&
      if Present(s) && owner then s'.tasks[t].Selected? && s'.successes == s.successes + 1 && s'.key == None
      else s'.tasks[t].Refused? && s'.successes == s.successes && s'.key == s.key
  {
    Unfold(s, EvGet(t, owner), [EvClaim(t)] + ([EvCommit(t)] + []));
    Unfold(Get(s, t, owner), EvClaim(t), [EvCommit(t)] + []);
    Unfold(Claim(Get(s, t, owner), t), EvCommit(t), []);
  }

  /** A crash between the claim and the end of the selection loses the token for good: nobody ever selects. */
  lemma CrashLosesTheToken(events: seq<Event>, t: TaskId, more: seq<Event>)
    requires var s := Run(INITIAL, events); t in s.tasks && Holds(s.tasks[t])
    ensures var s' := Run(Step(Run(INITIAL, events), EvDie(t)), more);
      !Present(s') && Holders(s'.tasks) == {} && s'.successes == 0
  {
    var s := Run(INITIAL, events);
    TokensRun(INITIAL, events);
    LifeRun(INITIAL, events);
    assert t in Holders(s.tasks);
    OnlyMember(Holders(s.tasks), t);
    HoldersPut(s.tasks, t, Refused);
    NoTokensRun(Step(s, EvDie(t)), more);
  }

  lemma {:induction false} NoTokensRun(s: State, events: seq<Event>)
    requires s.stored && Tokens(s) == 0
    ensures Tokens(Run(s, events)) == 0
    decreases |events|
  {
    if events != [] {
      TokensStep(s, events[0]);
      NoTokensRun(Step(s, events[0]), events[1..]);
    }
  }

  // ---------------------------------------------------------------- lifetime

  ghost predicate LifeOk(s: State) {
    && s.lag >= 0
    && (s.createdAt.Some? ==> s.createdAt.value <= s.now)
    && (s.stored ==> s.createdAt.Some?)
    && (s.key.Some? ==>
          && s.stored && s.createdAt.value + 1000 * LIFETIME_SECONDS <= s.key.value
          && s.key.value <= s.createdAt.value + 1000 * LIFETIME_SECONDS + 999 + s.lag)
    && (forall t | t in s.tasks && s.tasks[t].Restoring? ::
          && s.stored && s.createdAt.value <= s.tasks[t].computedAt <= s.now
          && s.tasks[t].remaining > 0
          && s.tasks[t].remaining == RemainingSeconds(s.tasks[t].computedAt, s.createdAt.value))
    && (forall t | t in s.tasks :: s.tasks[t] == Refused || s.stored)
  }

  lemma LifeStep(s: State, e: Event)
    requires LifeOk(s)
    ensures LifeOk(Step(s, e))
  {
  }

  lemma {:induction false} LifeRun(s: State, events: seq<Event>)
    requires LifeOk(s)
    ensures LifeOk(Run(s, events))
    decreases |events|
  {
    if events != [] {
      LifeStep(s, events[0]);
      LifeRun(Step(s, events[0]), events[1..]);
    }
  }

  /** In milliseconds the key ends no earlier than 900 s from creation, and less than a second, plus the time the
    * writes took, later, however often the token is claimed and restored. */
  lemma LifeIsBounded(events: seq<Event>)
    ensures var s := Run(INITIAL, events);
      s.key.Some? ==>
        && s.createdAt.Some?
        && var promised := s.createdAt.value + 1000 * LIFETIME_SECONDS;
           promised <= s.key.value < promised + 1000 + s.lag
  {
    LifeRun(INITIAL, events);
  }

  /** A restore goes past 900 s from creation exactly when the claim's age had a fraction of a second or the
    * write came later than the clock reading: on a whole-second clock, never. */
  lemma RestoreProlongsExactly(events: seq<Event>, t: TaskId)
    requires var s := Run(INITIAL, events); t in s.tasks && s.tasks[t].Restoring?
    ensures var s := Run(INITIAL, events);
      && s.createdAt.Some?
      && var created, read := s.createdAt.value, s.tasks[t].computedAt;
      var end := Restore(s, t).key;
      && end == Some(created + 1000 * LIFETIME_SECONDS + (read - created) % 1000 + (s.now - read))
      && (end.value > created + 1000 * LIFETIME_SECONDS <==> (read - created) % 1000 != 0 || s.now > read)
  {
    LifeRun(INITIAL, events);
    OneUse(events, [], t);
    var s := Run(INITIAL, events);
    var age := s.tasks[t].computedAt - s.createdAt.value;
    assert age == 1000 * (age / 1000) + age % 1000;
  }

  /** In every run a database failure that nothing disturbs gives the token back exactly if it is younger than
      900 s; an invalid selection never does. */
  lemma FailureRestoresExactly(events: seq<Event>, t: TaskId)
    requires var s := Run(INITIAL, events); t in s.tasks && s.tasks[t].Holding?
    ensures var s := Run(INITIAL, events);
      && s.createdAt.Some? && !Present(s)
      && (Present(Restore(DatabaseFails(s, t), t)) <==> s.now - s.createdAt.value < 1000 * LIFETIME_SECONDS)
      && !Present(Step(s, EvInvalid(t))) && Step(s, EvInvalid(t)).tasks[t].Refused?
  {
    LifeRun(INITIAL, events);
    TokensRun(INITIAL, events);
    var s := Run(INITIAL, events);
    assert t in Holders(s.tasks);
    OnlyMember(Holders(s.tasks), t);
  }

  /** So a run breaks the promise of 900 s: a session stored at once, claimed within the same second and restored
    * a millisecond later outlives them by that millisecond. */
  lemma RestoreCanProlong()
    ensures var s := Run(INITIAL, [EvCreate, EvStore, EvGet(0, true), EvClaim(0), EvTick(1), EvDatabaseFails(0), EvRestore(0)]);
      s.createdAt.Some? && s.key == Some(s.createdAt.value + 1000 * LIFETIME_SECONDS + 1) && s.lag == 0
  {
  }
}
