/** The founding tier: claims serialized by the Plan row lock, against cancels, plan switches, webhooks and trial expiry. */
module FoundingSeats {
  import opened Wrappers

  type WorkspaceId = nat
  type ClaimId = nat

  const FOUNDING_PLAN_MAX_SEATS: nat := 50

  datatype SubscriptionStatus = TRIAL | ACTIVE | PAST_DUE | HALTED | EXPIRED | CANCELLED

  datatype Subscription = Subscription(isFounding: bool, status: SubscriptionStatus)

  /** A claim's transaction: it has read the workspace's subscription, or also holds the Plan row after counting. */
  datatype Claim =
    | Reading(workspace: WorkspaceId, existed: bool)
    | Counted(workspace: WorkspaceId, existed: bool)
    | Grandfathered
    | SoldOut
    | Granted
    | Aborted

  datatype WebhookKind = Authenticated | Charged | Halted | Cancelled | Ended | PaymentFailed

  /** `revivals` counts the writes that returned a founding subscription to a counted status. */
  datatype State = State(
    subscriptions: map<WorkspaceId, Subscription>,
    claims: map<ClaimId, Claim>,
    revivals: nat)

  const INITIAL: State := State(map[], map[], 0)

  /** `seen` is the status a handler read before its unguarded write: any value, as others may write in between. */
  datatype Event =
    | EvRead(c: ClaimId, w: WorkspaceId)
    | EvCount(c: ClaimId)
    | EvGrant(c: ClaimId)
    | EvAbort(c: ClaimId)
    | EvSwitch(w: WorkspaceId)
    | EvCancel(w: WorkspaceId, atPeriodEnd: bool, seen: SubscriptionStatus)
    | EvWebhook(w: WorkspaceId, kind: WebhookKind, seen: SubscriptionStatus)
    | EvTrialExpiry(w: WorkspaceId, seen: SubscriptionStatus)
    | EvDeleteWorkspace(w: WorkspaceId)

  // ---------------------------------------------------------------- the steps

  predicate TakesSeat(s: Subscription) {
    s.isFounding && (s.status == ACTIVE || s.status == TRIAL || s.status == PAST_DUE)
  }

  function Seated(subscriptions: map<WorkspaceId, Subscription>): set<WorkspaceId> {
    set w | w in subscriptions && TakesSeat(subscriptions[w])
  }

  predicate PlanRowFree(s: State) {
    forall c | c in s.claims :: !s.claims[c].Counted?
  }

  function Read(s: State, c: ClaimId, w: WorkspaceId): State {
    if c in s.claims then s
    else
      var existing := if w in s.subscriptions then Some(s.subscriptions[w]) else None;
      s.(claims := s.claims[c :=
        if existing.Some? && existing.value.isFounding && existing.value.status != CANCELLED then Grandfathered
        else Reading(w, existing.Some?)])
  }

  function Count(s: State, c: ClaimId): State {
    if !(c in s.claims && s.claims[c].Reading?) || !PlanRowFree(s) then s
    else
      var Reading(w, existed) := s.claims[c];
      s.(claims := s.claims[c :=
        if |Seated(s.subscriptions)| >= FOUNDING_PLAN_MAX_SEATS then SoldOut else Counted(w, existed)])
  }

  /** Write and commit: updating a vanished row or creating a second one aborts. */
  function Grant(s: State, c: ClaimId): State {
    if !(c in s.claims && s.claims[c].Counted?) then s
    else
      var Counted(w, existed) := s.claims[c];
      if existed != (w in s.subscriptions) then s.(claims := s.claims[c := Aborted])
      else s.(claims := s.claims[c := Granted], subscriptions := s.subscriptions[w := Subscription(true, TRIAL)])
  }

  function Abort(s: State, c: ClaimId): State {
    if c in s.claims && (s.claims[c].Reading? || s.claims[c].Counted?) then s.(claims := s.claims[c := Aborted]) else s
  }

  function AfterWebhook(sub: Subscription, kind: WebhookKind, seen: SubscriptionStatus): Subscription {
    match kind
    case Authenticated => sub.(status := ACTIVE)
    case Charged => sub.(status := ACTIVE)
    case Halted => sub.(status := HALTED)
    case Cancelled => Subscription(false, CANCELLED)
    case Ended => sub.(status := EXPIRED)
    case PaymentFailed => if seen != HALTED then sub.(status := PAST_DUE) else sub
  }

  /** The subscription an event outside the claims writes, if it writes one. */
  function Written(s: State, e: Event): Option<(WorkspaceId, Subscription)> {
    match e
    case EvSwitch(w) => Some((w, Subscription(false, TRIAL)))
    case EvCancel(w, atPeriodEnd, seen) =>
      if w in s.subscriptions then Some((w, Subscription(false, if atPeriodEnd then seen else CANCELLED))) else None
    case EvWebhook(w, kind, seen) =>
      if w in s.subscriptions then Some((w, AfterWebhook(s.subscriptions[w], kind, seen))) else None
    case EvTrialExpiry(w, seen) =>
      if w in s.subscriptions && seen == TRIAL then Some((w, s.subscriptions[w].(status := EXPIRED))) else None
    case _ => None
  }

  /** A write that returns a founding subscription without a seat to a status that counts. */
  predicate Revives(s: State, e: Event) {
    Written(s, e).Some? &&
    var (w, sub) := Written(s, e).value;
    w in s.subscriptions && s.subscriptions[w].isFounding && !TakesSeat(s.subscriptions[w]) && TakesSeat(sub)
  }

  function Write(s: State, e: Event): State {
    if Written(s, e).None? then s
    else
      var (w, sub) := Written(s, e).value;
      s.(subscriptions := s.subscriptions[w := sub], revivals := s.revivals + if Revives(s, e) then 1 else 0)
  }

  function Step(s: State, e: Event): State {
    match e
    case EvRead(c, w) => Read(s, c, w)
    case EvCount(c) => Count(s, c)
    case EvGrant(c) => Grant(s, c)
    case EvAbort(c) => Abort(s, c)
    case EvDeleteWorkspace(w) => s.(subscriptions := s.subscriptions - {w})
    case _ => Write(s, e)
  }

  function Run(s: State, events: seq<Event>): State
    decreases |events|
  {
    if events == [] then s else Run(Step(s, events[0]), events[1..])
  }

  // ---------------------------------------------------------------- seats and promises

  /** Seats taken, plus the one promised to the claim that has counted and not yet written. */
  function Seats(s: State): nat {
    |Seated(s.subscriptions)| + if PlanRowFree(s) then 0 else 1
  }

  ghost predicate Inv(s: State) {
    && (forall w | w in s.subscriptions && s.subscriptions[w].isFounding :: s.subscriptions[w].status != CANCELLED)
    && (forall c, x | c in s.claims && x in s.claims && s.claims[c].Counted? && s.claims[x].Counted? :: c == x)
  }

  lemma StepInv(s: State, e: Event)
    requires Inv(s)
    ensures Inv(Step(s, e))
  {
  }

  lemma SeatedPut(subs: map<WorkspaceId, Subscription>, w: WorkspaceId, sub: Subscription)
    ensures |Seated(subs[w := sub])|
              == |Seated(subs)| - (if w in subs && TakesSeat(subs[w]) then 1 else 0) + (if TakesSeat(sub) then 1 else 0)
  {
    var before := Seated(subs);
    assert Seated(subs[w := sub]) == if TakesSeat(sub) then before + {w} else before - {w};
  }

  lemma SeatedShrinks(subs: map<WorkspaceId, Subscription>, w: WorkspaceId)
    ensures |Seated(subs - {w})| <= |Seated(subs)|
  {
    assert Seated(subs - {w}) == Seated(subs) - {w};
  }

  lemma ReadSeats(s: State, c: ClaimId, w: WorkspaceId)
    ensures Seats(Read(s, c, w)) == Seats(s)
  {
    var s' := Read(s, c, w);
    if !PlanRowFree(s) {
      var x :| x in s.claims && s.claims[x].Counted?;
      assert x in s'.claims && s'.claims[x].Counted?;
    }
  }

  lemma GrantSeats(s: State, c: ClaimId)
    requires Inv(s)
    ensures Seats(Grant(s, c)) <= Seats(s)
  {
    if c in s.claims && s.claims[c].Counted? {
      SeatedPut(s.subscriptions, s.claims[c].workspace, Subscription(true, TRIAL));
      assert PlanRowFree(Grant(s, c));
      assert !PlanRowFree(s);
    }
  }

  lemma AbortSeats(s: State, c: ClaimId)
    requires Inv(s)
    ensures Seats(Abort(s, c)) <= Seats(s)
  {
    if PlanRowFree(s) {
      assert PlanRowFree(Abort(s, c));
    }
  }

  /** The count under the lock is what a promise rests on. */
  lemma CountSeats(s: State, c: ClaimId)
    requires Inv(s)
    ensures Seats(Count(s, c)) <= if Count(s, c) == s then Seats(s) else if Seats(s) < FOUNDING_PLAN_MAX_SEATS then Seats(s) + 1 else Seats(s)
  {
    var s' := Count(s, c);
    if s' != s && s'.claims[c].SoldOut? {
      assert PlanRowFree(s');
    }
  }

  lemma WriteSeats(s: State, e: Event)
    requires Inv(s)
    ensures Revives(s, e) ==> Seats(Write(s, e)) == Seats(s) + 1
    ensures !Revives(s, e) ==> Seats(Write(s, e)) <= Seats(s)
  {
    assert PlanRowFree(Write(s, e)) == PlanRowFree(s);
    if Written(s, e).Some? {
      var (w, sub) := Written(s, e).value;
      SeatedPut(s.subscriptions, w, sub);
    }
  }

  /** From a state within the cap a step leaves it exactly when it revives a subscription while no seat is free. */
  lemma CapBreaksExactly(s: State, e: Event)
    requires Inv(s) && Seats(s) <= FOUNDING_PLAN_MAX_SEATS
    ensures Seats(Step(s, e)) > FOUNDING_PLAN_MAX_SEATS <==> Revives(s, e) && Seats(s) == FOUNDING_PLAN_MAX_SEATS
    ensures Revives(s, e) ==> e.EvWebhook? && s.subscriptions[e.w].status in {HALTED, EXPIRED}
  {
    SeatsStep(s, e);
  }

  lemma SeatsStep(s: State, e: Event)
    requires Inv(s)
    ensures Revives(s, e) ==> Seats(Step(s, e)) == Seats(s) + 1
    ensures !Revives(s, e) ==> Seats(Step(s, e)) <= if Seats(s) < FOUNDING_PLAN_MAX_SEATS then Seats(s) + 1 else Seats(s)
  {
    match e {
      case EvRead(c, w) => ReadSeats(s, c, w);
      case EvCount(c) => CountSeats(s, c);
      case EvGrant(c) => GrantSeats(s, c);
      case EvAbort(c) => AbortSeats(s, c);
      case EvDeleteWorkspace(w) =>
        SeatedShrinks(s.subscriptions, w);
        assert PlanRowFree(Step(s, e)) == PlanRowFree(s);
      case _ => WriteSeats(s, e);
    }
  }

  lemma {:induction false} SeatsRun(s: State, events: seq<Event>)
    requires Inv(s) && Seats(s) <= FOUNDING_PLAN_MAX_SEATS + s.revivals
    ensures Inv(Run(s, events)) && Seats(Run(s, events)) <= FOUNDING_PLAN_MAX_SEATS + Run(s, events).revivals
    decreases |events|
  {
    if events != [] {
      StepInv(s, events[0]);
      SeatsStep(s, events[0]);
      SeatsRun(Step(s, events[0]), events[1..]);
    }
  }

  /** In every run the seats taken, and the one being written, exceed the cap by no more than the number of
    * founding subscriptions that webhooks brought back; without such a webhook they never exceed it. */
  lemma FoundingCap(events: seq<Event>)
    ensures var s := Run(INITIAL, events); |Seated(s.subscriptions)| <= Seats(s) <= FOUNDING_PLAN_MAX_SEATS + s.revivals
  {
    assert Seated(INITIAL.subscriptions) == {};
    SeatsRun(INITIAL, events);
  }

  // ---------------------------------------------------------------- the cap does break

  function ClaimEvents(i: nat): seq<Event> {
    [EvRead(i, i), EvCount(i), EvGrant(i)]
  }

  function FillFrom(i: nat, n: nat): seq<Event>
    decreases n - i
  {
    if i >= n then [] else ClaimEvents(i) + FillFrom(i + 1, n)
  }

  function Filled(n: nat): map<WorkspaceId, Subscription> {
    if n == 0 then map[] else Filled(n - 1)[n - 1 := Subscription(true, TRIAL)]
  }

  function Claimed(n: nat): map<ClaimId, Claim> {
    if n == 0 then map[] else Claimed(n - 1)[n - 1 := Granted]
  }

  lemma {:induction false} FilledExactly(n: nat)
    ensures forall i: nat :: i in Filled(n) <==> i < n
    ensures forall i: nat | i < n :: Filled(n)[i] == Subscription(true, TRIAL)
    ensures forall i: nat :: i in Claimed(n) <==> i < n
    ensures forall i: nat | i < n :: Claimed(n)[i] == Granted
  {
    if n > 0 {
      FilledExactly(n - 1);
    }
  }

  lemma {:induction false} FilledSeats(n: nat)
    ensures |Seated(Filled(n))| == n
  {
    if n == 0 {
      assert Seated(Filled(0)) == {};
    } else {
      FilledSeats(n - 1);
      FilledExactly(n - 1);
      SeatedPut(Filled(n - 1), n - 1, Subscription(true, TRIAL));
    }
  }

  lemma RunThree(s: State, a: Event, b: Event, c: Event, rest: seq<Event>)
    ensures Run(s, [a, b, c] + rest) == Run(Step(Step(Step(s, a), b), c), rest)
  {
    assert ([a, b, c] + rest)[1..] == [b, c] + rest;
    assert ([b, c] + rest)[1..] == [c] + rest;
    assert ([c] + rest)[1..] == rest;
    assert Run(Step(s, a), [b, c] + rest) == Run(Step(Step(s, a), b), [c] + rest);
  }

  lemma OneClaim(i: nat)
    requires i < FOUNDING_PLAN_MAX_SEATS
    ensures var s := State(Filled(i), Claimed(i), 0);
      Grant(Count(Read(s, i, i), i), i) == State(Filled(i + 1), Claimed(i + 1), 0)
  {
    FilledSeats(i);
    FilledExactly(i);
    UndisturbedClaim(State(Filled(i), Claimed(i), 0), i, i);
  }

  lemma {:induction false} FillRun(i: nat, n: nat, rest: seq<Event>)
    requires i <= n <= FOUNDING_PLAN_MAX_SEATS
    ensures Run(State(Filled(i), Claimed(i), 0), FillFrom(i, n) + rest) == Run(State(Filled(n), Claimed(n), 0), rest)
    decreases n - i
  {
    if i == n {
      assert FillFrom(i, n) + rest == rest;
    } else {
      OneClaim(i);
      assert FillFrom(i, n) + rest == ClaimEvents(i) + (FillFrom(i + 1, n) + rest);
      RunThree(State(Filled(i), Claimed(i), 0), EvRead(i, i), EvCount(i), EvGrant(i), FillFrom(i + 1, n) + rest);
      FillRun(i + 1, n, rest);
    }
  }

  /** Claims for every seat, then one of them halted, then a claim in its place. */
  function OneMore(cap: nat): seq<Event> {
    FillFrom(0, cap) + ([EvWebhook(0, Halted, TRIAL), EvRead(cap, cap), EvCount(cap)] + [EvGrant(cap)])
  }

  lemma OneMoreRun(cap: nat)
    requires cap == FOUNDING_PLAN_MAX_SEATS
    ensures var s := Run(INITIAL, OneMore(cap));
      && |Seated(s.subscriptions)| == cap
      && 0 in s.subscriptions && s.subscriptions[0] == Subscription(true, HALTED)
  {
    var s := State(Filled(cap), Claimed(cap), 0);
    FillRun(0, cap, [EvWebhook(0, Halted, TRIAL), EvRead(cap, cap), EvCount(cap)] + [EvGrant(cap)]);
    RunThree(s, EvWebhook(0, Halted, TRIAL), EvRead(cap, cap), EvCount(cap), [EvGrant(cap)]);
    HaltedThenClaimed(cap);
  }

  lemma HaltFirst(cap: nat)
    requires cap == FOUNDING_PLAN_MAX_SEATS
    ensures var s := Step(State(Filled(cap), Claimed(cap), 0), EvWebhook(0, Halted, TRIAL));
      && s == State(Filled(cap)[0 := Subscription(true, HALTED)], Claimed(cap), 0)
      && |Seated(s.subscriptions)| == cap - 1
      && PlanRowFree(s) && cap !in s.claims && cap !in s.subscriptions
  {
    FilledSeats(cap);
    FilledExactly(cap);
    SeatedPut(Filled(cap), 0, Subscription(true, HALTED));
  }

  lemma HaltedThenClaimed(cap: nat)
    requires cap == FOUNDING_PLAN_MAX_SEATS
    ensures var s := Step(State(Filled(cap), Claimed(cap), 0), EvWebhook(0, Halted, TRIAL));
      var s' := Run(Count(Read(s, cap, cap), cap), [EvGrant(cap)]);
      && |Seated(s'.subscriptions)| == cap
      && 0 in s'.subscriptions && s'.subscriptions[0] == Subscription(true, HALTED)
  {
    HaltFirst(cap);
    var s := Step(State(Filled(cap), Claimed(cap), 0), EvWebhook(0, Halted, TRIAL));
    UndisturbedClaim(s, cap, cap);
    SeatedPut(s.subscriptions, cap, Subscription(true, TRIAL));
    RunOne(Count(Read(s, cap, cap), cap), EvGrant(cap));
  }

  lemma RunOne(s: State, e: Event)
    ensures Run(s, [e]) == Step(s, e)
  {
    assert [e][1..] == [];
  }

  // ---------------------------------------------------------------- who founds, and who no longer does

  /** The subscriptions that come back to a seat are exactly the founding ones that had been halted or had expired
      and are then authenticated, charged, or fail a payment without having been seen halted. */
  lemma RevivesExactly(s: State, e: Event)
    requires Inv(s)
    ensures Revives(s, e) <==>
      && e.EvWebhook? && e.w in s.subscriptions && s.subscriptions[e.w].isFounding
      && s.subscriptions[e.w].status in {HALTED, EXPIRED}
      && (e.kind in {Authenticated, Charged} || (e.kind == PaymentFailed && e.seen != HALTED))
  {
  }

  /** A webhook touches the status of its own subscription, if there is one, and the flag only when it cancels. */
  lemma WebhookWrites(s: State, w: WorkspaceId, kind: WebhookKind, seen: SubscriptionStatus)
    ensures var s' := Step(s, EvWebhook(w, kind, seen));
      && s'.claims == s.claims && s'.subscriptions.Keys == s.subscriptions.Keys
      && (forall x | x in s.subscriptions && x != w :: s'.subscriptions[x] == s.subscriptions[x])
      && (w in s.subscriptions ==>
            var was, now := s.subscriptions[w], s'.subscriptions[w];
            && (now.isFounding <==> was.isFounding && kind != Cancelled)
            && (now.status == ACTIVE <==>
                  kind in {Authenticated, Charged} || (was.status == ACTIVE && kind == PaymentFailed && seen == HALTED))
            && (now.status == HALTED <==> kind == Halted || (was.status == HALTED && kind == PaymentFailed && seen == HALTED))
            && (now.status == CANCELLED <==> kind == Cancelled || (was.status == CANCELLED && kind == PaymentFailed && seen == HALTED))
            && (now.status == PAST_DUE <==> kind == PaymentFailed && (seen != HALTED || was.status == PAST_DUE))
            && (now.status == EXPIRED <==> kind == Ended || (was.status == EXPIRED && kind == PaymentFailed && seen == HALTED)))
  {
  }

  predicate Founds(s: State, w: WorkspaceId) {
    w in s.subscriptions && s.subscriptions[w].isFounding
  }

  /** The step grants a claim of the workspace that holds the Plan row. */
  predicate Grants(s: State, e: Event, w: WorkspaceId) {
    e.EvGrant? && e.c in s.claims && s.claims[e.c].Counted? && s.claims[e.c].workspace == w
  }

  lemma FoundsStep(s: State, e: Event, w: WorkspaceId)
    requires Founds(Step(s, e), w) && !Founds(s, w)
    ensures Grants(s, e, w)
  {
  }

  /** In every run a workspace becomes a founding one only by a grant of its own claim; so what a cancel, a plan
      switch or a cancellation webhook takes away stays away until the workspace claims again. */
  lemma {:induction false} FoundsOnlyByGrant(s: State, events: seq<Event>, w: WorkspaceId)
    requires !Founds(s, w) && Founds(Run(s, events), w)
    ensures exists i :: 0 <= i < |events| && Grants(Run(s, events[..i]), events[i], w)
    decreases |events|
  {
    var s1 := Step(s, events[0]);
    if Founds(s1, w) {
      FoundsStep(s, events[0], w);
      assert events[..0] == [];
      assert Grants(Run(s, events[..0]), events[0], w);
    } else {
      FoundsOnlyByGrant(s1, events[1..], w);
      var i :| 0 <= i < |events[1..]| && Grants(Run(s1, events[1..][..i]), events[1..][i], w);
      assert events[..i + 1][1..] == events[1..][..i];
      assert Grants(Run(s, events[..i + 1]), events[i + 1], w);
    }
  }

  /** Each of these steps takes the founding price away. */
  lemma FoundingIsLost(s: State, w: WorkspaceId, atPeriodEnd: bool, seen: SubscriptionStatus)
    ensures !Founds(Step(s, EvSwitch(w)), w) && !Founds(Step(s, EvWebhook(w, Cancelled, seen)), w)
    ensures !Founds(Step(s, EvCancel(w, atPeriodEnd, seen)), w) && !Founds(Step(s, EvDeleteWorkspace(w)), w)
    ensures w in s.subscriptions ==>
      Step(s, EvCancel(w, atPeriodEnd, seen)).subscriptions[w].status == if atPeriodEnd then seen else CANCELLED
    ensures Step(s, EvTrialExpiry(w, seen)).subscriptions.Keys == s.subscriptions.Keys
    ensures Founds(Step(s, EvTrialExpiry(w, seen)), w) <==> Founds(s, w)
    ensures seen != TRIAL ==> Step(s, EvTrialExpiry(w, seen)) == s
    ensures w in s.subscriptions && seen == TRIAL ==> Step(s, EvTrialExpiry(w, seen)).subscriptions[w].status == EXPIRED
  {
  }

  /** A claim that nothing disturbs: who founds already keeps the price, nobody gets past the cap, and everybody else
      takes a seat, on trial. */
  lemma ClaimIsHandled(s: State, c: ClaimId, w: WorkspaceId)
    requires PlanRowFree(s) && c !in s.claims
    ensures var s' := Grant(Count(Read(s, c, w), c), c);
      && c in s'.claims
      && if Founds(s, w) && s.subscriptions[w].status != CANCELLED then
           s'.claims[c] == Grandfathered && s'.subscriptions == s.subscriptions
         else if |Seated(s.subscriptions)| >= FOUNDING_PLAN_MAX_SEATS then
           s'.claims[c] == SoldOut && s'.subscriptions == s.subscriptions
         else s'.claims[c] == Granted && s'.subscriptions == s.subscriptions[w := Subscription(true, TRIAL)]
  {
    var s1 := Read(s, c, w);
    assert PlanRowFree(s1);
  }

  /** A claim that is aborted before its write takes no seat and lets the next one count. */
  lemma AbortReleases(s: State, c: ClaimId)
    requires Inv(s) && c in s.claims && (s.claims[c].Reading? || s.claims[c].Counted?)
    ensures var s' := Abort(s, c);
      && s'.subscriptions == s.subscriptions && c in s'.claims && s'.claims[c].Aborted?
      && (PlanRowFree(s') <==> PlanRowFree(s) || s.claims[c].Counted?)
  {
    var s' := Abort(s, c);
    if PlanRowFree(s') && !s.claims[c].Counted? {
      forall x | x in s.claims
        ensures !s.claims[x].Counted?
      {
        assert x != c ==> s'.claims[x] == s.claims[x];
      }
    }
  }

  /** Nobody else works on this claim. */
  predicate LeavesClaim(es: seq<Event>, c: ClaimId) {
    EvCount(c) !in es && EvGrant(c) !in es && EvAbort(c) !in es
  }

  lemma {:induction false} ClaimStays(s: State, es: seq<Event>, c: ClaimId)
    requires c in s.claims && LeavesClaim(es, c)
    ensures c in Run(s, es).claims && Run(s, es).claims[c] == s.claims[c]
    decreases |es|
  {
    if es != [] {
      assert Step(s, es[0]).claims[c] == s.claims[c];
      ClaimStays(Step(s, es[0]), es[1..], c);
    }
  }

  /** A claim whatever happens between its reading, its count and its write: it is decided by who founded at the
      reading and by the seats at the count, and it aborts exactly if the workspace's subscription appeared or
      vanished in between. */
  lemma ClaimIsDecided(s: State, c: ClaimId, w: WorkspaceId, fs: seq<Event>, gs: seq<Event>)
    requires c !in s.claims && LeavesClaim(fs, c) && LeavesClaim(gs, c)
    requires PlanRowFree(Run(Read(s, c, w), fs))
    ensures var counting := Run(Read(s, c, w), fs);
      var writing := Run(Count(counting, c), gs);
      var s' := Grant(writing, c);
      && c in s'.claims
      && s'.claims[c] ==
           (if Founds(s, w) && s.subscriptions[w].status != CANCELLED then Grandfathered
            else if |Seated(counting.subscriptions)| >= FOUNDING_PLAN_MAX_SEATS then SoldOut
            else if (w in s.subscriptions) != (w in writing.subscriptions) then Aborted
            else Granted)
      && s'.subscriptions ==
           if s'.claims[c] == Granted then writing.subscriptions[w := Subscription(true, TRIAL)] else writing.subscriptions
  {
    ClaimStays(Read(s, c, w), fs, c);
    ClaimStays(Count(Run(Read(s, c, w), fs), c), gs, c);
  }

  /** A claim by a new workspace that nothing disturbs takes a seat if one is free. */
  lemma UndisturbedClaim(s: State, c: ClaimId, w: WorkspaceId)
    requires PlanRowFree(s) && c !in s.claims && w !in s.subscriptions
    requires |Seated(s.subscriptions)| < FOUNDING_PLAN_MAX_SEATS
    ensures Grant(Count(Read(s, c, w), c), c)
              == s.(claims := s.claims[c := Granted], subscriptions := s.subscriptions[w := Subscription(true, TRIAL)])
  {
    var s1 := Read(s, c, w);
    assert PlanRowFree(s1);
    var s2 := Count(s1, c);
    assert s2.claims[c] == Counted(w, false);
    assert s.claims[c := Reading(w, false)][c := Counted(w, false)][c := Granted] == s.claims[c := Granted];
  }

  /** One more webhook, charging the halted subscription, and one seat too many is taken. */
  lemma CapCanBreak(cap: nat)
    requires cap == FOUNDING_PLAN_MAX_SEATS
    ensures |Seated(Step(Run(INITIAL, OneMore(cap)), EvWebhook(0, Charged, HALTED)).subscriptions)| == cap + 1
  {
    OneMoreRun(cap);
    SeatedPut(Run(INITIAL, OneMore(cap)).subscriptions, 0, Subscription(true, ACTIVE));
  }
}
