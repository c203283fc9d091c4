/** Webhook deliveries: claimed by a unique row, applied once under a row lock, charging into the invoice book. */
module Webhooks {
  import opened Wrappers
  import opened Gst
  import opened Invoices

  type EventId = nat
  type DeliveryId = nat

  /** What an event asks for: a charge of a known subscription with a payment amount, or nothing that is invoiced. */
  datatype Payload = NoCharge | Charge(payment: Option<PaymentId>, amountPaise: int)

  /** A delivery in progress. From Locked on it is inside its transaction and holds the event row;
    * from Numbered on it also holds the sequence row of its year. */
  datatype Delivery =
    | Received
    | Claimed
    | Locked
    | Uninvoiced
    | Numbered(invoice: Invoice)
    | Ready
    | Duplicate
    | Processed
    | Failed

  datatype Job = Job(event: EventId, payload: Payload, at: Delivery)

  /** `events` is the WebhookEvent table with its processed flags; `applied` lists the transactions that
    * committed an event's effects, in commit order. */
  datatype State = State(
    events: map<EventId, bool>,
    book: Book,
    jobs: map<DeliveryId, Job>,
    applied: seq<Applied>)

  datatype Applied = Applied(event: EventId, payload: Payload)

  const INITIAL: State := State(map[], Book([], map[]), map[], [])

  datatype Event =
    | EvDeliver(d: DeliveryId, event: EventId, payload: Payload)
    | EvClaim(d: DeliveryId)
    | EvLock(d: DeliveryId)
    | EvHandle(d: DeliveryId)
    | EvNumber(d: DeliveryId, year: nat)
    | EvCommit(d: DeliveryId)
    | EvCrash(d: DeliveryId)

  // ---------------------------------------------------------------- the steps

  predicate InTransaction(k: Delivery) {
    k.Locked? || k.Uninvoiced? || k.Numbered? || k.Ready?
  }

  predicate EventRowFree(s: State, event: EventId) {
    forall d | d in s.jobs :: s.jobs[d].event == event ==> !InTransaction(s.jobs[d].at)
  }

  predicate SequenceRowFree(s: State, year: nat) {
    forall d | d in s.jobs :: s.jobs[d].at.Numbered? ==> s.jobs[d].at.invoice.year != year
  }

  function Move(s: State, d: DeliveryId, k: Delivery): State
    requires d in s.jobs
  {
    s.(jobs := s.jobs[d := s.jobs[d].(at := k)])
  }

  /** Insert the event row; a unique violation reads the existing one. */
  function Claim(s: State, d: DeliveryId): State {
    if d !in s.jobs || !s.jobs[d].at.Received? then s
    else
      var event := s.jobs[d].event;
      if event !in s.events then Move(s.(events := s.events[event := false]), d, Claimed)
      else if s.events[event] then Move(s, d, Duplicate)
      else Move(s, d, Claimed)
  }

  /** Open the transaction: SELECT ... FOR UPDATE waits for the row, then the flag is read again. */
  function LockRow(s: State, d: DeliveryId): State {
    if d !in s.jobs || !s.jobs[d].at.Claimed? || !EventRowFree(s, s.jobs[d].event) then s
    else
      var event := s.jobs[d].event;
      Move(s, d, if event in s.events && s.events[event] then Duplicate else Locked)
  }

  /** The switch over the event type, up to the look-up of the payment id. */
  function Handle(s: State, d: DeliveryId): State {
    if d !in s.jobs || !s.jobs[d].at.Locked? then s
    else
      match s.jobs[d].payload
      case NoCharge => Move(s, d, Ready)
      case Charge(payment, amountPaise) =>
        if amountPaise == 0 then Move(s, d, Ready)
        else if amountPaise < 0 then Move(s, d, Failed)
        else if FindByPayment(s.book.invoices, payment).Some? then Move(s, d, Ready)
        else Move(s, d, Uninvoiced)
  }

  /** The sequence upsert: it holds the year's row to the end of the transaction. */
  function Number(s: State, d: DeliveryId, year: nat): State {
    if d !in s.jobs || !s.jobs[d].at.Uninvoiced? || !s.jobs[d].payload.Charge? || !SequenceRowFree(s, year) then s
    else
      var Charge(payment, amountPaise) := s.jobs[d].payload;
      var split := CalculateGstSplit(amountPaise);
      if split.None? then Move(s, d, Failed)
      else Move(s, d, Numbered(Invoice(payment, year, Last(s.book, year) + 1, amountPaise, split.value)))
  }

  function MarkProcessed(s: State, d: DeliveryId, book: Book): State
    requires d in s.jobs
  {
    var Job(event, payload, _) := s.jobs[d];
    Move(s.(events := s.events[event := true], book := book, applied := s.applied + [Applied(event, payload)]), d, Processed)
  }

  /** Insert the invoice if there is one, mark the event and commit; a payment id that meanwhile
    * got its invoice from another event aborts everything. */
  function Commit(s: State, d: DeliveryId): State {
    if d !in s.jobs then s
    else
      match s.jobs[d].at
      case Ready => MarkProcessed(s, d, s.book)
      case Numbered(invoice) =>
        if FindByPayment(s.book.invoices, invoice.payment).Some? then Move(s, d, Failed)
        else MarkProcessed(s, d, Append(s.book, invoice))
      case _ => s
  }

  function Step(s: State, e: Event): State {
    match e
    case EvDeliver(d, event, payload) => if d in s.jobs then s else s.(jobs := s.jobs[d := Job(event, payload, Received)])
    case EvClaim(d) => Claim(s, d)
    case EvLock(d) => LockRow(s, d)
    case EvHandle(d) => Handle(s, d)
    case EvNumber(d, year) => Number(s, d, year)
    case EvCommit(d) => Commit(s, d)
    case EvCrash(d) => if d in s.jobs then Move(s, d, Failed) else s
  }

  function Run(s: State, events: seq<Event>): State
    decreases |events|
  {
    if events == [] then s else Run(Step(s, events[0]), events[1..])
  }

  // ---------------------------------------------------------------- the invariant

  ghost predicate AppliedOnce(applied: seq<Applied>) {
    forall i, j | 0 <= i < j < |applied| :: applied[i].event != applied[j].event
  }

  /** The flag is set exactly on the events whose effects were committed. */
  ghost predicate FlagsOk(events: map<EventId, bool>, applied: seq<Applied>) {
    && (forall i | 0 <= i < |applied| :: applied[i].event in events && events[applied[i].event])
    && (forall x | x in events && events[x] :: exists i | 0 <= i < |applied| :: applied[i].event == x)
  }

  /** An applied charge with a payment id has its invoice. */
  predicate ChargeInvoiced(a: Applied, invoices: seq<Invoice>) {
    a.payload.Charge? && a.payload.amountPaise != 0 && a.payload.payment.Some? ==>
      FindByPayment(invoices, a.payload.payment).Some?
  }

  ghost predicate ChargesInvoiced(applied: seq<Applied>, invoices: seq<Invoice>) {
    forall i | 0 <= i < |applied| :: ChargeInvoiced(applied[i], invoices)
  }

  predicate InvoiceOk(invoice: Invoice, payload: Payload, book: Book) {
    && payload.Charge? && invoice.payment == payload.payment
    && invoice.amountPaise >= 0 && invoice.split == CalculateGstSplit(invoice.amountPaise).value
    && invoice.sequence == Last(book, invoice.year) + 1
  }

  predicate JobOk(j: Job, events: map<EventId, bool>, book: Book) {
    && (j.at.Claimed? || InTransaction(j.at) ==> j.event in events)
    && (InTransaction(j.at) ==> !events[j.event])
    && (j.at.Numbered? ==> InvoiceOk(j.at.invoice, j.payload, book))
    && (j.at.Ready? ==> ChargeInvoiced(Applied(j.event, j.payload), book.invoices))
  }

  predicate Compatible(j: Job, k: Job) {
    && !(InTransaction(j.at) && InTransaction(k.at) && j.event == k.event)
    && !(j.at.Numbered? && k.at.Numbered? && j.at.invoice.year == k.at.invoice.year)
  }

  ghost predicate JobsOk(jobs: map<DeliveryId, Job>, events: map<EventId, bool>, book: Book) {
    && (forall d | d in jobs :: JobOk(jobs[d], events, book))
    && (forall d, x | d in jobs && x in jobs && d != x :: Compatible(jobs[d], jobs[x]))
  }

  ghost predicate Inv(s: State) {
    && BookOk(s.book)
    && AppliedOnce(s.applied) && FlagsOk(s.events, s.applied) && ChargesInvoiced(s.applied, s.book.invoices)
    && JobsOk(s.jobs, s.events, s.book)
  }

  lemma {:induction false} FindKept(invoices: seq<Invoice>, invoice: Invoice, payment: Option<PaymentId>)
    ensures FindByPayment(invoices, payment).Some? ==> FindByPayment(invoices + [invoice], payment).Some?
    ensures payment.Some? && invoice.payment == payment ==> FindByPayment(invoices + [invoice], payment).Some?
  {
    if invoices != [] {
      FindKept(invoices[1..], invoice, payment);
      assert (invoices + [invoice])[1..] == invoices[1..] + [invoice];
    }
  }

  /** A job that moves without touching the tables. */
  lemma MoveInv(s: State, d: DeliveryId, k: Delivery)
    requires Inv(s) && d in s.jobs
    requires JobOk(s.jobs[d].(at := k), s.events, s.book)
    requires forall x | x in s.jobs && x != d ::
               Compatible(s.jobs[d].(at := k), s.jobs[x]) && Compatible(s.jobs[x], s.jobs[d].(at := k))
    ensures Inv(Move(s, d, k))
  {
  }

  lemma ClaimInv(s: State, d: DeliveryId)
    requires Inv(s)
    ensures Inv(Claim(s, d))
  {
    if d in s.jobs && s.jobs[d].at.Received? {
      var event := s.jobs[d].event;
      if event !in s.events {
        var s1 := s.(events := s.events[event := false]);
        forall x | x in s.jobs
          ensures JobOk(s.jobs[x], s1.events, s.book)
        {
          assert JobOk(s.jobs[x], s.events, s.book);
        }
        MoveInv(s1, d, Claimed);
      } else {
        MoveInv(s, d, if s.events[event] then Duplicate else Claimed);
      }
    }
  }

  lemma LockInv(s: State, d: DeliveryId)
    requires Inv(s)
    ensures Inv(LockRow(s, d))
  {
    if d in s.jobs && s.jobs[d].at.Claimed? && EventRowFree(s, s.jobs[d].event) {
      var event := s.jobs[d].event;
      assert JobOk(s.jobs[d], s.events, s.book);
      MoveInv(s, d, if s.events[event] then Duplicate else Locked);
    }
  }

  lemma HandleInv(s: State, d: DeliveryId)
    requires Inv(s)
    ensures Inv(Handle(s, d))
  {
    if d in s.jobs && s.jobs[d].at.Locked? {
      assert JobOk(s.jobs[d], s.events, s.book);
      forall x, k: Delivery | x in s.jobs && x != d && !k.Numbered?
        ensures Compatible(s.jobs[d].(at := k), s.jobs[x]) && Compatible(s.jobs[x], s.jobs[d].(at := k))
      {
        assert Compatible(s.jobs[d], s.jobs[x]);
      }
      MoveInv(s, d, Handle(s, d).jobs[d].at);
    }
  }

  lemma NumberInv(s: State, d: DeliveryId, year: nat)
    requires Inv(s)
    ensures Inv(Number(s, d, year))
  {
    if d in s.jobs && s.jobs[d].at.Uninvoiced? && s.jobs[d].payload.Charge? && SequenceRowFree(s, year) {
      assert JobOk(s.jobs[d], s.events, s.book);
      var k := Number(s, d, year).jobs[d].at;
      forall x | x in s.jobs && x != d
        ensures Compatible(s.jobs[d].(at := k), s.jobs[x]) && Compatible(s.jobs[x], s.jobs[d].(at := k))
      {
        assert Compatible(s.jobs[d], s.jobs[x]) && Compatible(s.jobs[x], s.jobs[d]);
      }
      MoveInv(s, d, k);
    }
  }

  /** What committing does to the two tables. */
  lemma MarkTables(s: State, event: EventId, payload: Payload, book: Book)
    requires AppliedOnce(s.applied) && FlagsOk(s.events, s.applied) && event in s.events && !s.events[event]
    requires ChargesInvoiced(s.applied, book.invoices) && ChargeInvoiced(Applied(event, payload), book.invoices)
    ensures var applied := s.applied + [Applied(event, payload)];
      AppliedOnce(applied) && FlagsOk(s.events[event := true], applied) && ChargesInvoiced(applied, book.invoices)
  {
    var applied := s.applied + [Applied(event, payload)];
    var events := s.events[event := true];
    assert applied[|s.applied|].event == event;
    forall x | x in events && events[x]
      ensures exists i | 0 <= i < |applied| :: applied[i].event == x
    {
      if x != event {
        var i :| 0 <= i < |s.applied| && s.applied[i].event == x;
        assert applied[i].event == x;
      }
    }
  }

  lemma MarkJobs(s: State, d: DeliveryId, book: Book)
    requires JobsOk(s.jobs, s.events, s.book) && d in s.jobs && InTransaction(s.jobs[d].at)
    requires forall p | FindByPayment(s.book.invoices, p).Some? :: FindByPayment(book.invoices, p).Some?
    requires forall year: nat | !(s.jobs[d].at.Numbered? && s.jobs[d].at.invoice.year == year) ::
               Last(book, year) == Last(s.book, year)
    ensures JobsOk(MarkProcessed(s, d, book).jobs, s.events[s.jobs[d].event := true], book)
  {
    var jobs, events := MarkProcessed(s, d, book).jobs, s.events[s.jobs[d].event := true];
    forall x | x in jobs
      ensures JobOk(jobs[x], events, book)
    {
      if x != d {
        assert JobOk(s.jobs[x], s.events, s.book) && Compatible(s.jobs[d], s.jobs[x]);
      }
    }
    forall x, y | x in jobs && y in jobs && x != y
      ensures Compatible(jobs[x], jobs[y])
    {
      assert Compatible(s.jobs[x], s.jobs[y]);
    }
  }

  lemma CommitInv(s: State, d: DeliveryId)
    requires Inv(s)
    ensures Inv(Commit(s, d))
  {
    if d in s.jobs {
      var Job(event, payload, k) := s.jobs[d];
      assert JobOk(s.jobs[d], s.events, s.book);
      if k.Ready? {
        MarkTables(s, event, payload, s.book);
        MarkJobs(s, d, s.book);
      } else if k.Numbered? {
        if FindByPayment(s.book.invoices, k.invoice.payment).Some? {
          MoveInv(s, d, Failed);
        } else {
          var book := Append(s.book, k.invoice);
          AppendOk(s.book, k.invoice);
          forall p
            ensures FindByPayment(s.book.invoices, p).Some? ==> FindByPayment(book.invoices, p).Some?
            ensures p.Some? && k.invoice.payment == p ==> FindByPayment(book.invoices, p).Some?
          {
            FindKept(s.book.invoices, k.invoice, p);
          }
          MarkTables(s, event, payload, book);
          MarkJobs(s, d, book);
        }
      }
    }
  }

  lemma StepInv(s: State, e: Event)
    requires Inv(s)
    ensures Inv(Step(s, e))
  {
    match e {
      case EvDeliver(d, event, payload) =>
      case EvClaim(d) => ClaimInv(s, d);
      case EvLock(d) => LockInv(s, d);
      case EvHandle(d) => HandleInv(s, d);
      case EvNumber(d, year) => NumberInv(s, d, year);
      case EvCommit(d) => CommitInv(s, d);
      case EvCrash(d) =>
        if d in s.jobs {
          MoveInv(s, d, Failed);
        }
    }
  }

  lemma {:induction false} RunInv(s: State, events: seq<Event>)
    requires Inv(s)
    ensures Inv(Run(s, events))
    decreases |events|
  {
    if events != [] {
      StepInv(s, events[0]);
      RunInv(Step(s, events[0]), events[1..]);
    }
  }

  lemma Reachable(events: seq<Event>)
    ensures Inv(Run(INITIAL, events))
  {
    assert Inv(INITIAL);
    RunInv(INITIAL, events);
  }

  // ---------------------------------------------------------------- what every run guarantees

  /** Under any redelivery, crash and interleaving the effects of an event are committed at most once,
    * and the processed flag says exactly whether they were. */
  lemma EffectsAtMostOnce(events: seq<Event>, x: EventId)
    ensures var s := Run(INITIAL, events);
      && (forall i, j | 0 <= i < j < |s.applied| :: s.applied[i].event != s.applied[j].event)
      && (x in s.events && s.events[x] <==> exists i | 0 <= i < |s.applied| :: s.applied[i].event == x)
  {
    Reachable(events);
  }

  /** A payment id has at most one invoice, and has one as soon as any event that charged it was applied. */
  lemma OneInvoicePerPayment(events: seq<Event>, i: nat)
    ensures var s := Run(INITIAL, events);
      && PaymentsUnique(s.book.invoices)
      && (i < |s.applied| && s.applied[i].payload.Charge? && s.applied[i].payload.amountPaise != 0
            && s.applied[i].payload.payment.Some? ==>
              exists k | 0 <= k < |s.book.invoices| :: s.book.invoices[k].payment == s.applied[i].payload.payment)
  {
    Reachable(events);
    var s := Run(INITIAL, events);
    if i < |s.applied| && s.applied[i].payload.Charge? {
      assert ChargeInvoiced(s.applied[i], s.book.invoices);
      FindExactly(s.book.invoices, s.applied[i].payload.payment);
    }
  }

  /** Each year's invoices carry 1, 2, ..., lastSequence in the order they were issued, no two printed
    * numbers in the book are equal, and every invoice carries the split of its amount. */
  lemma NumbersAreGapFree(events: seq<Event>, year: nat)
    ensures var book := Run(INITIAL, events).book;
      && IssuedIn(book.invoices, year) == UpTo(Last(book, year))
      && (forall i, j | 0 <= i < j < |book.invoices| ::
            InvoiceNumber(book.invoices[i].year, book.invoices[i].sequence)
              != InvoiceNumber(book.invoices[j].year, book.invoices[j].sequence))
      && AmountsSplit(book.invoices)
  {
    Reachable(events);
    var book := Run(INITIAL, events).book;
    forall i, j | 0 <= i < j < |book.invoices|
      ensures InvoiceNumber(book.invoices[i].year, book.invoices[i].sequence)
                != InvoiceNumber(book.invoices[j].year, book.invoices[j].sequence)
    {
      PrintedNumbersDiffer(book, i, j);
    }
  }

  /** Nobody is inside a transaction. */
  predicate Quiet(s: State) {
    forall x | x in s.jobs :: !InTransaction(s.jobs[x].at)
  }

  function Redelivery(d: DeliveryId, event: EventId, payload: Payload, year: nat): seq<Event> {
    [EvDeliver(d, event, payload)] + ([EvClaim(d)] + ([EvLock(d)] + Transaction(d, year)))
  }

  function Transaction(d: DeliveryId, year: nat): seq<Event> {
    [EvHandle(d)] + ([EvNumber(d, year)] + ([EvCommit(d)] + []))
  }

  /** A crash never loses an event: once no other delivery is inside a transaction, one undisturbed
    * redelivery leaves it processed. */
  lemma RedeliveryCompletes(events: seq<Event>, d: DeliveryId, event: EventId, payload: Payload, year: nat)
    requires var s := Run(INITIAL, events);
      d !in s.jobs && Quiet(s)
    requires payload.Charge? ==> payload.amountPaise >= 0
    ensures var s' := Run(Run(INITIAL, events), Redelivery(d, event, payload, year));
      event in s'.events && s'.events[event]
  {
    Reachable(events);
    var s := Run(INITIAL, events);
    var s1 := Step(s, EvDeliver(d, event, payload));
    RunUnfolds(s, EvDeliver(d, event, payload), [EvClaim(d)] + ([EvLock(d)] + Transaction(d, year)));
    RunUnfolds(s1, EvClaim(d), [EvLock(d)] + Transaction(d, year));
    RunUnfolds(Claim(s1, d), EvLock(d), Transaction(d, year));
    var s3 := LockRow(Claim(s1, d), d);
    TransactionRuns(s3, d, year);
    ClaimThenLock(s, d, event, payload);
    if s3.jobs[d].at.Locked? {
      HandleToCommit(s3, d, year);
    }
  }

  /** Undisturbed, the first three steps reach the transaction unless the event is already processed. */
  lemma ClaimThenLock(s: State, d: DeliveryId, event: EventId, payload: Payload)
    requires Quiet(s) && d !in s.jobs
    ensures var s' := LockRow(Claim(Step(s, EvDeliver(d, event, payload)), d), d);
      && d in s'.jobs && s'.jobs[d].event == event && s'.jobs[d].payload == payload
      && (s'.jobs[d].at.Locked? || (s'.jobs[d].at.Duplicate? && event in s'.events && s'.events[event]))
      && (forall x | x in s'.jobs && x != d :: !InTransaction(s'.jobs[x].at))
      && s'.book == s.book
  {
    var s2 := Claim(Step(s, EvDeliver(d, event, payload)), d);
    assert s2.jobs[d].at.Claimed? ==> EventRowFree(s2, event);
  }

  /** Undisturbed, the rest of the transaction commits. */
  lemma HandleToCommit(s: State, d: DeliveryId, year: nat)
    requires d in s.jobs && s.jobs[d].at.Locked?
    requires forall x | x in s.jobs && x != d :: !InTransaction(s.jobs[x].at)
    requires s.jobs[d].payload.Charge? ==> s.jobs[d].payload.amountPaise >= 0
    ensures var s' := Commit(Number(Handle(s, d), d, year), d);
      s.jobs[d].event in s'.events && s'.events[s.jobs[d].event]
  {
    var s1 := Handle(s, d);
    assert SequenceRowFree(s1, year);
    var s2 := Number(s1, d, year);
    assert s2.jobs[d].at.Ready? || s2.jobs[d].at.Numbered?;
  }

  lemma TransactionRuns(s: State, d: DeliveryId, year: nat)
    ensures Run(s, Transaction(d, year)) == Commit(Number(Handle(s, d), d, year), d)
  {
    RunUnfolds(s, EvHandle(d), [EvNumber(d, year)] + ([EvCommit(d)] + []));
    RunUnfolds(Handle(s, d), EvNumber(d, year), [EvCommit(d)] + []);
    RunUnfolds(Number(Handle(s, d), d, year), EvCommit(d), []);
  }

  lemma RunUnfolds(s: State, e: Event, rest: seq<Event>)
    ensures Run(s, [e] + rest) == Run(Step(s, e), rest)
  {
    assert ([e] + rest)[1..] == rest;
  }
}
