/**
  What the webhooks charge and what the book holds: in every run the invoices are, one for one and in order, the
  charges that were applied, each payment id once.
*/
module WebhookCharges {
  import opened Wrappers
  import opened Gst
  import opened Invoices
  import opened Webhooks

  datatype Bill = Bill(payment: Option<PaymentId>, amountPaise: int)

  function Bills(invoices: seq<Invoice>): seq<Bill> {
    seq(|invoices|, i requires 0 <= i < |invoices| => Bill(invoices[i].payment, invoices[i].amountPaise))
  }

  predicate Charges(a: Applied) {
    a.payload.Charge? && a.payload.amountPaise != 0
  }

  /** The charges with this payment id have been billed before. */
  predicate Known(applied: seq<Applied>, payment: Option<PaymentId>) {
    payment.Some? && exists i :: 0 <= i < |applied| && Charges(applied[i]) && applied[i].payload.payment == payment
  }

  /** The positions of the applied events that must be invoiced: every charge of an amount, a payment id only the
      first time. */
  function Billable(applied: seq<Applied>): seq<nat> {
    if applied == [] then []
    else
      var front, last := applied[..|applied| - 1], applied[|applied| - 1];
      if Charges(last) && !Known(front, last.payload.payment) then Billable(front) + [|applied| - 1] else Billable(front)
  }

  lemma {:induction false} BillableExactly(applied: seq<Applied>)
    ensures forall k | 0 <= k < |Billable(applied)| :: Billable(applied)[k] < |applied|
    ensures forall k, l | 0 <= k < l < |Billable(applied)| :: Billable(applied)[k] < Billable(applied)[l]
    ensures forall j: nat :: j in Billable(applied) <==>
      j < |applied| && Charges(applied[j]) && !Known(applied[..j], applied[j].payload.payment)
  {
    if applied != [] {
      var front := applied[..|applied| - 1];
      BillableExactly(front);
      forall j: nat | j < |front|
        ensures front[..j] == applied[..j] && front[j] == applied[j]
      {
      }
    }
  }

  function BillOf(a: Applied): Bill
    requires Charges(a)
  {
    Bill(a.payload.payment, a.payload.amountPaise)
  }

  /** The bills that the applied events demand, in order. */
  function Billed(applied: seq<Applied>): seq<Bill> {
    if applied == [] then []
    else
      var front, last := applied[..|applied| - 1], applied[|applied| - 1];
      if Charges(last) && !Known(front, last.payload.payment) then Billed(front) + [BillOf(last)] else Billed(front)
  }

  lemma {:induction false} BilledIsBillable(applied: seq<Applied>)
    ensures |Billed(applied)| == |Billable(applied)|
    ensures forall k | 0 <= k < |Billed(applied)| ::
      var j := Billable(applied)[k];
      j < |applied| && Charges(applied[j]) && Billed(applied)[k] == BillOf(applied[j])
  {
    if applied != [] {
      BilledIsBillable(applied[..|applied| - 1]);
    }
  }

  ghost predicate Holds(bills: seq<Bill>, payment: Option<PaymentId>) {
    exists k :: 0 <= k < |bills| && bills[k].payment == payment
  }

  lemma HoldsMore(bills: seq<Bill>, b: Bill, payment: Option<PaymentId>)
    ensures Holds(bills + [b], payment) <==> Holds(bills, payment) || b.payment == payment
  {
    if Holds(bills, payment) {
      var k :| 0 <= k < |bills| && bills[k].payment == payment;
      assert (bills + [b])[k].payment == payment;
    }
    assert (bills + [b])[|bills|] == b;
  }

  lemma KnownMore(applied: seq<Applied>, a: Applied, payment: Option<PaymentId>)
    ensures Known(applied + [a], payment)
       <==> Known(applied, payment) || (payment.Some? && Charges(a) && a.payload.payment == payment)
  {
    if Known(applied, payment) {
      var i :| 0 <= i < |applied| && Charges(applied[i]) && applied[i].payload.payment == payment;
      assert (applied + [a])[i] == applied[i];
    }
    assert (applied + [a])[|applied|] == a;
  }

  /** A payment id is known exactly if it has been billed. */
  lemma {:induction false} KnownIsBilled(applied: seq<Applied>, payment: Option<PaymentId>)
    ensures Known(applied, payment) <==> payment.Some? && Holds(Billed(applied), payment)
  {
    if applied != [] {
      var front, last := applied[..|applied| - 1], applied[|applied| - 1];
      assert applied == front + [last];
      KnownIsBilled(front, payment);
      KnownMore(front, last, payment);
      if Charges(last) && !Known(front, last.payload.payment) {
        HoldsMore(Billed(front), BillOf(last), payment);
      }
    }
  }

  // ---------------------------------------------------------------- the invariant

  /** A job that is past the look-up of the payment id. */
  predicate JobBills(j: Job, invoices: seq<Invoice>) {
    var charges := Charges(Applied(j.event, j.payload));
    && (j.at.Uninvoiced? ==> charges)
    && (j.at.Numbered? ==> charges && Bill(j.at.invoice.payment, j.at.invoice.amountPaise) == BillOf(Applied(j.event, j.payload)))
    && (j.at.Ready? && charges ==> FindByPayment(invoices, j.payload.payment).Some?)
  }

  ghost predicate BillInv(s: State) {
    && Bills(s.book.invoices) == Billed(s.applied)
    && forall d | d in s.jobs :: JobBills(s.jobs[d], s.book.invoices)
  }

  lemma FoundIsKnown(s: State, payment: Option<PaymentId>)
    requires Bills(s.book.invoices) == Billed(s.applied)
    ensures FindByPayment(s.book.invoices, payment).Some? <==> Known(s.applied, payment)
  {
    FindExactly(s.book.invoices, payment);
    KnownIsBilled(s.applied, payment);
    assert forall i | 0 <= i < |s.book.invoices| :: s.book.invoices[i].payment == Bills(s.book.invoices)[i].payment;
    if FindByPayment(s.book.invoices, payment).Some? {
      var i :| 0 <= i < |s.book.invoices| && s.book.invoices[i].payment == payment;
      assert Billed(s.applied)[i].payment == payment;
    }
  }

  lemma BillOne(applied: seq<Applied>, a: Applied)
    ensures Billed(applied + [a])
         == if Charges(a) && !Known(applied, a.payload.payment) then Billed(applied) + [BillOf(a)] else Billed(applied)
  {
    assert (applied + [a])[..|applied|] == applied;
  }

  lemma CommitBills(s: State, d: DeliveryId)
    requires BillInv(s)
    ensures BillInv(Commit(s, d))
  {
    if d in s.jobs && (s.jobs[d].at.Ready? || s.jobs[d].at.Numbered?) {
      var j, s' := s.jobs[d], Commit(s, d);
      var a := Applied(j.event, j.payload);
      assert JobBills(j, s.book.invoices);
      if j.payload.Charge? {
        FoundIsKnown(s, j.payload.payment);
      }
      BillOne(s.applied, a);
      if j.at.Numbered? {
        assert Bills(s.book.invoices + [j.at.invoice]) == Bills(s.book.invoices) + [BillOf(a)];
      }
      forall x | x in s'.jobs
        ensures JobBills(s'.jobs[x], s'.book.invoices)
      {
        if x != d {
          assert JobBills(s.jobs[x], s.book.invoices);
          if j.at.Numbered? && s.jobs[x].at.Ready? && s.jobs[x].payload.Charge? {
            FindKept(s.book.invoices, j.at.invoice, s.jobs[x].payload.payment);
          }
        }
      }
    }
  }

  lemma StepBills(s: State, e: Event)
    requires BillInv(s)
    ensures BillInv(Step(s, e))
  {
    if e.EvCommit? {
      CommitBills(s, e.d);
    }
  }

  lemma {:induction false} RunBills(s: State, events: seq<Event>)
    requires BillInv(s)
    ensures BillInv(Run(s, events))
    decreases |events|
  {
    if events != [] {
      StepBills(s, events[0]);
      RunBills(Step(s, events[0]), events[1..]);
    }
  }

  // ---------------------------------------------------------------- the theorem

  /** In every run: the invoices are the applied charges, in order.  Each invoice has an applied event of its own
      with exactly its payment id and amount; and an applied event has an invoice exactly if it charges an amount
      and is the first to do so with its payment id, or has none. */
  lemma InvoicesAreTheCharges(events: seq<Event>)
    ensures var s := Run(INITIAL, events);
      var source := Billable(s.applied);
      && |source| == |s.book.invoices|
      && (forall i | 0 <= i < |source| ::
            && source[i] < |s.applied|
            && s.applied[source[i]].payload == Charge(s.book.invoices[i].payment, s.book.invoices[i].amountPaise))
      && (forall i, j | 0 <= i < j < |source| :: source[i] < source[j])
      && (forall j: nat :: j in source <==>
            j < |s.applied| && Charges(s.applied[j]) && !Known(s.applied[..j], s.applied[j].payload.payment))
  {
    var s := Run(INITIAL, events);
    assert BillInv(INITIAL);
    RunBills(INITIAL, events);
    BillableExactly(s.applied);
    BilledIsBillable(s.applied);
    forall i | 0 <= i < |s.book.invoices|
      ensures Bills(s.book.invoices)[i] == Bill(s.book.invoices[i].payment, s.book.invoices[i].amountPaise)
    {
    }
  }

  ghost predicate Delivered(events: seq<Event>, x: EventId, payload: Payload) {
    exists d :: EvDeliver(d, x, payload) in events
  }

  /** What is in progress or applied in `s` was delivered along `events`, or was there in `s0`. */
  ghost predicate FromDeliveries(s0: State, events: seq<Event>, s: State) {
    && (forall d | d in s.jobs :: Delivered(events, s.jobs[d].event, s.jobs[d].payload)
                                  || (d in s0.jobs && s0.jobs[d].event == s.jobs[d].event && s0.jobs[d].payload == s.jobs[d].payload))
    && (forall a | a in s.applied :: Delivered(events, a.event, a.payload) || a in s0.applied
                                     || exists d :: d in s0.jobs && s0.jobs[d].event == a.event && s0.jobs[d].payload == a.payload)
  }

  lemma StepDelivered(s: State, e: Event)
    ensures FromDeliveries(s, [e], Step(s, e))
  {
    if e.EvDeliver? {
      assert e in [e];
    }
  }

  lemma {:induction false} RunDelivered(s: State, events: seq<Event>)
    ensures FromDeliveries(s, events, Run(s, events))
    decreases |events|
  {
    if events != [] {
      var s1 := Step(s, events[0]);
      StepDelivered(s, events[0]);
      RunDelivered(s1, events[1..]);
      forall x, payload | Delivered([events[0]], x, payload) || Delivered(events[1..], x, payload)
        ensures Delivered(events, x, payload)
      {
        var d :| EvDeliver(d, x, payload) in [events[0]] || EvDeliver(d, x, payload) in events[1..];
      }
    }
  }

  /** What is applied was delivered, with the very same payload. */
  lemma AppliedWasDelivered(events: seq<Event>, i: nat)
    requires i < |Run(INITIAL, events).applied|
    ensures var a := Run(INITIAL, events).applied[i];
      exists d :: EvDeliver(d, a.event, a.payload) in events
  {
    RunDelivered(INITIAL, events);
  }

  // ---------------------------------------------------------------- one transaction

  /** A transaction that nothing disturbs does to the book what recording the charge does: nothing for no charge, no
      amount or a known payment id, a failure for a negative amount, and otherwise exactly the year's next number
      with the split of the amount. */
  lemma TransactionRecords(events: seq<Event>, d: DeliveryId, year: nat)
    requires var s := Run(INITIAL, events);
      d in s.jobs && s.jobs[d].at.Locked? && forall x | x in s.jobs && x != d :: !InTransaction(s.jobs[x].at)
    ensures var s := Run(INITIAL, events);
      var s' := Commit(Number(Handle(s, d), d, year), d);
      match s.jobs[d].payload
      case NoCharge => s'.book == s.book && s'.jobs[d].at.Processed?
      case Charge(payment, amountPaise) =>
        if amountPaise < 0 then s'.book == s.book && s'.jobs[d].at.Failed?
        else
          && s'.jobs[d].at.Processed?
          && if amountPaise == 0 || FindByPayment(s.book.invoices, payment).Some? then s'.book == s.book
             else s'.book == Append(s.book, Invoice(payment, year, |IssuedIn(s.book.invoices, year)| + 1, amountPaise,
                                                    CalculateGstSplit(amountPaise).value))
  {
    Reachable(events);
    var s := Run(INITIAL, events);
    assert IssuedIn(s.book.invoices, year) == UpTo(Last(s.book, year));
    assert SequenceRowFree(Handle(s, d), year);
  }

  /** A crash undoes the transaction: the tables are as they were, and nobody waits for its rows any more. */
  lemma CrashUndoes(s: State, d: DeliveryId)
    requires d in s.jobs
    ensures var s' := Step(s, EvCrash(d));
      && s'.events == s.events && s'.book == s.book && s'.applied == s.applied
      && d in s'.jobs && !InTransaction(s'.jobs[d].at) && forall x | x in s.jobs && x != d :: x in s'.jobs && s'.jobs[x] == s.jobs[x]
  {
  }
}
