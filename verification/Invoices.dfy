/** Charged invoices: idempotent on the payment id, numbered per year without gaps. */
module Invoices {
  import opened Wrappers
  import opened Gst

  type PaymentId = nat

  datatype Invoice = Invoice(payment: Option<PaymentId>, year: nat, sequence: nat, amountPaise: int, split: Split)

  /** The invoice table in insertion order, and the last sequence used in each year. */
  datatype Book = Book(invoices: seq<Invoice>, lastSequence: map<nat, nat>)

  function Last(book: Book, year: nat): nat {
    if year in book.lastSequence then book.lastSequence[year] else 0
  }

  /** The row with this payment id, as the unique index finds it. */
  function FindByPayment(invoices: seq<Invoice>, payment: Option<PaymentId>): Option<Invoice> {
    if payment.None? || invoices == [] then None
    else if invoices[0].payment == payment then Some(invoices[0])
    else FindByPayment(invoices[1..], payment)
  }

  function Append(book: Book, invoice: Invoice): Book {
    Book(book.invoices + [invoice], book.lastSequence[invoice.year := invoice.sequence])
  }

  // ---------------------------------------------------------------- the invariant of the book

  /** The sequence numbers issued in a year, in the order they were issued. */
  function IssuedIn(invoices: seq<Invoice>, year: nat): seq<nat> {
    if invoices == [] then []
    else
      var before := IssuedIn(invoices[..|invoices| - 1], year);
      var last := invoices[|invoices| - 1];
      if last.year == year then before + [last.sequence] else before
  }

  function UpTo(n: nat): seq<nat> {
    seq(n, i => i + 1)
  }

  ghost predicate GapFree(book: Book) {
    forall year: nat :: IssuedIn(book.invoices, year) == UpTo(Last(book, year))
  }

  ghost predicate PaymentsUnique(invoices: seq<Invoice>) {
    forall i, j | 0 <= i < j < |invoices| && invoices[i].payment.Some? :: invoices[i].payment != invoices[j].payment
  }

  ghost predicate AmountsSplit(invoices: seq<Invoice>) {
    forall i | 0 <= i < |invoices| ::
      && invoices[i].amountPaise >= 0
      && invoices[i].split == CalculateGstSplit(invoices[i].amountPaise).value
  }

  ghost predicate BookOk(book: Book) {
    GapFree(book) && PaymentsUnique(book.invoices) && AmountsSplit(book.invoices)
  }

  lemma {:induction false} FindExactly(invoices: seq<Invoice>, payment: Option<PaymentId>)
    ensures var r := FindByPayment(invoices, payment);
      && (r.Some? ==> payment.Some? && r.value in invoices && r.value.payment == payment)
      && (r.None? <==> payment.None? || forall i | 0 <= i < |invoices| :: invoices[i].payment != payment)
  {
    if invoices != [] {
      FindExactly(invoices[1..], payment);
      if payment.Some? && invoices[0].payment != payment && FindByPayment(invoices[1..], payment).None? {
        forall i | 0 <= i < |invoices|
          ensures invoices[i].payment != payment
        {
          assert i > 0 ==> invoices[i] == invoices[1..][i - 1];
        }
      }
    }
  }

  lemma AppendOk(book: Book, invoice: Invoice)
    requires BookOk(book)
    requires invoice.sequence == Last(book, invoice.year) + 1
    requires FindByPayment(book.invoices, invoice.payment).None?
    requires invoice.amountPaise >= 0 && invoice.split == CalculateGstSplit(invoice.amountPaise).value
    ensures BookOk(Append(book, invoice))
  {
    var after := Append(book, invoice);
    assert after.invoices[..|after.invoices| - 1] == book.invoices;
    forall year: nat
      ensures IssuedIn(after.invoices, year) == UpTo(Last(after, year))
    {
      assert IssuedIn(book.invoices, year) == UpTo(Last(book, year));
    }
    FindExactly(book.invoices, invoice.payment);
  }

  // ---------------------------------------------------------------- no two invoices share a number

  lemma {:induction false} SequenceIsIssued(invoices: seq<Invoice>, i: nat)
    requires i < |invoices|
    ensures invoices[i].sequence in IssuedIn(invoices, invoices[i].year)
  {
    if i < |invoices| - 1 {
      SequenceIsIssued(invoices[..|invoices| - 1], i);
    }
  }

  lemma {:induction false} IssuedOnce(invoices: seq<Invoice>, i: nat, j: nat)
    requires i < j < |invoices| && invoices[i].year == invoices[j].year
    requires forall a, b | 0 <= a < b < |IssuedIn(invoices, invoices[i].year)| ::
               IssuedIn(invoices, invoices[i].year)[a] != IssuedIn(invoices, invoices[i].year)[b]
    ensures invoices[i].sequence != invoices[j].sequence
  {
    var front, year := invoices[..|invoices| - 1], invoices[i].year;
    var issued, before := IssuedIn(invoices, year), IssuedIn(front, year);
    assert before == issued[..|before|];
    if j < |front| {
      forall a, b | 0 <= a < b < |before|
        ensures before[a] != before[b]
      {
        assert issued[a] != issued[b];
      }
      IssuedOnce(front, i, j);
    } else {
      SequenceIsIssued(front, i);
      var a :| 0 <= a < |before| && before[a] == invoices[i].sequence;
      assert issued[a] != issued[|before|];
    }
  }

  /** In a gap-free book two invoices of the same year never carry the same sequence number. */
  lemma SequencesDiffer(book: Book, i: nat, j: nat)
    requires GapFree(book) && i < j < |book.invoices| && book.invoices[i].year == book.invoices[j].year
    ensures book.invoices[i].sequence != book.invoices[j].sequence
  {
    IssuedOnce(book.invoices, i, j);
  }

  // ---------------------------------------------------------------- the printed number

  const DIGITS: string := "0123456789"

  function Decimal(n: nat): string {
    if n < 10 then [DIGITS[n]] else Decimal(n / 10) + [DIGITS[n % 10]]
  }

  function PadStart(s: string, width: nat): string
    decreases width - |s|
  {
    if |s| >= width then s else PadStart(['0'] + s, width)
  }

  function InvoiceNumber(year: nat, sequence: nat): string {
    "INV-" + Decimal(year) + "-" + PadStart(Decimal(sequence), 5)
  }

  function DigitValue(c: char): nat {
    if '0' <= c <= '9' then (c - '0') as nat else 0
  }

  function Value(s: string): nat {
    if s == "" then 0 else 10 * Value(s[..|s| - 1]) + DigitValue(s[|s| - 1])
  }

  lemma {:induction false} DecimalValue(n: nat)
    ensures Value(Decimal(n)) == n && '-' !in Decimal(n)
  {
    if n >= 10 {
      DecimalValue(n / 10);
      assert Decimal(n)[..|Decimal(n)| - 1] == Decimal(n / 10);
    }
  }

  lemma {:induction false} LeadingZero(s: string)
    ensures Value(['0'] + s) == Value(s)
  {
    if s != "" {
      LeadingZero(s[..|s| - 1]);
      assert (['0'] + s)[..|s|] == ['0'] + s[..|s| - 1];
    }
  }

  lemma {:induction false} PadValue(s: string, width: nat)
    ensures Value(PadStart(s, width)) == Value(s)
    decreases width - |s|
  {
    if |s| < width {
      PadValue(['0'] + s, width);
      LeadingZero(s);
    }
  }

  lemma FirstDash(a: string, b: string, c: string, d: string)
    requires a + "-" + b == c + "-" + d && '-' !in a && '-' !in c
    ensures a == c && b == d
  {
    var s, t := a + "-" + b, c + "-" + d;
    assert s[|a|] == '-' && t[|c|] == '-';
    assert forall i | 0 <= i < |a| :: s[i] == a[i];
    assert forall i | 0 <= i < |c| :: t[i] == c[i];
    assert |a| == |c|;
    assert a == s[..|a|] && c == t[..|c|];
    assert b == s[|a| + 1..] && d == t[|c| + 1..];
  }

  lemma TailIsInjective(year: nat, sequence: nat, year': nat, sequence': nat)
    requires Decimal(year) + "-" + PadStart(Decimal(sequence), 5) == Decimal(year') + "-" + PadStart(Decimal(sequence'), 5)
    ensures year == year' && sequence == sequence'
  {
    DecimalValue(year);
    DecimalValue(year');
    FirstDash(Decimal(year), PadStart(Decimal(sequence), 5), Decimal(year'), PadStart(Decimal(sequence'), 5));
    DecimalValue(sequence);
    DecimalValue(sequence');
    PadValue(Decimal(sequence), 5);
    PadValue(Decimal(sequence'), 5);
  }

  lemma AfterPrefix(p: string, a: string, b: string, c: string)
    ensures (p + a + b + c)[|p|..] == a + b + c
  {
  }

  /** A printed number determines its year and its sequence, also beyond five digits. */
  lemma InvoiceNumberIsInjective(year: nat, sequence: nat, year': nat, sequence': nat)
    ensures InvoiceNumber(year, sequence) == InvoiceNumber(year', sequence') <==> year == year' && sequence == sequence'
  {
    if InvoiceNumber(year, sequence) == InvoiceNumber(year', sequence') {
      AfterPrefix("INV-", Decimal(year), "-", PadStart(Decimal(sequence), 5));
      AfterPrefix("INV-", Decimal(year'), "-", PadStart(Decimal(sequence'), 5));
      TailIsInjective(year, sequence, year', sequence');
    }
  }

  /** All printed numbers in a gap-free book are different. */
  lemma PrintedNumbersDiffer(book: Book, i: nat, j: nat)
    requires GapFree(book) && i < j < |book.invoices|
    ensures var x, y := book.invoices[i], book.invoices[j];
      InvoiceNumber(x.year, x.sequence) != InvoiceNumber(y.year, y.sequence)
  {
    var x, y := book.invoices[i], book.invoices[j];
    InvoiceNumberIsInjective(x.year, x.sequence, y.year, y.sequence);
    if x.year == y.year {
      SequencesDiffer(book, i, j);
    }
  }

  // ---------------------------------------------------------------- the table

  class InvoiceTable {
    var invoices: seq<Invoice>
    var lastSequence: map<nat, nat>

    function View(): Book
      reads this
    {
      Book(invoices, lastSequence)
    }

    ghost predicate Valid()
      reads this
    {
      BookOk(View())
    }

    constructor ()
      ensures View() == Book([], map[]) && Valid()
    {
      invoices, lastSequence := [], map[];
    }

    /** One transaction. The answer is None, and nothing is written, for a negative amount. */
    method RecordChargedInvoice(payment: Option<PaymentId>, amountPaise: int, currentYear: nat)
      returns (result: Option<Invoice>)
      requires Valid()
      modifies this
      ensures Valid()
      ensures result.None? <==> amountPaise < 0
      ensures result.None? ==> View() == old(View())
      ensures result.Some? ==>
                var existing := FindByPayment(old(invoices), payment);
                if existing.Some? then result == existing && View() == old(View())
                else
                  && result.value.sequence == |IssuedIn(old(invoices), currentYear)| + 1
                  && result.value.year == currentYear && result.value.payment == payment
                  && result.value.amountPaise == amountPaise
                  && View() == Append(old(View()), result.value)
    {
      var split := CalculateGstSplit(amountPaise);
      if split.None? {
        return None;
      }
      if payment.Some? {
        var existing := FindByPayment(invoices, payment);
        if existing.Some? {
          return existing;
        }
      }
      assert IssuedIn(invoices, currentYear) == UpTo(Last(View(), currentYear));
      var sequence := if currentYear in lastSequence then lastSequence[currentYear] + 1 else 1;
      var invoice := Invoice(payment, currentYear, sequence, amountPaise, split.value);
      AppendOk(View(), invoice);
      lastSequence := lastSequence[currentYear := sequence];
      invoices := invoices + [invoice];
      result := Some(invoice);
    }
  }
}
