/**
 The invoice data model of sync.rb: customers, invoice lines and invoices,
 with the amounts and dates derived from them.

 Ruby's keyword defaults become constructor default values, so
 `InvoiceLine(item, quantity, unitPrice)` gets the default unit and VAT rate
 exactly as `InvoiceLine.new(item:, quantity:, unit_price:)` does.
 Dates are day numbers, so adding days is integer addition.
 */
module Billing {
  import opened Wrappers
  import opened Sums

  /** Unit label of a line built without one. */
  const DefaultUnit: string := "tim"
  /** VAT rate, in percent, of a line built without one. */
  const DefaultVatPercent: int := 25
  /** Days from issue to due date of an invoice built without a due period. */
  const DefaultDuePeriodDays: int := 30

  /** A customer: lookup key and address lines, first line first. */
  datatype Customer = Customer(key: string, address: seq<string> := [])

  /** A billable item. Quantities and prices are whole numbers here. */
  datatype InvoiceLine = InvoiceLine(
    item: string,
    quantity: int,
    unitPrice: int,
    unit: string := DefaultUnit,
    vatPercent: int := DefaultVatPercent)

  /** An invoice. `customer` is `None` when its key resolved to nothing. */
  datatype Invoice = Invoice(
    id: int,
    date: int,
    deliveredOn: int,
    customer: Option<Customer>,
    currency: string,
    content: seq<InvoiceLine> := [],
    duePeriodDays: int := DefaultDuePeriodDays)

  /** The customer's name: its first address line, absent for an empty address. */
  function Name(c: Customer): (r: Option<string>)
    ensures r.None? <==> |c.address| == 0
    ensures r.Some? ==> r.value == c.address[0]
  {
    if |c.address| == 0 then None else Some(c.address[0])
  }

  /** Net amount of a line: unit price times quantity. */
  function Amount(l: InvoiceLine): (r: int)
  {
    l.unitPrice * l.quantity
  }

  /** VAT on a line: the net amount times the rate, divided by 100 and rounded down. */
  function VatAmount(l: InvoiceLine): (r: int)
    ensures 100 * r <= Amount(l) * l.vatPercent < 100 * r + 100
  {
    Amount(l) * l.vatPercent / 100
  }

  /** Net plus VAT of a single line. */
  function GrossAmount(l: InvoiceLine): (r: int)
  {
    Amount(l) + VatAmount(l)
  }

  /** Due date: the due period, in days, after the issue date. */
  function DueDate(inv: Invoice): (r: int)
  {
    inv.date + inv.duePeriodDays
  }

  /** Net total: the line amounts accumulated from 0, in content order. */
  function Total(inv: Invoice): (r: int)
    ensures r == Sum(inv.content, Amount)
  {
    Inject(0, inv.content, Amount)
  }

  /** VAT total: the per-line VAT amounts accumulated from 0, in content order. */
  function VatTotal(inv: Invoice): (r: int)
    ensures r == Sum(inv.content, VatAmount)
  {
    Inject(0, inv.content, VatAmount)
  }

  /** Gross total: net total plus VAT total, which is the sum of the lines' gross amounts. */
  function TotalWithVat(inv: Invoice): (r: int)
    ensures r == Sum(inv.content, GrossAmount)
  {
    SumPointwise(inv.content, Amount, VatAmount, GrossAmount);
    Total(inv) + VatTotal(inv)
  }

  /** A line built without unit or rate carries "tim" and 25 percent. */
  lemma DefaultLine(item: string, quantity: int, unitPrice: int)
    ensures InvoiceLine(item, quantity, unitPrice).unit == "tim"
    ensures InvoiceLine(item, quantity, unitPrice).vatPercent == 25
    ensures Amount(InvoiceLine(item, quantity, unitPrice)) == unitPrice * quantity
    ensures VatAmount(InvoiceLine(item, quantity, unitPrice)) == unitPrice * quantity * 25 / 100
  {
  }

  /** An invoice built without a due period falls due 30 days after its date. */
  lemma DefaultDueDate(id: int, date: int, deliveredOn: int, customer: Option<Customer>,
                       currency: string, content: seq<InvoiceLine>)
    ensures DueDate(Invoice(id, date, deliveredOn, customer, currency, content)) - date == 30
  {
  }

  /** Totals of an invoice without lines are zero. */
  lemma EmptyInvoiceTotals(inv: Invoice)
    requires inv.content == []
    ensures Total(inv) == 0 && VatTotal(inv) == 0 && TotalWithVat(inv) == 0
  {
  }

  /** Splitting an invoice's content splits its net, VAT and gross totals. */
  lemma TotalsConcat(inv: Invoice, front: seq<InvoiceLine>, back: seq<InvoiceLine>)
    requires inv.content == front + back
    ensures Total(inv) == Total(inv.(content := front)) + Total(inv.(content := back))
    ensures VatTotal(inv) == VatTotal(inv.(content := front)) + VatTotal(inv.(content := back))
    ensures TotalWithVat(inv) == TotalWithVat(inv.(content := front)) + TotalWithVat(inv.(content := back))
  {
    SumConcat(front, back, Amount);
    SumConcat(front, back, VatAmount);
    SumConcat(front, back, GrossAmount);
  }

  /** Per-line rounding summed up: with one rate p on every line, the sum of
      per-line VAT is at most p percent of the sum of amounts, and falls short
      of it by less than one unit per line. */
  lemma {:induction false} VatShortfall(lines: seq<InvoiceLine>, p: int)
    requires forall i :: 0 <= i < |lines| ==> lines[i].vatPercent == p
    ensures 0 <= p * Sum(lines, Amount) - 100 * Sum(lines, VatAmount) <= 99 * |lines|
    decreases |lines|
  {
    if |lines| > 0 {
      VatShortfall(lines[1..], p);
      var a, rest := Amount(lines[0]), Sum(lines[1..], Amount);
      assert p * (a + rest) == p * a + p * rest;
      assert 100 * VatAmount(lines[0]) <= a * p <= 100 * VatAmount(lines[0]) + 99;
    }
  }

  /** The invoice's VAT total is the sum of per-line VAT, not VAT on the total:
      for a single rate p it lies within one unit per line below p percent of the net total. */
  lemma UniformRateVatTotal(inv: Invoice, p: int)
    requires forall i :: 0 <= i < |inv.content| ==> inv.content[i].vatPercent == p
    ensures 0 <= p * Total(inv) - 100 * VatTotal(inv) <= 99 * |inv.content|
  {
    VatShortfall(inv.content, p);
  }

  /** The line `l` with its quantity split into `a` and `b`: the same item, price, unit and rate. */
  function SplitLine(l: InvoiceLine, a: int, b: int): (pair: seq<InvoiceLine>)
  {
    [l.(quantity := a), l.(quantity := b)]
  }

  /** Billing a quantity a + b on one line or as a and b on two lines gives the same net total. */
  lemma SplitLineNet(inv: Invoice, front: seq<InvoiceLine>, l: InvoiceLine, back: seq<InvoiceLine>, a: int, b: int)
    requires l.quantity == a + b
    requires inv.content == front + [l] + back
    ensures Total(inv) == Total(inv.(content := front + SplitLine(l, a, b) + back))
  {
    var split := SplitLine(l, a, b);
    assert Sum(split, Amount) == Sum([l], Amount) by {
      assert split[1..] == [split[1]] && [split[1]][1..] == [] && [l][1..] == [];
      assert l.unitPrice * (a + b) == l.unitPrice * a + l.unitPrice * b;
    }
    SumConcat(front + [l], back, Amount);
    SumConcat(front, [l], Amount);
    SumConcat(front + split, back, Amount);
    SumConcat(front, split, Amount);
  }

  /** VAT is rounded per line, so splitting a line can lower it: never raise it,
      and never lower it by more than one unit. */
  lemma SplitLineVat(l: InvoiceLine, a: int, b: int)
    requires l.quantity == a + b
    ensures var split := SplitLine(l, a, b);
            VatAmount(split[0]) + VatAmount(split[1]) <= VatAmount(l)
            <= VatAmount(split[0]) + VatAmount(split[1]) + 1
  {
    var split := SplitLine(l, a, b);
    assert Amount(l) * l.vatPercent
           == Amount(split[0]) * l.vatPercent + Amount(split[1]) * l.vatPercent;
  }

  /** The loss is real: 2 units at price 2 carry VAT 1, but 1 unit at price 2 twice carries VAT 0. */
  lemma SplitLineVatLoss()
    ensures VatAmount(InvoiceLine("x", 2, 2)) == 1
    ensures var split := SplitLine(InvoiceLine("x", 2, 2), 1, 1);
            VatAmount(split[0]) + VatAmount(split[1]) == 0
  {
  }
}
