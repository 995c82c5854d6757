/**
 The repository of sync.rb (class `DB`): turns an already-parsed record set
 into customers and invoices, resolving each invoice's customer by key.

 The record set stands for what the YAML file holds after parsing:
 `customers` with `key` and `address_lines`, `invoices` with `customer_key`,
 `invoice_date`, `delivered_on` and `content` lines of `item`, `quantity`
 and `unit_price`.
 */
module Db {
  import opened Wrappers
  import opened Sums
  import opened Billing

  /** Currency label set on every loaded invoice. */
  const Currency: string := "kr"

  datatype CustomerRecord = CustomerRecord(key: string, addressLines: seq<string>)
  datatype LineRecord = LineRecord(item: string, quantity: int, unitPrice: int)
  datatype InvoiceRecord = InvoiceRecord(
    customerKey: string,
    invoiceDate: int,
    deliveredOn: int,
    content: seq<LineRecord>)
  datatype RecordSet = RecordSet(customers: seq<CustomerRecord>, invoices: seq<InvoiceRecord>)

  /** The loaded object graph. */
  datatype Database = Database(customers: seq<Customer>, invoices: seq<Invoice>)

  /** Search of `customers` from position `from` on for the first customer with `key`. */
  function FindFrom(customers: seq<Customer>, key: string, from: nat): (r: Option<Customer>)
    requires from <= |customers|
    ensures r.None? <==> forall i :: from <= i < |customers| ==> customers[i].key != key
    ensures r.Some? ==> exists i :: from <= i < |customers| && customers[i] == r.value
                                    && r.value.key == key
                                    && forall j :: from <= j < i ==> customers[j].key != key
    decreases |customers| - from
  {
    if from == |customers| then None
    else if customers[from].key == key then Some(customers[from])
    else FindFrom(customers, key, from + 1)
  }

  /** First customer whose key equals `key`, or `None` when no customer has it. */
  function FindCustomerByKey(customers: seq<Customer>, key: string): (r: Option<Customer>)
    ensures r.None? <==> forall i :: 0 <= i < |customers| ==> customers[i].key != key
    ensures r.Some? ==> exists i :: 0 <= i < |customers| && customers[i] == r.value
                                    && r.value.key == key
                                    && forall j :: 0 <= j < i ==> customers[j].key != key
  {
    FindFrom(customers, key, 0)
  }

  /** Searching past a prefix is searching the rest on its own. */
  lemma {:induction false} FindFromShift(front: seq<Customer>, back: seq<Customer>, key: string, k: nat)
    requires k <= |back|
    ensures FindFrom(front + back, key, |front| + k) == FindFrom(back, key, k)
    decreases |back| - k
  {
    if k < |back| {
      assert (front + back)[|front| + k] == back[k];
      FindFromShift(front, back, key, k + 1);
    }
  }

  lemma {:induction false} FindFromConcat(front: seq<Customer>, back: seq<Customer>, key: string, from: nat)
    requires from <= |front|
    ensures FindFrom(front + back, key, from)
            == (if FindFrom(front, key, from).Some? then FindFrom(front, key, from)
                else FindFrom(back, key, 0))
    decreases |front| - from
  {
    if from < |front| {
      assert (front + back)[from] == front[from];
      FindFromConcat(front, back, key, from + 1);
    } else {
      FindFromShift(front, back, key, 0);
    }
  }

  /** Customers appended to the list never change a key that already resolves:
      an earlier customer shadows later ones with the same key. */
  lemma FindCustomerByKeyConcat(front: seq<Customer>, back: seq<Customer>, key: string)
    ensures FindCustomerByKey(front + back, key)
            == (if FindCustomerByKey(front, key).Some? then FindCustomerByKey(front, key)
                else FindCustomerByKey(back, key))
  {
    FindFromConcat(front, back, key, 0);
  }

  function CustomerOf(r: CustomerRecord): (c: Customer)
  {
    Customer(r.key, r.addressLines)
  }

  /** One customer per record, appended in record order. */
  function BuildCustomers(records: seq<CustomerRecord>): (cs: seq<Customer>)
    ensures |cs| == |records|
    ensures forall i :: 0 <= i < |records| ==>
              cs[i].key == records[i].key && cs[i].address == records[i].addressLines
    decreases |records|
  {
    if |records| == 0 then []
    else BuildCustomers(records[..|records| - 1]) + [CustomerOf(records[|records| - 1])]
  }

  /** One invoice line per record, built without unit or rate, in record order. */
  function BuildLines(records: seq<LineRecord>): (ls: seq<InvoiceLine>)
    ensures |ls| == |records|
    ensures forall i :: 0 <= i < |records| ==>
              && ls[i].item == records[i].item
              && ls[i].quantity == records[i].quantity
              && ls[i].unitPrice == records[i].unitPrice
              && ls[i].unit == DefaultUnit
              && ls[i].vatPercent == DefaultVatPercent
    decreases |records|
  {
    if |records| == 0 then []
    else
      var r := records[0];
      [InvoiceLine(r.item, r.quantity, r.unitPrice)] + BuildLines(records[1..])
  }

  function InvoiceOf(customers: seq<Customer>, r: InvoiceRecord, id: int): (inv: Invoice)
  {
    Invoice(id, r.invoiceDate, r.deliveredOn, FindCustomerByKey(customers, r.customerKey),
            Currency, BuildLines(r.content))
  }

  /** One invoice per record, appended in record order, the i-th (from 0) with id i + 1. */
  function BuildInvoices(customers: seq<Customer>, records: seq<InvoiceRecord>): (invs: seq<Invoice>)
    ensures |invs| == |records|
    ensures forall i :: 0 <= i < |records| ==>
              && invs[i].id == i + 1
              && invs[i].date == records[i].invoiceDate
              && invs[i].deliveredOn == records[i].deliveredOn
              && invs[i].customer == FindCustomerByKey(customers, records[i].customerKey)
              && invs[i].currency == Currency
              && invs[i].content == BuildLines(records[i].content)
              && invs[i].duePeriodDays == DefaultDuePeriodDays
    decreases |records|
  {
    if |records| == 0 then []
    else
      var n := |records| - 1;
      BuildInvoices(customers, records[..n]) + [InvoiceOf(customers, records[n], n + 1)]
  }

  /** The load: all customers first, then the invoices resolved against all of them. */
  function Load(data: RecordSet): (db: Database)
    ensures |db.customers| == |data.customers|
    ensures forall i :: 0 <= i < |data.customers| ==>
              db.customers[i] == Customer(data.customers[i].key, data.customers[i].addressLines)
    ensures |db.invoices| == |data.invoices|
    ensures forall i :: 0 <= i < |db.invoices| ==>
              && db.invoices[i].id == i + 1
              && db.invoices[i].currency == "kr"
              && db.invoices[i].date == data.invoices[i].invoiceDate
              && db.invoices[i].deliveredOn == data.invoices[i].deliveredOn
              && DueDate(db.invoices[i]) == data.invoices[i].invoiceDate + 30
              && |db.invoices[i].content| == |data.invoices[i].content|
              && db.invoices[i].customer == FindCustomerByKey(db.customers, data.invoices[i].customerKey)
    ensures forall i, j :: 0 <= i < |db.invoices| && 0 <= j < |db.invoices[i].content| ==>
              && db.invoices[i].content[j].item == data.invoices[i].content[j].item
              && db.invoices[i].content[j].quantity == data.invoices[i].content[j].quantity
              && db.invoices[i].content[j].unitPrice == data.invoices[i].content[j].unitPrice
              && db.invoices[i].content[j].unit == "tim"
              && db.invoices[i].content[j].vatPercent == 25
    ensures forall i :: 0 <= i < |db.invoices| ==>
              (db.invoices[i].customer.None?
               <==> forall k :: 0 <= k < |data.customers| ==>
                      data.customers[k].key != data.invoices[i].customerKey)
    ensures forall i :: 0 <= i < |db.invoices| && db.invoices[i].customer.Some? ==>
              db.invoices[i].customer.value in db.customers
              && db.invoices[i].customer.value.key == data.invoices[i].customerKey
  {
    var customers := BuildCustomers(data.customers);
    Database(customers, BuildInvoices(customers, data.invoices))
  }

  /** The ids carried by a sequence of invoices. */
  function Ids(invs: seq<Invoice>): (ids: set<int>)
  {
    set inv | inv in invs :: inv.id
  }

  /** Loaded invoice ids are strictly increasing and are exactly 1 through the invoice count. */
  lemma LoadIds(data: RecordSet)
    ensures forall i, j :: 0 <= i < j < |Load(data).invoices| ==>
              Load(data).invoices[i].id < Load(data).invoices[j].id
    ensures forall n: int :: n in Ids(Load(data).invoices) <==> 1 <= n <= |data.invoices|
  {
    var invs := Load(data).invoices;
    forall n: int | 1 <= n <= |data.invoices|
      ensures n in Ids(invs)
    {
      assert invs[n - 1].id == n;
    }
  }

  /** Net amount of a line record: unit price times quantity. */
  function RecordAmount(r: LineRecord): (a: int)
  {
    r.unitPrice * r.quantity
  }

  /** VAT on a line record at the default rate, rounded down. */
  function RecordVat(r: LineRecord): (v: int)
  {
    r.unitPrice * r.quantity * DefaultVatPercent / 100
  }

  lemma {:induction false} BuildLinesSums(records: seq<LineRecord>)
    ensures Sum(BuildLines(records), Amount) == Sum(records, RecordAmount)
    ensures Sum(BuildLines(records), VatAmount) == Sum(records, RecordVat)
    decreases |records|
  {
    if |records| > 0 {
      BuildLinesSums(records[1..]);
    }
  }

  /** A loaded invoice totals its input lines: net is the sum of price times quantity,
      VAT the sum of per-line VAT at 25 percent, gross the two together. */
  lemma LoadedTotals(data: RecordSet, i: nat)
    requires i < |data.invoices|
    ensures Total(Load(data).invoices[i]) == Sum(data.invoices[i].content, RecordAmount)
    ensures VatTotal(Load(data).invoices[i]) == Sum(data.invoices[i].content, RecordVat)
    ensures TotalWithVat(Load(data).invoices[i])
            == Sum(data.invoices[i].content, RecordAmount) + Sum(data.invoices[i].content, RecordVat)
  {
    BuildLinesSums(data.invoices[i].content);
  }
}
