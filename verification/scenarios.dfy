/**
 Worked examples of the whole pipeline on small record sets: load, totals,
 due date, customer resolution and file name.
 */
module Scenarios {
  import opened Wrappers
  import opened Sums
  import opened Billing
  import opened Db
  import opened FileNames

  // The next seven lemmas are literal-string steps of the file names in
  // AcmeInvoice and SharedFileName; kept apart, each stays cheap to verify.

  /** "2024-03-01" and "20240301" as concatenations of year, month and day. */
  lemma IsoDateText()
    ensures "2024-03-01" == "2024" + "-" + "03" + "-" + "01"
    ensures "20240301" == "2024" + "03" + "01"
  {
  }

  /** The date text of the example loses its two hyphens. */
  lemma IsoDateDigits()
    ensures StripHyphens("2024-03-01") == "20240301"
  {
    IsoDateText();
    DateWithoutHyphens("2024", "03", "01");
  }

  /** The example names with their spaces turned into underscores. */
  lemma AcmeUnderscored()
    ensures SpacesToUnderscores("Acme Inc") == "Acme_Inc"
    ensures SpacesToUnderscores("Acme_Inc") == "Acme_Inc"
  {
    AcmeSpaceReplaced();
    AcmeUnderscoreKept();
  }

  /** The space of "Acme Inc" becomes an underscore. */
  lemma AcmeSpaceReplaced()
    ensures SpacesToUnderscores("Acme Inc") == "Acme_Inc"
  {
  }

  /** "Acme_Inc" has no space, so it stays as it is. */
  lemma AcmeUnderscoreKept()
    ensures SpacesToUnderscores("Acme_Inc") == "Acme_Inc"
  {
  }

  /** The pieces of the example file name joined. */
  lemma AcmeFileNameText()
    ensures "20240301" + "_" + "Acme_Inc" + ".tex" == "20240301_Acme_Inc.tex"
  {
  }

  /** The file name of the example invoice, built from its parts. */
  lemma AcmeFileName()
    ensures StripHyphens("2024-03-01") + "_" + SpacesToUnderscores("Acme Inc") + ".tex"
            == "20240301_Acme_Inc.tex"
  {
    IsoDateDigits();
    AcmeUnderscored();
    AcmeFileNameText();
  }

  /** One customer "c1" (Acme Inc) and one invoice for two widgets at 100:
      net 200, VAT 50 at the default 25 percent, gross 250, due 30 days after
      issue, addressed to "Acme Inc" and written to "20240301_Acme_Inc.tex". */
  lemma AcmeInvoice(date: int)
    ensures var db := Load(RecordSet(
                [CustomerRecord("c1", ["Acme Inc", "123 Main St"])],
                [InvoiceRecord("c1", date, date, [LineRecord("Widget", 2, 100)])]));
            && |db.invoices| == 1
            && Total(db.invoices[0]) == 200
            && VatTotal(db.invoices[0]) == 50
            && TotalWithVat(db.invoices[0]) == 250
            && DueDate(db.invoices[0]) == date + 30
            && db.invoices[0].customer.Some?
            && Name(db.invoices[0].customer.value) == Some("Acme Inc")
            && FileName(db.invoices[0], "2024-03-01") == Some("20240301_Acme_Inc.tex")
  {
    var data := RecordSet(
      [CustomerRecord("c1", ["Acme Inc", "123 Main St"])],
      [InvoiceRecord("c1", date, date, [LineRecord("Widget", 2, 100)])]);
    var inv := Load(data).invoices[0];
    var line := InvoiceLine("Widget", 2, 100);
    assert inv.customer == Some(Customer("c1", ["Acme Inc", "123 Main St"]));
    assert inv.content == [line];
    assert [line][1..] == [];
    assert Sum(inv.content, Amount) == Amount(line) + Sum([], Amount) == 200;
    assert Sum(inv.content, VatAmount) == VatAmount(line) + Sum([], VatAmount) == 50;
    AcmeFileName();
  }

  /** With customers "A" and "B", an invoice for "B" gets the "B" customer and
      an invoice for "Z" gets none, so it has no file name. */
  lemma ResolveByKey(date: int)
    ensures var db := Load(RecordSet(
                [CustomerRecord("A", ["Alpha"]), CustomerRecord("B", ["Beta"])],
                [InvoiceRecord("B", date, date, []), InvoiceRecord("Z", date, date, [])]));
            && db.invoices[0].customer == Some(Customer("B", ["Beta"]))
            && db.invoices[1].customer == None
            && FileName(db.invoices[1], "2024-03-01") == None
  {
  }

  /** Distinct customers can share a file name, so one invoice's file replaces
      another's: "Acme Inc" and "Acme_Inc" billed on the same date. */
  lemma SharedFileName(date: int)
    ensures FileName(Invoice(1, date, date, Some(Customer("a", ["Acme Inc"])), Currency), "2024-03-01")
            == FileName(Invoice(2, date, date, Some(Customer("b", ["Acme_Inc"])), Currency), "2024-03-01")
  {
    AcmeUnderscored();
  }
}
