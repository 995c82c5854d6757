# Invoice generator: the invoice model and its load

A Dafny model of `sync.rb`, the one-file invoice generator. The file reads a
record set of customers and invoices, builds `Customer`, `Invoice` and
`InvoiceLine` objects, and writes one document per invoice. This project models
the part with real semantics:

- the value records and their defaults: unit `"tim"`, VAT 25 percent, due period 30 days, empty address and content;
- the derived amounts: line `amount` and `vat_amount` with floor division, and the invoice's `total`, `vat_total`, `total_with_vat` and `due_date`;
- `DB#load!` once the YAML is parsed: customers first, in order; then invoices with ids 1..n, each resolved to the first customer with its key, each with currency `"kr"`;
- `find_customer_by_key`;
- the output file name `<date without hyphens>_<name with underscores>.tex`.

Modules:

- `Wrappers` (`wrappers.dfy`): `Option`, standing for Ruby's `nil`-or-value.
- `Sums` (`sums.dfy`): Ruby's `inject(0) { |sum, x| sum + f(x) }` as a left fold `Inject`. Also an independent reference sum `Sum`. `Inject`'s contract relates the two, and lemmas give the algebra of `Sum`.
- `Billing` (`billing.dfy`): `Customer`, `InvoiceLine` and `Invoice`, plus the derived values.
- `Db` (`db.dfy`): the parsed record set, `FindCustomerByKey`, and the load `Load`.
- `FileNames` (`filenames.dfy`): the file name of an invoice.
- `Scenarios` (`scenarios.dfy`): worked examples on small record sets.

Modelling choices:

- Ruby's keyword defaults are Dafny constructor default values. `InvoiceLine(item, quantity, unitPrice)` therefore gets unit `"tim"` and rate 25, just as `InvoiceLine.new(item:, quantity:, unit_price:)` does.
- Amounts are unbounded integers, like Ruby's. Ruby's integer `/` rounds toward negative infinity. For the divisor 100 this matches Dafny's `/`, and `VatAmount` states the floor property in its contract.
- A date is a day number, so `date + due_period_days` is integer addition.
- The date's text (`Date#to_s`) is an input to the file-name function.
- Ruby raises `NoMethodError` when a customer is missing or has no name. There `FileName` returns `None`.
- The code defines no error for malformed input. This model's record set is typed, so a missing field cannot be written down. See "Left out" for what Ruby does with one.

## Model

| member | source | states |
|---|---|---|
| `Billing.Name` | sync.rb:10-14 | a customer's name is absent exactly when its address is empty, and otherwise is the first address line |
| `Billing.VatAmount` | sync.rb:66-68 | line VAT is amount times rate divided by 100 rounded down: 100·vat ≤ amount·rate < 100·vat + 100, also for negative amounts |
| `Billing.DefaultLine` | sync.rb:54-68 | a line built from item, quantity and price alone has unit "tim" and rate 25; its amount is price·quantity and its VAT is price·quantity·25/100 |
| `Billing.DefaultDueDate` | sync.rb:20-32 | an invoice built without a due period falls due 30 days after its date |
| `Billing.SplitLineNet` | sync.rb:62-64 | billing a quantity a + b on one line, or as a and b on two lines with the same price, gives the same net total |
| `Billing.SplitLineVat` | sync.rb:66-68 | splitting a line's quantity in two never raises its VAT, and lowers it by at most one unit |
| `Billing.SplitLineVatLoss` | sync.rb:66-68 | the loss happens: 2 units at price 2 carry VAT 1, while two lines of 1 unit at price 2 carry VAT 0 |
| `Billing.Total` | sync.rb:34-36 | the left fold of line amounts from 0 equals the sum of the line amounts over the content |
| `Billing.VatTotal` | sync.rb:38-40 | the left fold of line VAT amounts from 0 equals the sum of per-line VAT over the content |
| `Billing.TotalWithVat` | sync.rb:42-44 | total plus VAT total equals the sum, over the lines, of each line's amount plus its VAT |
| `Billing.EmptyInvoiceTotals` | sync.rb:34-44 | an invoice without lines has net, VAT and gross totals of 0 |
| `Billing.TotalsConcat` | sync.rb:34-44 | net, VAT and gross totals are additive when the content is split into a front and a back part |
| `Billing.VatShortfall` | sync.rb:38-40 | over lines that share one rate p, p·Σamount − 100·Σvat lies between 0 and 99 per line |
| `Billing.UniformRateVatTotal` | sync.rb:38-40 | an invoice's VAT total is never above p percent of its net total at a single rate p, and falls short by less than one unit per line |
| `Sums.Inject` | sync.rb:35 | `inject(acc)` with `+` equals the starting accumulator plus the reference sum, for every sequence and summand |
| `Sums.SumConcat` | sync.rb:35 | the reference sum is additive over concatenation |
| `Sums.SumPointwise` | sync.rb:42-44 | summing a pointwise sum of two summands equals adding the two sums |
| `Db.FindCustomerByKey` | sync.rb:114-116 | the result is absent exactly when no customer has the key; otherwise it is a customer of the list with that key, and no earlier customer has the key |
| `Db.FindCustomerByKeyConcat` | sync.rb:114-116 | customers appended after a match never change the result; an earlier customer shadows later ones with the same key |
| `Db.BuildCustomers` | sync.rb:87-89 | one customer per customer record, in record order, with the record's key and address lines |
| `Db.BuildLines` | sync.rb:92-98 | one line per line record, in record order, with the record's item, quantity and price, unit "tim" and rate 25 |
| `Db.BuildInvoices` | sync.rb:91-107 | one invoice per record, in order; the i-th from 0 has id i + 1, the record's dates, the first customer with its key, currency "kr", lines built from its content and a 30-day due period |
| `Db.Load` | sync.rb:87-107 | the loaded counts equal the input counts; customer i has record i's key and all its address lines; invoice i has id i + 1, currency "kr", the record's dates, and due date 30 days after issue; its content keeps length and order with unit "tim" and rate 25; its customer is the first loaded customer with its key, and is absent exactly when no customer record has that key |
| `Db.LoadIds` | sync.rb:91-100 | loaded ids strictly increase, and an integer is an id exactly when it lies in 1 through the invoice count |
| `Db.LoadedTotals` | sync.rb:92-98 | a loaded invoice's net total is Σ price·quantity over its input lines, its VAT total is Σ of per-line VAT at 25 percent, and its gross total is their sum |
| `FileNames.StripHyphens` | sync.rb:128 | the result holds no '-', is no longer than the input, uses only the input's characters, and is the input itself when it has no '-'; these clauses alone do not fix the result, `StripHyphensConcat` and `StripHyphensCounts` do |
| `FileNames.StripHyphensCounts` | sync.rb:128 | deleting hyphens keeps every other character exactly as often as the input has it |
| `FileNames.SpacesToUnderscores` | sync.rb:128 | the result has the input's length and no space; each space becomes '_' and every other character stays in place |
| `FileNames.StripHyphensConcat` | sync.rb:128 | deleting hyphens distributes over concatenation |
| `FileNames.SpacesToUnderscoresConcat` | sync.rb:128 | replacing spaces distributes over concatenation |
| `FileNames.DateWithoutHyphens` | sync.rb:128 | an ISO date YYYY-MM-DD becomes YYYYMMDD |
| `FileNames.FileName` | sync.rb:128 | a file name exists exactly when the invoice has a customer whose address is not empty, and it ends in ".tex" |
| `FileNames.FileNameParts` | sync.rb:128 | a file name exists only for a customer with a name, and is d + "_" + n + ".tex", where d is the date text with its hyphens deleted (no '-', no longer than the text) and n is the name with spaces turned into '_' (no space, same length) |
| `Scenarios.AcmeInvoice` | sync.rb:87-128 | customer c1 "Acme Inc" billed for 2 widgets at 100 gives total 200, VAT 50, gross 250 and a due date 30 days on; the name is "Acme Inc" and the file is "20240301_Acme_Inc.tex" |
| `Scenarios.ResolveByKey` | sync.rb:101 | with customers A and B, key "B" resolves to B; key "Z" resolves to nothing, and that invoice has no file name |
| `Scenarios.SharedFileName` | sync.rb:128-129 | customers named "Acme Inc" and "Acme_Inc" get the same file name on the same date, so one file overwrites the other |

## Left out

- Reading the YAML file (`YAML.load_file` with `Date` permitted, sync.rb:83-86) is file I/O through a foreign parser. The input is the already-parsed `RecordSet`.
- `DB#initialize` keeps the path and the raw `data` hash (sync.rb:75-80). These only serve the file read.
- ERB template construction, `get_binding` and rendering (sync.rb:46-48, 122-125, 130) use runtime reflection and a foreign template engine.
- Opening, writing and closing the output files (sync.rb:119-132) is filesystem I/O. Only the file-name expression is modelled.
- Calendar semantics of Ruby `Date` are not modelled: month and year rollover, and `Date#to_s`. Dates are day numbers, and the date's text is a parameter of `FileName`.
- Floating-point quantities and prices are out of scope. YAML can produce them, but amounts here are integers.
- Malformed records are not modelled, because the typed record set cannot express a missing field. In Ruby the outcome depends on the field:
  - A missing `customers`, `invoices` or `content` makes `load!` raise at once (sync.rb:87, 91, 92).
  - A missing `address_lines` passes `nil` as the address, and `nil.first` raises at once in `Customer#initialize` (sync.rb:13).
  - A missing `invoice_date` raises nothing at sync.rb:128. `nil.to_s` is `""`, so the file is named `_<name>.tex`.
  - A missing `quantity` or `unit_price` raises only when `amount` is computed (sync.rb:63), that is during rendering.
  - A missing `item` or `delivered_on` raises nothing in `sync.rb`; the field is simply `nil`.
  - A missing `key` or `customer_key` raises nothing. `find_customer_by_key` compares `nil == nil` (sync.rb:115), so an invoice without `customer_key` silently resolves to the first customer without `key`. Keys here are always strings, so this match is not modelled.
- `FileName` returns `None` for one invoice, where Ruby raises `NoMethodError` at sync.rb:128. Nothing rescues that error, so it ends the loop at sync.rb:127-132, and no later invoice gets a file either. The model does not carry that on to the other invoices.
- `Load` models one `load!` on a newly constructed `DB`. Ruby's `load!` appends to the arrays that `DB#initialize` sets to `[]` (sync.rb:76-78, 88, 99). A second `load!` on the same `DB` would duplicate every customer and invoice, and the second batch of ids would restart at 1. Its lookups would also find the first load's customers first. None of this is modelled.
- `Customer#name` is stored when Ruby builds the customer. Here it is computed from the address. Both are the same because the address never changes.
