# Rueda Fácil billing, modelled in Dafny

Rueda Fácil is a one-session command-line billing tool for a tire shop. It
asks how many customers (clientes) will be served, asks each customer how
many tires (llantas) they buy, prices the purchase with a three-tier unit
price, prints an invoice (factura) per customer, and finally prints a sales
summary (resumen de ventas): customers served, tires sold, revenue and the
average revenue per customer.

This project models that logic as pure Dafny over unbounded integers (the
source uses Python integers, which do not wrap):

- `pricing.dfy` (`Pricing`): the tier schedule, 35000 pesos per tire below
  5 tires, 40000 from 5 to 10 inclusive, 45000 above 10.
- `input.dfy` (`Input`): the validated-input retry loop. Standard input is a
  sequence of lines, each either an integer or something the integer parser
  rejects. The loop skips every line that is not a positive integer.
- `sales.dfy` (`Sales`): the immutable per-customer record
  {customer, quantity, unit price, total} and its invariant.
- `session.dfy` (`Session`): the day's records for customers 1..N in order,
  both as a reference sequence and as the customer loop that appends them.
- `summary.dfy` (`Summary`): the two sums, the rounded-down average, and
  their bounds and worked examples.
- `billing.dfy` (`Billing`): one customer's transaction, a reference
  definition of the quantities the customer loop reads from the input, the
  loop itself, and the whole run over a given input.
- `wrappers.dfy` (`Wrappers`): `Option`, used where the input can run out.

## Model

| member | source | states |
|---|---|---|
| Pricing.UnitPrice | rueda_facil.py:9-24 | the price is 35000 exactly when the quantity is below 5, 40000 exactly when it is from 5 to 10 with both ends included, 45000 exactly when it is above 10; it is always one of those three tier prices |
| Pricing.UnitPriceMonotone | rueda_facil.py:19-24 | a larger quantity never gets a lower unit price |
| Pricing.UnitPriceChangesOnlyAtBreakpoints | rueda_facil.py:19-24 | the unit price of q and q + 1 differ exactly when q is 4 or 10 |
| Pricing.UnitPriceBoundaries | rueda_facil.py:19-24 | 4 costs 35000, 5 and 10 cost 40000, 11 costs 45000 per tire |
| Input.ReadPositive | rueda_facil.py:39-47 | the retry loop returns the first line that is a positive integer, with every earlier line rejected; it returns nothing exactly when no line of the input is acceptable |
| Input.ReadPositiveSkipsRejected | rueda_facil.py:39-47 | rejected lines in front of the input change only how many lines are read, never the value accepted |
| Sales.MakeSale | rueda_facil.py:50-67 | the record keeps the customer number and the positive quantity, carries the schedule's unit price, and its total is exactly quantity times unit price, between 35000 and 45000 times the quantity |
| Sales.WellFormedIsMakeSale | rueda_facil.py:62-67 | any record meeting the record invariant is the one built from its customer number and quantity |
| Sales.TotalStrictlyIncreasing | rueda_facil.py:50-51 | buying more tires always costs strictly more in total, even across a tier boundary |
| Billing.ProcessCustomer | rueda_facil.py:26-67 | a customer's record is the one priced from the value the retry loop accepts, for that customer number, and is well formed; no record is built exactly when the input holds no acceptable line |
| Session.SessionOf | rueda_facil.py:109-114 | the session for N accepted quantities holds N well-formed records numbered 1..N in order, with those quantities in that order |
| Session.BuildSession | rueda_facil.py:109-114 | the customer loop with its quantities already read (the input-free form of Billing.ServeCustomers) produces, at position i, the record of customer i + 1 for the i-th quantity, which is exactly the session SessionOf that ServeCustomers returns for the quantities it reads |
| Session.ValidSessionIsSessionOf | rueda_facil.py:112-114 | records are numbered 1..N without gaps and well formed exactly when they are the session built from their own quantities |
| Billing.ReadQuantities | rueda_facil.py:112-118 | the reference read of N customers yields N positive quantities, one per customer in order: each read is the quantity retry loop started right after the previous customer's accepted line, with one acknowledgement line skipped between consecutive customers |
| Billing.DayRead | rueda_facil.py:98-118 | the whole day's input is read as the count prompt's accepted N followed by N customer quantities taken from the lines after it; when it succeeds there are N ≥ 1 positive quantities |
| Billing.ReadQuantitiesOfTranscript | rueda_facil.py:112-118 | on an input holding one positive quantity per customer with one acknowledgement line of any content between them, the customer loop reads exactly those quantities |
| Input.ReadCount | rueda_facil.py:98-104 | a positive customer count on the first line is accepted at once, consuming one line |
| Billing.CleanInputCompletes | rueda_facil.py:98-118 | an input of the count N followed by N positive quantities, one acknowledgement line between consecutive customers, is read completely: the count is N and the loop reads exactly those quantities, so the run completes with their session |
| Billing.RetriedInputExample | rueda_facil.py:39-47 | with the retry loop used by both prompts, the count prompt (rueda_facil.py:98-106) skips a word and 0 before accepting 2; the first quantity prompt skips -3 before accepting 3; after the acknowledgement line the second quantity prompt skips a word before accepting 10: the input is read as 2 customers buying 3 and 10 tires |
| Billing.ServeCustomer | rueda_facil.py:112-118 | one pass of the loop bills the customer for the first accepted quantity from the current line, and continues after it (and after the acknowledgement line when customers remain); it fails exactly when no quantity is accepted, or customers remain and the input ends before the acknowledgement line; a failure means the reference read of the remaining customers fails |
| Billing.ServeCustomers | rueda_facil.py:112-118 | the customer loop completes exactly when the reference read of N customers succeeds, and then yields the session of the quantities read, in input order |
| Billing.RunDay | rueda_facil.py:89-121 | a run completes exactly when the count prompt accepts some N and the customer loop can read N quantities from the rest of the input; the records are then the session of those quantities in input order, customers numbered 1..N, and the summary is the one computed from them |
| Summary.TotalTires | rueda_facil.py:80 | the tires sold: the sum of the records' quantities |
| Summary.TotalRevenue | rueda_facil.py:81 | the revenue: the sum of the records' totals |
| Summary.Summarize | rueda_facil.py:80-86 | the summary counts the records, sums their quantities and their totals, and its average times the count is at most the revenue and less than the revenue plus the count |
| Summary.ComputeSummary | rueda_facil.py:80-86 | a single pass accumulating both sums, then one division, gives the same figures as the two separate sums and the division |
| Summary.TotalsOfAppend | rueda_facil.py:80-81 | tires sold and revenue of two lists of records joined together are the sums of each list's figures |
| Summary.TotalsOfSingle | rueda_facil.py:80-81 | a single record contributes exactly its quantity and its total |
| Summary.TiresAtLeastClients | rueda_facil.py:80 | a valid session sells at least one tire per customer |
| Summary.RevenueBounds | rueda_facil.py:80-81 | revenue lies between 35000 and 45000 times the tires sold |
| Summary.RevenueWithinTotals | rueda_facil.py:81 | if every customer total lies in a range, revenue lies in that range times the number of customers |
| Summary.AverageWithinTotals | rueda_facil.py:86 | the rounded-down average lies within any bounds that hold of every customer total |
| Summary.AverageAtLeastSmallOrderPrice | rueda_facil.py:86 | in a valid session the average per customer is at least 35000 |
| Summary.SingleCustomerAverage | rueda_facil.py:86 | with one customer the average equals that customer's total |
| Summary.TwoCustomerExample | rueda_facil.py:80-86 | quantities 3 and 10 give totals 105000 and 400000 and a summary of 2 customers, 13 tires, 505000 pesos, 252500 on average |
| Summary.OneCustomerExample | rueda_facil.py:80-86 | one customer buying 15 pays 45000 per tire and the summary shows 1 customer, 15 tires, 675000 pesos, 675000 on average |

## Left out

- Console output: the banners, the invoice block, the summary block and the
  closing message are printing only. The model computes the values they show.
- Thousands-separator formatting of prices and totals is presentation only.
- String-to-integer parsing: an input line is modelled already classified,
  as an integer or as a line the parser rejects. Both rejected kinds take the
  same retry path, so only their error messages differ, and those are printed.
- End of input: the source would stop with an uncaught end-of-file error.
  The model returns `None` instead.
- The acknowledgement line read between customers: its content is discarded,
  so the model only counts it as one consumed line.
- The count prompt and the quantity prompt run the same retry loop with
  different messages. Both are modelled by `Input.ReadPositive`.
- Pricing.UnitPrice is defined for every integer, as in the source, although
  only positive quantities ever reach it.
