# Locksum invoices: a Dafny model

This project models the invoice core of the Locksum contractor-books API:
- the totals engine `recalc_invoice_totals`;
- the invoice and invoice-line records;
- the invoice routes: create, update and delete an invoice; add and delete a line; change the status;
- the helpers and status table behind those routes;
- the `Authorization` header parser `_get_bearer_token`;
- the two derived settings, `CORS_ORIGINS` and `database_url`.

Money and rates are exact scaled integers:
- quantity, unit_price and the item price are in hundredths, like their Numeric(12, 2) columns;
- tax_rate is in ten-thousandths, like its Numeric(6, 4) column;
- tax_total and total are in hundredths;
- the stored subtotal is the exact sum of quantity × unit_price, in ten-thousandths.

`Decimal.quantize(Decimal("0.01"))` under the default decimal context is round-half-to-even. It is modelled by `FixedPoint.Quantize`.

The database session is the class `Db.Session`. Its fields are:
- the invoices table, a map keyed by id;
- the invoice_lines table, a sequence in the order the database returns rows;
- read-only maps of customers and catalog items.

Each route is a method that changes those fields. Its contract states:
- the error returned, in the order the route's guards run;
- that a failed guard leaves the tables untouched;
- the exact new tables on success;
- that a store invariant is preserved.

The invariant says:
- every line references an existing invoice, and line ids are unique;
- every status is one of draft, sent, paid and void, and every currency fits its column;
- every invoice's stored totals are the totals of its current lines.

A new row's uuid is a parameter that the caller guarantees is fresh.

Modules:
- `Common`: ids, Option, Result and the error kinds;
- `FixedPoint`: scaled integers and rounding;
- `Text`: the Python string operations used (`strip`, `lower`, `split`, `join`, `str(int)`);
- `Models`: the records and line-table queries;
- `Db`: the session;
- `InvoiceTotals`: the totals engine;
- `Invoices`: the routes;
- `Deps`: the header parser;
- `Config`: the settings.

What the code does, where a reader might expect otherwise:
- **Subtotal rounding.** The code writes the unrounded sum of quantity × unit_price back as the subtotal and rounds only tax_total and total. So total may differ from subtotal + tax_total. `InvoiceTotals.UnquantizedSubtotalExample` gives such an invoice. `InvoiceTotals.TotalsRounding` proves the bound that does hold: total − tax_total is within half a cent of the subtotal.
- **Unknown status.** A requested status outside the four is rejected with a 422 "Invalid status" error before the invoice is even looked up, not as an invalid transition.
- **Negative prices.** Nothing in the code checks that a unit price is non-negative, so the model accepts any price. `InvoiceTotals.TotalsNonNegative` states non-negativity only for non-negative prices.
- **Same-status requests.** A request for the current status returns the invoice unchanged: no recompute and no write.

## Model

| member | source | states |
|---|---|---|
| FixedPoint.Quantize | apps/api/app/services/invoice_totals.py:34-35 | the result times the quantum is nearest to the value, ties go to the even neighbour, and the sign is kept |
| FixedPoint.RoundsHalfEvenUnique | apps/api/app/services/invoice_totals.py:34-35 | at most one grid point rounds a value half to even |
| FixedPoint.QuantizeUnique | apps/api/app/services/invoice_totals.py:34-35 | any value that is nearest with ties to even equals the quantize result, so Quantize's contract fixes the result completely |
| FixedPoint.QuantizeExact | apps/api/app/services/invoice_totals.py:34-35 | a value already on the cent grid is left unchanged by quantize |
| InvoiceTotals.RecalcInvoiceTotals | apps/api/app/services/invoice_totals.py:9-44 | a missing invoice changes nothing; otherwise the loop's sum over the invoice's lines, quantized, replaces exactly the invoice's three total columns, and no other row changes |
| InvoiceTotals.TotalsRounding | apps/api/app/services/invoice_totals.py:26-39 | subtotal is the exact sum of quantity × unit_price; tax_total is subtotal × rate rounded half-even to the cent; total is subtotal + tax_total rounded half-even to the cent; total − tax_total is within half a cent of the subtotal |
| InvoiceTotals.NoLinesNoTotals | apps/api/app/services/invoice_totals.py:26-35 | an invoice with no lines gets subtotal, tax_total and total 0 |
| InvoiceTotals.SubtotalAppend | apps/api/app/services/invoice_totals.py:28-31 | the running sum splits over any split of the lines |
| InvoiceTotals.SubtotalRemove | apps/api/app/services/invoice_totals.py:28-31 | removing one line from any position lowers the subtotal by that line's amount |
| InvoiceTotals.SubtotalPermutation | apps/api/app/services/invoice_totals.py:22-31 | the subtotal does not depend on the order the query returns the lines in |
| InvoiceTotals.TotalsPermutation | apps/api/app/services/invoice_totals.py:22-35 | none of the three totals depends on line order |
| InvoiceTotals.TotalsNonNegative | apps/api/app/services/invoice_totals.py:26-35 | with positive quantities, non-negative prices and a non-negative rate, all three totals are non-negative |
| InvoiceTotals.RecomputedKeepsOtherFields | apps/api/app/services/invoice_totals.py:37-39 | recalculation writes only subtotal, tax_total and total |
| InvoiceTotals.RecomputedIdempotent | apps/api/app/services/invoice_totals.py:26-39 | recomputing again over unchanged lines changes nothing |
| InvoiceTotals.RecomputedDependsOnLinesAndRate | apps/api/app/services/invoice_totals.py:28-35 | two invoices with the same rate and the same lines in any order get the same totals |
| InvoiceTotals.TwoLineExample | apps/api/app/services/invoice_totals.py:26-35 | rate 0.0800 with lines 2 × 10.00 and 1 × 5.00 gives subtotal 25, tax 2.00 and total 27.00 |
| InvoiceTotals.UnquantizedSubtotalExample | apps/api/app/services/invoice_totals.py:31-39 | one line 0.50 × 20.01 gives subtotal 10.0050 and total 10.00, so total ≠ subtotal + tax_total |
| Models.NewInvoice | apps/api/app/models/invoice.py:15-32 | a new invoice has status "draft" and zero totals, and keeps the company, customer, number, tax rate, currency and notes it was given |
| Models.Filter | apps/api/app/services/invoice_totals.py:22-24 | a where-query keeps exactly the matching rows, never adds rows, and keeps ids unique |
| Models.LinesOf | apps/api/app/services/invoice_totals.py:22-24 | the lines of an invoice are exactly the table rows whose invoice_id matches |
| Models.WithoutLine | apps/api/app/api/routes/invoices.py:318 | deleting a line keeps exactly the rows with a different id |
| Models.WithoutInvoice | apps/api/app/models/invoice.py:40 | the delete-orphan cascade keeps exactly the lines of other invoices |
| Models.LinesOfAppend | apps/api/app/api/routes/invoices.py:284-296 | an inserted line joins the end of its own invoice's lines and no other invoice's lines |
| Models.LinesOfWithoutLine | apps/api/app/api/routes/invoices.py:314-321 | deleting a line of one invoice leaves every other invoice's lines as they were |
| Models.AppendLineWellFormed | apps/api/app/models/invoice_line.py:13-19 | inserting a fresh-id line under an existing invoice keeps the foreign key and unique ids, and changes only that invoice's lines |
| Models.RemoveLineWellFormed | apps/api/app/api/routes/invoices.py:314-319 | deleting an invoice's line keeps the table well formed, and every other invoice's lines stay as they were |
| Models.LinesOfWithoutInvoice | apps/api/app/models/invoice.py:40 | after the cascade the deleted invoice has no lines, and every other invoice keeps its lines |
| Text.Strip | apps/api/app/api/routes/invoices.py:337 | the result is no longer than the input, is trimmed, is empty exactly when the input is all whitespace, and has only characters of the input |
| Text.StripPadded | apps/api/app/api/deps.py:21 | stripping removes exactly the whitespace around a trimmed core |
| Text.StripTrimmed | apps/api/app/core/config.py:28 | a trimmed string strips to itself |
| Text.StripIdempotent | apps/api/app/core/config.py:28 | strip is idempotent |
| Text.Lower | apps/api/app/api/routes/invoices.py:345 | lower keeps the length and lowercases every upper-case ASCII letter |
| Text.LowerFixed | apps/api/app/api/routes/invoices.py:345 | a string without upper-case letters is its own lower case |
| Text.IndexOf | apps/api/app/api/deps.py:18 | find gives the first position of the character, and None exactly when it is absent |
| Text.Split | apps/api/app/core/config.py:28 | split gives at least one separator-free piece, and the pieces join back to the input |
| Text.SplitJoin | apps/api/app/core/config.py:28 | split undoes join for separator-free pieces |
| Text.NatToString | apps/api/app/core/config.py:37 | str(n) is decimal digits without a leading zero that read back as n |
| Invoices.Successors | apps/api/app/api/routes/invoices.py:350 | the allowed next statuses are among the four, and never the current status |
| Invoices.TransitionPairs | apps/api/app/api/routes/invoices.py:25-37 | the table allows exactly draft→sent, draft→void, sent→paid and sent→void |
| Invoices.TerminalIffLocked | apps/api/app/api/routes/invoices.py:35-36 | a status has no successor exactly when it is paid or void, the statuses that lock edits |
| Invoices.TransitionsClimb | apps/api/app/api/routes/invoices.py:32-37 | every transition moves strictly forward, so no status is entered twice |
| Invoices.CurrentStatus | apps/api/app/api/routes/invoices.py:345 | a stored status among the four is used unchanged, and an empty status reads as "draft" |
| Invoices.NormalizeIgnoresPadding | apps/api/app/api/routes/invoices.py:337 | whitespace around the requested status is ignored |
| Invoices.NormalizeStatusExample | apps/api/app/api/routes/invoices.py:337 | " Sent\n" requests "sent" |
| Invoices.GetInvoice | apps/api/app/api/routes/invoices.py:54-58 | gives the stored row exactly when the id exists; otherwise "Invoice not found" |
| Invoices.EnsureCompanyInvoice | apps/api/app/api/routes/invoices.py:40-42 | passes exactly when the invoice belongs to the company; otherwise the same error as a missing invoice |
| Invoices.GetCompanyInvoice | apps/api/app/api/routes/invoices.py:185-186 | succeeds exactly when the company owns the invoice, and then gives the stored row |
| Invoices.ForeignInvoiceLooksMissing | apps/api/app/api/routes/invoices.py:40-42 | another company's invoice gives the same answer as an invoice that does not exist |
| Invoices.EnsureEditable | apps/api/app/api/routes/invoices.py:45-51 | passes exactly when the status is neither paid nor void; otherwise 409 naming the status |
| Invoices.FindLine | apps/api/app/api/routes/invoices.py:62 | finds a row with that id exactly when one exists |
| Invoices.FindLineUnique | apps/api/app/api/routes/invoices.py:62 | with unique ids, the row found is the only one with that id |
| Invoices.GetLine | apps/api/app/api/routes/invoices.py:61-65 | gives a line with that id exactly when one exists; otherwise "Invoice line not found" |
| Invoices.ApplyPatch | apps/api/app/api/routes/invoices.py:207-225 | each non-null patch field replaces its column, and company, status and totals are untouched |
| Invoices.PriceLine | apps/api/app/api/routes/invoices.py:265-282 | "Item not found" exactly when a named item is not the company's, even when a price is given; "unit_price is required" exactly when there is no item and no price; otherwise the line is priced: an omitted price and an omitted description are copied from the item |
| Invoices.ConsistentAfterChange | apps/api/app/services/invoice_totals.py:37-42 | the store invariant survives a change confined to one invoice's row and lines |
| Invoices.StoredInvoiceOk | apps/api/app/models/invoice.py:28-30 | every stored invoice has one of the four statuses and a currency that fits its column |
| Invoices.RecomputedRowConsistent | apps/api/app/services/invoice_totals.py:37-39 | a recomputed row stays valid and agrees with the lines it was recomputed over |
| Invoices.EmptyStoreConsistent | apps/api/app/models/invoice_line.py:17-19 | empty invoices and invoice_lines tables satisfy the store invariant, its base case |
| Invoices.NoLinesForNewInvoice | apps/api/app/api/routes/invoices.py:163-172 | an invoice with a fresh id has no lines, so its zero totals are correct |
| Invoices.CreateInvoice | apps/api/app/api/routes/invoices.py:150-176 | errors in order: currency over 10 characters (422), then customer not in the company (404); on success a draft invoice with zero totals and the payload's fields is stored under the fresh id; the invariant is kept |
| Invoices.UpdateInvoice | apps/api/app/api/routes/invoices.py:196-233 | errors in order: currency too long, not found or another company's invoice, locked, new customer not in the company; on success the patched row with totals recomputed from its lines is stored; the invariant is kept |
| Invoices.DeleteInvoice | apps/api/app/api/routes/invoices.py:236-248 | errors in order: not found, then locked; on success the invoice and exactly its lines are removed; the invariant is kept |
| Invoices.AddInvoiceLine | apps/api/app/api/routes/invoices.py:254-300 | errors in order: quantity not positive, not found, locked, then the item and price errors; on success the priced line is appended and the invoice's totals are recomputed over its old lines plus the new one; the invariant is kept |
| Invoices.DeleteInvoiceLine | apps/api/app/api/routes/invoices.py:303-324 | errors in order: not found, locked, no such line on this invoice; on success the line is removed and the invoice's totals are recomputed; the invariant is kept |
| Invoices.SetInvoiceStatus | apps/api/app/api/routes/invoices.py:330-364 | errors in order: normalized status not one of the four (422), then not found; the current status returns the invoice unchanged; a transition outside the table is a 409 naming both statuses; otherwise totals are recomputed and the new status stored; no lock check; the invariant is kept |
| Deps.SplitOnce | apps/api/app/api/deps.py:18 | split(" ", 1) gives two parts exactly when there is a space; the first part has no space, and the parts rejoin to the header |
| Deps.SplitOnceJoin | apps/api/app/api/deps.py:18 | splitting a space-free scheme joined to any rest by a space gives them back |
| Deps.GetBearerToken | apps/api/app/api/deps.py:15-21 | "Missing Authorization header" exactly for a missing or empty header; a header without a space is invalid; the only errors are those two; a token is trimmed and shorter than the header |
| Deps.BearerAccepted | apps/api/app/api/deps.py:18-21 | a scheme that lowercases to "bearer", a space and a padded token give the token, inner spaces kept |
| Deps.BearerRoundTrip | apps/api/app/api/deps.py:15-21 | "Bearer " + t gives back any trimmed token t |
| Deps.BlankTokenAccepted | apps/api/app/api/deps.py:19-21 | "Bearer " followed only by whitespace is accepted with an empty token |
| Deps.WrongSchemeRejected | apps/api/app/api/deps.py:19-20 | any other scheme, compared case-insensitively, is "Invalid Authorization header" |
| Deps.AcceptedHeaderShape | apps/api/app/api/deps.py:18-21 | every accepted header is a bearer scheme, a space, and a rest that strips to the token |
| Config.CleanOrigins | apps/api/app/core/config.py:28 | keeps only non-empty trimmed origins, no more than there are pieces, using only characters of the pieces |
| Config.CorsOrigins | apps/api/app/core/config.py:26-28 | every origin is non-empty, trimmed and free of commas |
| Config.CleanOriginsAppend | apps/api/app/core/config.py:28 | each piece is cleaned on its own, so origins keep the order of their pieces |
| Config.CleanOriginsClean | apps/api/app/core/config.py:28 | pieces that are already clean pass through unchanged |
| Config.CleanOriginsBlank | apps/api/app/core/config.py:28 | blank pieces contribute nothing |
| Config.CleanOriginsPadded | apps/api/app/core/config.py:28 | a piece with whitespace around an origin gives that origin, stripped |
| Config.CleanOriginsStripped | apps/api/app/core/config.py:28 | pieces that strip to non-empty origins give exactly those origins, in order |
| Config.Padded | apps/api/app/core/config.py:28 | each padded piece is its origin with the given whitespace before and after |
| Config.CorsRoundTrip | apps/api/app/core/config.py:26-28 | a comma list of clean, comma-free origins reads back as those origins |
| Config.CorsPaddedRoundTrip | apps/api/app/core/config.py:26-28 | a comma list whose origins have whitespace around them, as in "http://a, http://b", reads back as the bare origins |
| Config.DefaultCorsOrigins | apps/api/app/core/config.py:24-28 | the default allows exactly http://localhost:5173 and http://localhost, in that order |
| Config.DatabaseUrl | apps/api/app/core/config.py:30-38 | the URL is never empty, and an override is used trimmed |
| Config.OverrideWins | apps/api/app/core/config.py:32-33 | a non-blank DATABASE_URL with whitespace around it wins, without the whitespace |
| Config.BlankOverrideIgnored | apps/api/app/core/config.py:32-38 | a missing, empty or blank DATABASE_URL falls back to the URL built from the POSTGRES_* fields |
| Config.DefaultPortText | apps/api/app/core/config.py:16 | the default port prints as "5432" |
| Config.DefaultDatabaseUrl | apps/api/app/core/config.py:10-38 | the defaults give postgresql+psycopg://locksum:locksum_dev_password@db:5432/locksum |

## Left out

- list_invoices and get_invoice: these routes change nothing. list_invoices selects the company's invoices by company_id, newest first by created_at, and creation times are not modelled. get_invoice runs the `GetCompanyInvoice` guard and then loads the invoice's lines, which are what `LinesOf` states.
- Authentication beyond the header: JWT decoding, users, memberships and the resolution of the acting company (`get_current_user`, `get_current_company`). The company id is a parameter of every route.
- Transactions: commit, flush and refresh are not modelled. Each route's writes appear at once.
- Timestamps: created_at and updated_at come from the database clock.
- uuid4: the new row id is a parameter, fresh by precondition.
- Request values off the column grid: the request schemas accept any Decimal for quantity, unit_price and tax_rate, with no bound on decimal places. A line built in a request keeps, say, quantity 1.005, and the recompute in that request reads it. The model takes quantities and prices in hundredths and rates in ten-thousandths only.
- Decimal precision: numbers are exact integers. The 28-digit context precision, column precision overflow and the storing of the unquantized subtotal into a two-decimal column are not modelled.
- Column lengths: only the 10-character currency bound is kept, because the request schemas enforce it. The String(36), String(50) and String(20) bounds are not.
- Foreign keys on customer_id and item_id: the routes check the customer and a named item themselves. An empty item_id is stored without a lookup, as the code does.
- Text.Lower: only ASCII letters are lowercased; Python's `str.lower` also lowercases non-ASCII letters, sometimes into two characters. Comparisons with "bearer" and with the four status names stay exact. Only two non-ASCII characters lower to text with an ASCII letter. U+212A gives 'k', which is in none of those words. U+0130 gives 'i' plus U+0307, which is not ASCII. The text of the "Invalid status: …" detail is the ASCII-only lowered text, so for non-ASCII input it can differ from Python's.
- Text.Strip: the whitespace set is Python's `str.isspace` for the code points listed in `Text.IsSpace`.
- Pydantic request checks: only quantity > 0 and the currency length are modelled. They run before the route body, as request validation does. Type coercion and malformed bodies are not modelled.
- Settings: the environment and `.env` loading, API_SECRET_KEY and API_ACCESS_TOKEN_EXPIRE_MINUTES are not modelled.
- Config.DefaultDatabaseUrl: states the default URL as the concatenation of its default pieces rather than as one string literal.
