/** The totals engine: subtotal, tax_total and total of an invoice, derived from its
    lines and its tax rate with exact decimal arithmetic. */
module InvoiceTotals {
  import opened Common
  import opened FixedPoint
  import opened Models
  import opened Db

  /** subtotal * tax_rate is in 10^-8; quantizing it to hundredths divides by 10^6. */
  const TaxQuantum: int := TenThousandths * Hundredths
  /** subtotal + tax_total is in 10^-4; quantizing it to hundredths divides by 10^2. */
  const TotalQuantum: int := TenThousandths / Hundredths

  /** quantity * unit_price, in ten-thousandths. */
  function LineAmount(l: InvoiceLine): int {
    l.quantity * l.unitPrice
  }

  /** The exact sum of the line amounts, accumulated front to back. */
  function Subtotal(rows: seq<InvoiceLine>): int {
    if rows == [] then 0 else Subtotal(rows[..|rows| - 1]) + LineAmount(rows[|rows| - 1])
  }

  datatype Totals = Totals(subtotal: int, taxTotal: int, total: int)

  /** The quantization step: tax_total = (subtotal * tax_rate) to the cent and
      total = (subtotal + tax_total) to the cent. */
  function Quantized(subtotal: int, taxRate: int): Totals {
    var taxTotal := Quantize(subtotal * taxRate, TaxQuantum);
    Totals(subtotal, taxTotal, Quantize(subtotal + taxTotal * TotalQuantum, TotalQuantum))
  }

  /** subtotal in ten-thousandths; tax_total and total in hundredths. */
  function ComputeTotals(rows: seq<InvoiceLine>, taxRate: int): Totals {
    Quantized(Subtotal(rows), taxRate)
  }

  /** The invoice with its three derived columns replaced by the totals of `rows`. */
  function Recomputed(inv: Invoice, rows: seq<InvoiceLine>): Invoice {
    var t := ComputeTotals(rows, inv.taxRate);
    inv.(subtotal := t.subtotal, taxTotal := t.taxTotal, total := t.total)
  }

  /** The stored totals are those of `rows`. */
  ghost predicate TotalsMatch(inv: Invoice, rows: seq<InvoiceLine>) {
    Recomputed(inv, rows) == inv
  }

  /** `recalc_invoice_totals`: looks the invoice up, sums quantity * unit_price over its
      lines, quantizes tax and total, and writes the three columns back. No commit. */
  method RecalcInvoiceTotals(db: Session, invoiceId: Id) returns (r: Option<Invoice>)
    modifies db`invoices
    ensures invoiceId !in old(db.invoices) ==> r == None && db.invoices == old(db.invoices)
    ensures invoiceId in old(db.invoices) ==>
      && r == Some(Recomputed(old(db.invoices)[invoiceId], LinesOf(db.lines, invoiceId)))
      && db.invoices == old(db.invoices)[invoiceId := r.value]
  {
    if invoiceId !in db.invoices {
      return None;
    }
    var invoice := db.invoices[invoiceId];
    var rows := LinesOf(db.lines, invoiceId);

    var subtotal := 0;
    for i := 0 to |rows|
      invariant subtotal == Subtotal(rows[..i])
    {
      assert rows[..i + 1][..i] == rows[..i];
      subtotal := subtotal + rows[i].quantity * rows[i].unitPrice;
    }
    assert rows[..|rows|] == rows;

    var totals := Quantized(subtotal, invoice.taxRate);
    invoice := invoice.(subtotal := totals.subtotal, taxTotal := totals.taxTotal, total := totals.total);
    db.invoices := db.invoices[invoiceId := invoice];
    r := Some(invoice);
  }

  /** An invoice without lines has subtotal, tax_total and total all zero. */
  lemma NoLinesNoTotals(taxRate: int)
    ensures ComputeTotals([], taxRate) == Totals(0, 0, 0)
  {
  }

  lemma {:induction false} SubtotalAppend(a: seq<InvoiceLine>, b: seq<InvoiceLine>)
    ensures Subtotal(a + b) == Subtotal(a) + Subtotal(b)
    decreases |b|
  {
    if b == [] {
      assert a + b == a;
    } else {
      var init := b[..|b| - 1];
      assert (a + b)[..|a + b| - 1] == a + init;
      assert (a + b)[|a + b| - 1] == b[|b| - 1];
      SubtotalAppend(a, init);
    }
  }

  lemma SubtotalSingle(l: InvoiceLine)
    ensures Subtotal([l]) == LineAmount(l)
  {
    assert [l][..0] == [];
  }

  /** Taking one line out of any position lowers the subtotal by that line's amount. */
  lemma SubtotalRemove(b: seq<InvoiceLine>, k: nat)
    requires k < |b|
    ensures Subtotal(b) == Subtotal(b[..k] + b[k + 1..]) + LineAmount(b[k])
  {
    var pre, rest, post := b[..k], b[k..], b[k + 1..];
    assert b == pre + rest;
    SubtotalAppend(pre, rest);
    assert rest == [b[k]] + post;
    SubtotalAppend([b[k]], post);
    SubtotalSingle(b[k]);
    SubtotalAppend(pre, post);
  }

  lemma MultisetRemove(b: seq<InvoiceLine>, k: nat)
    requires k < |b|
    ensures multiset(b[..k] + b[k + 1..]) == multiset(b) - multiset{b[k]}
  {
    assert b == b[..k] + [b[k]] + b[k + 1..];
    assert multiset(b) == multiset(b[..k]) + multiset{b[k]} + multiset(b[k + 1..]);
  }

  /** The subtotal does not depend on the order the lines come back in. */
  lemma {:induction false} SubtotalPermutation(a: seq<InvoiceLine>, b: seq<InvoiceLine>)
    requires multiset(a) == multiset(b)
    ensures Subtotal(a) == Subtotal(b)
    decreases |a|
  {
    if a == [] {
      assert |b| == |multiset(b)| == 0;
    } else {
      var init, x := a[..|a| - 1], a[|a| - 1];
      assert a == init + [x];
      assert x in multiset(b);
      var k :| 0 <= k < |b| && b[k] == x;
      var rest := b[..k] + b[k + 1..];
      SubtotalRemove(b, k);
      MultisetRemove(b, k);
      assert multiset(init) == multiset(a) - multiset{x};
      SubtotalPermutation(init, rest);
    }
  }

  /** Hence all three totals are independent of line order. */
  lemma TotalsPermutation(a: seq<InvoiceLine>, b: seq<InvoiceLine>, taxRate: int)
    requires multiset(a) == multiset(b)
    ensures ComputeTotals(a, taxRate) == ComputeTotals(b, taxRate)
  {
    SubtotalPermutation(a, b);
  }

  /** tax_total is subtotal * tax_rate to the nearest cent, ties to even; total is
      subtotal + tax_total to the nearest cent, so total - tax_total is within half a
      cent (50 ten-thousandths) of the unquantized subtotal. */
  lemma TotalsRounding(rows: seq<InvoiceLine>, taxRate: int)
    ensures var t := ComputeTotals(rows, taxRate);
      && t.subtotal == Subtotal(rows)
      && RoundsHalfEven(t.subtotal * taxRate, TaxQuantum, t.taxTotal)
      && RoundsHalfEven(t.subtotal + t.taxTotal * TotalQuantum, TotalQuantum, t.total)
      && 2 * Dist((t.total - t.taxTotal) * TotalQuantum, t.subtotal) <= TotalQuantum
  {
    var t := ComputeTotals(rows, taxRate);
    var q := TotalQuantum;
    assert q == 100;
    assert RoundsHalfEven(t.subtotal + t.taxTotal * q, q, t.total);
    assert (t.total - t.taxTotal) * q - t.subtotal == t.total * q - (t.subtotal + t.taxTotal * q);
  }

  lemma {:induction false} SubtotalNonNegative(rows: seq<InvoiceLine>)
    requires forall l :: l in rows ==> l.quantity > 0 && l.unitPrice >= 0
    ensures Subtotal(rows) >= 0
  {
    if rows != [] {
      var init, last := rows[..|rows| - 1], rows[|rows| - 1];
      assert forall l :: l in init ==> l in rows;
      SubtotalNonNegative(init);
      assert last in rows;
      assert LineAmount(last) >= 0;
    }
  }

  /** With positive quantities, non-negative prices and a non-negative rate nothing is negative. */
  lemma TotalsNonNegative(rows: seq<InvoiceLine>, taxRate: int)
    requires forall l :: l in rows ==> l.quantity > 0 && l.unitPrice >= 0
    requires taxRate >= 0
    ensures var t := ComputeTotals(rows, taxRate); t.subtotal >= 0 && t.taxTotal >= 0 && t.total >= 0
  {
    SubtotalNonNegative(rows);
  }

  /** Recomputing changes only the three derived columns. */
  lemma RecomputedKeepsOtherFields(inv: Invoice, rows: seq<InvoiceLine>)
    ensures Recomputed(inv, rows).(subtotal := inv.subtotal, taxTotal := inv.taxTotal, total := inv.total) == inv
  {
  }

  /** Recomputing twice over the same lines gives what recomputing once gave. */
  lemma RecomputedIdempotent(inv: Invoice, rows: seq<InvoiceLine>)
    ensures TotalsMatch(Recomputed(inv, rows), rows)
  {
  }

  /** The totals depend only on the lines and the tax rate. */
  lemma RecomputedDependsOnLinesAndRate(a: Invoice, b: Invoice, rows: seq<InvoiceLine>, rows': seq<InvoiceLine>)
    requires a.taxRate == b.taxRate && multiset(rows) == multiset(rows')
    ensures var ra, rb := Recomputed(a, rows), Recomputed(b, rows');
      ra.subtotal == rb.subtotal && ra.taxTotal == rb.taxTotal && ra.total == rb.total
  {
    TotalsPermutation(rows, rows', a.taxRate);
  }

  /** Tax 0.0800, lines 2.00 x 10.00 and 1.00 x 5.00: subtotal 25, tax 2.00, total 27.00. */
  lemma TwoLineExample()
    ensures ComputeTotals([InvoiceLine("l1", "i", None, None, 200, 1000),
                           InvoiceLine("l2", "i", None, None, 100, 500)], 800)
         == Totals(250000, 200, 2700)
  {
    var rows := [InvoiceLine("l1", "i", None, None, 200, 1000), InvoiceLine("l2", "i", None, None, 100, 500)];
    assert rows[..1] == [rows[0]];
    assert Subtotal(rows) == 250000;
    QuantizeExact(200, TaxQuantum);
    QuantizeExact(2700, TotalQuantum);
  }

  /** Because the subtotal is written back unquantized, total need not equal subtotal +
      tax_total: one line 0.50 x 20.01 at rate 0 gives subtotal 10.0050 but total 10.00. */
  lemma UnquantizedSubtotalExample()
    ensures var t := ComputeTotals([InvoiceLine("l", "i", None, None, 50, 2001)], 0);
      t == Totals(100050, 0, 1000) && t.total * TotalQuantum != t.subtotal + t.taxTotal * TotalQuantum
  {
    var rows := [InvoiceLine("l", "i", None, None, 50, 2001)];
    assert Subtotal(rows) == 100050;
    QuantizeExact(0, TaxQuantum);
    QuantizeUnique(100050, TotalQuantum, 1000);
  }
}
