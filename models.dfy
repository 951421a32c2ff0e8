/** The `invoices` and `invoice_lines` rows, the catalog `items` row the routes read,
    and the relationship between an invoice and its lines.

    Fixed-point columns are integers at their own scale: quantity, unit_price and the
    item price (Numeric(12, 2)) in hundredths, tax_rate (Numeric(6, 4)) in
    ten-thousandths, tax_total and total (Numeric(12, 2)) in hundredths. The subtotal
    is held in ten-thousandths, because the totals engine writes the exact sum of
    quantity * unit_price back without quantizing it. */
module Models {
  import opened Common

  datatype Invoice = Invoice(
    companyId: Id,
    customerId: Id,
    number: Option<string>,
    taxRate: int,
    subtotal: int,
    taxTotal: int,
    total: int,
    status: string,
    currency: string,
    notes: Option<string>)

  const DefaultStatus: string := "draft"
  const DefaultCurrency: string := "USD"
  const DefaultTaxRate: int := 0
  /** currency is a String(10) column, and the request schemas cap it at 10 characters. */
  const MaxCurrencyLength: nat := 10

  /** A freshly inserted invoice: status and money columns take their column defaults. */
  function NewInvoice(companyId: Id, customerId: Id, number: Option<string>, taxRate: int,
                      currency: string, notes: Option<string>): (inv: Invoice)
    ensures inv.status == DefaultStatus
    ensures inv.subtotal == 0 && inv.taxTotal == 0 && inv.total == 0
    ensures inv.companyId == companyId && inv.customerId == customerId && inv.taxRate == taxRate
    ensures inv.number == number && inv.currency == currency && inv.notes == notes
  {
    Invoice(companyId, customerId, number, taxRate, 0, 0, 0, DefaultStatus, currency, notes)
  }

  /** One billable row. item_id and description are nullable; quantity and unit_price are
      required. The price is a snapshot taken when the line is created. */
  datatype InvoiceLine = InvoiceLine(
    id: Id,
    invoiceId: Id,
    itemId: Option<Id>,
    description: Option<string>,
    quantity: int,
    unitPrice: int)

  /** The catalog item columns the invoice routes read. */
  datatype Item = Item(companyId: Id, name: string, unitPrice: int)

  predicate DistinctIds(lines: seq<InvoiceLine>) {
    forall i, j :: 0 <= i < j < |lines| ==> lines[i].id != lines[j].id
  }

  /** The rows of `lines` that satisfy `keep`, in their original order. */
  function Filter(lines: seq<InvoiceLine>, keep: InvoiceLine -> bool): (r: seq<InvoiceLine>)
    ensures |r| <= |lines|
    ensures forall l :: l in r <==> l in lines && keep(l)
    ensures DistinctIds(lines) ==> DistinctIds(r)
  {
    if lines == [] then []
    else
      var init, last := lines[..|lines| - 1], lines[|lines| - 1];
      assert lines == init + [last];
      var r := Filter(init, keep);
      if keep(last) then
        assert DistinctIds(lines) ==> forall l :: l in r ==> l.id != last.id;
        r + [last]
      else r
  }

  lemma {:induction false} FilterAppend(lines: seq<InvoiceLine>, l: InvoiceLine, keep: InvoiceLine -> bool)
    ensures Filter(lines + [l], keep) == Filter(lines, keep) + (if keep(l) then [l] else [])
  {
    assert (lines + [l])[..|lines|] == lines;
  }

  /** Filtering twice is filtering once by the stricter condition. */
  lemma {:induction false} FilterFilter(lines: seq<InvoiceLine>, outer: InvoiceLine -> bool, inner: InvoiceLine -> bool)
    requires forall l :: l in lines && outer(l) ==> inner(l)
    ensures Filter(Filter(lines, inner), outer) == Filter(lines, outer)
  {
    if lines != [] {
      var init, last := lines[..|lines| - 1], lines[|lines| - 1];
      assert lines == init + [last];
      FilterFilter(init, outer, inner);
      if inner(last) {
        FilterAppend(Filter(init, inner), last, outer);
      }
    }
  }

  /** Rows no one keeps vanish. */
  lemma {:induction false} FilterNone(lines: seq<InvoiceLine>, keep: InvoiceLine -> bool)
    requires forall l :: l in lines ==> !keep(l)
    ensures Filter(lines, keep) == []
  {
    if lines != [] {
      var init := lines[..|lines| - 1];
      assert lines == init + [lines[|lines| - 1]];
      FilterNone(init, keep);
    }
  }

  /** Selection conditions on line rows. */
  function OfInvoice(invoiceId: Id): InvoiceLine -> bool {
    (l: InvoiceLine) => l.invoiceId == invoiceId
  }

  function NotOfInvoice(invoiceId: Id): InvoiceLine -> bool {
    (l: InvoiceLine) => l.invoiceId != invoiceId
  }

  function NotWithId(lineId: Id): InvoiceLine -> bool {
    (l: InvoiceLine) => l.id != lineId
  }

  /** `select(InvoiceLine).where(InvoiceLine.invoice_id == invoiceId)`, in table order. */
  function LinesOf(lines: seq<InvoiceLine>, invoiceId: Id): (r: seq<InvoiceLine>)
    ensures forall l :: l in r <==> l in lines && l.invoiceId == invoiceId
  {
    Filter(lines, OfInvoice(invoiceId))
  }

  /** The table after deleting the row whose id is lineId. */
  function WithoutLine(lines: seq<InvoiceLine>, lineId: Id): (r: seq<InvoiceLine>)
    ensures forall l :: l in r <==> l in lines && l.id != lineId
  {
    Filter(lines, NotWithId(lineId))
  }

  /** The table after the `delete-orphan` cascade of invoice invoiceId. */
  function WithoutInvoice(lines: seq<InvoiceLine>, invoiceId: Id): (r: seq<InvoiceLine>)
    ensures forall l :: l in r <==> l in lines && l.invoiceId != invoiceId
  {
    Filter(lines, NotOfInvoice(invoiceId))
  }

  /** Foreign key invoice_id -> invoices.id on every line, and unique line ids. */
  ghost predicate LinesWellFormed(invoices: map<Id, Invoice>, lines: seq<InvoiceLine>) {
    && (forall l :: l in lines ==> l.invoiceId in invoices)
    && DistinctIds(lines)
  }

  /** Appending a line adds it to its own invoice's lines and to no other invoice's. */
  lemma LinesOfAppend(lines: seq<InvoiceLine>, l: InvoiceLine, invoiceId: Id)
    ensures LinesOf(lines + [l], invoiceId)
         == LinesOf(lines, invoiceId) + (if l.invoiceId == invoiceId then [l] else [])
  {
    FilterAppend(lines, l, OfInvoice(invoiceId));
  }

  /** Deleting a line leaves the lines of every other invoice as they were. */
  lemma LinesOfWithoutLine(lines: seq<InvoiceLine>, lineId: Id, invoiceId: Id)
    requires forall l :: l in lines && l.id == lineId ==> l.invoiceId != invoiceId
    ensures LinesOf(WithoutLine(lines, lineId), invoiceId) == LinesOf(lines, invoiceId)
  {
    FilterFilter(lines, OfInvoice(invoiceId), NotWithId(lineId));
  }

  /** Inserting a line with a fresh id under an existing invoice keeps the table well formed
      and adds the line to its own invoice's lines only. */
  lemma AppendLineWellFormed(invoices: map<Id, Invoice>, lines: seq<InvoiceLine>, line: InvoiceLine)
    requires LinesWellFormed(invoices, lines)
    requires line.invoiceId in invoices && forall l :: l in lines ==> l.id != line.id
    ensures LinesWellFormed(invoices, lines + [line])
    ensures LinesOf(lines + [line], line.invoiceId) == LinesOf(lines, line.invoiceId) + [line]
    ensures forall other :: other != line.invoiceId ==> LinesOf(lines + [line], other) == LinesOf(lines, other)
  {
    var lines' := lines + [line];
    forall i, j | 0 <= i < j < |lines'|
      ensures lines'[i].id != lines'[j].id
    {
      if j == |lines| {
        assert lines'[i] in lines;
      }
    }
    LinesOfAppend(lines, line, line.invoiceId);
    forall other | other != line.invoiceId
      ensures LinesOf(lines', other) == LinesOf(lines, other)
    {
      LinesOfAppend(lines, line, other);
    }
  }

  /** Deleting the line with id lineId, which belongs to invoiceId, keeps the table well
      formed and leaves every other invoice's lines as they were. */
  lemma RemoveLineWellFormed(invoices: map<Id, Invoice>, lines: seq<InvoiceLine>, lineId: Id, invoiceId: Id)
    requires LinesWellFormed(invoices, lines)
    requires forall l :: l in lines && l.id == lineId ==> l.invoiceId == invoiceId
    ensures LinesWellFormed(invoices, WithoutLine(lines, lineId))
    ensures forall other :: other != invoiceId ==> LinesOf(WithoutLine(lines, lineId), other) == LinesOf(lines, other)
  {
    forall other | other != invoiceId
      ensures LinesOf(WithoutLine(lines, lineId), other) == LinesOf(lines, other)
    {
      LinesOfWithoutLine(lines, lineId, other);
    }
  }

  /** The cascade removes every line of the deleted invoice and no line of another. */
  lemma LinesOfWithoutInvoice(lines: seq<InvoiceLine>, deleted: Id, invoiceId: Id)
    ensures LinesOf(WithoutInvoice(lines, deleted), invoiceId)
         == if invoiceId == deleted then [] else LinesOf(lines, invoiceId)
  {
    if invoiceId == deleted {
      FilterNone(WithoutInvoice(lines, deleted), OfInvoice(invoiceId));
    } else {
      FilterFilter(lines, OfInvoice(invoiceId), NotOfInvoice(deleted));
    }
  }
}
