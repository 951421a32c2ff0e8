/** The invoice routes: tenant and lock guards, the status machine, and the handlers
    that create, patch and delete invoices, add and delete lines, and move an invoice
    through its statuses. Every handler runs its guards first, so a failed guard leaves
    the tables untouched; every successful change to lines or tax rate ends with a
    recompute, so the stored totals always agree with the stored lines. */
module Invoices {
  import opened Common
  import opened Text
  import opened Models
  import opened Db
  import opened InvoiceTotals

  // ---------------------------------------------------------------------------
  // Status rules

  const AllowedStatuses: set<string> := {"draft", "sent", "paid", "void"}

  const AllowedTransitions: map<string, set<string>> := map[
    "draft" := {"sent", "void"},
    "sent" := {"paid", "void"},
    "paid" := {},
    "void" := {}
  ]

  /** `ALLOWED_TRANSITIONS.get(current, set())`. */
  function Successors(current: string): (next: set<string>)
    ensures next <= AllowedStatuses
    ensures current !in next
  {
    if current in AllowedTransitions then AllowedTransitions[current] else {}
  }

  /** The status of the request: `payload.status.strip().lower()`. */
  function NormalizeStatus(requested: string): string {
    Lower(Strip(requested))
  }

  /** The status of the row: `(inv.status or "draft").lower()`. */
  function CurrentStatus(status: string): (current: string)
    ensures status in AllowedStatuses ==> current == status
    ensures status == "" ==> current == DefaultStatus
  {
    var raw := if status == "" then DefaultStatus else status;
    LowerFixed(DefaultStatus);
    if raw in AllowedStatuses then
      LowerFixed(raw);
      Lower(raw)
    else Lower(raw)
  }

  /** `invoice.status in ("paid", "void")`, compared as stored. */
  predicate IsLockedStatus(status: string) {
    status == "paid" || status == "void"
  }

  /** A status order along which every allowed transition climbs. */
  function Rank(status: string): nat {
    if status == "draft" then 0 else if status == "sent" then 1 else 2
  }

  /** The transition table holds exactly four pairs. */
  lemma TransitionPairs()
    ensures (set c, n | c in AllowedStatuses && n in Successors(c) :: (c, n))
         == {("draft", "sent"), ("draft", "void"), ("sent", "paid"), ("sent", "void")}
  {
    var pairs := set c, n | c in AllowedStatuses && n in Successors(c) :: (c, n);
    assert Successors("draft") == {"sent", "void"};
    assert Successors("sent") == {"paid", "void"};
    assert Successors("paid") == {} && Successors("void") == {};
    assert ("draft", "sent") in pairs && ("draft", "void") in pairs;
    assert ("sent", "paid") in pairs && ("sent", "void") in pairs;
  }

  /** The statuses without successors are exactly the locked ones. */
  lemma TerminalIffLocked(status: string)
    requires status in AllowedStatuses
    ensures Successors(status) == {} <==> IsLockedStatus(status)
  {
    assert "sent" in Successors("draft") && "paid" in Successors("sent");
  }

  /** Every transition climbs in Rank, so no status is ever entered twice. */
  lemma TransitionsClimb(current: string, next: string)
    requires next in Successors(current)
    ensures Rank(current) < Rank(next)
  {
  }

  /** Whitespace around the requested status does not matter. */
  lemma NormalizeIgnoresPadding(pre: string, core: string, post: string)
    requires AllSpace(pre) && AllSpace(post) && IsTrimmed(core)
    ensures NormalizeStatus(pre + core + post) == Lower(core)
  {
    StripPadded(pre, core, post);
  }

  /** " Sent\n" asks for "sent". */
  lemma NormalizeStatusExample()
    ensures NormalizeStatus(" Sent\n") == "sent"
  {
    assert Lower("Sent") == "sent" by {
      assert Lower("Sent")[0] == LowerChar('S') == 's';
    }
    assert " Sent\n" == " " + "Sent" + "\n";
    NormalizeIgnoresPadding(" ", "Sent", "\n");
  }

  // ---------------------------------------------------------------------------
  // Error details

  const InvoiceNotFound: string := "Invoice not found"
  const LineNotFound: string := "Invoice line not found"
  const CustomerNotFound: string := "Customer not found"
  const ItemNotFound: string := "Item not found"
  const UnitPriceRequired: string := "unit_price is required when item_id is not provided"
  const QuantityNotPositive: string := "quantity: Input should be greater than 0"
  const CurrencyTooLong: string := "currency: String should have at most 10 characters"

  function LockedDetail(status: string): string {
    "Invoice is " + status + " and cannot be edited"
  }

  function InvalidStatusDetail(status: string): string {
    "Invalid status: " + status
  }

  function InvalidTransitionDetail(current: string, next: string): string {
    "Invalid transition: " + current + " -> " + next
  }

  // ---------------------------------------------------------------------------
  // Guards and lookups

  /** The invoice exists and belongs to the acting company. */
  predicate Owns(invoices: map<Id, Invoice>, invoiceId: Id, company: Id) {
    invoiceId in invoices && invoices[invoiceId].companyId == company
  }

  /** `_get_invoice`: the row with that id, or "Invoice not found". */
  function GetInvoice(invoices: map<Id, Invoice>, invoiceId: Id): (r: Result<Invoice, Error>)
    ensures r.Ok? <==> invoiceId in invoices
    ensures r.Ok? ==> r.value == invoices[invoiceId]
    ensures r.Err? ==> r.error == NotFound(InvoiceNotFound)
  {
    if invoiceId in invoices then Ok(invoices[invoiceId]) else Err(NotFound(InvoiceNotFound))
  }

  /** `_ensure_company_invoice`: another company's invoice is reported as missing. */
  function EnsureCompanyInvoice(inv: Invoice, company: Id): (r: Outcome<Error>)
    ensures r.Pass? <==> inv.companyId == company
    ensures r.Fail? ==> r.error == GetInvoice(map[], "").error
  {
    if inv.companyId != company then Fail(NotFound(InvoiceNotFound)) else Pass
  }

  /** `_get_invoice` followed by `_ensure_company_invoice`, the opening of every route. */
  function GetCompanyInvoice(invoices: map<Id, Invoice>, invoiceId: Id, company: Id): (r: Result<Invoice, Error>)
    ensures r.Ok? <==> Owns(invoices, invoiceId, company)
    ensures r.Ok? ==> r.value == invoices[invoiceId]
    ensures r.Err? ==> r.error == NotFound(InvoiceNotFound)
  {
    match GetInvoice(invoices, invoiceId)
    case Err(e) => Err(e)
    case Ok(inv) =>
      match EnsureCompanyInvoice(inv, company)
      case Fail(e) => Err(e)
      case Pass => Ok(inv)
  }

  /** Tenant isolation: another company's invoice gives exactly the answer a missing one gives. */
  lemma ForeignInvoiceLooksMissing(invoices: map<Id, Invoice>, invoiceId: Id, company: Id)
    requires invoiceId in invoices && invoices[invoiceId].companyId != company
    ensures GetCompanyInvoice(invoices, invoiceId, company)
         == GetCompanyInvoice(invoices - {invoiceId}, invoiceId, company)
  {
  }

  /** `_ensure_editable`: paid and void invoices refuse edits. */
  function EnsureEditable(inv: Invoice): (r: Outcome<Error>)
    ensures r.Pass? <==> !IsLockedStatus(inv.status)
    ensures r.Fail? ==> r.error == Locked(LockedDetail(inv.status))
  {
    if IsLockedStatus(inv.status) then Fail(Locked(LockedDetail(inv.status))) else Pass
  }

  /** The first line row with that id (`select(...).first()`). */
  function FindLine(lines: seq<InvoiceLine>, lineId: Id): (r: Option<InvoiceLine>)
    ensures r.None? <==> forall l :: l in lines ==> l.id != lineId
    ensures r.Some? ==> r.value in lines && r.value.id == lineId
  {
    if lines == [] then None
    else if lines[0].id == lineId then Some(lines[0])
    else
      assert forall l :: l in lines ==> l == lines[0] || l in lines[1..];
      FindLine(lines[1..], lineId)
  }

  /** With unique ids the line found is the only one with that id. */
  lemma FindLineUnique(lines: seq<InvoiceLine>, lineId: Id, l: InvoiceLine)
    requires DistinctIds(lines) && l in lines && l.id == lineId
    ensures FindLine(lines, lineId) == Some(l)
  {
    var found := FindLine(lines, lineId).value;
    var i :| 0 <= i < |lines| && lines[i] == l;
    var j :| 0 <= j < |lines| && lines[j] == found;
  }

  /** `_get_line`: the line row with that id, or "Invoice line not found". */
  function GetLine(lines: seq<InvoiceLine>, lineId: Id): (r: Result<InvoiceLine, Error>)
    ensures r.Ok? <==> exists l :: l in lines && l.id == lineId
    ensures r.Ok? ==> r.value in lines && r.value.id == lineId
    ensures r.Err? ==> r.error == NotFound(LineNotFound)
  {
    match FindLine(lines, lineId)
    case None => Err(NotFound(LineNotFound))
    case Some(l) => Ok(l)
  }

  /** The customer lookup `Customer.id == customerId, Customer.company_id == company.id`. */
  predicate CompanyCustomer(customers: map<Id, Id>, customerId: Id, company: Id) {
    customerId in customers && customers[customerId] == company
  }

  /** The item lookup `Item.id == itemId, Item.company_id == company.id`. */
  predicate CompanyItem(items: map<Id, Item>, itemId: Id, company: Id) {
    itemId in items && items[itemId].companyId == company
  }

  // ---------------------------------------------------------------------------
  // Request bodies, with the defaults and bounds the request schemas declare

  /** `InvoiceCreate`; None stands for an omitted field. */
  datatype InvoiceCreate = InvoiceCreate(
    customerId: Id,
    number: Option<string>,
    taxRate: Option<int>,
    currency: Option<string>,
    notes: Option<string>)

  /** `InvoiceUpdate`; None stands for null or omitted, which leave the column alone. */
  datatype InvoiceUpdate = InvoiceUpdate(
    customerId: Option<Id>,
    number: Option<string>,
    taxRate: Option<int>,
    currency: Option<string>,
    notes: Option<string>)

  /** `InvoiceLineCreate`; None stands for an omitted field. */
  datatype LineCreate = LineCreate(
    itemId: Option<Id>,
    description: Option<string>,
    quantity: int,
    unitPrice: Option<int>)

  /** The `max_length=10` bound on a currency that is present. */
  predicate CurrencyOk(currency: Option<string>) {
    currency.None? || |currency.value| <= MaxCurrencyLength
  }

  /** `if payload.item_id:` - an empty string is as good as no item. */
  predicate NamesItem(payload: LineCreate) {
    payload.itemId.Some? && payload.itemId.value != ""
  }

  /** The assignments of `update_invoice`: each non-null field of the patch replaces its column. */
  function ApplyPatch(inv: Invoice, patch: InvoiceUpdate): (r: Invoice)
    ensures r.customerId == patch.customerId.GetOr(inv.customerId)
    ensures r.number == (if patch.number.Some? then patch.number else inv.number)
    ensures r.taxRate == patch.taxRate.GetOr(inv.taxRate)
    ensures r.currency == patch.currency.GetOr(inv.currency)
    ensures r.notes == (if patch.notes.Some? then patch.notes else inv.notes)
    ensures r.companyId == inv.companyId && r.status == inv.status
    ensures r.subtotal == inv.subtotal && r.taxTotal == inv.taxTotal && r.total == inv.total
  {
    inv.(customerId := patch.customerId.GetOr(inv.customerId),
         number := if patch.number.Some? then patch.number else inv.number,
         taxRate := patch.taxRate.GetOr(inv.taxRate),
         currency := patch.currency.GetOr(inv.currency),
         notes := if patch.notes.Some? then patch.notes else inv.notes)
  }

  /** The unit price and description a new line gets. */
  datatype Priced = Priced(unitPrice: int, description: Option<string>)

  /** Lines 265-282 of `add_invoice_line`: a named item must belong to the company (checked
      even when a price is given); an omitted price and an omitted description are copied
      from the item; with no item, an omitted price is a validation error. */
  function PriceLine(items: map<Id, Item>, company: Id, payload: LineCreate): (r: Result<Priced, Error>)
    ensures r == Err(NotFound(ItemNotFound))
            <==> NamesItem(payload) && !CompanyItem(items, payload.itemId.value, company)
    ensures r == Err(Validation(UnitPriceRequired)) <==> !NamesItem(payload) && payload.unitPrice.None?
    ensures r.Ok? || r.error == NotFound(ItemNotFound) || r.error == Validation(UnitPriceRequired)
    ensures r.Ok? && payload.unitPrice.Some? ==> r.value.unitPrice == payload.unitPrice.value
    ensures r.Ok? && payload.unitPrice.None? ==> r.value.unitPrice == items[payload.itemId.value].unitPrice
    ensures r.Ok? && (payload.description.Some? || !NamesItem(payload)) ==> r.value.description == payload.description
    ensures r.Ok? && payload.description.None? && NamesItem(payload)
            ==> r.value.description == Some(items[payload.itemId.value].name)
  {
    if NamesItem(payload) then
      var itemId := payload.itemId.value;
      if !CompanyItem(items, itemId, company) then Err(NotFound(ItemNotFound))
      else
        var item := items[itemId];
        Ok(Priced(payload.unitPrice.GetOr(item.unitPrice),
                  if payload.description.None? then Some(item.name) else payload.description))
    else if payload.unitPrice.None? then Err(Validation(UnitPriceRequired))
    else Ok(Priced(payload.unitPrice.value, payload.description))
  }

  // ---------------------------------------------------------------------------
  // The store invariant

  /** What the schema and the routes keep true of every invoice row. */
  ghost predicate InvoiceOk(inv: Invoice) {
    inv.status in AllowedStatuses && |inv.currency| <= MaxCurrencyLength
  }

  /** Lines reference existing invoices, line ids are unique, every status is one of the
      four, and every invoice's stored totals are those of its current lines. */
  ghost predicate ConsistentState(invoices: map<Id, Invoice>, lines: seq<InvoiceLine>) {
    && LinesWellFormed(invoices, lines)
    && forall id {:trigger InvoiceConsistent(invoices, lines, id)} ::
         id in invoices ==> InvoiceConsistent(invoices, lines, id)
  }

  /** One invoice row is valid and its stored totals are those of its lines. */
  ghost predicate InvoiceConsistent(invoices: map<Id, Invoice>, lines: seq<InvoiceLine>, id: Id)
    requires id in invoices
  {
    InvoiceOk(invoices[id]) && TotalsMatch(invoices[id], LinesOf(lines, id))
  }

  ghost predicate Consistent(db: Session)
    reads db
  {
    ConsistentState(db.invoices, db.lines)
  }

  /** The invariant survives a change confined to one invoice, its row and its lines. */
  lemma ConsistentAfterChange(invoices: map<Id, Invoice>, lines: seq<InvoiceLine>,
                              invoices': map<Id, Invoice>, lines': seq<InvoiceLine>, id: Id)
    requires ConsistentState(invoices, lines)
    requires LinesWellFormed(invoices', lines')
    requires invoices'.Keys == invoices.Keys + {id}
    requires InvoiceOk(invoices'[id]) && TotalsMatch(invoices'[id], LinesOf(lines', id))
    requires forall other :: other in invoices && other != id ==>
      invoices'[other] == invoices[other] && LinesOf(lines', other) == LinesOf(lines, other)
    ensures ConsistentState(invoices', lines')
  {
    forall other | other in invoices'
      ensures InvoiceConsistent(invoices', lines', other)
    {
      if other != id {
        assert InvoiceConsistent(invoices, lines, other);
      }
    }
  }

  /** Every stored invoice row is valid on its own. */
  lemma StoredInvoiceOk(invoices: map<Id, Invoice>, lines: seq<InvoiceLine>, id: Id)
    requires ConsistentState(invoices, lines) && id in invoices
    ensures InvoiceOk(invoices[id])
  {
    assert InvoiceConsistent(invoices, lines, id);
  }

  /** A valid row stays valid when recomputed, and then agrees with the lines it was recomputed over. */
  lemma RecomputedRowConsistent(inv: Invoice, rows: seq<InvoiceLine>)
    requires InvoiceOk(inv)
    ensures InvoiceOk(Recomputed(inv, rows)) && TotalsMatch(Recomputed(inv, rows), rows)
  {
    RecomputedIdempotent(inv, rows);
    RecomputedKeepsOtherFields(inv, rows);
  }

  /** Writing a row twice leaves only the second write. */
  lemma Overwrite(invoices: map<Id, Invoice>, id: Id, first: Invoice, second: Invoice)
    ensures invoices[id := first][id := second] == invoices[id := second]
  {
  }

  /** The empty tables satisfy the invariant, so every store the handlers build from
      them satisfies it too. */
  lemma EmptyStoreConsistent()
    ensures ConsistentState(map[], [])
  {
    assert DistinctIds([]);
  }

  /** A new invoice id has no lines yet. */
  lemma NoLinesForNewInvoice(invoices: map<Id, Invoice>, lines: seq<InvoiceLine>, id: Id)
    requires LinesWellFormed(invoices, lines) && id !in invoices
    ensures LinesOf(lines, id) == []
  {
    FilterNone(lines, OfInvoice(id));
  }

  // ---------------------------------------------------------------------------
  // Handlers

  /** `create_invoice`. */
  method CreateInvoice(db: Session, company: Id, payload: InvoiceCreate, newId: Id)
    returns (r: Result<Invoice, Error>)
    requires Consistent(db)
    requires newId !in db.invoices
    modifies db`invoices
    ensures Consistent(db)
    ensures r.Err? ==> db.invoices == old(db.invoices)
    ensures !CurrencyOk(payload.currency) ==> r == Err(Validation(CurrencyTooLong))
    ensures CurrencyOk(payload.currency) && !CompanyCustomer(db.customers, payload.customerId, company)
            ==> r == Err(NotFound(CustomerNotFound))
    ensures CurrencyOk(payload.currency) && CompanyCustomer(db.customers, payload.customerId, company) ==>
      && r == Ok(NewInvoice(company, payload.customerId, payload.number,
                            payload.taxRate.GetOr(DefaultTaxRate), payload.currency.GetOr(DefaultCurrency),
                            payload.notes))
      && db.invoices == old(db.invoices)[newId := r.value]
  {
    if !CurrencyOk(payload.currency) {
      return Err(Validation(CurrencyTooLong));
    }
    if !CompanyCustomer(db.customers, payload.customerId, company) {
      return Err(NotFound(CustomerNotFound));
    }
    var inv := NewInvoice(company, payload.customerId, payload.number,
                          payload.taxRate.GetOr(DefaultTaxRate), payload.currency.GetOr(DefaultCurrency),
                          payload.notes);
    ghost var before := db.invoices;
    NoLinesForNewInvoice(before, db.lines, newId);
    db.invoices := db.invoices[newId := inv];
    ConsistentAfterChange(before, db.lines, db.invoices, db.lines, newId);
    r := Ok(inv);
  }

  /** `update_invoice`. */
  method UpdateInvoice(db: Session, company: Id, invoiceId: Id, patch: InvoiceUpdate)
    returns (r: Result<Invoice, Error>)
    requires Consistent(db)
    modifies db`invoices
    ensures Consistent(db)
    ensures r.Err? ==> db.invoices == old(db.invoices)
    ensures !CurrencyOk(patch.currency) ==> r == Err(Validation(CurrencyTooLong))
    ensures CurrencyOk(patch.currency) && !Owns(old(db.invoices), invoiceId, company)
            ==> r == Err(NotFound(InvoiceNotFound))
    ensures CurrencyOk(patch.currency) && Owns(old(db.invoices), invoiceId, company) ==>
      var inv := old(db.invoices)[invoiceId];
      if IsLockedStatus(inv.status) then r == Err(Locked(LockedDetail(inv.status)))
      else if patch.customerId.Some? && !CompanyCustomer(db.customers, patch.customerId.value, company)
      then r == Err(NotFound(CustomerNotFound))
      else
        && r == Ok(Recomputed(ApplyPatch(inv, patch), LinesOf(db.lines, invoiceId)))
        && db.invoices == old(db.invoices)[invoiceId := r.value]
  {
    if !CurrencyOk(patch.currency) {
      return Err(Validation(CurrencyTooLong));
    }
    var inv :- GetCompanyInvoice(db.invoices, invoiceId, company);
    :- EnsureEditable(inv);
    if patch.customerId.Some? && !CompanyCustomer(db.customers, patch.customerId.value, company) {
      return Err(NotFound(CustomerNotFound));
    }
    ghost var before := db.invoices;
    StoredInvoiceOk(before, db.lines, invoiceId);
    db.invoices := db.invoices[invoiceId := ApplyPatch(inv, patch)];
    var recalculated := RecalcInvoiceTotals(db, invoiceId);
    Overwrite(before, invoiceId, ApplyPatch(inv, patch), recalculated.value);
    RecomputedRowConsistent(ApplyPatch(inv, patch), LinesOf(db.lines, invoiceId));
    ConsistentAfterChange(before, db.lines, db.invoices, db.lines, invoiceId);
    r := Ok(db.invoices[invoiceId]);
  }

  /** `delete_invoice`; the cascade takes the invoice's lines with it. */
  method DeleteInvoice(db: Session, company: Id, invoiceId: Id) returns (r: Result<(), Error>)
    requires Consistent(db)
    modifies db`invoices, db`lines
    ensures Consistent(db)
    ensures r.Err? ==> db.invoices == old(db.invoices) && db.lines == old(db.lines)
    ensures !Owns(old(db.invoices), invoiceId, company) ==> r == Err(NotFound(InvoiceNotFound))
    ensures Owns(old(db.invoices), invoiceId, company) ==>
      var inv := old(db.invoices)[invoiceId];
      if IsLockedStatus(inv.status) then r == Err(Locked(LockedDetail(inv.status)))
      else
        && r == Ok(())
        && db.invoices == old(db.invoices) - {invoiceId}
        && db.lines == WithoutInvoice(old(db.lines), invoiceId)
  {
    var inv :- GetCompanyInvoice(db.invoices, invoiceId, company);
    :- EnsureEditable(inv);
    ghost var before, beforeLines := db.invoices, db.lines;
    db.invoices := db.invoices - {invoiceId};
    db.lines := WithoutInvoice(db.lines, invoiceId);
    forall other | other in db.invoices
      ensures LinesOf(db.lines, other) == LinesOf(beforeLines, other)
    {
      LinesOfWithoutInvoice(beforeLines, invoiceId, other);
    }
    forall other | other in db.invoices
      ensures InvoiceConsistent(db.invoices, db.lines, other)
    {
      assert InvoiceConsistent(before, beforeLines, other);
    }
    r := Ok(());
  }

  /** `add_invoice_line`. */
  method AddInvoiceLine(db: Session, company: Id, invoiceId: Id, payload: LineCreate, newLineId: Id)
    returns (r: Result<Invoice, Error>)
    requires Consistent(db)
    requires forall l :: l in db.lines ==> l.id != newLineId
    modifies db`invoices, db`lines
    ensures Consistent(db)
    ensures r.Err? ==> db.invoices == old(db.invoices) && db.lines == old(db.lines)
    ensures payload.quantity <= 0 ==> r == Err(Validation(QuantityNotPositive))
    ensures payload.quantity > 0 && !Owns(old(db.invoices), invoiceId, company)
            ==> r == Err(NotFound(InvoiceNotFound))
    ensures payload.quantity > 0 && Owns(old(db.invoices), invoiceId, company) ==>
      var inv := old(db.invoices)[invoiceId];
      if IsLockedStatus(inv.status) then r == Err(Locked(LockedDetail(inv.status)))
      else match PriceLine(db.items, company, payload)
        case Err(e) => r == Err(e)
        case Ok(p) =>
          var line := InvoiceLine(newLineId, invoiceId, payload.itemId, p.description, payload.quantity, p.unitPrice);
          && db.lines == old(db.lines) + [line]
          && r == Ok(Recomputed(inv, LinesOf(old(db.lines), invoiceId) + [line]))
          && db.invoices == old(db.invoices)[invoiceId := r.value]
  {
    if payload.quantity <= 0 {
      return Err(Validation(QuantityNotPositive));
    }
    var inv :- GetCompanyInvoice(db.invoices, invoiceId, company);
    :- EnsureEditable(inv);
    var priced :- PriceLine(db.items, company, payload);
    var line := InvoiceLine(newLineId, invoiceId, payload.itemId, priced.description, payload.quantity, priced.unitPrice);

    ghost var before, beforeLines := db.invoices, db.lines;
    StoredInvoiceOk(before, beforeLines, invoiceId);
    AppendLineWellFormed(before, beforeLines, line);
    db.lines := db.lines + [line];
    var recalculated := RecalcInvoiceTotals(db, invoiceId);
    RecomputedRowConsistent(inv, LinesOf(db.lines, invoiceId));
    ConsistentAfterChange(before, beforeLines, db.invoices, db.lines, invoiceId);
    r := Ok(db.invoices[invoiceId]);
  }

  /** `delete_invoice_line`. */
  method DeleteInvoiceLine(db: Session, company: Id, invoiceId: Id, lineId: Id) returns (r: Result<(), Error>)
    requires Consistent(db)
    modifies db`invoices, db`lines
    ensures Consistent(db)
    ensures r.Err? ==> db.invoices == old(db.invoices) && db.lines == old(db.lines)
    ensures !Owns(old(db.invoices), invoiceId, company) ==> r == Err(NotFound(InvoiceNotFound))
    ensures Owns(old(db.invoices), invoiceId, company) ==>
      var inv := old(db.invoices)[invoiceId];
      if IsLockedStatus(inv.status) then r == Err(Locked(LockedDetail(inv.status)))
      else if !exists l :: l in old(db.lines) && l.id == lineId && l.invoiceId == invoiceId
      then r == Err(NotFound(LineNotFound))
      else
        && r == Ok(())
        && db.lines == WithoutLine(old(db.lines), lineId)
        && db.invoices == old(db.invoices)[invoiceId := Recomputed(inv, LinesOf(db.lines, invoiceId))]
  {
    var inv :- GetCompanyInvoice(db.invoices, invoiceId, company);
    :- EnsureEditable(inv);
    var line :- GetLine(db.lines, lineId);
    if line.invoiceId != invoiceId {
      forall l | l in db.lines && l.id == lineId
        ensures l.invoiceId != invoiceId
      {
        FindLineUnique(db.lines, lineId, l);
      }
      return Err(NotFound(LineNotFound));
    }

    ghost var before, beforeLines := db.invoices, db.lines;
    StoredInvoiceOk(before, beforeLines, invoiceId);
    forall l | l in beforeLines && l.id == lineId
      ensures l.invoiceId == invoiceId
    {
      FindLineUnique(beforeLines, lineId, l);
    }
    RemoveLineWellFormed(before, beforeLines, lineId, invoiceId);
    db.lines := WithoutLine(db.lines, lineId);
    var recalculated := RecalcInvoiceTotals(db, invoiceId);
    RecomputedRowConsistent(inv, LinesOf(db.lines, invoiceId));
    ConsistentAfterChange(before, beforeLines, db.invoices, db.lines, invoiceId);
    r := Ok(());
  }

  /** `set_invoice_status`. It never consults `_ensure_editable`: only the table blocks
      paid and void. */
  method SetInvoiceStatus(db: Session, company: Id, invoiceId: Id, requested: string)
    returns (r: Result<Invoice, Error>)
    requires Consistent(db)
    modifies db`invoices
    ensures Consistent(db)
    ensures r.Err? ==> db.invoices == old(db.invoices)
    ensures var next := NormalizeStatus(requested);
      if next !in AllowedStatuses then r == Err(Validation(InvalidStatusDetail(next)))
      else if !Owns(old(db.invoices), invoiceId, company) then r == Err(NotFound(InvoiceNotFound))
      else
        var inv := old(db.invoices)[invoiceId];
        var current := CurrentStatus(inv.status);
        if next == current then r == Ok(inv) && db.invoices == old(db.invoices)
        else if next !in Successors(current) then r == Err(Conflict(InvalidTransitionDetail(current, next)))
        else
          && r == Ok(Recomputed(inv, LinesOf(db.lines, invoiceId)).(status := next))
          && db.invoices == old(db.invoices)[invoiceId := r.value]
  {
    var next := NormalizeStatus(requested);
    if next !in AllowedStatuses {
      return Err(Validation(InvalidStatusDetail(next)));
    }
    var inv :- GetCompanyInvoice(db.invoices, invoiceId, company);
    var current := CurrentStatus(inv.status);
    if next == current {
      return Ok(inv);
    }
    if next !in Successors(current) {
      return Err(Conflict(InvalidTransitionDetail(current, next)));
    }
    ghost var before := db.invoices;
    StoredInvoiceOk(before, db.lines, invoiceId);
    var recalculated := RecalcInvoiceTotals(db, invoiceId);
    db.invoices := db.invoices[invoiceId := recalculated.value.(status := next)];
    Overwrite(before, invoiceId, recalculated.value, recalculated.value.(status := next));
    RecomputedRowConsistent(inv.(status := next), LinesOf(db.lines, invoiceId));
    assert db.invoices[invoiceId] == Recomputed(inv.(status := next), LinesOf(db.lines, invoiceId));
    ConsistentAfterChange(before, db.lines, db.invoices, db.lines, invoiceId);
    r := Ok(db.invoices[invoiceId]);
  }
}
