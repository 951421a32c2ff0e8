/** The database session every route receives: the tables the invoice core reads
    and writes, held as values that the routes replace. */
module Db {
  import opened Common
  import opened Models

  class Session {
    /** `invoices`, keyed by id. */
    var invoices: map<Id, Invoice>
    /** `invoice_lines`, in the order the database hands them back. */
    var lines: seq<InvoiceLine>
    /** `customers`: the owning company of each customer id. */
    var customers: map<Id, Id>
    /** `items`, keyed by id. */
    var items: map<Id, Item>

    /** A session over an empty invoice store and a given catalog. */
    constructor (customers: map<Id, Id>, items: map<Id, Item>)
      ensures this.invoices == map[] && this.lines == []
      ensures this.customers == customers && this.items == items
    {
      this.invoices := map[];
      this.lines := [];
      this.customers := customers;
      this.items := items;
    }
  }
}
