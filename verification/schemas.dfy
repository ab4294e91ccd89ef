/**
 * The stored documents of the invoicing back office: products in the
 * catalog, invoices and their line items. Store-assigned identifiers are
 * opaque strings; dates are opaque instants.
 */
module Schemas {

  datatype Option<+T> = None | Some(value: T) {
    /** The wrapped value, or `default` when there is none. */
    function GetOr(default: T): T {
      match this
      case Some(v) => v
      case None => default
    }
  }

  /** A store-native document identifier (an ObjectId in the store). */
  type ProductId = string
  type InvoiceId = string

  /** A calendar instant, kept opaque. */
  type Date = int

  /** A catalog entry; its `price` is read live by every invoice that refers to it. */
  datatype Product = Product(name: string, price: int)

  /** One line of an invoice as stored: a product reference and a quantity, no price. */
  datatype LineItem = LineItem(productId: ProductId, quantity: int)

  /**
   * A stored invoice. `grandPrice` is a schema field that nothing computes:
   * it is an opaque stored value, `None` when the document has none.
   */
  datatype Invoice = Invoice(
    customer: string,
    tanggalTerima: Option<Date>,
    tanggalSelesai: Option<Date>,
    downPayment: int,
    products: seq<LineItem>,
    grandPrice: Option<int>)

  /** The product collection, keyed by id. */
  type Catalog = map<ProductId, Product>

  /** The invoice collection, keyed by id. */
  type InvoiceStore = map<InvoiceId, Invoice>

  /** Populating a reference: the product document, or `None` (null) once it is deleted. */
  function Lookup(c: Catalog, id: ProductId): (r: Option<Product>)
    ensures r.Some? <==> id in c
    ensures r.Some? ==> r.value == c[id]
  {
    if id in c then Some(c[id]) else None
  }
}
