/**
 * The product and invoice handlers, reduced to what they compute. The
 * validator chain in front of each handler is one boolean guard, the store
 * is a map passed in, and a new document's id is chosen by the caller.
 */
module Routes {
  import opened Schemas
  import opened Aggregation

  /** The error answers of the handlers. */
  datatype Failure = BadRequest | NotFound | InternalError {
    function Status(): int {
      match this
      case BadRequest => 400
      case NotFound => 404
      case InternalError => 500
    }
  }

  datatype Result<+T> = Ok(value: T) | Err(failure: Failure)

  // ---------------------------------------------------------------- products

  /** The `price` field of a product request, when there is one. */
  datatype PriceInput = Missing | Given(n: int)

  /** The JavaScript falsy values among the inputs: an absent field and 0. */
  predicate Falsy(p: PriceInput) {
    p.Missing? || p.n == 0
  }

  /** `price || 0`: the submitted number, and 0 when there is none. */
  function StoredPrice(p: PriceInput): (r: int)
    ensures p.Given? ==> r == p.n
    ensures p.Missing? ==> r == 0
  {
    if Falsy(p) then 0 else p.n
  }

  /**
   * POST /products: the price must be numeric, so a request without one is
   * rejected like any other invalid request (`valid` stands for the rest of
   * the checks) and changes nothing; an accepted one adds exactly one
   * product, under the new id, with the defaulted price.
   */
  function CreateProduct(c: Catalog, newId: ProductId, valid: bool, name: string, price: PriceInput): (r: Result<Catalog>)
    requires newId !in c
    ensures r.Ok? <==> valid && price.Given?
    ensures r.Err? ==> r == Err(BadRequest)
    ensures r.Ok? ==> r.value.Keys == c.Keys + {newId}
    ensures r.Ok? ==> r.value[newId].name == name && r.value[newId].price == price.n
    ensures r.Ok? ==> forall id :: id in c ==> r.value[id] == c[id]
  {
    if !valid || price.Missing? then Err(BadRequest)
    else Ok(c[newId := Product(name, StoredPrice(price))])
  }

  // ---------------------------------------------------------------- invoices

  /** One line as a client submits it; `others` stands for any further fields it carries. */
  datatype SubmittedLine = SubmittedLine(productId: ProductId, quantity: int, others: map<string, int>)

  /** The `products.map(p => ({productId, quantity}))` of invoice create and update. */
  function CopyLines(s: seq<SubmittedLine>): (r: seq<LineItem>)
    ensures |r| == |s|
    ensures forall i :: 0 <= i < |s| ==> r[i].productId == s[i].productId && r[i].quantity == s[i].quantity
  {
    if s == [] then [] else [LineItem(s[0].productId, s[0].quantity)] + CopyLines(s[1..])
  }

  /** Two submissions that agree on product and quantity line by line store the same lines. */
  lemma CopyLinesDropsOthers(s: seq<SubmittedLine>, t: seq<SubmittedLine>)
    requires |s| == |t|
    requires forall i :: 0 <= i < |s| ==> s[i].productId == t[i].productId && s[i].quantity == t[i].quantity
    ensures CopyLines(s) == CopyLines(t)
  {
  }

  datatype CreateBody = CreateBody(
    customer: string,
    tanggalTerima: Option<Date>,
    tanggalSelesai: Option<Date>,
    downPayment: int,
    products: seq<SubmittedLine>)

  /** Every field of an update request is optional. */
  datatype UpdateBody = UpdateBody(
    customer: Option<string>,
    tanggalTerima: Option<Date>,
    tanggalSelesai: Option<Date>,
    downPayment: Option<int>,
    products: Option<seq<SubmittedLine>>)

  /** A written store together with the document the handler answers with. */
  datatype Saved = Saved(store: InvoiceStore, invoice: Invoice)

  /**
   * POST /invoices: the new document holds the submitted header fields, the
   * copied lines, and no grand total.
   */
  function CreateInvoice(store: InvoiceStore, newId: InvoiceId, valid: bool, body: CreateBody): (r: Result<Saved>)
    requires newId !in store
    ensures r.Ok? <==> valid
    ensures !valid ==> r == Err(BadRequest)
    ensures r.Ok? ==> r.value.store == store[newId := r.value.invoice]
    ensures r.Ok? ==> var inv := r.value.invoice;
      && inv.customer == body.customer
      && inv.tanggalTerima == body.tanggalTerima
      && inv.tanggalSelesai == body.tanggalSelesai
      && inv.downPayment == body.downPayment
      && |inv.products| == |body.products|
      && (forall i :: 0 <= i < |inv.products| ==>
            inv.products[i] == LineItem(body.products[i].productId, body.products[i].quantity))
      && inv.grandPrice == None
  {
    if !valid then Err(BadRequest)
    else
      var inv := Invoice(body.customer, body.tanggalTerima, body.tanggalSelesai, body.downPayment,
                         CopyLines(body.products), None);
      Ok(Saved(store[newId := inv], inv))
  }

  /**
   * PUT /invoices/:id. The lines are copied before the store is touched, so
   * a request without `products` fails with 500 whether or not the invoice
   * exists. Absent header fields keep their stored values; `products` is
   * replaced wholesale; the stored grand total is left as it was.
   */
  function UpdateInvoice(store: InvoiceStore, id: InvoiceId, valid: bool, body: UpdateBody): (r: Result<Saved>)
    ensures r.Ok? <==> valid && body.products.Some? && id in store
    ensures !valid ==> r == Err(BadRequest)
    ensures valid && body.products.None? ==> r == Err(InternalError)
    ensures valid && body.products.Some? && id !in store ==> r == Err(NotFound)
    ensures r.Ok? ==> r.value.store == store[id := r.value.invoice]
    ensures r.Ok? ==> var inv, was := r.value.invoice, store[id];
      && inv.customer == body.customer.GetOr(was.customer)
      && inv.tanggalTerima == (if body.tanggalTerima.Some? then body.tanggalTerima else was.tanggalTerima)
      && inv.tanggalSelesai == (if body.tanggalSelesai.Some? then body.tanggalSelesai else was.tanggalSelesai)
      && inv.downPayment == body.downPayment.GetOr(was.downPayment)
      && |inv.products| == |body.products.value|
      && (forall i :: 0 <= i < |inv.products| ==>
            inv.products[i] == LineItem(body.products.value[i].productId, body.products.value[i].quantity))
      && inv.grandPrice == was.grandPrice
  {
    if !valid then Err(BadRequest)
    else match body.products
      case None => Err(InternalError)
      case Some(submitted) =>
        var lines := CopyLines(submitted);
        if id !in store then Err(NotFound)
        else
          var was := store[id];
          var inv := Invoice(
            body.customer.GetOr(was.customer),
            if body.tanggalTerima.Some? then body.tanggalTerima else was.tanggalTerima,
            if body.tanggalSelesai.Some? then body.tanggalSelesai else was.tanggalSelesai,
            body.downPayment.GetOr(was.downPayment),
            lines,
            was.grandPrice);
          Ok(Saved(store[id := inv], inv))
  }

  // ---------------------------------------------------------------- reads

  /**
   * An invoice as the read routes answer with it: the stored header fields,
   * the resolved lines in place of the stored ones, and the computed total
   * in place of the stored one.
   */
  datatype InvoiceView = InvoiceView(
    customer: string,
    tanggalTerima: Option<Date>,
    tanggalSelesai: Option<Date>,
    downPayment: int,
    products: seq<ResolvedLine>,
    grandPrice: int)

  /**
   * The aggregation the two read routes share. It fails with 500 exactly
   * when some line's product is gone; otherwise every line is resolved in
   * order against the current catalog and the total is their catalog total.
   */
  function ReadInvoice(c: Catalog, inv: Invoice): (r: Result<InvoiceView>)
    ensures r.Ok? <==> AllResolvable(c, inv.products)
    ensures r.Err? ==> r.failure == InternalError
    ensures r.Ok? ==> var v := r.value;
      && v.customer == inv.customer
      && v.tanggalTerima == inv.tanggalTerima
      && v.tanggalSelesai == inv.tanggalSelesai
      && v.downPayment == inv.downPayment
      && |v.products| == |inv.products|
      && (forall i :: 0 <= i < |inv.products| ==> Resolves(c, inv.products[i], v.products[i]))
      && v.grandPrice == Sum(v.products)
      && v.grandPrice == ItemsTotal(c, inv.products)
  {
    match ResolveLines(c, inv.products)
    case None => Err(InternalError)
    case Some(lines) =>
      GrandPriceOfResolved(c, inv.products);
      Ok(InvoiceView(inv.customer, inv.tanggalTerima, inv.tanggalSelesai, inv.downPayment,
                     lines, GrandPrice(lines)))
  }

  /** GET /invoices/:id: 400 on a rejected id, 404 on an unknown one, else the shared aggregation. */
  function GetInvoice(c: Catalog, store: InvoiceStore, id: InvoiceId, valid: bool): (r: Result<InvoiceView>)
    ensures !valid ==> r == Err(BadRequest)
    ensures valid && id !in store ==> r == Err(NotFound)
    ensures valid && id in store ==> r == ReadInvoice(c, store[id])
  {
    if !valid then Err(BadRequest)
    else if id !in store then Err(NotFound)
    else ReadInvoice(c, store[id])
  }

  /** `ids` lists every key of `keys` exactly once. */
  predicate Enumerates(keys: set<InvoiceId>, ids: seq<InvoiceId>) {
    && (forall i :: 0 <= i < |ids| ==> ids[i] in keys)
    && (forall k :: k in keys ==> k in ids)
    && (forall i, j :: 0 <= i < j < |ids| ==> ids[i] != ids[j])
  }

  /** An enumeration of a set is as long as the set is large. */
  lemma {:induction false} EnumerationSize(keys: set<InvoiceId>, ids: seq<InvoiceId>)
    requires Enumerates(keys, ids)
    ensures |ids| == |keys|
  {
    if ids != [] {
      var rest := keys - {ids[0]};
      forall k | k in rest ensures k in ids[1..] {
        var i :| 0 <= i < |ids| && ids[i] == k;
        assert i != 0;
        assert ids[1..][i - 1] == k;
      }
      forall i | 0 <= i < |ids[1..]| ensures ids[1..][i] in rest {
        assert ids[1..][i] == ids[i + 1] != ids[0];
      }
      EnumerationSize(rest, ids[1..]);
    }
  }

  /** The shared aggregation over the invoices `ids` names, all or nothing. */
  function ReadAll(c: Catalog, store: InvoiceStore, ids: seq<InvoiceId>): (r: Result<seq<InvoiceView>>)
    requires forall i :: 0 <= i < |ids| ==> ids[i] in store
    ensures r.Ok? <==> forall i :: 0 <= i < |ids| ==> GetInvoice(c, store, ids[i], true).Ok?
    ensures r.Err? ==> r.failure == InternalError
    ensures r.Ok? ==> |r.value| == |ids|
    ensures r.Ok? ==> forall i :: 0 <= i < |ids| ==> GetInvoice(c, store, ids[i], true) == Ok(r.value[i])
  {
    if ids == [] then Ok([])
    else
      var rest := ReadAll(c, store, ids[1..]);
      assert (forall i :: 0 <= i < |ids| ==> GetInvoice(c, store, ids[i], true).Ok?) <==>
             GetInvoice(c, store, ids[0], true).Ok? &&
             (forall i :: 0 <= i < |ids[1..]| ==> GetInvoice(c, store, ids[1..][i], true).Ok?) by {
        forall i | 0 < i < |ids| ensures ids[i] == ids[1..][i - 1] { }
      }
      match (ReadInvoice(c, store[ids[0]]), rest)
      case (Ok(v), Ok(vs)) => Ok([v] + vs)
      case _ => Err(InternalError)
  }

  /**
   * GET /invoices over every stored invoice, in the order `ids` in which the
   * store returns them: one missing product anywhere fails the whole list
   * with 500; otherwise there is one element per stored invoice, and each
   * is what the single-invoice route answers for that id.
   */
  function ListInvoices(c: Catalog, store: InvoiceStore, ids: seq<InvoiceId>): (r: Result<seq<InvoiceView>>)
    requires Enumerates(store.Keys, ids)
    ensures r.Ok? <==> forall id :: id in store ==> GetInvoice(c, store, id, true).Ok?
    ensures r.Err? ==> r.failure == InternalError
    ensures r.Ok? ==> |r.value| == |ids| == |store|
    ensures r.Ok? ==> forall i :: 0 <= i < |ids| ==> GetInvoice(c, store, ids[i], true) == Ok(r.value[i])
  {
    EnumerationSize(store.Keys, ids);
    assert (forall id :: id in store ==> GetInvoice(c, store, id, true).Ok?) <==>
           (forall i :: 0 <= i < |ids| ==> GetInvoice(c, store, ids[i], true).Ok?) by {
      if forall i :: 0 <= i < |ids| ==> GetInvoice(c, store, ids[i], true).Ok? {
        forall id | id in store ensures GetInvoice(c, store, id, true).Ok? {
          var i :| 0 <= i < |ids| && ids[i] == id;
        }
      }
    }
    ReadAll(c, store, ids)
  }

  /** The read ignores the stored grand total: only the lines and the catalog decide it. */
  lemma ReadIgnoresStoredTotal(c: Catalog, inv: Invoice, g: Option<int>)
    ensures ReadInvoice(c, inv.(grandPrice := g)) == ReadInvoice(c, inv)
  {
  }

  /**
   * What a client submits besides product and quantity has no effect on any
   * later read: the total is the catalog total of the submitted pairs.
   */
  lemma CreatedInvoiceTotal(c: Catalog, store: InvoiceStore, newId: InvoiceId, body: CreateBody)
    requires newId !in store
    requires forall i :: 0 <= i < |body.products| ==> body.products[i].productId in c
    ensures CreateInvoice(store, newId, true, body).Ok?
    ensures var s := CreateInvoice(store, newId, true, body).value;
      GetInvoice(c, s.store, newId, true).Ok? &&
      GetInvoice(c, s.store, newId, true).value.grandPrice == ItemsTotal(c, s.invoice.products)
  {
  }

  /**
   * Deleting a product the invoice references makes every later read of it
   * fail with 500; the invoice itself is still in the store.
   */
  lemma DeletedProductFailsRead(c: Catalog, store: InvoiceStore, id: InvoiceId, gone: ProductId, k: nat)
    requires id in store
    requires k < |store[id].products| && store[id].products[k].productId == gone
    ensures GetInvoice(c - {gone}, store, id, true) == Err(InternalError)
  {
  }

  /** Deleting a product no line references leaves the read unchanged. */
  lemma UnreferencedDeleteKeepsRead(c: Catalog, inv: Invoice, gone: ProductId)
    requires forall i :: 0 <= i < |inv.products| ==> inv.products[i].productId != gone
    ensures ReadInvoice(c - {gone}, inv) == ReadInvoice(c, inv)
  {
    ResolveLinesLocal(c - {gone}, c, inv.products);
  }

  /**
   * Totals are recomputed on every read: a price edit in the catalog moves
   * the invoice's total by the price change times the units it orders,
   * without any write to the invoice.
   */
  lemma PriceEditMovesTotal(c: Catalog, inv: Invoice, pid: ProductId, p: Product)
    requires ReadInvoice(c, inv).Ok?
    requires pid in c
    ensures ReadInvoice(c[pid := p], inv).Ok?
    ensures ReadInvoice(c[pid := p], inv).value.grandPrice ==
            ReadInvoice(c, inv).value.grandPrice + (p.price - c[pid].price) * QuantityOf(inv.products, pid)
  {
    PriceEdit(c, inv.products, pid, p);
  }

  /** A stored grand total is never produced: no route writes one. */
  predicate NoStoredTotals(store: InvoiceStore) {
    forall id :: id in store ==> store[id].grandPrice.None?
  }

  /** Creating and updating invoices keep every stored grand total absent. */
  lemma WritesStoreNoTotal(store: InvoiceStore, id: InvoiceId, valid: bool, create: CreateBody, update: UpdateBody)
    requires NoStoredTotals(store)
    ensures id !in store && CreateInvoice(store, id, valid, create).Ok? ==>
              NoStoredTotals(CreateInvoice(store, id, valid, create).value.store)
    ensures UpdateInvoice(store, id, valid, update).Ok? ==>
              NoStoredTotals(UpdateInvoice(store, id, valid, update).value.store)
  {
  }
}
