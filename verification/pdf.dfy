/**
 * GET /generate-pdf/:id reduced to the numbers it prints: one table row per
 * stored line, numbered from 1, with unit price and row total, then the
 * sub total, the down payment and the balance due. Layout and rendering
 * are not modelled.
 */
module Pdf {
  import opened Schemas
  import opened Aggregation
  import opened Routes

  /** One table row: its number, the product's name, quantity, unit price and row total. */
  datatype Row = Row(no: int, name: string, quantity: int, price: int, total: int)

  /**
   * The printed figures. `None` in `subTotal` is a missing stored value,
   * printed as "undefined"; `None` in `balance` is the NaN of subtracting
   * from it.
   */
  datatype Document = Document(
    customer: string,
    tanggalTerima: Option<Date>,
    tanggalSelesai: Option<Date>,
    rows: seq<Row>,
    subTotal: Option<int>,
    downPayment: int,
    balance: Option<int>)

  /** The rows for `lines`, the first of them numbered `offset + 1`. */
  function Rows(lines: seq<ResolvedLine>, offset: nat): (r: seq<Row>)
    ensures |r| == |lines|
    ensures forall i :: 0 <= i < |lines| ==>
      r[i] == Row(offset + i + 1, lines[i].product.name, lines[i].quantity, lines[i].price,
                  lines[i].price * lines[i].quantity)
  {
    if lines == [] then []
    else
      var l := lines[0];
      [Row(offset + 1, l.product.name, l.quantity, l.price, l.price * l.quantity)] + Rows(lines[1..], offset + 1)
  }

  /** The sum of the row totals of a table. */
  function RowsTotal(rows: seq<Row>): int {
    if rows == [] then 0 else rows[0].total + RowsTotal(rows[1..])
  }

  /** Each row total is its line's total, so the table adds up to the grand total. */
  lemma {:induction false} RowsAddUpToGrandPrice(lines: seq<ResolvedLine>, offset: nat)
    requires forall i :: 0 <= i < |lines| ==> lines[i].totalPrice == lines[i].price * lines[i].quantity
    ensures RowsTotal(Rows(lines, offset)) == GrandPrice(lines)
  {
    if lines != [] {
      RowsAddUpToGrandPrice(lines[1..], offset + 1);
      assert lines == [lines[0]] + lines[1..];
      GrandPriceConcat([lines[0]], lines[1..]);
      assert [lines[0]][1..] == [];
      assert Reduce([lines[0]], 0) == Reduce([], lines[0].totalPrice);
    }
  }

  /** `grandPrice - downPayment`, not clamped at 0; NaN (`None`) when there is no grand total. */
  function Balance(grandPrice: Option<int>, downPayment: int): (r: Option<int>)
    ensures r.Some? <==> grandPrice.Some?
    ensures r.Some? ==> r.value + downPayment == grandPrice.value
    ensures r.Some? ==> (r.value < 0 <==> downPayment > grandPrice.value)
  {
    match grandPrice
    case None => None
    case Some(g) => Some(g - downPayment)
  }

  /**
   * The route as written: rows come from the populated lines (a deleted
   * product throws, answered with 500), but sub total and balance come
   * from the invoice's stored `grandPrice`.
   */
  function GeneratePdfAsWritten(c: Catalog, store: InvoiceStore, id: InvoiceId, valid: bool): (r: Result<Document>)
    ensures !valid ==> r == Err(BadRequest)
    ensures valid && id !in store ==> r == Err(NotFound)
    ensures valid && id in store ==> (r.Ok? <==> AllResolvable(c, store[id].products))
    ensures valid && id in store && r.Err? ==> r.failure == InternalError
    ensures r.Ok? ==> var inv, d := store[id], r.value;
      && d.customer == inv.customer
      && d.tanggalTerima == inv.tanggalTerima
      && d.tanggalSelesai == inv.tanggalSelesai
      && d.downPayment == inv.downPayment
      && |d.rows| == |inv.products|
      && (forall i :: 0 <= i < |d.rows| ==>
            var p := c[inv.products[i].productId];
            d.rows[i] == Row(i + 1, p.name, inv.products[i].quantity, p.price, p.price * inv.products[i].quantity))
      && d.subTotal == inv.grandPrice
      && d.balance == Balance(inv.grandPrice, inv.downPayment)
  {
    if !valid then Err(BadRequest)
    else if id !in store then Err(NotFound)
    else
      var inv := store[id];
      match ResolveLines(c, inv.products)
      case None => Err(InternalError)
      case Some(lines) =>
        Ok(Document(inv.customer, inv.tanggalTerima, inv.tanggalSelesai, Rows(lines, 0),
                    inv.grandPrice, inv.downPayment, Balance(inv.grandPrice, inv.downPayment)))
  }

  /**
   * The route as evidently intended: sub total and balance come from the
   * same aggregation as GET /invoices/:id, so the printed sub total is the
   * sum of the printed rows.
   */
  function GeneratePdf(c: Catalog, store: InvoiceStore, id: InvoiceId, valid: bool): (r: Result<Document>)
    ensures r.Err? <==> GetInvoice(c, store, id, valid).Err?
    ensures r.Err? ==> r.failure == GetInvoice(c, store, id, valid).failure
    ensures r.Ok? ==> var inv, d := store[id], r.value;
      && d.customer == inv.customer
      && d.tanggalTerima == inv.tanggalTerima
      && d.tanggalSelesai == inv.tanggalSelesai
      && d.downPayment == inv.downPayment
      && d.subTotal == Some(RowsTotal(d.rows))
      && d.balance == Some(RowsTotal(d.rows) - d.downPayment)
      && d.subTotal == Some(ItemsTotal(c, inv.products))
      && d.balance == Some(ItemsTotal(c, inv.products) - inv.downPayment)
      && GeneratePdfAsWritten(c, store, id, valid).Ok?
      && d.rows == GeneratePdfAsWritten(c, store, id, valid).value.rows
  {
    match GetInvoice(c, store, id, valid)
    case Err(f) => Err(f)
    case Ok(v) =>
      var rows := Rows(v.products, 0);
      RowsAddUpToGrandPrice(v.products, 0);
      Ok(Document(v.customer, v.tanggalTerima, v.tanggalSelesai, rows,
                  Some(v.grandPrice), v.downPayment, Some(v.grandPrice - v.downPayment)))
  }

  /**
   * As written, the PDF of any invoice that the routes stored prints no sub
   * total and a NaN balance, while its rows are all there.
   */
  lemma AsWrittenPdfHasNoTotal(c: Catalog, store: InvoiceStore, id: InvoiceId)
    requires NoStoredTotals(store)
    requires id in store && AllResolvable(c, store[id].products)
    ensures GeneratePdfAsWritten(c, store, id, true).Ok?
    ensures GeneratePdfAsWritten(c, store, id, true).value.subTotal.None?
    ensures GeneratePdfAsWritten(c, store, id, true).value.balance.None?
    ensures GeneratePdf(c, store, id, true).Ok?
  {
  }

  /**
   * The worked example: Widget at 100, an invoice for 3 of them with a down
   * payment of 20. The read gives 300, the corrected PDF a balance of 280,
   * the PDF as written no balance at all. After a price edit to 150 the same
   * invoice reads 450 with balance 430; after deleting Widget it reads 500.
   */
  lemma WidgetScenario()
    ensures var c := CreateProduct(map[], "w", true, "Widget", Given(100));
      var body := CreateBody("Acme", None, None, 20, [SubmittedLine("w", 3, map["price" := 1])]);
      var s := CreateInvoice(map[], "i", true, body);
      && c.Ok? && s.Ok?
      && GetInvoice(c.value, s.value.store, "i", true).Ok?
      && GetInvoice(c.value, s.value.store, "i", true).value.grandPrice == 300
      && GeneratePdf(c.value, s.value.store, "i", true).Ok?
      && GeneratePdf(c.value, s.value.store, "i", true).value.balance == Some(280)
      && GeneratePdfAsWritten(c.value, s.value.store, "i", true).value.balance == None
      && GetInvoice(c.value["w" := Product("Widget", 150)], s.value.store, "i", true).value.grandPrice == 450
      && GeneratePdf(c.value["w" := Product("Widget", 150)], s.value.store, "i", true).value.balance == Some(430)
      && GetInvoice(c.value - {"w"}, s.value.store, "i", true) == Err(InternalError)
  {
  }
}
