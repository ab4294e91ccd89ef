/**
 * The invoice aggregation: every stored line is paired with the current
 * price of the product it references, its line total is price times
 * quantity, and the grand total is the left fold `sum + totalPrice` from 0.
 * A line whose product no longer exists makes the whole aggregation fail.
 */
module Aggregation {
  import opened Schemas

  /** A line as the read routes return it: the populated product, its price and the line total. */
  datatype ResolvedLine = ResolvedLine(
    productId: ProductId,
    product: Product,
    quantity: int,
    price: int,
    totalPrice: int)

  /** `l` is what `item` resolves to against catalog `c`. */
  predicate Resolves(c: Catalog, item: LineItem, l: ResolvedLine) {
    && item.productId in c
    && l.productId == item.productId
    && l.product == c[item.productId]
    && l.quantity == item.quantity
    && l.price == c[item.productId].price
    && l.totalPrice == l.price * l.quantity
  }

  /** Every line of `items` references a product that is still in the catalog. */
  predicate AllResolvable(c: Catalog, items: seq<LineItem>) {
    forall i :: 0 <= i < |items| ==> items[i].productId in c
  }

  /** Resolves one line; a deleted product (a null populated reference) yields `None`. */
  function ResolveLine(c: Catalog, item: LineItem): (r: Option<ResolvedLine>)
    ensures r.Some? <==> item.productId in c
    ensures r.Some? ==> Resolves(c, item, r.value)
  {
    match Lookup(c, item.productId)
    case None => None
    case Some(p) => Some(ResolvedLine(item.productId, p, item.quantity, p.price, p.price * item.quantity))
  }

  /**
   * The `products.map(...)` of the read routes: all or nothing, because the
   * first unresolved line throws out of the whole map.
   */
  function ResolveLines(c: Catalog, items: seq<LineItem>): (r: Option<seq<ResolvedLine>>)
    ensures r.Some? <==> AllResolvable(c, items)
    ensures r.Some? ==> |r.value| == |items|
    ensures r.Some? ==> forall i :: 0 <= i < |items| ==> Resolves(c, items[i], r.value[i])
  {
    if items == [] then Some([])
    else
      var rest := ResolveLines(c, items[1..]);
      assert rest.Some? <==> AllResolvable(c, items[1..]);
      assert AllResolvable(c, items) <==> items[0].productId in c && AllResolvable(c, items[1..]) by {
        if items[0].productId in c && AllResolvable(c, items[1..]) {
          forall i | 0 <= i < |items| ensures items[i].productId in c {
            if i > 0 { assert items[i] == items[1..][i - 1]; }
          }
        }
      }
      match (ResolveLine(c, items[0]), rest)
      case (Some(l), Some(ls)) => Some([l] + ls)
      case _ => None
  }

  /** Reference definition: the sum of the line totals, taken from the right end. */
  function Sum(lines: seq<ResolvedLine>): int {
    if lines == [] then 0 else Sum(lines[..|lines| - 1]) + lines[|lines| - 1].totalPrice
  }

  /** The reference sum, peeled from the left end instead. */
  lemma {:induction false} SumCons(lines: seq<ResolvedLine>)
    requires lines != []
    ensures Sum(lines) == lines[0].totalPrice + Sum(lines[1..])
  {
    var n := |lines|;
    if n == 1 {
      assert lines[..0] == [] && lines[1..] == [];
    } else {
      SumCons(lines[..n - 1]);
      assert lines[..n - 1][1..] == lines[1..][..n - 2];
      assert lines[1..][n - 2] == lines[n - 1];
    }
  }

  /**
   * `reduce((sum, p) => sum + p.totalPrice, acc)`, folding from the left:
   * the start value plus the sum of the line totals.
   */
  function Reduce(lines: seq<ResolvedLine>, acc: int): (r: int)
    ensures r == acc + Sum(lines)
  {
    if lines == [] then acc
    else
      SumCons(lines);
      Reduce(lines[1..], acc + lines[0].totalPrice)
  }

  /** The grand total of the read routes: the fold started at 0 is the sum of the line totals. */
  function GrandPrice(lines: seq<ResolvedLine>): (r: int)
    ensures r == Sum(lines)
    ensures lines == [] ==> r == 0
  {
    Reduce(lines, 0)
  }

  /** The grand total straight from the catalog: the sum of current price times quantity. */
  function ItemsTotal(c: Catalog, items: seq<LineItem>): int
    requires AllResolvable(c, items)
  {
    if items == [] then 0
    else c[items[0].productId].price * items[0].quantity + ItemsTotal(c, items[1..])
  }

  /** How many units of product `id` the lines order in total. */
  function QuantityOf(items: seq<LineItem>, id: ProductId): int {
    if items == [] then 0
    else (if items[0].productId == id then items[0].quantity else 0) + QuantityOf(items[1..], id)
  }

  /** Folding a concatenation folds the first part, then the second from there. */
  lemma {:induction false} ReduceConcat(a: seq<ResolvedLine>, b: seq<ResolvedLine>, acc: int)
    ensures Reduce(a + b, acc) == Reduce(b, Reduce(a, acc))
  {
    if a != [] {
      assert (a + b)[1..] == a[1..] + b;
      ReduceConcat(a[1..], b, acc + a[0].totalPrice);
    } else {
      assert a + b == b;
    }
  }

  /** An invoice with no lines totals 0; appending a line adds exactly its total. */
  lemma GrandPriceAppend(lines: seq<ResolvedLine>, l: ResolvedLine)
    ensures GrandPrice([]) == 0
    ensures GrandPrice(lines + [l]) == GrandPrice(lines) + l.totalPrice
  {
    assert (lines + [l])[..|lines|] == lines;
  }

  /** The total over two runs of lines is the sum of their totals. */
  lemma GrandPriceConcat(a: seq<ResolvedLine>, b: seq<ResolvedLine>)
    ensures GrandPrice(a + b) == GrandPrice(a) + GrandPrice(b)
  {
    ReduceConcat(a, b, 0);
  }

  /** The grand total does not depend on the order of the lines. */
  lemma {:induction false} GrandPricePermutation(a: seq<ResolvedLine>, b: seq<ResolvedLine>)
    requires multiset(a) == multiset(b)
    ensures GrandPrice(a) == GrandPrice(b)
  {
    if a == [] {
      assert |b| == |multiset(b)| == 0;
    } else {
      var x := a[0];
      assert x in multiset(b);
      var k :| 0 <= k < |b| && b[k] == x;
      var b' := b[..k] + b[k + 1..];
      assert b == b[..k] + [x] + b[k + 1..];
      assert a == [x] + a[1..];
      assert multiset(b) == multiset(b[..k]) + multiset{x} + multiset(b[k + 1..]);
      assert multiset(a) == multiset{x} + multiset(a[1..]);
      assert multiset(b') == multiset(b[..k]) + multiset(b[k + 1..]);
      assert multiset(a[1..]) == multiset(a) - multiset{x};
      assert multiset(b') == multiset(b) - multiset{x};
      GrandPricePermutation(a[1..], b');
      GrandPriceConcat([x], a[1..]);
      GrandPriceConcat(b[..k] + [x], b[k + 1..]);
      GrandPriceConcat(b[..k], [x]);
      GrandPriceConcat(b[..k], b[k + 1..]);
    }
  }

  /** What the read routes report as `grandPrice` is the catalog total of the stored lines. */
  lemma {:induction false} GrandPriceOfResolved(c: Catalog, items: seq<LineItem>)
    requires AllResolvable(c, items)
    ensures ResolveLines(c, items).Some?
    ensures GrandPrice(ResolveLines(c, items).value) == ItemsTotal(c, items)
  {
    if items != [] {
      var lines := ResolveLines(c, items).value;
      assert AllResolvable(c, items[1..]) by {
        forall i | 0 <= i < |items[1..]| ensures items[1..][i].productId in c {
          assert items[1..][i] == items[i + 1];
        }
      }
      GrandPriceOfResolved(c, items[1..]);
      var rest := ResolveLines(c, items[1..]).value;
      assert lines == [lines[0]] + rest;
      GrandPriceConcat([lines[0]], rest);
      assert [lines[0]][1..] == [];
      assert Reduce([lines[0]], 0) == Reduce([], lines[0].totalPrice);
      assert Resolves(c, items[0], lines[0]);
    }
  }

  /**
   * Resolution only looks at the products the lines reference: two catalogs
   * that agree on those give the same result.
   */
  lemma {:induction false} ResolveLinesLocal(c: Catalog, c': Catalog, items: seq<LineItem>)
    requires forall i :: 0 <= i < |items| ==> Lookup(c, items[i].productId) == Lookup(c', items[i].productId)
    ensures ResolveLines(c, items) == ResolveLines(c', items)
  {
    if items != [] {
      assert Lookup(c, items[0].productId) == Lookup(c', items[0].productId);
      assert ResolveLine(c, items[0]) == ResolveLine(c', items[0]);
      forall i | 0 <= i < |items[1..]|
        ensures Lookup(c, items[1..][i].productId) == Lookup(c', items[1..][i].productId)
      {
        assert items[1..][i] == items[i + 1];
      }
      ResolveLinesLocal(c, c', items[1..]);
    }
  }

  /**
   * Totals are live: changing the price of one product moves the catalog
   * total by the price difference times the units of it the lines order.
   */
  lemma {:induction false} PriceEdit(c: Catalog, items: seq<LineItem>, id: ProductId, p: Product)
    requires AllResolvable(c, items)
    requires id in c
    ensures AllResolvable(c[id := p], items)
    ensures ItemsTotal(c[id := p], items) == ItemsTotal(c, items) + (p.price - c[id].price) * QuantityOf(items, id)
  {
    if items != [] {
      var c' := c[id := p];
      assert AllResolvable(c, items[1..]) by {
        forall i | 0 <= i < |items[1..]| ensures items[1..][i].productId in c {
          assert items[1..][i] == items[i + 1];
        }
      }
      PriceEdit(c, items[1..], id, p);
      var q := items[0].quantity;
      var d := p.price - c[id].price;
      if items[0].productId == id {
        assert c'[id].price * q == c[id].price * q + d * q by {
          assert c'[id].price == c[id].price + d;
        }
        assert d * (q + QuantityOf(items[1..], id)) == d * q + d * QuantityOf(items[1..], id);
      }
    }
  }
}
