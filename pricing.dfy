/**
 * The grouping step of the `/api/pricing` handler: a flat list of
 * product/price rows (products LEFT JOIN prices) is folded, in row order,
 * into one entry per product carrying that product's prices.
 *
 * `Group` says declaratively what the result is; `GroupProducts` is the
 * handler's loop over a `Map`, proved to compute `Group`; the lemmas state
 * what `Group` guarantees.
 */
module Pricing {
  import opened Wrappers
  import opened Storage

  /** A price as listed under its product. */
  datatype PriceEntry = PriceEntry(
    id: string, unitAmount: Option<int>, currency: Option<string>, recurring: Option<string>)

  /** A product as listed in the response, with its prices. */
  datatype ProductPlan = ProductPlan(
    id: string, name: string, description: Option<string>, metadata: string, prices: seq<PriceEntry>)

  /** `if (row.price_id)`: the row carries a price (the join found one and its id is non-empty). */
  predicate HasPrice(row: ProductPriceRow)
  {
    row.priceId.Some? && row.priceId.value != ""
  }

  function PriceOf(row: ProductPriceRow): PriceEntry
    requires HasPrice(row)
  {
    PriceEntry(row.priceId.value, row.unitAmount, row.currency, row.recurring)
  }

  /** A product entry built from one of its rows, before any price is attached. */
  function Shell(row: ProductPriceRow): ProductPlan
  {
    ProductPlan(row.productId, row.productName, row.productDescription, row.productMetadata, [])
  }

  /** The product ids of `rows`, each once, in order of first appearance. */
  function ProductIds(rows: seq<ProductPriceRow>): seq<string>
  {
    if rows == [] then []
    else
      var ids := ProductIds(rows[..|rows| - 1]);
      var k := rows[|rows| - 1].productId;
      if k in ids then ids else ids + [k]
  }

  /** The prices of the rows of product `k` that carry a price, in row order. */
  function PricesFor(rows: seq<ProductPriceRow>, k: string): seq<PriceEntry>
  {
    if rows == [] then []
    else
      var last := rows[|rows| - 1];
      PricesFor(rows[..|rows| - 1], k) + (if last.productId == k && HasPrice(last) then [PriceOf(last)] else [])
  }

  /** A product id is listed exactly when some row has it. */
  lemma {:induction false} ProductIdsCover(rows: seq<ProductPriceRow>, k: string)
    ensures k in ProductIds(rows) <==> exists i :: 0 <= i < |rows| && rows[i].productId == k
  {
    if rows != [] {
      var init := rows[..|rows| - 1];
      ProductIdsCover(init, k);
      if k in ProductIds(init) {
        var i :| 0 <= i < |init| && init[i].productId == k;
        assert rows[i] == init[i];
      }
      if exists i :: 0 <= i < |rows| && rows[i].productId == k {
        var i :| 0 <= i < |rows| && rows[i].productId == k;
        if i < |init| {
          assert init[i] == rows[i];
        }
      }
    }
  }

  /** The position of the first row of product `k`. */
  function FirstPos(rows: seq<ProductPriceRow>, k: string): (p: nat)
    requires k in ProductIds(rows)
    ensures p < |rows| && rows[p].productId == k
    ensures forall q :: 0 <= q < p ==> rows[q].productId != k
    decreases |rows|
  {
    var init := rows[..|rows| - 1];
    if k in ProductIds(init) then
      var p := FirstPos(init, k);
      assert forall q :: 0 <= q <= p ==> rows[q] == init[q];
      p
    else
      ProductIdsCover(init, k);
      assert forall q :: 0 <= q < |init| ==> rows[q] == init[q];
      |rows| - 1
  }

  /** The entry for product `k`: its name, description and metadata from its first row, and its prices. */
  function PlanFor(rows: seq<ProductPriceRow>, k: string): (r: ProductPlan)
    requires k in ProductIds(rows)
    ensures r.id == k
  {
    Shell(rows[FirstPos(rows, k)]).(prices := PricesFor(rows, k))
  }

  /** The grouped products: one entry per product id, in order of first appearance. */
  function Group(rows: seq<ProductPriceRow>): (r: seq<ProductPlan>)
    ensures |r| == |ProductIds(rows)|
    ensures forall i :: 0 <= i < |r| ==> r[i].id == ProductIds(rows)[i] && r[i].prices == PricesFor(rows, r[i].id)
  {
    var ids := ProductIds(rows);
    seq(|ids|, i requires 0 <= i < |ids| => PlanFor(rows, ids[i]))
  }

  // ---------------------------------------------------------------------------
  // What the grouping guarantees.

  /** No product id is listed twice. */
  lemma {:induction false} ProductIdsDistinct(rows: seq<ProductPriceRow>)
    ensures forall i, j :: 0 <= i < j < |ProductIds(rows)| ==> ProductIds(rows)[i] != ProductIds(rows)[j]
  {
    if rows != [] {
      ProductIdsDistinct(rows[..|rows| - 1]);
    }
  }

  /** Products are listed in the order in which their first rows appear. */
  lemma {:induction false} ProductIdsInFirstAppearanceOrder(rows: seq<ProductPriceRow>, i: nat, j: nat)
    requires i < j < |ProductIds(rows)|
    ensures FirstPos(rows, ProductIds(rows)[i]) < FirstPos(rows, ProductIds(rows)[j])
  {
    var init := rows[..|rows| - 1];
    var ids, ids0 := ProductIds(rows), ProductIds(init);
    if ids == ids0 {
      ProductIdsInFirstAppearanceOrder(init, i, j);
    } else {
      assert ids == ids0 + [rows[|rows| - 1].productId];
      if j < |ids0| {
        ProductIdsInFirstAppearanceOrder(init, i, j);
      } else {
        assert ids[i] == ids0[i] && ids[i] in ids0;
        assert FirstPos(rows, ids[i]) == FirstPos(init, ids[i]);
        assert FirstPos(rows, ids[j]) == |rows| - 1;
      }
    }
  }

  /** No product is listed twice. */
  lemma GroupIdsDistinct(rows: seq<ProductPriceRow>)
    ensures forall p, q :: 0 <= p < q < |Group(rows)| ==> Group(rows)[p].id != Group(rows)[q].id
  {
    ProductIdsDistinct(rows);
  }

  /** A product is listed exactly when some row has it. */
  lemma GroupListsProduct(rows: seq<ProductPriceRow>, k: string)
    ensures (exists i :: 0 <= i < |rows| && rows[i].productId == k)
        <==> (exists p :: 0 <= p < |Group(rows)| && Group(rows)[p].id == k)
  {
    var ids, g := ProductIds(rows), Group(rows);
    ProductIdsCover(rows, k);
    if k in ids {
      var p :| 0 <= p < |ids| && ids[p] == k;
      assert g[p].id == k;
    }
  }

  /** With no rows for `k`, there are no prices for `k`. */
  lemma {:induction false} PricesForAbsent(rows: seq<ProductPriceRow>, k: string)
    requires k !in ProductIds(rows)
    ensures PricesFor(rows, k) == []
  {
    if rows != [] {
      PricesForAbsent(rows[..|rows| - 1], k);
    }
  }

  /**
   * The prices of product `k` are exactly the rows of `k` that carry a price,
   * in row order: `idx` lists those rows' positions, increasing.
   */
  lemma {:induction false} PricesForAreTheProductsPricedRows(rows: seq<ProductPriceRow>, k: string)
    returns (idx: seq<nat>)
    ensures |idx| == |PricesFor(rows, k)|
    ensures forall m, n :: 0 <= m < n < |idx| ==> idx[m] < idx[n]
    ensures forall m :: 0 <= m < |idx| ==>
              idx[m] < |rows| && rows[idx[m]].productId == k && HasPrice(rows[idx[m]])
              && PricesFor(rows, k)[m] == PriceOf(rows[idx[m]])
    ensures forall i :: 0 <= i < |rows| && rows[i].productId == k && HasPrice(rows[i]) ==> i in idx
  {
    if rows == [] {
      idx := [];
    } else {
      var init := rows[..|rows| - 1];
      var last := rows[|rows| - 1];
      var idx0 := PricesForAreTheProductsPricedRows(init, k);
      assert forall i :: 0 <= i < |init| ==> rows[i] == init[i];
      if last.productId == k && HasPrice(last) {
        idx := idx0 + [|rows| - 1];
      } else {
        idx := idx0;
      }
    }
  }

  /** With no priced rows for `k`, there are no prices for `k`. */
  lemma {:induction false} PricesForUnpriced(rows: seq<ProductPriceRow>, k: string)
    requires forall i :: 0 <= i < |rows| && rows[i].productId == k ==> !HasPrice(rows[i])
    ensures PricesFor(rows, k) == []
  {
    if rows != [] {
      var init := rows[..|rows| - 1];
      assert forall i :: 0 <= i < |init| ==> init[i] == rows[i];
      PricesForUnpriced(init, k);
    }
  }

  /** A product whose rows carry no price is still listed, with an empty price list. */
  lemma ProductWithoutPricesListed(rows: seq<ProductPriceRow>, k: string)
    requires exists i :: 0 <= i < |rows| && rows[i].productId == k
    requires forall i :: 0 <= i < |rows| && rows[i].productId == k ==> !HasPrice(rows[i])
    ensures exists p :: 0 <= p < |Group(rows)| && Group(rows)[p].id == k && Group(rows)[p].prices == []
  {
    ProductIdsCover(rows, k);
    PricesForUnpriced(rows, k);
    var ids := ProductIds(rows);
    var p :| 0 <= p < |ids| && ids[p] == k;
    assert Group(rows)[p] == PlanFor(rows, k);
  }

  // ---------------------------------------------------------------------------
  // Grouping a listing ordered by product id and unit amount.

  /** Under the listing's order, products come out in increasing id order. */
  lemma GroupedProductsAscending(rows: seq<ProductPriceRow>)
    requires ListingOrdered(rows)
    ensures forall p, q :: 0 <= p < q < |Group(rows)| ==> StrLt(Group(rows)[p].id, Group(rows)[q].id)
  {
    var ids, g := ProductIds(rows), Group(rows);
    ProductIdsDistinct(rows);
    forall p, q | 0 <= p < q < |g|
      ensures StrLt(g[p].id, g[q].id)
    {
      ProductIdsInFirstAppearanceOrder(rows, p, q);
      var a, b := FirstPos(rows, ids[p]), FirstPos(rows, ids[q]);
      assert RowLe(rows[a], rows[b]);
      assert ids[p] != ids[q];
    }
  }

  /** Under the listing's order, each product's prices come out in increasing unit amount, nulls last. */
  lemma GroupedPricesAscending(rows: seq<ProductPriceRow>)
    requires ListingOrdered(rows)
    ensures forall p :: 0 <= p < |Group(rows)| ==>
              forall m, n :: 0 <= m < n < |Group(rows)[p].prices| ==>
                AmountLe(Group(rows)[p].prices[m].unitAmount, Group(rows)[p].prices[n].unitAmount)
  {
    var ids, g := ProductIds(rows), Group(rows);
    forall p, m, n | 0 <= p < |g| && 0 <= m < n < |g[p].prices|
      ensures AmountLe(g[p].prices[m].unitAmount, g[p].prices[n].unitAmount)
    {
      var k := ids[p];
      assert g[p] == PlanFor(rows, k);
      var idx := PricesForAreTheProductsPricedRows(rows, k);
      assert RowLe(rows[idx[m]], rows[idx[n]]);
      StrLtIrreflexive(k);
    }
  }

  lemma {:induction false} StrLtIrreflexive(a: string)
    ensures !StrLt(a, a)
  {
    if a != [] {
      StrLtIrreflexive(a[1..]);
    }
  }

  /** Grouping a listing of active products lists only active products. */
  lemma GroupedProductIsActive(
    products: seq<StripeProduct>, prices: seq<StripePrice>, rows: seq<ProductPriceRow>, p: nat)
    requires IsProductPriceListing(products, prices, true, rows)
    requires p < |Group(rows)|
    ensures exists sp :: sp in products && sp.active && sp.id == Group(rows)[p].id
  {
    var ids := ProductIds(rows);
    var i := FirstPos(rows, ids[p]);
    assert DrawnFrom(products, prices, true, rows[i]);
  }

  /** Each listed price is an active price of the product it is listed under. */
  lemma GroupedPriceIsActive(
    products: seq<StripeProduct>, prices: seq<StripePrice>, rows: seq<ProductPriceRow>, p: nat, m: nat)
    requires IsProductPriceListing(products, prices, true, rows)
    requires p < |Group(rows)| && m < |Group(rows)[p].prices|
    ensures exists pr :: pr in prices && pr.active && pr.product == Group(rows)[p].id
                         && pr.id == Group(rows)[p].prices[m].id
  {
    var k := ProductIds(rows)[p];
    assert Group(rows)[p] == PlanFor(rows, k);
    var idx := PricesForAreTheProductsPricedRows(rows, k);
    var row := rows[idx[m]];
    assert DrawnFrom(products, prices, true, row);
    var sp :| sp in products && sp.active &&
      ((exists pr :: pr in prices && pr.product == sp.id && pr.active && row == JoinedRow(sp, Some(pr)))
       || (!HasActivePrice(prices, sp.id) && row == JoinedRow(sp, None)));
    var pr :| pr in prices && pr.product == sp.id && pr.active && row == JoinedRow(sp, Some(pr));
    assert pr.id == Group(rows)[p].prices[m].id;
  }

  /** Every active product is listed, whether or not it has an active price. */
  lemma ActiveProductGrouped(
    products: seq<StripeProduct>, prices: seq<StripePrice>, rows: seq<ProductPriceRow>, sp: StripeProduct)
    requires IsProductPriceListing(products, prices, true, rows)
    requires sp in products && sp.active
    ensures exists p :: 0 <= p < |Group(rows)| && Group(rows)[p].id == sp.id
  {
    var row: ProductPriceRow;
    if HasActivePrice(prices, sp.id) {
      var pr :| pr in prices && pr.product == sp.id && pr.active;
      row := JoinedRow(sp, Some(pr));
    } else {
      row := JoinedRow(sp, None);
    }
    assert row in rows;
    var i :| 0 <= i < |rows| && rows[i] == row;
    GroupListsProduct(rows, sp.id);
  }

  // ---------------------------------------------------------------------------
  // The handler's loop.

  /** One more row: how the ids and each entry of `rows + [x]` follow from those of `rows`. */
  lemma GroupStep(rows: seq<ProductPriceRow>, x: ProductPriceRow, k: string)
    ensures ProductIds(rows + [x]) ==
              if x.productId in ProductIds(rows) then ProductIds(rows) else ProductIds(rows) + [x.productId]
    ensures k in ProductIds(rows + [x]) <==> k in ProductIds(rows) || k == x.productId
    ensures k in ProductIds(rows + [x]) ==>
              PlanFor(rows + [x], k) ==
                var before := if k in ProductIds(rows) then PlanFor(rows, k) else Shell(x);
                before.(prices := before.prices + (if x.productId == k && HasPrice(x) then [PriceOf(x)] else []))
  {
    var t := rows + [x];
    assert t[..|t| - 1] == rows;
    if k in ProductIds(t) && k !in ProductIds(rows) {
      PricesForAbsent(rows, k);
    }
  }

  /**
   * The loop state after reading `prefix`: `order` holds the map's keys in
   * insertion order, and each key's entry is the product's grouped entry so far.
   */
  ghost predicate Tracks(prefix: seq<ProductPriceRow>, order: seq<string>, m: map<string, ProductPlan>)
  {
    && order == ProductIds(prefix)
    && (forall k :: k in m <==> k in order)
    && (forall k :: k in m ==> k in ProductIds(prefix) && m[k] == PlanFor(prefix, k))
  }

  /** The entry of `x`'s product once `x` is read, given the entry before (if any). */
  function Extend(before: Option<ProductPlan>, x: ProductPriceRow): ProductPlan
  {
    var e := if before.Some? then before.value else Shell(x);
    if HasPrice(x) then e.(prices := e.prices + [PriceOf(x)]) else e
  }

  /** One loop iteration keeps the loop state in step with the rows read. */
  lemma TracksStep(
    prefix: seq<ProductPriceRow>, x: ProductPriceRow,
    order: seq<string>, m: map<string, ProductPlan>,
    order': seq<string>, m': map<string, ProductPlan>)
    requires Tracks(prefix, order, m)
    requires order' == if x.productId in m then order else order + [x.productId]
    requires forall k :: k in m' <==> k in m || k == x.productId
    requires forall k :: k in m && k != x.productId ==> m'[k] == m[k]
    requires x.productId in m'
    requires m'[x.productId] == Extend(if x.productId in m then Some(m[x.productId]) else None, x)
    ensures Tracks(prefix + [x], order', m')
  {
    GroupStep(prefix, x, x.productId);
    forall k | k in m'
      ensures k in ProductIds(prefix + [x]) && m'[k] == PlanFor(prefix + [x], k)
    {
      GroupStep(prefix, x, k);
    }
  }

  /**
   * The loop of the pricing handler: for each row, create the product's
   * entry on its first row, then push the row's price if it has one.
   * The map's keys are kept in insertion order in `order`, as a
   * JavaScript `Map` iterates them.
   */
  method GroupProducts(rows: seq<ProductPriceRow>) returns (plans: seq<ProductPlan>)
    ensures plans == Group(rows)
  {
    var productsMap: map<string, ProductPlan> := map[];
    var order: seq<string> := [];
    var n := 0;
    while n < |rows|
      invariant 0 <= n <= |rows|
      invariant Tracks(rows[..n], order, productsMap)
    {
      var row := rows[n];
      ghost var order0, map0 := order, productsMap;
      if row.productId !in productsMap {
        productsMap := productsMap[row.productId := Shell(row)];
        order := order + [row.productId];
      }
      if HasPrice(row) {
        var entry := productsMap[row.productId];
        productsMap := productsMap[row.productId := entry.(prices := entry.prices + [PriceOf(row)])];
      }
      TracksStep(rows[..n], row, order0, map0, order, productsMap);
      assert rows[..n + 1] == rows[..n] + [row];
      n := n + 1;
    }
    assert rows[..n] == rows;
    plans := seq(|order|, i requires 0 <= i < |order| => productsMap[order[i]]);
  }
}
