/**
 * The product store: the held `products` collection, its snapshot in device storage,
 * the create / update / delete operations that replace the collection, and the derived
 * queries (low stock, out of stock, search, category, inventory value).
 */
module Products {
  import opened Wrappers
  import opened Text
  import opened Seqs

  /** The alert threshold used when a product has none (or has 0). */
  const DEFAULT_LOW_STOCK_ALERT: int := 10

  datatype Product = Product(
    id: string,
    name: string,
    price: int,
    stock: int,
    category: string,
    description: string,
    lowStockAlert: Option<int>,
    barcode: Option<string>,
    createdAt: int,
    updatedAt: int)

  /** The fields a caller passes to `addProduct`; an `id` among them overrides the generated one. */
  datatype ProductData = ProductData(
    id: Option<string>,
    name: string,
    price: int,
    stock: int,
    category: string,
    description: string,
    lowStockAlert: Option<int>,
    barcode: Option<string>)

  /** The fields a caller passes to `updateProduct`: each present field replaces the stored one. */
  datatype ProductPatch = ProductPatch(
    id: Option<string>,
    name: Option<string>,
    price: Option<int>,
    stock: Option<int>,
    category: Option<string>,
    description: Option<string>,
    lowStockAlert: Option<int>,
    barcode: Option<string>,
    createdAt: Option<int>)

  /** `{stock: n}`, the patch `updateStock` sends. */
  function StockPatch(n: int): ProductPatch
  {
    ProductPatch(None, None, None, Some(n), None, None, None, None, None)
  }

  /** `{id: freshId, ...data, createdAt: now, updatedAt: now}`. */
  function Created(data: ProductData, freshId: string, now: int): (p: Product)
    ensures p.id == data.id.GetOr(freshId) && p.createdAt == now && p.updatedAt == now
    ensures p.name == data.name && p.price == data.price && p.stock == data.stock
    ensures p.category == data.category && p.description == data.description
    ensures p.lowStockAlert == data.lowStockAlert && p.barcode == data.barcode
  {
    Product(data.id.GetOr(freshId), data.name, data.price, data.stock, data.category,
            data.description, data.lowStockAlert, data.barcode, now, now)
  }

  /** `{...p, ...patch, updatedAt: now}`. */
  function Merge(p: Product, patch: ProductPatch, now: int): Product
  {
    Product(
      patch.id.GetOr(p.id), patch.name.GetOr(p.name), patch.price.GetOr(p.price),
      patch.stock.GetOr(p.stock), patch.category.GetOr(p.category),
      patch.description.GetOr(p.description),
      if patch.lowStockAlert.Some? then patch.lowStockAlert else p.lowStockAlert,
      if patch.barcode.Some? then patch.barcode else p.barcode,
      patch.createdAt.GetOr(p.createdAt), now)
  }

  /** A stock patch changes the stock and the update time and leaves every other field as it was. */
  lemma MergeStockOnly(p: Product, n: int, now: int)
    ensures Merge(p, StockPatch(n), now) == p.(stock := n, updatedAt := now)
  {
  }

  /** `products.map(p => p.id === id ? Merge(p, patch, now) : p)`. */
  function UpdateWhere(ps: seq<Product>, id: string, patch: ProductPatch, now: int): (r: seq<Product>)
    ensures |r| == |ps|
    ensures forall i :: 0 <= i < |ps| ==> r[i] == if ps[i].id == id then Merge(ps[i], patch, now) else ps[i]
  {
    if ps == [] then []
    else [if ps[0].id == id then Merge(ps[0], patch, now) else ps[0]] + UpdateWhere(ps[1..], id, patch, now)
  }

  /** The index of the first product with that id, or `|ps|` when there is none. */
  function FirstIndex(ps: seq<Product>, id: string): (i: nat)
    ensures i <= |ps|
    ensures forall j :: 0 <= j < i ==> ps[j].id != id
    ensures i < |ps| ==> ps[i].id == id
  {
    if ps == [] then 0 else if ps[0].id == id then 0 else 1 + FirstIndex(ps[1..], id)
  }

  /** `products.find(p => p.id === id)`: the first product with that id, if any. */
  function Find(ps: seq<Product>, id: string): (r: Option<Product>)
    ensures r.None? <==> forall p :: p in ps ==> p.id != id
    ensures r.Some? ==> r.value.id == id && r.value == ps[FirstIndex(ps, id)]
  {
    var i := FirstIndex(ps, id);
    if i < |ps| then Some(ps[i]) else None
  }

  /** Updating an id no product carries leaves the collection as it was, and finds nothing. */
  lemma UpdateUnknownIsNoop(ps: seq<Product>, id: string, patch: ProductPatch, now: int)
    requires forall p :: p in ps ==> p.id != id
    ensures UpdateWhere(ps, id, patch, now) == ps
    ensures Find(UpdateWhere(ps, id, patch, now), id).None?
  {
    assert forall i :: 0 <= i < |ps| ==> ps[i] in ps;
  }

  /** A known id whose patch keeps the id: the returned product is the first match, merged. */
  lemma UpdateFindsMerged(ps: seq<Product>, id: string, patch: ProductPatch, now: int)
    requires exists p :: p in ps && p.id == id
    requires patch.id.None?
    ensures Find(UpdateWhere(ps, id, patch, now), id) == Some(Merge(Find(ps, id).value, patch, now))
  {
    var i := FirstIndex(ps, id);
    var r := UpdateWhere(ps, id, patch, now);
    assert r[i] == Merge(ps[i], patch, now);
    assert forall j :: 0 <= j < i ==> r[j] == ps[j];
    FirstIndexIs(r, id, i);
  }

  /** The first index is the position of a match before which no product has the id. */
  lemma {:induction false} FirstIndexIs(ps: seq<Product>, id: string, k: int)
    requires 0 <= k < |ps| && ps[k].id == id
    requires forall j :: 0 <= j < k ==> ps[j].id != id
    ensures FirstIndex(ps, id) == k
  {
    if k > 0 {
      assert ps[0].id != id;
      assert forall j :: 0 <= j < k - 1 ==> ps[1..][j] == ps[j + 1];
      FirstIndexIs(ps[1..], id, k - 1);
    }
  }

  predicate HasOtherId(id: string, p: Product)
  {
    p.id != id
  }

  /** `products.filter(p => p.id !== id)`. */
  function WithoutId(ps: seq<Product>, id: string): (r: seq<Product>)
    ensures forall p :: p in r <==> p in ps && p.id != id
  {
    Filter(p => HasOtherId(id, p), ps)
  }

  /** Deleting an id that is absent changes nothing, so deleting twice is deleting once. */
  lemma DeleteIdempotent(ps: seq<Product>, id: string)
    ensures (forall p :: p in ps ==> p.id != id) ==> WithoutId(ps, id) == ps
    ensures WithoutId(WithoutId(ps, id), id) == WithoutId(ps, id)
  {
    if forall p :: p in ps ==> p.id != id {
      FilterKeepsAll(p => HasOtherId(id, p), ps);
    }
    FilterIdempotent(p => HasOtherId(id, p), ps);
  }

  /** Deletion keeps the other products in their order: it distributes over concatenation. */
  lemma DeleteKeepsOrder(a: seq<Product>, b: seq<Product>, id: string)
    ensures WithoutId(a + b, id) == WithoutId(a, id) + WithoutId(b, id)
  {
    FilterConcat(p => HasOtherId(id, p), a, b);
  }

  /** `product.lowStockAlert || 10`: a missing or zero alert means the default. */
  function Threshold(p: Product): (t: int)
    ensures p.lowStockAlert.Some? && p.lowStockAlert.value != 0 ==> t == p.lowStockAlert.value
    ensures p.lowStockAlert.None? || p.lowStockAlert.value == 0 ==> t == DEFAULT_LOW_STOCK_ALERT
  {
    match p.lowStockAlert
    case Some(a) => if a != 0 then a else 10
    case None => 10
  }

  /** Low stock is inclusive: at or below the threshold. */
  predicate IsLowStock(p: Product)
  {
    p.stock <= Threshold(p)
  }

  /** `getLowStockProducts()`. */
  function LowStock(ps: seq<Product>): (r: seq<Product>)
    ensures forall p :: p in r <==> p in ps && p.stock <= Threshold(p)
  {
    Filter(IsLowStock, ps)
  }

  /** The boundary is inclusive: a product at exactly its threshold is low, one above it is not. */
  lemma LowStockBoundary(p: Product)
    ensures p.stock == Threshold(p) ==> LowStock([p]) == [p]
    ensures p.stock == Threshold(p) + 1 ==> LowStock([p]) == []
  {
  }

  predicate IsOutOfStock(p: Product)
  {
    p.stock == 0
  }

  /** `getOutOfStockProducts()`. */
  function OutOfStock(ps: seq<Product>): (r: seq<Product>)
    ensures forall p :: p in r <==> p in ps && p.stock == 0
  {
    Filter(IsOutOfStock, ps)
  }

  /** Every out-of-stock product is also low on stock whenever its threshold is not negative. */
  lemma OutOfStockIsLowStock(ps: seq<Product>)
    requires forall p :: p in ps ==> p.lowStockAlert.GetOr(0) >= 0
    ensures forall p :: p in OutOfStock(ps) ==> p in LowStock(ps)
  {
  }

  /**
   * The search predicate: the query occurs, letter case ignored, in the name or the
   * category, or occurs exactly in the barcode.
   */
  predicate MatchesQuery(query: string, p: Product)
  {
    Contains(ToLower(p.name), ToLower(query))
    || Contains(ToLower(p.category), ToLower(query))
    || (p.barcode.Some? && Contains(p.barcode.value, query))
  }

  /** `searchProducts(query)`: everything for an empty query, otherwise the matching products. */
  function Search(ps: seq<Product>, query: string): (r: seq<Product>)
    ensures query == "" ==> r == ps
    ensures query != "" ==> forall p :: p in r <==> p in ps && MatchesQuery(query, p)
  {
    if query == "" then ps else Filter(p => MatchesQuery(query, p), ps)
  }

  /**
   * For products without a barcode the letter case of the query does not matter:
   * two queries that lower-case alike find the same products.
   */
  lemma SearchIgnoresCase(ps: seq<Product>, q1: string, q2: string)
    requires ToLower(q1) == ToLower(q2)
    requires forall p :: p in ps ==> p.barcode.None?
    ensures Search(ps, q1) == Search(ps, q2)
  {
    if q1 != "" && q2 != "" {
      FilterSameOn(p => MatchesQuery(q1, p), p => MatchesQuery(q2, p), ps);
    }
  }

  /** The barcode match is exact: a barcode "AB12" is not found by the query "ab". */
  lemma BarcodeIsCaseSensitive()
    ensures !MatchesQuery("ab", Product("1", "x", 0, 0, "y", "", None, Some("AB12"), 0, 0))
  {
    assert !Contains("x", "ab") by {
      assert !IsPrefix("ab", "x");
      assert !IsPrefix("ab", "");
    }
    assert !Contains("y", "ab") by {
      assert !IsPrefix("ab", "y");
      assert !IsPrefix("ab", "");
    }
    assert !Contains("AB12", "ab") by {
      assert "AB12"[1..] == "B12";
      assert "B12"[1..] == "12";
      assert "12"[1..] == "2";
      assert "2"[1..] == "";
      assert "AB12"[..2][0] == 'A' && "B12"[..2][0] == 'B' && "12"[..2][0] == '1';
      assert !IsPrefix("ab", "AB12") && !IsPrefix("ab", "B12") && !IsPrefix("ab", "12");
      assert !IsPrefix("ab", "2") && !IsPrefix("ab", "");
    }
  }

  predicate InCategory(category: string, p: Product)
  {
    ToLower(p.category) == ToLower(category)
  }

  /** `getProductsByCategory(category)`: equality of the lower-cased category names. */
  function ByCategory(ps: seq<Product>, category: string): (r: seq<Product>)
    ensures forall p :: p in r <==> p in ps && ToLower(p.category) == ToLower(category)
  {
    Filter(p => InCategory(category, p), ps)
  }

  function StockValue(p: Product): int
  {
    p.price * p.stock
  }

  /** `getTotalValue()`: the sum of price times stock. */
  function TotalValue(ps: seq<Product>): int
  {
    Sum(StockValue, ps)
  }

  /** Adding a product adds exactly its own price times stock to the inventory value. */
  lemma TotalValueAppend(ps: seq<Product>, p: Product)
    ensures TotalValue(ps + [p]) == TotalValue(ps) + p.price * p.stock
  {
    SumConcat(StockValue, ps, [p]);
  }

  /** With non-negative prices and stock the inventory value is non-negative. */
  lemma TotalValueNonNegative(ps: seq<Product>)
    requires forall p :: p in ps ==> p.price >= 0 && p.stock >= 0
    ensures TotalValue(ps) >= 0
  {
    SumNonNegative(StockValue, ps);
  }

  /** The products provider: the held collection and the `products` storage key. */
  class ProductStore {
    var products: seq<Product>
    var loading: bool
    var saved: Stored<seq<Product>>

    /** The provider as first rendered: empty and loading, over what storage holds. */
    constructor (stored: Stored<seq<Product>>)
      ensures products == [] && loading && saved == stored
    {
      products := [];
      loading := true;
      saved := stored;
    }

    /** `loadProducts`: restore the stored snapshot; nothing stored or a corrupt payload keeps the collection. */
    method LoadProducts()
      modifies this
      ensures !loading && saved == old(saved)
      ensures products == if saved.Parsed? then saved.value else old(products)
    {
      if saved.Parsed? {
        products := saved.value;
      }
      loading := false;
    }

    /** `addProduct`: append one new record and persist the whole collection. */
    method AddProduct(data: ProductData, freshId: string, now: int) returns (p: Product)
      modifies this
      ensures p == Created(data, freshId, now)
      ensures products == old(products) + [p]
      ensures saved == Parsed(products) && loading == old(loading)
    {
      p := Created(data, freshId, now);
      products := products + [p];
      saved := Parsed(products);
    }

    /** `updateProduct`: merge the patch into every record with that id and return the first of them. */
    method UpdateProduct(id: string, patch: ProductPatch, now: int) returns (r: Option<Product>)
      modifies this
      ensures products == UpdateWhere(old(products), id, patch, now)
      ensures r == Find(products, id)
      ensures saved == Parsed(products) && loading == old(loading)
    {
      products := UpdateWhere(products, id, patch, now);
      saved := Parsed(products);
      r := Find(products, id);
    }

    /** `deleteProduct`: drop every record with that id. */
    method DeleteProduct(id: string)
      modifies this
      ensures products == WithoutId(old(products), id)
      ensures saved == Parsed(products) && loading == old(loading)
    {
      products := WithoutId(products, id);
      saved := Parsed(products);
    }

    /** `updateStock(id, n)` is `updateProduct(id, {stock: n})`. */
    method UpdateStock(id: string, n: int, now: int)
      modifies this
      ensures products == UpdateWhere(old(products), id, StockPatch(n), now)
      ensures saved == Parsed(products) && loading == old(loading)
    {
      var _ := UpdateProduct(id, StockPatch(n), now);
    }
  }
}
