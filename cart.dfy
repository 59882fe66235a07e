/**
 * The create-order screen's cart: the selected product, the quantity field, and the
 * order lines, with `addToOrder` merging lines by product id and the running total.
 */
module Cart {
  import opened Wrappers
  import opened Js
  import Products

  /** `{...product, quantity}`: an order line is the product with the quantity entered for it. */
  datatype CartLine = CartLine(product: Products.Product, quantity: Number)

  /** The index of the first line for that product id, or `|lines|`. */
  function LineIndex(lines: seq<CartLine>, id: string): (i: nat)
    ensures i <= |lines|
    ensures forall j :: 0 <= j < i ==> lines[j].product.id != id
    ensures i < |lines| ==> lines[i].product.id == id
  {
    if lines == [] then 0 else if lines[0].product.id == id then 0 else 1 + LineIndex(lines[1..], id)
  }

  /**
   * The lines after adding `q` of `product`: an existing line for the same id has its
   * quantity increased, otherwise a new line is appended.
   */
  function Added(lines: seq<CartLine>, product: Products.Product, q: Number): seq<CartLine>
  {
    var i := LineIndex(lines, product.id);
    if i < |lines| then lines[i := lines[i].(quantity := Plus(lines[i].quantity, q))]
    else lines + [CartLine(product, q)]
  }

  /** No two lines are for the same product. */
  predicate UniqueIds(lines: seq<CartLine>)
  {
    forall i, j :: 0 <= i < |lines| && 0 <= j < |lines| && i != j ==> lines[i].product.id != lines[j].product.id
  }

  /** Adding a product already in the order raises that line's quantity and keeps the number of lines. */
  lemma AddExisting(lines: seq<CartLine>, product: Products.Product, n: int)
    requires exists k :: 0 <= k < |lines| && lines[k].product.id == product.id
    ensures var i := LineIndex(lines, product.id);
            var r := Added(lines, product, Num(n));
            && i < |lines| && |r| == |lines|
            && r[i].product == lines[i].product
            && (lines[i].quantity.Num? ==> r[i].quantity == Num(lines[i].quantity.v + n))
            && forall j :: 0 <= j < |lines| && j != i ==> r[j] == lines[j]
  {
  }

  /** Adding a new product appends exactly one line, with that product and the entered quantity. */
  lemma AddNew(lines: seq<CartLine>, product: Products.Product, q: Number)
    requires forall k :: 0 <= k < |lines| ==> lines[k].product.id != product.id
    ensures Added(lines, product, q) == lines + [CartLine(product, q)]
  {
  }

  /** Merging by id keeps the product ids of the lines unique. */
  lemma AddedKeepsIdsUnique(lines: seq<CartLine>, product: Products.Product, q: Number)
    requires UniqueIds(lines)
    ensures UniqueIds(Added(lines, product, q))
  {
    var r := Added(lines, product, q);
    if LineIndex(lines, product.id) == |lines| {
      forall a, b | 0 <= a < |r| && 0 <= b < |r| && a != b ensures r[a].product.id != r[b].product.id {
        if a == |lines| {
          assert r[b] == lines[b];
        } else if b == |lines| {
          assert r[a] == lines[a];
        }
      }
    }
  }

  function LinePrice(line: CartLine): Number
  {
    Times(Num(line.product.price), line.quantity)
  }

  /** `orderItems.reduce((sum, item) => sum + item.price * item.quantity, 0)`. */
  function TotalPrice(lines: seq<CartLine>): Number
  {
    if lines == [] then Num(0) else Plus(LinePrice(lines[0]), TotalPrice(lines[1..]))
  }

  /** The integer sum of price times quantity, for lines whose quantities are all numbers. */
  function LineSum(lines: seq<CartLine>): int
    requires forall k :: 0 <= k < |lines| ==> lines[k].quantity.Num?
  {
    if lines == [] then 0 else lines[0].product.price * lines[0].quantity.v + LineSum(lines[1..])
  }

  /** The total is the sum of price times quantity when every quantity parsed, and `NaN` otherwise. */
  lemma {:induction false} TotalPriceIsLineSum(lines: seq<CartLine>)
    ensures (forall k :: 0 <= k < |lines| ==> lines[k].quantity.Num?) ==> TotalPrice(lines) == Num(LineSum(lines))
    ensures (exists k :: 0 <= k < |lines| && lines[k].quantity.NaN?) ==> TotalPrice(lines) == NaN
  {
    if lines != [] {
      TotalPriceIsLineSum(lines[1..]);
      if exists k :: 0 <= k < |lines| && lines[k].quantity.NaN? {
        var k :| 0 <= k < |lines| && lines[k].quantity.NaN?;
        if k > 0 {
          assert lines[1..][k - 1].quantity.NaN?;
        }
      }
    }
  }

  /** The create-order screen's state. */
  class CreateOrderScreen {
    var selectedProductId: Option<string>
    var quantity: string
    var orderItems: seq<CartLine>

    /** Nothing selected, quantity `'1'`, no lines. */
    constructor ()
      ensures selectedProductId.None? && quantity == "1" && orderItems == []
    {
      selectedProductId := None;
      quantity := "1";
      orderItems := [];
    }

    /** The guard of `addToOrder`: a (non-empty) product id is selected and the quantity text is not empty. */
    predicate CanAdd()
      reads this
    {
      selectedProductId.Some? && selectedProductId.value != "" && quantity != ""
    }

    /**
     * `addToOrder`: with a selection, a quantity and a known product, merge the line and
     * reset the selection and quantity; otherwise change nothing.
     */
    method AddToOrder(products: seq<Products.Product>)
      modifies this
      ensures var found := if old(CanAdd()) then Products.Find(products, old(selectedProductId).value) else None;
              if found.Some? then
                && orderItems == Added(old(orderItems), found.value, ParseInt(old(quantity)))
                && selectedProductId.None? && quantity == "1"
              else
                && orderItems == old(orderItems)
                && selectedProductId == old(selectedProductId) && quantity == old(quantity)
    {
      if !CanAdd() {
        return;
      }
      var product := Products.Find(products, selectedProductId.value);
      if product.None? {
        return;
      }
      var p := product.value;
      var q := ParseInt(quantity);
      var i := LineIndex(orderItems, p.id);
      if i < |orderItems| {
        orderItems := orderItems[i := orderItems[i].(quantity := Plus(orderItems[i].quantity, q))];
      } else {
        orderItems := orderItems + [CartLine(p, q)];
      }
      selectedProductId := None;
      quantity := "1";
    }
  }
}
