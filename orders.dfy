/**
 * The order store: the held `orders` and `customers` collections and their storage
 * snapshots, order create / update / delete, the customer upsert keyed by phone
 * number, and the derived order queries.
 */
module Orders {
  import opened Wrappers
  import opened Seqs

  /** The status every new order gets, whatever the caller passed. */
  const PENDING: string := "pending"

  /** One order line as receipts read it. */
  datatype Item = Item(name: string, quantity: int, price: int)

  datatype Order = Order(
    id: string,
    customerName: string,
    customerPhone: string,
    customerEmail: Option<string>,
    customerId: Option<string>,
    items: seq<Item>,
    total: Option<int>,
    date: Option<int>,
    status: string,
    createdAt: int,
    updatedAt: int)

  /** The fields a caller passes to `createOrder`; `id` overrides the generated one, `status` is ignored. */
  datatype OrderData = OrderData(
    id: Option<string>,
    customerName: string,
    customerPhone: string,
    customerEmail: Option<string>,
    customerId: Option<string>,
    items: seq<Item>,
    total: Option<int>,
    date: Option<int>,
    status: Option<string>)

  /** The fields a caller passes to `updateOrder`: each present field replaces the stored one. */
  datatype OrderPatch = OrderPatch(
    id: Option<string>,
    customerName: Option<string>,
    customerPhone: Option<string>,
    customerEmail: Option<string>,
    customerId: Option<string>,
    items: Option<seq<Item>>,
    total: Option<int>,
    date: Option<int>,
    status: Option<string>,
    createdAt: Option<int>)

  datatype Customer = Customer(
    id: string, name: string, phone: string, email: string, createdAt: int, lastOrderDate: int)

  /** What an order contributes to the customer list: `{name, phone, email}`. */
  datatype CustomerData = CustomerData(name: string, phone: string, email: string)

  /** `{id: freshId, ...data, status: 'pending', createdAt: now, updatedAt: now}`. */
  function Created(data: OrderData, freshId: string, now: int): (o: Order)
    ensures o.id == data.id.GetOr(freshId) && o.status == PENDING
    ensures o.createdAt == now && o.updatedAt == now
    ensures o.customerName == data.customerName && o.customerPhone == data.customerPhone
    ensures o.customerEmail == data.customerEmail && o.customerId == data.customerId
    ensures o.items == data.items && o.total == data.total && o.date == data.date
  {
    Order(data.id.GetOr(freshId), data.customerName, data.customerPhone, data.customerEmail,
          data.customerId, data.items, data.total, data.date, "pending", now, now)
  }

  /**
   * The customer an order implies: present only when both the name and the phone are
   * non-empty; a missing or empty email becomes the empty string.
   */
  function CustomerOf(data: OrderData): (r: Option<CustomerData>)
    ensures r.Some? <==> data.customerName != "" && data.customerPhone != ""
    ensures r.Some? ==> r.value.name == data.customerName && r.value.phone == data.customerPhone
    ensures r.Some? ==> r.value.email == data.customerEmail.GetOr("")
  {
    if data.customerName != "" && data.customerPhone != "" then
      Some(CustomerData(data.customerName, data.customerPhone, data.customerEmail.GetOr("")))
    else None
  }

  /** `{...o, ...patch, updatedAt: now}`. */
  function Merge(o: Order, patch: OrderPatch, now: int): Order
  {
    Order(
      patch.id.GetOr(o.id), patch.customerName.GetOr(o.customerName),
      patch.customerPhone.GetOr(o.customerPhone),
      if patch.customerEmail.Some? then patch.customerEmail else o.customerEmail,
      if patch.customerId.Some? then patch.customerId else o.customerId,
      patch.items.GetOr(o.items),
      if patch.total.Some? then patch.total else o.total,
      if patch.date.Some? then patch.date else o.date,
      patch.status.GetOr(o.status), patch.createdAt.GetOr(o.createdAt), now)
  }

  /** `orders.map(o => o.id === id ? Merge(o, patch, now) : o)`. */
  function UpdateWhere(os: seq<Order>, id: string, patch: OrderPatch, now: int): (r: seq<Order>)
    ensures |r| == |os|
    ensures forall i :: 0 <= i < |os| ==> r[i] == if os[i].id == id then Merge(os[i], patch, now) else os[i]
  {
    if os == [] then []
    else [if os[0].id == id then Merge(os[0], patch, now) else os[0]] + UpdateWhere(os[1..], id, patch, now)
  }

  /** The index of the first order with that id, or `|os|`. */
  function FirstIndex(os: seq<Order>, id: string): (i: nat)
    ensures i <= |os|
    ensures forall j :: 0 <= j < i ==> os[j].id != id
    ensures i < |os| ==> os[i].id == id
  {
    if os == [] then 0 else if os[0].id == id then 0 else 1 + FirstIndex(os[1..], id)
  }

  /** `orders.find(o => o.id === id)`. */
  function Find(os: seq<Order>, id: string): (r: Option<Order>)
    ensures r.None? <==> forall o :: o in os ==> o.id != id
    ensures r.Some? ==> r.value.id == id && r.value == os[FirstIndex(os, id)]
  {
    var i := FirstIndex(os, id);
    if i < |os| then Some(os[i]) else None
  }

  /** Updating an unknown id leaves the orders as they were. */
  lemma UpdateUnknownIsNoop(os: seq<Order>, id: string, patch: OrderPatch, now: int)
    requires forall o :: o in os ==> o.id != id
    ensures UpdateWhere(os, id, patch, now) == os
  {
    assert forall i :: 0 <= i < |os| ==> os[i] in os;
  }

  predicate HasOtherId(id: string, o: Order)
  {
    o.id != id
  }

  /** `orders.filter(o => o.id !== id)`. */
  function WithoutId(os: seq<Order>, id: string): (r: seq<Order>)
    ensures forall o :: o in r <==> o in os && o.id != id
  {
    Filter(o => HasOtherId(id, o), os)
  }

  /** Deleting twice is deleting once, and deletion keeps the remaining orders in order. */
  lemma DeleteIdempotent(os: seq<Order>, id: string, more: seq<Order>)
    ensures WithoutId(WithoutId(os, id), id) == WithoutId(os, id)
    ensures WithoutId(os + more, id) == WithoutId(os, id) + WithoutId(more, id)
  {
    FilterIdempotent(o => HasOtherId(id, o), os);
    FilterConcat(o => HasOtherId(id, o), os, more);
  }

  /** The index of the first customer with that phone, or `|cs|` (`findIndex` returning -1). */
  function PhoneIndex(cs: seq<Customer>, phone: string): (i: nat)
    ensures i <= |cs|
    ensures forall j :: 0 <= j < i ==> cs[j].phone != phone
    ensures i < |cs| ==> cs[i].phone == phone
  {
    if cs == [] then 0 else if cs[0].phone == phone then 0 else 1 + PhoneIndex(cs[1..], phone)
  }

  /**
   * The customer list after an order by `data`: a known phone rewrites that customer in
   * place, keeping its id and creation time; an unknown phone appends a new customer.
   */
  function Upserted(cs: seq<Customer>, data: CustomerData, freshId: string, now: int): seq<Customer>
  {
    var i := PhoneIndex(cs, data.phone);
    if i < |cs| then cs[i := cs[i].(name := data.name, phone := data.phone, email := data.email, lastOrderDate := now)]
    else cs + [Customer(freshId, data.name, data.phone, data.email, now, now)]
  }

  /** With a known phone: same length, the first match rewritten in place, every other customer untouched. */
  lemma UpsertKnownPhone(cs: seq<Customer>, data: CustomerData, freshId: string, now: int)
    requires exists c :: c in cs && c.phone == data.phone
    ensures var r := Upserted(cs, data, freshId, now);
            var i := PhoneIndex(cs, data.phone);
            && |r| == |cs| && i < |cs|
            && r[i].id == cs[i].id && r[i].createdAt == cs[i].createdAt
            && r[i].name == data.name && r[i].phone == data.phone && r[i].email == data.email
            && r[i].lastOrderDate == now
            && forall j :: 0 <= j < |cs| && j != i ==> r[j] == cs[j]
  {
    var c :| c in cs && c.phone == data.phone;
    var k :| 0 <= k < |cs| && cs[k] == c;
  }

  /** With an unknown phone: one customer appended, created and last ordering at `now`. */
  lemma UpsertUnknownPhone(cs: seq<Customer>, data: CustomerData, freshId: string, now: int)
    requires forall c :: c in cs ==> c.phone != data.phone
    ensures Upserted(cs, data, freshId, now) == cs + [Customer(freshId, data.name, data.phone, data.email, now, now)]
  {
  }

  /** No two customers share a phone number. */
  predicate UniquePhones(cs: seq<Customer>)
  {
    forall i, j :: 0 <= i < |cs| && 0 <= j < |cs| && i != j ==> cs[i].phone != cs[j].phone
  }

  /** The upsert keeps phone numbers unique. */
  lemma UpsertKeepsPhonesUnique(cs: seq<Customer>, data: CustomerData, freshId: string, now: int)
    requires UniquePhones(cs)
    ensures UniquePhones(Upserted(cs, data, freshId, now))
  {
    var i := PhoneIndex(cs, data.phone);
    var r := Upserted(cs, data, freshId, now);
    if i == |cs| {
      forall a, b | 0 <= a < |r| && 0 <= b < |r| && a != b ensures r[a].phone != r[b].phone {
        if a < |cs| && b < |cs| {
        } else if a == |cs| {
          assert r[b] == cs[b];
        } else {
          assert r[a] == cs[a];
        }
      }
    }
  }

  /**
   * The example of two orders from one phone under different names: one customer
   * with that phone remains, carrying the later name.
   */
  lemma RepeatPhoneKeepsOneCustomer(cs: seq<Customer>, a: CustomerData, b: CustomerData, id1: string, id2: string, t1: int, t2: int)
    requires forall c :: c in cs ==> c.phone != a.phone
    requires b.phone == a.phone
    ensures var r := Upserted(Upserted(cs, a, id1, t1), b, id2, t2);
            && |r| == |cs| + 1 && r[..|cs|] == cs
            && r[|cs|] == Customer(id1, b.name, a.phone, b.email, t1, t2)
            && forall k :: 0 <= k < |r| && r[k].phone == a.phone ==> k == |cs|
  {
    UpsertUnknownPhone(cs, a, id1, t1);
    var s := Upserted(cs, a, id1, t1);
    assert s[|cs|].phone == b.phone;
    assert forall k :: 0 <= k < |cs| ==> s[k] == cs[k] && cs[k] in cs;
    assert PhoneIndex(s, b.phone) == |cs|;
  }

  predicate HasStatus(status: string, o: Order)
  {
    o.status == status
  }

  /** `getOrdersByStatus(status)`. */
  function ByStatus(os: seq<Order>, status: string): (r: seq<Order>)
    ensures forall o :: o in r <==> o in os && o.status == status
  {
    Filter(o => HasStatus(status, o), os)
  }

  predicate InRange(start: int, end: int, o: Order)
  {
    start <= o.createdAt <= end
  }

  /** `getOrdersByDateRange(start, end)`: creation time within both inclusive bounds. */
  function ByDateRange(os: seq<Order>, start: int, end: int): (r: seq<Order>)
    ensures forall o :: o in r <==> o in os && start <= o.createdAt && o.createdAt <= end
  {
    Filter(o => InRange(start, end, o), os)
  }

  predicate ForCustomer(customerId: string, o: Order)
  {
    o.customerId == Some(customerId)
  }

  /** `getCustomerOrders(customerId)`: orders that carry that customer id. */
  function ByCustomer(os: seq<Order>, customerId: string): (r: seq<Order>)
    ensures forall o :: o in r <==> o in os && o.customerId == Some(customerId)
  {
    Filter(o => ForCustomer(customerId, o), os)
  }

  /** `order.total || 0`. */
  function TotalOrZero(o: Order): int
  {
    o.total.GetOr(0)
  }

  /** `getTotalSales()`: the sum of the order totals, a missing total counting 0. */
  function TotalSales(os: seq<Order>): int
  {
    Sum(TotalOrZero, os)
  }

  /** A new order adds its own total (or nothing) to the sales. */
  lemma TotalSalesAppend(os: seq<Order>, o: Order)
    ensures TotalSales(os + [o]) == TotalSales(os) + o.total.GetOr(0)
  {
    SumConcat(TotalOrZero, os, [o]);
  }

  /** Updating an order's status (or any field but the total) leaves the sales unchanged. */
  lemma {:induction false} TotalSalesIgnoresNonTotalUpdate(os: seq<Order>, id: string, patch: OrderPatch, now: int)
    requires patch.total.None?
    ensures TotalSales(UpdateWhere(os, id, patch, now)) == TotalSales(os)
  {
    if os != [] {
      TotalSalesIgnoresNonTotalUpdate(os[1..], id, patch, now);
      assert UpdateWhere(os, id, patch, now)[1..] == UpdateWhere(os[1..], id, patch, now);
    }
  }

  /** The orders provider: the two held collections and their storage keys. */
  class OrderStore {
    var orders: seq<Order>
    var customers: seq<Customer>
    var loading: bool
    var savedOrders: Stored<seq<Order>>
    var savedCustomers: Stored<seq<Customer>>

    /** The provider as first rendered, over what storage holds. */
    constructor (storedOrders: Stored<seq<Order>>, storedCustomers: Stored<seq<Customer>>)
      ensures orders == [] && customers == [] && loading
      ensures savedOrders == storedOrders && savedCustomers == storedCustomers
    {
      orders := [];
      customers := [];
      loading := true;
      savedOrders := storedOrders;
      savedCustomers := storedCustomers;
    }

    /**
     * `loadData`: restore both snapshots. The two keys are parsed one after the other
     * inside one `try`, so a corrupt orders payload also skips the customers.
     */
    method LoadData()
      modifies this
      ensures !loading && savedOrders == old(savedOrders) && savedCustomers == old(savedCustomers)
      ensures orders == if savedOrders.Parsed? then savedOrders.value else old(orders)
      ensures customers == if savedCustomers.Parsed? && !savedOrders.Corrupt? then savedCustomers.value
                           else old(customers)
    {
      if !savedOrders.Corrupt? {
        if savedOrders.Parsed? {
          orders := savedOrders.value;
        }
        if savedCustomers.Parsed? {
          customers := savedCustomers.value;
        }
      }
      loading := false;
    }

    /** `addOrUpdateCustomer`: upsert by phone number and persist the customer list. */
    method AddOrUpdateCustomer(data: CustomerData, freshId: string, now: int)
      modifies this
      ensures customers == Upserted(old(customers), data, freshId, now)
      ensures savedCustomers == Parsed(customers)
      ensures orders == old(orders) && savedOrders == old(savedOrders) && loading == old(loading)
    {
      var i := PhoneIndex(customers, data.phone);
      var updated := customers;
      if i < |customers| {
        updated := updated[i := updated[i].(name := data.name, phone := data.phone, email := data.email, lastOrderDate := now)];
      } else {
        updated := updated + [Customer(freshId, data.name, data.phone, data.email, now, now)];
      }
      customers := updated;
      savedCustomers := Parsed(customers);
    }

    /**
     * `createOrder`: append one pending order, persist, then upsert the customer when the
     * order names one (`customerId` is the id a new customer would get).
     */
    method CreateOrder(data: OrderData, orderId: string, customerId: string, now: int) returns (o: Order)
      modifies this
      ensures o == Created(data, orderId, now)
      ensures orders == old(orders) + [o] && savedOrders == Parsed(orders)
      ensures CustomerOf(data).Some? ==>
                customers == Upserted(old(customers), CustomerOf(data).value, customerId, now)
                && savedCustomers == Parsed(customers)
      ensures CustomerOf(data).None? ==> customers == old(customers) && savedCustomers == old(savedCustomers)
      ensures loading == old(loading)
    {
      o := Created(data, orderId, now);
      orders := orders + [o];
      savedOrders := Parsed(orders);
      var c := CustomerOf(data);
      if c.Some? {
        AddOrUpdateCustomer(c.value, customerId, now);
      }
    }

    /** `updateOrder`: merge the patch into every order with that id and return the first of them. */
    method UpdateOrder(id: string, patch: OrderPatch, now: int) returns (r: Option<Order>)
      modifies this
      ensures orders == UpdateWhere(old(orders), id, patch, now) && savedOrders == Parsed(orders)
      ensures r == Find(orders, id)
      ensures customers == old(customers) && savedCustomers == old(savedCustomers) && loading == old(loading)
    {
      orders := UpdateWhere(orders, id, patch, now);
      savedOrders := Parsed(orders);
      r := Find(orders, id);
    }

    /** `deleteOrder`: drop every order with that id. */
    method DeleteOrder(id: string)
      modifies this
      ensures orders == WithoutId(old(orders), id) && savedOrders == Parsed(orders)
      ensures customers == old(customers) && savedCustomers == old(savedCustomers) && loading == old(loading)
    {
      orders := WithoutId(orders, id);
      savedOrders := Parsed(orders);
    }
  }
}
