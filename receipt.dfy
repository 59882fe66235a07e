/**
 * The receipt screen's share text: a header with the business details, the order's
 * number, date and customer, two lines per item, and the stored total.
 */
module Receipt {
  import opened Wrappers
  import opened Text
  import Orders
  import Auth

  const DEFAULT_BUSINESS := "StockFlow Business"
  const DIVIDER := "\n━━━━━━━━━━━━━━━━━━━\n"
  const TITLE := "📋 *RECEIPT*\n"
  const FOOTER := "Powered by StockFlow 📱"

  /** The fields of an order the receipt reads. */
  datatype Ticket = Ticket(
    id: string,
    customerName: string,
    customerPhone: string,
    date: Option<int>,
    total: Option<int>,
    items: seq<Orders.Item>)

  function FromOrder(o: Orders.Order): Ticket
  {
    Ticket(o.id, o.customerName, o.customerPhone, o.date, o.total, o.items)
  }

  /** The stand-in order shown when there are none, dated at the instant the screen opens. */
  function Sample(now: int): Ticket
  {
    Ticket("SAMPLE", "Sample Customer", "+234812345678", Some(now), Some(5500),
           [Orders.Item("Sample Product", 2, 2000), Orders.Item("Another Item", 1, 1500)])
  }

  /** `orders[orders.length - 1] || sample`: an order record is always truthy. */
  function SelectOrder(orders: seq<Orders.Order>, now: int): (t: Ticket)
    ensures |orders| > 0 ==> t == FromOrder(orders[|orders| - 1])
    ensures |orders| == 0 ==> t.id == "SAMPLE" && t.date == Some(now)
  {
    if |orders| > 0 then FromOrder(orders[|orders| - 1]) else Sample(now)
  }

  /** Line values of an item list, `quantity * price` each. */
  function ItemsSum(items: seq<Orders.Item>): int
  {
    if items == [] then 0 else items[0].quantity * items[0].price + ItemsSum(items[1..])
  }

  /** The sample's stored total agrees with its items. */
  lemma SampleTotalMatchesItems(now: int)
    ensures Sample(now).total == Some(ItemsSum(Sample(now).items))
  {
  }

  /** `userProfile?.businessName || 'StockFlow Business'`. */
  function BusinessName(profile: Option<Auth.Profile>): string
  {
    if profile.Some? && profile.value.businessName != "" then profile.value.businessName
    else DEFAULT_BUSINESS
  }

  function PhoneOf(profile: Option<Auth.Profile>): string
  {
    if profile.Some? then profile.value.phone else ""
  }

  function AddressOf(profile: Option<Auth.Profile>): string
  {
    if profile.Some? then profile.value.address else ""
  }

  function PhoneLine(phone: string): string { "📞 " + phone + "\n" }
  function AddressLine(address: string): string { "📍 " + address + "\n" }
  function ItemNameLine(item: Orders.Item): string { item.name + "\n" }

  function ItemAmountLine(item: Orders.Item): string
  {
    "  " + IntToString(item.quantity) + " x ₦" + IntToString(item.price)
    + " = ₦" + IntToString(item.quantity * item.price) + "\n"
  }

  /** `${order.total}`: a missing total prints as `undefined`. */
  function TotalText(total: Option<int>): string
  {
    if total.Some? then IntToString(total.value) else "undefined"
  }

  function TotalLine(total: Option<int>): string { "*TOTAL: ₦" + TotalText(total) + "*\n" }

  /** The title and the business block. */
  function BusinessSegments(profile: Option<Auth.Profile>): seq<string>
  {
    [TITLE, BusinessName(profile) + "\n"]
    + (if PhoneOf(profile) != "" then [PhoneLine(PhoneOf(profile))] else [])
    + (if AddressOf(profile) != "" then [AddressLine(AddressOf(profile))] else [])
  }

  /** The order details, up to the items heading. */
  function DetailSegments(t: Ticket, dateText: string): seq<string>
  {
    [DIVIDER, "Receipt #: " + t.id + "\n", "Date: " + dateText + "\n",
     "Customer: " + t.customerName + "\n", "\n*ITEMS:*\n"]
  }

  /** Everything up to the item list. */
  function HeadSegments(profile: Option<Auth.Profile>, t: Ticket, dateText: string): seq<string>
  {
    BusinessSegments(profile) + DetailSegments(t, dateText)
  }

  /** Two lines per item, in item order. */
  function ItemSegments(items: seq<Orders.Item>): (r: seq<string>)
    ensures |r| == 2 * |items|
  {
    if items == [] then []
    else ItemSegments(items[..|items| - 1]) + [ItemNameLine(items[|items| - 1]), ItemAmountLine(items[|items| - 1])]
  }

  function TailSegments(total: Option<int>): seq<string>
  {
    [DIVIDER, TotalLine(total), "\nThank you for your business! 🙏\n", FOOTER]
  }

  /** The receipt text as its sequence of appended pieces. */
  function ReceiptSegments(profile: Option<Auth.Profile>, t: Ticket, dateText: string): seq<string>
  {
    HeadSegments(profile, t, dateText) + ItemSegments(t.items) + TailSegments(t.total)
  }

  /**
   * `generateReceiptText(order)`, with `new Date(order.date).toLocaleDateString()` passed
   * in as `dateText`.
   */
  method GenerateReceiptText(profile: Option<Auth.Profile>, t: Ticket, dateText: string) returns (text: string)
    ensures text == Concat(ReceiptSegments(profile, t, dateText))
  {
    ghost var parts;
    text, parts := AppendHead(profile, t, dateText);
    text, parts := AppendItems(text, parts, t.items);
    text, parts := AppendTail(text, parts, t.total);
    assert parts == ReceiptSegments(profile, t, dateText);
  }

  /** The business block and the order details, up to the items heading. */
  method AppendHead(profile: Option<Auth.Profile>, t: Ticket, dateText: string)
    returns (text: string, ghost parts: seq<string>)
    ensures parts == HeadSegments(profile, t, dateText) && text == Concat(parts)
    ensures text == Concat(HeadSegments(profile, t, dateText))
  {
    text, parts := AppendBusiness(profile);
    text, parts := AppendDetails(text, parts, t, dateText);
  }

  /** The title, the business name, and the phone and address lines when they are set. */
  method AppendBusiness(profile: Option<Auth.Profile>) returns (text: string, ghost parts: seq<string>)
    ensures parts == BusinessSegments(profile) && text == Concat(parts)
    ensures text == Concat(BusinessSegments(profile))
  {
    var business := BusinessName(profile);
    var phone := PhoneOf(profile);
    var address := AddressOf(profile);
    text, parts := Append("", [], TITLE);
    text, parts := Append(text, parts, business + "\n");
    ghost var top := parts;
    if phone != "" {
      text, parts := Append(text, parts, PhoneLine(phone));
    }
    ghost var withPhone := parts;
    assert withPhone == top + (if phone != "" then [PhoneLine(phone)] else []);
    if address != "" {
      text, parts := Append(text, parts, AddressLine(address));
    }
    assert parts == withPhone + (if address != "" then [AddressLine(address)] else []);
  }

  method AppendDetails(text: string, ghost parts: seq<string>, t: Ticket, dateText: string)
    returns (text': string, ghost parts': seq<string>)
    requires text == Concat(parts)
    ensures parts' == parts + DetailSegments(t, dateText) && text' == Concat(parts')
    ensures text' == text + Concat(DetailSegments(t, dateText))
  {
    text', parts' := Append(text, parts, DIVIDER);
    text', parts' := Append(text', parts', "Receipt #: " + t.id + "\n");
    text', parts' := Append(text', parts', "Date: " + dateText + "\n");
    text', parts' := Append(text', parts', "Customer: " + t.customerName + "\n");
    text', parts' := Append(text', parts', "\n*ITEMS:*\n");
    ConcatAppend(parts, DetailSegments(t, dateText));
  }

  /** The text of the item block, as one string. */
  function ItemsText(items: seq<Orders.Item>): string
  {
    if items == [] then ""
    else ItemsText(items[..|items| - 1]) + ItemNameLine(items[|items| - 1]) + ItemAmountLine(items[|items| - 1])
  }

  lemma ConcatPair(a: string, b: string)
    ensures Concat([a, b]) == a + b
  {
    assert [b][1..] == [];
    assert Concat([b]) == b + Concat([]);
    assert b + "" == b;
    assert [a, b][1..] == [b];
    assert Concat([a, b]) == a + Concat([b]);
  }

  /** The item block's text is the concatenation of its pieces. */
  lemma {:induction false} ItemsTextIsConcat(items: seq<Orders.Item>)
    ensures Concat(ItemSegments(items)) == ItemsText(items)
  {
    if items != [] {
      var pre := items[..|items| - 1];
      var last := items[|items| - 1];
      var pair := [ItemNameLine(last), ItemAmountLine(last)];
      ItemsTextIsConcat(pre);
      ConcatAppend(ItemSegments(pre), pair);
      ConcatPair(ItemNameLine(last), ItemAmountLine(last));
      Regroup("", ItemsText(pre), ItemNameLine(last), ItemAmountLine(last));
      assert "" + ItemsText(pre) == ItemsText(pre);
    }
  }

  /** Appending two pieces one after the other is appending them to the block built so far. */
  lemma Regroup(a: string, b: string, c: string, d: string)
    ensures a + b + c + d == a + (b + c + d)
  {
  }

  /** `order.items.forEach(...)`: the name line and the amount line of each item. */
  method AppendItems(text: string, ghost parts: seq<string>, items: seq<Orders.Item>)
    returns (text': string, ghost parts': seq<string>)
    requires text == Concat(parts)
    ensures parts' == parts + ItemSegments(items) && text' == Concat(parts')
    ensures text' == text + ItemsText(items) && text' == text + Concat(ItemSegments(items))
  {
    text' := text;
    var i := 0;
    while i < |items|
      invariant 0 <= i <= |items|
      invariant text' == text + ItemsText(items[..i])
    {
      var item := items[i];
      ghost var done := ItemsText(items[..i]);
      text' := text' + ItemNameLine(item);
      text' := text' + ItemAmountLine(item);
      assert items[..i + 1][..i] == items[..i];
      assert ItemsText(items[..i + 1]) == done + ItemNameLine(item) + ItemAmountLine(item);
      Regroup(text, done, ItemNameLine(item), ItemAmountLine(item));
      i := i + 1;
    }
    assert items[..i] == items;
    parts' := parts + ItemSegments(items);
    ConcatAppend(parts, ItemSegments(items));
    ItemsTextIsConcat(items);
  }

  /** The closing divider, the total, the thanks and the footer. */
  method AppendTail(text: string, ghost parts: seq<string>, total: Option<int>)
    returns (text': string, ghost parts': seq<string>)
    requires text == Concat(parts)
    ensures parts' == parts + TailSegments(total) && text' == Concat(parts')
    ensures text' == text + Concat(TailSegments(total))
  {
    text', parts' := Append(text, parts, DIVIDER);
    text', parts' := Append(text', parts', TotalLine(total));
    text', parts' := Append(text', parts', "\nThank you for your business! 🙏\n");
    text', parts' := Append(text', parts', FOOTER);
    ConcatAppend(parts, TailSegments(total));
  }

  /** `text += piece`, keeping the text equal to the concatenation of the pieces appended so far. */
  method Append(text: string, ghost parts: seq<string>, piece: string) returns (text': string, ghost parts': seq<string>)
    requires text == Concat(parts)
    ensures text' == text + piece && parts' == parts + [piece]
    ensures text' == Concat(parts')
  {
    text' := text + piece;
    parts' := parts + [piece];
    ConcatEndsWith(parts');
    assert parts'[..|parts'| - 1] == parts;
  }

  /** The text opens with the receipt title. */
  lemma StartsWithTitle(profile: Option<Auth.Profile>, t: Ticket, dateText: string)
    ensures IsPrefix(TITLE, Concat(ReceiptSegments(profile, t, dateText)))
  {
    ConcatStartsWith(ReceiptSegments(profile, t, dateText));
  }

  /** The text closes with the footer, after the total line. */
  lemma EndsWithFooter(profile: Option<Auth.Profile>, t: Ticket, dateText: string)
    ensures var s := ReceiptSegments(profile, t, dateText);
            s[|s| - 1] == FOOTER && s[|s| - 3] == TotalLine(t.total)
            && Concat(s) == Concat(s[..|s| - 1]) + FOOTER
  {
    ConcatEndsWith(ReceiptSegments(profile, t, dateText));
  }

  /** The pieces after the title and business line: phone iff a phone is set, then address iff set. */
  lemma ContactLines(profile: Option<Auth.Profile>, t: Ticket, dateText: string)
    ensures var s := ReceiptSegments(profile, t, dateText);
            var p := if PhoneOf(profile) != "" then 1 else 0;
            s[1] == BusinessName(profile) + "\n"
            && (s[2] == PhoneLine(PhoneOf(profile)) <==> PhoneOf(profile) != "")
            && (s[2 + p] == AddressLine(AddressOf(profile)) <==> AddressOf(profile) != "")
  {
    var s := ReceiptSegments(profile, t, dateText);
    var p := if PhoneOf(profile) != "" then 1 else 0;
    if PhoneOf(profile) == "" {
      assert s[2] == AddressLine(AddressOf(profile)) || s[2] == DIVIDER;
      assert PhoneLine("")[0] == '📞';
      assert AddressLine(AddressOf(profile))[0] == '📍';
    } else if AddressOf(profile) == "" {
      assert s[3] == DIVIDER;
      assert AddressLine("")[0] == '📍';
    }
    if AddressOf(profile) == "" && PhoneOf(profile) == "" {
      assert s[2] == DIVIDER;
      assert AddressLine("")[0] == '📍';
    }
  }

  /** Item `k` owns pieces `2k` and `2k + 1` of the item block: its name, then quantity, price and their product. */
  lemma {:induction false} ItemLines(items: seq<Orders.Item>, k: int)
    requires 0 <= k < |items|
    ensures ItemSegments(items)[2 * k] == ItemNameLine(items[k])
    ensures ItemSegments(items)[2 * k + 1] == ItemAmountLine(items[k])
  {
    if k < |items| - 1 {
      ItemLines(items[..|items| - 1], k);
    }
  }

  /** The total line prints the stored total, whatever the items add up to. */
  lemma TotalIsStored(profile: Option<Auth.Profile>, t: Ticket, dateText: string, items: seq<Orders.Item>)
    ensures var s := ReceiptSegments(profile, t.(items := items), dateText);
            s[|s| - 3] == TotalLine(t.total)
  {
  }

  /** The keys of the value the auth provider hands to `useAuth()` consumers. */
  const AUTH_CONTEXT_KEYS: seq<string> := [
    "isAuthenticated", "user", "isLoading", "biometricSupported", "subscription", "login",
    "logout", "createProfile", "authenticateWithBiometrics", "renewSubscription",
    "isSubscriptionActive", "checkSubscriptionStatus"]

  /**
   * The business details found under `key` of the auth context: only `user` holds an
   * object with the profile's fields; a key the context lacks is `undefined`.
   */
  function AuthContextProfile(key: string, user: Option<Auth.User>): (r: Option<Auth.Profile>)
    ensures key !in AUTH_CONTEXT_KEYS ==> r == None
    ensures r.Some? <==> key == "user" && user.Some?
    ensures r.Some? ==> user.Some? && r.value == user.value.profile
  {
    if key in AUTH_CONTEXT_KEYS && key == "user" && user.Some? then Some(user.value.profile) else None
  }

  /** The auth context offers `user` and no `userProfile`. */
  lemma UserProfileNotExported()
    ensures "user" in AUTH_CONTEXT_KEYS && "userProfile" !in AUTH_CONTEXT_KEYS
  {
    assert AUTH_CONTEXT_KEYS[1] == "user";
  }

  /** The profile the screen reads, `const { userProfile } = useAuth()`: never there. */
  function ScreenProfileAsWritten(user: Option<Auth.User>): (r: Option<Auth.Profile>)
    ensures r == None
  {
    UserProfileNotExported();
    AuthContextProfile("userProfile", user)
  }

  /** As written, the business line is the default even for a signed-in business with a name. */
  lemma BusinessLineIgnoresProfile(user: Option<Auth.User>, t: Ticket, dateText: string)
    ensures ReceiptSegments(ScreenProfileAsWritten(user), t, dateText)[1] == DEFAULT_BUSINESS + "\n"
  {
  }

  /** The profile read from the context's `user`, which is where the business details live. */
  function ScreenProfile(user: Option<Auth.User>): (r: Option<Auth.Profile>)
    ensures r.Some? <==> user.Some?
    ensures r.Some? ==> r.value == user.value.profile
  {
    UserProfileNotExported();
    AuthContextProfile("user", user)
  }

  /** Read from the user, the business line names the user's business whenever it has a name. */
  lemma BusinessLineShowsOwnBusiness(u: Auth.User, t: Ticket, dateText: string)
    requires u.profile.businessName != ""
    ensures ReceiptSegments(ScreenProfile(Some(u)), t, dateText)[1] == u.profile.businessName + "\n"
  {
  }

  /** Without a profile, or with an empty business name, the business line is the default. */
  lemma BusinessLineDefault(profile: Option<Auth.Profile>, t: Ticket, dateText: string)
    requires profile.None? || profile.value.businessName == ""
    ensures ReceiptSegments(profile, t, dateText)[1] == DEFAULT_BUSINESS + "\n"
  {
  }

  /** The keys of the product provider's value (`useProductContext()`). */
  const PRODUCT_CONTEXT_KEYS: seq<string> := [
    "products", "loading", "addProduct", "updateProduct", "deleteProduct", "updateStock",
    "getLowStockProducts", "getOutOfStockProducts", "searchProducts", "getProductsByCategory",
    "getTotalValue"]

  /** The keys of the order provider's value (`useOrderContext()`). */
  const ORDER_CONTEXT_KEYS: seq<string> := [
    "orders", "customers", "loading", "createOrder", "updateOrder", "deleteOrder",
    "addOrUpdateCustomer", "getOrdersByStatus", "getOrdersByDateRange", "getTotalSales",
    "getCustomerOrders"]

  /**
   * The order the screen renders, with `orders` destructured from a context with the
   * given keys: `None` when `orders[orders.length - 1]` throws on a missing `orders`.
   */
  function ScreenOrder(contextKeys: seq<string>, orders: seq<Orders.Order>, now: int): Option<Ticket>
  {
    if "orders" in contextKeys then Some(SelectOrder(orders, now)) else None
  }

  /** As written, the screen reads `orders` from the product context, which has none: rendering throws. */
  lemma ScreenOrderCrashes(orders: seq<Orders.Order>, now: int)
    ensures ScreenOrder(PRODUCT_CONTEXT_KEYS, orders, now) == None
  {
  }

  /** Read from the order context, the screen shows the latest order, or the sample when there is none. */
  lemma ScreenOrderFromOrderContext(orders: seq<Orders.Order>, now: int)
    ensures var r := ScreenOrder(ORDER_CONTEXT_KEYS, orders, now);
            && r.Some?
            && (|orders| > 0 ==> r.value == FromOrder(orders[|orders| - 1]))
            && (|orders| == 0 ==> r.value == Sample(now))
  {
    assert ORDER_CONTEXT_KEYS[0] == "orders";
  }

  /** The bindings the receipt screen imports. */
  const SCREEN_IMPORTS: seq<string> := [
    "React", "useRef", "useState", "View", "Text", "StyleSheet", "ScrollView", "TouchableOpacity",
    "Share", "Alert", "Ionicons", "useRouter", "useLocalSearchParams", "captureRef", "SafeAreaView",
    "useAuth", "useProductContext"]

  /** How a share attempt ends. */
  datatype ShareOutcome =
    | OpenedWhatsApp(phone: string, text: string)
    | ShareSheet(message: string, title: string)
    | ErrorAlert(title: string, message: string)

  const SHARE_ERROR := ErrorAlert("Error", "Unable to share receipt. Please try again.")

  /**
   * `handleShareToWhatsApp` once the text is built, with the `imports` in scope: using a
   * binding that is not in scope throws, and every throw ends in the error alert.
   * `supported` is `Linking.canOpenURL`'s answer, `launched` whether `Linking.openURL`
   * resolves and `shared` whether `Share.share` resolves.
   */
  function ShareOutcomeOf(imports: seq<string>, phone: string, text: string,
                          supported: bool, launched: bool, shared: bool): ShareOutcome
  {
    if "Linking" !in imports then SHARE_ERROR
    else if supported then (if launched then OpenedWhatsApp(phone, text) else SHARE_ERROR)
    else if shared then ShareSheet(text, "Receipt from StockFlow")
    else SHARE_ERROR
  }

  /** As written, `Linking` is never imported, so every share attempt ends in the error alert. */
  lemma ShareFailsAsWritten(phone: string, text: string, supported: bool, launched: bool, shared: bool)
    ensures ShareOutcomeOf(SCREEN_IMPORTS, phone, text, supported, launched, shared) == SHARE_ERROR
  {
  }

  /**
   * With `Linking` imported: WhatsApp opens on the customer's phone with the receipt text
   * when it can, the share sheet carries the text otherwise, and only a failing system
   * call shows the alert.
   */
  lemma ShareWithLinking(phone: string, text: string, supported: bool, launched: bool, shared: bool)
    ensures var r := ShareOutcomeOf(SCREEN_IMPORTS + ["Linking"], phone, text, supported, launched, shared);
            && (r == OpenedWhatsApp(phone, text) <==> supported && launched)
            && (r == ShareSheet(text, "Receipt from StockFlow") <==> !supported && shared)
            && (r == SHARE_ERROR <==> (supported && !launched) || (!supported && !shared))
  {
    assert (SCREEN_IMPORTS + ["Linking"])[|SCREEN_IMPORTS|] == "Linking";
  }

  /** The screen's `isSharing` flag around `handleShareToWhatsApp`. */
  class ReceiptScreen {
    var isSharing: bool

    constructor ()
      ensures !isSharing
    {
      isSharing := false;
    }

    /** Builds the receipt text of `t` and shares it; the flag is cleared on the way out. */
    method HandleShareToWhatsApp(imports: seq<string>, profile: Option<Auth.Profile>, t: Ticket, dateText: string,
                                 supported: bool, launched: bool, shared: bool)
      returns (outcome: ShareOutcome)
      modifies this
      ensures outcome == ShareOutcomeOf(imports, t.customerPhone, Concat(ReceiptSegments(profile, t, dateText)),
                                        supported, launched, shared)
      ensures !isSharing
    {
      isSharing := true;
      var text := GenerateReceiptText(profile, t, dateText);
      outcome := ShareOutcomeOf(imports, t.customerPhone, text, supported, launched, shared);
      isSharing := false;
    }
  }
}
