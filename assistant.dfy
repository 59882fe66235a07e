/**
 * The assistant context: a keyword responder over the lowercased question, answering
 * from the current products and orders, and the insight cards shown on the dashboard.
 */
module Assistant {
  import opened Text
  import Products
  import Orders

  /** The reply branches, in the order the responder tries them. */
  datatype Topic = Stock | Sales | Catalogue | Advice | Help | General

  function Rank(t: Topic): nat
  {
    match t
    case Stock => 0
    case Sales => 1
    case Catalogue => 2
    case Advice => 3
    case Help => 4
    case General => 5
  }

  /** The keywords of a branch occur in the (already lowercased) question; the default branch always matches. */
  predicate Mentions(q: string, t: Topic)
  {
    match t
    case Stock => Contains(q, "low stock") || Contains(q, "inventory")
    case Sales => Contains(q, "sales") || Contains(q, "revenue")
    case Catalogue => Contains(q, "product") || Contains(q, "item")
    case Advice => Contains(q, "recommendation") || Contains(q, "suggest")
    case Help => Contains(q, "help") || Contains(q, "how")
    case General => true
  }

  /** The branch `askAI` takes: the first whose keywords occur in `question.toLowerCase()`. */
  function TopicOf(question: string): Topic
  {
    var q := ToLower(question);
    if Contains(q, "low stock") || Contains(q, "inventory") then Stock
    else if Contains(q, "sales") || Contains(q, "revenue") then Sales
    else if Contains(q, "product") || Contains(q, "item") then Catalogue
    else if Contains(q, "recommendation") || Contains(q, "suggest") then Advice
    else if Contains(q, "help") || Contains(q, "how") then Help
    else General
  }

  /** The branch taken is the highest-ranked one whose keywords occur, and only that one. */
  lemma TopicIsFirstMatch(question: string, t: Topic)
    ensures TopicOf(question) == t <==>
            Mentions(ToLower(question), t)
            && forall u: Topic :: Rank(u) < Rank(t) ==> !Mentions(ToLower(question), u)
  {
    var q := ToLower(question);
    if TopicOf(question) == t {
      forall u: Topic | Rank(u) < Rank(t) ensures !Mentions(q, u) {
      }
    } else {
      var s := TopicOf(question);
      assert Mentions(q, s);
      if Mentions(q, t) {
        assert Rank(s) < Rank(t) by {
          assert Rank(s) != Rank(t);
        }
      }
    }
  }

  /** Letter case does not matter: two questions equal up to case get the same branch. */
  lemma TopicIgnoresCase(a: string, b: string)
    requires ToLower(a) == ToLower(b)
    ensures TopicOf(a) == TopicOf(b)
  {
  }

  /** In particular a question and its lowercase form get the same branch. */
  lemma TopicOfLowercase(question: string)
    ensures TopicOf(ToLower(question)) == TopicOf(question)
  {
    ToLowerIdempotent(question);
  }

  // Split after the first character, which StockReplyHealthyIff compares with the low-stock reply's.
  const HEALTHY_STOCK := "✅" + " Great news! All your products are well-stocked. Your inventory levels look healthy."

  function LowStockLine(p: Products.Product): string
  {
    "• " + p.name + " (" + IntToString(p.stock) + " left)"
  }

  /** One line per low-stock product, in inventory order. */
  function LowStockLines(ps: seq<Products.Product>): (r: seq<string>)
    ensures var low := Products.LowStock(ps);
            |r| == |low| && forall i :: 0 <= i < |r| ==> r[i] == LowStockLine(low[i])
  {
    var low := Products.LowStock(ps);
    seq(|low|, i requires 0 <= i < |low| => LowStockLine(low[i]))
  }

  /** The stock branch: the count and a line per low-stock product, or the healthy message. */
  function StockReply(ps: seq<Products.Product>): string
  {
    var low := Products.LowStock(ps);
    if |low| > 0 then
      "📦 You have " + IntToString(|low|) + " items with low stock:\n" + Join(LowStockLines(ps), "\n")
      + "\n\nConsider restocking these items soon!"
    else HEALTHY_STOCK
  }

  /** The healthy message is given exactly when no product is low on stock. */
  lemma StockReplyHealthyIff(ps: seq<Products.Product>)
    ensures StockReply(ps) == HEALTHY_STOCK <==> Products.LowStock(ps) == []
  {
    if Products.LowStock(ps) != [] {
      assert StockReply(ps)[0] == '📦';
      assert HEALTHY_STOCK[0] == '✅';
    }
  }

  /**
   * `(s / n).toFixed(0)` for integer `s` and positive `n`: the nearest integer to the
   * magnitude, halves rounded up, with the sign in front (so a negative mean that rounds
   * to zero prints as "-0").
   */
  function RoundHalfUp(s: nat, n: nat): (r: nat)
    requires n > 0
    ensures -(n as int) < 2 * (r * n - s) <= n
  {
    (2 * s + n) / (2 * n)
  }

  /** `avgOrderValue.toFixed(0)`, where the mean is 0 without orders. */
  function AverageOrderText(orders: seq<Orders.Order>): (r: string)
    ensures |orders| == 0 ==> r == "0"
  {
    var total := Orders.TotalSales(orders);
    var n := |orders|;
    if n == 0 then "0"
    else if total >= 0 then NatToString(RoundHalfUp(total, n))
    else "-" + NatToString(RoundHalfUp(-total, n))
  }

  /** The sales branch: revenue, order count, average order value and a verdict. */
  function SalesReply(orders: seq<Orders.Order>): string
  {
    var total := Orders.TotalSales(orders);
    "📊 Sales Summary:\n• Total Revenue: ₦" + IntToString(total)
    + "\n• Total Orders: " + IntToString(|orders|)
    + "\n• Average Order Value: ₦" + AverageOrderText(orders)
    + "\n\n" + (if total > 10000 then "Excellent performance! 🎉" else "Keep growing your business! 💪")
  }

  /** `[...new Set(xs)]`: each value once, at the place of its first occurrence. */
  function Distinct(xs: seq<string>): (r: seq<string>)
    ensures forall x :: x in r <==> x in xs
    ensures forall i, j :: 0 <= i < j < |r| ==> r[i] != r[j]
  {
    if xs == [] then []
    else
      var d := Distinct(xs[..|xs| - 1]);
      assert xs == xs[..|xs| - 1] + [xs[|xs| - 1]];
      if xs[|xs| - 1] in d then d else d + [xs[|xs| - 1]]
  }

  /** The index of the first occurrence of `x` in `xs`, or `|xs|`. */
  function FirstPosition(xs: seq<string>, x: string): (i: nat)
    ensures i <= |xs|
    ensures i < |xs| <==> x in xs
    ensures i < |xs| ==> xs[i] == x
    ensures forall k :: 0 <= k < i ==> xs[k] != x
  {
    if xs == [] then 0 else if xs[0] == x then 0 else 1 + FirstPosition(xs[1..], x)
  }

  /** Appending after `xs` moves no first occurrence inside it, and a new value lands at the end. */
  lemma FirstPositionSnoc(xs: seq<string>, y: string, x: string)
    ensures x in xs ==> FirstPosition(xs + [y], x) == FirstPosition(xs, x)
    ensures x !in xs && x == y ==> FirstPosition(xs + [y], x) == |xs|
  {
    var i, p := FirstPosition(xs, x), FirstPosition(xs + [y], x);
    assert forall k :: 0 <= k < |xs| ==> (xs + [y])[k] == xs[k];
    if x in xs {
      assert (xs + [y])[i] == x;
    } else if x == y {
      assert (xs + [y])[|xs|] == x;
    }
  }

  /** The values of `r` come in the order of their first occurrences in `xs`. */
  predicate FirstOccurrenceOrder(xs: seq<string>, r: seq<string>)
  {
    forall i, j :: 0 <= i < j < |r| ==> FirstPosition(xs, r[i]) < FirstPosition(xs, r[j])
  }

  lemma OrderAfterSnoc(xs: seq<string>, y: string, d: seq<string>)
    requires forall x :: x in d ==> x in xs
    requires FirstOccurrenceOrder(xs, d)
    ensures FirstOccurrenceOrder(xs + [y], d)
  {
    forall i, j | 0 <= i < j < |d| ensures FirstPosition(xs + [y], d[i]) < FirstPosition(xs + [y], d[j]) {
      assert d[i] in d && d[j] in d;
      FirstPositionSnoc(xs, y, d[i]);
      FirstPositionSnoc(xs, y, d[j]);
    }
  }

  lemma OrderAppendNew(xs: seq<string>, y: string, d: seq<string>)
    requires forall x :: x in d ==> x in xs
    requires y !in xs
    requires FirstOccurrenceOrder(xs + [y], d)
    ensures FirstOccurrenceOrder(xs + [y], d + [y])
  {
    var r := d + [y];
    FirstPositionSnoc(xs, y, y);
    forall i, j | 0 <= i < j < |r| ensures FirstPosition(xs + [y], r[i]) < FirstPosition(xs + [y], r[j]) {
      assert r[i] == d[i] && d[i] in d;
      FirstPositionSnoc(xs, y, d[i]);
      if j < |d| {
        assert r[j] == d[j];
      }
    }
  }

  /** The distinct values come in the order of their first occurrences. */
  lemma {:induction false} DistinctKeepsFirstOccurrenceOrder(xs: seq<string>)
    ensures FirstOccurrenceOrder(xs, Distinct(xs))
  {
    if xs != [] {
      var init, last := xs[..|xs| - 1], xs[|xs| - 1];
      assert xs == init + [last];
      var d := Distinct(init);
      DistinctKeepsFirstOccurrenceOrder(init);
      OrderAfterSnoc(init, last, d);
      if last !in d {
        OrderAppendNew(init, last, d);
      }
    }
  }

  function Categories(ps: seq<Products.Product>): (r: seq<string>)
    ensures forall c :: c in r <==> exists k :: 0 <= k < |ps| && ps[k].category == c
  {
    var cats := seq(|ps|, i requires 0 <= i < |ps| => ps[i].category);
    assert forall c :: c in cats <==> exists k :: 0 <= k < |ps| && ps[k].category == c by {
      forall c ensures c in cats <==> exists k :: 0 <= k < |ps| && ps[k].category == c {
        if c in cats {
          var k :| 0 <= k < |cats| && cats[k] == c;
          assert ps[k].category == c;
        }
        if exists k :: 0 <= k < |ps| && ps[k].category == c {
          var k :| 0 <= k < |ps| && ps[k].category == c;
          assert cats[k] == c;
        }
      }
    }
    Distinct(cats)
  }

  /** The product branch: count, stock value, distinct categories and a size verdict. */
  function CatalogueReply(ps: seq<Products.Product>): string
  {
    "📋 Inventory Overview:\n• Total Products: " + IntToString(|ps|)
    + "\n• Total Inventory Value: ₦" + IntToString(Products.TotalValue(ps))
    + "\n• Categories: " + Join(Categories(ps), ", ")
    + "\n\nYour inventory is " + (if |ps| > 50 then "extensive" else "growing") + "!"
  }

  const RECOMMENDATIONS: seq<string> := [
    "💡 Consider setting up automatic low-stock alerts",
    "📱 Use WhatsApp integration to share receipts with customers",
    "📊 Review your analytics weekly to identify trends",
    "🎯 Focus on your best-selling products for promotions",
    "📋 Keep product information updated for better tracking"]

  function AdviceReply(): string
  {
    "Here are some recommendations for your business:\n\n" + Join(RECOMMENDATIONS, "\n")
    + "\n\nImplementing these can help boost your sales and efficiency!"
  }

  const HELP_REPLY := "🤖 I'm here to help! I can assist you with:\n\n• Inventory analysis and alerts\n• Sales performance insights\n• Business recommendations\n• Stock management tips\n• Analytics interpretation\n\nJust ask me about your inventory, sales, or any business questions!"

  // These three are split after their first character, which RestockNoteIsNoHint, DefaultInsightsIff
  // and GenericReplyIff compare.
  const ADD_PRODUCTS_HINT := "S" + "tart by adding some products to your inventory"
  const FIRST_ORDER_HINT := "C" + "reate your first order to start tracking sales"
  const GENERIC_REPLY := "🤖" + " I'm your AI business assistant! I can help with inventory management, sales analysis, and business insights. What would you like to know about your business?"

  function RestockNote(count: nat): string
  {
    NatToString(count) + " items need restocking"
  }

  /** The quick insights of the default branch: a product hint or a restock note, then an order hint. */
  function DefaultInsightList(ps: seq<Products.Product>, orders: seq<Orders.Order>): seq<string>
  {
    (if |ps| == 0 then [ADD_PRODUCTS_HINT]
     else if |Products.LowStock(ps)| > 0 then [RestockNote(|Products.LowStock(ps)|)]
     else [])
    + (if |orders| == 0 then [FIRST_ORDER_HINT] else [])
  }

  /** A restock note is never the add-products or the first-order hint. */
  lemma RestockNoteIsNoHint(count: nat)
    ensures RestockNote(count) != ADD_PRODUCTS_HINT && RestockNote(count) != FIRST_ORDER_HINT
  {
    assert IsDigit(RestockNote(count)[0]);
    assert ADD_PRODUCTS_HINT[0] == 'S' && FIRST_ORDER_HINT[0] == 'C';
  }

  /** Each hint appears exactly under its condition. */
  lemma DefaultInsightsIff(ps: seq<Products.Product>, orders: seq<Orders.Order>)
    ensures var r := DefaultInsightList(ps, orders);
            (ADD_PRODUCTS_HINT in r <==> |ps| == 0)
            && (RestockNote(|Products.LowStock(ps)|) in r <==> |ps| > 0 && |Products.LowStock(ps)| > 0)
            && (FIRST_ORDER_HINT in r <==> |orders| == 0)
            && |r| <= 2
  {
    RestockNoteIsNoHint(|Products.LowStock(ps)|);
    assert ADD_PRODUCTS_HINT != FIRST_ORDER_HINT by {
      assert ADD_PRODUCTS_HINT[0] != FIRST_ORDER_HINT[0];
    }
    if |ps| == 0 {
      assert Products.LowStock(ps) == [];
    }
  }

  function InsightReply(insights: seq<string>): string
  {
    if |insights| > 0 then
      "💼" + " Quick Business Insight:\n" + Join(insights, "\n")
      + "\n\nAsk me about inventory, sales, or business recommendations!"
    else GENERIC_REPLY
  }

  /** The generic introduction is given exactly when there are no insights. */
  lemma GenericReplyIff(insights: seq<string>)
    ensures InsightReply(insights) == GENERIC_REPLY <==> insights == []
  {
    if insights != [] {
      assert InsightReply(insights)[0] == '💼';
      assert GENERIC_REPLY[0] == '🤖';
    }
  }

  /** What `askAI(question)` resolves to. */
  function Reply(question: string, ps: seq<Products.Product>, orders: seq<Orders.Order>): string
  {
    match TopicOf(question)
    case Stock => StockReply(ps)
    case Sales => SalesReply(orders)
    case Catalogue => CatalogueReply(ps)
    case Advice => AdviceReply()
    case Help => HELP_REPLY
    case General => InsightReply(DefaultInsightList(ps, orders))
  }

  /** The default branch's `insights` array, built with `push`. */
  method DefaultInsights(ps: seq<Products.Product>, orders: seq<Orders.Order>) returns (insights: seq<string>)
    ensures insights == DefaultInsightList(ps, orders)
    ensures (ADD_PRODUCTS_HINT in insights <==> |ps| == 0)
            && (FIRST_ORDER_HINT in insights <==> |orders| == 0)
  {
    insights := [];
    if |ps| == 0 {
      insights := insights + [ADD_PRODUCTS_HINT];
    } else {
      var low := Products.LowStock(ps);
      if |low| > 0 {
        insights := insights + [RestockNote(|low|)];
      }
    }
    if |orders| == 0 {
      insights := insights + [FIRST_ORDER_HINT];
    }
    DefaultInsightsIff(ps, orders);
  }

  /** The reply `askAI` computes, building the default branch's insight list with `push`. */
  method Answer(question: string, ps: seq<Products.Product>, orders: seq<Orders.Order>) returns (reply: string)
    ensures reply == Reply(question, ps, orders)
  {
    if TopicOf(question) == General {
      var insights := DefaultInsights(ps, orders);
      reply := InsightReply(insights);
    } else {
      reply := Reply(question, ps, orders);
    }
  }

  datatype Kind = Warning | Success | Info

  /** A dashboard card of `getBusinessInsights`. */
  datatype Insight = Insight(kind: Kind, title: string, message: string, action: string)

  function KindRank(k: Kind): nat
  {
    match k
    case Warning => 0
    case Success => 1
    case Info => 2
  }

  predicate HasKind(r: seq<Insight>, k: Kind)
  {
    exists i :: 0 <= i < |r| && r[i].kind == k
  }

  predicate AllKind(r: seq<Insight>, k: Kind)
  {
    forall i :: 0 <= i < |r| ==> r[i].kind == k
  }

  function WarningCard(lowCount: nat): Insight
  {
    Insight(Warning, "Low Stock Alert", NatToString(lowCount) + " items need restocking", "View Inventory")
  }

  function SuccessCard(total: int): Insight
  {
    Insight(Success, "Sales Performance", "Total revenue: ₦" + IntToString(total), "View Analytics")
  }

  function InfoCard(): Insight
  {
    Insight(Info, "Growth Opportunity", "Consider expanding your product categories", "Add Products")
  }

  /** A card shown only under its condition. */
  function Optional(cond: bool, card: Insight): (r: seq<Insight>)
    ensures |r| <= 1 && AllKind(r, card.kind)
    ensures r != [] <==> cond
  {
    if cond then [card] else []
  }

  /** Three optional cards of the kinds warning, success and info keep that order, each present exactly under its condition. */
  lemma ThreeKinds(a: bool, b: bool, c: bool, x: Insight, y: Insight, z: Insight)
    requires x.kind == Warning && y.kind == Success && z.kind == Info
    ensures var r := Optional(a, x) + Optional(b, y) + Optional(c, z);
            && |r| <= 3
            && (forall i, j :: 0 <= i < j < |r| ==> KindRank(r[i].kind) < KindRank(r[j].kind))
            && (HasKind(r, Warning) <==> a)
            && (HasKind(r, Success) <==> b)
            && (HasKind(r, Info) <==> c)
  {
    var r := Optional(a, x) + Optional(b, y) + Optional(c, z);
    var ks := if a && b && c then [x, y, z]
      else if a && b then [x, y]
      else if a && c then [x, z]
      else if b && c then [y, z]
      else if a then [x]
      else if b then [y]
      else if c then [z]
      else [];
    assert r == ks;
    assert |r| > 0 ==> r[0] in {x, y, z};
    assert a ==> r[0] == x;
    assert b ==> r[if a then 1 else 0] == y;
    assert c ==> r[if a && b then 2 else if a || b then 1 else 0] == z;
  }

  /** The cards, each present exactly under its condition and in the fixed order warning, success, info. */
  function BusinessInsights(ps: seq<Products.Product>, orders: seq<Orders.Order>): (r: seq<Insight>)
    ensures |r| <= 3
    ensures forall i, j :: 0 <= i < j < |r| ==> KindRank(r[i].kind) < KindRank(r[j].kind)
    ensures HasKind(r, Warning) <==> |Products.LowStock(ps)| > 0
    ensures HasKind(r, Success) <==> Orders.TotalSales(orders) > 0
    ensures HasKind(r, Info) <==> |ps| > 0 && |orders| > 0
  {
    var low := Products.LowStock(ps);
    var total := Orders.TotalSales(orders);
    ThreeKinds(|low| > 0, total > 0, |ps| > 0 && |orders| > 0, WarningCard(|low|), SuccessCard(total), InfoCard());
    Optional(|low| > 0, WarningCard(|low|)) + Optional(total > 0, SuccessCard(total)) + Optional(|ps| > 0 && |orders| > 0, InfoCard())
  }

  /** `getBusinessInsights`, pushing each card in turn. */
  method GetBusinessInsights(ps: seq<Products.Product>, orders: seq<Orders.Order>) returns (insights: seq<Insight>)
    ensures insights == BusinessInsights(ps, orders)
  {
    insights := [];
    var low := Products.LowStock(ps);
    if |low| > 0 {
      insights := insights + [WarningCard(|low|)];
    }
    ghost var w := insights;
    assert w == Optional(|low| > 0, WarningCard(|low|));
    var total := Orders.TotalSales(orders);
    if total > 0 {
      insights := insights + [SuccessCard(total)];
    }
    ghost var ws := insights;
    assert ws == w + Optional(total > 0, SuccessCard(total));
    if |ps| > 0 && |orders| > 0 {
      insights := insights + [InfoCard()];
    }
    assert insights == ws + Optional(|ps| > 0 && |orders| > 0, InfoCard());
  }

  /** The provider's `isProcessing` flag around `askAI`. */
  class AIProvider {
    var isProcessing: bool

    constructor ()
      ensures !isProcessing
    {
      isProcessing := false;
    }

    /** `askAI(question)`: sets the flag, answers, and clears the flag on the way out of every branch. */
    method AskAI(question: string, ps: seq<Products.Product>, orders: seq<Orders.Order>) returns (reply: string)
      modifies this
      ensures reply == Reply(question, ps, orders)
      ensures !isProcessing
    {
      isProcessing := true;
      reply := Answer(question, ps, orders);
      isProcessing := false;
    }
  }
}
