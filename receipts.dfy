/**
 * `create_receipt`: the receipt payload built from an order, and the choice
 * of endpoint (and body) by payment method.
 */
module Receipts {
  import opened Wrappers
  import opened Json
  import opened Money
  import opened Text
  import opened Results
  import opened Endpoints

  // ---- Inputs: the dictionaries the caller passes, one field per key read.
  // A key read with `.get` and no default is optional; `None` is sent as null.

  datatype Product = Product(orderProduct: Option<int>, productName: Option<string>, productPrice: Option<Decimal>)

  datatype Client = Client(phone: Option<string>, fullName: Option<string>)

  datatype PaymentInput = PaymentInput(
    paymentType: Option<string>,
    totalAmount: Option<Decimal>,
    paymentSystem: Option<string>,
    invoiceId: Option<string>,
    paymentMethod: Option<string>)

  /** A non-empty discount dictionary; an absent or empty one is `None` at the call. */
  datatype DiscountInput = DiscountInput(discountType: Option<string>, discountAmount: Option<Decimal>)

  /** The three receipt variants, chosen by the `payment_method` string. */
  datatype PaymentMethod = Prepayment | Postpaid | Sale

  function MethodOf(raw: Option<string>): (m: PaymentMethod)
    ensures m == Prepayment <==> raw == Some("PREPAYMENT")
    ensures m == Postpaid <==> raw == Some("POSTPAID")
  {
    if raw == Some("PREPAYMENT") then Prepayment
    else if raw == Some("POSTPAID") then Postpaid
    else Sale
  }

  /** Discount modes: only a value discount is converted to minor units; any other passes through. */
  datatype DiscountMode = ValueMode | PassThroughMode

  function ModeOf(raw: Option<string>): (m: DiscountMode)
    ensures m == ValueMode <==> raw == Some("VALUE")
  {
    if raw == Some("VALUE") then ValueMode else PassThroughMode
  }

  // ---- The payload records, with the wire names of their keys in ToJson below.

  datatype Good = Good(code: string, name: Option<string>, price: int)

  datatype GoodLine = GoodLine(good: Good, quantity: int, isReturn: bool, isWinningsPayout: bool)

  datatype Payment = Payment(
    paymentType: Option<string>,
    value: int,
    orderLabel: string,
    paymentSystem: Option<string>,
    rrn: Option<string>,
    ownerName: Option<string>,
    signatureRequired: bool)

  datatype Discount = Discount(discountType: string, mode: Option<string>, value: Json, name: string)

  datatype Receipt = Receipt(
    id: string,
    cashierName: string,
    goods: seq<GoodLine>,
    deliveryPhone: Option<string>,
    payments: seq<Payment>,
    rounding: bool,
    discounts: Option<seq<Discount>>)

  /** One unit, in thousandths. */
  const OneUnit := 1000

  const DiscountName := "Знижка"

  /** The goods line of one product. */
  function GoodLineOf(p: Product): (g: GoodLine)
    ensures g.good.code == "order_product_" + OptIntToString(p.orderProduct)
    ensures g.good.name == p.productName && g.good.price == ToMinor(p.productPrice.GetOr(Zero))
    ensures g.quantity == OneUnit && !g.isReturn && !g.isWinningsPayout
  {
    GoodLine(
      Good("order_product_" + OptIntToString(p.orderProduct), p.productName, ToMinor(p.productPrice.GetOr(Zero))),
      OneUnit, false, false)
  }

  /** `[f(x) for x in xs]`. */
  function MapSeq<A, B>(xs: seq<A>, f: A -> B): (ys: seq<B>)
    ensures |ys| == |xs|
    ensures forall i :: 0 <= i < |xs| ==> ys[i] == f(xs[i])
  {
    if xs == [] then []
    else
      var last := |xs| - 1;
      var front := MapSeq(xs[..last], f);
      assert forall i :: 0 <= i < last ==> front[i] == f(xs[i]) by {
        forall i | 0 <= i < last ensures front[i] == f(xs[i]) {
          assert xs[..last][i] == xs[i];
        }
      }
      front + [f(xs[last])]
  }

  /** The goods of a receipt: one line per product, in order. */
  function Goods(products: seq<Product>): (goods: seq<GoodLine>)
    ensures |goods| == |products|
    ensures forall i :: 0 <= i < |products| ==> goods[i] == GoodLineOf(products[i])
  {
    MapSeq(products, GoodLineOf)
  }

  /** The single payment of a receipt. */
  function PaymentOf(orderId: int, client: Client, payment: PaymentInput): (p: Payment)
    ensures p.orderLabel == "Order #" + IntToString(orderId) && !p.signatureRequired
    ensures p.value == ToMinor(payment.totalAmount.GetOr(Zero))
    ensures p.paymentType == payment.paymentType && p.paymentSystem == payment.paymentSystem
    ensures p.rrn == payment.invoiceId && p.ownerName == client.fullName
  {
    Payment(
      payment.paymentType,
      ToMinor(payment.totalAmount.GetOr(Zero)),
      "Order #" + IntToString(orderId),
      payment.paymentSystem,
      payment.invoiceId,
      client.fullName,
      false)
  }

  /** A value discount in minor units; any other mode passes the amount on as given. */
  function DiscountOf(d: DiscountInput): (r: Discount)
    ensures r.discountType == "DISCOUNT" && r.mode == d.discountType && r.name == DiscountName
    ensures ModeOf(d.discountType) == ValueMode ==> r.value == Int(ToMinor(d.discountAmount.GetOr(Zero)))
    ensures ModeOf(d.discountType) != ValueMode && d.discountAmount.Some? ==> r.value == JNum(d.discountAmount.value)
    ensures ModeOf(d.discountType) != ValueMode && d.discountAmount.None? ==> r.value == JNull
  {
    var value := match ModeOf(d.discountType)
      case ValueMode => Int(ToMinor(d.discountAmount.GetOr(Zero)))
      case _ => (match d.discountAmount case Some(a) => JNum(a) case None => JNull);
    Discount("DISCOUNT", d.discountType, value, DiscountName)
  }

  /** The receipt `create_receipt` builds, with the fresh receipt id passed in. */
  function ReceiptOf(
    id: string, cashier: string, orderId: int, client: Client,
    products: seq<Product>, discount: Option<DiscountInput>, payment: PaymentInput): (r: Receipt)
    ensures r.id == id && r.cashierName == cashier && r.deliveryPhone == client.phone && !r.rounding
    ensures |r.goods| == |products|
    ensures forall i :: 0 <= i < |products| ==>
              && r.goods[i].good.code == "order_product_" + OptIntToString(products[i].orderProduct)
              && r.goods[i].good.name == products[i].productName
              && r.goods[i].good.price == ToMinor(products[i].productPrice.GetOr(Zero))
              && r.goods[i].quantity == OneUnit && !r.goods[i].isReturn && !r.goods[i].isWinningsPayout
    ensures |r.payments| == 1
    ensures r.payments[0].orderLabel == "Order #" + IntToString(orderId) && !r.payments[0].signatureRequired
    ensures r.payments[0].value == ToMinor(payment.totalAmount.GetOr(Zero))
    ensures r.payments[0].ownerName == client.fullName && r.payments[0].paymentType == payment.paymentType
    ensures r.payments[0].paymentSystem == payment.paymentSystem && r.payments[0].rrn == payment.invoiceId
    ensures r.discounts.Some? <==> discount.Some?
    ensures discount.Some? ==> r.discounts.value == [DiscountOf(discount.value)]
  {
    Receipt(
      id, cashier, Goods(products), client.phone, [PaymentOf(orderId, client, payment)], false,
      match discount case Some(d) => Some([DiscountOf(d)]) case None => None)
  }

  /** A good's code identifies its order product. */
  lemma GoodCodeIdentifiesProduct(p: Product, q: Product)
    requires GoodLineOf(p).good.code == GoodLineOf(q).good.code
    ensures p.orderProduct == q.orderProduct
  {
    var pre := "order_product_";
    var a, b := OptIntToString(p.orderProduct), OptIntToString(q.orderProduct);
    assert (pre + a)[|pre|..] == a && (pre + b)[|pre|..] == b;
    assert a == b;
    // a written integer starts with a digit or '-', never with the 'N' of "None",
    // so either both ids are missing or both are present and written alike
    if p.orderProduct.Some? && q.orderProduct.Some? {
      IntToStringInjective(p.orderProduct.value, q.orderProduct.value);
    }
  }

  /** The payment label identifies the order. */
  lemma OrderLabelIdentifiesOrder(o1: int, o2: int, client: Client, payment: PaymentInput)
    requires PaymentOf(o1, client, payment).orderLabel == PaymentOf(o2, client, payment).orderLabel
    ensures o1 == o2
  {
    var pre := "Order #";
    assert (pre + IntToString(o1))[|pre|..] == IntToString(o1);
    assert (pre + IntToString(o2))[|pre|..] == IntToString(o2);
    IntToStringInjective(o1, o2);
  }

  /** A price with at most two decimals is sent as exactly that many cents. */
  lemma PriceExactInCents(p: Product)
    requires p.productPrice.Some? && p.productPrice.value.exponent <= 2
    ensures GoodLineOf(p).good.price == p.productPrice.value.mantissa * Pow10(2 - p.productPrice.value.exponent)
  {
    ToMinorExact(p.productPrice.value);
  }

  /** A value discount of 5.5 is sent as 550; a percent discount of 10 as 10. */
  lemma DiscountExamples()
    ensures DiscountOf(DiscountInput(Some("VALUE"), Some(Decimal(55, 1)))).value == Int(550)
    ensures DiscountOf(DiscountInput(Some("PERCENT"), Some(Decimal(10, 0)))).value == JNum(Decimal(10, 0))
  {
    ToMinorOfHalfUnit();
  }

  // ---- JSON form of the payload

  function GoodLineJson(g: GoodLine): (j: Json)
    ensures j.JObj? && j.fields.Keys == {"good", "quantity", "is_return", "is_winnings_payout"}
    ensures j.fields["good"] == JObj(map["code" := JStr(g.good.code), "name" := OptStr(g.good.name),
                                         "price" := Int(g.good.price)])
    ensures j.fields["quantity"] == Int(g.quantity) && j.fields["is_return"] == JBool(g.isReturn)
    ensures j.fields["is_winnings_payout"] == JBool(g.isWinningsPayout)
  {
    JObj(map[
      "good" := JObj(map["code" := JStr(g.good.code), "name" := OptStr(g.good.name), "price" := Int(g.good.price)]),
      "quantity" := Int(g.quantity),
      "is_return" := JBool(g.isReturn),
      "is_winnings_payout" := JBool(g.isWinningsPayout)])
  }

  function PaymentJson(p: Payment): (j: Json)
    ensures j.JObj? && j.fields.Keys == {"type", "value", "label", "payment_system", "rrn", "owner_name",
                                         "signature_required"}
    ensures j.fields["type"] == OptStr(p.paymentType) && j.fields["value"] == Int(p.value)
    ensures j.fields["label"] == JStr(p.orderLabel) && j.fields["payment_system"] == OptStr(p.paymentSystem)
    ensures j.fields["rrn"] == OptStr(p.rrn) && j.fields["owner_name"] == OptStr(p.ownerName)
    ensures j.fields["signature_required"] == JBool(p.signatureRequired)
  {
    JObj(map[
      "type" := OptStr(p.paymentType),
      "value" := Int(p.value),
      "label" := JStr(p.orderLabel),
      "payment_system" := OptStr(p.paymentSystem),
      "rrn" := OptStr(p.rrn),
      "owner_name" := OptStr(p.ownerName),
      "signature_required" := JBool(p.signatureRequired)])
  }

  function DiscountJson(d: Discount): (j: Json)
    ensures j.JObj? && j.fields.Keys == {"type", "mode", "value", "name"}
    ensures j.fields["type"] == JStr(d.discountType) && j.fields["mode"] == OptStr(d.mode)
    ensures j.fields["value"] == d.value && j.fields["name"] == JStr(d.name)
  {
    JObj(map["type" := JStr(d.discountType), "mode" := OptStr(d.mode), "value" := d.value, "name" := JStr(d.name)])
  }

  function ListJson<T>(xs: seq<T>, f: T -> Json): (j: Json)
    ensures j.JArr? && |j.items| == |xs| && forall i :: 0 <= i < |xs| ==> j.items[i] == f(xs[i])
  {
    JArr(MapSeq(xs, f))
  }

  const BaseKeys: set<string> := {"id", "cashier_name", "goods", "delivery", "payments", "rounding"}

  /** The keys of the receipt dictionary: `discounts` only when there is a discount. */
  function ReceiptFields(r: Receipt): (m: map<string, Json>)
    ensures m.Keys == if r.discounts.Some? then BaseKeys + {"discounts"} else BaseKeys
    ensures m["id"] == JStr(r.id) && m["cashier_name"] == JStr(r.cashierName)
    ensures m["delivery"] == Single("phone", OptStr(r.deliveryPhone))
    ensures m["goods"] == ListJson(r.goods, GoodLineJson)
    ensures m["payments"] == ListJson(r.payments, PaymentJson)
    ensures m["rounding"] == JBool(r.rounding)
    ensures r.discounts.Some? ==> m["discounts"] == ListJson(r.discounts.value, DiscountJson)
  {
    var base := map[
      "id" := JStr(r.id),
      "cashier_name" := JStr(r.cashierName),
      "goods" := ListJson(r.goods, GoodLineJson),
      "delivery" := Single("phone", OptStr(r.deliveryPhone)),
      "payments" := ListJson(r.payments, PaymentJson),
      "rounding" := JBool(r.rounding)];
    match r.discounts
    case Some(ds) => base["discounts" := ListJson(ds, DiscountJson)]
    case None => base
  }

  function ReceiptJson(r: Receipt): (j: Json)
    ensures j.JObj? && j.fields == ReceiptFields(r) && "goods" in j.fields
  {
    JObj(ReceiptFields(r))
  }

  /** The body of a settlement: the receipt dictionary without its `goods` key. */
  function WithoutGoods(r: Receipt): (body: Json)
    ensures body.JObj? && body.fields.Keys == ReceiptFields(r).Keys - {"goods"}
    ensures forall k :: k in body.fields ==> body.fields[k] == ReceiptFields(r)[k]
  {
    JObj(map k | k in ReceiptFields(r) && k != "goods" :: ReceiptFields(r)[k])
  }

  /**
   * The request (or immediate result) for a built receipt: a prepayment, a
   * settlement of the prepayment `relationId`, or a sale.
   */
  function Dispatch(token: string, r: Receipt, paymentMethod: Option<string>, relationId: Option<string>): (a: Action)
    ensures a.Send? ==> a.verb == Post && a.headers == Bearer(token)
    ensures paymentMethod == Some("PREPAYMENT") ==> a == Send(Post, "prepayment-receipts", Bearer(token), ReceiptJson(r))
    ensures paymentMethod == Some("POSTPAID") && Blank(relationId) ==>
              a == Immediate(BadRequest("relation_id is required for POSTPAID"))
    ensures paymentMethod == Some("POSTPAID") && !Blank(relationId) ==>
              a == Send(Post, "prepayment-receipts/" + relationId.value, Bearer(token), WithoutGoods(r))
    ensures paymentMethod != Some("PREPAYMENT") && paymentMethod != Some("POSTPAID") ==>
              a == Send(Post, "receipts/sell", Bearer(token), ReceiptJson(r))
    ensures a.Immediate? <==> paymentMethod == Some("POSTPAID") && Blank(relationId)
  {
    match MethodOf(paymentMethod)
    case Prepayment => Send(Post, "prepayment-receipts", Bearer(token), ReceiptJson(r))
    case Postpaid =>
      if Blank(relationId) then Immediate(BadRequest("relation_id is required for POSTPAID"))
      else Send(Post, "prepayment-receipts/" + relationId.value, Bearer(token), WithoutGoods(r))
    case Sale => Send(Post, "receipts/sell", Bearer(token), ReceiptJson(r))
  }

  /** Only the settlement body lacks the goods; every sent body keeps all other keys. */
  lemma SentBodyKeys(token: string, r: Receipt, paymentMethod: Option<string>, relationId: Option<string>)
    requires Dispatch(token, r, paymentMethod, relationId).Send?
    ensures var body := Dispatch(token, r, paymentMethod, relationId).body;
            && body.JObj?
            && ("goods" in body.fields <==> paymentMethod != Some("POSTPAID"))
            && body.fields.Keys - {"goods"} == ReceiptFields(r).Keys - {"goods"}
  {
  }

  /** The `goods` loop of `create_receipt`. */
  method BuildGoods(products: seq<Product>) returns (goods: seq<GoodLine>)
    ensures goods == Goods(products)
  {
    goods := [];
    var i := 0;
    while i < |products|
      invariant 0 <= i <= |products|
      invariant goods == Goods(products[..i])
    {
      assert products[..i + 1][..i] == products[..i];
      goods := goods + [GoodLineOf(products[i])];
      i := i + 1;
    }
    assert products[..i] == products;
  }

  /**
   * `create_receipt`: build the receipt, add the discount when one is given,
   * then dispatch on the payment method. `receiptId` stands for the fresh uuid.
   */
  method CreateReceipt(
    token: string, cashier: string, orderId: int, client: Client, products: seq<Product>,
    discount: Option<DiscountInput>, payment: PaymentInput, relationId: Option<string>, receiptId: string)
    returns (a: Action)
    ensures a == Dispatch(token, ReceiptOf(receiptId, cashier, orderId, client, products, discount, payment),
                          payment.paymentMethod, relationId)
  {
    var goods := BuildGoods(products);
    var receipt := Receipt(receiptId, cashier, goods, client.phone, [PaymentOf(orderId, client, payment)], false, None);
    if discount.Some? {
      receipt := receipt.(discounts := Some([DiscountOf(discount.value)]));
    }
    var headers := Bearer(token);
    var paymentMethod := MethodOf(payment.paymentMethod);
    if paymentMethod == Prepayment {
      return Send(Post, "prepayment-receipts", headers, ReceiptJson(receipt));
    }
    if paymentMethod == Postpaid {
      if Blank(relationId) {
        return Immediate(BadRequest("relation_id is required for POSTPAID"));
      }
      return Send(Post, "prepayment-receipts/" + relationId.value, headers, WithoutGoods(receipt));
    }
    a := Send(Post, "receipts/sell", headers, ReceiptJson(receipt));
  }
}
