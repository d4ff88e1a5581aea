/** How `process_payment` turns the cart and the order into an application:
    the line items sent to the lender (products, shipping, taxes, fees,
    discount and a balancing line) and the applicant. */
module ApplicationBuilder {
  import opened Wrappers
  import opened Seqs
  import opened MerchantApi
  import opened OrderStore
  import Money

  /** Cart quantities are positive (the price per unit divides by them). */
  type Quantity = q: int | q > 0 witness 1

  /** A cart row: the product's title, quantity, line subtotal in major units
      and SKU. `get_sku()` returns a string, "" when the product has none. */
  datatype CartItem = CartItem(title: string, quantity: Quantity, lineSubtotal: real, sku: string)

  /** A cart fee with its tax, which is charged only when the fee is taxable. */
  datatype Fee = Fee(amount: real, taxable: bool, tax: real)

  /** The cart at payment time. Amounts are in major units. */
  datatype Cart = Cart(items: seq<CartItem>, needsShipping: bool, taxes: seq<real>, fees: seq<Fee>, discountTotal: real)

  const ShippingSku := "SHPNG"
  const TaxSku := "TAX"
  const FeeSku := "FEES"
  const FeeTaxSku := "FEE_TAX"
  const DiscountSku := "DSCNT"
  const OtherSku := "OTHER"

  /** A line item of quantity one. */
  function Single(name: ItemName, price: int, sku: string): LineItem
  {
    LineItem(name, 1, price, Some(sku))
  }

  /** The line of one cart row: unit price `toPence(subtotal / quantity)`.
      `get_sku() ?? get_id()` never reaches the id, since the SKU is never
      null: a product without a SKU is sent with the SKU "". */
  function ProductLine(item: CartItem): (r: LineItem)
    ensures r.name == ProductTitle(item.title) && r.quantity == item.quantity && r.sku == Some(item.sku)
    ensures r.price == Money.ToPence(item.lineSubtotal / item.quantity as real)
  {
    LineItem(ProductTitle(item.title), item.quantity,
             Money.ToPence(item.lineSubtotal / item.quantity as real), Some(item.sku))
  }

  function ProductLines(items: seq<CartItem>): (r: seq<LineItem>)
    ensures |r| == |items|
    ensures forall i :: 0 <= i < |items| ==> r[i] == ProductLine(items[i])
  {
    if |items| == 0 then [] else [ProductLine(items[0])] + ProductLines(items[1..])
  }

  function Subtotal(items: seq<CartItem>): real
  {
    if |items| == 0 then 0.0 else items[0].lineSubtotal + Subtotal(items[1..])
  }

  /** Shipping is itemised when the cart needs shipping and the order charges it. */
  predicate ShippingApplies(cart: Cart, order: Order)
  {
    cart.needsShipping && order.ShippingTotal() > 0.0
  }

  function ShippingLines(cart: Cart, order: Order): seq<LineItem>
  {
    if ShippingApplies(cart, order) then [Single(ShippingLabel, Money.ToPence(order.ShippingTotal()), ShippingSku)] else []
  }

  function ShippingAmount(cart: Cart, order: Order): real
  {
    if ShippingApplies(cart, order) then order.ShippingTotal() else 0.0
  }

  /** One "Taxes" line per tax total, in order, each priced `toPence` of it. */
  function TaxLines(taxes: seq<real>): (r: seq<LineItem>)
    ensures |r| == |taxes|
    ensures forall i :: 0 <= i < |taxes| ==> r[i] == Single(TaxesLabel, Money.ToPence(taxes[i]), TaxSku)
  {
    if |taxes| == 0 then [] else [Single(TaxesLabel, Money.ToPence(taxes[0]), TaxSku)] + TaxLines(taxes[1..])
  }

  function Sum(xs: seq<real>): real
  {
    if |xs| == 0 then 0.0 else xs[0] + Sum(xs[1..])
  }

  /** The lines of one fee: the fee, then its tax when taxable. */
  function FeeLine(fee: Fee): seq<LineItem>
  {
    [Single(FeesLabel, Money.ToPence(fee.amount), FeeSku)]
      + (if fee.taxable then [Single(FeeTaxLabel, Money.ToPence(fee.tax), FeeTaxSku)] else [])
  }

  function FeeLines(fees: seq<Fee>): seq<LineItem>
  {
    if |fees| == 0 then [] else FeeLine(fees[0]) + FeeLines(fees[1..])
  }

  /** What the fees add to the running total: each amount, and each tax of a
      taxable fee. */
  function FeesTotal(fees: seq<Fee>): real
  {
    if |fees| == 0 then 0.0
    else fees[0].amount + (if fees[0].taxable then fees[0].tax else 0.0) + FeesTotal(fees[1..])
  }

  /** A non-zero discount total is itemised as a negative price. */
  function DiscountLines(discount: real): seq<LineItem>
  {
    if discount != 0.0 then [Single(DiscountLabel, Money.ToPence(-discount), DiscountSku)] else []
  }

  function DiscountAmount(discount: real): real
  {
    if discount != 0.0 then discount else 0.0
  }

  /** `$order_total` after the loops: what the itemised lines account for. */
  function Accounted(cart: Cart, order: Order): real
  {
    Subtotal(cart.items) + ShippingAmount(cart, order) + Sum(cart.taxes) + FeesTotal(cart.fees)
      - DiscountAmount(cart.discountTotal)
  }

  /** The balancing amount in minor units: what the order total has beyond
      the itemised lines. */
  function OtherAmount(cart: Cart, order: Order): int
  {
    Money.ToPence(order.Total() - Accounted(cart, order))
  }

  function OtherLines(cart: Cart, order: Order): seq<LineItem>
  {
    var other := OtherAmount(cart, order);
    if other != 0 then [Single(OtherLabel, other, OtherSku)] else []
  }

  /** The quantity-one lines between the products and the balancing line. */
  function ChargeLines(cart: Cart, order: Order): seq<LineItem>
  {
    ShippingLines(cart, order) + TaxLines(cart.taxes) + FeeLines(cart.fees) + DiscountLines(cart.discountTotal)
  }

  /** What the charge lines add to the running total. */
  function Charges(cart: Cart, order: Order): real
  {
    ShippingAmount(cart, order) + Sum(cart.taxes) + FeesTotal(cart.fees) - DiscountAmount(cart.discountTotal)
  }

  /** The items of the application, in the order `process_payment` appends them. */
  function BuildItems(cart: Cart, order: Order): seq<LineItem>
  {
    ProductLines(cart.items) + ChargeLines(cart, order) + OtherLines(cart, order)
  }

  /** The amount the lender is asked to finance: price times quantity, summed. */
  function LinesTotal(lines: seq<LineItem>): int
  {
    if |lines| == 0 then 0 else lines[0].price * lines[0].quantity + LinesTotal(lines[1..])
  }

  /** An amount that is a whole number of minor units. */
  predicate WholeCents(x: real)
  {
    (x * 100.0).Floor as real == x * 100.0
  }

  /** Every amount of the cart is in whole minor units, and so is every
      row's unit price. */
  predicate WholeCentsCart(cart: Cart)
  {
    && (forall i :: 0 <= i < |cart.items| ==> WholeCents(cart.items[i].lineSubtotal / cart.items[i].quantity as real))
    && (forall i :: 0 <= i < |cart.taxes| ==> WholeCents(cart.taxes[i]))
    && (forall i :: 0 <= i < |cart.fees| ==> WholeCents(cart.fees[i].amount) && WholeCents(cart.fees[i].tax))
    && WholeCents(cart.discountTotal)
  }

  lemma ToPenceExact(x: real)
    requires WholeCents(x)
    ensures Money.ToPence(x) as real == x * 100.0
  {
    Money.TruncWhole(x * 100.0);
  }

  lemma WholeCentsAdd(a: real, b: real)
    requires WholeCents(a) && WholeCents(b)
    ensures WholeCents(a + b) && WholeCents(a - b) && WholeCents(-a)
  {
    var ka, kb := (a * 100.0).Floor, (b * 100.0).Floor;
    assert (a + b) * 100.0 == (ka + kb) as real;
    Money.FloorOfInt(ka + kb);
    assert (a - b) * 100.0 == (ka - kb) as real;
    Money.FloorOfInt(ka - kb);
    assert (-a) * 100.0 == (-ka) as real;
    Money.FloorOfInt(-ka);
  }

  lemma {:induction false} LinesTotalAppend(a: seq<LineItem>, b: seq<LineItem>)
    ensures LinesTotal(a + b) == LinesTotal(a) + LinesTotal(b)
    decreases |a|
  {
    if |a| == 0 {
      assert a + b == b;
    } else {
      LinesTotalAppend(a[1..], b);
      assert (a + b)[0] == a[0];
      assert (a + b)[1..] == a[1..] + b;
    }
  }

  /** A whole-cent unit price times the quantity is the row's subtotal. */
  lemma RowTotal(item: CartItem)
    requires WholeCents(item.lineSubtotal / item.quantity as real)
    ensures (ProductLine(item).price * item.quantity) as real == item.lineSubtotal * 100.0
    ensures WholeCents(item.lineSubtotal)
  {
    var q := item.quantity as real;
    var unit := item.lineSubtotal / q;
    ToPenceExact(unit);
    var p := ProductLine(item).price;
    assert p as real == unit * 100.0;
    ScaleBack(unit, q, item.lineSubtotal);
    IntProduct(p, item.quantity);
  }

  lemma ScaleBack(unit: real, q: real, subtotal: real)
    requires q > 0.0 && unit == subtotal / q
    ensures unit * 100.0 * q == subtotal * 100.0
  {
    assert unit * q == subtotal;
  }

  lemma IntProduct(p: int, n: int)
    ensures (p * n) as real == p as real * n as real
  {
  }

  lemma {:induction false} ProductLinesTotal(items: seq<CartItem>)
    requires forall i :: 0 <= i < |items| ==> WholeCents(items[i].lineSubtotal / items[i].quantity as real)
    ensures LinesTotal(ProductLines(items)) as real == Subtotal(items) * 100.0
    ensures WholeCents(Subtotal(items))
    decreases |items|
  {
    if |items| > 0 {
      ProductLinesTotal(items[1..]);
      RowTotal(items[0]);
      assert ProductLines(items)[1..] == ProductLines(items[1..]);
      WholeCentsAdd(items[0].lineSubtotal, Subtotal(items[1..]));
    }
  }

  lemma {:induction false} TaxLinesTotal(taxes: seq<real>)
    requires forall i :: 0 <= i < |taxes| ==> WholeCents(taxes[i])
    ensures LinesTotal(TaxLines(taxes)) as real == Sum(taxes) * 100.0
    ensures WholeCents(Sum(taxes))
    decreases |taxes|
  {
    if |taxes| > 0 {
      TaxLinesTotal(taxes[1..]);
      ToPenceExact(taxes[0]);
      WholeCentsAdd(taxes[0], Sum(taxes[1..]));
    }
  }

  lemma FeeLineTotal(f: Fee)
    requires WholeCents(f.amount) && WholeCents(f.tax)
    ensures LinesTotal(FeeLine(f)) as real == (f.amount + (if f.taxable then f.tax else 0.0)) * 100.0
    ensures WholeCents(f.amount + (if f.taxable then f.tax else 0.0))
  {
    ToPenceExact(f.amount);
    ToPenceExact(f.tax);
    WholeCentsAdd(f.amount, f.tax);
    var fee := Single(FeesLabel, Money.ToPence(f.amount), FeeSku);
    var tax := Single(FeeTaxLabel, Money.ToPence(f.tax), FeeTaxSku);
    if f.taxable {
      assert FeeLine(f) == [fee, tax];
      assert LinesTotal([fee, tax]) == fee.price + LinesTotal([tax]);
    } else {
      assert FeeLine(f) == [fee];
    }
  }

  lemma {:induction false} FeeLinesTotal(fees: seq<Fee>)
    requires forall i :: 0 <= i < |fees| ==> WholeCents(fees[i].amount) && WholeCents(fees[i].tax)
    ensures LinesTotal(FeeLines(fees)) as real == FeesTotal(fees) * 100.0
    ensures WholeCents(FeesTotal(fees))
    decreases |fees|
  {
    if |fees| > 0 {
      var f := fees[0];
      FeeLinesTotal(fees[1..]);
      FeeLineTotal(f);
      LinesTotalAppend(FeeLine(f), FeeLines(fees[1..]));
      WholeCentsAdd(f.amount + (if f.taxable then f.tax else 0.0), FeesTotal(fees[1..]));
    }
  }

  lemma ShippingTotalExact(cart: Cart, order: Order)
    ensures LinesTotal(ShippingLines(cart, order)) as real == ShippingAmount(cart, order) * 100.0
    ensures WholeCents(ShippingAmount(cart, order))
  {
    var s := order.ShippingTotal();
    assert s * 100.0 == order.shippingCents as real;
    ToPenceExact(s);
    assert WholeCents(0.0);
  }

  lemma DiscountTotalExact(d: real)
    requires WholeCents(d)
    ensures LinesTotal(DiscountLines(d)) as real == -DiscountAmount(d) * 100.0
    ensures WholeCents(DiscountAmount(d))
  {
    WholeCentsAdd(d, d);
    ToPenceExact(-d);
    assert WholeCents(0.0);
  }

  lemma ChargesExact(cart: Cart, order: Order)
    requires WholeCentsCart(cart)
    ensures LinesTotal(ChargeLines(cart, order)) as real == Charges(cart, order) * 100.0
    ensures WholeCents(Charges(cart, order))
  {
    var sh, tx, fe, di := ShippingLines(cart, order), TaxLines(cart.taxes), FeeLines(cart.fees), DiscountLines(cart.discountTotal);
    LinesTotalAppend(sh, tx);
    LinesTotalAppend(sh + tx, fe);
    LinesTotalAppend(sh + tx + fe, di);
    ShippingTotalExact(cart, order);
    TaxLinesTotal(cart.taxes);
    FeeLinesTotal(cart.fees);
    DiscountTotalExact(cart.discountTotal);
    var a, b, c, d := ShippingAmount(cart, order), Sum(cart.taxes), FeesTotal(cart.fees), DiscountAmount(cart.discountTotal);
    WholeCentsAdd(a, b);
    WholeCentsAdd(a + b, c);
    WholeCentsAdd(a + b + c, d);
  }

  /** When every amount is a whole number of minor units, the items sent to
      the lender add up exactly to the order total: the balancing line makes
      up whatever the itemised lines do not account for. */
  lemma {:induction false} ItemsReconcile(cart: Cart, order: Order)
    requires WholeCentsCart(cart)
    ensures LinesTotal(BuildItems(cart, order)) == order.totalCents
  {
    var products, charges, other := ProductLines(cart.items), ChargeLines(cart, order), OtherLines(cart, order);
    LinesTotalAppend(products, charges);
    LinesTotalAppend(products + charges, other);
    ProductLinesTotal(cart.items);
    ChargesExact(cart, order);
    var acc := Accounted(cart, order);
    assert acc == Subtotal(cart.items) + Charges(cart, order);
    WholeCentsAdd(Subtotal(cart.items), Charges(cart, order));
    var total := order.Total();
    assert total * 100.0 == order.totalCents as real;
    WholeCentsAdd(total, acc);
    ToPenceExact(total - acc);
    assert LinesTotal(other) as real == (total - acc) * 100.0;
  }

  /** The shape of the items: one line per cart row first, then quantity-one
      lines; a balancing line of the unaccounted amount comes last exactly
      when that amount is at least one minor unit, and no other charge line
      is a balancing line. */
  lemma BuildItemsLayout(cart: Cart, order: Order)
    ensures var r := BuildItems(cart, order);
      var n := |cart.items|;
      && |r| >= n
      && (forall i :: 0 <= i < n ==> r[i] == ProductLine(cart.items[i]))
      && (forall i :: n <= i < |r| ==> r[i].quantity == 1)
      && (OtherAmount(cart, order) != 0 ==> r[|r| - 1] == Single(OtherLabel, OtherAmount(cart, order), OtherSku))
      && (forall i :: n <= i < |r| - 1 ==> r[i].sku != Some(OtherSku))
      && (OtherAmount(cart, order) == 0 ==> forall i :: n <= i < |r| ==> r[i].sku != Some(OtherSku))
  {
    var r := BuildItems(cart, order);
    var charges := ChargeLines(cart, order);
    var other := OtherLines(cart, order);
    ChargeLinesShape(cart, order);
    var n := |cart.items|;
    forall i | n <= i < |r|
      ensures r[i].quantity == 1
      ensures i < n + |charges| ==> r[i].sku != Some(OtherSku) && r[i] == charges[i - n]
    {
      if i < n + |charges| {
        assert r[i] == charges[i - n];
      } else {
        assert r[i] == other[i - n - |charges|];
      }
    }
  }

  /** Every charge line has quantity one and a SKU other than the balancing one. */
  lemma ChargeLinesShape(cart: Cart, order: Order)
    ensures forall i :: 0 <= i < |ChargeLines(cart, order)| ==>
              ChargeLines(cart, order)[i].quantity == 1 && ChargeLines(cart, order)[i].sku != Some(OtherSku)
  {
    TaxLinesSingle(cart.taxes);
    FeeLinesSingle(cart.fees);
  }

  lemma {:induction false} TaxLinesSingle(taxes: seq<real>)
    ensures forall i :: 0 <= i < |TaxLines(taxes)| ==> TaxLines(taxes)[i].quantity == 1 && TaxLines(taxes)[i].sku == Some(TaxSku)
    decreases |taxes|
  {
    if |taxes| > 0 {
      TaxLinesSingle(taxes[1..]);
    }
  }

  lemma {:induction false} FeeLinesSingle(fees: seq<Fee>)
    ensures forall i :: 0 <= i < |FeeLines(fees)| ==>
              FeeLines(fees)[i].quantity == 1 && FeeLines(fees)[i].sku in {Some(FeeSku), Some(FeeTaxSku)}
    decreases |fees|
  {
    if |fees| > 0 {
      FeeLinesSingle(fees[1..]);
      var head := FeeLine(fees[0]);
      forall i | 0 <= i < |FeeLines(fees)|
        ensures FeeLines(fees)[i].quantity == 1 && FeeLines(fees)[i].sku in {Some(FeeSku), Some(FeeTaxSku)}
      {
        if i >= |head| {
          assert FeeLines(fees)[i] == FeeLines(fees[1..])[i - |head|];
        }
      }
    }
  }

  /** Two rows of 10.00 and 5.00 and an order total of 15.00 need no
      balancing line; a total of 15.01 adds one of 1 minor unit. */
  lemma BalancingLineExample()
    ensures var cart := Cart([CartItem("A", 1, 10.0, "a"), CartItem("B", 1, 5.0, "b")], false, [], [], 0.0);
      && OtherLines(cart, Order(Pending, 1500, 0, [], true)) == []
      && OtherLines(cart, Order(Pending, 1501, 0, [], true)) == [Single(OtherLabel, 1, OtherSku)]
  {
    var cart := Cart([CartItem("A", 1, 10.0, "a"), CartItem("B", 1, 5.0, "b")], false, [], [], 0.0);
    assert Subtotal(cart.items) == 15.0;
  }

  /** Billing or shipping address fields of an order. */
  datatype Address = Address(company: string, postcode: string, country: string,
                             address1: string, address2: string, city: string)

  /** The customer details of an order. */
  datatype Contact = Contact(firstName: string, lastName: string, phone: string, email: string,
                             billing: Address, shipping: Address)

  /** PHP `implode(glue, parts)`. */
  function Implode(parts: seq<string>, glue: string): string
  {
    if |parts| == 0 then "" else if |parts| == 1 then parts[0] else parts[0] + glue + Implode(parts[1..], glue)
  }

  /** PHP `array_filter` on a list of strings: drops "" and "0". */
  function NonEmpty(parts: seq<string>): seq<string>
  {
    Filter(parts, (p: string) => !EmptyText(p))
  }

  /** PHP `array_filter` on a string-keyed array. */
  function ArrayFilter(m: map<string, string>): map<string, string>
  {
    map k | k in m && !EmptyText(m[k]) :: m[k]
  }

  /** The address text: second line, first line and city, comma separated. */
  function AddressText(a: Address): string
  {
    Implode(NonEmpty([a.address2, a.address1, a.city]), ", ")
  }

  function AddressFields(a: Address): map<string, string>
  {
    ArrayFilter(map["co" := a.company, "postcode" := a.postcode, "country" := a.country, "text" := AddressText(a)])
  }

  /** The shipping value, or the billing one when the shipping value is empty. */
  function Prefer(shipping: string, billing: string): string
  {
    if EmptyText(shipping) then billing else shipping
  }

  /** The shipping address with each empty field taken from billing. */
  function ShippingOrBilling(c: Contact): Address
  {
    Address(Prefer(c.shipping.company, c.billing.company), Prefer(c.shipping.postcode, c.billing.postcode),
            Prefer(c.shipping.country, c.billing.country), Prefer(c.shipping.address1, c.billing.address1),
            Prefer(c.shipping.address2, c.billing.address2), Prefer(c.shipping.city, c.billing.city))
  }

  function BuildApplicant(c: Contact): Applicant
  {
    Applicant(c.firstName, c.lastName, Remove(c.phone, ' '), c.email,
              AddressFields(c.billing), AddressFields(ShippingOrBilling(c)))
  }

  /** The applicant: the phone number has its spaces removed and nothing
      else; no address field is empty; a shipping field falls back to the
      billing one only when it is empty, so an order without a shipping
      address ships to the billing address. */
  lemma ApplicantShape(c: Contact)
    ensures var a := BuildApplicant(c);
      && ' ' !in a.phoneNumber
      && (forall x :: x in a.phoneNumber <==> x in c.phone && x != ' ')
      && (forall k :: k in a.address ==> !EmptyText(a.address[k]))
      && (forall k :: k in a.shippingAddress ==> !EmptyText(a.shippingAddress[k]))
      && a.address.Keys <= {"co", "postcode", "country", "text"}
      && ("postcode" in a.address <==> !EmptyText(c.billing.postcode))
      && (!EmptyText(c.shipping.postcode) ==> a.shippingAddress["postcode"] == c.shipping.postcode)
      && (EmptyText(c.shipping.postcode) ==> ("postcode" in a.shippingAddress <==> "postcode" in a.address))
      && (c.shipping == Address("", "", "", "", "", "") ==> a.shippingAddress == a.address)
  {
    if c.shipping == Address("", "", "", "", "", "") {
      assert ShippingOrBilling(c) == c.billing;
    }
  }

  /** The application before submission: the billing country, the chosen
      plan, the applicant, the items, the deposit (0 when none is posted) and
      the order id as merchant reference. */
  function BuildApplication(c: Contact, planId: string, deposit: Option<int>, items: seq<LineItem>, orderId: OrderId): Application
  {
    Application(None, c.billing.country, planId, BuildApplicant(c), items, deposit.GetOr(0), Money.NatText(orderId))
  }
}
