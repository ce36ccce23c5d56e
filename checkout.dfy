/** The checkout page (`pages/Checkout.jsx`): the readiness check run when the
    page opens, the coupon, the order totals, the checks run before an order
    is sent, the order payload built from the cart, and how a failed order is
    reported. Money is integer paise; the totals are exact reals. */
module Checkout {
  import opened Options
  import opened Text
  import opened Seqs
  import opened Images
  import Cart
  import OrderService
  import AddressBook

  datatype ServerStatus = ServerChecking | Online | Offline
  datatype AuthStatus = AuthChecking | Authenticated | Unauthenticated | Unknown

  const CouponCode := "SAVE10"
  const CouponRate: real := 0.1
  /** 10.00 of shipping, in paise. */
  const ShippingFee := 1000
  const TaxRate: real := 0.08

  // ---------------------------------------------------------------------------
  // Totals

  /** `getTotal` before `toFixed`: subtotal + shipping + 8% tax - coupon. */
  function Total(subtotal: int, rate: real): real {
    subtotal as real + ShippingFee as real + TaxRate * subtotal as real - rate * subtotal as real
  }

  /** Without a coupon the total is 108% of the subtotal plus shipping, with it
      98%; either way a non-empty order costs more than the shipping fee. */
  lemma TotalCases(subtotal: int)
    ensures Total(subtotal, 0.0) == 1.08 * subtotal as real + 1000.0
    ensures Total(subtotal, CouponRate) == 0.98 * subtotal as real + 1000.0
    ensures subtotal > 0 ==> Total(subtotal, CouponRate) > ShippingFee as real
    ensures Total(subtotal, 0.0) - Total(subtotal, CouponRate) == 0.1 * subtotal as real
  {
  }

  /** The coupon is accepted exactly when the code is "save10" in any mix of
      letter cases. */
  lemma CouponIff(code: string)
    ensures ToUpper(code) == CouponCode <==>
      && |code| == 6
      && (code[0] == 's' || code[0] == 'S') && (code[1] == 'a' || code[1] == 'A')
      && (code[2] == 'v' || code[2] == 'V') && (code[3] == 'e' || code[3] == 'E')
      && code[4] == '1' && code[5] == '0'
  {
    if ToUpper(code) == CouponCode {
      assert ToUpper(code)[0] == 'S' && ToUpper(code)[1] == 'A' && ToUpper(code)[2] == 'V';
      assert ToUpper(code)[3] == 'E' && ToUpper(code)[4] == '1' && ToUpper(code)[5] == '0';
    } else if |code| == 6 {
      var j :| 0 <= j < 6 && ToUpper(code)[j] != CouponCode[j];
      assert UpperChar(code[j]) != CouponCode[j];
    }
  }

  // ---------------------------------------------------------------------------
  // Product images

  /** The placeholder a cart line may carry instead of an image. */
  const ExternalPlaceholder := "https://via.placeholder.com/100"
  const ImagePlaceholder := "/placeholder.svg?height=100&width=100&text=Product"

  /** The `images` field of a line: absent or falsy, text or a value that is
      not an array once parsed (`JSON.parse` throws or `Array.isArray` fails),
      or an array. */
  datatype Gallery = NoGallery | Malformed | Gallery(entries: seq<Entry>)

  /** `getProductImage` of the checkout page. */
  function ProductImage(image: string, gallery: Gallery): string {
    if image != "" && image != ExternalPlaceholder then Resolve(image)
    else if gallery.Gallery? && FirstEntry(gallery.entries).Some? then FirstEntry(gallery.entries).value
    else ImagePlaceholder
  }

  /** A real image wins and is resolved; otherwise the first gallery entry;
      otherwise the placeholder. Every result is a resolved URL or the
      placeholder. */
  lemma ProductImageCases(image: string, gallery: Gallery)
    ensures image != "" && image != ExternalPlaceholder ==>
              ProductImage(image, gallery) == (if StartsWith(image, "http") then image else UploadsPrefix + image)
    ensures (image == "" || image == ExternalPlaceholder) && gallery.Gallery? && gallery.entries != []
            && gallery.entries[0].Path? ==>
              ProductImage(image, gallery) == Resolve(gallery.entries[0].path)
    ensures (image == "" || image == ExternalPlaceholder) && !gallery.Gallery? ==>
              ProductImage(image, gallery) == ImagePlaceholder
    ensures Resolved(ProductImage(image, gallery)) || ProductImage(image, gallery) == ImagePlaceholder
  {
  }

  // ---------------------------------------------------------------------------
  // Pre-flight checks

  function HasAddressId(id: string): AddressBook.Address -> bool {
    (a: AddressBook.Address) => a.id == id
  }

  /** `addresses.find(addr => addr.id === id)` */
  function FindAddress(list: seq<AddressBook.Address>, id: string): (r: Option<AddressBook.Address>)
    ensures r.Some? ==> r.value in list && r.value.id == id
    ensures r.None? <==> forall i :: 0 <= i < |list| ==> list[i].id != id
  {
    var k := FirstIndex(list, HasAddressId(id));
    if k >= 0 then Some(list[k]) else None
  }

  datatype Reason = ServerDown | LoginNeeded | NoAddressSelected | EmptyCart | InvalidAddress

  /** The checks of `handleConfirmOrder`, in the order they run. */
  const Reasons := [ServerDown, LoginNeeded, NoAddressSelected, EmptyCart, InvalidAddress]

  datatype Gate = Blocked(reason: Reason) | Cleared(address: AddressBook.Address)

  /** Which checks fail, positionally matching `Reasons`. */
  function Failures(server: ServerStatus, ready: bool, loggedIn: bool, auth: AuthStatus,
                    selected: Option<string>, lineCount: nat, list: seq<AddressBook.Address>): seq<bool>
  {
    [server == Offline,
     !(ready && loggedIn && auth == Authenticated),
     !Filled(selected),
     lineCount == 0,
     !Filled(selected) || FindAddress(list, selected.value).None?]
  }

  /** The pre-flight checks: the first failure stops the order. */
  function Preflight(server: ServerStatus, ready: bool, loggedIn: bool, auth: AuthStatus,
                     selected: Option<string>, lineCount: nat, list: seq<AddressBook.Address>): (g: Gate)
    ensures g.Cleared? ==> Filled(selected) && g.address.id == selected.value && g.address in list
  {
    if server == Offline then Blocked(ServerDown)
    else if !(ready && loggedIn && auth == Authenticated) then Blocked(LoginNeeded)
    else if !Filled(selected) then Blocked(NoAddressSelected)
    else if lineCount == 0 then Blocked(EmptyCart)
    else match FindAddress(list, selected.value)
      case None => Blocked(InvalidAddress)
      case Some(a) => Cleared(a)
  }

  function IsTrue(b: bool): bool {
    b
  }

  /** The order is cleared exactly when no check fails, and a blocked order
      reports the first failing check. */
  lemma PreflightFirstFailure(server: ServerStatus, ready: bool, loggedIn: bool, auth: AuthStatus,
                              selected: Option<string>, lineCount: nat, list: seq<AddressBook.Address>)
    ensures var g := Preflight(server, ready, loggedIn, auth, selected, lineCount, list);
            var f := Failures(server, ready, loggedIn, auth, selected, lineCount, list);
            && (g.Cleared? <==> forall k :: 0 <= k < 5 ==> !f[k])
            && (g.Blocked? ==> FirstIndex(f, IsTrue) >= 0 && g.reason == Reasons[FirstIndex(f, IsTrue)])
  {
    var g := Preflight(server, ready, loggedIn, auth, selected, lineCount, list);
    var f := Failures(server, ready, loggedIn, auth, selected, lineCount, list);
    var k := if f[0] then 0 else if f[1] then 1 else if f[2] then 2 else if f[3] then 3 else if f[4] then 4 else -1;
    FirstIndexIsUnique(f, IsTrue, k);
  }

  // ---------------------------------------------------------------------------
  // The order payload

  /** A falsy variant field is sent as null. */
  function Nullable(o: Option<string>): (r: Option<string>)
    ensures r.Some? <==> Filled(o)
    ensures r.Some? ==> r == o
  {
    if Filled(o) then o else None
  }

  datatype Variant = Variant(color: Option<string>, size: Option<string>, kind: Option<string>, carat: Option<string>)

  datatype OrderLine = OrderLine(
    productId: string, productName: string, productImage: string,
    quantity: int, unitPrice: int, totalPrice: int, variant: Variant)

  /** The shipping address sent with an order; `kind` defaults to "home". */
  datatype ShippingData = ShippingData(
    name: string, street: string, city: string, state: string, zip: string,
    country: string, phone: string, kind: string)

  datatype OrderData = OrderData(
    items: seq<OrderLine>, shippingAddress: ShippingData, billingAddress: ShippingData,
    paymentMethod: string, specialInstructions: string,
    subtotal: int, shipping: int, tax: real, discount: real, total: real)

  /** The payload line of one cart line. Cart lines carry no `images` field. */
  function ToOrderLine(item: Cart.CartItem): OrderLine {
    OrderLine(item.id, item.name, ProductImage(item.image, NoGallery), item.quantity, item.price,
      item.price * item.quantity,
      Variant(Nullable(item.color), Nullable(item.size), Nullable(item.kind), Nullable(item.carat)))
  }

  function OrderLines(items: seq<Cart.CartItem>): (r: seq<OrderLine>)
    ensures |r| == |items|
    ensures forall i :: 0 <= i < |items| ==> r[i] == ToOrderLine(items[i])
  {
    seq(|items|, i requires 0 <= i < |items| => ToOrderLine(items[i]))
  }

  function ToShipping(a: AddressBook.Address): ShippingData {
    ShippingData(a.name, a.street, a.city, a.state, a.zip, a.country, a.phone,
      if a.kind != "" then a.kind else "home")
  }

  /** The `orderData` object of `handleConfirmOrder`. */
  function BuildOrder(items: seq<Cart.CartItem>, address: AddressBook.Address, paymentMethod: string,
                      instructions: string, rate: real): OrderData
  {
    var subtotal := Cart.CartTotal(items);
    OrderData(OrderLines(items), ToShipping(address), ToShipping(address),
      if paymentMethod != "" then paymentMethod else "creditCard", instructions,
      subtotal, ShippingFee, TaxRate * subtotal as real, rate * subtotal as real, Total(subtotal, rate))
  }

  function LineTotalPrice(line: OrderLine): int {
    line.totalPrice
  }

  /** The line totals of the payload add up to the cart total. */
  lemma {:induction false} OrderLinesTotal(items: seq<Cart.CartItem>)
    ensures Sum(OrderLines(items), LineTotalPrice) == Cart.CartTotal(items)
  {
    if items != [] {
      assert OrderLines(items)[1..] == OrderLines(items[1..]);
      OrderLinesTotal(items[1..]);
    }
  }

  /** One payload line per cart line, in cart order, carrying the line's id,
      name, resolved image, quantity and unit price, the unit price times
      quantity, and all four variant fields with falsy ones mapped to null;
      billing is shipping, whose type defaults to "home"; the payment method
      defaults to "creditCard"; the totals are consistent with each other. */
  lemma BuildOrderSpec(items: seq<Cart.CartItem>, address: AddressBook.Address, paymentMethod: string,
                       instructions: string, rate: real)
    ensures var o := BuildOrder(items, address, paymentMethod, instructions, rate);
      && |o.items| == |items|
      && (forall i :: 0 <= i < |items| ==>
            && o.items[i].productId == items[i].id && o.items[i].productName == items[i].name
            && o.items[i].productImage == ProductImage(items[i].image, NoGallery)
            && o.items[i].quantity == items[i].quantity && o.items[i].unitPrice == items[i].price
            && o.items[i].totalPrice == items[i].price * items[i].quantity
            && o.items[i].variant == Variant(Nullable(items[i].color), Nullable(items[i].size),
                                             Nullable(items[i].kind), Nullable(items[i].carat))
            && (o.items[i].variant.color.Some? <==> Filled(items[i].color))
            && (o.items[i].variant.size.Some? <==> Filled(items[i].size))
            && (o.items[i].variant.kind.Some? <==> Filled(items[i].kind))
            && (o.items[i].variant.carat.Some? <==> Filled(items[i].carat)))
      && o.billingAddress == o.shippingAddress
      && o.shippingAddress == ShippingData(address.name, address.street, address.city, address.state, address.zip,
                                           address.country, address.phone,
                                           if address.kind != "" then address.kind else "home")
      && o.paymentMethod == (if paymentMethod != "" then paymentMethod else "creditCard")
      && o.subtotal == Cart.CartTotal(items) && o.shipping == ShippingFee
      && Sum(o.items, LineTotalPrice) == o.subtotal
      && o.total == o.subtotal as real + o.shipping as real + o.tax - o.discount
  {
    OrderLinesTotal(items);
  }

  // ---------------------------------------------------------------------------
  // Reporting a failed order

  datatype ErrorKind = SessionExpired | ConnectionLost | Shown(message: string)

  /** The catch block of `handleConfirmOrder`, by substring of the message. */
  function Classify(message: string): ErrorKind {
    if Contains(message, "Authentication required") || Contains(message, "No token provided") then SessionExpired
    else if Contains(message, "Cannot connect to server") then ConnectionLost
    else Shown(if message != "" then message else "Failed to place order. Please try again.")
  }

  /** The messages the order service throws for an expired or missing
      session send the user to the login page. */
  lemma ClassifyServiceErrors<B>(text: string, json: Option<OrderService.Body<B>>)
    ensures Classify(OrderService.AuthExpired) == SessionExpired
    ensures Classify(OrderService.ErrorMessage(OrderService.CreateOrder, 401, text, json)) == SessionExpired
  {
    ContainsAt(OrderService.AuthExpired, "Authentication required", 0);
  }

  /** Whatever surrounds them, the two session phrases lead to the login page
      and the connection phrase, without them, to the connection notice. */
  lemma ClassifyBySubstring(a: string, b: string)
    ensures Classify(a + "Authentication required" + b) == SessionExpired
    ensures Classify(a + "No token provided" + b) == SessionExpired
    ensures var m := a + "Cannot connect to server" + b;
            !Contains(m, "Authentication required") && !Contains(m, "No token provided") ==>
              Classify(m) == ConnectionLost
  {
    ContainsInfix(a, "Authentication required", b);
    ContainsInfix(a, "No token provided", b);
    ContainsInfix(a, "Cannot connect to server", b);
  }

  // ---------------------------------------------------------------------------
  // The page

  /** The part of a `createOrder` reply the page reads. */
  datatype Created = Created(success: bool, orderId: string, orderNumber: string)

  /** A line of the "lastOrder" record. */
  datatype SummaryLine = SummaryLine(
    id: string, name: string, quantity: int, price: int, image: string,
    color: Option<string>, carat: Option<string>)

  /** The "lastOrder" record kept for the confirmation page. */
  datatype LastOrder = LastOrder(
    id: string, orderNumber: string, items: seq<SummaryLine>,
    subtotal: int, shipping: int, tax: real, discount: real, total: real,
    shippingAddress: AddressBook.Address, specialInstructions: string,
    orderDate: string, status: string, paymentMethod: string)

  function ToSummaryLine(item: Cart.CartItem): SummaryLine {
    SummaryLine(item.id, item.name, item.quantity, item.price, ProductImage(item.image, NoGallery),
      Nullable(item.color), Nullable(item.carat))
  }

  function SummaryLines(items: seq<Cart.CartItem>): (r: seq<SummaryLine>)
    ensures |r| == |items|
    ensures forall i :: 0 <= i < |items| ==> r[i] == ToSummaryLine(items[i])
  {
    seq(|items|, i requires 0 <= i < |items| => ToSummaryLine(items[i]))
  }

  function Summary(o: OrderData, c: Created, items: seq<Cart.CartItem>, address: AddressBook.Address,
                   now: string): LastOrder
  {
    LastOrder(c.orderId, c.orderNumber, SummaryLines(items), o.subtotal, o.shipping, o.tax, o.discount,
      o.total, address, o.specialInstructions, now, "pending", o.paymentMethod)
  }

  /** What a press of "Confirm order" ends in. */
  datatype Confirmation = Refused(reason: Reason) | Placed | Failed(kind: ErrorKind)

  /** How a `createOrder` call that was made ends: placed on a reply with
      `success`, otherwise the thrown message (or the reply's message, else
      "Failed to create order") classified by the catch block. */
  function Settle(result: OrderService.Result<Created>): (c: Confirmation)
    ensures c == Placed <==> result.Success? && result.body.data.success
    ensures c != Placed ==> c.Failed?
    ensures result.Failure? ==> c == Failed(Classify(result.message))
    ensures result.Success? && !result.body.data.success ==>
              c == Failed(Classify(OrElse(result.body.message, "Failed to create order")))
  {
    match result
    case Failure(message) => Failed(Classify(message))
    case Success(body) =>
      if body.data.success then Placed else Failed(Classify(OrElse(body.message, "Failed to create order")))
  }

  class CheckoutPage {
    var serverStatus: ServerStatus
    var authStatus: AuthStatus
    var systemReady: bool
    var isLoggedIn: bool
    var couponCode: string
    var couponDiscount: real
    var selectedAddressId: Option<string>
    var addresses: seq<AddressBook.Address>
    var paymentMethod: string
    var specialInstructions: string
    /** The "lastOrder" storage entry. */
    var lastOrder: Option<LastOrder>
    /** The cart store the page reads and clears. */
    const cart: Cart.CartStore

    constructor (cart: Cart.CartStore, addresses: seq<AddressBook.Address>)
      ensures this.cart == cart && this.addresses == addresses
      ensures serverStatus == ServerChecking && authStatus == AuthChecking && !systemReady && !isLoggedIn
      ensures couponCode == "" && couponDiscount == 0.0 && selectedAddressId == None
      ensures paymentMethod == "creditCard" && specialInstructions == "" && lastOrder == None
    {
      this.cart := cart;
      this.addresses := addresses;
      serverStatus := ServerChecking;
      authStatus := AuthChecking;
      systemReady := false;
      isLoggedIn := false;
      couponCode := "";
      couponDiscount := 0.0;
      selectedAddressId := None;
      paymentMethod := "creditCard";
      specialInstructions := "";
      lastOrder := None;
    }

    /** `checkSystemStatus`: the health probe (`healthOk`), then the stored
        credentials, then the token test against the server (`authOk`), which
        is consulted only when credentials are present (`authTested`). */
    method CheckSystemStatus(healthOk: bool, browser: OrderService.Browser,
                             parse: string -> Option<OrderService.UserData>, authOk: bool)
      returns (authTested: bool)
      modifies this
      ensures authTested <==> healthOk && OrderService.IsAuthenticated(browser, parse)
      ensures systemReady <==> authTested && authOk
      ensures isLoggedIn == systemReady
      ensures serverStatus == if healthOk then Online else Offline
      ensures authStatus == if !healthOk then Unknown else if systemReady then Authenticated else Unauthenticated
      ensures couponCode == old(couponCode) && couponDiscount == old(couponDiscount)
      ensures selectedAddressId == old(selectedAddressId) && addresses == old(addresses)
      ensures paymentMethod == old(paymentMethod) && specialInstructions == old(specialInstructions)
      ensures lastOrder == old(lastOrder)
    {
      serverStatus := ServerChecking;
      authStatus := AuthChecking;
      systemReady := false;
      authTested := false;
      if !healthOk {
        serverStatus := Offline;
        authStatus := Unknown;
        isLoggedIn := false;
        systemReady := false;
        return;
      }
      serverStatus := Online;
      var user := OrderService.GetUserData(browser, parse);
      if !OrderService.IsAuthenticated(browser, parse) || !Filled(user.email) {
        authStatus := Unauthenticated;
        isLoggedIn := false;
        return;
      }
      authTested := true;
      if authOk {
        authStatus := Authenticated;
        isLoggedIn := true;
        systemReady := true;
      } else {
        authStatus := Unauthenticated;
        isLoggedIn := false;
      }
    }

    /** `applyCoupon` */
    method ApplyCoupon()
      modifies this
      ensures couponDiscount == if ToUpper(couponCode) == CouponCode then CouponRate else 0.0
      ensures couponCode == old(couponCode) && serverStatus == old(serverStatus)
      ensures authStatus == old(authStatus) && systemReady == old(systemReady) && isLoggedIn == old(isLoggedIn)
      ensures selectedAddressId == old(selectedAddressId) && addresses == old(addresses)
      ensures paymentMethod == old(paymentMethod) && specialInstructions == old(specialInstructions)
      ensures lastOrder == old(lastOrder)
    {
      if ToUpper(couponCode) == CouponCode {
        couponDiscount := CouponRate;
      } else {
        couponDiscount := 0.0;
      }
    }

    /** `handleConfirmOrder`. The order is sent (`sent`) only when every
        pre-flight check passes and the credentials are still present; the
        cart is cleared and "lastOrder" written only when the server reports
        success. */
    method ConfirmOrder(browser: OrderService.Browser, parse: string -> Option<OrderService.UserData>,
                        reply: OrderService.Reply<Created>, now: string)
      returns (outcome: Confirmation, sent: Option<OrderData>)
      modifies this, cart
      ensures var g := Preflight(old(serverStatus), old(systemReady), old(isLoggedIn), old(authStatus),
                                 old(selectedAddressId), |old(cart.items)|, old(addresses));
        && (g.Blocked? ==> outcome == Refused(g.reason) && sent == None)
        && (g.Cleared? && !OrderService.IsAuthenticated(browser, parse) ==>
              outcome == Failed(Classify(OrderService.AuthExpired)) && sent == None)
        && (sent.Some? <==> g.Cleared? && OrderService.IsAuthenticated(browser, parse))
        && (sent.Some? ==> sent.value == BuildOrder(old(cart.items), g.address, old(paymentMethod),
                                                    old(specialInstructions), old(couponDiscount)))
      ensures outcome == Placed <==>
                sent.Some? && reply.Answer? && OrderService.Ok(reply.status) && reply.json.Some?
                && reply.json.value.data.success
      ensures sent.Some? ==> outcome == Settle(OrderService.Perform(OrderService.CreateOrder, browser, parse, reply).result)
      ensures outcome == Placed ==>
                var g := Preflight(old(serverStatus), old(systemReady), old(isLoggedIn), old(authStatus),
                                   old(selectedAddressId), |old(cart.items)|, old(addresses));
                g.Cleared? && lastOrder == Some(Summary(sent.value, reply.json.value.data, old(cart.items), g.address, now))
      ensures outcome == Placed ==> cart.items == [] && cart.storage == old(cart.storage) - {Cart.CartKey}
      ensures outcome != Placed ==> cart.items == old(cart.items) && cart.storage == old(cart.storage)
                                    && lastOrder == old(lastOrder)
      ensures serverStatus == old(serverStatus) && authStatus == old(authStatus)
      ensures systemReady == old(systemReady) && isLoggedIn == old(isLoggedIn)
      ensures couponCode == old(couponCode) && couponDiscount == old(couponDiscount)
      ensures selectedAddressId == old(selectedAddressId) && addresses == old(addresses)
      ensures paymentMethod == old(paymentMethod) && specialInstructions == old(specialInstructions)
    {
      sent := None;
      var gate := Preflight(serverStatus, systemReady, isLoggedIn, authStatus, selectedAddressId,
                            |cart.items|, addresses);
      if gate.Blocked? {
        return Refused(gate.reason), None;
      }
      if !OrderService.IsAuthenticated(browser, parse) {
        return Failed(Classify(OrderService.AuthExpired)), None;
      }
      var order := BuildOrder(cart.items, gate.address, paymentMethod, specialInstructions, couponDiscount);
      sent := Some(order);
      var call := OrderService.Perform(OrderService.CreateOrder, browser, parse, reply);
      outcome := Record(call.result, order, gate.address, now);
    }

    /** What follows `createOrder`: on a reply with `success` the summary is
        stored and the cart cleared; anything else is classified and changes
        nothing. */
    method Record(result: OrderService.Result<Created>, order: OrderData, address: AddressBook.Address,
                  now: string)
      returns (outcome: Confirmation)
      modifies this, cart
      ensures outcome == Settle(result)
      ensures outcome == Placed <==> result.Success? && result.body.data.success
      ensures outcome == Placed ==>
                lastOrder == Some(Summary(order, result.body.data, old(cart.items), address, now))
                && cart.items == [] && cart.storage == old(cart.storage) - {Cart.CartKey}
      ensures result.Failure? ==> outcome == Failed(Classify(result.message))
      ensures result.Success? && !result.body.data.success ==>
                outcome == Failed(Classify(OrElse(result.body.message, "Failed to create order")))
      ensures outcome != Placed ==> cart.items == old(cart.items) && cart.storage == old(cart.storage)
                                    && lastOrder == old(lastOrder)
      ensures serverStatus == old(serverStatus) && authStatus == old(authStatus)
      ensures systemReady == old(systemReady) && isLoggedIn == old(isLoggedIn)
      ensures couponCode == old(couponCode) && couponDiscount == old(couponDiscount)
      ensures selectedAddressId == old(selectedAddressId) && addresses == old(addresses)
      ensures paymentMethod == old(paymentMethod) && specialInstructions == old(specialInstructions)
    {
      match result
      case Failure(message) =>
        outcome := Failed(Classify(message));
      case Success(body) =>
        if body.data.success {
          lastOrder := Some(Summary(order, body.data, cart.items, address, now));
          cart.ClearCart();
          outcome := Placed;
        } else {
          outcome := Failed(Classify(OrElse(body.message, "Failed to create order")));
        }
    }
  }
}
