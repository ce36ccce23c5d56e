/** The order status badge shared by the order list and the order detail page
    (`getStatusBadgeClass` in `pages/MyAccount/Orders.jsx` and
    `pages/MyAccount/OrderDetail.jsx`, which are the same switch). */
module OrderStatus {

  const Known := ["delivered", "cancelled", "shipped", "processing"]

  function BadgeClass(status: string): (r: string)
    ensures r in ["bg-success", "bg-danger", "bg-info", "bg-primary", "bg-warning"]
  {
    match status
    case "delivered" => "bg-success"
    case "cancelled" => "bg-danger"
    case "shipped" => "bg-info"
    case "processing" => "bg-primary"
    case _ => "bg-warning"
  }

  /** The four known statuses get four different classes; every other status,
      "pending" included, gets the warning class. */
  lemma BadgeClassSpec(s: string, t: string)
    ensures s in Known && t in Known && s != t ==> BadgeClass(s) != BadgeClass(t)
    ensures s !in Known <==> BadgeClass(s) == "bg-warning"
    ensures BadgeClass("pending") == "bg-warning"
  {
  }
}

/** The order list of the account pages (`pages/MyAccount/Orders.jsx`): which
    orders can be cancelled, the image and name shown per item, the two-item
    preview, the pagination bar, and the start-up sequence that probes the
    server and the session before fetching. */
module Orders {
  import opened Options
  import opened Text
  import opened Images
  import OrderService
  import OrderStatus

  /** The product an order item may reference. */
  datatype ProductRef = ProductRef(name: Option<string>, images: Option<seq<Entry>>)

  datatype Variant = Variant(color: Option<string>, size: Option<string>)

  datatype OrderItem = OrderItem(
    productImage: Option<string>, productName: Option<string>, product: Option<ProductRef>,
    quantity: int, variant: Option<Variant>)

  datatype Order = Order(
    id: string, orderNumber: string, status: string, items: seq<OrderItem>,
    trackingNumber: Option<string>, actualDeliveryDate: Option<string>, paymentMethod: string,
    discount: real)

  predicate IsCancelEligible(order: Order) {
    order.status in ["pending", "processing"]
  }

  /** Cancelling is offered for "pending" and for exactly the status that
      wears the processing badge; an order shown as delivered, cancelled or
      shipped is never cancellable. */
  lemma CancelEligibleIff(order: Order)
    ensures IsCancelEligible(order) <==>
              order.status == "pending" || OrderStatus.BadgeClass(order.status) == "bg-primary"
    ensures IsCancelEligible(order) ==> OrderStatus.BadgeClass(order.status) in ["bg-warning", "bg-primary"]
    ensures OrderStatus.BadgeClass(order.status) in ["bg-success", "bg-danger", "bg-info"] ==> !IsCancelEligible(order)
  {
  }

  const ItemPlaceholder := "/placeholder.svg?height=80&width=80&text=Product"

  /** `getProductImage` of the order list. */
  function ProductImage(item: OrderItem): string {
    if Filled(item.productImage) then Resolve(item.productImage.value)
    else if item.product.Some? && item.product.value.images.Some? && item.product.value.images.value != []
            && FirstEntry(item.product.value.images.value).Some? then
      FirstEntry(item.product.value.images.value).value
    else ItemPlaceholder
  }

  /** The item's own image wins; then the product's first image (a string,
      or an object's url); then the placeholder. */
  lemma ProductImagePrecedence(item: OrderItem)
    ensures Filled(item.productImage) ==> ProductImage(item) == Resolve(item.productImage.value)
    ensures !Filled(item.productImage) && item.product.Some? && item.product.value.images.Some?
            && item.product.value.images.value != [] && item.product.value.images.value[0].Path? ==>
              ProductImage(item) == Resolve(item.product.value.images.value[0].path)
    ensures !Filled(item.productImage) && (item.product.None? || item.product.value.images.None?) ==>
              ProductImage(item) == ItemPlaceholder
    ensures Resolved(ProductImage(item)) || ProductImage(item) == ItemPlaceholder
  {
  }

  /** `getProductName`: productName, else product.name, else "Product". */
  function ProductName(item: OrderItem): (r: string)
    ensures r != ""
    ensures Filled(item.productName) ==> r == item.productName.value
    ensures !Filled(item.productName) && item.product.Some? && Filled(item.product.value.name) ==>
              r == item.product.value.name.value
    ensures !Filled(item.productName) && (item.product.None? || !Filled(item.product.value.name)) ==>
              r == "Product"
  {
    if Filled(item.productName) then item.productName.value
    else if item.product.Some? then OrElse(item.product.value.name, "Product")
    else "Product"
  }

  // ---------------------------------------------------------------------------
  // The preview of an order card

  /** `order.items.slice(0, 2)` */
  function Preview(items: seq<OrderItem>): seq<OrderItem> {
    if |items| <= 2 then items else items[..2]
  }

  /** The "+n more items" note. */
  function MoreNote(items: seq<OrderItem>): Option<string> {
    if |items| > 2 then Some("+" + NatToString(|items| - 2) + " more items") else None
  }

  /** The preview holds the first (at most) two items, and the note appears
      exactly when some are hidden, counting exactly the hidden ones. */
  lemma PreviewSpec(items: seq<OrderItem>)
    ensures |Preview(items)| <= 2 && Preview(items) == items[..|Preview(items)|]
    ensures MoreNote(items).Some? <==> |Preview(items)| < |items|
    ensures MoreNote(items).Some? ==>
              MoreNote(items).value == "+" + NatToString(|items| - |Preview(items)|) + " more items"
    ensures |items| <= 2 ==> Preview(items) == items
  {
  }

  // ---------------------------------------------------------------------------
  // The pagination bar

  datatype Pagination = Pagination(currentPage: int, totalPages: nat, totalOrders: nat, hasNext: bool, hasPrev: bool)

  /** What the bar shows: Previous, the numbered pages, Next. */
  datatype Bar = Bar(prevTarget: int, prevDisabled: bool, pages: seq<int>, active: seq<bool>,
                     nextTarget: int, nextDisabled: bool)

  /** The page buttons `[...Array(totalPages)].map((_, index) => index + 1)`. */
  function PageNumbers(n: nat): (r: seq<int>)
    ensures |r| == n
    ensures forall i :: 0 <= i < n ==> r[i] == i + 1
  {
    seq(n, i => i + 1)
  }

  function PaginationBar(p: Pagination): Option<Bar> {
    if p.totalPages > 1 then
      var pages := PageNumbers(p.totalPages);
      Some(Bar(p.currentPage - 1, !p.hasPrev, pages,
               seq(p.totalPages, i requires 0 <= i < p.totalPages => pages[i] == p.currentPage),
               p.currentPage + 1, !p.hasNext))
    else None
  }

  /** The bar is shown only with more than one page; its buttons are 1 to
      totalPages in increasing order, a page is active exactly when it is the
      current one, and Previous/Next step one page and are disabled by the
      server's flags. */
  lemma PaginationBarSpec(p: Pagination)
    ensures PaginationBar(p).Some? <==> p.totalPages > 1
    ensures PaginationBar(p).Some? ==>
      var b := PaginationBar(p).value;
      && |b.pages| == p.totalPages && |b.active| == p.totalPages
      && b.pages[0] == 1 && b.pages[p.totalPages - 1] == p.totalPages
      && (forall i, j :: 0 <= i < j < |b.pages| ==> b.pages[i] < b.pages[j])
      && (forall i :: 0 <= i < |b.active| ==> (b.active[i] <==> b.pages[i] == p.currentPage))
      && b.prevTarget == p.currentPage - 1 && b.nextTarget == p.currentPage + 1
      && (b.prevDisabled <==> !p.hasPrev) && (b.nextDisabled <==> !p.hasNext)
  {
  }

  /** With a current page in range, exactly one button is active. */
  lemma OneActivePage(p: Pagination, i: nat, j: nat)
    requires p.totalPages > 1 && 1 <= p.currentPage <= p.totalPages
    ensures PaginationBar(p).value.active[p.currentPage - 1]
    ensures (i < p.totalPages && j < p.totalPages && PaginationBar(p).value.active[i]
             && PaginationBar(p).value.active[j]) ==> i == j
  {
  }

  // ---------------------------------------------------------------------------
  // The page

  datatype ServerStatus = ServerChecking | Online | Offline
  datatype AuthStatus = AuthChecking | Authenticated | Unauthenticated

  /** The toasts of a failed health probe and of a failed token test. */
  const ServerDownNotice := "Cannot connect to the server. Please ensure the backend is running."
  const LoginNotice := "Please log in to view your orders"

  /** The part of a `getUserOrders` reply the page reads. */
  datatype Listing = Listing(success: bool, orders: seq<Order>, pagination: Pagination)

  class OrdersPage {
    var orders: seq<Order>
    var loading: bool
    var pagination: Pagination
    var serverStatus: ServerStatus
    var authStatus: AuthStatus

    constructor ()
      ensures orders == [] && loading && pagination == Pagination(1, 1, 0, false, false)
      ensures serverStatus == ServerChecking && authStatus == AuthChecking
    {
      orders := [];
      loading := true;
      pagination := Pagination(1, 1, 0, false, false);
      serverStatus := ServerChecking;
      authStatus := AuthChecking;
    }

    /** `fetchOrders(page)` given what `getUserOrders(page, 10)` returned or
        threw; `notice` is the error toast, if any. */
    method FetchOrders(result: OrderService.Result<Listing>) returns (notice: Option<string>)
      modifies this
      ensures !loading
      ensures result.Success? && result.body.data.success ==>
                orders == result.body.data.orders && pagination == result.body.data.pagination && notice == None
      ensures result.Success? && !result.body.data.success ==>
                orders == old(orders) && pagination == old(pagination)
                && notice == Some(OrElse(result.body.message, "Failed to fetch orders"))
      ensures result.Failure? ==>
                orders == old(orders) && pagination == old(pagination)
                && notice == Some(if result.message != "" then result.message else "Failed to fetch orders")
      ensures serverStatus == old(serverStatus) && authStatus == old(authStatus)
    {
      loading := true;
      notice := None;
      match result {
        case Success(body) =>
          if body.data.success {
            orders := body.data.orders;
            pagination := body.data.pagination;
          } else {
            notice := Some(OrElse(body.message, "Failed to fetch orders"));
          }
        case Failure(message) =>
          notice := Some(if message != "" then message else "Failed to fetch orders");
      }
      loading := false;
    }

    /** `checkSystemAndFetchOrders`: the health probe (`healthOk`), then the
        token test (`authOk`), then the first page; the orders are fetched
        (`fetched`) only when both probes succeed. A failed health probe
        leaves the session status "checking". `notice` is the error toast
        of whichever step failed, if any. */
    method CheckSystemAndFetch(healthOk: bool, authOk: bool, result: OrderService.Result<Listing>)
      returns (fetched: bool, notice: Option<string>)
      modifies this
      ensures fetched <==> healthOk && authOk
      ensures serverStatus == if healthOk then Online else Offline
      ensures authStatus == if !healthOk then AuthChecking else if authOk then Authenticated else Unauthenticated
      ensures !loading
      ensures !fetched ==> orders == old(orders) && pagination == old(pagination)
      ensures !healthOk ==> notice == Some(ServerDownNotice)
      ensures healthOk && !authOk ==> notice == Some(LoginNotice)
      ensures fetched && result.Success? && result.body.data.success ==>
                orders == result.body.data.orders && pagination == result.body.data.pagination && notice == None
      ensures fetched && result.Success? && !result.body.data.success ==>
                orders == old(orders) && pagination == old(pagination)
                && notice == Some(OrElse(result.body.message, "Failed to fetch orders"))
      ensures fetched && result.Failure? ==>
                orders == old(orders) && pagination == old(pagination)
                && notice == Some(if result.message != "" then result.message else "Failed to fetch orders")
    {
      loading := true;
      serverStatus := ServerChecking;
      authStatus := AuthChecking;
      fetched := false;
      if !healthOk {
        serverStatus := Offline;
        loading := false;
        notice := Some(ServerDownNotice);
        return;
      }
      serverStatus := Online;
      if !authOk {
        authStatus := Unauthenticated;
        loading := false;
        notice := Some(LoginNotice);
        return;
      }
      authStatus := Authenticated;
      notice := FetchOrders(result);
      fetched := true;
    }
  }
}
