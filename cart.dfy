/** The cart store (`store/cartSlice.js`): a list of cart lines held in memory
    and mirrored under the "cart" key of browser storage. Prices are integer
    paise. */
module Cart {
  import opened Options
  import opened Seqs
  import opened Storage

  const CartKey := "cart"

  /** One cart line. A line is identified by its product id together with its
      variant (color, size, type, carat); a missing variant field is None. */
  datatype CartItem = CartItem(
    id: string, name: string, price: int, image: string,
    color: Option<string>, size: Option<string>, kind: Option<string>, carat: Option<string>,
    quantity: int, addedAt: string)

  /** The payload of `addToCart`; a missing quantity means 1. */
  datatype Payload = Payload(
    id: string, name: string, price: int, image: string,
    color: Option<string>, size: Option<string>, kind: Option<string>, carat: Option<string>,
    quantity: Option<int>)

  function Qty(p: Payload): int {
    if p.quantity.Some? then p.quantity.value else 1
  }

  predicate SameLine(item: CartItem, p: Payload) {
    && item.id == p.id && item.color == p.color && item.size == p.size
    && item.kind == p.kind && item.carat == p.carat
  }

  function IsLineOf(p: Payload): CartItem -> bool {
    (item: CartItem) => SameLine(item, p)
  }

  function HasId(id: string): CartItem -> bool {
    (item: CartItem) => item.id == id
  }

  function LacksId(id: string): CartItem -> bool {
    (item: CartItem) => item.id != id
  }

  /** The line `addToCart` pushes when no line matches; `now` is the ISO time stamp. */
  function NewLine(p: Payload, now: string): CartItem {
    CartItem(p.id, p.name, p.price, p.image, p.color, p.size, p.kind, p.carat, Qty(p), now)
  }

  /** The cart after `addToCart(p)`. */
  function CartAdd(items: seq<CartItem>, p: Payload, now: string): seq<CartItem> {
    var k := FirstIndex(items, IsLineOf(p));
    if k >= 0 then items[k := items[k].(quantity := items[k].quantity + Qty(p))]
    else items + [NewLine(p, now)]
  }

  /** The cart after `removeFromCart(id)`. */
  function CartRemove(items: seq<CartItem>, id: string): seq<CartItem> {
    Filter(items, LacksId(id))
  }

  /** The cart after `updateQuantity({id, quantity: q})`. */
  function CartSetQuantity(items: seq<CartItem>, id: string, q: int): seq<CartItem> {
    var k := FirstIndex(items, HasId(id));
    if k >= 0 && q > 0 then items[k := items[k].(quantity := q)] else items
  }

  function LineTotal(item: CartItem): int {
    item.price * item.quantity
  }

  function LineQuantity(item: CartItem): int {
    item.quantity
  }

  /** `selectCartTotal` */
  function CartTotal(items: seq<CartItem>): int {
    Sum(items, LineTotal)
  }

  /** `selectCartItemCount` */
  function ItemCount(items: seq<CartItem>): int {
    Sum(items, LineQuantity)
  }

  /** `loadCartFromStorage`: the stored list, or [] when the key is absent or
      its text does not parse. */
  function LoadCart(store: Store<seq<CartItem>>): (r: seq<CartItem>)
    ensures CartKey !in store ==> r == []
    ensures CartKey in store && !store[CartKey].Stored? ==> r == []
    ensures CartKey in store && store[CartKey].Stored? ==> r == store[CartKey].value
  {
    if CartKey in store && store[CartKey].Stored? then store[CartKey].value else []
  }

  predicate AllPositive(items: seq<CartItem>) {
    forall i :: 0 <= i < |items| ==> items[i].quantity >= 1
  }

  // ---------------------------------------------------------------------------
  // Properties of the reducers

  /** A payload matching an existing line adds its quantity to that line only. */
  lemma AddToExistingLine(items: seq<CartItem>, p: Payload, now: string, k: nat)
    requires k < |items| && SameLine(items[k], p)
    requires forall j :: 0 <= j < k ==> !SameLine(items[j], p)
    ensures var r := CartAdd(items, p, now);
      && |r| == |items|
      && r[k] == items[k].(quantity := items[k].quantity + Qty(p))
      && forall j :: 0 <= j < |items| && j != k ==> r[j] == items[j]
  {
    FirstIndexIsUnique(items, IsLineOf(p), k);
  }

  /** A payload matching no line appends exactly one new line. */
  lemma AddNewLine(items: seq<CartItem>, p: Payload, now: string)
    requires forall j :: 0 <= j < |items| ==> !SameLine(items[j], p)
    ensures var r := CartAdd(items, p, now);
      && |r| == |items| + 1
      && r[..|items|] == items
      && r[|items|] == NewLine(p, now)
      && r[|items|].quantity == Qty(p)
  {
    FirstIndexIsUnique(items, IsLineOf(p), -1);
  }

  /** Whichever branch runs, the item count grows by exactly the added quantity. */
  lemma AddGrowsItemCount(items: seq<CartItem>, p: Payload, now: string)
    ensures ItemCount(CartAdd(items, p, now)) == ItemCount(items) + Qty(p)
  {
    var k := FirstIndex(items, IsLineOf(p));
    if k >= 0 {
      SumUpdate(items, k, items[k].(quantity := items[k].quantity + Qty(p)), LineQuantity);
    } else {
      SumConcat(items, [NewLine(p, now)], LineQuantity);
    }
  }

  /** Adding a positive quantity keeps every line's quantity at least 1. */
  lemma AddKeepsPositive(items: seq<CartItem>, p: Payload, now: string)
    requires AllPositive(items) && Qty(p) >= 1
    ensures AllPositive(CartAdd(items, p, now))
  {
  }

  /** `removeFromCart` drops every line with the id, whatever its variant, and
      keeps every other line. */
  lemma RemoveDropsExactlyId(items: seq<CartItem>, id: string)
    ensures var r := CartRemove(items, id);
      && (forall i :: 0 <= i < |r| ==> r[i].id != id && r[i] in items)
      && (forall i :: 0 <= i < |items| && items[i].id != id ==> items[i] in r)
  {
  }

  /** Removal preserves relative order: it distributes over concatenation, and
      leaves a cart without the id unchanged. */
  lemma RemoveKeepsOrder(a: seq<CartItem>, b: seq<CartItem>, id: string)
    ensures CartRemove(a + b, id) == CartRemove(a, id) + CartRemove(b, id)
    ensures (forall i :: 0 <= i < |a| ==> a[i].id != id) ==> CartRemove(a, id) == a
  {
    FilterConcat(a, b, LacksId(id));
    if forall i :: 0 <= i < |a| ==> a[i].id != id {
      FilterKeepsAll(a, LacksId(id));
    }
  }

  /** `updateQuantity` sets the first line with the id to q when q > 0 and
      touches nothing else. */
  lemma SetQuantityFirstLine(items: seq<CartItem>, id: string, q: int, k: nat)
    requires k < |items| && items[k].id == id
    requires forall j :: 0 <= j < k ==> items[j].id != id
    requires q > 0
    ensures var r := CartSetQuantity(items, id, q);
      && |r| == |items|
      && r[k] == items[k].(quantity := q)
      && forall j :: 0 <= j < |items| && j != k ==> r[j] == items[j]
  {
    FirstIndexIsUnique(items, HasId(id), k);
  }

  /** A non-positive quantity or an unknown id leaves the cart unchanged. */
  lemma SetQuantityNoop(items: seq<CartItem>, id: string, q: int)
    requires q <= 0 || forall j :: 0 <= j < |items| ==> items[j].id != id
    ensures CartSetQuantity(items, id, q) == items
  {
    if q > 0 {
      FirstIndexIsUnique(items, HasId(id), -1);
    }
  }

  /** The total is the sum of price times quantity over the lines. */
  lemma CartTotalIsLineSum(a: seq<CartItem>, b: seq<CartItem>, x: CartItem)
    ensures CartTotal([]) == 0
    ensures CartTotal([x]) == x.price * x.quantity
    ensures CartTotal(a + b) == CartTotal(a) + CartTotal(b)
  {
    assert [x][1..] == [];
    SumConcat(a, b, LineTotal);
  }

  /** The item count is the sum of quantities over the lines. */
  lemma ItemCountIsQuantitySum(a: seq<CartItem>, b: seq<CartItem>, x: CartItem)
    ensures ItemCount([]) == 0
    ensures ItemCount([x]) == x.quantity
    ensures ItemCount(a + b) == ItemCount(a) + ItemCount(b)
  {
    assert [x][1..] == [];
    SumConcat(a, b, LineQuantity);
  }

  /** What was saved is what a later load returns. */
  lemma SaveThenLoad(store: Store<seq<CartItem>>, items: seq<CartItem>)
    ensures LoadCart(store[CartKey := Stored(items)]) == items
    ensures LoadCart(store - {CartKey}) == []
  {
  }

  // ---------------------------------------------------------------------------
  // The slice

  class CartStore {
    var items: seq<CartItem>
    var storage: Store<seq<CartItem>>

    /** The "cart" key holds exactly the in-memory list. */
    predicate Synced()
      reads this
    {
      CartKey in storage && storage[CartKey] == Stored(items)
    }

    /** The initial state: items loaded from storage. */
    constructor (store: Store<seq<CartItem>>)
      ensures storage == store && items == LoadCart(store)
    {
      storage := store;
      items := LoadCart(store);
    }

    /** `saveCartToStorage(state.items)` */
    method Save()
      modifies this
      ensures items == old(items)
      ensures storage == old(storage)[CartKey := Stored(items)]
      ensures Synced()
    {
      storage := storage[CartKey := Stored(items)];
    }

    method AddToCart(p: Payload, now: string)
      modifies this
      ensures items == CartAdd(old(items), p, now)
      ensures storage == old(storage)[CartKey := Stored(items)]
      ensures Synced()
    {
      var k := FindIndex(items, IsLineOf(p));
      if k >= 0 {
        items := items[k := items[k].(quantity := items[k].quantity + Qty(p))];
      } else {
        items := items + [NewLine(p, now)];
      }
      Save();
    }

    method RemoveFromCart(id: string)
      modifies this
      ensures items == CartRemove(old(items), id)
      ensures storage == old(storage)[CartKey := Stored(items)]
      ensures Synced()
    {
      items := Filter(items, LacksId(id));
      Save();
    }

    /** Storage is written only when a line changed. */
    method UpdateQuantity(id: string, q: int)
      modifies this
      ensures items == CartSetQuantity(old(items), id, q)
      ensures FirstIndex(old(items), HasId(id)) >= 0 && q > 0 ==>
                storage == old(storage)[CartKey := Stored(items)]
      ensures !(FirstIndex(old(items), HasId(id)) >= 0 && q > 0) ==>
                storage == old(storage)
    {
      var k := FindIndex(items, HasId(id));
      if k >= 0 && q > 0 {
        items := items[k := items[k].(quantity := q)];
        Save();
      }
    }

    method ClearCart()
      modifies this
      ensures items == []
      ensures storage == old(storage) - {CartKey}
    {
      items := [];
      storage := storage - {CartKey};
    }

    /** `loadCart`: rehydrate from storage. */
    method LoadFromStorage()
      modifies this
      ensures items == LoadCart(storage) && storage == old(storage)
    {
      items := LoadCart(storage);
    }
  }
}
