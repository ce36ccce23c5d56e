/** The wishlist store (`store/wishlistSlice.js`): products deduplicated by id,
    mirrored under the "wishlist" key of browser storage. */
module Wishlist {
  import opened Options
  import opened Seqs
  import opened Storage

  const WishlistKey := "wishlist"

  datatype Product = Product(id: string, name: string, price: int, image: string)

  function HasId(id: string): Product -> bool {
    (p: Product) => p.id == id
  }

  function LacksId(id: string): Product -> bool {
    (p: Product) => p.id != id
  }

  predicate Listed(items: seq<Product>, id: string) {
    exists i :: 0 <= i < |items| && items[i].id == id
  }

  /** No two entries share an id. */
  predicate UniqueIds(items: seq<Product>) {
    forall i, j :: 0 <= i < |items| && 0 <= j < |items| && i != j ==> items[i].id != items[j].id
  }

  /** The list after `addToWishlist(p)`. */
  function WishlistAdd(items: seq<Product>, p: Product): seq<Product> {
    if Listed(items, p.id) then items else items + [p]
  }

  /** The list after `removeFromWishlist(id)`. */
  function WishlistRemove(items: seq<Product>, id: string): seq<Product> {
    Filter(items, LacksId(id))
  }

  /** The initial list: `JSON.parse(getItem("wishlist")) || []`. An absent key
      gives []; text that does not parse (the empty string included) makes the
      store's initialisation throw, which is None here. */
  function LoadWishlist(store: Store<seq<Product>>): (r: Option<seq<Product>>)
    ensures WishlistKey !in store ==> r == Some([])
    ensures WishlistKey in store ==> (r.Some? <==> store[WishlistKey].Stored?)
    ensures r.Some? && WishlistKey in store ==> r.value == store[WishlistKey].value
  {
    if WishlistKey !in store then Some([])
    else match store[WishlistKey]
      case Stored(v) => Some(v)
      case _ => None
  }

  // ---------------------------------------------------------------------------
  // Properties

  /** The product is appended if and only if no entry has its id; otherwise
      nothing changes. */
  lemma AddAppendsIffNew(items: seq<Product>, p: Product)
    ensures !Listed(items, p.id) <==> WishlistAdd(items, p) == items + [p]
    ensures Listed(items, p.id) <==> WishlistAdd(items, p) == items
  {
    if !Listed(items, p.id) {
      assert |items + [p]| != |items|;
    }
  }

  /** After an add the product's id is listed, so adding again is a no-op. */
  lemma AddIdempotent(items: seq<Product>, p: Product)
    ensures Listed(WishlistAdd(items, p), p.id)
    ensures WishlistAdd(WishlistAdd(items, p), p) == WishlistAdd(items, p)
  {
    if !Listed(items, p.id) {
      var r := items + [p];
      assert r[|items|].id == p.id;
    }
  }

  lemma AddKeepsUnique(items: seq<Product>, p: Product)
    requires UniqueIds(items)
    ensures UniqueIds(WishlistAdd(items, p))
  {
  }

  lemma {:induction false} RemoveKeepsUnique(items: seq<Product>, id: string)
    requires UniqueIds(items)
    ensures UniqueIds(WishlistRemove(items, id))
  {
    if items != [] {
      var rest := items[1..];
      assert UniqueIds(rest) by {
        forall i, j | 0 <= i < |rest| && 0 <= j < |rest| && i != j
          ensures rest[i].id != rest[j].id
        {
          assert rest[i] == items[i + 1] && rest[j] == items[j + 1];
        }
      }
      RemoveKeepsUnique(rest, id);
      var tail := WishlistRemove(rest, id);
      if items[0].id != id {
        forall k | 0 <= k < |tail| ensures tail[k].id != items[0].id {
          var m :| 0 <= m < |rest| && rest[m] == tail[k];
          assert rest[m] == items[m + 1];
        }
        UniqueCons(items[0], tail);
      } else {
        assert WishlistRemove(items, id) == [] + tail;
      }
    }
  }

  /** A product whose id is not among a unique list's keeps it unique when put
      in front. */
  lemma UniqueCons(p: Product, tail: seq<Product>)
    requires UniqueIds(tail) && forall k :: 0 <= k < |tail| ==> tail[k].id != p.id
    ensures UniqueIds([p] + tail)
  {
    var r := [p] + tail;
    forall i, j | 0 <= i < |r| && 0 <= j < |r| && i != j ensures r[i].id != r[j].id {
      if i > 0 && j > 0 {
        assert r[i] == tail[i - 1] && r[j] == tail[j - 1];
      } else if i == 0 {
        assert r[j] == tail[j - 1];
      } else {
        assert r[i] == tail[i - 1];
      }
    }
  }

  /** Removal drops every entry with the id and keeps the others in order. */
  lemma RemoveSpec(items: seq<Product>, more: seq<Product>, id: string)
    ensures !Listed(WishlistRemove(items, id), id)
    ensures forall i :: 0 <= i < |items| && items[i].id != id ==> items[i] in WishlistRemove(items, id)
    ensures WishlistRemove(items + more, id) == WishlistRemove(items, id) + WishlistRemove(more, id)
  {
    FilterConcat(items, more, LacksId(id));
  }

  // ---------------------------------------------------------------------------
  // The slice

  class WishlistStore {
    var items: seq<Product>
    var storage: Store<seq<Product>>

    predicate Synced()
      reads this
    {
      WishlistKey in storage && storage[WishlistKey] == Stored(items)
    }

    /** The store can only be created when the stored list parses. */
    constructor (store: Store<seq<Product>>)
      requires LoadWishlist(store).Some?
      ensures storage == store && items == LoadWishlist(store).value
    {
      storage := store;
      items := LoadWishlist(store).value;
    }

    /** A product whose id is already listed is ignored: no list change and no
        storage write. */
    method AddToWishlist(p: Product)
      modifies this
      ensures items == WishlistAdd(old(items), p)
      ensures Listed(old(items), p.id) ==> storage == old(storage)
      ensures !Listed(old(items), p.id) ==> storage == old(storage)[WishlistKey := Stored(items)]
      ensures UniqueIds(old(items)) ==> UniqueIds(items)
      ensures old(Synced()) ==> Synced()
    {
      var k := FindIndex(items, HasId(p.id));
      if k < 0 {
        assert !Listed(items, p.id);
        items := items + [p];
        storage := storage[WishlistKey := Stored(items)];
      }
      if UniqueIds(old(items)) {
        AddKeepsUnique(old(items), p);
      }
    }

    method RemoveFromWishlist(id: string)
      modifies this
      ensures items == WishlistRemove(old(items), id)
      ensures storage == old(storage)[WishlistKey := Stored(items)]
      ensures UniqueIds(old(items)) ==> UniqueIds(items)
      ensures Synced()
    {
      if UniqueIds(items) {
        RemoveKeepsUnique(items, id);
      }
      items := Filter(items, LacksId(id));
      storage := storage[WishlistKey := Stored(items)];
    }
  }
}
