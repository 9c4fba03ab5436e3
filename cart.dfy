/** The shopping cart (payments/models.py `CartItem`, and `add_to_cart`,
    `view_cart`, `remove_from_cart` in payments/views.py). */
module ShoppingCart {
  import opened Common

  /** A `CartItem` row. `quantity` defaults to 1. */
  datatype CartItem = CartItem(id: CartItemId, user: UserId, artwork: ArtworkId, quantity: int)

  /** The rows the cart keeps: ids strictly increasing (rows are deleted,
      so ids are not positions), every id below the next one to hand out,
      one row per (user, artwork) pair and every quantity at least 1. */
  predicate Rows(items: seq<CartItem>, nextId: nat) {
    && nextId >= 1
    && (forall i :: 0 <= i < |items| ==> 1 <= items[i].id < nextId && items[i].quantity >= 1)
    && (forall i, j :: 0 <= i < j < |items| ==> items[i].id < items[j].id)
    && (forall i, j :: 0 <= i < j < |items| ==>
          items[i].user != items[j].user || items[i].artwork != items[j].artwork)
  }

  /** The position of the row for (user, artwork), the first one there is. */
  function FindItem(items: seq<CartItem>, user: UserId, artwork: ArtworkId): (r: Option<nat>)
    ensures r.Some? ==> r.value < |items| && items[r.value].user == user && items[r.value].artwork == artwork
    ensures r.None? ==> forall i :: 0 <= i < |items| ==> items[i].user != user || items[i].artwork != artwork
  {
    if items == [] then None
    else if items[0].user == user && items[0].artwork == artwork then Some(0)
    else match FindItem(items[1..], user, artwork)
      case Some(k) => Some(k + 1)
      case None => None
  }

  /** How many of `artwork` the user has in the cart: 0 without a row. */
  function QuantityOf(items: seq<CartItem>, user: UserId, artwork: ArtworkId): int {
    match FindItem(items, user, artwork)
    case Some(i) => items[i].quantity
    case None => 0
  }

  /** In well-formed rows the row for a pair is unique, so any row of
      that pair is the one `FindItem` finds. */
  lemma FindItemUnique(items: seq<CartItem>, nextId: nat, i: nat)
    requires Rows(items, nextId) && i < |items|
    ensures FindItem(items, items[i].user, items[i].artwork) == Some(i)
  {
  }

  /** `get_or_create` then increment: the pair's row gains one, or a new
      row with quantity 1 and the next id is appended. */
  function Added(items: seq<CartItem>, nextId: nat, user: UserId, artwork: ArtworkId): (r: (seq<CartItem>, nat))
    ensures FindItem(items, user, artwork).Some? ==> |r.0| == |items| && r.1 == nextId
    ensures FindItem(items, user, artwork).None? ==>
      r.0 == items + [CartItem(nextId, user, artwork, 1)] && r.1 == nextId + 1
  {
    match FindItem(items, user, artwork)
    case Some(i) => (items[i := items[i].(quantity := items[i].quantity + 1)], nextId)
    case None => (items + [CartItem(nextId, user, artwork, 1)], nextId + 1)
  }

  /** Adding keeps the rows well formed. */
  lemma AddedRows(items: seq<CartItem>, nextId: nat, user: UserId, artwork: ArtworkId)
    requires Rows(items, nextId)
    ensures Rows(Added(items, nextId, user, artwork).0, Added(items, nextId, user, artwork).1)
  {
    var (items', nextId') := Added(items, nextId, user, artwork);
    if FindItem(items, user, artwork).Some? {
      assert forall k :: 0 <= k < |items'| ==>
        items'[k].id == items[k].id && items'[k].user == items[k].user
        && items'[k].artwork == items[k].artwork && items'[k].quantity >= items[k].quantity;
    } else {
      assert forall k :: 0 <= k < |items| ==> items'[k] == items[k];
    }
  }

  /** Adding raises the pair's quantity by exactly one and leaves every
      other pair's quantity as it was. */
  lemma AddedQuantities(items: seq<CartItem>, nextId: nat, user: UserId, artwork: ArtworkId,
                        u: UserId, w: ArtworkId)
    requires Rows(items, nextId)
    ensures QuantityOf(Added(items, nextId, user, artwork).0, user, artwork) == QuantityOf(items, user, artwork) + 1
    ensures (u, w) != (user, artwork) ==>
      QuantityOf(Added(items, nextId, user, artwork).0, u, w) == QuantityOf(items, u, w)
  {
    AddedRows(items, nextId, user, artwork);
    var (items', nextId') := Added(items, nextId, user, artwork);
    var found := FindItem(items, user, artwork);
    FindItemUnique(items', nextId', if found.Some? then found.value else |items|);
    var other := FindItem(items, u, w);
    if other.Some? {
      FindItemUnique(items', nextId', other.value);
    } else if (u, w) != (user, artwork) {
      assert FindItem(items', u, w).None?;
    }
  }

  /** The first add of a pair creates one row with quantity 1. */
  lemma FirstAddCreatesOne(items: seq<CartItem>, nextId: nat, user: UserId, artwork: ArtworkId)
    requires Rows(items, nextId) && QuantityOf(items, user, artwork) == 0
    ensures Added(items, nextId, user, artwork).0 == items + [CartItem(nextId, user, artwork, 1)]
  {
  }

  /** `add_to_cart` called `n` times for the same pair. */
  function AddedTimes(items: seq<CartItem>, nextId: nat, user: UserId, artwork: ArtworkId, n: nat): (seq<CartItem>, nat)
    decreases n
  {
    if n == 0 then (items, nextId)
    else
      var (items', nextId') := Added(items, nextId, user, artwork);
      AddedTimes(items', nextId', user, artwork, n - 1)
  }

  /** After `n` adds the pair's quantity has grown by exactly `n`: from
      an empty cart, one row with quantity `n`. */
  lemma {:induction false} AddedTimesQuantity(items: seq<CartItem>, nextId: nat, user: UserId, artwork: ArtworkId, n: nat)
    requires Rows(items, nextId)
    ensures Rows(AddedTimes(items, nextId, user, artwork, n).0, AddedTimes(items, nextId, user, artwork, n).1)
    ensures QuantityOf(AddedTimes(items, nextId, user, artwork, n).0, user, artwork) == QuantityOf(items, user, artwork) + n
    decreases n
  {
    if n > 0 {
      AddedRows(items, nextId, user, artwork);
      AddedQuantities(items, nextId, user, artwork, user, artwork);
      var (items', nextId') := Added(items, nextId, user, artwork);
      AddedTimesQuantity(items', nextId', user, artwork, n - 1);
    }
  }

  /** What one user's cart line contributes to that user's total. */
  function LineTotal(prices: Prices, user: UserId, item: CartItem): int {
    if item.user == user then PriceOf(prices, item.artwork) * item.quantity else 0
  }

  /** The `view_cart` total: the sum over the user's rows of
      `(price or 0) * quantity`. */
  function CartTotal(prices: Prices, user: UserId, items: seq<CartItem>): int {
    if items == [] then 0 else LineTotal(prices, user, items[0]) + CartTotal(prices, user, items[1..])
  }

  /** A user with no rows has a total of 0, whatever others hold. */
  lemma {:induction false} EmptyCartTotalsZero(prices: Prices, user: UserId, items: seq<CartItem>)
    requires forall i :: 0 <= i < |items| ==> items[i].user != user
    ensures CartTotal(prices, user, items) == 0
  {
    if items != [] {
      EmptyCartTotalsZero(prices, user, items[1..]);
    }
  }

  lemma {:induction false} CartTotalAppend(prices: Prices, user: UserId, a: seq<CartItem>, b: seq<CartItem>)
    ensures CartTotal(prices, user, a + b) == CartTotal(prices, user, a) + CartTotal(prices, user, b)
  {
    if a == [] {
      assert a + b == b;
    } else {
      assert (a + b)[1..] == a[1..] + b;
      CartTotalAppend(prices, user, a[1..], b);
    }
  }

  lemma {:induction false} CartTotalUpdate(prices: Prices, user: UserId, items: seq<CartItem>, i: nat, x: CartItem)
    requires i < |items|
    ensures CartTotal(prices, user, items[i := x])
         == CartTotal(prices, user, items) - LineTotal(prices, user, items[i]) + LineTotal(prices, user, x)
  {
    if i == 0 {
      assert items[i := x][1..] == items[1..];
    } else {
      assert items[i := x][1..] == items[1..][i - 1 := x];
      CartTotalUpdate(prices, user, items[1..], i - 1, x);
    }
  }

  lemma {:induction false} CartTotalRemove(prices: Prices, user: UserId, items: seq<CartItem>, i: nat)
    requires i < |items|
    ensures CartTotal(prices, user, items[..i] + items[i + 1..])
         == CartTotal(prices, user, items) - LineTotal(prices, user, items[i])
  {
    assert items == items[..i] + ([items[i]] + items[i + 1..]);
    CartTotalAppend(prices, user, items[..i], [items[i]] + items[i + 1..]);
    CartTotalAppend(prices, user, items[..i], items[i + 1..]);
    assert ([items[i]] + items[i + 1..])[1..] == items[i + 1..];
  }

  /** Adding an artwork raises the adder's total by its price (`or 0`)
      and leaves every other user's total alone. */
  lemma AddRaisesTotal(prices: Prices, items: seq<CartItem>, nextId: nat, user: UserId, artwork: ArtworkId, other: UserId)
    requires Rows(items, nextId)
    ensures CartTotal(prices, user, Added(items, nextId, user, artwork).0)
         == CartTotal(prices, user, items) + PriceOf(prices, artwork)
    ensures other != user ==>
      CartTotal(prices, other, Added(items, nextId, user, artwork).0) == CartTotal(prices, other, items)
  {
    var x := CartItem(nextId, user, artwork, 1);
    match FindItem(items, user, artwork)
    case Some(i) =>
      var y := items[i].(quantity := items[i].quantity + 1);
      CartTotalUpdate(prices, user, items, i, y);
      CartTotalUpdate(prices, other, items, i, y);
    case None =>
      CartTotalAppend(prices, user, items, [x]);
      CartTotalAppend(prices, other, items, [x]);
  }

  /** The position of the row with primary key `id` owned by `user`. */
  function FindOwned(items: seq<CartItem>, id: CartItemId, user: UserId): (r: Option<nat>)
    ensures r.Some? ==> r.value < |items| && items[r.value].id == id && items[r.value].user == user
    ensures r.None? ==> forall i :: 0 <= i < |items| ==> items[i].id != id || items[i].user != user
  {
    if items == [] then None
    else if items[0].id == id && items[0].user == user then Some(0)
    else match FindOwned(items[1..], id, user)
      case Some(k) => Some(k + 1)
      case None => None
  }

  /** Deleting one row keeps the rows well formed, and since ids are
      unique, no row with the deleted id is left. */
  lemma RowsRemove(items: seq<CartItem>, nextId: nat, i: nat)
    requires Rows(items, nextId) && i < |items|
    ensures Rows(items[..i] + items[i + 1..], nextId)
    ensures forall x :: x in items[..i] + items[i + 1..] ==> x.id != items[i].id
  {
    var rest := items[..i] + items[i + 1..];
    assert forall k :: 0 <= k < |rest| ==> rest[k] == items[if k < i then k else k + 1];
  }

  /** What `add_to_cart` and `remove_from_cart` answer. */
  datatype CartResponse = CartNotFound | RedirectViewCart

  /** The `CartItem` table. */
  class Cart {
    var items: seq<CartItem>
    var nextId: nat

    ghost predicate Valid()
      reads this
    {
      Rows(items, nextId)
    }

    constructor ()
      ensures Valid() && items == [] && nextId == 1
    {
      items := [];
      nextId := 1;
    }

    /** `add_to_cart`: an unknown artwork is not found and nothing
        changes; otherwise the rows become `Added` of the old rows. */
    method AddToCart(user: UserId, artwork: ArtworkId, prices: Prices) returns (r: CartResponse)
      requires Valid()
      modifies this
      ensures Valid()
      ensures artwork !in prices ==> r == CartNotFound && items == old(items) && nextId == old(nextId)
      ensures artwork in prices ==>
        r == RedirectViewCart && (items, nextId) == Added(old(items), old(nextId), user, artwork)
      ensures QuantityOf(items, user, artwork) == QuantityOf(old(items), user, artwork) + (if artwork in prices then 1 else 0)
    {
      if artwork !in prices {
        return CartNotFound;
      }
      AddedRows(items, nextId, user, artwork);
      AddedQuantities(items, nextId, user, artwork, user, artwork);
      var found := FindItem(items, user, artwork);
      if found.Some? {
        var i := found.value;
        items := items[i := items[i].(quantity := items[i].quantity + 1)];
      } else {
        items := items + [CartItem(nextId, user, artwork, 1)];
        nextId := nextId + 1;
      }
      r := RedirectViewCart;
    }

    /** `view_cart`: the user's rows, in table order, and their total. */
    function ViewCart(user: UserId, prices: Prices): (r: (seq<CartItem>, int))
      reads this
      ensures r.0 == UserItems(items, user)
      ensures forall x :: x in r.0 <==> x in items && x.user == user
      ensures r.1 == CartTotal(prices, user, items)
      ensures r.0 == [] ==> r.1 == 0
    {
      var mine := UserItems(items, user);
      assert forall x :: x in mine <==> x in items && x.user == user by {
        forall x {
          UserItemsMembers(items, user, x);
        }
      }
      UserItemsTotal(prices, user, items);
      if mine == [] then EmptyCartTotalsZero(prices, user, mine); (mine, CartTotal(prices, user, items))
      else (mine, CartTotal(prices, user, items))
    }

    /** `remove_from_cart`: only a row that has the id and belongs to the
        caller is deleted; anything else is not found and changes nothing. */
    method RemoveFromCart(id: CartItemId, user: UserId) returns (r: CartResponse)
      requires Valid()
      modifies this
      ensures Valid() && nextId == old(nextId)
      ensures FindOwned(old(items), id, user).None? ==> r == CartNotFound && items == old(items)
      ensures FindOwned(old(items), id, user).Some? ==>
        var i := FindOwned(old(items), id, user).value;
        r == RedirectViewCart && items == old(items)[..i] + old(items)[i + 1..]
      ensures forall x :: x in items ==> x.id != id || x.user != user
    {
      var found := FindOwned(items, id, user);
      if found.None? {
        return CartNotFound;
      }
      var i := found.value;
      RowsRemove(items, nextId, i);
      items := items[..i] + items[i + 1..];
      r := RedirectViewCart;
    }
  }

  /** The user's rows, in table order: `CartItem.objects.filter(user=...)`. */
  function UserItems(items: seq<CartItem>, user: UserId): (mine: seq<CartItem>)
    ensures |mine| <= |items|
    ensures forall i :: 0 <= i < |mine| ==> mine[i].user == user
  {
    Filter(items, (x: CartItem) => x.user == user)
  }

  /** A row is shown exactly when it is in the table and belongs to the
      user. */
  lemma UserItemsMembers(items: seq<CartItem>, user: UserId, x: CartItem)
    ensures x in UserItems(items, user) <==> x in items && x.user == user
  {
    FilterMembers(items, (x: CartItem) => x.user == user, x);
  }

  /** Totalling the user's rows alone gives the same total. */
  lemma {:induction false} UserItemsTotal(prices: Prices, user: UserId, items: seq<CartItem>)
    ensures CartTotal(prices, user, UserItems(items, user)) == CartTotal(prices, user, items)
  {
    if items != [] {
      UserItemsTotal(prices, user, items[1..]);
      if items[0].user == user {
        assert ([items[0]] + UserItems(items[1..], user))[1..] == UserItems(items[1..], user);
      }
    }
  }

  /** Removing a row lowers its owner's total by that line and leaves
      every other user's total alone. */
  lemma RemoveLowersTotal(prices: Prices, items: seq<CartItem>, i: nat, other: UserId)
    requires i < |items|
    ensures CartTotal(prices, items[i].user, items[..i] + items[i + 1..])
         == CartTotal(prices, items[i].user, items) - PriceOf(prices, items[i].artwork) * items[i].quantity
    ensures other != items[i].user ==>
      CartTotal(prices, other, items[..i] + items[i + 1..]) == CartTotal(prices, other, items)
  {
    CartTotalRemove(prices, items[i].user, items, i);
    CartTotalRemove(prices, other, items, i);
  }
}
