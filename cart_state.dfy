/**
 * The cart of one browser tab: the `itemList` array, the total/count outputs
 * that `updateTotal` writes to the page, and the origin's storage slot
 * `cartItems` that every tab shares.
 */
module CartState {
  import opened Wrappers
  import opened CartItems

  /** The storage key the cart is written under. */
  const CartKey := "cartItems"
  /** A second storage key the tabs listen to. */
  const UpdatedKey := "cartUpdated"

  /**
   * The origin's `localStorage`, reduced to the one slot the cart uses:
   * `None` while nothing is stored under `cartItems`. One object is shared by
   * all tabs of the origin.
   */
  class Store {
    var cartItems: Option<seq<Item>>

    constructor (initial: Option<seq<Item>>)
      ensures cartItems == initial
    {
      cartItems := initial;
    }
  }

  /**
   * `JSON.parse(localStorage.getItem('cartItems')) || []`: an absent key
   * reads as the empty cart, a stored list as itself.
   */
  function Load(stored: Option<seq<Item>>): (items: seq<Item>)
    ensures stored.None? ==> items == []
    ensures stored.Some? ==> items == stored.value
  {
    match stored
    case None => []
    case Some(items) => items
  }

  /** The page of one tab: its in-memory cart and the header it keeps up to date. */
  class Cart {
    var itemList: seq<Item>
    const store: Store
    /** The `.total-price` text, in paise. */
    var totalShown: int
    /** The `.cart-count` text. */
    var countShown: int
    /** Whether `.cart-count` is displayed. */
    var badgeShown: bool

    /** The stored copy is the in-memory list. */
    ghost predicate Persisted()
      reads this, store
    {
      store.cartItems == Some(itemList)
    }

    /** The header shows the total and count of the in-memory list. */
    ghost predicate TotalsShown()
      reads this
    {
      totalShown == TotalPrice(itemList) && countShown == ItemCount(itemList)
      && (badgeShown <==> countShown > 0)
    }

    /** Page load: read the stored cart, then fill in the header. */
    constructor (store: Store)
      ensures this.store == store && itemList == Load(store.cartItems)
      ensures store.cartItems == None ==> itemList == []
      ensures TotalsShown()
    {
      this.store := store;
      itemList := Load(store.cartItems);
      new;
      UpdateTotal();
    }

    /** `updateTotal`: recompute the total and count and show them. */
    method UpdateTotal()
      modifies this`totalShown, this`countShown, this`badgeShown
      ensures TotalsShown()
    {
      totalShown, countShown, badgeShown := ComputeTotals(itemList);
    }

    /** `updateCart`: refresh the header and write the list to the store. */
    method UpdateCart()
      modifies this`totalShown, this`countShown, this`badgeShown, store
      ensures TotalsShown() && Persisted()
    {
      UpdateTotal();
      store.cartItems := Some(itemList);
    }

    /**
     * `addCartItem`: a title already in the cart is refused and nothing
     * changes; otherwise the item is appended with quantity 1 and persisted.
     */
    method AddCartItem(title: string, price: nat, imgSrc: string) returns (added: bool)
      modifies this, store
      ensures added <==> !HasTitle(old(itemList), title)
      ensures !added ==> unchanged(this) && unchanged(store)
      ensures added ==> itemList == old(itemList) + [Item(title, price, imgSrc, 1)]
      ensures added ==> Persisted() && TotalsShown()
      ensures added ==> (TotalPrice(itemList) == TotalPrice(old(itemList)) + price
                         && ItemCount(itemList) == ItemCount(old(itemList)) + 1)
      ensures WellFormed(old(itemList)) ==> WellFormed(itemList)
    {
      var existing := Find(itemList, title);
      if existing.Some? {
        return false;
      }
      var item := Item(title, price, imgSrc, 1);
      TotalsAddLine(itemList, item);
      itemList := itemList + [item];
      UpdateCart();
      added := true;
    }

    /**
     * `removeItem`: without confirmation nothing changes; with it every line
     * with that title is filtered out and the list is persisted, even when no
     * line matched.
     */
    method RemoveItem(title: string, confirmed: bool)
      modifies this, store
      ensures !confirmed ==> unchanged(this) && unchanged(store)
      ensures confirmed ==> itemList == Without(old(itemList), title)
      ensures confirmed ==> !HasTitle(itemList, title) && Persisted() && TotalsShown()
      ensures confirmed && !HasTitle(old(itemList), title) ==> itemList == old(itemList)
      ensures confirmed && UniqueTitles(old(itemList)) && HasTitle(old(itemList), title) ==>
        var gone := old(itemList)[FirstIndex(old(itemList), title).value];
        && TotalPrice(itemList) == TotalPrice(old(itemList)) - LineTotal(gone)
        && ItemCount(itemList) == ItemCount(old(itemList)) - gone.quantity
      ensures WellFormed(old(itemList)) ==> WellFormed(itemList)
    {
      if confirmed {
        if UniqueTitles(itemList) && HasTitle(itemList, title) {
          TotalsRemoveLine(itemList, FirstIndex(itemList, title).value);
        }
        if WellFormed(itemList) {
          WithoutWellFormed(itemList, title);
        }
        if !HasTitle(itemList, title) {
          WithoutAbsent(itemList, title);
        }
        itemList := Without(itemList, title);
        UpdateCart();
      }
    }

    /**
     * `changeQuantity`: the first line with that title gets the clamped
     * quantity and the list is persisted; an unknown title changes nothing.
     */
    method ChangeQuantity(title: string, parsed: Option<int>)
      modifies this, store
      ensures !HasTitle(old(itemList), title) ==> unchanged(this) && unchanged(store)
      ensures HasTitle(old(itemList), title) ==>
        var i := FirstIndex(old(itemList), title).value;
        && itemList == old(itemList)[i := old(itemList)[i].(quantity := ClampQuantity(parsed))]
        && Persisted() && TotalsShown()
        && TotalPrice(itemList) == TotalPrice(old(itemList)) - LineTotal(old(itemList)[i]) + LineTotal(itemList[i])
        && ItemCount(itemList) == ItemCount(old(itemList)) - old(itemList)[i].quantity + itemList[i].quantity
      ensures QuantitiesPositive(old(itemList)) ==> QuantitiesPositive(itemList)
      ensures WellFormed(old(itemList)) ==> WellFormed(itemList)
    {
      var found := Find(itemList, title);
      if found.Some? {
        var i := found.value;
        TotalsSetQuantity(itemList, i, ClampQuantity(parsed));
        itemList := itemList[i := itemList[i].(quantity := ClampQuantity(parsed))];
        UpdateCart();
      }
    }

    /**
     * `syncCartAcrossTabs`: a storage event for `cartUpdated` or `cartItems`
     * reloads the list from the store and refreshes the header; any other key
     * is ignored. The store is never written.
     */
    method SyncCartAcrossTabs(key: string)
      modifies this
      ensures unchanged(store)
      ensures key == UpdatedKey || key == CartKey ==> itemList == Load(store.cartItems) && TotalsShown()
      ensures (key == UpdatedKey || key == CartKey) && WellFormed(Load(store.cartItems)) ==> WellFormed(itemList)
      ensures key != UpdatedKey && key != CartKey ==> unchanged(this)
    {
      if key == UpdatedKey || key == CartKey {
        itemList := Load(store.cartItems);
        UpdateTotal();
      }
    }
  }
}
