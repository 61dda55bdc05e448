/** Sessions of one or two tabs, replaying the cart's documented scenarios. */
module CartScenarios {
  import opened Wrappers
  import opened CartItems
  import opened CartState

  /** A fresh origin has an empty cart; adding "Rose" twice keeps one "Rose" line. */
  method DuplicateAdd()
  {
    var store := new Store(None);
    var tab := new Cart(store);
    assert tab.itemList == [];
    var first := tab.AddCartItem("Rose", 10000, "rose.jpg");
    assert tab.itemList[0].title == "Rose";
    var second := tab.AddCartItem("Rose", 10000, "rose.jpg");
    assert first && !second;
    assert tab.itemList == [Item("Rose", 10000, "rose.jpg", 1)];
    assert store.cartItems == Some(tab.itemList);
  }

  /** Rose at Rs.100.00 and Tulip at Rs.50.00, added to an empty cart: Rs.150.00 for 2 items. */
  method AddRoseAndTulip(tab: Cart)
    requires tab.itemList == []
    modifies tab, tab.store
    ensures tab.itemList == [Item("Rose", 10000, "rose.jpg", 1), Item("Tulip", 5000, "tulip.jpg", 1)]
    ensures tab.totalShown == 15000 && tab.countShown == 2
  {
    var _ := tab.AddCartItem("Rose", 10000, "rose.jpg");
    assert tab.itemList == [Item("Rose", 10000, "rose.jpg", 1)];
    assert tab.totalShown == 10000 && tab.countShown == 1;
    assert !HasTitle(tab.itemList, "Tulip");
    var _ := tab.AddCartItem("Tulip", 5000, "tulip.jpg");
  }

  /** Rose with quantity 3 and Tulip: Rs.350.00 for 4 items. */
  method TotalOfTwoLines()
  {
    var store := new Store(None);
    var tab := new Cart(store);
    AddRoseAndTulip(tab);
    assert tab.itemList[0].title == "Rose";
    assert FirstIndex(tab.itemList, "Rose") == Some(0);
    tab.ChangeQuantity("Rose", Some(3));
    assert tab.itemList == [Item("Rose", 10000, "rose.jpg", 3), Item("Tulip", 5000, "tulip.jpg", 1)];
    assert tab.totalShown == 35000 && tab.countShown == 4 && tab.badgeShown;
  }

  /** A quantity input that does not parse, or is not positive, stores 1. */
  method QuantityFloor()
  {
    var store := new Store(Some([Item("Rose", 10000, "rose.jpg", 3)]));
    var tab := new Cart(store);
    assert tab.itemList[0].title == "Rose";
    assert FirstIndex(tab.itemList, "Rose") == Some(0);
    tab.ChangeQuantity("Rose", None);
    assert tab.itemList == [Item("Rose", 10000, "rose.jpg", 1)];
    tab.ChangeQuantity("Rose", Some(-2));
    assert tab.itemList == [Item("Rose", 10000, "rose.jpg", 1)];
    tab.ChangeQuantity("Tulip", Some(5));
    assert tab.itemList == [Item("Rose", 10000, "rose.jpg", 1)];
  }

  /** An unconfirmed removal keeps "Tulip"; a confirmed one drops it. */
  method UnconfirmedRemove()
  {
    var store := new Store(None);
    var tab := new Cart(store);
    var _ := tab.AddCartItem("Tulip", 5000, "tulip.jpg");
    tab.RemoveItem("Tulip", false);
    assert tab.itemList == [Item("Tulip", 5000, "tulip.jpg", 1)];
    tab.RemoveItem("Tulip", true);
    assert tab.itemList == [] && store.cartItems == Some([]);
    assert tab.totalShown == 0 && !tab.badgeShown;
  }

  /** In a tab holding one "Rose", the shopper removes it and adds a "Lily" at Rs.20.00. */
  method SwapRoseForLily(tab: Cart)
    requires tab.itemList == [Item("Rose", 10000, "rose.jpg", 1)]
    modifies tab, tab.store
    ensures tab.itemList == [Item("Lily", 2000, "lily.jpg", 1)]
  {
    tab.RemoveItem("Rose", true);
    assert tab.itemList == [];
    var _ := tab.AddCartItem("Lily", 2000, "lily.jpg");
  }

  /** ... and then asks for two of them. */
  method TwoLilies(tab: Cart)
    requires tab.itemList == [Item("Lily", 2000, "lily.jpg", 1)]
    modifies tab, tab.store
    ensures tab.store.cartItems == Some([Item("Lily", 2000, "lily.jpg", 2)])
  {
    assert tab.itemList[0].title == "Lily";
    assert FirstIndex(tab.itemList, "Lily") == Some(0);
    tab.ChangeQuantity("Lily", Some(2));
    assert tab.itemList == [Item("Lily", 2000, "lily.jpg", 2)];
  }

  /**
   * A second tab's cart of two "Lily" replaces the first tab's cart on the
   * storage event; a repeated event changes nothing more, and an event for
   * an unrelated key is ignored.
   */
  method CrossTabSync()
  {
    var rose := [Item("Rose", 10000, "rose.jpg", 1)];
    var lilies := [Item("Lily", 2000, "lily.jpg", 2)];
    var store := new Store(Some(rose));
    var first := new Cart(store);
    var second := new Cart(store);
    SwapRoseForLily(second);
    TwoLilies(second);
    assert first.itemList == rose && store.cartItems == Some(lilies);
    first.SyncCartAcrossTabs("theme");
    assert first.itemList == rose;
    first.SyncCartAcrossTabs(CartKey);
    assert first.itemList == lilies;
    assert first.totalShown == 4000 && first.countShown == 2;
    first.SyncCartAcrossTabs(UpdatedKey);
    assert first.itemList == lilies && first.totalShown == 4000;
  }
}
