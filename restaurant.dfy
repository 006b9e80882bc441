/** The order service's copy of a restaurant and its menu. */
module Restaurants {
  import opened Common
  import opened OrderEvents

  datatype MenuItem = MenuItem(id: string, name: string, price: Money)

  /** A restaurant as the order service sees it. Its fields are set once, by
      the constructor, and read back unchanged by the getters. */
  datatype Restaurant = Restaurant(id: int, name: string, menuItems: seq<MenuItem>)

  /** `findMenuItem`: the first menu item, in menu order, with the given id,
      or nothing when the menu has no such item. */
  function FindMenuItem(menu: seq<MenuItem>, menuItemId: string): (r: Option<MenuItem>)
    ensures r.Some? ==> r.value.id == menuItemId
    ensures r.Some? ==> exists k :: 0 <= k < |menu| && menu[k] == r.value &&
                                    forall j :: 0 <= j < k ==> menu[j].id != menuItemId
    ensures r.None? <==> forall j :: 0 <= j < |menu| ==> menu[j].id != menuItemId
  {
    if menu == [] then None
    else if menu[0].id == menuItemId then Some(menu[0])
    else
      var rest := FindMenuItem(menu[1..], menuItemId);
      assert forall j :: 1 <= j < |menu| ==> menu[j] == menu[1..][j - 1];
      rest
  }

  /** `reviseMenu` is not implemented: it always throws, changing nothing. */
  function ReviseMenu(restaurant: Restaurant, revisedMenu: seq<MenuItem>): (r: Result<seq<OrderDomainEvent>, Error>)
    ensures r == Err(UnsupportedOperation)
  {
    Err(UnsupportedOperation)
  }
}
