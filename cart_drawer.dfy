/** The cart drawer of components/cart/CartDrawer.tsx: totals and button states
    derived from the store's lines and from whether the persisted cart has been
    loaded (hydration, a boolean input here). */
module CartDrawerView {
  import opened Common
  import opened CartStore

  /** What the drawer's body shows. */
  datatype Body = Loading | EmptyCart | Lines(lines: seq<CartLine>)

  /** `isHydrated ? getTotalItems() : 0` */
  function ShownTotalItems(hydrated: bool, items: seq<CartLine>): (r: int)
    ensures !hydrated ==> r == 0
    ensures hydrated ==> r == TotalItems(items)
  {
    if hydrated then TotalItems(items) else 0
  }

  /** `isHydrated ? getTotalPrice() : 0` */
  function ShownTotalPrice(hydrated: bool, items: seq<CartLine>): (r: int)
    ensures !hydrated ==> r == 0
    ensures hydrated ==> r == TotalPrice(items)
  {
    if hydrated then TotalPrice(items) else 0
  }

  /** The count badge is rendered. */
  predicate BadgeShown(hydrated: bool, items: seq<CartLine>) {
    hydrated && ShownTotalItems(hydrated, items) > 0
  }

  /** "Passer la commande" is disabled. */
  predicate CheckoutDisabled(hydrated: bool, items: seq<CartLine>) {
    !hydrated || |items| == 0
  }

  /** "Voir le panier" is disabled. */
  predicate ViewCartDisabled(hydrated: bool) {
    !hydrated
  }

  /** Loading first, then the empty message, then the lines. */
  function DrawerBody(hydrated: bool, items: seq<CartLine>): (r: Body)
    ensures r.Loading? <==> !hydrated
    ensures r.EmptyCart? <==> hydrated && items == []
    ensures r.Lines? ==> r.lines == items && items != []
    ensures r.Lines? <==> !CheckoutDisabled(hydrated, items)
    ensures r.Loading? <==> ViewCartDisabled(hydrated)
  {
    if !hydrated then Loading else if |items| == 0 then EmptyCart else Lines(items)
  }

  /** The trigger's aria label, `Panier, N article` with an `s` when N > 1. */
  function AriaLabel(totalItems: int): (r: string)
    ensures StartsWith(r, "Panier, ")
    ensures r[|r| - 1] == 's' <==> totalItems > 1
  {
    var base := "Panier, " + IntToString(totalItems) + " article";
    assert base[|base| - 1] == 'e';
    StartsWithConcat("Panier, ", IntToString(totalItems) + " article" + (if totalItems > 1 then "s" else ""));
    assert base + (if totalItems > 1 then "s" else "")
        == "Panier, " + (IntToString(totalItems) + " article" + (if totalItems > 1 then "s" else ""));
    base + (if totalItems > 1 then "s" else "")
  }

  /** Before hydration nothing can be clicked through and no badge shows. */
  lemma NotHydratedShowsNothing(items: seq<CartLine>)
    ensures !BadgeShown(false, items) && CheckoutDisabled(false, items) && ViewCartDisabled(false)
    ensures ShownTotalItems(false, items) == 0 && ShownTotalPrice(false, items) == 0
  {
  }

  /** For a cart whose lines all have a positive quantity (what the store's
      mutators keep), the badge shows exactly when checkout is enabled. */
  lemma BadgeIffCheckoutEnabled(hydrated: bool, items: seq<CartLine>)
    requires forall l :: l in items ==> l.quantite > 0
    ensures BadgeShown(hydrated, items) <==> !CheckoutDisabled(hydrated, items)
  {
    TotalItemsPositive(items);
  }

  /** In a cart of positive lines, the count shown is positive exactly when the
      lines are listed, and is then at least the number of lines; when they are
      not listed both totals show 0; and with no negative unit price the price
      shown is never negative. */
  lemma ShownTotalsMatchBody(hydrated: bool, items: seq<CartLine>)
    requires forall l :: l in items ==> l.quantite > 0
    ensures ShownTotalItems(hydrated, items) > 0 <==> DrawerBody(hydrated, items).Lines?
    ensures DrawerBody(hydrated, items).Lines? ==> ShownTotalItems(hydrated, items) >= |DrawerBody(hydrated, items).lines|
    ensures !DrawerBody(hydrated, items).Lines? ==> ShownTotalItems(hydrated, items) == 0 && ShownTotalPrice(hydrated, items) == 0
    ensures (forall l :: l in items ==> UnitPrice(l) >= 0) ==> ShownTotalPrice(hydrated, items) >= 0
  {
    TotalItemsPositive(items);
    if forall l :: l in items ==> UnitPrice(l) >= 0 {
      TotalPriceNonNegative(items);
    }
  }
}
