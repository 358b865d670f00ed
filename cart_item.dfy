/** The handlers of one cart line in components/cart/CartItem.tsx. Each handler
    calls a cart store mutator; the displayed unit price is a pure expression. */
module CartItemView {
  import opened Common
  import opened CartStore

  /** `item.prix + (item.variant?.price_adjustment || 0)` */
  function ItemPrice(item: CartLine): (r: int)
    ensures r == UnitPrice(item)
  {
    var adj := if item.variant.Some? && item.variant.value.priceAdjustment.Some?
               then item.variant.value.priceAdjustment.value else 0;
    item.prix + (if adj != 0 then adj else 0)
  }

  /** The list the store holds after `handleQuantityChange(q)` for `item`. */
  function AfterQuantityChange(items: seq<CartLine>, item: CartLine, q: int): seq<CartLine> {
    if q < 1 then Removed(items, KeyOf(item)) else Updated(items, KeyOf(item), q)
  }

  /** A requested quantity below 1 removes the line; any other is set as is. */
  method HandleQuantityChange(cart: Cart, item: CartLine, q: int)
    modifies cart
    ensures cart.items == AfterQuantityChange(old(cart.items), item, q)
  {
    if q < 1 {
      cart.RemoveItem(item.id, VariantKeyOf(item.variant));
    } else {
      cart.UpdateQuantity(item.id, q, VariantKeyOf(item.variant));
    }
  }

  /** The minus button. */
  method Decrement(cart: Cart, item: CartLine)
    modifies cart
    ensures cart.items == AfterQuantityChange(old(cart.items), item, item.quantite - 1)
  {
    HandleQuantityChange(cart, item, item.quantite - 1);
  }

  /** The plus button. */
  method Increment(cart: Cart, item: CartLine)
    modifies cart
    ensures cart.items == AfterQuantityChange(old(cart.items), item, item.quantite + 1)
  {
    HandleQuantityChange(cart, item, item.quantite + 1);
  }

  /** The number input; `entered` is `Number(e.target.value)`, `None` for NaN
      (an empty field gives 0). */
  method OnInput(cart: Cart, item: CartLine, entered: Option<int>)
    modifies cart
    ensures entered.None? ==> cart.items == old(cart.items)
    ensures entered.Some? ==> cart.items == AfterQuantityChange(old(cart.items), item, entered.value)
  {
    if entered.Some? {
      HandleQuantityChange(cart, item, entered.value);
    }
  }

  /** The trash button. */
  method Trash(cart: Cart, item: CartLine)
    modifies cart
    ensures cart.items == Removed(old(cart.items), KeyOf(item))
  {
    cart.RemoveItem(item.id, VariantKeyOf(item.variant));
  }

  /** Any requested quantity below 1 leaves no line with the item's identity. */
  lemma BelowOneRemoves(items: seq<CartLine>, item: CartLine, q: int)
    requires q < 1
    ensures !HasKey(AfterQuantityChange(items, item, q), KeyOf(item))
    ensures forall l :: KeyOf(l) != KeyOf(item) ==>
              (l in AfterQuantityChange(items, item, q) <==> l in items)
  {
    RemovedExactly(items, KeyOf(item));
  }

  /** The minus button on a line of quantity 1 removes the line and nothing else. */
  lemma MinusOnOneRemoves(items: seq<CartLine>, item: CartLine)
    requires item.quantite == 1
    requires UniqueKeys(items) && item in items
    ensures |AfterQuantityChange(items, item, item.quantite - 1)| == |items| - 1
    ensures !HasKey(AfterQuantityChange(items, item, item.quantite - 1), KeyOf(item))
  {
    var k :| 0 <= k < |items| && items[k] == item;
    RemovedPresentShortensByOne(items, KeyOf(item));
    RemovedExactly(items, KeyOf(item));
  }

  /** In a cart of positive lines with unique identities, the plus button raises
      that line's quantity by exactly one and keeps the length. */
  lemma PlusAddsOne(items: seq<CartLine>, item: CartLine)
    requires UniqueKeys(items) && item in items
    requires forall l :: l in items ==> l.quantite > 0
    ensures var r := AfterQuantityChange(items, item, item.quantite + 1);
            |r| == |items| && item.(quantite := item.quantite + 1) in r
            && forall l :: l in r && KeyOf(l) == KeyOf(item) ==> l.quantite == item.quantite + 1
  {
    var k :| 0 <= k < |items| && items[k] == item;
    var key := KeyOf(item);
    UpdatedPositiveKeepsLength(items, key, item.quantite + 1);
    UpdatedPositiveKeepsLine(items, key, item.quantite + 1, k);
    UpdatedSetsAndPrunes(items, key, item.quantite + 1);
  }

  /** In the same cart, the plus button raises the item count by one and the
      price by the line's unit price. */
  lemma PlusRaisesTotals(items: seq<CartLine>, item: CartLine)
    requires UniqueKeys(items) && item in items
    requires forall l :: l in items ==> l.quantite > 0
    ensures TotalItems(AfterQuantityChange(items, item, item.quantite + 1)) == TotalItems(items) + 1
    ensures TotalPrice(AfterQuantityChange(items, item, item.quantite + 1)) == TotalPrice(items) + UnitPrice(item)
  {
    var k :| 0 <= k < |items| && items[k] == item;
    assert item in items;
    assert AfterQuantityChange(items, item, item.quantite + 1) == Updated(items, KeyOf(items[k]), item.quantite + 1);
    UpdatedTotals(items, k, item.quantite + 1);
  }

  /** A quantity of at least 1 typed into the field is stored as is. */
  lemma InputSetsAbsolute(items: seq<CartLine>, item: CartLine, q: int)
    requires q >= 1 && item in items
    ensures item.(quantite := q) in AfterQuantityChange(items, item, q)
    ensures forall l :: l in AfterQuantityChange(items, item, q) && KeyOf(l) == KeyOf(item) ==> l.quantite == q
  {
    var k :| 0 <= k < |items| && items[k] == item;
    UpdatedPositiveKeepsLine(items, KeyOf(item), q, k);
    UpdatedSetsAndPrunes(items, KeyOf(item), q);
  }
}
