/** The cart store of lib/hooks/useCart.ts: an ordered list of cart lines, the four
    operations that replace it, and the two totals folded over it. A line's identity
    is the triple (product id, variant type, variant value); the variant's price
    adjustment is not part of it. */
module CartStore {
  import opened Common

  /** The variant chosen for a line (`variant?: {type, value, price_adjustment?}`). */
  datatype Variant = Variant(vtype: string, value: string, priceAdjustment: Option<int>)

  /** One cart line (`ArticlePanier`). `prix` is the base price without adjustment. */
  datatype CartLine = CartLine(
    id: int, documentId: Option<string>, nom: string, prix: int, quantite: int,
    image: Option<string>, variant: Option<Variant>)

  /** The `{type, value}` a caller passes to `removeItem` and `updateQuantity`. */
  datatype VariantKey = VariantKey(vtype: string, value: string)

  /** Identity of a line: `item.id`, `item.variant?.type`, `item.variant?.value`. */
  datatype LineKey = LineKey(id: int, variant: Option<VariantKey>)

  function VariantKeyOf(v: Option<Variant>): Option<VariantKey> {
    match v
    case None => None
    case Some(w) => Some(VariantKey(w.vtype, w.value))
  }

  function KeyOf(l: CartLine): LineKey {
    LineKey(l.id, VariantKeyOf(l.variant))
  }

  predicate HasKey(items: seq<CartLine>, key: LineKey) {
    exists j :: 0 <= j < |items| && KeyOf(items[j]) == key
  }

  /** No two lines share an identity. */
  predicate UniqueKeys(items: seq<CartLine>) {
    forall i, j :: 0 <= i < j < |items| ==> KeyOf(items[i]) != KeyOf(items[j])
  }

  /** `items.findIndex(same identity)`: the first matching position, or -1. */
  function FindIndex(items: seq<CartLine>, key: LineKey): (k: int)
    ensures -1 <= k < |items|
    ensures 0 <= k ==> KeyOf(items[k]) == key
    ensures 0 <= k ==> forall j :: 0 <= j < k ==> KeyOf(items[j]) != key
    ensures k == -1 <==> !HasKey(items, key)
  {
    if items == [] then -1
    else if KeyOf(items[0]) == key then 0
    else
      var k := FindIndex(items[1..], key);
      assert forall j :: 1 <= j < |items| ==> items[j] == items[1..][j - 1];
      if k == -1 then -1 else k + 1
  }

  /** The list `addItem(n)` stores: the matching line's quantity raised by
      `n.quantite`, or `n` appended when no line matches. */
  function Added(items: seq<CartLine>, n: CartLine): seq<CartLine> {
    var k := FindIndex(items, KeyOf(n));
    if k > -1 then items[k := items[k].(quantite := items[k].quantite + n.quantite)]
    else items + [n]
  }

  /** The list `removeItem(productId, variant)` stores. */
  function Removed(items: seq<CartLine>, key: LineKey): seq<CartLine> {
    Filter(items, (l: CartLine) => KeyOf(l) != key)
  }

  /** `items.map(...)` of `updateQuantity`: every matching line gets quantity `q`. */
  function WithQuantity(items: seq<CartLine>, key: LineKey, q: int): (r: seq<CartLine>)
    ensures |r| == |items|
  {
    seq(|items|, i requires 0 <= i < |items| =>
      if KeyOf(items[i]) == key then items[i].(quantite := q) else items[i])
  }

  /** The list `updateQuantity(productId, q, variant)` stores: the quantity set,
      then every line whose quantity is 0 or less dropped. */
  function Updated(items: seq<CartLine>, key: LineKey, q: int): seq<CartLine> {
    Filter(WithQuantity(items, key, q), (l: CartLine) => l.quantite > 0)
  }

  /** `getTotalItems`: the quantities summed in `reduce` order. */
  function TotalItems(items: seq<CartLine>): int {
    if items == [] then 0 else TotalItems(items[..|items| - 1]) + items[|items| - 1].quantite
  }

  /** `item.prix + (item.variant?.price_adjustment ?? 0)` */
  function UnitPrice(l: CartLine): int {
    l.prix + (if l.variant.Some? then l.variant.value.priceAdjustment.GetOr(0) else 0)
  }

  /** `getTotalPrice`: unit price times quantity, summed in `reduce` order. */
  function TotalPrice(items: seq<CartLine>): int {
    if items == [] then 0
    else TotalPrice(items[..|items| - 1]) + UnitPrice(items[|items| - 1]) * items[|items| - 1].quantite
  }

  // ---------------------------------------------------------------------------
  // addItem

  /** A line whose identity is already present raises that line's quantity by the
      added amount; the length and every other line stay as they were. */
  lemma AddExistingMerges(items: seq<CartLine>, n: CartLine, k: int)
    requires 0 <= k < |items| && KeyOf(items[k]) == KeyOf(n)
    requires UniqueKeys(items)
    ensures |Added(items, n)| == |items|
    ensures Added(items, n)[k] == items[k].(quantite := items[k].quantite + n.quantite)
    ensures forall j :: 0 <= j < |items| && j != k ==> Added(items, n)[j] == items[j]
  {
    assert FindIndex(items, KeyOf(n)) == k;
  }

  /** A line with a new identity is appended at the end. */
  lemma AddNewAppends(items: seq<CartLine>, n: CartLine)
    requires !HasKey(items, KeyOf(n))
    ensures Added(items, n) == items + [n]
    ensures |Added(items, n)| == |items| + 1
  {
  }

  /** Two additions that differ only in the price adjustment land on one line,
      which keeps the adjustment of the first. */
  lemma AdjustmentIsNotIdentity(items: seq<CartLine>, a: CartLine, b: CartLine)
    requires !HasKey(items, KeyOf(a))
    requires b == a.(variant := b.variant) && a.variant.Some? && b.variant.Some?
    requires b.variant.value == a.variant.value.(priceAdjustment := b.variant.value.priceAdjustment)
    ensures Added(Added(items, a), b) == items + [a.(quantite := a.quantite + b.quantite)]
  {
    var once := Added(items, a);
    assert once == items + [a];
    assert KeyOf(b) == KeyOf(a);
    var f := FindIndex(once, KeyOf(b));
    assert KeyOf(once[|items|]) == KeyOf(b);
    assert f == |items|;
  }

  /** `addItem` never creates a second line with an existing identity. */
  lemma AddedKeepsUnique(items: seq<CartLine>, n: CartLine)
    requires UniqueKeys(items)
    ensures UniqueKeys(Added(items, n))
  {
    var r := Added(items, n);
    var k := FindIndex(items, KeyOf(n));
    if k > -1 {
      forall j | 0 <= j < |items| ensures KeyOf(r[j]) == KeyOf(items[j]) {
      }
    } else {
      forall i, j | 0 <= i < j < |r| ensures KeyOf(r[i]) != KeyOf(r[j]) {
        if j == |items| {
          assert r[j] == n && r[i] == items[i];
        }
      }
    }
  }

  // ---------------------------------------------------------------------------
  // removeItem

  /** `removeItem` deletes exactly the lines with the given identity. */
  lemma RemovedExactly(items: seq<CartLine>, key: LineKey)
    ensures forall l :: l in Removed(items, key) <==> l in items && KeyOf(l) != key
    ensures !HasKey(Removed(items, key), key)
  {
    var r := Removed(items, key);
    assert forall j :: 0 <= j < |r| ==> r[j] in r;
  }

  /** `removeItem` keeps the remaining lines in their order: removing from a
      concatenation is removing from each part. */
  lemma RemovedKeepsOrder(a: seq<CartLine>, b: seq<CartLine>, key: LineKey)
    ensures Removed(a + b, key) == Removed(a, key) + Removed(b, key)
  {
    FilterConcat(a, b, (l: CartLine) => KeyOf(l) != key);
  }

  /** Removing an identity nobody has changes nothing. */
  lemma RemovedAbsentIsNoOp(items: seq<CartLine>, key: LineKey)
    requires !HasKey(items, key)
    ensures Removed(items, key) == items
  {
    var keep := (l: CartLine) => KeyOf(l) != key;
    forall l | l in items ensures keep(l) {
      var j :| 0 <= j < |items| && items[j] == l;
    }
    FilterAllKept(items, keep);
  }

  /** With unique identities, removing a present line shortens the list by one. */
  lemma {:induction false} RemovedPresentShortensByOne(items: seq<CartLine>, key: LineKey)
    requires UniqueKeys(items) && HasKey(items, key)
    ensures |Removed(items, key)| == |items| - 1
    decreases |items|
  {
    var keep := (l: CartLine) => KeyOf(l) != key;
    var rest := items[1..];
    assert items == [items[0]] + rest;
    FilterConcat([items[0]], rest, keep);
    assert Filter([items[0]], keep) == (if keep(items[0]) then [items[0]] else []) + Filter([], keep);
    if KeyOf(items[0]) == key {
      forall j | 0 <= j < |rest| ensures KeyOf(rest[j]) != key {
        assert rest[j] == items[j + 1];
      }
      RemovedAbsentIsNoOp(rest, key);
    } else {
      var j :| 0 <= j < |items| && KeyOf(items[j]) == key;
      assert KeyOf(rest[j - 1]) == key;
      assert UniqueKeys(rest) by {
        forall a, b | 0 <= a < b < |rest| ensures KeyOf(rest[a]) != KeyOf(rest[b]) {
          assert rest[a] == items[a + 1] && rest[b] == items[b + 1];
        }
      }
      RemovedPresentShortensByOne(rest, key);
    }
  }

  /** Filtering a list with unique identities keeps them unique. */
  lemma {:induction false} FilterKeepsUnique(items: seq<CartLine>, keep: CartLine -> bool)
    requires UniqueKeys(items)
    ensures UniqueKeys(Filter(items, keep))
    decreases |items|
  {
    if items != [] {
      var rest := items[1..];
      assert UniqueKeys(rest) by {
        forall a, b | 0 <= a < b < |rest| ensures KeyOf(rest[a]) != KeyOf(rest[b]) {
          assert rest[a] == items[a + 1] && rest[b] == items[b + 1];
        }
      }
      FilterKeepsUnique(rest, keep);
      var tail := Filter(rest, keep);
      var r := Filter(items, keep);
      if keep(items[0]) {
        assert r == [items[0]] + tail;
        forall i, j | 0 <= i < j < |r| ensures KeyOf(r[i]) != KeyOf(r[j]) {
          if i == 0 {
            assert r[j] == tail[j - 1] && r[j] in rest;
            var m :| 0 <= m < |rest| && rest[m] == r[j];
            assert items[m + 1] == r[j];
          } else {
            assert r[i] == tail[i - 1] && r[j] == tail[j - 1];
          }
        }
      } else {
        assert r == tail;
      }
    }
  }

  lemma RemovedKeepsUnique(items: seq<CartLine>, key: LineKey)
    requires UniqueKeys(items)
    ensures UniqueKeys(Removed(items, key))
  {
    FilterKeepsUnique(items, (l: CartLine) => KeyOf(l) != key);
  }

  // ---------------------------------------------------------------------------
  // updateQuantity

  /** After `updateQuantity` no line has a quantity of 0 or less; every line with
      the identity holds exactly `q`, so `q <= 0` removes the line. Lines with other
      identities survive exactly when their quantity was positive. */
  lemma UpdatedSetsAndPrunes(items: seq<CartLine>, key: LineKey, q: int)
    ensures forall l :: l in Updated(items, key, q) ==> l.quantite > 0
    ensures forall l :: l in Updated(items, key, q) && KeyOf(l) == key ==> l.quantite == q
    ensures q <= 0 ==> !HasKey(Updated(items, key, q), key)
    ensures forall l :: KeyOf(l) != key ==>
              (l in Updated(items, key, q) <==> l in items && l.quantite > 0)
  {
    var w := WithQuantity(items, key, q);
    var r := Updated(items, key, q);
    forall l | l in r && KeyOf(l) == key ensures l.quantite == q {
      var j :| 0 <= j < |w| && w[j] == l;
    }
    forall l | KeyOf(l) != key ensures l in w <==> l in items {
      if l in w {
        var j :| 0 <= j < |w| && w[j] == l;
        assert items[j] == l;
      }
      if l in items {
        var j :| 0 <= j < |items| && items[j] == l;
        assert w[j] == l;
      }
    }
    assert forall j :: 0 <= j < |r| ==> r[j] in r;
  }

  /** With a positive quantity and a present identity, the line is still there
      and holds that quantity. */
  lemma UpdatedPositiveKeepsLine(items: seq<CartLine>, key: LineKey, q: int, k: int)
    requires q > 0 && 0 <= k < |items| && KeyOf(items[k]) == key
    ensures items[k].(quantite := q) in Updated(items, key, q)
  {
    var w := WithQuantity(items, key, q);
    assert w[k] == items[k].(quantite := q) && w[k] in w;
  }

  /** When every line is positive, a positive update changes no length. */
  lemma {:induction false} UpdatedPositiveKeepsLength(items: seq<CartLine>, key: LineKey, q: int)
    requires q > 0
    requires forall l :: l in items ==> l.quantite > 0
    ensures |Updated(items, key, q)| == |items|
  {
    var w := WithQuantity(items, key, q);
    var keep := (l: CartLine) => l.quantite > 0;
    forall l | l in w ensures keep(l) {
      var j :| 0 <= j < |w| && w[j] == l;
      assert items[j] in items;
    }
    FilterAllKept(w, keep);
  }

  /** In a cart of positive lines with unique identities, a positive update of a
      present line replaces that line in place and touches nothing else. */
  lemma UpdatedInPlace(items: seq<CartLine>, k: int, q: int)
    requires q > 0 && 0 <= k < |items|
    requires UniqueKeys(items)
    requires forall l :: l in items ==> l.quantite > 0
    ensures Updated(items, KeyOf(items[k]), q) == items[k := items[k].(quantite := q)]
  {
    var key := KeyOf(items[k]);
    var w := WithQuantity(items, key, q);
    assert w == items[k := items[k].(quantite := q)] by {
      forall i | 0 <= i < |items| ensures w[i] == items[k := items[k].(quantite := q)][i] {
        if i != k {
          assert KeyOf(items[i]) != key by {
            if i < k { assert KeyOf(items[i]) != KeyOf(items[k]); }
            else { assert KeyOf(items[k]) != KeyOf(items[i]); }
          }
        }
      }
    }
    var keep := (l: CartLine) => l.quantite > 0;
    forall l | l in w ensures keep(l) {
      var j :| 0 <= j < |w| && w[j] == l;
      assert items[j] in items;
    }
    FilterAllKept(w, keep);
  }

  /** The totals after such an in-place update move by the change in quantity. */
  lemma UpdatedTotals(items: seq<CartLine>, k: int, q: int)
    requires q > 0 && 0 <= k < |items|
    requires UniqueKeys(items)
    requires forall l :: l in items ==> l.quantite > 0
    ensures TotalItems(Updated(items, KeyOf(items[k]), q)) == TotalItems(items) + (q - items[k].quantite)
    ensures TotalPrice(Updated(items, KeyOf(items[k]), q))
         == TotalPrice(items) + UnitPrice(items[k]) * (q - items[k].quantite)
  {
    UpdatedInPlace(items, k, q);
    ReplacedQuantityTotals(items, k, q);
  }

  /** Setting one line's quantity moves the totals by the change. */
  lemma ReplacedQuantityTotals(items: seq<CartLine>, k: int, q: int)
    requires 0 <= k < |items|
    ensures TotalItems(items[k := items[k].(quantite := q)]) == TotalItems(items) + (q - items[k].quantite)
    ensures TotalPrice(items[k := items[k].(quantite := q)])
         == TotalPrice(items) + UnitPrice(items[k]) * (q - items[k].quantite)
  {
    var l := items[k].(quantite := q);
    var u := UnitPrice(items[k]);
    var a := items[k].quantite;
    TotalsReplace(items, k, l);
    assert UnitPrice(l) == u && l.quantite == q;
    MulAdd(u, a, q - a);
    assert a + (q - a) == q;
  }

  /** `addItem` with a positive quantity keeps every line positive. */
  lemma AddedKeepsPositive(items: seq<CartLine>, n: CartLine)
    requires n.quantite > 0
    requires forall l :: l in items ==> l.quantite > 0
    ensures forall l :: l in Added(items, n) ==> l.quantite > 0
  {
    var k := FindIndex(items, KeyOf(n));
    if k > -1 {
      assert items[k] in items;
      forall l | l in Added(items, n) ensures l.quantite > 0 {
        var j :| 0 <= j < |Added(items, n)| && Added(items, n)[j] == l;
        if j != k { assert items[j] in items; }
      }
    }
  }

  lemma UpdatedKeepsUnique(items: seq<CartLine>, key: LineKey, q: int)
    requires UniqueKeys(items)
    ensures UniqueKeys(Updated(items, key, q))
  {
    var w := WithQuantity(items, key, q);
    assert forall j :: 0 <= j < |w| ==> KeyOf(w[j]) == KeyOf(items[j]);
    FilterKeepsUnique(w, (l: CartLine) => l.quantite > 0);
  }

  // ---------------------------------------------------------------------------
  // totals

  lemma TotalsAppend(items: seq<CartLine>, n: CartLine)
    ensures TotalItems(items + [n]) == TotalItems(items) + n.quantite
    ensures TotalPrice(items + [n]) == TotalPrice(items) + UnitPrice(n) * n.quantite
  {
    assert (items + [n])[..|items|] == items;
  }

  /** Replacing one line changes each total by that line's difference. */
  lemma {:induction false} TotalsReplace(items: seq<CartLine>, k: int, l: CartLine)
    requires 0 <= k < |items|
    ensures TotalItems(items[k := l]) == TotalItems(items) - items[k].quantite + l.quantite
    ensures TotalPrice(items[k := l])
         == TotalPrice(items) - UnitPrice(items[k]) * items[k].quantite + UnitPrice(l) * l.quantite
    decreases |items|
  {
    var n := |items| - 1;
    var r := items[k := l];
    if k == n {
      assert r[..n] == items[..n];
    } else {
      assert r[..n] == items[..n][k := l];
      TotalsReplace(items[..n], k, l);
    }
  }

  lemma MulAdd(u: int, a: int, b: int)
    ensures u * (a + b) == u * a + u * b
  {
  }

  /** `addItem` raises the item count by the added quantity, and the price by the
      added quantity at the unit price of the line it lands on: the existing line
      (whose adjustment is kept) or the new one. */
  lemma TotalsAdded(items: seq<CartLine>, n: CartLine)
    ensures TotalItems(Added(items, n)) == TotalItems(items) + n.quantite
    ensures var k := FindIndex(items, KeyOf(n));
            var target := if k > -1 then items[k] else n;
            TotalPrice(Added(items, n)) == TotalPrice(items) + UnitPrice(target) * n.quantite
  {
    var k := FindIndex(items, KeyOf(n));
    if k > -1 {
      var old_ := items[k];
      var l := old_.(quantite := old_.quantite + n.quantite);
      TotalsReplace(items, k, l);
      var u := UnitPrice(old_);
      assert UnitPrice(l) == u;
      MulAdd(u, old_.quantite, n.quantite);
    } else {
      TotalsAppend(items, n);
    }
  }

  /** Every line positive and at least one line: the item count is positive. */
  lemma {:induction false} TotalItemsPositive(items: seq<CartLine>)
    requires forall l :: l in items ==> l.quantite > 0
    ensures items != [] <==> TotalItems(items) > 0
    ensures TotalItems(items) >= |items|
    decreases |items|
  {
    if items != [] {
      var n := |items| - 1;
      assert forall l :: l in items[..n] ==> l in items;
      assert items[n] in items;
      TotalItemsPositive(items[..n]);
    }
  }

  /** Positive quantities at non-negative unit prices: the price is not negative. */
  lemma {:induction false} TotalPriceNonNegative(items: seq<CartLine>)
    requires forall l :: l in items ==> l.quantite > 0 && UnitPrice(l) >= 0
    ensures TotalPrice(items) >= 0
    decreases |items|
  {
    if items != [] {
      var n := |items| - 1;
      assert forall l :: l in items[..n] ==> l in items;
      assert items[n] in items;
      TotalPriceNonNegative(items[..n]);
    }
  }

  /** A worked example: 1000 x 2 plus (500 + 200) x 1. */
  lemma TotalPriceExample()
    ensures TotalPrice([
      CartLine(1, None, "A", 1000, 2, None, None),
      CartLine(2, None, "B", 500, 1, None, Some(Variant("taille", "XL", Some(200))))]) == 2700
  {
  }

  // ---------------------------------------------------------------------------
  // the store

  /** The zustand store; `items` is replaced by each mutator. */
  class Cart {
    var items: seq<CartLine>

    constructor ()
      ensures items == []
    {
      items := [];
    }

    method AddItem(n: CartLine)
      modifies this
      ensures items == Added(old(items), n)
      ensures TotalItems(items) == TotalItems(old(items)) + n.quantite
      ensures UniqueKeys(old(items)) ==> UniqueKeys(items)
      ensures n.quantite > 0 && (forall l :: l in old(items) ==> l.quantite > 0) ==>
                forall l :: l in items ==> l.quantite > 0
    {
      TotalsAdded(items, n);
      if n.quantite > 0 && forall l :: l in items ==> l.quantite > 0 {
        AddedKeepsPositive(items, n);
      }
      if UniqueKeys(items) {
        AddedKeepsUnique(items, n);
      }
      items := Added(items, n);
    }

    method RemoveItem(productId: int, variant: Option<VariantKey>)
      modifies this
      ensures items == Removed(old(items), LineKey(productId, variant))
      ensures !HasKey(items, LineKey(productId, variant))
      ensures UniqueKeys(old(items)) ==> UniqueKeys(items)
      ensures (forall l :: l in old(items) ==> l.quantite > 0) ==> forall l :: l in items ==> l.quantite > 0
    {
      var key := LineKey(productId, variant);
      RemovedExactly(items, key);
      if UniqueKeys(items) {
        RemovedKeepsUnique(items, key);
      }
      items := Removed(items, key);
    }

    method UpdateQuantity(productId: int, quantity: int, variant: Option<VariantKey>)
      modifies this
      ensures items == Updated(old(items), LineKey(productId, variant), quantity)
      ensures forall l :: l in items ==> l.quantite > 0
      ensures UniqueKeys(old(items)) ==> UniqueKeys(items)
    {
      var key := LineKey(productId, variant);
      UpdatedSetsAndPrunes(items, key, quantity);
      if UniqueKeys(items) {
        UpdatedKeepsUnique(items, key, quantity);
      }
      items := Updated(items, key, quantity);
    }

    method ClearCart()
      modifies this
      ensures items == []
    {
      items := [];
    }
  }
}
