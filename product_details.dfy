/** The product page's purchase panel, components/product/ProductDetails.tsx: the
    chosen variant and quantity, the stock they are checked against, the price
    shown, and the cart line "Ajouter au panier" adds. The environment that
    supplies the media base URL is a parameter. */
module ProductDetailsView {
  import opened Common
  import opened Catalog
  import opened Env
  import opened CartStore

  /** `produit.variantes && produit.variantes.length > 0` */
  predicate HasVariantes(p: Produit) {
    p.variantes.Some? && |p.variantes.value| > 0
  }

  /** `produit.variantes?.find(v => v.valeur === value)`: the first variant with
      that value, if any. */
  function FindVariant(variantes: Option<seq<Variante>>, value: string): (r: Option<Variante>)
    ensures r.Some? ==> variantes.Some? && r.value in variantes.value && r.value.valeur == value
    ensures r.Some? ==> exists k :: 0 <= k < |variantes.value| && variantes.value[k] == r.value
                                    && forall j :: 0 <= j < k ==> variantes.value[j].valeur != value
    ensures r.None? <==> variantes.None? || forall v :: v in variantes.value ==> v.valeur != value
  {
    if variantes.None? then None else FindFirst(variantes.value, (v: Variante) => v.valeur == value)
  }

  /** The selected variant's stock when it declares one, else the product's. */
  function AvailableStock(p: Produit, sel: Option<Variante>): (r: int)
    ensures sel.Some? && sel.value.quantiteStock.Some? ==> r == sel.value.quantiteStock.value
    ensures sel.None? || sel.value.quantiteStock.None? ==> r == p.quantiteStock
  {
    if sel.Some? && sel.value.quantiteStock.Some? then sel.value.quantiteStock.value else p.quantiteStock
  }

  predicate IsOutOfStock(p: Produit, sel: Option<Variante>) {
    AvailableStock(p, sel) <= 0
  }

  /** The disabled state of "Ajouter au panier". */
  predicate AddDisabled(p: Produit, sel: Option<Variante>, quantity: int) {
    IsOutOfStock(p, sel) || (HasVariantes(p) && sel.None?) || quantity > AvailableStock(p, sel)
  }

  /** The price shown: `prix + (ajustement_prix || 0)`. */
  function CurrentPrice(p: Produit, sel: Option<Variante>): int {
    p.prix + (if sel.Some? then sel.value.ajustementPrix.GetOr(0) else 0)
  }

  /** The line image: the media base URL and the first image's url, or a placeholder. */
  function LineImage(p: Produit, env: map<string, string>): (r: string)
    ensures FirstImageUrl(p).None? ==> r == "/placeholder.svg?height=300&width=300"
    ensures FirstImageUrl(p).Some? ==>
              r == EnvOrEmpty(env, "NEXT_PUBLIC_STRAPI_URL") + FirstImageUrl(p).value
  {
    match FirstImageUrl(p)
    case Some(url) => EnvOrEmpty(env, "NEXT_PUBLIC_STRAPI_URL") + url
    case None => "/placeholder.svg?height=300&width=300"
  }

  /** The line `handleAddToCart` passes to `addItem`: the base price, the chosen
      quantity, and the selected variant renamed to the cart's field names. */
  function LineToAdd(p: Produit, sel: Option<Variante>, quantity: int, env: map<string, string>): (r: CartLine)
    ensures r.id == p.id && r.nom == p.nom && r.prix == p.prix && r.quantite == quantity
    ensures r.image == Some(LineImage(p, env))
    ensures r.variant.None? <==> sel.None?
    ensures sel.Some? ==> r.variant == Some(Variant(sel.value.vtype, sel.value.valeur, sel.value.ajustementPrix))
  {
    CartLine(p.id, None, p.nom, p.prix, quantity, Some(LineImage(p, env)),
      if sel.Some? then Some(Variant(sel.value.vtype, sel.value.valeur, sel.value.ajustementPrix)) else None)
  }

  /** The price the cart charges for the added line is the price the page shows. */
  lemma AddedLineCostsShownPrice(p: Produit, sel: Option<Variante>, quantity: int, env: map<string, string>)
    ensures UnitPrice(LineToAdd(p, sel, quantity, env)) == CurrentPrice(p, sel)
  {
  }

  /** Lines added with the same variant choice merge in the cart; the identity
      is the product and the variant's type and value. */
  lemma SameChoiceSameLine(p: Produit, sel: Option<Variante>, q1: int, q2: int, env: map<string, string>)
    ensures KeyOf(LineToAdd(p, sel, q1, env)) == KeyOf(LineToAdd(p, sel, q2, env))
    ensures KeyOf(LineToAdd(p, sel, q1, env)) ==
            LineKey(p.id, if sel.Some? then Some(VariantKey(sel.value.vtype, sel.value.valeur)) else None)
  {
  }

  /** When the button is enabled the line carries a quantity between 1 and the
      stock, and a variant whenever the product has variants. */
  lemma EnabledMeansWithinStock(p: Produit, sel: Option<Variante>, quantity: int, env: map<string, string>)
    requires quantity >= 1
    requires !AddDisabled(p, sel, quantity)
    ensures var l := LineToAdd(p, sel, quantity, env);
            1 <= l.quantite <= AvailableStock(p, sel) && (HasVariantes(p) ==> l.variant.Some?)
  {
  }

  /** The panel's state: the product shown, the chosen quantity and variant. */
  class Panel {
    var produit: Produit
    var quantity: int
    var selectedVariant: Option<Variante>

    /** The quantity is at least 1, and a selected variant is one of the product's. */
    predicate Valid()
      reads this
    {
      quantity >= 1
      && (selectedVariant.Some? ==> produit.variantes.Some? && selectedVariant.value in produit.variantes.value)
    }

    constructor (p: Produit)
      ensures produit == p && quantity == 1 && selectedVariant.None?
      ensures Valid()
    {
      produit := p;
      quantity := 1;
      selectedVariant := None;
    }

    /** The effect on a new product: no variant, quantity 1. */
    method ResetOnProduct(p: Produit)
      modifies this
      ensures produit == p && quantity == 1 && selectedVariant.None?
      ensures Valid()
    {
      produit := p;
      selectedVariant := None;
      quantity := 1;
    }

    /** The quantity field; `parsed` is `parseInt` of its text, `None` for NaN.
        A value is taken only when it lies between 1 and the available stock. */
    method HandleQuantityChange(parsed: Option<int>)
      requires Valid()
      modifies this
      ensures produit == old(produit) && selectedVariant == old(selectedVariant)
      ensures parsed.Some? && 1 <= parsed.value <= AvailableStock(produit, selectedVariant)
              ==> quantity == parsed.value
      ensures !(parsed.Some? && 1 <= parsed.value <= AvailableStock(produit, selectedVariant))
              ==> quantity == old(quantity)
      ensures Valid()
    {
      if parsed.Some? && parsed.value >= 1 && parsed.value <= AvailableStock(produit, selectedVariant) {
        quantity := parsed.value;
      }
    }

    /** The variant select: the variant with that value (or none), quantity back to 1. */
    method HandleVariantChange(value: string)
      requires Valid()
      modifies this
      ensures produit == old(produit)
      ensures selectedVariant == FindVariant(produit.variantes, value)
      ensures quantity == 1
      ensures Valid()
    {
      selectedVariant := FindVariant(produit.variantes, value);
      quantity := 1;
    }

    /** "Ajouter au panier": the line is added to the cart; the panel is unchanged. */
    method HandleAddToCart(cart: Cart, env: map<string, string>)
      modifies cart
      ensures cart.items == Added(old(cart.items), LineToAdd(produit, selectedVariant, quantity, env))
      ensures TotalItems(cart.items) == TotalItems(old(cart.items)) + quantity
    {
      cart.AddItem(LineToAdd(produit, selectedVariant, quantity, env));
    }
  }

  /** With a stock of at least 1, a quantity taken from the field never disables
      the button by exceeding the stock. */
  lemma AcceptedQuantityWithinStock(p: Produit, sel: Option<Variante>, v: int)
    requires 1 <= v <= AvailableStock(p, sel)
    ensures !IsOutOfStock(p, sel)
    ensures AddDisabled(p, sel, v) <==> HasVariantes(p) && sel.None?
  {
  }
}
