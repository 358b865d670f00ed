/** The product tile of components/product/ProductCard.tsx: which image URL it
    shows, whether the promotional price is shown, and whether its button is
    enabled. The process environment is a parameter. */
module ProductCardView {
  import opened Common
  import opened Catalog

  /** `process.env.NEXT_PUBLIC_STRAPI_URL || "http://localhost:1337"`: an unset or
      empty variable falls back to the local development server. */
  function CardBase(env: map<string, string>): (r: string)
    ensures "NEXT_PUBLIC_STRAPI_URL" in env && env["NEXT_PUBLIC_STRAPI_URL"] != "" ==> r == env["NEXT_PUBLIC_STRAPI_URL"]
    ensures "NEXT_PUBLIC_STRAPI_URL" !in env || env["NEXT_PUBLIC_STRAPI_URL"] == "" ==> r == "http://localhost:1337"
    ensures r != ""
  {
    if "NEXT_PUBLIC_STRAPI_URL" in env && env["NEXT_PUBLIC_STRAPI_URL"] != "" then env["NEXT_PUBLIC_STRAPI_URL"]
    else "http://localhost:1337"
  }

  /** `getImageUrl()`: the stock picture without a main image url; an uploaded
      path under the base; an absolute URL as is; a bare file name under the
      base's `/uploads/` directory. */
  function ImageUrl(p: Produit, env: map<string, string>): (r: string)
    ensures p.imagePrincipale.None? || p.imagePrincipale.value.url.None? || p.imagePrincipale.value.url.value == ""
            ==> r == "/images/shopping.jpeg"
    ensures p.imagePrincipale.Some? && p.imagePrincipale.value.url.Some? ==>
              var url := p.imagePrincipale.value.url.value;
              (url != "" && StartsWith(url, "/uploads") ==> r == CardBase(env) + url)
              && (url != "" && !StartsWith(url, "/uploads") && StartsWith(url, "http") ==> r == url)
              && (url != "" && !StartsWith(url, "/uploads") && !StartsWith(url, "http")
                  ==> r == CardBase(env) + "/uploads/" + url)
  {
    if p.imagePrincipale.None? || p.imagePrincipale.value.url.None? || p.imagePrincipale.value.url.value == "" then
      "/images/shopping.jpeg"
    else
      var url := p.imagePrincipale.value.url.value;
      if StartsWith(url, "/uploads") then CardBase(env) + url
      else if StartsWith(url, "http") then url
      else CardBase(env) + "/uploads/" + url
  }

  /** Every URL the tile produces is either the stock picture, an absolute URL
      given by the content, or a path under the base. */
  lemma ImageUrlShapes(p: Produit, env: map<string, string>)
    ensures var r := ImageUrl(p, env);
            r == "/images/shopping.jpeg" || StartsWith(r, "http") || StartsWith(r, CardBase(env))
  {
    var r := ImageUrl(p, env);
    if p.imagePrincipale.Some? && p.imagePrincipale.value.url.Some? && p.imagePrincipale.value.url.value != "" {
      var url := p.imagePrincipale.value.url.value;
      if StartsWith(url, "/uploads") {
        StartsWithConcat(CardBase(env), url);
      } else if !StartsWith(url, "http") {
        StartsWithConcat(CardBase(env), "/uploads/" + url);
        assert CardBase(env) + "/uploads/" + url == CardBase(env) + ("/uploads/" + url);
      }
    }
  }

  /** The promotional price is shown when it is set, non-zero and below the price. */
  predicate PromoShown(p: Produit) {
    p.prixPromo.Some? && p.prixPromo.value != 0 && p.prixPromo.value < p.prix
  }

  /** A shown promotion always lowers the price, and a promotion of 0 is never shown. */
  lemma PromoLowersPrice(p: Produit)
    ensures PromoShown(p) ==> p.prixPromo.value < p.prix
    ensures p.prixPromo == Some(0) ==> !PromoShown(p)
    ensures p.prixPromo.Some? && p.prixPromo.value >= p.prix ==> !PromoShown(p)
  {
  }

  /** The add button is enabled only for a product whose status is "actif". */
  predicate AddEnabled(p: Produit) {
    p.statut == "actif"
  }

  /** The button's label: "Ajouter au panier" exactly when it is enabled. */
  function ButtonLabel(p: Produit): (r: string)
    ensures r == "Ajouter au panier" <==> AddEnabled(p)
  {
    if p.statut == "actif" then "Ajouter au panier" else "Indisponible"
  }
}
