/** Shapes of the records the storefront reads from the content service and the
    commerce service: products, their variants, images, categories and delivery
    zones. Only the fields the modelled code reads are kept. */
module Catalog {
  import opened Common

  /** An uploaded image; `url` and `alternativeText` may be missing in the data. */
  datatype Media = Media(id: int, name: string, url: Option<string>, alternativeText: Option<string>)

  /** A product variant; `ajustementPrix` and `quantiteStock` may be missing. */
  datatype Variante = Variante(
    id: int, nom: string, valeur: string, vtype: string,
    ajustementPrix: Option<int>, quantiteStock: Option<int>)

  datatype Categorie = Categorie(id: int, nom: string, slug: string)

  /** A product. `prixPromo`, `images`, `imagePrincipale`, `categories` and
      `variantes` may be missing in the data. Prices are whole XOF amounts. */
  datatype Produit = Produit(
    id: int, nom: string, slug: string, description: string,
    prix: int, prixPromo: Option<int>, quantiteStock: int, statut: string,
    images: Option<seq<Media>>, imagePrincipale: Option<Media>,
    categories: Option<seq<Categorie>>, variantes: Option<seq<Variante>>)

  /** A delivery zone of the commerce service. */
  datatype Zone = Zone(
    id: int, name: string, deliveryFee: Option<int>,
    timeMin: Option<int>, timeMax: Option<int>, zoneName: Option<string>)

  /** The URL of a product's first image, if it has one with a truthy url
      (`produit.images?.[0]?.url`). */
  function FirstImageUrl(p: Produit): (r: Option<string>)
    ensures r.Some? ==> r.value != "" && p.images.Some? && |p.images.value| > 0
    ensures r.Some? ==> p.images.value[0].url == r
    ensures r.None? <==> p.images.None? || p.images.value == [] || p.images.value[0].url.None?
                         || p.images.value[0].url.value == ""
  {
    if p.images.Some? && |p.images.value| > 0 && p.images.value[0].url.Some?
       && p.images.value[0].url.value != ""
    then p.images.value[0].url
    else None
  }
}
