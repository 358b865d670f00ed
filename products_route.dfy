/** The product listing endpoint app/api/products/route.ts: the content-service
    filter built from the `categorie` and `search` query parameters, and the
    mapping of fetched products to the shape the front end reads. The products
    are what `getProduits` resolved to, which is `[]` when the content service
    failed; the process environment is a parameter. */
module ProductsRoute {
  import opened Common
  import opened Json
  import opened Catalog

  /** `{ $eq: v }` */
  function Eq(v: Json): Json {
    JObj(map["$eq" := v])
  }

  /** `{ field: { $containsi: term } }` */
  function ContainsI(field: string, term: string): Json {
    JObj(map[field := JObj(map["$containsi" := JStr(term)])])
  }

  /** The `filters` object the endpoint builds. `category` and `search` are
      `searchParams.get(...)`, `None` when the parameter is missing: only active
      products, narrowed to a category unless it is empty or `all`, and to a
      case-insensitive match on name or description when a term is given. */
  function Filters(category: Option<string>, search: Option<string>): (r: map<string, Json>)
    ensures "actif" in r && r["actif"] == Eq(JBool(true))
    ensures "categorie" in r <==> category.Some? && category.value != "" && category.value != "all"
    ensures "categorie" in r ==> r["categorie"] == JObj(map["slug" := Eq(JStr(category.value))])
    ensures "$or" in r <==> search.Some? && search.value != ""
    ensures "$or" in r ==> r["$or"] == JArr([ContainsI("nom", search.value), ContainsI("description", search.value)])
    ensures forall k :: k in r ==> k == "actif" || k == "categorie" || k == "$or"
  {
    var base := map["actif" := Eq(JBool(true))];
    var withCategory := if category.Some? && category.value != "" && category.value != "all"
      then base["categorie" := JObj(map["slug" := Eq(JStr(category.value))])] else base;
    if search.Some? && search.value != ""
    then withCategory["$or" := JArr([ContainsI("nom", search.value), ContainsI("description", search.value)])]
    else withCategory
  }

  /** The statements of `GET` that build the filters, one key at a time. */
  method BuildFilters(category: Option<string>, search: Option<string>) returns (filters: map<string, Json>)
    ensures filters == Filters(category, search)
    ensures "actif" in filters && filters["actif"] == Eq(JBool(true))
    ensures "categorie" in filters <==> category.Some? && category.value != "" && category.value != "all"
    ensures "categorie" in filters ==> filters["categorie"] == JObj(map["slug" := Eq(JStr(category.value))])
    ensures "$or" in filters <==> search.Some? && search.value != ""
    ensures "$or" in filters ==>
              filters["$or"] == JArr([ContainsI("nom", search.value), ContainsI("description", search.value)])
    ensures forall k :: k in filters ==> k == "actif" || k == "categorie" || k == "$or"
  {
    filters := map["actif" := Eq(JBool(true))];
    if category.Some? && category.value != "" && category.value != "all" {
      filters := filters["categorie" := JObj(map["slug" := Eq(JStr(category.value))])];
    }
    if search.Some? && search.value != "" {
      filters := filters["$or" := JArr([ContainsI("nom", search.value), ContainsI("description", search.value)])];
    }
  }

  datatype CategorieRef = CategorieRef(id: int, nom: string, slug: string)

  /** `FrontendProduit` */
  datatype FrontendProduit = FrontendProduit(
    id: int, nom: string, description: string, prix: int, slug: string,
    imageUrl: Option<string>, categorie: Option<CategorieRef>)

  /** `${process.env.NEXT_PUBLIC_STRAPI_URL}`: an unset variable prints as "undefined". */
  function EnvInTemplate(env: map<string, string>, key: string): (r: string)
    ensures key in env ==> r == env[key]
    ensures key !in env ==> r == "undefined"
  {
    if key in env then env[key] else "undefined"
  }

  /** One product as the endpoint returns it. */
  function ToFrontend(p: Produit, env: map<string, string>): (r: FrontendProduit)
    ensures r.id == p.id && r.nom == p.nom && r.description == p.description
    ensures r.prix == p.prix && r.slug == p.slug
    ensures r.imageUrl.None? <==> FirstImageUrl(p).None?
    ensures r.imageUrl.Some? ==> r.imageUrl.value == EnvInTemplate(env, "NEXT_PUBLIC_STRAPI_URL") + FirstImageUrl(p).value
    ensures r.imageUrl.Some? && "NEXT_PUBLIC_STRAPI_URL" in env ==>
              StartsWith(r.imageUrl.value, env["NEXT_PUBLIC_STRAPI_URL"])
    ensures r.imageUrl.Some? && "NEXT_PUBLIC_STRAPI_URL" !in env ==> StartsWith(r.imageUrl.value, "undefined")
    ensures r.imageUrl.Some? ==> r.imageUrl.value == EnvInTemplate(env, "NEXT_PUBLIC_STRAPI_URL") + p.images.value[0].url.value
    ensures r.categorie.None? <==> p.categories.None? || p.categories.value == []
    ensures r.categorie.Some? ==>
              var c := p.categories.value[0];
              r.categorie.value == CategorieRef(c.id, c.nom, c.slug)
  {
    var image := (match FirstImageUrl(p)
      case Some(url) =>
        StartsWithConcat(EnvInTemplate(env, "NEXT_PUBLIC_STRAPI_URL"), url);
        Some(EnvInTemplate(env, "NEXT_PUBLIC_STRAPI_URL") + url)
      case None => None);
    var categorie := if p.categories.Some? && |p.categories.value| > 0
      then Some(CategorieRef(p.categories.value[0].id, p.categories.value[0].nom, p.categories.value[0].slug))
      else None;
    FrontendProduit(p.id, p.nom, p.description, p.prix, p.slug, image, categorie)
  }

  /** `strapiProduits.map(...)`: one entry per product, in the same order. */
  function MapProduits(ps: seq<Produit>, env: map<string, string>): (r: seq<FrontendProduit>)
    ensures |r| == |ps|
    ensures forall i :: 0 <= i < |ps| ==> r[i] == ToFrontend(ps[i], env)
  {
    seq(|ps|, i requires 0 <= i < |ps| => ToFrontend(ps[i], env))
  }

  /** The endpoint's answer: 200 with the products, or 500 with a message. */
  datatype ProductsResponse =
    | Listed(produits: seq<FrontendProduit>)
    | ServerError(message: string)
  {
    function Status(): int {
      if Listed? then 200 else 500
    }
  }

  /** `GET`. `query` is the parsed request URL's `categorie` and `search`
      parameters, `None` when the URL could not be parsed (the one step here that
      can throw); `fetch` answers `getProduits` for the filters it is given. */
  method Get(query: Option<(Option<string>, Option<string>)>, fetch: map<string, Json> -> seq<Produit>,
             env: map<string, string>)
    returns (resp: ProductsResponse, sent: Option<map<string, Json>>)
    ensures query.None? ==> resp == ServerError("Erreur interne du serveur") && sent.None?
    ensures query.Some? ==> sent == Some(Filters(query.value.0, query.value.1))
    ensures query.Some? ==> resp == Listed(MapProduits(fetch(sent.value), env))
    ensures query.Some? && fetch(sent.value) == [] ==> resp == Listed([])
    ensures resp.Status() == 200 <==> query.Some?
  {
    if query.None? {
      return ServerError("Erreur interne du serveur"), None;
    }
    var filters := BuildFilters(query.value.0, query.value.1);
    var fetched := fetch(filters);
    resp := Listed(MapProduits(fetched, env));
    sent := Some(filters);
  }
}
