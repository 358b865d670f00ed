/** The pure parts of the content-service client lib/api/strapi.ts: media URLs,
    the flattening of Strapi v4 records (`{id, attributes}`) into plain objects,
    the query `getProduits` sends, and the fallbacks its callers see when a
    request fails. The HTTP answer is a parameter: the parsed response body, or
    `None` when the request or its parsing failed. */
module Strapi {
  import opened Common
  import opened Json
  import opened Env
  import Catalog

  /** `STRAPI_BASE_URL`: the variable, else the local development server. */
  function StrapiBaseUrl(env: map<string, string>): (r: string)
    ensures "NEXT_PUBLIC_STRAPI_URL" in env ==> r == env["NEXT_PUBLIC_STRAPI_URL"]
    ensures "NEXT_PUBLIC_STRAPI_URL" !in env ==> r == "http://localhost:1337"
  {
    GetEnv(env, "NEXT_PUBLIC_STRAPI_URL", Some("http://localhost:1337"), false).value
  }

  /** `getStrapiMediaUrl(url)` with the base URL `base`. */
  function MediaUrl(base: string, url: Option<string>): (r: string)
    ensures url.None? || url.value == "" ==> r == ""
    ensures url.Some? && url.value != "" && StartsWith(url.value, "http") ==> r == url.value
    ensures url.Some? && url.value != "" && !StartsWith(url.value, "http") ==> r == base + url.value
  {
    if url.None? || url.value == "" then ""
    else if StartsWith(url.value, "http") then url.value
    else base + url.value
  }

  /** With a base that is itself an absolute URL, a resolved URL resolves to itself. */
  lemma MediaUrlIdempotent(base: string, url: string)
    requires StartsWith(base, "http")
    requires url != ""
    ensures MediaUrl(base, Some(MediaUrl(base, Some(url)))) == MediaUrl(base, Some(url))
    ensures StartsWith(MediaUrl(base, Some(url)), "http")
  {
    if !StartsWith(url, "http") {
      assert (base + url)[..4] == base[..4];
    }
  }

  /** `formatMedia`: the media with its url resolved and every other field kept. */
  function FormatMedia(base: string, m: Catalog.Media): (r: Catalog.Media)
    ensures r.url == Some(MediaUrl(base, m.url))
    ensures r.(url := m.url) == m
  {
    m.(url := Some(MediaUrl(base, m.url)))
  }

  /** With an absolute base, formatting a media twice is formatting it once, and
      a formatted media always carries an absolute URL or the empty string. */
  lemma FormatMediaIdempotent(base: string, m: Catalog.Media)
    requires StartsWith(base, "http")
    ensures FormatMedia(base, FormatMedia(base, m)) == FormatMedia(base, m)
    ensures var u := FormatMedia(base, m).url.value; u == "" || StartsWith(u, "http")
  {
    if m.url.Some? && m.url.value != "" {
      MediaUrlIdempotent(base, m.url.value);
    }
  }

  /** A value the `in` operator accepts: an object or an array (`null` and the
      primitives make it throw). */
  predicate IsJsObject(j: Json) {
    j.JObj? || j.JArr?
  }

  /** One element of `rawResponse.data`: a v4 element `{id, attributes}` becomes
      `{id, ...attributes}`; any other object, and any array, passes unchanged.
      `None` is the `TypeError` the `in` operator raises on `null` or a primitive. */
  function FlattenItem(item: Json): (r: Option<Json>)
    ensures r.None? <==> !IsJsObject(item)
    ensures item.JArr? ==> r == Some(item)
    ensures item.JObj? && "attributes" !in item.fields ==> r == Some(item)
  {
    if !IsJsObject(item) then None
    else if item.JArr? || "attributes" !in item.fields then Some(item)
    else
      var idPart: map<string, Json> := if "id" in item.fields then map["id" := item.fields["id"]] else map[];
      var attrs := item.fields["attributes"];
      Some(JObj(idPart + (if attrs.JObj? then attrs.fields else map[])))
  }

  /** The keys of a flattened v4 element are the attributes' keys and `id`; an `id`
      among the attributes wins over the element's own because the spread comes last. */
  lemma FlattenV4Fields(item: Json)
    requires item.JObj? && "attributes" in item.fields && item.fields["attributes"].JObj?
    ensures var attrs := item.fields["attributes"].fields;
            var r := FlattenItem(item).value;
            r.JObj?
            && (forall k :: k in attrs ==> k in r.fields && r.fields[k] == attrs[k])
            && (forall k :: k in r.fields ==> k in attrs || k == "id")
            && ("id" !in attrs && "id" in item.fields ==> r.fields["id"] == item.fields["id"])
            && ("id" in r.fields <==> "id" in attrs || "id" in item.fields)
  {
  }

  /** `rawResponse.data.map(flatten)`, or `None` when the body has no `data` array
      or an element of it is `null` or a primitive (the call throws). */
  function FetchObjects(body: Json): (r: Option<seq<Json>>)
    ensures r.Some? ==> Get(body, "data").Some? && Get(body, "data").value.JArr?
    ensures r.Some? ==> |r.value| == |Get(body, "data").value.items|
    ensures r.Some? ==> forall i :: 0 <= i < |r.value| ==>
              Some(r.value[i]) == FlattenItem(Get(body, "data").value.items[i])
    ensures (Get(body, "data").Some? && Get(body, "data").value.JArr? &&
             forall x :: x in Get(body, "data").value.items ==> IsJsObject(x)) ==> r.Some?
  {
    var data := Get(body, "data");
    if data.None? || !data.value.JArr? then None
    else FlattenAll(data.value.items)
  }

  function FlattenAll(items: seq<Json>): (r: Option<seq<Json>>)
    ensures r.Some? ==> |r.value| == |items|
    ensures r.Some? ==> forall i :: 0 <= i < |items| ==> Some(r.value[i]) == FlattenItem(items[i])
    ensures r.None? <==> exists x :: x in items && !IsJsObject(x)
  {
    if items == [] then Some([])
    else
      var head := FlattenItem(items[0]);
      var rest := FlattenAll(items[1..]);
      assert forall x :: x in items[1..] ==> x in items;
      assert forall x :: x in items && x != items[0] ==> x in items[1..];
      if head.None? || rest.None? then None
      else
        assert forall i :: 1 <= i < |items| ==> items[i] == items[1..][i - 1];
        Some([head.value] + rest.value)
  }

  /** A v5 response, whose elements carry no `attributes`, is returned as is. */
  lemma {:induction false} FlattenV5Unchanged(items: seq<Json>)
    requires forall x :: x in items ==> x.JObj? && "attributes" !in x.fields
    ensures FlattenAll(items) == Some(items)
  {
    if items != [] {
      assert forall x :: x in items[1..] ==> x in items;
      FlattenV5Unchanged(items[1..]);
      assert [items[0]] + items[1..] == items;
    }
  }

  /** The populate `getProduits` uses by default: images, main image, categories,
      and the variants with their image. */
  const DefaultPopulate: Json := JObj(map[
    "images" := JBool(true),
    "image_principale" := JBool(true),
    "categories" := JBool(true),
    "variantes" := JObj(map["populate" := JArr([JStr("image")])])])

  /** The default pagination: 100 records per page. */
  const DefaultPagination: Json := JObj(map["pageSize" := JNum(100.0)])

  /** The optional parameters of `getProduits`; `None` is an absent key. */
  datatype ProduitsParams = ProduitsParams(
    filters: Option<Json>, sort: Option<seq<string>>, populate: Option<Json>, pagination: Option<Json>)

  datatype Query = Query(filters: Option<Json>, sort: Option<seq<string>>, populate: Json, pagination: Json)

  /** `x ?? default` on a possibly absent JSON value. */
  function OrDefault(v: Option<Json>, default: Json): (r: Json)
    ensures v.None? || v.value == JNull ==> r == default
    ensures v.Some? && v.value != JNull ==> r == v.value
    ensures default != JNull ==> r != JNull
  {
    if v.Some? && v.value != JNull then v.value else default
  }

  /** The query `getProduits(params)` sends: filters and sort passed through,
      populate and pagination defaulted when missing. */
  function ProduitsQuery(params: Option<ProduitsParams>): (q: Query)
    ensures params.None? ==> q == Query(None, None, DefaultPopulate, DefaultPagination)
    ensures params.Some? ==> q.filters == params.value.filters && q.sort == params.value.sort
    ensures params.Some? ==> q.populate == OrDefault(params.value.populate, DefaultPopulate)
    ensures params.Some? ==> q.pagination == OrDefault(params.value.pagination, DefaultPagination)
    ensures q.populate != JNull && q.pagination != JNull
  {
    match params
    case None => Query(None, None, DefaultPopulate, DefaultPagination)
    case Some(p) => Query(p.filters, p.sort, OrDefault(p.populate, DefaultPopulate), OrDefault(p.pagination, DefaultPagination))
  }

  /** Without explicit pagination `getProduits` asks for pages of 100. */
  lemma DefaultPageSize(params: Option<ProduitsParams>)
    requires params.None? || params.value.pagination.None?
    ensures Get(ProduitsQuery(params).pagination, "pageSize") == Some(JNum(100.0))
  {
  }

  /** The list `getProduits` and its list-returning siblings resolve to: the
      flattened records, or `[]` whenever fetching or flattening failed. */
  function ListOrEmpty(answer: Option<Json>): (r: seq<Json>)
    ensures answer.None? ==> r == []
    ensures answer.Some? && FetchObjects(answer.value).None? ==> r == []
    ensures answer.Some? && FetchObjects(answer.value).Some? ==> r == FetchObjects(answer.value).value
  {
    if answer.None? then [] else FetchObjects(answer.value).GetOr([])
  }

  /** `getProduitBySlug`: the first flattened record, or `null` (`None`). */
  function FirstOrNull(answer: Option<Json>): (r: Option<Json>)
    ensures r.Some? <==> ListOrEmpty(answer) != []
    ensures r.Some? ==> r.value == ListOrEmpty(answer)[0]
  {
    var objs := ListOrEmpty(answer);
    if objs == [] then None else Some(objs[0])
  }

  /** A failed request is indistinguishable from an empty result for callers. */
  lemma FailureLooksEmpty(body: Json)
    requires Get(body, "data") == Some(JArr([]))
    ensures ListOrEmpty(None) == ListOrEmpty(Some(body)) == []
    ensures FirstOrNull(None) == FirstOrNull(Some(body)) == None
  {
  }

  /** For a well-formed v5 answer, `getProduitBySlug` returns the first record unchanged. */
  lemma BySlugReturnsFirst(body: Json, items: seq<Json>)
    requires Get(body, "data") == Some(JArr(items))
    requires items != [] && forall x :: x in items ==> x.JObj? && "attributes" !in x.fields
    ensures FirstOrNull(Some(body)) == Some(items[0])
  {
    FlattenV5Unchanged(items);
  }
}
