/** The order endpoint app/api/orders/route.ts: the `CommandeSchema` an order
    payload must satisfy, the payload the schema hands on (unknown keys
    stripped), and the mapping of the outcome to 400, 201 or 500. The parsed
    request body and the answer of `creerCommande` are parameters; the clock
    that stamps an error is the parameter `now`. */
module OrdersRoute {
  import opened Common
  import opened Json
  import opened Zod

  const LigneKeys: set<string> := {"product_id", "quantite", "prixUnitaire", "nom_produit"}

  const CommandeKeys: set<string> := {
    "nom_client", "telephone", "adresse", "ville", "code_postal", "zone_livraison_id",
    "remarques", "total", "frais_livraison", "ligne_commandes", "payment_method"}

  const PaymentMethods: set<string> := {"cash", "card", "transfer"}

  /** One element of `ligne_commandes`. */
  predicate LigneValid(l: Json) {
    l.JObj?
    && PositiveInt(Get(l, "product_id"))
    && IntAtLeast(Get(l, "quantite"), 1)
    && PositiveNumber(Get(l, "prixUnitaire"))
    && OptionalStringIn(Get(l, "nom_produit"), None)
  }

  /** `z.array(ligne).min(1)` */
  predicate LignesValid(v: Option<Json>) {
    v.Some? && v.value.JArr? && |v.value.items| >= 1
    && forall l :: l in v.value.items ==> LigneValid(l)
  }

  /** `z.enum(['cash', 'card', 'transfer']).optional()` */
  predicate PaymentMethodValid(v: Option<Json>) {
    v.None? || (v.value.JStr? && v.value.s in PaymentMethods)
  }

  /** `CommandeSchema.safeParse(data).success` */
  predicate CommandeValid(data: Json) {
    data.JObj?
    && StringIn(Get(data, "nom_client"), 2, None)
    && StringIn(Get(data, "telephone"), 8, None)
    && StringIn(Get(data, "adresse"), 10, None)
    && StringIn(Get(data, "ville"), 2, None)
    && StringIn(Get(data, "code_postal"), 4, None)
    && PositiveInt(Get(data, "zone_livraison_id"))
    && OptionalStringIn(Get(data, "remarques"), None)
    && PositiveNumber(Get(data, "total"))
    && NumberAtLeast(Get(data, "frais_livraison"), 0)
    && LignesValid(Get(data, "ligne_commandes"))
    && PaymentMethodValid(Get(data, "payment_method"))
  }

  /** An order without lines, with a total that is not positive, with an unknown
      payment method or with a fractional zone id is refused whatever its other
      fields; the concrete clauses are instances. */
  lemma RejectedOrders(data: Json, m: string, x: real, t: real)
    ensures Get(data, "payment_method") == Some(JStr(m)) && m !in PaymentMethods ==> !CommandeValid(data)
    ensures Get(data, "zone_livraison_id") == Some(JNum(x)) && !IsInteger(x) ==> !CommandeValid(data)
    ensures Get(data, "total") == Some(JNum(t)) && t <= 0.0 ==> !CommandeValid(data)
    ensures Get(data, "ligne_commandes") == Some(JArr([])) ==> !CommandeValid(data)
    ensures Get(data, "total") == Some(JNum(0.0)) ==> !CommandeValid(data)
    ensures Get(data, "payment_method") == Some(JStr("cheque")) ==> !CommandeValid(data)
    ensures Get(data, "zone_livraison_id") == Some(JNum(1.5)) ==> !CommandeValid(data)
  {
    assert !IsInteger(1.5);
  }

  /** A line as the schema outputs it: only the keys it declares. */
  function StripLigne(l: Json): (r: Json)
    ensures l.JObj? ==> r.JObj? && forall k :: k in r.fields <==> k in l.fields && k in LigneKeys
    ensures l.JObj? ==> forall k :: k in r.fields ==> r.fields[k] == l.fields[k]
    ensures !l.JObj? ==> r == l
  {
    if l.JObj? then JObj(map k | k in l.fields && k in LigneKeys :: l.fields[k]) else l
  }

  function StripLignes(items: seq<Json>): (r: seq<Json>)
    ensures |r| == |items| && forall i :: 0 <= i < |items| ==> r[i] == StripLigne(items[i])
  {
    seq(|items|, i requires 0 <= i < |items| => StripLigne(items[i]))
  }

  /** `validation.data`: the keys the schema declares, the lines stripped in turn. */
  function Payload(data: Json): (r: Json)
    ensures data.JObj? ==> r.JObj? && forall k :: k in r.fields <==> k in data.fields && k in CommandeKeys
    ensures data.JObj? ==> forall k :: k in r.fields && k != "ligne_commandes" ==> r.fields[k] == data.fields[k]
    ensures data.JObj? && "ligne_commandes" in data.fields && data.fields["ligne_commandes"].JArr? ==>
              r.fields["ligne_commandes"] == JArr(StripLignes(data.fields["ligne_commandes"].items))
    ensures CommandeValid(data) ==> |r.fields["ligne_commandes"].items| == |data.fields["ligne_commandes"].items|
  {
    if data.JObj? then
      JObj(map k | k in data.fields && k in CommandeKeys ::
        if k == "ligne_commandes" && data.fields[k].JArr? then JArr(StripLignes(data.fields[k].items))
        else data.fields[k])
    else data
  }

  /** The stripped payload passes the schema again, and stripping it once more
      changes nothing. */
  lemma PayloadStaysValid(data: Json)
    requires CommandeValid(data)
    ensures CommandeValid(Payload(data))
    ensures Payload(Payload(data)) == Payload(data)
  {
    var p := Payload(data);
    var items := data.fields["ligne_commandes"].items;
    var stripped := StripLignes(items);
    assert p.fields["ligne_commandes"] == JArr(stripped);
    forall l | l in stripped
      ensures LigneValid(l)
    {
      var i :| 0 <= i < |stripped| && stripped[i] == l;
      assert LigneValid(items[i]);
      assert Get(l, "product_id") == Get(items[i], "product_id");
      assert Get(l, "quantite") == Get(items[i], "quantite");
      assert Get(l, "prixUnitaire") == Get(items[i], "prixUnitaire");
      assert Get(l, "nom_produit") == Get(items[i], "nom_produit");
    }
    assert LignesValid(Get(p, "ligne_commandes"));
    forall i | 0 <= i < |stripped|
      ensures StripLigne(stripped[i]) == stripped[i]
    {
      if items[i].JObj? {
        assert StripLigne(stripped[i]).fields == stripped[i].fields;
      }
    }
    assert StripLignes(stripped) == stripped;
    assert Payload(p).fields == p.fields;
  }

  /** The endpoint's answer. `Created` copies the created order's `id`,
      `numero_commande` and `created_at`; `None` is a key left undefined. */
  datatype OrderResponse =
    | Invalid
    | Created(id: Option<Json>, numero: Option<Json>, date: Option<Json>)
    | ServerError(errorId: int)
  {
    function Status(): int {
      match this
      case Invalid => 400
      case Created(_, _, _) => 201
      case ServerError(_) => 500
    }

    predicate Success() {
      Created?
    }
  }

  /** The response and the payload handed to `creerCommande`, if it was called. */
  datatype PostOutcome = PostOutcome(response: OrderResponse, sent: Option<Json>)

  /** `POST`. `body` is `None` when the request body is not JSON;
      `creerCommande(payload)` is `None` when the call throws. */
  function Post(body: Option<Json>, creerCommande: Json -> Option<Json>, now: int): (r: PostOutcome)
    ensures body.None? ==> r == PostOutcome(ServerError(now), None)
    ensures body.Some? && !CommandeValid(body.value) ==> r == PostOutcome(Invalid, None)
    ensures body.Some? && CommandeValid(body.value) ==> r.sent == Some(Payload(body.value))
    ensures r.response.Created? ==>
              body.Some? && CommandeValid(body.value)
              && var created := creerCommande(Payload(body.value));
                 created.Some? && created.value != JNull
                 && r.response == Created(Get(created.value, "id"), Get(created.value, "numero_commande"),
                                          Get(created.value, "created_at"))
  {
    if body.None? then PostOutcome(ServerError(now), None)
    else if !CommandeValid(body.value) then PostOutcome(Invalid, None)
    else
      var payload := Payload(body.value);
      var created := creerCommande(payload);
      // reading a field of `null` throws as well
      if created.None? || created.value == JNull then PostOutcome(ServerError(now), Some(payload))
      else PostOutcome(Created(Get(created.value, "id"), Get(created.value, "numero_commande"),
                               Get(created.value, "created_at")), Some(payload))
  }

  /** The status tells the outcome apart: 400 exactly for a parsed body the schema
      refuses, and then nothing was sent; 201 exactly when a valid order was
      created; 500 otherwise. Success is reported exactly with 201. */
  lemma StatusMapping(body: Option<Json>, creerCommande: Json -> Option<Json>, now: int)
    ensures var r := Post(body, creerCommande, now);
            (r.response.Status() == 400 <==> body.Some? && !CommandeValid(body.value))
            && (r.response.Status() == 400 ==> r.sent.None?)
            && (r.response.Status() == 201 <==>
                  body.Some? && CommandeValid(body.value)
                  && creerCommande(Payload(body.value)).Some?
                  && creerCommande(Payload(body.value)).value != JNull)
            && (r.response.Success() <==> r.response.Status() == 201)
            && (r.sent.Some? ==> CommandeValid(r.sent.value))
  {
    if body.Some? && CommandeValid(body.value) {
      PayloadStaysValid(body.value);
    }
  }
}
