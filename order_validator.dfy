/** The order form validator lib/validators/order.ts: `OrderFormSchema`, inclusive
    length bounds on the delivery fields, and `validateOrderForm`, which answers
    either the parsed data or the list of issues found, one per failing field in
    the schema's key order. */
module OrderValidator {
  import opened Common
  import opened Json
  import opened Zod

  /** What went wrong with a field; the bound checks carry the schema's message. */
  datatype IssueKind = Required | NotAString | NotAnObject | TooSmall(message: string) | TooBig(message: string)

  datatype Issue = Issue(path: string, kind: IssueKind)

  // The schema's messages.
  const NomMin := "Le nom doit contenir au moins 2 caractères"
  const NomMax := "Le nom ne peut pas dépasser 100 caractères"
  const TelephoneMin := "Le téléphone doit contenir au moins 8 caractères"
  const TelephoneMax := "Le téléphone ne peut pas dépasser 20 caractères"
  const AdresseMin := "L'adresse doit contenir au moins 5 caractères"
  const AdresseMax := "L'adresse ne peut pas dépasser 200 caractères"
  const VilleMin := "La ville doit contenir au moins 2 caractères"
  const VilleMax := "La ville ne peut pas dépasser 50 caractères"
  const CodePostalMin := "Le code postal doit contenir au moins 4 caractères"
  const CodePostalMax := "Le code postal ne peut pas dépasser 10 caractères"
  const RemarquesMax := "Les remarques ne peuvent pas dépasser 500 caractères"

  const OrderFormKeys: set<string> := {"nom_client", "telephone", "adresse", "ville", "code_postal", "remarques"}

  /** Every bound of the schema, stated directly. */
  predicate OrderFormValid(data: Json) {
    data.JObj?
    && StringIn(Get(data, "nom_client"), 2, Some(100))
    && StringIn(Get(data, "telephone"), 8, Some(20))
    && StringIn(Get(data, "adresse"), 5, Some(200))
    && StringIn(Get(data, "ville"), 2, Some(50))
    && StringIn(Get(data, "code_postal"), 4, Some(10))
    && OptionalStringIn(Get(data, "remarques"), Some(500))
  }

  /** The issue a required string field with bounds `lo..hi` raises, if any. */
  function BoundedIssues(v: Option<Json>, key: string, lo: nat, hi: nat, tooShort: string, tooLong: string)
    : (r: seq<Issue>)
    requires lo <= hi
    ensures r == [] <==> StringIn(v, lo, Some(hi))
    ensures |r| <= 1 && forall x :: x in r ==> x.path == key
    ensures v.Some? && v.value.JStr? && |v.value.s| < lo ==> r == [Issue(key, TooSmall(tooShort))]
    ensures v.Some? && v.value.JStr? && |v.value.s| > hi ==> r == [Issue(key, TooBig(tooLong))]
  {
    match v
    case None => [Issue(key, Required)]
    case Some(JStr(s)) =>
      if |s| < lo then [Issue(key, TooSmall(tooShort))]
      else if |s| > hi then [Issue(key, TooBig(tooLong))]
      else []
    case Some(_) => [Issue(key, NotAString)]
  }

  /** The issue the optional `remarques` raises, if any. */
  function RemarquesIssues(v: Option<Json>): (r: seq<Issue>)
    ensures r == [] <==> OptionalStringIn(v, Some(500))
    ensures |r| <= 1 && forall x :: x in r ==> x.path == "remarques"
  {
    match v
    case None => []
    case Some(JStr(s)) =>
      if |s| > 500 then [Issue("remarques", TooBig(RemarquesMax))] else []
    case Some(_) => [Issue("remarques", NotAString)]
  }

  /** All issues, in the schema's key order; a value that is not an object has a
      single issue at the root. */
  function Issues(data: Json): (r: seq<Issue>)
    ensures r == [] <==> OrderFormValid(data)
    ensures |r| <= 6
    ensures forall x :: x in r ==> x.path in OrderFormKeys || x == Issue("", NotAnObject)
  {
    if !data.JObj? then [Issue("", NotAnObject)]
    else
      var nom := BoundedIssues(Get(data, "nom_client"), "nom_client", 2, 100,
        NomMin, NomMax);
      var telephone := BoundedIssues(Get(data, "telephone"), "telephone", 8, 20,
        TelephoneMin, TelephoneMax);
      var adresse := BoundedIssues(Get(data, "adresse"), "adresse", 5, 200,
        AdresseMin, AdresseMax);
      var ville := BoundedIssues(Get(data, "ville"), "ville", 2, 50,
        VilleMin, VilleMax);
      var codePostal := BoundedIssues(Get(data, "code_postal"), "code_postal", 4, 10,
        CodePostalMin, CodePostalMax);
      var remarques := RemarquesIssues(Get(data, "remarques"));
      nom + telephone + adresse + ville + codePostal + remarques
  }

  /** `validateOrderForm(data)`: the data with only the schema's keys, or the issues. */
  function ValidateOrderForm(data: Json): (r: Result<Json, seq<Issue>>)
    ensures r.Success? <==> OrderFormValid(data)
    ensures r.Success? ==> r.value.JObj?
    ensures r.Success? ==> forall k :: k in r.value.fields <==> k in data.fields && k in OrderFormKeys
    ensures r.Success? ==> forall k :: k in r.value.fields ==> r.value.fields[k] == data.fields[k]
    ensures r.Failure? ==> r.error != [] && r.error == Issues(data)
  {
    var issues := Issues(data);
    if issues == [] then Success(JObj(map k | k in data.fields && k in OrderFormKeys :: data.fields[k]))
    else Failure(issues)
  }

  /** Exactly one issue is reported per failing field: a name that is too short
      and a telephone that is too long give two issues, in that order, whatever
      the other fields hold as long as they pass. */
  lemma TwoFailingFieldsTwoIssues(data: Json, nomClient: string)
    requires data.JObj?
    requires Get(data, "nom_client") == Some(JStr(nomClient)) && |nomClient| < 2
    requires StringIn(Get(data, "telephone"), 21, None)
    requires StringIn(Get(data, "adresse"), 5, Some(200)) && StringIn(Get(data, "ville"), 2, Some(50))
    requires StringIn(Get(data, "code_postal"), 4, Some(10)) && OptionalStringIn(Get(data, "remarques"), Some(500))
    ensures ValidateOrderForm(data) == Failure([
      Issue("nom_client", TooSmall(NomMin)),
      Issue("telephone", TooBig(TelephoneMax))])
  {
    assert BoundedIssues(Get(data, "adresse"), "adresse", 5, 200, AdresseMin, AdresseMax) == [];
    assert BoundedIssues(Get(data, "ville"), "ville", 2, 50, VilleMin, VilleMax) == [];
    assert BoundedIssues(Get(data, "code_postal"), "code_postal", 4, 10, CodePostalMin, CodePostalMax) == [];
    assert RemarquesIssues(Get(data, "remarques")) == [];
    var nom := BoundedIssues(Get(data, "nom_client"), "nom_client", 2, 100, NomMin, NomMax);
    var telephone := BoundedIssues(Get(data, "telephone"), "telephone", 8, 20, TelephoneMin, TelephoneMax);
    assert nom == [Issue("nom_client", TooSmall(NomMin))];
    assert telephone == [Issue("telephone", TooBig(TelephoneMax))];
    assert Issues(data) == nom + telephone + [] + [] + [] + [];
    assert nom + telephone + [] + [] + [] + [] == nom + telephone;
    assert nom + telephone == [Issue("nom_client", TooSmall(NomMin)), Issue("telephone", TooBig(TelephoneMax))];
    assert ValidateOrderForm(data) == Failure(Issues(data));
  }

  /** A validated order form's data, validated again, is accepted unchanged. */
  lemma ValidatedDataRevalidates(data: Json)
    requires OrderFormValid(data)
    ensures ValidateOrderForm(ValidateOrderForm(data).value) == ValidateOrderForm(data)
  {
    var v := ValidateOrderForm(data).value;
    assert Get(v, "nom_client") == Get(data, "nom_client");
    assert Get(v, "telephone") == Get(data, "telephone");
    assert Get(v, "adresse") == Get(data, "adresse");
    assert Get(v, "ville") == Get(data, "ville");
    assert Get(v, "code_postal") == Get(data, "code_postal");
    assert Get(v, "remarques") == Get(data, "remarques");
    assert ValidateOrderForm(v).value.fields == v.fields;
  }
}
