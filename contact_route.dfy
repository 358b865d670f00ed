/** The contact endpoint app/api/contact/route.ts: `ContactSchema` (inclusive
    length bounds on the raw input, an email, consent that must be `true`), the
    cleaned record (fields trimmed, email also lower-cased), the masked log line
    and the mapping of the outcome to 400, 201 or 500. The address format of
    `.email()` is the parameter `isEmail`, the clock the parameter `now`. */
module ContactRoute {
  import opened Common
  import opened Json
  import opened Zod

  /** `ContactSchema.safeParse(data).success` */
  predicate ContactValid(data: Json, isEmail: string -> bool) {
    data.JObj?
    && StringIn(Get(data, "nom"), 2, Some(100))
    && EmailString(Get(data, "email"), isEmail)
    && StringIn(Get(data, "sujet"), 5, Some(120))
    && StringIn(Get(data, "message"), 20, Some(2000))
    && IsTrue(Get(data, "consentement"))
  }

  datatype CleanContact = CleanContact(nom: string, email: string, sujet: string, message: string)

  /** `cleanData` */
  function CleanData(data: Json, isEmail: string -> bool): (r: CleanContact)
    requires ContactValid(data, isEmail)
    ensures r.nom == Trim(Str(Get(data, "nom"))) && r.sujet == Trim(Str(Get(data, "sujet")))
    ensures r.message == Trim(Str(Get(data, "message")))
    ensures r.email == CleanEmail(Str(Get(data, "email")))
    ensures |r.nom| <= 100 && |r.sujet| <= 120 && |r.message| <= 2000
  {
    TrimBounds(Str(Get(data, "nom")));
    TrimBounds(Str(Get(data, "sujet")));
    TrimBounds(Str(Get(data, "message")));
    CleanContact(Trim(Str(Get(data, "nom"))), CleanEmail(Str(Get(data, "email"))),
                 Trim(Str(Get(data, "sujet"))), Trim(Str(Get(data, "message"))))
  }

  /** A clean record is a fixed point of cleaning. */
  lemma CleanIsStable(c: CleanContact, raw: Json, isEmail: string -> bool)
    requires ContactValid(raw, isEmail) && c == CleanData(raw, isEmail)
    ensures Trim(c.nom) == c.nom && Trim(c.sujet) == c.sujet && Trim(c.message) == c.message
    ensures CleanEmail(c.email) == c.email
  {
    TrimIdempotent(Str(Get(raw, "nom")));
    TrimIdempotent(Str(Get(raw, "sujet")));
    TrimIdempotent(Str(Get(raw, "message")));
    CleanEmailIdempotent(Str(Get(raw, "email")));
  }

  /** `s[0]` in a template: the first character, or "undefined" for "". */
  function FirstCharText(s: string): (r: string)
    ensures s != "" ==> r == [s[0]]
    ensures s == "" ==> r == "undefined"
  {
    if s == "" then "undefined" else [s[0]]
  }

  /** `s.split('@')[1]` in a template: "undefined" without an '@'. */
  function DomainText(s: string): (r: string)
    ensures var parts := Split(s, '@'); |parts| > 1 ==> r == parts[1]
    ensures '@' !in s ==> r == "undefined"
  {
    var parts := Split(s, '@');
    if '@' !in s then SplitNone(s, '@'); "undefined"
    else if |parts| > 1 then parts[1] else "undefined"
  }

  /** With an '@' in the address, the text shown is what lies between the first
      '@' and the next one (or the end). */
  lemma DomainTextBetween(local: string, domain: string, rest: string)
    requires '@' !in local && '@' !in domain
    requires rest == "" || rest[0] == '@'
    ensures DomainText(local + "@" + domain + rest) == domain
  {
    assert local + "@" + domain + rest == local + ['@'] + (domain + rest);
    SplitFirst(local, '@', domain + rest);
    if rest == "" {
      assert domain + rest == domain;
      SplitNone(domain, '@');
    } else {
      assert domain + rest == domain + ['@'] + rest[1..];
      SplitFirst(domain, '@', rest[1..]);
    }
  }

  /** The log line: the name's first character, the email's first three
      characters and the text after its '@'. */
  function MaskedLog(c: CleanContact): string {
    "Nouveau contact de " + FirstCharText(c.nom) + "*** (" + Slice(c.email, 3) + "***@***" + DomainText(c.email) + ")"
  }

  /** For an address `local@domain` the log shows the domain and no more than the
      first three characters of the local part: two addresses that agree there
      log the same line whatever else they hold. */
  lemma MaskedLogHidesLocalPart(c1: CleanContact, c2: CleanContact, local1: string, local2: string, domain: string)
    requires '@' !in local1 && '@' !in local2 && '@' !in domain
    requires c1.email == local1 + "@" + domain && c2.email == local2 + "@" + domain
    requires |local1| >= 3 && |local2| >= 3 && local1[..3] == local2[..3]
    requires FirstCharText(c1.nom) == FirstCharText(c2.nom)
    ensures DomainText(c1.email) == domain
    ensures MaskedLog(c1) == MaskedLog(c2)
  {
    SplitFirst(local1, '@', domain);
    SplitFirst(local2, '@', domain);
    SplitNone(domain, '@');
    assert Slice(c1.email, 3) == local1[..3];
    assert Slice(c2.email, 3) == local2[..3];
  }

  /** The endpoint's answer: the reference is the clock's decimal text. */
  datatype ContactResponse =
    | BadRequest
    | Created(reference: string)
    | ServerError(errorId: int)
  {
    function Status(): int {
      match this
      case BadRequest => 400
      case Created(_) => 201
      case ServerError(_) => 500
    }
  }

  /** The response, with the cleaned record and the log line when the message
      was accepted. */
  datatype ContactOutcome = ContactOutcome(response: ContactResponse, record: Option<CleanContact>, log: Option<string>)

  /** `POST`. `body` is `None` when the request body is not JSON. */
  function Post(body: Option<Json>, isEmail: string -> bool, now: nat): (r: ContactOutcome)
    ensures body.None? ==> r == ContactOutcome(ServerError(now), None, None)
    ensures body.Some? && !ContactValid(body.value, isEmail) ==> r == ContactOutcome(BadRequest, None, None)
    ensures body.Some? && ContactValid(body.value, isEmail) ==>
              r.response == Created(NatToString(now))
              && r.record == Some(CleanData(body.value, isEmail))
              && r.log == Some(MaskedLog(r.record.value))
    ensures r.record.Some? <==> r.response.Created?
    ensures r.response.Created? ==> body.Some? && Get(body.value, "consentement") == Some(JBool(true))
    ensures r.record.Some? ==>
              var c := r.record.value;
              Trim(c.nom) == c.nom && Trim(c.sujet) == c.sujet && Trim(c.message) == c.message
              && CleanEmail(c.email) == c.email
              && |c.nom| <= 100 && |c.sujet| <= 120 && |c.message| <= 2000
  {
    if body.None? then ContactOutcome(ServerError(now), None, None)
    else if !ContactValid(body.value, isEmail) then ContactOutcome(BadRequest, None, None)
    else
      var clean := CleanData(body.value, isEmail);
      CleanIsStable(clean, body.value, isEmail);
      ContactOutcome(Created(NatToString(now)), Some(clean), Some(MaskedLog(clean)))
  }

  /** Without `consentement: true` a message is refused with 400, whatever else
      it holds; 201 means the raw fields met every bound. */
  lemma ConsentRequired(body: Json, isEmail: string -> bool, now: nat)
    ensures Get(body, "consentement") != Some(JBool(true)) ==> Post(Some(body), isEmail, now).response == BadRequest
    ensures Post(Some(body), isEmail, now).response.Status() == 201 ==>
              IsTrue(Get(body, "consentement")) && StringIn(Get(body, "message"), 20, Some(2000))
  {
  }

  /** The bounds apply before trimming: a name of two spaces is accepted and
      stored as "", and its log shows "undefined" for the first character. */
  lemma PaddedNameAccepted(body: Json, isEmail: string -> bool, now: nat)
    requires ContactValid(body, isEmail)
    requires Get(body, "nom") == Some(JStr("  "))
    ensures Post(Some(body), isEmail, now).record.value.nom == ""
    ensures FirstCharText(Post(Some(body), isEmail, now).record.value.nom) == "undefined"
  {
    assert IsJsSpace(' ');
    assert TrimStart("  ") == TrimStart(" ") == "";
  }
}
