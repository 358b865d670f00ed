/** The newsletter endpoint app/api/newsletter/route.ts: `NewsletterSchema`
    (an email, consent that must be `true`, an optional source), the subscriber
    record built from it, the masked log line and the mapping of the outcome to
    400, 201 or 500. The address format of `.email()` is the parameter
    `isEmail`, the clock the parameter `now`. */
module NewsletterRoute {
  import opened Common
  import opened Json
  import opened Zod
  import ContactRoute

  /** `NewsletterSchema.safeParse(data).success` */
  predicate NewsletterValid(data: Json, isEmail: string -> bool) {
    data.JObj?
    && EmailString(Get(data, "email"), isEmail)
    && IsTrue(Get(data, "consent"))
    && OptionalStringIn(Get(data, "source"), None)
  }

  /** `subscriber`; a `None` source is `null`. */
  datatype Subscriber = Subscriber(id: string, email: string, source: Option<string>)

  /** `result.data.source || null`: an absent or empty source is stored as null. */
  function SourceOrNull(source: Option<string>): (r: Option<string>)
    ensures r.None? <==> source.None? || source.value == ""
    ensures r.Some? ==> r == source
  {
    if source.Some? && source.value != "" then source else None
  }

  /** The record the endpoint returns for an accepted sign-up. */
  function MakeSubscriber(data: Json, isEmail: string -> bool, now: nat): (r: Subscriber)
    requires NewsletterValid(data, isEmail)
    ensures r.id == NatToString(now)
    ensures r.email == CleanEmail(Str(Get(data, "email")))
    ensures r.source == SourceOrNull(OptStr(Get(data, "source")))
  {
    Subscriber(NatToString(now), CleanEmail(Str(Get(data, "email"))), SourceOrNull(OptStr(Get(data, "source"))))
  }

  /** The stored email is already clean: signing up with the stored address
      again stores the same address. */
  lemma StoredEmailIsClean(data: Json, isEmail: string -> bool, now: nat)
    requires NewsletterValid(data, isEmail)
    ensures CleanEmail(MakeSubscriber(data, isEmail, now).email) == MakeSubscriber(data, isEmail, now).email
  {
    CleanEmailIdempotent(Str(Get(data, "email")));
  }

  /** The log line: the address's first three characters and its domain. */
  function MaskedLog(cleanEmail: string): string {
    "Nouvelle inscription newsletter: " + Slice(cleanEmail, 3) + "...@..." + ContactRoute.DomainText(cleanEmail)
  }

  datatype NewsletterResponse =
    | BadRequest
    | Created(data: Subscriber)
    | ServerError(errorId: int)
  {
    function Status(): int {
      match this
      case BadRequest => 400
      case Created(_) => 201
      case ServerError(_) => 500
    }
  }

  /** `POST`, with the log line written for an accepted sign-up. `body` is `None`
      when the request body is not JSON. */
  function Post(body: Option<Json>, isEmail: string -> bool, now: nat): (r: (NewsletterResponse, Option<string>))
    ensures body.None? ==> r == (ServerError(now), None)
    ensures body.Some? && !NewsletterValid(body.value, isEmail) ==> r == (BadRequest, None)
    ensures body.Some? && NewsletterValid(body.value, isEmail) ==>
              var s := MakeSubscriber(body.value, isEmail, now);
              r == (Created(s), Some(MaskedLog(s.email)))
    ensures r.1.Some? <==> r.0.Created?
    ensures r.0.Created? ==>
              body.Some? && Get(body.value, "consent") == Some(JBool(true))
              && CleanEmail(r.0.data.email) == r.0.data.email
              && (r.0.data.source.Some? ==> r.0.data.source.value != "")
  {
    if body.None? then (ServerError(now), None)
    else if !NewsletterValid(body.value, isEmail) then (BadRequest, None)
    else
      var s := MakeSubscriber(body.value, isEmail, now);
      StoredEmailIsClean(body.value, isEmail, now);
      (Created(s), Some(MaskedLog(s.email)))
  }

  /** Consent must be exactly `true`; a `null` source is refused while an absent
      or empty one is accepted and stored as null. */
  lemma SignUpRules(body: Json, isEmail: string -> bool, now: nat)
    ensures Get(body, "consent") != Some(JBool(true)) ==> Post(Some(body), isEmail, now).0 == BadRequest
    ensures Get(body, "source") == Some(JNull) ==> Post(Some(body), isEmail, now).0 == BadRequest
    ensures NewsletterValid(body, isEmail) && Get(body, "source") in {None, Some(JStr(""))} ==>
              Post(Some(body), isEmail, now).0.Status() == 201
              && Post(Some(body), isEmail, now).0.data.source.None?
  {
  }
}
