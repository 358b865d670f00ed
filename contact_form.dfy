/** The contact form components/common/ContactForm.tsx: its `formSchema`, the
    body it posts to the contact endpoint, and the `onSubmit` steps: the
    submitting flag raised before the request and lowered after every outcome,
    the toast shown for each outcome, and the reset that only a successful
    answer triggers. The address format of `.email()` is the parameter
    `isEmail`; the server's answer is a parameter. */
module ContactFormView {
  import opened Common
  import opened Json
  import opened Zod
  import ContactRoute

  datatype Values = Values(nom: string, email: string, sujet: string, message: string)

  /** `defaultValues` */
  const Defaults := Values("", "", "", "")

  /** `formSchema`: minimum lengths and an email; no maximums. */
  predicate FormAccepts(v: Values, isEmail: string -> bool) {
    |v.nom| >= 2 && isEmail(v.email) && |v.sujet| >= 3 && |v.message| >= 10
  }

  /** `JSON.stringify(values)` as written: the four fields and nothing else. */
  function BodyAsWritten(v: Values): (r: Json)
    ensures r.JObj? && "consentement" !in r.fields
  {
    JObj(map["nom" := JStr(v.nom), "email" := JStr(v.email), "sujet" := JStr(v.sujet), "message" := JStr(v.message)])
  }

  /** The body as intended: the four fields and the visitor's consent. */
  function Body(v: Values, consentement: bool): (r: Json)
    ensures r.JObj? && r.fields == BodyAsWritten(v).fields["consentement" := JBool(consentement)]
  {
    JObj(BodyAsWritten(v).fields["consentement" := JBool(consentement)])
  }

  /** The body as written never carries `consentement`, so the contact endpoint
      refuses every message the form sends with 400. */
  lemma AsWrittenAlwaysRefused(v: Values, isEmail: string -> bool, now: nat)
    ensures ContactRoute.Post(Some(BodyAsWritten(v)), isEmail, now).response == ContactRoute.BadRequest
  {
    assert Get(BodyAsWritten(v), "consentement").None?;
  }

  /** What the endpoint reads from a body the form sends. */
  lemma BodyFields(v: Values, consentement: bool)
    ensures Get(Body(v, consentement), "nom") == Some(JStr(v.nom))
    ensures Get(Body(v, consentement), "email") == Some(JStr(v.email))
    ensures Get(Body(v, consentement), "sujet") == Some(JStr(v.sujet))
    ensures Get(Body(v, consentement), "message") == Some(JStr(v.message))
    ensures Get(Body(v, consentement), "consentement") == Some(JBool(consentement))
  {
    var f := BodyAsWritten(v).fields;
    assert f["nom"] == JStr(v.nom) && f["email"] == JStr(v.email);
    assert f["sujet"] == JStr(v.sujet) && f["message"] == JStr(v.message);
  }

  /** The corrected body meets the endpoint's schema exactly when consent is given,
      for a message within the endpoint's bounds. */
  lemma BodyMeetsSchema(v: Values, isEmail: string -> bool)
    requires 2 <= |v.nom| <= 100 && isEmail(v.email) && 5 <= |v.sujet| <= 120 && 20 <= |v.message| <= 2000
    ensures ContactRoute.ContactValid(Body(v, true), isEmail)
    ensures !ContactRoute.ContactValid(Body(v, false), isEmail)
  {
    var yes := Body(v, true);
    var no := Body(v, false);
    BodyFields(v, true);
    BodyFields(v, false);
    assert StringIn(Get(yes, "nom"), 2, Some(100)) && EmailString(Get(yes, "email"), isEmail);
    assert StringIn(Get(yes, "sujet"), 5, Some(120)) && StringIn(Get(yes, "message"), 20, Some(2000));
    assert IsTrue(Get(yes, "consentement")) && !IsTrue(Get(no, "consentement"));
  }

  /** With consent given, a message within the endpoint's bounds is accepted;
      without it, it is refused. */
  lemma BodyWithConsentAccepted(v: Values, isEmail: string -> bool, now: nat)
    requires 2 <= |v.nom| <= 100 && isEmail(v.email) && 5 <= |v.sujet| <= 120 && 20 <= |v.message| <= 2000
    ensures ContactRoute.Post(Some(Body(v, true)), isEmail, now).response.Status() == 201
    ensures ContactRoute.Post(Some(Body(v, false)), isEmail, now).response.Status() == 400
  {
    BodyMeetsSchema(v, isEmail);
    var yes := ContactRoute.Post(Some(Body(v, true)), isEmail, now);
    var no := ContactRoute.Post(Some(Body(v, false)), isEmail, now);
    assert yes.response == ContactRoute.Created(NatToString(now));
    assert no.response == ContactRoute.BadRequest;
  }

  /** The form's minimums are below the endpoint's: a subject of three characters
      or a message of ten passes the form and is refused by the endpoint. */
  lemma FormLooserThanEndpoint(v: Values, isEmail: string -> bool, now: nat)
    requires FormAccepts(v, isEmail)
    requires |v.sujet| < 5 || |v.message| < 20
    ensures ContactRoute.Post(Some(Body(v, true)), isEmail, now).response.Status() == 400
  {
    BodyFields(v, true);
  }

  /** What the request came back with: a network failure, or an answer whose
      `ok` flag is given and whose body is `None` when it is not JSON. */
  datatype Answer = NetworkError | Answered(ok: bool, body: Option<Json>)

  datatype Toast = Toast(title: string, description: Json, destructive: bool)

  const ErrorFallback := "Une erreur est survenue lors de l'envoi de votre message."

  /** `errorData.message || fallback` */
  function ErrorDescription(errorData: Json): (r: Json)
    ensures Truthy(Get(errorData, "message")) ==> r == Get(errorData, "message").value
    ensures !Truthy(Get(errorData, "message")) ==> r == JStr(ErrorFallback)
    ensures Truthy(Some(r))
  {
    if Truthy(Get(errorData, "message")) then Get(errorData, "message").value else JStr(ErrorFallback)
  }

  /** Whether the outcome resets the form: only an `ok` answer does. */
  predicate Resets(a: Answer) {
    a.Answered? && a.ok
  }

  /** Whether reading the body of a failed answer throws: a body that is not
      JSON throws in `response.json()`, and a `null` body throws at
      `errorData.message`. */
  predicate UnreadableError(a: Answer) {
    a.Answered? && !a.ok && (a.body.None? || a.body == Some(JNull))
  }

  /** The toast each outcome shows. A failed answer whose body cannot be read
      throws and ends in the network toast. */
  function ToastFor(a: Answer): (r: Toast)
    ensures r.destructive <==> !Resets(a)
    ensures r.title == "Erreur réseau" <==> a.NetworkError? || UnreadableError(a)
    ensures a.Answered? && !a.ok && a.body.Some? && a.body != Some(JNull) ==>
              r == Toast("Erreur d'envoi", ErrorDescription(a.body.value), true)
  {
    match a
    case NetworkError =>
      Toast("Erreur réseau", JStr("Impossible de se connecter au serveur. Veuillez vérifier votre connexion."), true)
    case Answered(true, _) =>
      Toast("Message envoyé !", JStr("Votre message a été envoyé avec succès. Nous vous répondrons bientôt."), false)
    case Answered(false, None) =>
      Toast("Erreur réseau", JStr("Impossible de se connecter au serveur. Veuillez vérifier votre connexion."), true)
    case Answered(false, Some(JNull)) =>
      Toast("Erreur réseau", JStr("Impossible de se connecter au serveur. Veuillez vérifier votre connexion."), true)
    case Answered(false, Some(errorData)) =>
      Toast("Erreur d'envoi", ErrorDescription(errorData), true)
  }

  /** The endpoint's 400 body carries `errors` and no `message`, so a refused
      message shows the fixed fallback. */
  lemma RefusedShowsFallback(errors: Json)
    ensures ToastFor(Answered(false, Some(JObj(map["success" := JBool(false), "errors" := errors])))).description
            == JStr(ErrorFallback)
  {
  }

  /** The submit button: disabled, with the sending label, while submitting. */
  function SubmitButton(isSubmitting: bool): (r: (bool, string))
    ensures r.0 <==> isSubmitting
    ensures r.1 == "Envoyer le message" <==> !isSubmitting
  {
    if isSubmitting then (true, "Envoi en cours...") else (false, "Envoyer le message")
  }

  /** The form's state: the field values, the consent box the endpoint needs, the
      submitting flag and the toasts shown so far. */
  class ContactForm {
    var values: Values
    var consentement: bool
    var isSubmitting: bool
    var toasts: seq<Toast>

    constructor ()
      ensures values == Defaults && !consentement && !isSubmitting && toasts == []
    {
      values := Defaults;
      consentement := false;
      isSubmitting := false;
      toasts := [];
    }

    /** Typing into the fields. */
    method Edit(v: Values)
      modifies this
      ensures values == v
      ensures consentement == old(consentement) && isSubmitting == old(isSubmitting) && toasts == old(toasts)
    {
      values := v;
    }

    /** Ticking or clearing the consent box. */
    method SetConsent(given: bool)
      modifies this
      ensures consentement == given
      ensures values == old(values) && isSubmitting == old(isSubmitting) && toasts == old(toasts)
    {
      consentement := given;
    }

    /** `handleSubmit` up to the request: values the schema refuses change
      nothing and send nothing; accepted values raise the flag and are sent. */
    method BeginSubmit(isEmail: string -> bool) returns (sent: Option<Json>)
      modifies this
      ensures FormAccepts(old(values), isEmail) ==> isSubmitting && sent == Some(Body(old(values), old(consentement)))
      ensures !FormAccepts(old(values), isEmail) ==> isSubmitting == old(isSubmitting) && sent.None?
      ensures values == old(values) && consentement == old(consentement) && toasts == old(toasts)
    {
      if FormAccepts(values, isEmail) {
        isSubmitting := true;
        sent := Some(Body(values, consentement));
      } else {
        sent := None;
      }
    }

    /** The rest of `onSubmit` once the request settled: one toast, a reset on
      success only, and the flag lowered whatever happened. */
    method FinishSubmit(answer: Answer)
      modifies this
      ensures !isSubmitting
      ensures toasts == old(toasts) + [ToastFor(answer)]
      ensures Resets(answer) ==> values == Defaults && !consentement
      ensures !Resets(answer) ==> values == old(values) && consentement == old(consentement)
    {
      toasts := toasts + [ToastFor(answer)];
      if Resets(answer) {
        values := Defaults;
        consentement := false;
      }
      isSubmitting := false;
    }
  }

  /** A full submission of valid values with consent, answered by the contact
      endpoint itself, resets the form and shows the success toast. */
  method SubmitToEndpoint(form: ContactForm, isEmail: string -> bool, now: nat) returns (status: int)
    modifies form
    requires 2 <= |form.values.nom| <= 100 && isEmail(form.values.email)
    requires 5 <= |form.values.sujet| <= 120 && 20 <= |form.values.message| <= 2000
    requires form.consentement
    ensures status == 201
    ensures form.values == Defaults && !form.isSubmitting
    ensures form.toasts == old(form.toasts) + [ToastFor(Answered(true, None))]
  {
    var v := form.values;
    BodyWithConsentAccepted(v, isEmail, now);
    var sent := form.BeginSubmit(isEmail);
    var response := ContactRoute.Post(sent, isEmail, now).response;
    status := response.Status();
    form.FinishSubmit(Answered(status == 201, None));
  }
}
