/** The delivery form components/order/OrderForm.tsx: its `formSchema` (length
    minimums, the telephone pattern, an optional email), the gate that hands
    only accepted values to `onSubmit`, and the submit button. Every field starts
    as the empty string. The address format of `.email()` is the parameter
    `isEmail`. */
module OrderFormView {
  import opened Common

  datatype FormValues = FormValues(
    nomClient: string, telephone: string, adresse: string, ville: string,
    codePostal: string, remarques: string, email: string)

  /** `defaultValues` */
  const Defaults := FormValues("", "", "", "", "", "", "")

  /** The class `[0-9\s-()]`: a digit, white space, '-', '(' or ')'. */
  predicate PhoneChar(c: char) {
    IsDigit(c) || IsJsSpace(c) || c == '-' || c == '(' || c == ')'
  }

  /** `[0-9\s-()]{8,20}` matching the whole of `s`. */
  predicate PhoneRun(s: string) {
    8 <= |s| <= 20 && forall i :: 0 <= i < |s| ==> PhoneChar(s[i])
  }

  /** `/^\+?[0-9\s-()]{8,20}$/.test(s)`, read off the pattern: the optional '+'
      is either taken or skipped. */
  predicate TelephoneMatches(s: string) {
    (|s| > 0 && s[0] == '+' && PhoneRun(s[1..])) || PhoneRun(s)
  }

  /** What the pattern accepts, stated on characters: at most one '+', and only
      in front; then 8 to 20 characters of the class. No digit is required. */
  lemma TelephoneShape(s: string)
    ensures TelephoneMatches(s) <==>
              var body := if |s| > 0 && s[0] == '+' then s[1..] else s;
              8 <= |body| <= 20 && forall i :: 0 <= i < |body| ==> PhoneChar(body[i])
    ensures TelephoneMatches(s) ==> 8 <= |s| <= 21 && forall i :: 0 < i < |s| ==> s[i] != '+'
  {
    if |s| > 0 && s[0] == '+' {
      assert !PhoneChar('+');
      assert !PhoneRun(s);
    }
    if TelephoneMatches(s) && |s| > 0 && s[0] == '+' {
      assert forall i :: 0 < i < |s| ==> s[i] == s[1..][i - 1];
    }
  }

  /** Eight spaces pass the pattern; a '+' after the first character does not. */
  lemma TelephoneExamples()
    ensures TelephoneMatches("        ")
    ensures TelephoneMatches("+221 77 123 45 67")
    ensures !TelephoneMatches("77+1234567")
    ensures !TelephoneMatches("1234567")
  {
    assert PhoneChar(' ');
    assert forall i :: 0 <= i < |"77+1234567"| ==> "77+1234567"[i] == "77+1234567"[i];
    assert !PhoneChar("77+1234567"[2]);
  }

  /** The schema's checks on the delivery fields: name, telephone, address, city
      and postal code. */
  predicate DeliveryFieldsValid(v: FormValues) {
    |v.nomClient| >= 2 && TelephoneMatches(v.telephone) && |v.adresse| >= 5
    && |v.ville| >= 2 && |v.codePostal| >= 4
  }

  /** The schema as written: an optional email still has to be an address when
      it is the empty string, which is what the field holds unless typed in. */
  predicate FormAcceptsAsWritten(v: FormValues, isEmail: string -> bool) {
    DeliveryFieldsValid(v) && isEmail(v.email)
  }

  /** The schema with a blank email counted as absent. */
  predicate FormAccepts(v: FormValues, isEmail: string -> bool) {
    DeliveryFieldsValid(v) && (v.email == "" || isEmail(v.email))
  }

  /** `form.handleSubmit(onSubmit)` as written: `onSubmit` receives the values
      only when the schema as written accepts them. */
  function HandleSubmitAsWritten(v: FormValues, isEmail: string -> bool): (r: Option<FormValues>)
    ensures r.Some? ==> r == Some(v) && DeliveryFieldsValid(v)
    ensures r.Some? <==> FormAcceptsAsWritten(v, isEmail)
  {
    if FormAcceptsAsWritten(v, isEmail) then Some(v) else None
  }

  /** With any address format that refuses "", a customer who leaves the
      optional email blank cannot submit the form as written, whatever the
      other fields hold; the corrected gate lets them through exactly when the
      delivery fields are valid. */
  lemma BlankEmailBlocksOrder(v: FormValues, isEmail: string -> bool)
    requires !isEmail("")
    requires v.email == ""
    ensures HandleSubmitAsWritten(v, isEmail).None?
    ensures HandleSubmit(v, isEmail).Some? <==> DeliveryFieldsValid(v)
  {
  }

  /** `form.handleSubmit(onSubmit)` with the blank email counted as absent: the
      values reach `onSubmit` unchanged; a blank email is no obstacle, and a
      typed-in email is judged exactly as the form as written judges it. */
  function HandleSubmit(v: FormValues, isEmail: string -> bool): (r: Option<FormValues>)
    ensures r.Some? ==> r == Some(v)
    ensures v.email == "" ==> (r.Some? <==> DeliveryFieldsValid(v))
    ensures v.email != "" ==> r == HandleSubmitAsWritten(v, isEmail)
    ensures HandleSubmitAsWritten(v, isEmail).Some? ==> r.Some?
  {
    if FormAccepts(v, isEmail) then Some(v) else None
  }

  /** The untouched form is never submitted, and a submitted form meets the order
      endpoint's minimum lengths for name, telephone, city and postal code. */
  lemma SubmittedMeetsMinimums(v: FormValues, isEmail: string -> bool)
    ensures HandleSubmit(Defaults, isEmail).None? && HandleSubmitAsWritten(Defaults, isEmail).None?
    ensures HandleSubmit(v, isEmail).Some? ==>
              |v.nomClient| >= 2 && |v.telephone| >= 8 && |v.ville| >= 2 && |v.codePostal| >= 4
  {
    TelephoneShape(v.telephone);
  }

  /** The form, as written and corrected alike, accepts a five-character
      address, which the order endpoint (ten characters at least) refuses. */
  lemma ShortAddressPassesForm(isEmail: string -> bool, email: string)
    requires isEmail(email)
    ensures var v := FormValues("Awa", "77 123 45 67", "Rue 1", "Dakar", "1200", "", email);
            HandleSubmitAsWritten(v, isEmail).Some? && HandleSubmit(v, isEmail).Some? && |v.adresse| < 10
  {
    var tel := "77 123 45 67";
    assert forall i :: 0 <= i < |tel| ==> PhoneChar(tel[i]);
  }

  /** The submit button: disabled, with the sending label, while submitting. */
  function SubmitButton(isSubmitting: bool): (r: (bool, string))
    ensures r.0 <==> isSubmitting
    ensures r.1 == "Confirmer la commande" <==> !isSubmitting
  {
    if isSubmitting then (true, "Envoi de la commande...") else (false, "Confirmer la commande")
  }
}
