/** The form record of the XModal component and its submit-time validator.
    The two host services the validator leans on (JavaScript's string-to-number
    conversion behind `isNaN`, and `Date` parsing compared with the clock) are
    not modelled: they are the two functions of a `Host` value passed in. */
module Validation {

  /** The four inputs of the form, named by their element ids. */
  datatype Field = Username | Email | Phone | Dob

  /** The `formData` record: every field holds the input's current text. */
  datatype FormData = FormData(username: string, email: string, phone: string, dob: string)

  /** The value `formData` starts with and is reset to on close. */
  const EmptyForm: FormData := FormData("", "", "", "")

  const UsernameMessage: string := "Please enter your username"
  const EmailMessage: string := "Invalid email. Please check your email address."
  const PhoneMessage: string := "Invalid phone number. Please enter a 10-digit phone number."
  const DobMissingMessage: string := "Please enter your date of birth"
  const DobFutureMessage: string := "Invalid date of birth"

  /** What the JavaScript host answers at validation time.
      `isNumeric(s)` is `!isNaN(s)`, i.e. ToNumber(s) is not NaN;
      `isFuture(s)` is `new Date(s) > new Date()` at that moment. */
  datatype Host = Host(isNumeric: string -> bool, isFuture: string -> bool)

  /** A non-empty string of decimal digits. */
  predicate AllDigits(s: string) {
    |s| > 0 && forall i :: 0 <= i < |s| ==> '0' <= s[i] <= '9'
  }

  /** The one fact about ToNumber the model relies on: a non-empty string of
      decimal digits converts to a number. */
  ghost predicate DigitsAreNumeric(h: Host) {
    forall s :: AllDigits(s) ==> h.isNumeric(s)
  }

  /** The value of one field. */
  function Get(d: FormData, f: Field): (v: string) {
    match f
    case Username => d.username
    case Email => d.email
    case Phone => d.phone
    case Dob => d.dob
  }

  /** `{...formData, [id]: value}`: field `f` now holds `v`, the others are kept. */
  function With(d: FormData, f: Field, v: string): (r: FormData)
    ensures Get(r, f) == v
    ensures forall g :: g != f ==> Get(r, g) == Get(d, g)
  {
    match f
    case Username => d.(username := v)
    case Email => d.(email := v)
    case Phone => d.(phone := v)
    case Dob => d.(dob := v)
  }

  /** The validation part of `handleSubmit`: starting from an empty error
      object, each failing rule adds its field with its fixed message. */
  function Validate(d: FormData, h: Host): (errs: map<Field, string>)
    ensures Username in errs <==> d.username == ""
    ensures Email in errs <==> '@' !in d.email
    ensures Phone in errs <==> d.phone == "" || |d.phone| != 10 || !h.isNumeric(d.phone)
    ensures Dob in errs <==> d.dob == "" || h.isFuture(d.dob)
    ensures Username in errs ==> errs[Username] == UsernameMessage
    ensures Email in errs ==> errs[Email] == EmailMessage
    ensures Phone in errs ==> errs[Phone] == PhoneMessage
    ensures Dob in errs ==> errs[Dob] == (if d.dob == "" then DobMissingMessage else DobFutureMessage)
  {
    var e0: map<Field, string> := map[];
    var e1 := if d.username == "" then e0[Username := UsernameMessage] else e0;
    var e2 := if d.email == "" || '@' !in d.email then e1[Email := EmailMessage] else e1;
    var e3 := if d.phone == "" || |d.phone| != 10 || !h.isNumeric(d.phone)
              then e2[Phone := PhoneMessage] else e2;
    if d.dob == "" then e3[Dob := DobMissingMessage]
    else if h.isFuture(d.dob) then e3[Dob := DobFutureMessage]
    else e3
  }

  /** The rule each field must satisfy, stated field by field. */
  predicate Fails(d: FormData, h: Host, f: Field) {
    match f
    case Username => d.username == ""
    case Email => '@' !in d.email
    case Phone => |d.phone| != 10 || !h.isNumeric(d.phone)
    case Dob => d.dob == "" || h.isFuture(d.dob)
  }

  /** The literal message a failing field is reported with. */
  function Message(d: FormData, f: Field): (m: string) {
    match f
    case Username => UsernameMessage
    case Email => EmailMessage
    case Phone => PhoneMessage
    case Dob => if d.dob == "" then DobMissingMessage else DobFutureMessage
  }

  /** The error map holds exactly the failing fields, each with its message. */
  lemma ValidateIsExactlyTheFailures(d: FormData, h: Host)
    ensures forall f :: f in Validate(d, h) <==> Fails(d, h, f)
    ensures forall f :: f in Validate(d, h) ==> Validate(d, h)[f] == Message(d, f)
  {
  }

  /** A ten-character all-digit phone number is never reported. */
  lemma TenDigitPhoneAccepted(d: FormData, h: Host)
    requires DigitsAreNumeric(h)
    requires |d.phone| == 10 && AllDigits(d.phone)
    ensures Phone !in Validate(d, h)
  {
  }

  /** The two date-of-birth messages never both apply, and a non-empty date
      that is not in the future is accepted. */
  lemma DobMessages(d: FormData, h: Host)
    ensures Dob in Validate(d, h) ==>
      (Validate(d, h)[Dob] == DobMissingMessage <==> d.dob == "")
    ensures d.dob != "" && !h.isFuture(d.dob) ==> Dob !in Validate(d, h)
  {
  }

  /** The error map is empty exactly when every field passes its rule. */
  lemma ValidateEmptyIff(d: FormData, h: Host)
    ensures Validate(d, h) == map[] <==>
      d.username != "" && '@' in d.email && |d.phone| == 10 && h.isNumeric(d.phone)
      && d.dob != "" && !h.isFuture(d.dob)
  {
  }

  /** A filled-in record with a ten-digit phone and a past date passes:
      "alice", "a@b.com", "1234567890", "2000-01-01". */
  lemma SampleRecordIsValid(h: Host)
    requires DigitsAreNumeric(h) && !h.isFuture("2000-01-01")
    ensures Validate(FormData("alice", "a@b.com", "1234567890", "2000-01-01"), h) == map[]
  {
  }

  /** Sample inputs and their verdicts, whatever the host answers:
      "foo.bar" is not an e-mail and "a@b" is; "12345" is too short. */
  lemma SampleInputs(d: FormData, h: Host)
    ensures d.email == "foo.bar" ==> Email in Validate(d, h)
    ensures d.email == "a@b" ==> Email !in Validate(d, h)
    ensures d.phone == "12345" ==> Phone in Validate(d, h)
  {
  }
}
