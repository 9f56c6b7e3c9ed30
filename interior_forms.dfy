/**
 * The form checks of js/app.js: the newsletter form, the contact form and
 * the mobile call-back form. Each submit handler runs every field check in
 * turn; `setErr` writes the field's error text (empty when it passes) and
 * clears the shared `ok` flag on a failure.
 */
module InteriorForms {
  import opened Text
  import opened Patterns

  const NameError := "Please enter your full name."
  const EmailError := "Please enter a valid email."
  const PhoneError := "Please enter a valid phone number."
  const ServiceError := "Please select a service."
  const MessageError := "Message is too short."
  const ContactSent := "Thanks! Your message has been sent."
  const Subscribed := "Thanks! You are subscribed."
  const CallbackSent := "Thanks! We will call you back soon."

  /**
   * The newsletter submit handler: the message it shows. A missing email
   * input counts as invalid; the value is trimmed before the test.
   */
  function NewsletterMessage(email: Option<string>): (msg: string)
    ensures msg == Subscribed <==> email.Some? && EmailPattern(Trim(email.value))
    ensures msg != Subscribed ==> msg == EmailError
  {
    if email.None? || !ValidateEmail(Trim(email.value)) then EmailError else Subscribed
  }

  datatype ContactFields = ContactFields(name: string, email: string, phone: string,
                                         service: string, message: string)

  /** The contact form's acceptance rule, stated on the patterns' languages. */
  ghost predicate ContactAccepted(f: ContactFields)
  {
    && |Trim(f.name)| >= 2
    && EmailPattern(Trim(f.email))
    && PhonePattern(Trim(f.phone))
    && f.service != ""
    && (Trim(f.message) == "" || |Trim(f.message)| >= 5)
  }

  /** `setErr`: record the field's error text; a non-empty one clears `ok`. */
  method SetErr(ok: bool, errors: seq<string>, text: string) returns (ok': bool, errors': seq<string>)
    ensures errors' == errors + [text]
    ensures ok' <==> ok && text == ""
  {
    errors' := errors + [text];
    ok' := ok && text == "";
  }

  /** The status line after a submit: the success text when the form passed, otherwise cleared. */
  method Notify(ok: bool, success: string) returns (status: string)
    ensures ok ==> status == success
    ensures !ok ==> status == ""
  {
    status := if ok then success else "";
  }

  /** The name check: at least two characters once trimmed. */
  method CheckName(ok: bool, errors: seq<string>, name: string) returns (ok': bool, errors': seq<string>)
    ensures errors' == errors + [if |Trim(name)| >= 2 then "" else NameError]
    ensures ok' <==> ok && |Trim(name)| >= 2
  {
    var nameVal := Trim(name);
    ok', errors' := SetErr(ok, errors, if |nameVal| < 2 then NameError else "");
  }

  /** The email check: the pattern on the trimmed value. */
  method CheckEmail(ok: bool, errors: seq<string>, email: string) returns (ok': bool, errors': seq<string>)
    ensures errors' == errors + [if EmailPattern(Trim(email)) then "" else EmailError]
    ensures ok' <==> ok && EmailPattern(Trim(email))
  {
    var emailVal := Trim(email);
    ok', errors' := SetErr(ok, errors, if ValidateEmail(emailVal) then "" else EmailError);
  }

  /** The phone check: the phone pattern on the trimmed value. */
  method CheckPhone(ok: bool, errors: seq<string>, phone: string) returns (ok': bool, errors': seq<string>)
    ensures errors' == errors + [if PhonePattern(Trim(phone)) then "" else PhoneError]
    ensures ok' <==> ok && PhonePattern(Trim(phone))
  {
    var phoneVal := Trim(phone);
    var phoneOk := ValidatePhone(phoneVal);
    ok', errors' := SetErr(ok, errors, if phoneOk then "" else PhoneError);
  }

  /** The service check: some option other than the empty placeholder is selected. */
  method CheckService(ok: bool, errors: seq<string>, service: string) returns (ok': bool, errors': seq<string>)
    ensures errors' == errors + [if service != "" then "" else ServiceError]
    ensures ok' <==> ok && service != ""
  {
    ok', errors' := SetErr(ok, errors, if service != "" then "" else ServiceError);
  }

  /** The message check: an empty message passes, a present one needs five characters. */
  method CheckMessage(ok: bool, errors: seq<string>, message: string) returns (ok': bool, errors': seq<string>)
    ensures errors' == errors + [if Trim(message) == "" || |Trim(message)| >= 5 then "" else MessageError]
    ensures ok' <==> ok && (Trim(message) == "" || |Trim(message)| >= 5)
  {
    var msgVal := Trim(message);
    ok', errors' := SetErr(ok, errors, if msgVal != "" && |msgVal| < 5 then MessageError else "");
  }

  /**
   * The contact submit handler: every check runs, in field order (name,
   * email, phone, service, message), giving the five error texts, whether
   * the form is accepted, and the status line.
   */
  method SubmitContact(f: ContactFields) returns (ok: bool, errors: seq<string>, status: string)
    ensures ok <==> ContactAccepted(f)
    ensures |errors| == 5
    ensures errors[0] == (if |Trim(f.name)| >= 2 then "" else NameError)
    ensures errors[1] == (if EmailPattern(Trim(f.email)) then "" else EmailError)
    ensures errors[2] == (if PhonePattern(Trim(f.phone)) then "" else PhoneError)
    ensures errors[3] == (if f.service != "" then "" else ServiceError)
    ensures errors[4] == (if Trim(f.message) == "" || |Trim(f.message)| >= 5 then "" else MessageError)
    ensures ok <==> forall k :: 0 <= k < 5 ==> errors[k] == ""
    ensures status == if ok then ContactSent else ""
  {
    ok, errors := true, [];
    ok, errors := CheckName(ok, errors, f.name);
    ok, errors := CheckEmail(ok, errors, f.email);
    ok, errors := CheckPhone(ok, errors, f.phone);
    ok, errors := CheckService(ok, errors, f.service);
    ok, errors := CheckMessage(ok, errors, f.message);
    status := Notify(ok, ContactSent);
  }

  /** The call-back submit handler: name and phone, in that order. */
  method SubmitCallback(name: string, phone: string) returns (ok: bool, errors: seq<string>, status: string)
    ensures ok <==> |Trim(name)| >= 2 && PhonePattern(Trim(phone))
    ensures errors == [if |Trim(name)| >= 2 then "" else NameError,
                       if PhonePattern(Trim(phone)) then "" else PhoneError]
    ensures status == if ok then CallbackSent else ""
  {
    ok, errors := true, [];
    var nameOk := |Trim(name)| >= 2;
    ok, errors := SetErr(ok, errors, if !nameOk then NameError else "");
    var phoneOk := ValidatePhone(Trim(phone));
    ok, errors := SetErr(ok, errors, if phoneOk then "" else PhoneError);
    status := Notify(ok, CallbackSent);
  }

  /** The message rule accepts an empty or blank message: it is optional. */
  lemma BlankMessageIsOptional(f: ContactFields)
    requires AllSpace(f.message)
    ensures (Trim(f.message) == "" || |Trim(f.message)| >= 5)
  {
    TrimEmptyIffAllSpace(f.message);
  }
}
