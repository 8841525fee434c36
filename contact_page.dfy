/**
 * The inquiry form of the Contact page: its seven text fields, the
 * required-field gate run before anything is sent, the reset after a
 * successful submission, and the texts shown on success and failure.
 */
module ContactPage {
  import opened Wrappers
  import opened Json
  import opened Schema
  import opened Routes

  datatype Field = Name | Email | Phone | Country | ProgramInterest | EducationLevel | MessageText

  /** `formData`: every field is a string, the empty string when untouched. */
  datatype FormData = FormData(
    name: string,
    email: string,
    phone: string,
    country: string,
    programInterest: string,
    educationLevel: string,
    message: string)

  const MissingTitle := "Missing Information"
  const MissingDescription := "Please fill in all required fields."
  const SuccessFallback := "We'll get back to you within 24 hours via email or WhatsApp."
  const ErrorFallback := "Please try again or contact us via WhatsApp."

  function EmptyForm(): (f: FormData)
    ensures forall field :: FieldValue(f, field) == ""
  {
    FormData("", "", "", "", "", "", "")
  }

  function FieldValue(f: FormData, field: Field): string
  {
    match field
    case Name => f.name
    case Email => f.email
    case Phone => f.phone
    case Country => f.country
    case ProgramInterest => f.programInterest
    case EducationLevel => f.educationLevel
    case MessageText => f.message
  }

  /** `{ ...prev, [field]: value }` */
  function WithField(f: FormData, field: Field, value: string): (g: FormData)
    ensures FieldValue(g, field) == value
    ensures forall other :: other != field ==> FieldValue(g, other) == FieldValue(f, other)
  {
    match field
    case Name => f.(name := value)
    case Email => f.(email := value)
    case Phone => f.(phone := value)
    case Country => f.(country := value)
    case ProgramInterest => f.(programInterest := value)
    case EducationLevel => f.(educationLevel := value)
    case MessageText => f.(message := value)
  }

  /** The six fields the gate checks; the message is not among them. */
  predicate IsRequired(field: Field)
  {
    field != MessageText
  }

  /** The gate's condition: every required field holds a non-empty string. */
  predicate RequiredFilled(f: FormData): (filled: bool)
    ensures filled <==> forall field :: IsRequired(field) ==> FieldValue(f, field) != ""
  {
    var filled := f.name != "" && f.email != "" && f.phone != "" && f.country != ""
                  && f.programInterest != "" && f.educationLevel != "";
    assert !filled ==> exists field :: IsRequired(field) && FieldValue(f, field) == "" by {
      if f.name == "" { assert FieldValue(f, Name) == ""; }
      else if f.email == "" { assert FieldValue(f, Email) == ""; }
      else if f.phone == "" { assert FieldValue(f, Phone) == ""; }
      else if f.country == "" { assert FieldValue(f, Country) == ""; }
      else if f.programInterest == "" { assert FieldValue(f, ProgramInterest) == ""; }
      else if f.educationLevel == "" { assert FieldValue(f, EducationLevel) == ""; }
    }
    filled
  }

  /** What `handleSubmit` does: show the missing-information toast, or send the form. */
  datatype SubmitAction = Blocked(title: string, description: string) | Send(payload: FormData)

  function SubmitDecision(f: FormData): (a: SubmitAction)
    ensures a.Send? <==> forall field :: IsRequired(field) ==> FieldValue(f, field) != ""
    ensures a.Send? ==> a.payload == f
    ensures a.Blocked? ==> a == Blocked(MissingTitle, MissingDescription)
  {
    if RequiredFilled(f) then Send(f) else Blocked(MissingTitle, MissingDescription)
  }

  /** The JSON body the form is sent as: all seven fields, the message included. */
  function FormPayload(f: FormData): (body: Json)
    ensures body.JObject? && body.fields.Keys == SchemaKeys
  {
    JObject(map["name" := JString(f.name), "email" := JString(f.email), "phone" := JString(f.phone),
                "country" := JString(f.country), "programInterest" := JString(f.programInterest),
                "educationLevel" := JString(f.educationLevel), "message" := JString(f.message)])
  }

  /** `v?.key` on a value that may be `undefined`. */
  function MemberOf(v: Option<Json>, key: string): (r: Option<Json>)
    ensures r.Some? <==> v.Some? && v.value.JObject? && key in v.value.fields
    ensures r.Some? ==> r.value == v.value.fields[key]
  {
    if v.Some? then Member(v.value, key) else None
  }

  /** The failure toast's text: `error?.error || error?.message || ErrorFallback`. */
  function ErrorDescription(error: Option<Json>): (d: Json)
    ensures Truthy(MemberOf(error, "error")) ==> Some(d) == MemberOf(error, "error")
    ensures !Truthy(MemberOf(error, "error")) && Truthy(MemberOf(error, "message")) ==>
      Some(d) == MemberOf(error, "message")
    ensures !Truthy(MemberOf(error, "error")) && !Truthy(MemberOf(error, "message")) ==>
      d == JString(ErrorFallback)
    ensures Truthy(Some(d))
  {
    Or(Or(MemberOf(error, "error"), MemberOf(error, "message")), Some(JString(ErrorFallback))).value
  }

  /** The success toast's text: `response.message || SuccessFallback`. The plain `.` on
      `undefined` or `null` throws a TypeError before any toast: then there is no text. */
  function SuccessDescription(response: Option<Json>): (d: Option<Json>)
    ensures d.None? <==> response.None? || response == Some(JNull)
    ensures d.Some? && Truthy(MemberOf(response, "message")) ==> d == MemberOf(response, "message")
    ensures d.Some? && !Truthy(MemberOf(response, "message")) ==> d == Some(JString(SuccessFallback))
    ensures d.Some? ==> Truthy(d)
  {
    if response.None? || response == Some(JNull) then None
    else Or(MemberOf(response, "message"), Some(JString(SuccessFallback)))
  }

  /** The 201 answer's body as JSON. */
  function SubmittedJson(success: bool, message: string, id: string, createdAt: string): Json
  {
    JObject(map["success" := JBool(success), "message" := JString(message),
                "inquiry" := JObject(map["id" := JString(id), "createdAt" := JString(createdAt)])])
  }

  /** The form's state. */
  class ContactForm {
    var formData: FormData

    constructor ()
      ensures formData == EmptyForm()
    {
      formData := EmptyForm();
    }

    /** `handleInputChange(field, value)`: only the named field changes. */
    method HandleInputChange(field: Field, value: string)
      modifies this
      ensures formData == WithField(old(formData), field, value)
    {
      formData := WithField(formData, field, value);
    }

    /** `handleSubmit`: decides, and changes nothing; a blocked form keeps its contents. */
    method HandleSubmit() returns (a: SubmitAction)
      ensures a.Send? <==> RequiredFilled(formData)
      ensures a.Send? ==> a.payload == formData
      ensures a.Blocked? ==> a == Blocked(MissingTitle, MissingDescription)
    {
      a := SubmitDecision(formData);
    }

    /** The mutation's `onSuccess`: show the server's message and clear all seven fields.
        When reading `response.message` throws (`description` is `None`), the handler stops
        there and the form keeps its contents. */
    method OnSubmitSuccess(response: Option<Json>) returns (description: Option<Json>)
      modifies this
      ensures description == SuccessDescription(response)
      ensures description.Some? ==> formData == EmptyForm()
      ensures description.None? ==> formData == old(formData)
    {
      description := SuccessDescription(response);
      if description.Some? {
        formData := EmptyForm();
      }
    }
  }

  // ------------------------------------------------------------ properties

  /** The message never affects the gate. */
  lemma MessageNeverBlocks(f: FormData, value: string)
    ensures SubmitDecision(WithField(f, MessageText, value)).Send? == SubmitDecision(f).Send?
  {
    assert RequiredFilled(WithField(f, MessageText, value)) == RequiredFilled(f);
  }

  /** Emptying any required field blocks the submission. */
  lemma EmptyRequiredFieldBlocks(f: FormData, field: Field)
    requires IsRequired(field)
    ensures SubmitDecision(WithField(f, field, "")) == Blocked(MissingTitle, MissingDescription)
  {
    assert FieldValue(WithField(f, field, ""), field) == "";
  }

  /** After a success the form is empty, so submitting again right away is blocked. */
  lemma EmptyFormBlocked()
    ensures SubmitDecision(EmptyForm()).Blocked?
  {
    assert FieldValue(EmptyForm(), Name) == "";
  }

  /** The gate checks presence only: a filled form with a 9-character phone is sent,
      and the server then rejects it with the phone message. */
  lemma GateMissesShortPhone(f: FormData, isEmail: string -> bool)
    requires RequiredFilled(f) && |f.phone| < MinPhoneLength
    ensures SubmitDecision(f) == Send(f)
    ensures ParseInquiry(FormPayload(f), isEmail).Failure?
    ensures Issue(["phone"], TooSmall, PhoneMessage) in ParseInquiry(FormPayload(f), isEmail).error
  {
    ShortPhoneRejected(FormPayload(f).fields, isEmail);
  }

  /** The gate is stricter than the server on the other fields: an empty name is blocked
      on the page although the server would accept it. */
  lemma GateStricterOnEmptyName(f: FormData, isEmail: string -> bool)
    requires f.name == "" && isEmail(f.email) && |f.phone| >= MinPhoneLength
    ensures SubmitDecision(f).Blocked?
    ensures ParseInquiry(FormPayload(f), isEmail).Success?
  {
    var body := FormPayload(f);
    assert AcceptableInquiry(body, isEmail);
    AcceptableIsAccepted(body, isEmail);
  }

  /** A form that the server accepts is stored with every field as typed, the message
      included as text. */
  lemma AcceptedFormStoredAsTyped(f: FormData, isEmail: string -> bool)
    requires ParseInquiry(FormPayload(f), isEmail).Success?
    ensures ParseInquiry(FormPayload(f), isEmail).value
            == InsertInquiry(f.name, f.email, f.phone, f.country, f.programInterest,
                             f.educationLevel, Text(f.message))
  {
    ParseInquiryAcceptsExactly(FormPayload(f), isEmail);
  }

  /** When the success handler receives the parsed 201 body, the success toast shows the
      server's confirmation. */
  lemma SuccessShowsServerMessage(id: string, createdAt: string)
    ensures SuccessDescription(Some(SubmittedJson(true, SubmittedMessage, id, createdAt)))
            == Some(JString(SubmittedMessage))
  {
    var body := SubmittedJson(true, SubmittedMessage, id, createdAt);
    assert MemberOf(Some(body), "message") == Some(JString(SubmittedMessage));
  }

  /** An error object carrying only a message shows that message; `error` wins over it. */
  lemma ErrorDescriptionPrefersError(e: string, m: string)
    requires e != "" && m != ""
    ensures ErrorDescription(Some(JObject(map["message" := JString(m)]))) == JString(m)
    ensures ErrorDescription(Some(JObject(map["error" := JString(e), "message" := JString(m)]))) == JString(e)
    ensures ErrorDescription(None) == JString(ErrorFallback)
  {
    assert MemberOf(Some(JObject(map["message" := JString(m)])), "error") == None;
  }
}
