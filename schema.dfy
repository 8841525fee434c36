/**
 * The four record kinds (row shapes and insert shapes) and the inquiry
 * validator `insertInquirySchema`: a parser from an untyped request body to
 * either an insert record or the list of Zod issues it raised.
 *
 * Nullable columns are `Option` (`null` and a missing key are both `None`),
 * except an inquiry's `message`, whose three forms are kept apart because
 * they are stored and returned as sent.
 */
module Schema {
  import opened Wrappers
  import opened Json

  // ---------------------------------------------------------------- records

  datatype University = University(
    id: string,
    name: string,
    location: string,
    description: string,
    programs: seq<string>,
    medium: string,
    established: Option<string>,
    ranking: Option<string>,
    logoUrl: Option<string>,
    authorizationLetterUrl: Option<string>)

  /** The University row without `id`. */
  datatype InsertUniversity = InsertUniversity(
    name: string,
    location: string,
    description: string,
    programs: seq<string>,
    medium: string,
    established: Option<string>,
    ranking: Option<string>,
    logoUrl: Option<string>,
    authorizationLetterUrl: Option<string>)

  datatype Program = Program(
    id: string,
    category: string,
    title: string,
    duration: string,
    medium: string,
    eligibility: string,
    tuitionFees: string,
    admissionIntakes: string,
    description: Option<string>)

  /** The Program row without `id`. */
  datatype InsertProgram = InsertProgram(
    category: string,
    title: string,
    duration: string,
    medium: string,
    eligibility: string,
    tuitionFees: string,
    admissionIntakes: string,
    description: Option<string>)

  datatype Testimonial = Testimonial(
    id: string,
    studentName: string,
    country: string,
    university: string,
    program: string,
    quote: string,
    year: int,
    imageUrl: Option<string>)

  /** The Testimonial row without `id`. */
  datatype InsertTestimonial = InsertTestimonial(
    studentName: string,
    country: string,
    university: string,
    program: string,
    quote: string,
    year: int,
    imageUrl: Option<string>)

  /** An inquiry's optional, nullable `message`: left out, sent as `null`, or sent as text. */
  datatype MessageField = Absent | Null | Text(text: string)

  datatype Inquiry = Inquiry(
    id: string,
    name: string,
    email: string,
    phone: string,
    country: string,
    programInterest: string,
    educationLevel: string,
    message: MessageField,
    createdAt: string)

  /** The Inquiry row without `id` and `createdAt`: the caller can set neither. */
  datatype InsertInquiry = InsertInquiry(
    name: string,
    email: string,
    phone: string,
    country: string,
    programInterest: string,
    educationLevel: string,
    message: MessageField)

  // ------------------------------------------- insert shape <-> row shape

  function UniversityInsert(u: University): InsertUniversity
  {
    InsertUniversity(u.name, u.location, u.description, u.programs, u.medium,
                     u.established, u.ranking, u.logoUrl, u.authorizationLetterUrl)
  }

  /** `{ ...insert, id }`: the row is the insert record plus the id, and nothing else. */
  function UniversityWithId(ins: InsertUniversity, id: string): (u: University)
    ensures u.id == id && UniversityInsert(u) == ins
  {
    University(id, ins.name, ins.location, ins.description, ins.programs, ins.medium,
               ins.established, ins.ranking, ins.logoUrl, ins.authorizationLetterUrl)
  }

  function ProgramInsert(p: Program): InsertProgram
  {
    InsertProgram(p.category, p.title, p.duration, p.medium, p.eligibility,
                  p.tuitionFees, p.admissionIntakes, p.description)
  }

  function ProgramWithId(ins: InsertProgram, id: string): (p: Program)
    ensures p.id == id && ProgramInsert(p) == ins
  {
    Program(id, ins.category, ins.title, ins.duration, ins.medium, ins.eligibility,
            ins.tuitionFees, ins.admissionIntakes, ins.description)
  }

  function TestimonialInsert(t: Testimonial): InsertTestimonial
  {
    InsertTestimonial(t.studentName, t.country, t.university, t.program, t.quote, t.year, t.imageUrl)
  }

  function TestimonialWithId(ins: InsertTestimonial, id: string): (t: Testimonial)
    ensures t.id == id && TestimonialInsert(t) == ins
  {
    Testimonial(id, ins.studentName, ins.country, ins.university, ins.program, ins.quote,
                ins.year, ins.imageUrl)
  }

  function InquiryInsert(q: Inquiry): InsertInquiry
  {
    InsertInquiry(q.name, q.email, q.phone, q.country, q.programInterest, q.educationLevel, q.message)
  }

  /** `{ ...insert, id, createdAt }`: the store's id and timestamp come last, so they win. */
  function InquiryWithStamp(ins: InsertInquiry, id: string, createdAt: string): (q: Inquiry)
    ensures q.id == id && q.createdAt == createdAt && InquiryInsert(q) == ins
  {
    Inquiry(id, ins.name, ins.email, ins.phone, ins.country, ins.programInterest,
            ins.educationLevel, ins.message, createdAt)
  }

  /** A row is determined by its insert part and its id: dropping the id loses nothing else. */
  lemma RowsAreInsertPlusId(u: University, p: Program, t: Testimonial, q: Inquiry)
    ensures UniversityWithId(UniversityInsert(u), u.id) == u
    ensures ProgramWithId(ProgramInsert(p), p.id) == p
    ensures TestimonialWithId(TestimonialInsert(t), t.id) == t
    ensures InquiryWithStamp(InquiryInsert(q), q.id, q.createdAt) == q
  {
  }

  // ------------------------------------------------------ inquiry validation

  /** The Zod issue codes this schema can raise. */
  datatype IssueCode = InvalidType | InvalidString | TooSmall

  /** A Zod issue: where (the key path from the body's root), what kind, and its message. */
  datatype Issue = Issue(path: seq<string>, code: IssueCode, message: string)

  const EmailMessage := "Please enter a valid email address"
  const PhoneMessage := "Please enter a valid phone number"
  const MinPhoneLength := 10

  /** The six keys that must hold strings, in the schema's key order. */
  const RequiredKeys: seq<string> := ["name", "email", "phone", "country", "programInterest", "educationLevel"]

  /** Every key the inquiry schema reads; any other key of the body is stripped. */
  const SchemaKeys: set<string> := {"name", "email", "phone", "country", "programInterest", "educationLevel", "message"}

  function Lookup(fields: map<string, Json>, key: string): Option<Json>
  {
    if key in fields then Some(fields[key]) else None
  }

  /** The `invalid_type` issue Zod raises for a non-string where a string is expected. */
  function TypeIssue(key: string, v: Option<Json>): Issue
  {
    Issue([key], InvalidType, if v.None? then "Required" else "Expected string, received " + TypeName(v))
  }

  /** `z.string()` on one key of the body. */
  function StringField(fields: map<string, Json>, key: string): (r: Result<string, seq<Issue>>)
    ensures r.Success? <==> key in fields && fields[key].JString?
    ensures r.Success? ==> r.value == fields[key].s
    ensures r.Failure? ==> r.error == [TypeIssue(key, Lookup(fields, key))]
  {
    if key in fields && fields[key].JString? then Success(fields[key].s)
    else Failure([TypeIssue(key, Lookup(fields, key))])
  }

  /** `email: z.string().email(EmailMessage)`; the address syntax itself is `isEmail`. */
  function EmailField(fields: map<string, Json>, isEmail: string -> bool): (r: Result<string, seq<Issue>>)
    ensures r.Failure? ==> |r.error| == 1 && r.error[0].path == ["email"]
  {
    match StringField(fields, "email")
    case Failure(e) => Failure(e)
    case Success(s) => if isEmail(s) then Success(s) else Failure([Issue(["email"], InvalidString, EmailMessage)])
  }

  /** `phone: z.string().min(10, PhoneMessage)`: a length check only, no format. */
  function PhoneField(fields: map<string, Json>): (r: Result<string, seq<Issue>>)
    ensures r.Failure? ==> |r.error| == 1 && r.error[0].path == ["phone"]
  {
    match StringField(fields, "phone")
    case Failure(e) => Failure(e)
    case Success(s) => if |s| >= MinPhoneLength then Success(s) else Failure([Issue(["phone"], TooSmall, PhoneMessage)])
  }

  /** `message: z.string().nullable().optional()`. */
  function MessageOf(fields: map<string, Json>): (r: Result<MessageField, seq<Issue>>)
    ensures r.Failure? ==> |r.error| == 1 && r.error[0].path == ["message"]
  {
    if "message" !in fields then Success(Absent)
    else match fields["message"]
      case JNull => Success(Null)
      case JString(s) => Success(Text(s))
      case other => Failure([Issue(["message"], InvalidType, "Expected string, received " + TypeName(Some(other)))])
  }

  function IssuesOf<T>(r: Result<T, seq<Issue>>): (e: seq<Issue>)
  {
    if r.Failure? then r.error else []
  }

  /**
   * `insertInquirySchema.parse(body)`. Zod checks every key and reports all
   * issues together, in the order of the schema's keys; keys outside the
   * schema (among them `id` and `createdAt`) are stripped.
   */
  function ParseInquiry(body: Json, isEmail: string -> bool): (r: Result<InsertInquiry, seq<Issue>>)
    ensures r.Failure? ==> r.error != []
  {
    match body
    case JObject(fields) =>
      var name := StringField(fields, "name");
      var email := EmailField(fields, isEmail);
      var phone := PhoneField(fields);
      var country := StringField(fields, "country");
      var programInterest := StringField(fields, "programInterest");
      var educationLevel := StringField(fields, "educationLevel");
      var message := MessageOf(fields);
      var issues := IssuesOf(name) + IssuesOf(email) + IssuesOf(phone) + IssuesOf(country)
                    + IssuesOf(programInterest) + IssuesOf(educationLevel) + IssuesOf(message);
      if issues == [] then
        Success(InsertInquiry(name.value, email.value, phone.value, country.value,
                              programInterest.value, educationLevel.value, message.value))
      else Failure(issues)
    case _ =>
      Failure([Issue([], InvalidType, "Expected object, received " + TypeName(Some(body)))])
  }

  // --------------------------------------------------- validation properties

  ghost predicate HoldsString(fields: map<string, Json>, key: string)
  {
    key in fields && fields[key].JString?
  }

  /** The declarative acceptance rule: an object whose six required keys hold strings,
      a syntactically valid email, a phone of at least 10 characters, and a message
      that is missing, null or a string. Nothing else is checked. */
  ghost predicate AcceptableInquiry(body: Json, isEmail: string -> bool)
  {
    && body.JObject?
    && HoldsString(body.fields, "name")
    && HoldsString(body.fields, "email")
    && HoldsString(body.fields, "phone")
    && HoldsString(body.fields, "country")
    && HoldsString(body.fields, "programInterest")
    && HoldsString(body.fields, "educationLevel")
    && isEmail(body.fields["email"].s)
    && |body.fields["phone"].s| >= MinPhoneLength
    && ("message" in body.fields ==> body.fields["message"].JNull? || body.fields["message"].JString?)
  }

  /** The record an acceptable body yields: its own strings, unchanged. */
  ghost function AcceptedRecord(body: Json, isEmail: string -> bool): InsertInquiry
    requires AcceptableInquiry(body, isEmail)
  {
    var f := body.fields;
    InsertInquiry(f["name"].s, f["email"].s, f["phone"].s, f["country"].s,
                  f["programInterest"].s, f["educationLevel"].s,
                  if "message" !in f then Absent
                  else if f["message"].JNull? then Null
                  else Text(f["message"].s))
  }

  /** The validator accepts every acceptable body and returns its fields as sent. */
  lemma AcceptableIsAccepted(body: Json, isEmail: string -> bool)
    requires AcceptableInquiry(body, isEmail)
    ensures ParseInquiry(body, isEmail) == Success(AcceptedRecord(body, isEmail))
  {
    var f := body.fields;
    assert StringField(f, "name").Success?;
    assert EmailField(f, isEmail).Success?;
    assert PhoneField(f).Success?;
    assert StringField(f, "country").Success?;
    assert StringField(f, "programInterest").Success?;
    assert StringField(f, "educationLevel").Success?;
    assert MessageOf(f).Success?;
  }

  /** The validator accepts nothing else. */
  lemma AcceptedIsAcceptable(body: Json, isEmail: string -> bool)
    requires ParseInquiry(body, isEmail).Success?
    ensures AcceptableInquiry(body, isEmail)
  {
    var f := body.fields;
    var a, b, c, d := IssuesOf(StringField(f, "name")), IssuesOf(EmailField(f, isEmail)), IssuesOf(PhoneField(f)), IssuesOf(StringField(f, "country"));
    var e, g, h := IssuesOf(StringField(f, "programInterest")), IssuesOf(StringField(f, "educationLevel")), IssuesOf(MessageOf(f));
    assert a + b + c + d + e + g + h == [];
    assert |a + b + c + d + e + g + h| == |a| + |b| + |c| + |d| + |e| + |g| + |h|;
    assert a == [] && b == [] && c == [] && d == [] && e == [] && g == [] && h == [];
  }

  /** Both directions together: the validator accepts exactly the acceptable bodies. */
  lemma ParseInquiryAcceptsExactly(body: Json, isEmail: string -> bool)
    ensures ParseInquiry(body, isEmail).Success? <==> AcceptableInquiry(body, isEmail)
    ensures AcceptableInquiry(body, isEmail) ==> ParseInquiry(body, isEmail).value == AcceptedRecord(body, isEmail)
  {
    if AcceptableInquiry(body, isEmail) {
      AcceptableIsAccepted(body, isEmail);
    }
    if ParseInquiry(body, isEmail).Success? {
      AcceptedIsAcceptable(body, isEmail);
    }
  }

  /** A missing required key is reported as `Required` at that key. */
  lemma MissingKeyIsRequired(fields: map<string, Json>, key: string, isEmail: string -> bool)
    requires key in RequiredKeys && key !in fields
    ensures ParseInquiry(JObject(fields), isEmail).Failure?
    ensures Issue([key], InvalidType, "Required") in ParseInquiry(JObject(fields), isEmail).error
  {
    var r := ParseInquiry(JObject(fields), isEmail);
    var issue := Issue([key], InvalidType, "Required");
    if key == "name" {
      assert IssuesOf(StringField(fields, "name")) == [issue];
    } else if key == "email" {
      assert IssuesOf(EmailField(fields, isEmail)) == [issue];
    } else if key == "phone" {
      assert IssuesOf(PhoneField(fields)) == [issue];
    } else if key == "country" {
      assert IssuesOf(StringField(fields, "country")) == [issue];
    } else if key == "programInterest" {
      assert IssuesOf(StringField(fields, "programInterest")) == [issue];
    } else {
      assert IssuesOf(StringField(fields, "educationLevel")) == [issue];
    }
  }

  /** A string email that fails the syntax check is rejected with the email message. */
  lemma InvalidEmailRejected(fields: map<string, Json>, isEmail: string -> bool)
    requires "email" in fields && fields["email"].JString? && !isEmail(fields["email"].s)
    ensures ParseInquiry(JObject(fields), isEmail).Failure?
    ensures Issue(["email"], InvalidString, EmailMessage) in ParseInquiry(JObject(fields), isEmail).error
  {
    assert IssuesOf(EmailField(fields, isEmail)) == [Issue(["email"], InvalidString, EmailMessage)];
  }

  /** A string phone shorter than 10 characters is rejected with the phone message. */
  lemma ShortPhoneRejected(fields: map<string, Json>, isEmail: string -> bool)
    requires "phone" in fields && fields["phone"].JString? && |fields["phone"].s| < MinPhoneLength
    ensures ParseInquiry(JObject(fields), isEmail).Failure?
    ensures Issue(["phone"], TooSmall, PhoneMessage) in ParseInquiry(JObject(fields), isEmail).error
  {
    assert IssuesOf(PhoneField(fields)) == [Issue(["phone"], TooSmall, PhoneMessage)];
  }

  /** Any phone string of 10 or more characters raises no phone issue: its format is not checked. */
  lemma LongPhoneNeverRejected(fields: map<string, Json>, isEmail: string -> bool)
    requires "phone" in fields && fields["phone"].JString? && |fields["phone"].s| >= MinPhoneLength
    ensures forall issue :: issue in IssuesOf(ParseInquiry(JObject(fields), isEmail)) ==> issue.path != ["phone"]
  {
    var f := fields;
    var a, b, c, d := IssuesOf(StringField(f, "name")), IssuesOf(EmailField(f, isEmail)), IssuesOf(PhoneField(f)), IssuesOf(StringField(f, "country"));
    var e, g, h := IssuesOf(StringField(f, "programInterest")), IssuesOf(StringField(f, "educationLevel")), IssuesOf(MessageOf(f));
    assert c == [];
    var all := a + b + c + d + e + g + h;
    assert IssuesOf(ParseInquiry(JObject(f), isEmail)) == all;
    forall issue | issue in all
      ensures issue.path != ["phone"]
    {
      assert issue in a || issue in b || issue in d || issue in e || issue in g || issue in h;
    }
  }

  /** Keys outside the schema, such as a caller's `id` or `createdAt`, change nothing. */
  lemma ExtraKeysStripped(fields: map<string, Json>, key: string, v: Json, isEmail: string -> bool)
    requires key !in SchemaKeys
    ensures ParseInquiry(JObject(fields[key := v]), isEmail) == ParseInquiry(JObject(fields), isEmail)
  {
    var g := fields[key := v];
    assert forall k :: k in SchemaKeys ==> Lookup(g, k) == Lookup(fields, k);
    assert StringField(g, "name") == StringField(fields, "name");
    assert EmailField(g, isEmail) == EmailField(fields, isEmail);
    assert PhoneField(g) == PhoneField(fields);
    assert StringField(g, "country") == StringField(fields, "country");
    assert StringField(g, "programInterest") == StringField(fields, "programInterest");
    assert StringField(g, "educationLevel") == StringField(fields, "educationLevel");
    assert MessageOf(g) == MessageOf(fields);
  }

  /** Only email and phone have content rules: empty strings elsewhere are accepted. */
  lemma EmptyTextAccepted(email: string, phone: string, isEmail: string -> bool)
    requires isEmail(email) && |phone| >= MinPhoneLength
    ensures ParseInquiry(JObject(map["name" := JString(""), "email" := JString(email), "phone" := JString(phone),
                                     "country" := JString(""), "programInterest" := JString(""),
                                     "educationLevel" := JString("")]), isEmail)
            == Success(InsertInquiry("", email, phone, "", "", "", Absent))
  {
  }
}
