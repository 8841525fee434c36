/**
 * The seven API endpoints registered by `registerRoutes`: what each answers
 * (status and JSON body) for each way its store call or validation can end.
 *
 * Each handler body is a `try` block whose `catch` picks the error answer.
 * The decision is modelled as a pure function from the outcome of the `try`
 * block (a value, or the thing it threw) to the response; the handlers
 * themselves are methods over a `MemStorage` that call the store and then
 * that function. The in-memory store never throws, so the 500 answers are
 * reachable only through the pure functions.
 */
module Routes {
  import opened Wrappers
  import opened Json
  import opened Schema
  import opened OrderedMaps
  import opened Storage

  /** What a `try` block can throw: a Zod validation error (an `Error` whose message
      renders its issues), any other `Error`, or a thrown value that is not an `Error`. */
  datatype Thrown = ZodError(issues: seq<Issue>) | OtherError(message: string) | NonError

  datatype Outcome<T> = Returned(value: T) | Threw(thrown: Thrown)

  /** The `error` of a 400 answer: a `ZodError`'s issues, or another error's message. */
  datatype ErrorDetail = IssueList(issues: seq<Issue>) | Message(text: string)

  /** The JSON bodies the endpoints send. */
  datatype Body =
    | UniversityList(universities: seq<University>)
    | UniversityRecord(university: University)
    | ProgramList(programs: seq<Program>)
    | ProgramRecord(program: Program)
    | TestimonialList(testimonials: seq<Testimonial>)
    | InquiryList(inquiries: seq<Inquiry>)
      /** `{ error }` */
    | ErrorBody(error: string)
      /** `{ success, message, inquiry: { id, createdAt } }` */
    | Submitted(success: bool, message: string, inquiryId: string, inquiryCreatedAt: string)
      /** `{ success, error }` */
    | Rejected(success: bool, detail: ErrorDetail)

  datatype Response = Response(status: int, body: Body)

  const UniversityNotFound := "University not found"
  const ProgramNotFound := "Program not found"
  const SubmittedMessage := "Your inquiry has been submitted successfully! We'll contact you within 24 hours."
  const SubmitFailure := "Failed to submit inquiry. Please try again or contact us via WhatsApp."

  // ------------------------------------------------------ decision functions

  /** `GET /api/universities`: the store's list as it is, or 500. */
  function UniversitiesResponse(o: Outcome<seq<University>>): (r: Response)
    ensures r.status == 200 <==> o.Returned?
    ensures o.Returned? ==> r.body == UniversityList(o.value)
    ensures o.Threw? ==> r == Response(500, ErrorBody("Failed to fetch universities"))
  {
    match o
    case Returned(us) => Response(200, UniversityList(us))
    case Threw(_) => Response(500, ErrorBody("Failed to fetch universities"))
  }

  /** `GET /api/universities/:id`: 404 exactly when the store has no such id. */
  function UniversityResponse(o: Outcome<Option<University>>): (r: Response)
    ensures r.status == 404 <==> o == Returned(None)
    ensures r.status == 404 ==> r.body == ErrorBody(UniversityNotFound)
    ensures r.status == 200 <==> o.Returned? && o.value.Some?
    ensures r.status == 200 ==> r.body == UniversityRecord(o.value.value)
    ensures r.status == 500 <==> o.Threw?
    ensures r.status == 500 ==> r.body == ErrorBody("Failed to fetch university")
  {
    match o
    case Returned(None) => Response(404, ErrorBody(UniversityNotFound))
    case Returned(Some(u)) => Response(200, UniversityRecord(u))
    case Threw(_) => Response(500, ErrorBody("Failed to fetch university"))
  }

  /** `GET /api/programs`. */
  function ProgramsResponse(o: Outcome<seq<Program>>): (r: Response)
    ensures r.status == 200 <==> o.Returned?
    ensures o.Returned? ==> r.body == ProgramList(o.value)
    ensures o.Threw? ==> r == Response(500, ErrorBody("Failed to fetch programs"))
  {
    match o
    case Returned(ps) => Response(200, ProgramList(ps))
    case Threw(_) => Response(500, ErrorBody("Failed to fetch programs"))
  }

  /** `GET /api/programs/:id`: 404 exactly when the store has no such id. */
  function ProgramResponse(o: Outcome<Option<Program>>): (r: Response)
    ensures r.status == 404 <==> o == Returned(None)
    ensures r.status == 404 ==> r.body == ErrorBody(ProgramNotFound)
    ensures r.status == 200 <==> o.Returned? && o.value.Some?
    ensures r.status == 200 ==> r.body == ProgramRecord(o.value.value)
    ensures r.status == 500 <==> o.Threw?
    ensures r.status == 500 ==> r.body == ErrorBody("Failed to fetch program")
  {
    match o
    case Returned(None) => Response(404, ErrorBody(ProgramNotFound))
    case Returned(Some(p)) => Response(200, ProgramRecord(p))
    case Threw(_) => Response(500, ErrorBody("Failed to fetch program"))
  }

  /** `GET /api/testimonials`. */
  function TestimonialsResponse(o: Outcome<seq<Testimonial>>): (r: Response)
    ensures r.status == 200 <==> o.Returned?
    ensures o.Returned? ==> r.body == TestimonialList(o.value)
    ensures o.Threw? ==> r == Response(500, ErrorBody("Failed to fetch testimonials"))
  {
    match o
    case Returned(ts) => Response(200, TestimonialList(ts))
    case Threw(_) => Response(500, ErrorBody("Failed to fetch testimonials"))
  }

  /** `GET /api/inquiries`. */
  function InquiriesResponse(o: Outcome<seq<Inquiry>>): (r: Response)
    ensures r.status == 200 <==> o.Returned?
    ensures o.Returned? ==> r.body == InquiryList(o.value)
    ensures o.Threw? ==> r == Response(500, ErrorBody("Failed to fetch inquiries"))
  {
    match o
    case Returned(qs) => Response(200, InquiryList(qs))
    case Threw(_) => Response(500, ErrorBody("Failed to fetch inquiries"))
  }

  /** The `catch` of `POST /api/inquiries`: every `Error`, from validation or not,
      is a 400 carrying its message; only a non-`Error` is a 500. */
  function SubmitFailureResponse(t: Thrown): (r: Response)
    ensures r.status == 400 <==> !t.NonError?
    ensures r.status == 500 <==> t.NonError?
    ensures r.body.Rejected? && !r.body.success
    ensures t.ZodError? ==> r.body.detail == IssueList(t.issues)
    ensures t.OtherError? ==> r.body.detail == Message(t.message)
    ensures t.NonError? ==> r.body.detail == Message(SubmitFailure)
  {
    match t
    case ZodError(issues) => Response(400, Rejected(false, IssueList(issues)))
    case OtherError(m) => Response(400, Rejected(false, Message(m)))
    case NonError => Response(500, Rejected(false, Message(SubmitFailure)))
  }

  /** `POST /api/inquiries`, given how its `try` block ended. A stored inquiry is
      answered with 201 and only its id and timestamp, never its other fields. */
  function SubmitResponse(o: Outcome<Inquiry>): (r: Response)
    ensures r.status == 201 <==> o.Returned?
    ensures o.Returned? ==>
      r.body == Submitted(true, SubmittedMessage, o.value.id, o.value.createdAt)
    ensures o.Threw? ==> r == SubmitFailureResponse(o.thrown)
  {
    match o
    case Returned(q) => Response(201, Submitted(true, SubmittedMessage, q.id, q.createdAt))
    case Threw(t) => SubmitFailureResponse(t)
  }

  /** The `try` block of `POST /api/inquiries` on the in-memory store: parsing throws
      the `ZodError` before the store is reached; otherwise the inquiry is stamped. */
  function SubmitOutcome(body: Json, isEmail: string -> bool, id: string, createdAt: string): (o: Outcome<Inquiry>)
    ensures o.Threw? <==> ParseInquiry(body, isEmail).Failure?
    ensures o.Threw? ==> o.thrown == ZodError(ParseInquiry(body, isEmail).error)
    ensures o.Returned? ==>
      o.value.id == id && o.value.createdAt == createdAt
      && InquiryInsert(o.value) == ParseInquiry(body, isEmail).value
  {
    match ParseInquiry(body, isEmail)
    case Failure(issues) => Threw(ZodError(issues))
    case Success(ins) => Returned(InquiryWithStamp(ins, id, createdAt))
  }

  // -------------------------------------------------------- the handlers

  method GetUniversitiesRoute(store: MemStorage) returns (r: Response)
    requires store.Valid()
    ensures r == Response(200, UniversityList(store.universities.Values()))
  {
    var us := store.GetUniversities();
    r := UniversitiesResponse(Returned(us));
  }

  method GetUniversityRoute(store: MemStorage, id: string) returns (r: Response)
    requires store.Valid()
    ensures r.status == 404 <==> !store.universities.Has(id)
    ensures r.status == 404 ==> r.body == ErrorBody(UniversityNotFound)
    ensures r.status == 200 <==> store.universities.Has(id)
    ensures r.status == 200 ==> r.body == UniversityRecord(store.universities.entries[id])
    ensures r.status == 200 ==> r.body.university.id == id
  {
    var u := store.GetUniversity(id);
    r := UniversityResponse(Returned(u));
  }

  method GetProgramsRoute(store: MemStorage) returns (r: Response)
    requires store.Valid()
    ensures r == Response(200, ProgramList(store.programs.Values()))
  {
    var ps := store.GetPrograms();
    r := ProgramsResponse(Returned(ps));
  }

  method GetProgramRoute(store: MemStorage, id: string) returns (r: Response)
    requires store.Valid()
    ensures r.status == 404 <==> !store.programs.Has(id)
    ensures r.status == 404 ==> r.body == ErrorBody(ProgramNotFound)
    ensures r.status == 200 <==> store.programs.Has(id)
    ensures r.status == 200 ==> r.body == ProgramRecord(store.programs.entries[id])
    ensures r.status == 200 ==> r.body.program.id == id
  {
    var p := store.GetProgram(id);
    r := ProgramResponse(Returned(p));
  }

  method GetTestimonialsRoute(store: MemStorage) returns (r: Response)
    requires store.Valid()
    ensures r == Response(200, TestimonialList(store.testimonials.Values()))
  {
    var ts := store.GetTestimonials();
    r := TestimonialsResponse(Returned(ts));
  }

  method GetInquiriesRoute(store: MemStorage) returns (r: Response)
    requires store.Valid()
    ensures r == Response(200, InquiryList(store.inquiries.Values()))
  {
    var qs := store.GetInquiries();
    r := InquiriesResponse(Returned(qs));
  }

  /** `POST /api/inquiries`: validate, then store, then answer. A body that fails
      validation never reaches the store; on the in-memory store the answer is
      201 or 400, never 500. */
  method PostInquiryRoute(store: MemStorage, body: Json, isEmail: string -> bool, id: string, createdAt: string)
    returns (r: Response)
    requires store.Valid()
    modifies store
    ensures store.Valid()
    ensures r == SubmitResponse(SubmitOutcome(body, isEmail, id, createdAt))
    ensures r.status == 400 <==> ParseInquiry(body, isEmail).Failure?
    ensures r.status == 201 <==> ParseInquiry(body, isEmail).Success?
    ensures ParseInquiry(body, isEmail).Failure? ==> store.inquiries == old(store.inquiries)
    ensures ParseInquiry(body, isEmail).Success? ==>
      store.inquiries == old(store.inquiries).Set(id, InquiryWithStamp(ParseInquiry(body, isEmail).value, id, createdAt))
    ensures store.universities == old(store.universities)
    ensures store.programs == old(store.programs)
    ensures store.testimonials == old(store.testimonials)
  {
    var parsed := ParseInquiry(body, isEmail);
    match parsed {
      case Failure(issues) =>
        r := SubmitResponse(Threw(ZodError(issues)));
      case Success(ins) =>
        var q := store.CreateInquiry(ins, id, createdAt);
        r := SubmitResponse(Returned(q));
    }
  }

  // ------------------------------------------------------------ properties

  /** A caller's own `id` or `createdAt` in the body changes nothing: the answer
      carries the store's id and timestamp. */
  lemma CallerStampIgnored(fields: map<string, Json>, key: string, v: Json, isEmail: string -> bool,
                           id: string, createdAt: string)
    requires key == "id" || key == "createdAt"
    ensures SubmitResponse(SubmitOutcome(JObject(fields[key := v]), isEmail, id, createdAt))
            == SubmitResponse(SubmitOutcome(JObject(fields), isEmail, id, createdAt))
    ensures SubmitResponse(SubmitOutcome(JObject(fields), isEmail, id, createdAt)).status == 201 ==>
            SubmitResponse(SubmitOutcome(JObject(fields), isEmail, id, createdAt)).body
              == Submitted(true, SubmittedMessage, id, createdAt)
  {
    ExtraKeysStripped(fields, key, v, isEmail);
  }

  /** A body missing a required key is answered 400 with a `Required` issue at that key. */
  lemma MissingKeyAnswered400(fields: map<string, Json>, key: string, isEmail: string -> bool,
                              id: string, createdAt: string)
    requires key in RequiredKeys && key !in fields
    ensures SubmitResponse(SubmitOutcome(JObject(fields), isEmail, id, createdAt)).status == 400
    ensures Issue([key], InvalidType, "Required")
            in SubmitResponse(SubmitOutcome(JObject(fields), isEmail, id, createdAt)).body.detail.issues
  {
    MissingKeyIsRequired(fields, key, isEmail);
  }

  /** The body `{name: "Rahul", email: "not-an-email", phone: "9999999999", country: "India",
      programInterest: "MBBS", educationLevel: "Bachelor's"}` is answered 400 with the
      email message, whatever else the email check says, as long as it refuses "not-an-email". */
  lemma NotAnEmailAnswered400(isEmail: string -> bool, id: string, createdAt: string)
    requires !isEmail("not-an-email")
    ensures
      var body := JObject(map["name" := JString("Rahul"), "email" := JString("not-an-email"),
                              "phone" := JString("9999999999"), "country" := JString("India"),
                              "programInterest" := JString("MBBS"),
                              "educationLevel" := JString("Bachelor's")]);
      var r := SubmitResponse(SubmitOutcome(body, isEmail, id, createdAt));
      r.status == 400 && r.body == Rejected(false, IssueList([Issue(["email"], InvalidString, EmailMessage)]))
  {
  }

  /** A new store answers the university list with its 6 seeded rows, and the first
      seeded id with the first seeded university. */
  lemma SeededUniversityAnswers(uIds: seq<string>)
    requires |uIds| == 6 && Distinct(uIds)
    ensures |UniversitiesResponse(Returned(SeededUniversities(uIds).Values())).body.universities| == 6
    ensures UniversityResponse(Returned(SeededUniversities(uIds).Get(uIds[0])))
            == Response(200, UniversityRecord(UniversityWithId(SeedUniversities()[0], uIds[0])))
  {
    var rows := UniversityRows(SeedUniversities(), uIds);
    FromDistinctEntries(uIds, rows);
    FromDistinctEntriesGet(uIds, rows, 0);
  }
}
