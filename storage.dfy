/**
 * `MemStorage`: the in-memory catalog and lead store. Four id-keyed tables
 * (JavaScript `Map`s), seeded at construction with fixed universities,
 * programs and testimonials, with list, get-by-id and create operations.
 *
 * The store's id generator (`randomUUID`) and clock (`new Date().toISOString()`)
 * are foreign calls; their results are passed in as parameters.
 */
module Storage {
  import opened Wrappers
  import opened Schema
  import opened OrderedMaps

  // --------------------------------------------------------------- seed rows

  /** The sample universities, in the order they are inserted. */
  function SeedUniversity(i: nat): InsertUniversity
    requires i < 6
  {
    match i
    case 0 =>
      InsertUniversity(
        "I.M. Sechenov First Moscow State Medical University",
        "Moscow, Russia",
        "Russia's oldest and most prestigious medical university, founded in 1758. Known for excellence in medical education and research with state-of-the-art facilities.",
        ["MBBS", "Dentistry", "Pharmacy", "Nursing"],
        "English/Russian",
        Some("1758"),
        Some("#1 Medical University in Russia"),
        Some(""),
        Some("#"))
    case 1 =>
      InsertUniversity(
        "Kazan Federal University",
        "Kazan, Russia",
        "One of Russia's oldest universities, established in 1804. A multidisciplinary institution offering programs in medicine, engineering, IT, and business.",
        ["MBBS", "Engineering", "Computer Science", "Business Management"],
        "English/Russian",
        Some("1804"),
        Some("Top 10 in Russia"),
        Some(""),
        Some("#"))
    case 2 =>
      InsertUniversity(
        "Peoples' Friendship University of Russia (RUDN)",
        "Moscow, Russia",
        "Globally diverse university with students from 150+ countries. Known for international programs and multicultural environment.",
        ["MBBS", "Engineering", "Management", "Law", "Economics"],
        "English/Russian",
        Some("1960"),
        Some("Top 15 in Russia"),
        Some(""),
        Some("#"))
    case 3 =>
      InsertUniversity(
        "Moscow State University (MSU)",
        "Moscow, Russia",
        "Russia's most prestigious university, consistently ranked among the top universities worldwide. Offers comprehensive programs across all fields.",
        ["Engineering", "Physics", "Mathematics", "Computer Science", "Business"],
        "English/Russian",
        Some("1755"),
        Some("#1 University in Russia"),
        Some(""),
        Some("#"))
    case 4 =>
      InsertUniversity(
        "Saint Petersburg State University",
        "Saint Petersburg, Russia",
        "One of the oldest universities in Russia with a rich history. Offers high-quality education in humanities, sciences, and professional programs.",
        ["MBBS", "Engineering", "Computer Science", "Economics", "International Relations"],
        "English/Russian",
        Some("1724"),
        Some("#2 University in Russia"),
        Some(""),
        Some("#"))
    case _ =>
      InsertUniversity(
        "Siberian Federal University",
        "Krasnoyarsk, Russia",
        "Leading university in Siberia offering diverse programs in engineering, natural sciences, and medicine with modern infrastructure.",
        ["Engineering", "Mining", "Computer Science", "Medicine"],
        "English/Russian",
        Some("2006"),
        Some("Top 20 in Russia"),
        Some(""),
        Some("#"))
  }

  function SeedUniversities(): (rows: seq<InsertUniversity>)
    ensures |rows| == 6
  {
    seq(6, i requires 0 <= i < 6 => SeedUniversity(i))
  }

  /** The sample programs, in the order they are inserted. */
  function SeedProgram(i: nat): InsertProgram
    requires i < 12
  {
    match i
    case 0 =>
      InsertProgram(
        "Medicine",
        "MBBS (Bachelor of Medicine, Bachelor of Surgery)",
        "6 years",
        "English/Russian",
        "12th grade with Physics, Chemistry, Biology (minimum 50%)",
        "$4,000 - $7,000 per year",
        "September, February",
        Some("Comprehensive medical degree program recognized by WHO, MCI, and other international medical councils."))
    case 1 =>
      InsertProgram(
        "Medicine",
        "Doctor of Medicine (MD)",
        "3 years (after MBBS)",
        "English/Russian",
        "MBBS degree from recognized university",
        "$5,000 - $8,000 per year",
        "September",
        Some("Postgraduate medical specialization program in various fields including surgery, pediatrics, cardiology, and more."))
    case 2 =>
      InsertProgram(
        "Medicine",
        "Bachelor of Dental Surgery (BDS)",
        "5 years",
        "English/Russian",
        "12th grade with Physics, Chemistry, Biology (minimum 50%)",
        "$4,500 - $6,500 per year",
        "September",
        Some("Professional dentistry program covering oral health, dental surgery, and clinical practice."))
    case 3 =>
      InsertProgram(
        "Medicine",
        "Bachelor of Pharmacy",
        "4 years",
        "English/Russian",
        "12th grade with Physics, Chemistry, Biology",
        "$3,500 - $5,500 per year",
        "September, February",
        Some("Pharmaceutical sciences program covering drug development, pharmacology, and clinical pharmacy."))
    case 4 =>
      InsertProgram(
        "Engineering",
        "Bachelor of Engineering (B.Tech) - Computer Science",
        "4 years",
        "English/Russian",
        "12th grade with Physics, Chemistry, Mathematics (minimum 50%)",
        "$3,000 - $5,000 per year",
        "September",
        Some("Comprehensive computer science program covering programming, algorithms, AI, and software engineering."))
    case 5 =>
      InsertProgram(
        "Engineering",
        "Bachelor of Engineering - Mechanical",
        "4 years",
        "English/Russian",
        "12th grade with Physics, Chemistry, Mathematics (minimum 50%)",
        "$3,000 - $5,000 per year",
        "September",
        Some("Mechanical engineering program focusing on design, manufacturing, and automotive systems."))
    case 6 =>
      InsertProgram(
        "Engineering",
        "Bachelor of Engineering - Civil",
        "4 years",
        "English/Russian",
        "12th grade with Physics, Chemistry, Mathematics (minimum 50%)",
        "$3,000 - $5,000 per year",
        "September",
        Some("Civil engineering program covering construction, structural design, and infrastructure development."))
    case 7 =>
      InsertProgram(
        "Business & Management",
        "Bachelor of Business Administration (BBA)",
        "4 years",
        "English/Russian",
        "12th grade in any stream (minimum 50%)",
        "$2,500 - $4,500 per year",
        "September, February",
        Some("Comprehensive business program covering management, marketing, finance, and entrepreneurship."))
    case 8 =>
      InsertProgram(
        "Business & Management",
        "Master of Business Administration (MBA)",
        "2 years",
        "English/Russian",
        "Bachelor's degree in any field",
        "$4,000 - $7,000 per year",
        "September",
        Some("Advanced business management program with specializations in finance, marketing, and operations."))
    case 9 =>
      InsertProgram(
        "Computer Science",
        "Bachelor of Computer Applications (BCA)",
        "3 years",
        "English/Russian",
        "12th grade with Mathematics",
        "$2,500 - $4,000 per year",
        "September",
        Some("IT and computer applications program covering programming, databases, and web development."))
    case 10 =>
      InsertProgram(
        "Computer Science",
        "Master of Computer Science (MCS)",
        "2 years",
        "English/Russian",
        "Bachelor's degree in Computer Science or related field",
        "$3,500 - $5,500 per year",
        "September",
        Some("Advanced computer science program focusing on AI, machine learning, and advanced algorithms."))
    case _ =>
      InsertProgram(
        "Nursing",
        "Bachelor of Science in Nursing (BSN)",
        "4 years",
        "English/Russian",
        "12th grade with Physics, Chemistry, Biology",
        "$2,500 - $4,000 per year",
        "September",
        Some("Professional nursing program with clinical training and patient care expertise."))
  }

  function SeedPrograms(): (rows: seq<InsertProgram>)
    ensures |rows| == 12
  {
    seq(12, i requires 0 <= i < 12 => SeedProgram(i))
  }

  /** The sample testimonials, in the order they are inserted. */
  function SeedTestimonial(i: nat): InsertTestimonial
    requires i < 6
  {
    match i
    case 0 =>
      InsertTestimonial(
        "Rahul Sharma",
        "India",
        "I.M. Sechenov University",
        "MBBS",
        "NextStopRussia made my dream of studying medicine in Russia a reality. The entire process was transparent and smooth. I'm now in my 3rd year at Sechenov and couldn't be happier!",
        2022,
        Some(""))
    case 1 =>
      InsertTestimonial(
        "Fatima Khan",
        "Pakistan",
        "Kazan Federal University",
        "Computer Science",
        "The support from NextStopRussia was exceptional. They guided me through every step, from application to visa to arrival. Highly recommend their services!",
        2023,
        Some(""))
    case 2 =>
      InsertTestimonial(
        "Ahmed Al-Rashid",
        "Saudi Arabia",
        "RUDN University",
        "Engineering",
        "I was skeptical at first, but after verifying their official partnership letters, I felt confident. The team is professional and genuinely cares about students.",
        2023,
        Some(""))
    case 3 =>
      InsertTestimonial(
        "Priya Patel",
        "India",
        "Moscow State University",
        "MBA",
        "Studying at MSU has been an incredible experience. NextStopRussia's assistance with documentation and visa was invaluable. Thank you for making this possible!",
        2021,
        Some(""))
    case 4 =>
      InsertTestimonial(
        "Ali Reza",
        "Iran",
        "Saint Petersburg State University",
        "Economics",
        "The admission process was so much easier with NextStopRussia's help. They answered all my questions and provided excellent guidance throughout.",
        2022,
        Some(""))
    case _ =>
      InsertTestimonial(
        "Ayesha Malik",
        "Pakistan",
        "I.M. Sechenov University",
        "Dentistry",
        "From application to arrival, everything was handled professionally. I'm grateful to NextStopRussia for helping me get into one of the best dental programs.",
        2023,
        Some(""))
  }

  function SeedTestimonials(): (rows: seq<InsertTestimonial>)
    ensures |rows| == 6
  {
    seq(6, i requires 0 <= i < 6 => SeedTestimonial(i))
  }

  /** The seed rows with the ids drawn for them attached, in seed order. */
  function UniversityRows(ins: seq<InsertUniversity>, ids: seq<string>): (us: seq<University>)
    requires |ins| == |ids|
    ensures |us| == |ids| && forall i :: 0 <= i < |us| ==> us[i].id == ids[i]
    ensures forall i :: 0 <= i < |us| ==> UniversityInsert(us[i]) == ins[i]
  {
    seq(|ins|, i requires 0 <= i < |ins| => UniversityWithId(ins[i], ids[i]))
  }

  function ProgramRows(ins: seq<InsertProgram>, ids: seq<string>): (ps: seq<Program>)
    requires |ins| == |ids|
    ensures |ps| == |ids| && forall i :: 0 <= i < |ps| ==> ps[i].id == ids[i]
    ensures forall i :: 0 <= i < |ps| ==> ProgramInsert(ps[i]) == ins[i]
  {
    seq(|ins|, i requires 0 <= i < |ins| => ProgramWithId(ins[i], ids[i]))
  }

  function TestimonialRows(ins: seq<InsertTestimonial>, ids: seq<string>): (ts: seq<Testimonial>)
    requires |ins| == |ids|
    ensures |ts| == |ids| && forall i :: 0 <= i < |ts| ==> ts[i].id == ids[i]
    ensures forall i :: 0 <= i < |ts| ==> TestimonialInsert(ts[i]) == ins[i]
  {
    seq(|ins|, i requires 0 <= i < |ins| => TestimonialWithId(ins[i], ids[i]))
  }

  /** The seeded tables, given the ids the generator produced for them. */
  function SeededUniversities(ids: seq<string>): OrderedMap<University>
    requires |ids| == |SeedUniversities()|
  {
    FromEntries(ids, UniversityRows(SeedUniversities(), ids))
  }

  function SeededPrograms(ids: seq<string>): OrderedMap<Program>
    requires |ids| == |SeedPrograms()|
  {
    FromEntries(ids, ProgramRows(SeedPrograms(), ids))
  }

  function SeededTestimonials(ids: seq<string>): OrderedMap<Testimonial>
    requires |ids| == |SeedTestimonials()|
  {
    FromEntries(ids, TestimonialRows(SeedTestimonials(), ids))
  }

  /** With distinct generated ids, a new store lists exactly 6 universities, 12 programs
      and 6 testimonials, each seed row once, in seed order, carrying the id drawn for it. */
  lemma SeededContents(uIds: seq<string>, pIds: seq<string>, tIds: seq<string>)
    requires |uIds| == 6 && |pIds| == 12 && |tIds| == 6
    requires Distinct(uIds) && Distinct(pIds) && Distinct(tIds)
    ensures SeededUniversities(uIds).Size() == 6
    ensures SeededPrograms(pIds).Size() == 12
    ensures SeededTestimonials(tIds).Size() == 6
    ensures SeededUniversities(uIds).Values() == UniversityRows(SeedUniversities(), uIds)
    ensures SeededPrograms(pIds).Values() == ProgramRows(SeedPrograms(), pIds)
    ensures SeededTestimonials(tIds).Values() == TestimonialRows(SeedTestimonials(), tIds)
  {
    FromDistinctEntries(uIds, UniversityRows(SeedUniversities(), uIds));
    FromDistinctEntries(pIds, ProgramRows(SeedPrograms(), pIds));
    FromDistinctEntries(tIds, TestimonialRows(SeedTestimonials(), tIds));
  }

  // ------------------------------------------------------------------ tables

  /** A well-formed table in which every university is stored under its own id. */
  ghost predicate UniversityTable(m: OrderedMap<University>)
  {
    m.Valid() && forall k :: k in m.entries ==> m.entries[k].id == k
  }

  ghost predicate ProgramTable(m: OrderedMap<Program>)
  {
    m.Valid() && forall k :: k in m.entries ==> m.entries[k].id == k
  }

  ghost predicate TestimonialTable(m: OrderedMap<Testimonial>)
  {
    m.Valid() && forall k :: k in m.entries ==> m.entries[k].id == k
  }

  ghost predicate InquiryTable(m: OrderedMap<Inquiry>)
  {
    m.Valid() && forall k :: k in m.entries ==> m.entries[k].id == k
  }

  lemma UniversityTableSet(m: OrderedMap<University>, u: University)
    requires UniversityTable(m)
    ensures UniversityTable(m.Set(u.id, u))
  {
  }

  lemma ProgramTableSet(m: OrderedMap<Program>, p: Program)
    requires ProgramTable(m)
    ensures ProgramTable(m.Set(p.id, p))
  {
  }

  lemma TestimonialTableSet(m: OrderedMap<Testimonial>, t: Testimonial)
    requires TestimonialTable(m)
    ensures TestimonialTable(m.Set(t.id, t))
  {
  }

  // ------------------------------------------------------------------- store

  class MemStorage {
    var universities: OrderedMap<University>
    var programs: OrderedMap<Program>
    var testimonials: OrderedMap<Testimonial>
    var inquiries: OrderedMap<Inquiry>

    /** Every table is a well-formed map, and every record is stored under its own id. */
    ghost predicate Valid()
      reads this
    {
      UniversityTable(universities) && ProgramTable(programs) && TestimonialTable(testimonials) && InquiryTable(inquiries)
    }

    /** `new MemStorage()`: four empty maps, then `initializeSampleData()`. The three
        parameters are the ids `randomUUID` returns for the seed rows, in call order. */
    constructor (universityIds: seq<string>, programIds: seq<string>, testimonialIds: seq<string>)
      requires |universityIds| == |SeedUniversities()|
      requires |programIds| == |SeedPrograms()|
      requires |testimonialIds| == |SeedTestimonials()|
      ensures Valid()
      ensures universities == SeededUniversities(universityIds)
      ensures programs == SeededPrograms(programIds)
      ensures testimonials == SeededTestimonials(testimonialIds)
      ensures inquiries == Empty()
    {
      universities := Empty();
      programs := Empty();
      testimonials := Empty();
      inquiries := Empty();
      new;
      InitializeSampleData(universityIds, programIds, testimonialIds);
    }

    /** `initializeSampleData()`: three `forEach` loops that `set` each seed row under a fresh id. */
    method InitializeSampleData(universityIds: seq<string>, programIds: seq<string>, testimonialIds: seq<string>)
      requires |universityIds| == |SeedUniversities()|
      requires |programIds| == |SeedPrograms()|
      requires |testimonialIds| == |SeedTestimonials()|
      requires Valid()
      requires universities == Empty() && programs == Empty() && testimonials == Empty()
      modifies this
      ensures Valid()
      ensures universities == SeededUniversities(universityIds)
      ensures programs == SeededPrograms(programIds)
      ensures testimonials == SeededTestimonials(testimonialIds)
      ensures inquiries == old(inquiries)
    {
      SeedUniversityTable(SeedUniversities(), universityIds);
      SeedProgramTable(SeedPrograms(), programIds);
      SeedTestimonialTable(SeedTestimonials(), testimonialIds);
    }

    /** One seeding loop: `seed.forEach(row => universities.set(id, { ...row, id }))`. */
    method SeedUniversityTable(seed: seq<InsertUniversity>, ids: seq<string>)
      requires |ids| == |seed|
      requires Valid() && universities == Empty()
      modifies this`universities
      ensures Valid() && universities == FromEntries(ids, UniversityRows(seed, ids))
    {
      var rows := UniversityRows(seed, ids);
      for i := 0 to |rows|
        invariant Valid()
        invariant universities == FromEntries(ids[..i], rows[..i])
      {
        FromEntriesSnoc(ids, rows, i);
        UniversityTableSet(universities, rows[i]);
        universities := universities.Set(ids[i], rows[i]);
      }
      assert ids[..|rows|] == ids && rows[..|rows|] == rows;
    }

    /** One seeding loop: `seed.forEach(row => programs.set(id, { ...row, id }))`. */
    method SeedProgramTable(seed: seq<InsertProgram>, ids: seq<string>)
      requires |ids| == |seed|
      requires Valid() && programs == Empty()
      modifies this`programs
      ensures Valid() && programs == FromEntries(ids, ProgramRows(seed, ids))
    {
      var rows := ProgramRows(seed, ids);
      for i := 0 to |rows|
        invariant Valid()
        invariant programs == FromEntries(ids[..i], rows[..i])
      {
        FromEntriesSnoc(ids, rows, i);
        ProgramTableSet(programs, rows[i]);
        programs := programs.Set(ids[i], rows[i]);
      }
      assert ids[..|rows|] == ids && rows[..|rows|] == rows;
    }

    /** One seeding loop: `seed.forEach(row => testimonials.set(id, { ...row, id }))`. */
    method SeedTestimonialTable(seed: seq<InsertTestimonial>, ids: seq<string>)
      requires |ids| == |seed|
      requires Valid() && testimonials == Empty()
      modifies this`testimonials
      ensures Valid() && testimonials == FromEntries(ids, TestimonialRows(seed, ids))
    {
      var rows := TestimonialRows(seed, ids);
      for i := 0 to |rows|
        invariant Valid()
        invariant testimonials == FromEntries(ids[..i], rows[..i])
      {
        FromEntriesSnoc(ids, rows, i);
        TestimonialTableSet(testimonials, rows[i]);
        testimonials := testimonials.Set(ids[i], rows[i]);
      }
      assert ids[..|rows|] == ids && rows[..|rows|] == rows;
    }

    // ---- universities

    /** `getUniversities()`: every stored university once, in insertion order. */
    method GetUniversities() returns (us: seq<University>)
      requires Valid()
      ensures us == universities.Values()
      ensures forall i :: 0 <= i < |us| ==> us[i].id == universities.keys[i]
    {
      us := universities.Values();
    }

    /** `getUniversity(id)`: `undefined` for an id never inserted, never a failure. */
    method GetUniversity(id: string) returns (u: Option<University>)
      requires Valid()
      ensures u == universities.Get(id)
      ensures u.None? <==> !universities.Has(id)
      ensures u.Some? ==> u.value.id == id
    {
      u := universities.Get(id);
    }

    /** `createUniversity(insert)`: the insert fields plus the new id, stored under that id. */
    method CreateUniversity(ins: InsertUniversity, id: string) returns (u: University)
      requires Valid()
      modifies this
      ensures Valid()
      ensures u == UniversityWithId(ins, id)
      ensures universities == old(universities).Set(id, u)
      ensures universities.Get(id) == Some(u)
      ensures !old(universities.Has(id)) ==>
                universities.Values() == old(universities.Values()) + [u] && Extends(old(universities), universities)
      ensures programs == old(programs) && testimonials == old(testimonials) && inquiries == old(inquiries)
    {
      u := UniversityWithId(ins, id);
      if !universities.Has(id) {
        SetFreshAppends(universities, id, u);
        SetFreshExtends(universities, id, u);
      }
      universities := universities.Set(id, u);
    }

    // ---- programs

    /** `getPrograms()`: every stored program once, in insertion order. */
    method GetPrograms() returns (ps: seq<Program>)
      requires Valid()
      ensures ps == programs.Values()
      ensures forall i :: 0 <= i < |ps| ==> ps[i].id == programs.keys[i]
    {
      ps := programs.Values();
    }

    /** `getProgram(id)`: `undefined` for an id never inserted, never a failure. */
    method GetProgram(id: string) returns (p: Option<Program>)
      requires Valid()
      ensures p == programs.Get(id)
      ensures p.None? <==> !programs.Has(id)
      ensures p.Some? ==> p.value.id == id
    {
      p := programs.Get(id);
    }

    /** `createProgram(insert)`: the insert fields plus the new id, stored under that id. */
    method CreateProgram(ins: InsertProgram, id: string) returns (p: Program)
      requires Valid()
      modifies this
      ensures Valid()
      ensures p == ProgramWithId(ins, id)
      ensures programs == old(programs).Set(id, p)
      ensures programs.Get(id) == Some(p)
      ensures !old(programs.Has(id)) ==>
                programs.Values() == old(programs.Values()) + [p] && Extends(old(programs), programs)
      ensures universities == old(universities) && testimonials == old(testimonials) && inquiries == old(inquiries)
    {
      p := ProgramWithId(ins, id);
      if !programs.Has(id) {
        SetFreshAppends(programs, id, p);
        SetFreshExtends(programs, id, p);
      }
      programs := programs.Set(id, p);
    }

    // ---- testimonials

    /** `getTestimonials()`: every stored testimonial once, in insertion order. */
    method GetTestimonials() returns (ts: seq<Testimonial>)
      requires Valid()
      ensures ts == testimonials.Values()
      ensures forall i :: 0 <= i < |ts| ==> ts[i].id == testimonials.keys[i]
    {
      ts := testimonials.Values();
    }

    /** `createTestimonial(insert)`: the insert fields plus the new id, stored under that id. */
    method CreateTestimonial(ins: InsertTestimonial, id: string) returns (t: Testimonial)
      requires Valid()
      modifies this
      ensures Valid()
      ensures t == TestimonialWithId(ins, id)
      ensures testimonials == old(testimonials).Set(id, t)
      ensures testimonials.Get(id) == Some(t)
      ensures !old(testimonials.Has(id)) ==>
                testimonials.Values() == old(testimonials.Values()) + [t] && Extends(old(testimonials), testimonials)
      ensures universities == old(universities) && programs == old(programs) && inquiries == old(inquiries)
    {
      t := TestimonialWithId(ins, id);
      if !testimonials.Has(id) {
        SetFreshAppends(testimonials, id, t);
        SetFreshExtends(testimonials, id, t);
      }
      testimonials := testimonials.Set(id, t);
    }

    // ---- inquiries

    /** `getInquiries()`: every stored inquiry once, in insertion order. */
    method GetInquiries() returns (qs: seq<Inquiry>)
      requires Valid()
      ensures qs == inquiries.Values()
      ensures forall i :: 0 <= i < |qs| ==> qs[i].id == inquiries.keys[i]
    {
      qs := inquiries.Values();
    }

    /** `createInquiry(insert)`: the insert fields with the store's id and timestamp,
        which override any same-named input, stored under that id. */
    method CreateInquiry(ins: InsertInquiry, id: string, createdAt: string) returns (q: Inquiry)
      requires Valid()
      modifies this
      ensures Valid()
      ensures q == InquiryWithStamp(ins, id, createdAt)
      ensures q.id == id && q.createdAt == createdAt
      ensures inquiries == old(inquiries).Set(id, q)
      ensures inquiries.Get(id) == Some(q)
      ensures !old(inquiries.Has(id)) ==>
                inquiries.Values() == old(inquiries.Values()) + [q] && Extends(old(inquiries), inquiries)
      ensures universities == old(universities) && programs == old(programs) && testimonials == old(testimonials)
    {
      q := InquiryWithStamp(ins, id, createdAt);
      if !inquiries.Has(id) {
        SetFreshAppends(inquiries, id, q);
        SetFreshExtends(inquiries, id, q);
      }
      inquiries := inquiries.Set(id, q);
    }
  }
}
