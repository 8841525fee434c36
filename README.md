# NextStopRussia / PodConnect in Dafny

This project models the logic core of the NextStopRussia student-recruitment site
(the PodConnect server and its client pages) and proves properties about that model.

- **`MemStorage`** is the server's in-memory catalog and lead store. It keeps four id-keyed
  JavaScript `Map`s: universities, programs, testimonials and inquiries. Construction seeds
  the first three with fixed rows. It has list, get-by-id and create operations.
  - `MemStorage` is a Dafny class (`storage.dfy`).
  - Each `Map` is an `OrderedMap` value (`ordered_maps.dfy`): a key sequence in insertion
    order plus a `map`. `Set` on a key that is already present replaces its value in place,
    as `Map.prototype.set` does.
- **`insertInquirySchema`** is the Zod validator for inquiry bodies (`schema.dfy`).
  - It takes an untyped JSON body and returns either the insert record or every issue Zod
    raises, in schema-key order.
  - The row and insert shapes of the four tables live in the same file.
- **The seven API endpoints** of `registerRoutes` (`routes.dfy`).
  - Pure functions map the outcome of each `try` block to the status code and JSON body.
  - Handler methods run the store call, then that mapping. `POST /api/inquiries`
    validates before anything is stored.
- **The client helpers:**
  - test-id slugs (`slugs.dfy`);
  - the Programs page category buttons and filter (`programs_page.dfy`);
  - the navigation bar's active-link rule and mobile menu (`navigation.dfy`);
  - the Contact page form state, required-field gate and toast texts (`contact_page.dfy`);
  - the Verify Authorization page letter filter, link predicate and QR value
    (`verify_authorization.dfy`);
  - the testimonial card's country-flag lookup (`testimonial_card.dfy`).

`randomUUID()` and `new Date().toISOString()` are foreign calls. Their results are
parameters of the methods that use them. Zod's e-mail syntax check is a parameter
`isEmail: string -> bool`, so every property holds for any e-mail rule.

## Model

| member | source | states |
|---|---|---|
| `OrderedMaps.OrderedMap.Set` | PodConnect/server/storage.ts:34-37 | `Map.set` keeps the map well formed, makes the key map to the new value, changes no other key, and grows the size by one exactly when the key was new |
| `OrderedMaps.OrderedMap.Get` | PodConnect/server/storage.ts:323-325 | `Map.get` is `undefined` exactly for a key never set, else the stored value |
| `OrderedMaps.OrderedMap.Values` | PodConnect/server/storage.ts:320 | `Array.from(map.values())` has one value per key, the i-th being the value stored under the i-th inserted key, and lists every stored value |
| `OrderedMaps.Empty` | PodConnect/server/storage.ts:40-43 | `new Map()` is well formed, has size 0 and holds no key |
| `OrderedMaps.ValuesListEachEntryOnce` | PodConnect/server/storage.ts:319-321 | `Array.from(map.values())` lists each stored value exactly once, at its key's position in insertion order |
| `OrderedMaps.SetFreshAppends` | PodConnect/server/storage.ts:327-332 | setting a new key appends its value to the iteration order and its key to the key order |
| `OrderedMaps.SetFreshExtends` | PodConnect/server/storage.ts:33-374 | setting a new key loses nothing: every earlier key keeps its place and its value |
| `OrderedMaps.SetPresentReplaces` | PodConnect/server/storage.ts:327-332 | setting a key already present keeps the key order and replaces the value where it stood |
| `OrderedMaps.FromEntries` | PodConnect/server/storage.ts:120-123 | the map built by a run of `set`s is well formed and holds exactly the keys given |
| `OrderedMaps.FromDistinctEntries` | PodConnect/server/storage.ts:120-123 | with distinct ids, a run of `set`s from an empty map lists exactly the given values, in the given order, under the given keys |
| `OrderedMaps.FromDistinctEntriesGet` | PodConnect/server/storage.ts:120-123 | with distinct ids, looking up the i-th id finds the i-th value |
| `Schema.UniversityWithId` | PodConnect/shared/schema.ts:20-22 | a university row is its insert record plus the id and nothing else |
| `Schema.ProgramWithId` | PodConnect/shared/schema.ts:40-42 | a program row is its insert record plus the id |
| `Schema.TestimonialWithId` | PodConnect/shared/schema.ts:59-61 | a testimonial row is its insert record plus the id |
| `Schema.InquiryWithStamp` | PodConnect/shared/schema.ts:79-82 | an inquiry row is its insert record plus the store's id and timestamp |
| `Schema.RowsAreInsertPlusId` | PodConnect/shared/schema.ts:6-88 | each row shape is exactly its insert shape plus `id` (and `createdAt` for inquiries): dropping them and adding them back gives the same row |
| `Schema.StringField` | PodConnect/shared/schema.ts:69-74 | a required text field passes exactly when the key holds a string, and otherwise raises one `invalid_type` issue at that key |
| `Schema.EmailField` | PodConnect/shared/schema.ts:83 | the e-mail field fails with exactly one issue, always at path `email` |
| `Schema.PhoneField` | PodConnect/shared/schema.ts:84 | the phone field fails with exactly one issue, always at path `phone` |
| `Schema.MessageOf` | PodConnect/shared/schema.ts:75 | the message fails with exactly one issue, at path `message` |
| `Schema.ParseInquiry` | PodConnect/shared/schema.ts:79-85 | a rejected body always carries at least one issue |
| `Schema.AcceptableIsAccepted` | PodConnect/shared/schema.ts:79-85 | every body meeting the declarative rule is accepted, yielding its own strings unchanged |
| `Schema.AcceptedIsAcceptable` | PodConnect/shared/schema.ts:79-85 | every accepted body meets the declarative rule: six string keys, a valid e-mail, a phone of at least 10 characters, and a message that is missing, null or a string |
| `Schema.ParseInquiryAcceptsExactly` | PodConnect/shared/schema.ts:79-85 | the validator accepts exactly the acceptable bodies, and returns the record they spell out |
| `Schema.MissingKeyIsRequired` | PodConnect/shared/schema.ts:69-74 | a body missing any of the six required keys is rejected with a `Required` issue at that key |
| `Schema.InvalidEmailRejected` | PodConnect/shared/schema.ts:83 | a string e-mail that fails the syntax check is rejected with "Please enter a valid email address" |
| `Schema.ShortPhoneRejected` | PodConnect/shared/schema.ts:84 | a string phone shorter than 10 characters is rejected with "Please enter a valid phone number" |
| `Schema.LongPhoneNeverRejected` | PodConnect/shared/schema.ts:84 | a phone string of 10 or more characters raises no phone issue, whatever its content |
| `Schema.ExtraKeysStripped` | PodConnect/shared/schema.ts:79-82 | any key outside the schema, such as `id` or `createdAt`, does not change the result |
| `Schema.EmptyTextAccepted` | PodConnect/shared/schema.ts:69-74 | empty strings in the four unchecked text fields are accepted, and a missing message stays absent |
| `Storage.SeedUniversities` | PodConnect/server/storage.ts:51-118 | the university seed has 6 rows |
| `Storage.SeedPrograms` | PodConnect/server/storage.ts:126-247 | the program seed has 12 rows |
| `Storage.SeedTestimonials` | PodConnect/server/storage.ts:255-310 | the testimonial seed has 6 rows |
| `Storage.UniversityRows` | PodConnect/server/storage.ts:120-123 | the i-th seeded row carries the i-th generated id and is the i-th seed record otherwise |
| `Storage.ProgramRows` | PodConnect/server/storage.ts:249-252 | the i-th seeded program carries the i-th generated id and is the i-th seed program otherwise |
| `Storage.TestimonialRows` | PodConnect/server/storage.ts:312-315 | the i-th seeded testimonial carries the i-th generated id and is the i-th seed testimonial otherwise |
| `Storage.SeededContents` | PodConnect/server/storage.ts:39-47 | with distinct generated ids, a new store lists exactly 6 universities, 12 programs and 6 testimonials, each seed row once, in seed order, under its own id |
| `Storage.MemStorage.constructor` | PodConnect/server/storage.ts:39-47 | a new store is well formed, holds the three seeded tables built from the generated ids, and has no inquiries |
| `Storage.MemStorage.InitializeSampleData` | PodConnect/server/storage.ts:49-316 | the three seeding loops turn three empty tables into the seeded tables and leave the inquiries untouched |
| `Storage.MemStorage.SeedUniversityTable` | PodConnect/server/storage.ts:120-123 | the `forEach` loop leaves the table equal to the `set`s of every seed row under its id, in order |
| `Storage.MemStorage.SeedProgramTable` | PodConnect/server/storage.ts:249-252 | the same for the program loop |
| `Storage.MemStorage.SeedTestimonialTable` | PodConnect/server/storage.ts:312-315 | the same for the testimonial loop |
| `Storage.MemStorage.GetUniversities` | PodConnect/server/storage.ts:319-321 | returns the table's values in insertion order, the i-th under the i-th key, and changes nothing |
| `Storage.MemStorage.GetUniversity` | PodConnect/server/storage.ts:323-325 | returns `undefined` exactly for an id not stored, else the record with that id, and never fails |
| `Storage.MemStorage.CreateUniversity` | PodConnect/server/storage.ts:327-332 | returns the input plus the id, stores it under that id so that a later get finds it, appends it when the id is new without touching earlier entries, and leaves the other three tables unchanged |
| `Storage.MemStorage.GetPrograms` | PodConnect/server/storage.ts:335-337 | returns the program values in insertion order and changes nothing |
| `Storage.MemStorage.GetProgram` | PodConnect/server/storage.ts:339-341 | returns `undefined` exactly for an id not stored, else the program with that id |
| `Storage.MemStorage.CreateProgram` | PodConnect/server/storage.ts:343-348 | returns the input plus the id, stores it under that id, appends it when the id is new, and leaves the other tables unchanged |
| `Storage.MemStorage.GetTestimonials` | PodConnect/server/storage.ts:351-353 | returns the testimonial values in insertion order and changes nothing |
| `Storage.MemStorage.CreateTestimonial` | PodConnect/server/storage.ts:355-360 | returns the input plus the id, stores it under that id, appends it when the id is new, and leaves the other tables unchanged |
| `Storage.MemStorage.GetInquiries` | PodConnect/server/storage.ts:363-365 | returns the inquiry values in insertion order and changes nothing |
| `Storage.MemStorage.CreateInquiry` | PodConnect/server/storage.ts:367-372 | the stored inquiry always carries the store's id and timestamp, overriding any same-named input; it is stored under that id, appended when the id is new, and the other tables are unchanged |
| `Routes.UniversitiesResponse` | PodConnect/server/routes.ts:8-15 | 200 with the store's list unchanged exactly when the call returns, else 500 "Failed to fetch universities" |
| `Routes.UniversityResponse` | PodConnect/server/routes.ts:17-26 | 404 "University not found" exactly when the store has no record, 200 with the record exactly when it has one, 500 exactly when the call throws |
| `Routes.ProgramsResponse` | PodConnect/server/routes.ts:30-37 | 200 with the store's list unchanged exactly when the call returns, else 500 |
| `Routes.ProgramResponse` | PodConnect/server/routes.ts:39-48 | 404 "Program not found" exactly when the store has no record, 200 with it otherwise, 500 exactly when the call throws |
| `Routes.TestimonialsResponse` | PodConnect/server/routes.ts:52-59 | 200 with the store's list unchanged exactly when the call returns, else 500 |
| `Routes.InquiriesResponse` | PodConnect/server/routes.ts:117-124 | 200 with the store's list unchanged exactly when the call returns, else 500 |
| `Routes.SubmitFailureResponse` | PodConnect/server/routes.ts:101-113 | any thrown `Error`, a validation error included, is a 400 with `success: false` and that error's message; only a non-`Error` is a 500 with the fixed WhatsApp text |
| `Routes.SubmitResponse` | PodConnect/server/routes.ts:93-100 | 201 exactly when an inquiry was stored, with `success: true`, the fixed confirmation and only the stored id and timestamp |
| `Routes.SubmitOutcome` | PodConnect/server/routes.ts:64-65 | the `try` block throws exactly when validation fails, carrying the validator's issues, and otherwise yields the stamped record of the parsed body |
| `Routes.GetUniversitiesRoute` | PodConnect/server/routes.ts:8-15 | on the in-memory store the answer is always 200 with every stored university in insertion order |
| `Routes.GetUniversityRoute` | PodConnect/server/routes.ts:17-26 | 404 exactly when the store lacks the id, else 200 with the record stored under it |
| `Routes.GetProgramsRoute` | PodConnect/server/routes.ts:30-37 | always 200 with every stored program in insertion order |
| `Routes.GetProgramRoute` | PodConnect/server/routes.ts:39-48 | 404 exactly when the store lacks the id, else 200 with the program stored under it |
| `Routes.GetTestimonialsRoute` | PodConnect/server/routes.ts:52-59 | always 200 with every stored testimonial in insertion order |
| `Routes.GetInquiriesRoute` | PodConnect/server/routes.ts:117-124 | always 200 with every stored inquiry in insertion order |
| `Routes.PostInquiryRoute` | PodConnect/server/routes.ts:62-115 | validates before storing: a body that fails leaves the inquiries unchanged and is answered 400; a body that passes is stored under the new id and answered 201; the other tables never change |
| `Routes.CallerStampIgnored` | PodConnect/server/routes.ts:93-100 | a caller's own `id` or `createdAt` in the body changes neither the answer nor the stored stamp |
| `Routes.MissingKeyAnswered400` | PodConnect/server/routes.ts:101-107 | a body missing a required key is answered 400 with a `Required` issue at that key |
| `Routes.NotAnEmailAnswered400` | PodConnect/server/routes.ts:101-107 | a complete body whose e-mail is "not-an-email" is answered 400 with exactly the e-mail issue |
| `Routes.SeededUniversityAnswers` | PodConnect/server/routes.ts:17-26 | a new store lists 6 universities and answers the first generated id with 200 and the first seed row under that id |
| `Seqs.Filter` | src/pages/Programs.tsx:20 | `Array.filter` keeps only elements that satisfy the predicate, keeps every one that does, and is empty exactly when none does |
| `Seqs.FilterIsSubsequence` | src/pages/Programs.tsx:20 | filtering keeps the survivors in their original order |
| `Seqs.FilterCounts` | src/pages/VerifyAuthorization.tsx:14 | filtering keeps each satisfying element as often as it occurs, and no other |
| `Seqs.Unique` | src/pages/Programs.tsx:15 | `Array.from(new Set(xs))` holds each element of `xs` exactly once, and nothing else |
| `Seqs.UniqueFirstAppearanceOrder` | src/pages/Programs.tsx:15 | the distinct elements are listed in the order of their first appearance |
| `Slugs.IsSpace` | src/pages/Programs.tsx:39 | `\s` matches space, tab, line feed and carriage return, never a letter, digit or '-', and among ASCII exactly space and tab to carriage return |
| `Slugs.LowerChar` | src/pages/Programs.tsx:39 | `toLowerCase` maps each ASCII capital to its small letter, keeps every other character, and keeps whitespace whitespace |
| `Slugs.Lower` | src/pages/Programs.tsx:39 | `toLowerCase` keeps the length and lower-cases character by character |
| `Slugs.DashRuns` | src/pages/Programs.tsx:39 | `replace(/\s+/g, '-')` never lengthens the text and leaves no whitespace |
| `Slugs.Slug` | src/pages/Programs.tsx:39 | a slug is never longer than its label and contains no whitespace |
| `Slugs.DashRunsSpaceFree` | src/pages/Programs.tsx:39 | text without whitespace passes through the replacement unchanged |
| `Slugs.DashRunsKeepsPrefix` | src/pages/Programs.tsx:39 | a whitespace-free prefix passes through unchanged, whatever follows it |
| `Slugs.DashRunsReplacesRun` | src/pages/Programs.tsx:39 | a whole whitespace run becomes exactly one '-' |
| `Slugs.LowerDashRuns` | src/pages/Programs.tsx:39 | replacing whitespace in lower-cased text leaves it lower-cased |
| `Slugs.SlugIdempotent` | src/pages/Programs.tsx:39 | the slug of a slug is the slug itself |
| `Slugs.SlugOfWord` | src/components/Navigation.tsx:45 | a one-word label's slug is the label lower-cased |
| `Slugs.SlugOfTwoWords` | src/components/Navigation.tsx:45 | two words separated by one space are joined by one '-' after lower-casing |
| `ProgramsPage.CategoriesOf` | src/pages/Programs.tsx:15 | the category list has one entry per program, the i-th being that program's category |
| `ProgramsPage.Categories` | src/pages/Programs.tsx:15 | "All" comes first; the rest lists each program category once, and only program categories |
| `ProgramsPage.CategoriesInFirstAppearanceOrder` | src/pages/Programs.tsx:15 | the buttons after "All" follow the order in which the categories first appear among the programs |
| `ProgramsPage.AllIsNotDeduplicated` | src/pages/Programs.tsx:15 | a program whose category is itself "All" gives a second "All" button |
| `ProgramsPage.FilteredPrograms` | src/pages/Programs.tsx:17-20 | "All" gives the list unchanged; any other category gives only programs of exactly that category, and all of them; never a longer list |
| `ProgramsPage.FilterKeepsExactlyTheCategory` | src/pages/Programs.tsx:20 | another category keeps exactly its programs, each as often as it occurs, in original order |
| `ProgramsPage.View` | src/pages/Programs.tsx:50-61 | the no-programs message is shown exactly when the filtered list is empty, else the cards of the filtered list |
| `ProgramsPage.EveryCategoryButtonShowsPrograms` | src/pages/Programs.tsx:50-61 | every button other than "All" shows at least one program card |
| `ProgramsPage.UnknownCategoryShowsMessage` | src/pages/Programs.tsx:50-61 | a category no program has gives the empty list and the no-programs message |
| `ProgramsPage.CategoryTestId` | src/pages/Programs.tsx:39 | a button's test id starts with "button-category-", is at most the category's length longer, and contains no whitespace |
| `Navigation.IsActive` | src/components/Navigation.tsx:19-22 | an active href is always a prefix of the location; Home is active exactly at "/", and any other link whenever the location starts with its href |
| `Navigation.NavLinks` | src/components/Navigation.tsx:10-17 | there are six links |
| `Navigation.OwnPageIsActive` | src/components/Navigation.tsx:20-21 | a link whose href is the location is always active |
| `Navigation.NoSegmentBoundary` | src/components/Navigation.tsx:21 | "/programsX" and "/programs/some-id" both activate Programs |
| `Navigation.OnlyHomeAtRoot` | src/components/Navigation.tsx:10-21 | at "/" Home is the only active link of the six |
| `Navigation.AtMostOneActive` | src/components/Navigation.tsx:10-21 | at any location at most one of the six links is active |
| `Navigation.LinkTestId` | src/components/Navigation.tsx:45 | a link's test id starts with the bar's or the menu's prefix, and the rest has no whitespace and is no longer than the label |
| `Navigation.NavSlug` | src/components/Navigation.tsx:10-17 | the six labels slug to "home", "universities", "programs", "admission-process", "verify-authorization" and "contact" |
| `Navigation.NavTestIds` | src/components/Navigation.tsx:45 | the six test ids are the prefix followed by those six slugs, so the bar's Admission Process link is "link-nav-admission-process" |
| `Navigation.NavTestIdsDistinct` | src/components/Navigation.tsx:37-86 | within the bar, and within the mobile menu, no two of the six links share a test id |
| `Navigation.DesktopAndMobileIdsDiffer` | src/components/Navigation.tsx:45-86 | no desktop link shares its test id with any mobile link |
| `Navigation.MobileMenu.constructor` | src/components/Navigation.tsx:8 | the mobile menu starts closed |
| `Navigation.MobileMenu.Toggle` | src/components/Navigation.tsx:61 | the menu button flips the open state |
| `Navigation.MobileMenu.Close` | src/components/Navigation.tsx:85 | a mobile link or the mobile Apply Now button closes the menu |
| `ContactPage.EmptyForm` | src/pages/Contact.tsx:22-30 | every field of the initial form is empty |
| `ContactPage.WithField` | src/pages/Contact.tsx:77-79 | `{ ...prev, [field]: value }` sets the named field and leaves the other six as they were |
| `ContactPage.SubmitDecision` | src/pages/Contact.tsx:62-75 | the form is sent, whole and unchanged, exactly when all six required fields are non-empty; otherwise the missing-information toast is shown |
| `ContactPage.FormPayload` | src/pages/Contact.tsx:74 | the body sent carries exactly the schema's seven keys, the message included |
| `ContactPage.MemberOf` | src/pages/Contact.tsx:53 | `v?.key` is defined exactly when `v` is an object holding that key, and is its value |
| `Json.Truthy` | src/pages/Contact.tsx:40 | JavaScript truthiness: `undefined`, `null`, `false`, `0` and "" are falsy; arrays and objects are truthy; a string exactly when non-empty |
| `Json.Or` | src/pages/Contact.tsx:40-53 | `a \|\| b` is `a` when `a` is truthy, else `b` (either may be `undefined`), and is truthy exactly when one of them is |
| `ContactPage.RequiredFilled` | src/pages/Contact.tsx:65 | the gate passes exactly when every required field (all but the message) is non-empty |
| `ContactPage.ErrorDescription` | src/pages/Contact.tsx:53 | the error toast shows `error.error` when truthy, else `error.message` when truthy, else the fixed fallback, and is never empty |
| `ContactPage.SuccessDescription` | src/pages/Contact.tsx:37-40 | reading `response.message` throws exactly when the response is `undefined` or `null`; otherwise the toast shows the truthy `message`, else the fixed fallback, and its text is never empty |
| `ContactPage.ContactForm.constructor` | src/pages/Contact.tsx:22-30 | the form starts with all seven fields empty |
| `ContactPage.ContactForm.HandleInputChange` | src/pages/Contact.tsx:77-79 | changes only the named field |
| `ContactPage.ContactForm.HandleSubmit` | src/pages/Contact.tsx:62-75 | sends the form exactly when the six required fields are filled, and never changes it |
| `ContactPage.ContactForm.OnSubmitSuccess` | src/pages/Contact.tsx:37-51 | shows the success text and resets all seven fields to ""; when reading the message throws, the form keeps its contents |
| `ContactPage.MessageNeverBlocks` | src/pages/Contact.tsx:65 | the message never affects whether the form is sent |
| `ContactPage.EmptyRequiredFieldBlocks` | src/pages/Contact.tsx:65-72 | emptying any one required field blocks the submission |
| `ContactPage.EmptyFormBlocked` | src/pages/Contact.tsx:42-50 | right after a successful submission the reset form is blocked |
| `ContactPage.GateMissesShortPhone` | src/pages/Contact.tsx:65 | the page sends a filled form with a short phone, which the server then rejects with the phone message |
| `ContactPage.GateStricterOnEmptyName` | src/pages/Contact.tsx:65 | the page blocks an empty name that the server would accept |
| `ContactPage.AcceptedFormStoredAsTyped` | src/pages/Contact.tsx:74 | a form the server accepts becomes the insert record of its fields as typed, message included |
| `ContactPage.SuccessShowsServerMessage` | src/pages/Contact.tsx:37-40 | if the success handler receives the parsed 201 body, the toast shows the server's confirmation text |
| `ContactPage.ErrorDescriptionPrefersError` | src/pages/Contact.tsx:53 | `error` wins over `message`, a lone `message` is shown, and no error object gives the fallback |
| `VerifyAuthorization.UniversitiesWithAuth` | src/pages/VerifyAuthorization.tsx:14 | keeps only universities with a present, non-empty letter URL, keeps all of them, and is empty exactly when none has one |
| `VerifyAuthorization.HasLetter` | src/pages/VerifyAuthorization.tsx:14 | a letter URL is truthy exactly when present and non-empty: missing and "" fail, and the "#" placeholder passes |
| `VerifyAuthorization.ShowsLetterLinks` | src/pages/VerifyAuthorization.tsx:92 | links are shown only for a truthy URL, never for "#", and for every other truthy URL |
| `VerifyAuthorization.WithAuthKeepsExactly` | src/pages/VerifyAuthorization.tsx:14 | the filter keeps each such university as often as it occurs, in original order |
| `VerifyAuthorization.LetterAreaOf` | src/pages/VerifyAuthorization.tsx:92-133 | view and download links, both to the letter URL, exactly when the URL is non-empty and not "#"; otherwise the on-request note |
| `VerifyAuthorization.PlaceholderGetsNoteOnly` | src/pages/VerifyAuthorization.tsx:92 | a "#" URL passes the filter but shows only the on-request note |
| `VerifyAuthorization.QrValue` | src/pages/VerifyAuthorization.tsx:143 | the QR value is the origin, then "/verify/", then the id |
| `VerifyAuthorization.QrValueDeterminesId` | src/pages/VerifyAuthorization.tsx:143 | on one page, equal QR values mean equal university ids |
| `VerifyAuthorization.CardOf` | src/pages/VerifyAuthorization.tsx:70-153 | a card carries the university's id, its letter area and its QR value |
| `VerifyAuthorization.Section` | src/pages/VerifyAuthorization.tsx:68 | the "available soon" message exactly when no university has a letter URL, else one card per filtered university, in order |
| `VerifyAuthorization.SeedLetterIsPlaceholder` | PodConnect/server/storage.ts:51-118 | every seeded university's letter URL is "#" |
| `VerifyAuthorization.SeededUniversitiesOnRequest` | src/pages/VerifyAuthorization.tsx:92 | on a new store every university gets a card, and none offers letter links |
| `TestimonialCard.FlagAsWritten` | PodConnect/client/src/components/TestimonialCard.tsx:34 | the lookup as written: an own key gives its flag, a name inherited from `Object.prototype` gives that member, anything else gives the globe |
| `TestimonialCard.FlagFor` | PodConnect/client/src/components/TestimonialCard.tsx:34 | the intended lookup is total: a table country gives its flag, any other string the globe |
| `TestimonialCard.FourDistinctFlags` | PodConnect/client/src/components/TestimonialCard.tsx:9-14 | the table has exactly the four keys India, Pakistan, Saudi Arabia and Iran; their flags are pairwise distinct and none is the globe |
| `TestimonialCard.LowerCaseCountryGetsGlobe` | PodConnect/client/src/components/TestimonialCard.tsx:34 | matching is case-sensitive: "india" gets the globe |
| `TestimonialCard.AsWrittenAgreesOffPrototype` | PodConnect/client/src/components/TestimonialCard.tsx:34 | off the inherited names, the lookup as written is the intended one |
| `TestimonialCard.InheritedNameMissesGlobe` | PodConnect/client/src/components/TestimonialCard.tsx:34 | the country "constructor" gets an inherited function instead of the globe |
| `TestimonialCard.SeededTestimonialsHaveFlags` | PodConnect/server/storage.ts:255-310 | every seeded testimonial's country is in the table, so its card shows a flag and not the globe |

## Left out

- JSX rendering, Tailwind classes, icons, toasts as UI, react-query fetching and the loading
  branches are presentation and network I/O. Only the data they display is modelled.
- Express itself, the HTTP server, and the `console.log` and `console.error` audit lines in
  `routes.ts` are I/O plumbing.
- `async`/`Promise`: nothing is awaited concurrently, so every store call is a plain call.
- `randomUUID` and `new Date().toISOString()` are parameters.
  - The `create*` methods have no precondition that the id is fresh. Like `Map.set`, they
    replace an existing entry in place, and their contracts say so.
  - The "appends" and "only grows" guarantees are stated for a fresh id.
- The in-memory store never throws. On it the handlers never answer 500, so the 500 branches
  are reached only through the pure response functions, whose input is any outcome.
- Zod's e-mail regular expression is the parameter `isEmail`.
- A `ZodError`'s message is JSON text that renders its issue list. The 400 body keeps the
  issue list itself, not that text.
- Zod's "Expected string, received …" wording is modelled from the JSON value's type name only.
- Schema.PhoneField: Zod's `min(10)` counts UTF-16 code units, and the model counts
  characters (Unicode scalar values). The two differ only for characters outside the Basic
  Multilingual Plane.
- Slugs.LowerChar: `toLowerCase` is modelled for the ASCII letters only. Other characters
  are left as they are, so the slug properties are stated for that lower-casing.
- Slugs.Slug: concrete slugs are computed only for the six navigation labels. Other labels,
  such as program categories, are characterised by the general properties: one word, two
  words, idempotence, no whitespace.
- Nullable columns: `null` and a missing key are both `None`. The inquiry `message` is the
  exception, and its three forms stay distinct.
- JSON numbers, such as a testimonial's `year`, are integers.
- `apiRequest` in the client is not part of this model. What the page's success and error
  handlers receive is a parameter: any JSON value or nothing.
- ContactPage.SuccessShowsServerMessage: holds only if the success handler receives the parsed
  201 body. If `apiRequest` resolves to the raw fetch response, `response.message` is
  undefined and the toast shows the fallback text instead.
- QR drawing, wouter routing and the static pages hold no logic beyond fixed content.

## Findings

| source | as written | input that shows it | evidently intended | confidence | as-written member | corrected member |
|---|---|---|---|---|---|---|
| PodConnect/client/src/components/TestimonialCard.tsx:34 | `countryFlags[testimonial.country] \|\| "🌍"` indexes a plain object literal, so a country named like an `Object.prototype` member (`constructor`, `toString`, `valueOf`, `__proto__`, …) finds that inherited, truthy member instead of falling back | a testimonial whose `country` is `"constructor"` | look up the table's own keys only, and show the globe for every other country | not executed; the inherited lookup follows from JavaScript's property lookup rules | `TestimonialCard.FlagAsWritten` (`TestimonialCard.InheritedNameMissesGlobe`) | `TestimonialCard.FlagFor` (`TestimonialCard.AsWrittenAgreesOffPrototype`, `TestimonialCard.FourDistinctFlags`) |
