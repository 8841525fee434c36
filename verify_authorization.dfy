/**
 * The "Verify Our Authorization" page: which universities get a card, whether
 * a card offers the letter's view and download links or only the
 * "available upon request" note, and the text its QR code encodes.
 */
module VerifyAuthorization {
  import opened Wrappers
  import opened Schema
  import opened Seqs
  import opened Storage

  const OnRequestNote := "Authorization letter available upon request. Contact us for verification."
  const AvailableSoonMessage := "Authorization letters will be available soon."
  const Placeholder := "#"

  /** `u.authorizationLetterUrl` is truthy: present, not null, not empty. */
  predicate HasLetter(u: University): (has: bool)
    ensures u.authorizationLetterUrl.None? ==> !has
    ensures u.authorizationLetterUrl == Some("") ==> !has
    ensures has <==> u.authorizationLetterUrl.Some? && |u.authorizationLetterUrl.value| > 0
    ensures u.authorizationLetterUrl == Some(Placeholder) ==> has
  {
    u.authorizationLetterUrl.Some? && u.authorizationLetterUrl.value != ""
  }

  /** `universities.filter((u) => u.authorizationLetterUrl)` */
  function UniversitiesWithAuth(us: seq<University>): (r: seq<University>)
    ensures |r| <= |us|
    ensures forall i :: 0 <= i < |r| ==> r[i] in us && HasLetter(r[i])
    ensures forall u :: u in us && HasLetter(u) ==> u in r
    ensures r == [] <==> forall i :: 0 <= i < |us| ==> !HasLetter(us[i])
  {
    Filter(us, HasLetter)
  }

  /** The card shows the view and download links only for a real address:
      one that is present, non-empty and not the "#" placeholder. */
  predicate ShowsLetterLinks(u: University): (shows: bool)
    ensures shows ==> HasLetter(u)
    ensures u.authorizationLetterUrl == Some(Placeholder) ==> !shows
    ensures HasLetter(u) && u.authorizationLetterUrl != Some(Placeholder) ==> shows
  {
    HasLetter(u) && u.authorizationLetterUrl.value != Placeholder
  }

  /** The letter part of a card. */
  datatype LetterArea = Links(viewHref: string, downloadHref: string) | OnRequest(note: string)

  function LetterAreaOf(u: University): (a: LetterArea)
    ensures a.Links? <==> ShowsLetterLinks(u)
    ensures a.Links? ==> a.viewHref == a.downloadHref == u.authorizationLetterUrl.value
    ensures a.OnRequest? ==> a.note == OnRequestNote
  {
    if ShowsLetterLinks(u) then
      Links(u.authorizationLetterUrl.value, u.authorizationLetterUrl.value)
    else OnRequest(OnRequestNote)
  }

  /** The QR code's value: the page's origin, "/verify/", then the university's id. */
  function QrValue(origin: string, id: string): (v: string)
    ensures |v| == |origin| + 8 + |id|
    ensures v[..|origin|] == origin && v[|origin| + 8..] == id
    ensures v[|origin|..|origin| + 8] == "/verify/"
  {
    origin + "/verify/" + id
  }

  datatype Card = Card(universityId: string, name: string, location: string, letter: LetterArea, qr: string)

  /** The letters section: a card per university with a letter, or the "available soon" message. */
  datatype LettersSection = Cards(cards: seq<Card>) | AvailableSoon(message: string)

  function CardOf(origin: string, u: University): (c: Card)
    ensures c.universityId == u.id && c.letter == LetterAreaOf(u) && c.qr == QrValue(origin, u.id)
  {
    Card(u.id, u.name, u.location, LetterAreaOf(u), QrValue(origin, u.id))
  }

  function Section(origin: string, us: seq<University>): (s: LettersSection)
    ensures s.AvailableSoon? <==> forall i :: 0 <= i < |us| ==> !HasLetter(us[i])
    ensures s.AvailableSoon? ==> s.message == AvailableSoonMessage
    ensures s.Cards? ==>
      |s.cards| == |UniversitiesWithAuth(us)|
      && forall i :: 0 <= i < |s.cards| ==> s.cards[i] == CardOf(origin, UniversitiesWithAuth(us)[i])
  {
    var shown := UniversitiesWithAuth(us);
    if |shown| > 0 then Cards(seq(|shown|, i requires 0 <= i < |shown| => CardOf(origin, shown[i])))
    else AvailableSoon(AvailableSoonMessage)
  }

  // ------------------------------------------------------------ properties

  /** The filter keeps the universities with a letter, each as often as it occurs,
      in their original order. */
  lemma WithAuthKeepsExactly(us: seq<University>, u: University)
    ensures Subsequence(UniversitiesWithAuth(us), us)
    ensures multiset(UniversitiesWithAuth(us))[u] == if HasLetter(u) then multiset(us)[u] else 0
  {
    FilterIsSubsequence(us, HasLetter);
    FilterCounts(us, HasLetter, u);
  }

  /** Every university whose links are shown has passed the filter, but not the converse:
      a "#" letter gets a card with only the note. */
  lemma PlaceholderGetsNoteOnly(u: University)
    requires u.authorizationLetterUrl == Some(Placeholder)
    ensures HasLetter(u)
    ensures LetterAreaOf(u) == OnRequest(OnRequestNote)
  {
  }

  /** The QR value determines the university id: two cards on one page have the same
      code only if they are for the same id. */
  lemma QrValueDeterminesId(origin: string, id1: string, id2: string)
    requires QrValue(origin, id1) == QrValue(origin, id2)
    ensures id1 == id2
  {
    var v := QrValue(origin, id1);
    assert v[|origin| + 8..] == id1;
  }

  /** Each seeded university carries the "#" placeholder. */
  lemma SeedLetterIsPlaceholder(i: nat)
    requires i < 6
    ensures SeedUniversity(i).authorizationLetterUrl == Some(Placeholder)
  {
  }

  /** On a new store, every university gets a card and none offers letter links. */
  lemma SeededUniversitiesOnRequest(ids: seq<string>, i: nat)
    requires |ids| == 6 && i < 6
    ensures HasLetter(UniversityRows(SeedUniversities(), ids)[i])
    ensures LetterAreaOf(UniversityRows(SeedUniversities(), ids)[i]) == OnRequest(OnRequestNote)
  {
    SeedLetterIsPlaceholder(i);
    assert UniversityRows(SeedUniversities(), ids)[i] == UniversityWithId(SeedUniversity(i), ids[i]);
  }
}
