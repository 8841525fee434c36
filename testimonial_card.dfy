/**
 * The flag a testimonial card shows next to the student's country:
 * `countryFlags[testimonial.country] || globe`.
 *
 * `countryFlags` is a plain object literal, so indexing it with a string
 * that is not one of its own four keys can still find a member inherited
 * from `Object.prototype` (`countryFlags["constructor"]` is a function, which
 * is truthy), and then the globe is not shown. `FlagAsWritten` models that
 * lookup; `FlagFor` is the intended one, over the table's own keys only.
 */
module TestimonialCard {
  import opened Schema
  import opened Storage

  const Globe := "\U{1F30D}"

  /** The table's own entries: country name to flag (two regional indicator letters). */
  const CountryFlags: map<string, string> := map[
    "India" := "\U{1F1EE}\U{1F1F3}",
    "Pakistan" := "\U{1F1F5}\U{1F1F0}",
    "Saudi Arabia" := "\U{1F1F8}\U{1F1E6}",
    "Iran" := "\U{1F1EE}\U{1F1F7}"]

  /** The properties every plain object inherits from `Object.prototype`. */
  const PrototypeMembers: set<string> := {
    "constructor", "__defineGetter__", "__defineSetter__", "hasOwnProperty",
    "__lookupGetter__", "__lookupSetter__", "isPrototypeOf", "propertyIsEnumerable",
    "toString", "valueOf", "__proto__", "toLocaleString"}

  /** What the flag slot receives: a text, or an inherited member (a function, or for
      `__proto__` the prototype object itself), which is not a flag. */
  datatype FlagSlot = FlagText(text: string) | InheritedMember(name: string)

  /** The lookup as written: own keys first, then `Object.prototype`, then the globe. */
  function FlagAsWritten(country: string): (slot: FlagSlot)
    ensures country in CountryFlags ==> slot == FlagText(CountryFlags[country])
    ensures country !in CountryFlags && country in PrototypeMembers ==> slot == InheritedMember(country)
    ensures country !in CountryFlags && country !in PrototypeMembers ==> slot == FlagText(Globe)
  {
    if country in CountryFlags then FlagText(CountryFlags[country])
    else if country in PrototypeMembers then InheritedMember(country)
    else FlagText(Globe)
  }

  /** The intended lookup: the table's own flag, or the globe. Total over all strings. */
  function FlagFor(country: string): (flag: string)
    ensures country in CountryFlags ==> flag == CountryFlags[country]
    ensures country !in CountryFlags ==> flag == Globe
    ensures flag != ""
  {
    if country in CountryFlags then CountryFlags[country] else Globe
  }

  // ------------------------------------------------------------ properties

  /** The table has exactly four keys, and the four flags differ from each other and
      from the globe. */
  lemma FourDistinctFlags()
    ensures CountryFlags.Keys == {"India", "Pakistan", "Saudi Arabia", "Iran"}
    ensures |CountryFlags.Keys| == 4
    ensures forall a, b :: a in CountryFlags && b in CountryFlags && a != b ==> CountryFlags[a] != CountryFlags[b]
    ensures forall a :: a in CountryFlags ==> CountryFlags[a] != Globe
  {
    assert CountryFlags.Keys == {"India", "Pakistan", "Saudi Arabia", "Iran"};
    assert "India" != "Pakistan" && "India" != "Iran" && "Pakistan" != "Iran";
  }

  /** Matching is exact and case-sensitive: "india" gets the globe. */
  lemma LowerCaseCountryGetsGlobe()
    ensures FlagFor("india") == Globe
    ensures FlagAsWritten("india") == FlagText(Globe)
  {
    assert "india" !in CountryFlags;
    assert "india" !in PrototypeMembers;
  }

  /** Off the inherited names, the lookup as written is the intended one. */
  lemma AsWrittenAgreesOffPrototype(country: string)
    requires country !in PrototypeMembers
    ensures FlagAsWritten(country) == FlagText(FlagFor(country))
  {
  }

  /** A country named like an inherited member gets no flag and no globe. */
  lemma InheritedNameMissesGlobe()
    ensures FlagAsWritten("constructor") == InheritedMember("constructor")
    ensures FlagFor("constructor") == Globe
  {
    assert "constructor" !in CountryFlags;
  }

  /** Each seeded testimonial's country is in the table, so every seeded card shows
      a flag and not the globe. */
  lemma SeededTestimonialsHaveFlags(i: nat)
    requires i < 6
    ensures SeedTestimonial(i).country in CountryFlags
    ensures FlagFor(SeedTestimonial(i).country) != Globe
  {
    FourDistinctFlags();
  }
}
