/**
 * The seven-step volunteer form: the step counter, the consent gate, the
 * multi-choice toggles, the date of birth assembled from three selects, and
 * the list of spoken languages.
 */
module RegistrationForm {
  import opened Wrappers
  import opened Text
  import Seqs

  const TotalSteps: int := 7

  /** A language entry as a mutable object: `updateLanguage` writes into the entry itself. */
  class LanguageEntry {
    var language: string
    var level: string

    constructor (language: string, level: string)
      ensures this.language == language && this.level == level
    {
      this.language := language;
      this.level := level;
    }
  }

  /** A language entry as a value. */
  datatype Language = Language(language: string, level: string)

  const DefaultLanguages: seq<Language> := [Language("Arabe", ""), Language("Français", ""), Language("Anglais", "")]

  /** Every field of the form except the language list, which is held separately as objects. */
  datatype FormData = FormData(
    firstName: string,
    lastName: string,
    gender: string,
    dateOfBirth: string,
    isStudent: bool,
    educationLevel: string,
    educationInstitution: string,
    educationSpecialty: string,
    diploma: string,
    organization: string,
    position: string,
    profession: string,
    isAffiliated: bool,
    affiliationDetails: string,
    governorate: string,
    city: string,
    addressLine1: string,
    addressLine2: string,
    postalCode: string,
    email: string,
    phoneMain: string,
    phoneSecondary: string,
    preferredContact: seq<string>,
    selectedSkills: seq<string>,
    skills: string,
    otherSkills: string,
    selectedInterests: seq<string>,
    interests: string,
    availabilityDays: seq<string>,
    availabilityHours: seq<string>,
    iwatchExperience: bool,
    iwatchEvents: string,
    iwatchYears: string,
    iwatchRole: string,
    otherVolunteering: bool,
    otherOrgDetails: string,
    isCommunityMember: bool,
    referralSource: string,
    onboardingQuestions: string,
    consentTerms: bool,
    consentDataUsage: bool)

  /**
   * The initial values a caller may supply. The onboarding page supplies a
   * name and an address; languages and consents are listed because the form
   * treats them specially.
   */
  datatype InitialData = InitialData(
    firstName: Option<string>,
    lastName: Option<string>,
    email: Option<string>,
    languages: Option<seq<Language>>,
    consentTerms: Option<bool>,
    consentDataUsage: Option<bool>)

  /** `initialData?.x || ""`. */
  function TextOr(o: Option<string>): string { if o.Some? then o.value else "" }

  function InitialForm(init: InitialData): (d: FormData)
    ensures !d.consentTerms && !d.consentDataUsage
    ensures d.firstName == TextOr(init.firstName) && d.lastName == TextOr(init.lastName) && d.email == TextOr(init.email)
  {
    FormData(TextOr(init.firstName), TextOr(init.lastName), "", "", false, "", "", "", "", "", "", "", false, "",
      "", "", "", "", "", TextOr(init.email), "", "", [], [], "", "", [], "", [], [],
      false, "", "", "", false, "", false, "", "", false, false)
  }

  /** `initialData?.languages || [defaults]`: an empty array is truthy, so it is kept. */
  function InitialLanguages(init: InitialData): (r: seq<Language>)
    ensures init.languages.None? ==> r == DefaultLanguages
    ensures init.languages.Some? ==> r == init.languages.value
  {
    if init.languages.Some? then init.languages.value else DefaultLanguages
  }

  // ----- toggles -----------------------------------------------------------

  /** `toggleDay` / `toggleSkill` / `toggleInterest`: remove every copy of a present item, append an absent one. */
  function Toggle(list: seq<string>, item: string): (r: seq<string>)
    ensures item in r <==> item !in list
    ensures forall x :: x != item ==> (x in r <==> x in list)
    ensures item !in list ==> r == list + [item]
  {
    if item in list then Seqs.Filter(list, (x: string) => x != item) else list + [item]
  }

  /** Toggling an absent item twice restores the list. */
  lemma ToggleTwiceRestores(list: seq<string>, item: string)
    requires item !in list
    ensures Toggle(Toggle(list, item), item) == list
  {
    Seqs.FilterAppend(list, [item], (x: string) => x != item);
    Seqs.FilterAll(list, (x: string) => x != item);
  }

  /** Toggling a present item removes all its copies and keeps the rest in order. */
  lemma ToggleRemovesAll(list: seq<string>, item: string, before: seq<string>, after: seq<string>)
    requires list == before + [item] + after && item !in before && item !in after
    ensures Toggle(list, item) == before + after
  {
    assert list[|before|] == item;
    RemoveDropsItem(before, item, after);
  }

  lemma RemoveDropsItem(before: seq<string>, item: string, after: seq<string>)
    requires item !in before && item !in after
    ensures Seqs.Filter(before + [item] + after, (x: string) => x != item) == before + after
  {
    var P := (x: string) => x != item;
    Seqs.FilterAll(before, P);
    Seqs.FilterAll(after, P);
    Seqs.FilterNone([item], P);
    Seqs.FilterAppend(before, [item], P);
    var head := Seqs.Filter(before + [item], P);
    assert head == before;
    Seqs.FilterAppend(before + [item], after, P);
  }

  // ----- date of birth -----------------------------------------------------

  datatype DateParts = DateParts(year: string, month: string, day: string)

  function PartAt(parts: seq<string>, k: nat): string {
    if k < |parts| then parts[k] else ""
  }

  /** `parsedDate`: the stored text split on '-', or three empty parts when there is none. */
  function ParsedDate(dob: string): (p: DateParts)
    ensures dob == "" ==> p == DateParts("", "", "")
  {
    var parts := if dob == "" then ["", "", ""] else Split(dob, '-');
    DateParts(PartAt(parts, 0), PartAt(parts, 1), PartAt(parts, 2))
  }

  datatype DatePart = Day | Month | Year

  function Compose(y: string, m: string, d: string): string {
    y + "-" + m + "-" + d
  }

  function OrElse(s: string, fallback: string): string { if s != "" then s else fallback }

  /**
   * `handleDatePartChange`: the three parts (one replaced) are stored as
   * `Y-M-D` when all are set; when only some are set the missing ones are
   * padded with `0000`/`00`/`00`; when none is set the date is unchanged.
   */
  function DatePartChange(dob: string, part: DatePart, value: string): (r: string)
    ensures var old_ := ParsedDate(dob);
      var y := if part == Year then value else old_.year;
      var m := if part == Month then value else old_.month;
      var d := if part == Day then value else old_.day;
      && (y != "" && m != "" && d != "" ==> r == Compose(y, m, d))
      && (y == "" && m == "" && d == "" ==> r == dob)
      && (y != "" || m != "" || d != "" ==> r == Compose(OrElse(y, "0000"), OrElse(m, "00"), OrElse(d, "00")))
  {
    var p := ParsedDate(dob);
    var y := if part == Year then value else p.year;
    var m := if part == Month then value else p.month;
    var d := if part == Day then value else p.day;
    if y != "" && m != "" && d != "" then Compose(y, m, d)
    else if y != "" || m != "" || d != "" then Compose(OrElse(y, "0000"), OrElse(m, "00"), OrElse(d, "00"))
    else dob
  }

  /** A date composed from three dash-free parts reads back as the same parts. */
  lemma ComposeReadsBack(y: string, m: string, d: string)
    requires '-' !in y && '-' !in m && '-' !in d
    ensures ParsedDate(Compose(y, m, d)) == DateParts(y, m, d)
  {
    assert Compose(y, m, d) == Join([y, m, d], '-') by {
      assert [y, m, d][1..] == [m, d];
      assert [m, d][1..] == [d];
      assert Join([d], '-') == d;
      assert Join([m, d], '-') == m + ['-'] + d;
      assert Join([y, m, d], '-') == y + ['-'] + (m + ['-'] + d);
    }
    SplitJoin([y, m, d], '-');
  }

  /**
   * Choosing a dash-free value in any select stores a date whose three parts
   * are all non-empty: the chosen part as given, the others as they were or
   * as placeholders.
   */
  lemma {:induction false} ChoiceFillsAllParts(dob: string, part: DatePart, value: string)
    requires value != "" && '-' !in value
    ensures var p := ParsedDate(DatePartChange(dob, part, value));
      p.year != "" && p.month != "" && p.day != ""
      && (part == Year ==> p.year == value) && (part == Month ==> p.month == value) && (part == Day ==> p.day == value)
  {
    var old_ := ParsedDate(dob);
    PartsDashFree(dob);
    var y := if part == Year then value else old_.year;
    var m := if part == Month then value else old_.month;
    var d := if part == Day then value else old_.day;
    ComposeReadsBack(OrElse(y, "0000"), OrElse(m, "00"), OrElse(d, "00"));
  }

  lemma PartsDashFree(dob: string)
    ensures var p := ParsedDate(dob);
      '-' !in p.year && '-' !in p.month && '-' !in p.day
  {
    if dob != "" {
      var parts := Split(dob, '-');
      assert forall k :: 0 <= k < |parts| ==> '-' !in parts[k];
    }
  }

  /**
   * The submit button: shown instead of "Suivant" only on the last step, and
   * enabled only when nothing is loading and both consents are ticked.
   */
  function SubmitEnabled(step: int, data: FormData, isLoading: bool): (r: bool)
    ensures r ==> step == TotalSteps && data.consentTerms && data.consentDataUsage
    ensures r ==> !isLoading
  {
    step == TotalSteps && !isLoading && data.consentTerms && data.consentDataUsage
  }

  /**
   * A freshly opened form cannot be submitted on any step: the consents
   * start unticked. Ticking both on the last step, with nothing loading, is
   * enough.
   */
  lemma ConsentGatesSubmit(init: InitialData, step: int, isLoading: bool)
    ensures !SubmitEnabled(step, InitialForm(init), isLoading)
    ensures SubmitEnabled(TotalSteps, InitialForm(init).(consentTerms := true, consentDataUsage := true), false)
  {
  }

  // ----- the form object ---------------------------------------------------

  class Form {
    var step: int
    var data: FormData
    var languages: seq<LanguageEntry>

    /** The step stays in 1..7 and no language object appears twice in the list. */
    ghost predicate Valid()
      reads this
    {
      && 1 <= step <= TotalSteps
      && forall i, j :: 0 <= i < j < |languages| ==> languages[i] != languages[j]
    }

    /** The language list as values. */
    function LanguageValues(): (r: seq<Language>)
      reads this, set l | l in languages
      ensures |r| == |languages|
      ensures forall i :: 0 <= i < |languages| ==> r[i] == Language(languages[i].language, languages[i].level)
    {
      seq(|languages|, i reads this, set l | l in languages requires 0 <= i < |languages| =>
        Language(languages[i].language, languages[i].level))
    }

    constructor (init: InitialData)
      ensures Valid() && step == 1
      ensures data == InitialForm(init)
      ensures LanguageValues() == InitialLanguages(init)
      ensures fresh(set l | l in languages)
    {
      step := 1;
      data := InitialForm(init);
      var values := InitialLanguages(init);
      var entries: seq<LanguageEntry> := [];
      var i := 0;
      while i < |values|
        invariant 0 <= i <= |values| && |entries| == i
        invariant forall k :: 0 <= k < i ==> entries[k].language == values[k].language && entries[k].level == values[k].level
        invariant forall k :: 0 <= k < i ==> fresh(entries[k])
        invariant forall a, b :: 0 <= a < b < i ==> entries[a] != entries[b]
      {
        var e := new LanguageEntry(values[i].language, values[i].level);
        entries := entries + [e];
        i := i + 1;
      }
      languages := entries;
    }

    /** "Précédent": one step back, never below 1. */
    method Previous()
      requires Valid()
      modifies this
      ensures Valid() && step == if old(step) > 1 then old(step) - 1 else 1
      ensures data == old(data) && languages == old(languages)
    {
      step := if step - 1 > 1 then step - 1 else 1;
    }

    /** "Suivant": one step forward, never above 7. */
    method Next()
      requires Valid()
      modifies this
      ensures Valid() && step == if old(step) < TotalSteps then old(step) + 1 else TotalSteps
      ensures data == old(data) && languages == old(languages)
    {
      step := if step + 1 < TotalSteps then step + 1 else TotalSteps;
    }

    method SetConsents(terms: bool, dataUsage: bool)
      requires Valid()
      modifies this
      ensures Valid() && data == old(data).(consentTerms := terms, consentDataUsage := dataUsage)
      ensures step == old(step) && languages == old(languages)
    {
      data := data.(consentTerms := terms, consentDataUsage := dataUsage);
    }

    method ToggleDay(day: string)
      requires Valid()
      modifies this
      ensures Valid() && data == old(data).(availabilityDays := Toggle(old(data).availabilityDays, day))
      ensures step == old(step) && languages == old(languages)
    {
      data := data.(availabilityDays := Toggle(data.availabilityDays, day));
    }

    method ToggleSkill(skill: string)
      requires Valid()
      modifies this
      ensures Valid() && data == old(data).(selectedSkills := Toggle(old(data).selectedSkills, skill))
      ensures step == old(step) && languages == old(languages)
    {
      data := data.(selectedSkills := Toggle(data.selectedSkills, skill));
    }

    method ToggleInterest(interest: string)
      requires Valid()
      modifies this
      ensures Valid() && data == old(data).(selectedInterests := Toggle(old(data).selectedInterests, interest))
      ensures step == old(step) && languages == old(languages)
    {
      data := data.(selectedInterests := Toggle(data.selectedInterests, interest));
    }

    method ChangeDatePart(part: DatePart, value: string)
      requires Valid()
      modifies this
      ensures Valid() && data == old(data).(dateOfBirth := DatePartChange(old(data).dateOfBirth, part, value))
      ensures step == old(step) && languages == old(languages)
    {
      data := data.(dateOfBirth := DatePartChange(data.dateOfBirth, part, value));
    }

    /** `addLanguage`: appends a new, empty entry. */
    method AddLanguage()
      requires Valid()
      modifies this
      ensures Valid() && step == old(step) && data == old(data)
      ensures |languages| == |old(languages)| + 1 && languages[..|old(languages)|] == old(languages)
      ensures fresh(languages[|old(languages)|])
      ensures LanguageValues() == old(LanguageValues()) + [Language("", "")]
    {
      var e := new LanguageEntry("", "");
      languages := languages + [e];
    }

    /** `removeLanguage`: drops exactly the entry at that index and keeps the others in order. */
    method RemoveLanguage(index: int)
      requires Valid()
      modifies this
      ensures Valid() && step == old(step) && data == old(data)
      ensures 0 <= index < |old(languages)| ==> languages == old(languages)[..index] + old(languages)[index + 1..]
      ensures !(0 <= index < |old(languages)|) ==> languages == old(languages)
    {
      if 0 <= index < |languages| {
        languages := languages[..index] + languages[index + 1..];
      }
    }

    /**
     * `updateLanguage`: the array is copied but the entry object at the index
     * is written in place; an index outside the list throws and changes nothing.
     */
    method UpdateLanguage(index: int, setLevel: bool, value: string)
      requires Valid()
      modifies if 0 <= index < |languages| then {languages[index]} else {}
      ensures Valid() && languages == old(languages) && step == old(step) && data == old(data)
      ensures 0 <= index < |languages| ==>
        && (setLevel ==> languages[index].level == value && languages[index].language == old(languages[index].language))
        && (!setLevel ==> languages[index].language == value && languages[index].level == old(languages[index].level))
      ensures forall k :: 0 <= k < |languages| && k != index ==>
        languages[k].language == old(languages[k].language) && languages[k].level == old(languages[k].level)
    {
      if 0 <= index < |languages| {
        if setLevel {
          languages[index].level := value;
        } else {
          languages[index].language := value;
        }
      }
    }
  }
}
