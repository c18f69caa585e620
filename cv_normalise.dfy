/**
 * The record normaliser of the CV preview in `src/app/cv-parsing/page.tsx`:
 * the upstream record, with PascalCase keys, becomes the page's snake_case
 * record (`Normalize`), and that record becomes the five panels the preview
 * shows (`View`).
 *
 * The source reads properties of an `any` value and calls `split`, `join` and
 * `map` on some of them; where it would throw a `TypeError` for a value of the
 * wrong shape, `Normalizable` and `Displayable` name the shape it needs.
 */
module CvNormalise {
  import opened Wrappers
  import opened JsStrings
  import opened JsValues

  /** `parsed.key` of the (truthy) upstream record. */
  function Field(parsed: Value, key: string): Value
    requires Truthy(parsed)
  {
    Prop(parsed, key)
  }

  /**
   * `parsed.Pascal || parsed.snake || fallback`: the PascalCase property when
   * it is truthy, else the snake_case one when that is, else the fallback.
   */
  function Pick(parsed: Value, pascal: string, snake: string, fallback: Value): (r: Value)
    requires Truthy(parsed)
    ensures Truthy(Field(parsed, pascal)) ==> r == Field(parsed, pascal)
    ensures !Truthy(Field(parsed, pascal)) && Truthy(Field(parsed, snake)) ==> r == Field(parsed, snake)
    ensures !Truthy(Field(parsed, pascal)) && !Truthy(Field(parsed, snake)) ==> r == fallback
  {
    Or(Field(parsed, pascal), Or(Field(parsed, snake), fallback))
  }

  // ---------------------------------------------------------------------------
  // Languages

  /**
   * The level named by the text after " (": "Native" for "excellent" or
   * "native", else "Fluent" for "good" or "fluent", in any case of letters;
   * "Intermediate" for anything else and for no text at all.
   */
  function LevelOf(levelRaw: string): (level: string)
    ensures level == "Native" || level == "Fluent" || level == "Intermediate"
    ensures levelRaw == "" ==> level == "Intermediate"
    ensures level == "Native" <==>
      Includes(ToLower(levelRaw), "excellent") || Includes(ToLower(levelRaw), "native")
    ensures level == "Fluent" <==>
      !Includes(ToLower(levelRaw), "excellent") && !Includes(ToLower(levelRaw), "native") &&
      (Includes(ToLower(levelRaw), "good") || Includes(ToLower(levelRaw), "fluent"))
    ensures level == "Intermediate" <==>
      !Includes(ToLower(levelRaw), "excellent") && !Includes(ToLower(levelRaw), "native") &&
      !Includes(ToLower(levelRaw), "good") && !Includes(ToLower(levelRaw), "fluent")
  {
    if levelRaw == "" then "Intermediate"
    else
      var low := ToLower(levelRaw);
      if Includes(low, "excellent") || Includes(low, "native") then "Native"
      else if Includes(low, "good") || Includes(low, "fluent") then "Fluent"
      else "Intermediate"
  }

  /** A keyword written in any mix of cases decides the level. */
  lemma LevelKeywords(levelRaw: string, w: string)
    requires Includes(levelRaw, w)
    ensures ToLower(w) == "excellent" || ToLower(w) == "native" ==> LevelOf(levelRaw) == "Native"
    ensures (ToLower(w) == "good" || ToLower(w) == "fluent") && LevelOf(levelRaw) != "Native" ==>
      LevelOf(levelRaw) == "Fluent"
  {
    ToLowerIncludes(levelRaw, w);
    var i: nat :| i <= |levelRaw| && OccursAt(levelRaw, w, i);
    if w != [] {
      assert levelRaw != "";
    } else {
      assert ToLower(w) == [];
    }
  }

  /** The level does not depend on the case of the description. */
  lemma LevelIgnoresCase(levelRaw: string)
    ensures LevelOf(ToLower(levelRaw)) == LevelOf(levelRaw)
  {
    ToLowerIdempotent(levelRaw);
  }

  datatype LanguageSkill = LanguageSkill(language: string, level: string)

  /**
   * One `Languages` entry such as "Urdu (Excellent)": the trimmed text before
   * the first " (" and the level of the text between it and the next " (".
   * A missing second piece is `undefined`, which is falsy like "".
   */
  function ParseLanguage(entry: string): LanguageSkill {
    var parts := Split(entry, " (");
    LanguageSkill(Trim(parts[0]), LevelOf(if |parts| >= 2 then parts[1] else ""))
  }

  function SkillValue(skill: LanguageSkill): Value {
    Obj(map["language" := Str(skill.language), "level" := Str(skill.level)])
  }

  /** An entry without " (" is a language at the "Intermediate" level. */
  lemma LanguageWithoutLevel(entry: string)
    requires !Includes(entry, " (")
    ensures ParseLanguage(entry) == LanguageSkill(Trim(entry), "Intermediate")
  {
    SplitWithoutSeparator(entry, " (");
  }

  /**
   * "language (description": the language is `language` trimmed and the level
   * is read from the description up to any further " (".
   */
  lemma LanguageWithLevel(language: string, description: string)
    requires !Includes(language, " (")
    ensures ParseLanguage(language + " (" + description) ==
      LanguageSkill(Trim(language), LevelOf(Split(description, " (")[0]))
  {
    var s := language + " (" + description;
    var n := |language|;
    assert OccursAt(s, " (", n) by {
      assert s[n..n + 2] == " (";
    }
    forall j: nat | j < n
      ensures !OccursAt(s, " (", j)
    {
      if j + 2 <= n {
        assert s[j..j + 2] == language[j..j + 2];
        assert !OccursAt(language, " (", j);
      } else {
        assert j + 1 == n && s[n] == ' ';
        assert s[j..j + 2][1] == s[j + 1];
      }
    }
    assert IndexOf(s, " (") == Some(n);
    assert s[..n] == language;
    assert s[n + 2..] == description;
    assert Split(s, " (") == [language] + Split(description, " (");
  }

  // ---------------------------------------------------------------------------
  // Comma-delimited lists and education entries

  /**
   * The rule for `ClientsOrDonors`, `TechnicalSectors` and `FunctionalAreas`:
   * a falsy value gives no items, an array passes through, and anything else
   * is rendered with `String`, split at every "," and each piece trimmed.
   */
  function SplitList(v: Value): (r: seq<Value>)
    ensures !Truthy(v) ==> r == []
    ensures v.Arr? ==> r == v.items
    ensures Truthy(v) && !v.Arr? ==> |r| >= 1 && IsStringArray(Arr(r))
  {
    if !Truthy(v) then []
    else if v.Arr? then v.items
    else StrValues(TrimAll(Split(ToJsString(v), ",")))
  }

  /**
   * The string form and the array form of a list agree: pieces that hold no
   * comma and no surrounding white space, joined with ",", split back into
   * themselves.
   */
  lemma CommaListSplitsBack(items: seq<string>)
    requires |items| >= 1 && items[0] != ""
    requires forall p :: p in items ==> ',' !in p && Trim(p) == p
    ensures SplitList(Str(Join(items, ","))) == StrValues(items)
  {
    var s := Join(items, ",");
    JoinStartsWithFirst(items, ",");
    ListOfString(s);
    SplitJoin(items, ',');
    TrimmedUnchanged(items);
  }

  /** The same pieces joined with ", " split back into themselves too. */
  lemma SpacedListSplitsBack(items: seq<string>)
    requires |items| >= 1 && items[0] != ""
    requires forall p :: p in items ==> ',' !in p && Trim(p) == p
    ensures SplitList(Str(Join(items, ", "))) == StrValues(items)
  {
    var s := Join(items, ", ");
    JoinStartsWithFirst(items, ", ");
    ListOfString(s);
    SpacedSplitsBack(items);
  }

  /** A non-empty string is split at "," and its pieces trimmed. */
  lemma ListOfString(s: string)
    requires s != ""
    ensures SplitList(Str(s)) == StrValues(TrimAll(Split(s, ",")))
  {
    assert ToJsString(Str(s)) == s;
  }

  /** A join starts with its first piece, so it is not empty when that piece is not. */
  lemma JoinStartsWithFirst(items: seq<string>, sep: string)
    requires |items| >= 1 && items[0] != ""
    ensures Join(items, sep) != ""
  {
    if |items| > 1 {
      assert Join(items, sep) == items[0] + sep + Join(items[1..], sep);
      assert |Join(items, sep)| >= |items[0]|;
    }
  }

  /** `parts[i]` as a value: `undefined` past the end. */
  function ValueAt(parts: seq<string>, i: nat): (v: Value)
    ensures i < |parts| ==> v == Str(parts[i])
    ensures i >= |parts| ==> v == Undefined
  {
    if i < |parts| then Str(parts[i]) else Undefined
  }

  /** One "Degree, Institution, Year" entry: its trimmed comma-separated parts by position. */
  function ParseEducation(q: string): Value {
    var parts := TrimAll(Split(q, ","));
    Obj(map["diploma" := ValueAt(parts, 0), "institution" := ValueAt(parts, 1), "to_date" := ValueAt(parts, 2)])
  }

  /** Three comma-free parts give the diploma, the institution and the date, each trimmed. */
  lemma EducationFields(degree: string, institution: string, year: string)
    requires ',' !in degree && ',' !in institution && ',' !in year
    ensures ParseEducation(degree + "," + institution + "," + year) ==
      Obj(map["diploma" := Str(Trim(degree)), "institution" := Str(Trim(institution)), "to_date" := Str(Trim(year))])
  {
    var parts := [degree, institution, year];
    assert Join(parts, ",") == degree + "," + institution + "," + year by {
      assert Join(parts[2..], ",") == year;
      assert Join(parts[1..], ",") == institution + "," + year;
    }
    SplitJoin(parts, ',');
  }

  /** An entry without a comma is a diploma alone: no institution and no date. */
  lemma EducationWithoutComma(q: string)
    requires ',' !in q
    ensures ParseEducation(q) == Obj(map["diploma" := Str(Trim(q)), "institution" := Undefined, "to_date" := Undefined])
  {
    NoCharNoOccurrence(q, ',');
    SplitWithoutSeparator(q, ",");
  }

  // ---------------------------------------------------------------------------
  // The normalised record

  /** The snake_case record the preview works from (`normalized`). */
  datatype Normalized = Normalized(
    firstName: Value, familyName: Value, gender: Value, dateOfBirth: Value, residenceCity: Value,
    email: Value, phone: Value, socialMedia: Value, lastCvUpdate: Value,
    yearsOfExperience: Value, roleExperience: Value,
    nationality: Value, languageSkills: Value, specificExperienceInRegion: Value,
    clientsDonors: Value, technicalSectors: Value, functionalAreas: Value,
    education: Value)

  /** The shapes the normaliser needs of the properties whose methods it calls. */
  predicate Normalizable(parsed: Value) {
    && Truthy(parsed)
    && (Truthy(Field(parsed, "Name")) ==> Field(parsed, "Name").Str?)
    && (Truthy(Field(parsed, "Nationalities")) ==> Field(parsed, "Nationalities").Arr?)
    && (Truthy(Field(parsed, "Languages")) ==> IsStringArray(Field(parsed, "Languages")))
    && (Truthy(Field(parsed, "CountriesOfWork")) ==> Field(parsed, "CountriesOfWork").Arr?)
    && (Truthy(Field(parsed, "AcademicQualifications")) ==> IsStringArray(Field(parsed, "AcademicQualifications")))
  }

  /** `first_name`: the text of `Name` before its first space, else `first_name || ""`. */
  function FirstName(parsed: Value): Value
    requires Normalizable(parsed)
  {
    var name := Field(parsed, "Name");
    if Truthy(name) then Str(Split(name.s, " ")[0]) else Or(Field(parsed, "first_name"), Str(""))
  }

  /** `family_name`: the other space-separated words of `Name`, else `family_name || ""`. */
  function FamilyName(parsed: Value): Value
    requires Normalizable(parsed)
  {
    var name := Field(parsed, "Name");
    if Truthy(name) then Str(Join(Split(name.s, " ")[1..], " ")) else Or(Field(parsed, "family_name"), Str(""))
  }

  /** `nationality`: the `Nationalities` joined with ", ", else `nationality || ""`. */
  function Nationality(parsed: Value): Value
    requires Normalizable(parsed)
  {
    var nationalities := Field(parsed, "Nationalities");
    if Truthy(nationalities) then Str(JoinValues(nationalities.items, ", "))
    else Or(Field(parsed, "nationality"), Str(""))
  }

  /** `language_skills`: every `Languages` entry parsed, else `language_skills || []`. */
  function LanguageSkills(parsed: Value): Value
    requires Normalizable(parsed)
  {
    var languages := Field(parsed, "Languages");
    if Truthy(languages)
    then Arr(seq(|languages.items|, k requires 0 <= k < |languages.items| =>
               SkillValue(ParseLanguage(languages.items[k].s))))
    else Or(Field(parsed, "language_skills"), Arr([]))
  }

  /** `specific_experience_in_region`: `{country}` per `CountriesOfWork` element, else the snake_case list. */
  function Region(parsed: Value): Value
    requires Normalizable(parsed)
  {
    var countries := Field(parsed, "CountriesOfWork");
    if Truthy(countries)
    then Arr(seq(|countries.items|, k requires 0 <= k < |countries.items| => Obj(map["country" := countries.items[k]])))
    else Or(Field(parsed, "specific_experience_in_region"), Arr([]))
  }

  /** `education`: every `AcademicQualifications` entry parsed, else `education || []`. */
  function Education(parsed: Value): Value
    requires Normalizable(parsed)
  {
    var qualifications := Field(parsed, "AcademicQualifications");
    if Truthy(qualifications)
    then Arr(seq(|qualifications.items|, k requires 0 <= k < |qualifications.items| =>
               ParseEducation(qualifications.items[k].s)))
    else Or(Field(parsed, "education"), Arr([]))
  }

  function Normalize(parsed: Value): (n: Normalized)
    requires Normalizable(parsed)
    ensures Truthy(Field(parsed, "Name")) ==> n.firstName.Str? && n.familyName.Str?
    ensures n.clientsDonors.Arr? && n.technicalSectors.Arr? && n.functionalAreas.Arr?
    ensures Truthy(Field(parsed, "Nationalities")) ==> n.nationality.Str?
  {
    Normalized(
      firstName := FirstName(parsed),
      familyName := FamilyName(parsed),
      gender := Pick(parsed, "Gender", "gender", Str("")),
      dateOfBirth := Pick(parsed, "DOB", "date_of_birth", Str("")),
      residenceCity := Pick(parsed, "Location", "residence_city", Str("")),
      email := Pick(parsed, "Email", "email", Str("")),
      phone := Pick(parsed, "Phone", "phone", Str("")),
      socialMedia := Pick(parsed, "SocialMedia", "social_media", Str("")),
      lastCvUpdate := Pick(parsed, "LastCVUpdate", "last_cv_update", Str("")),
      yearsOfExperience := Pick(parsed, "YearsOfExperience", "years_of_experience", Str("")),
      roleExperience := Pick(parsed, "RoleExperience", "role_experience", Arr([])),
      nationality := Nationality(parsed),
      languageSkills := LanguageSkills(parsed),
      specificExperienceInRegion := Region(parsed),
      clientsDonors := Arr(SplitList(Field(parsed, "ClientsOrDonors"))),
      technicalSectors := Arr(SplitList(Field(parsed, "TechnicalSectors"))),
      functionalAreas := Arr(SplitList(Field(parsed, "FunctionalAreas"))),
      education := Education(parsed))
  }

  /**
   * A `Name` splits at its first space: the first name has no space, and the
   * first name, a space and the family name give the `Name` back; a `Name`
   * without a space is all first name.
   */
  lemma NameSplitting(parsed: Value, s: string)
    requires Normalizable(parsed) && Field(parsed, "Name") == Str(s) && s != ""
    ensures FirstName(parsed).Str? && FamilyName(parsed).Str?
    ensures Includes(s, " ") ==>
      !Includes(FirstName(parsed).s, " ") && FirstName(parsed).s + " " + FamilyName(parsed).s == s
    ensures !Includes(s, " ") ==> FirstName(parsed) == Str(s) && FamilyName(parsed) == Str("")
  {
    if Includes(s, " ") {
      SplitHeadTail(s, " ");
      SplitPiecesFree(s, " ");
      assert Split(s, " ")[0] in Split(s, " ");
    } else {
      SplitWithoutSeparator(s, " ");
    }
  }

  // ---------------------------------------------------------------------------
  // The preview panels

  datatype Personal = Personal(name: string, gender: Value, dateOfBirth: Value, location: Value,
                               email: Value, phone: Value, socialMedia: Value, lastUpdate: Value)
  datatype Professional = Professional(yearsOfExperience: string, roleExperience: Value)
  datatype Geographic = Geographic(nationalities: seq<string>, languages: seq<Value>, countriesOfWork: seq<Value>)
  datatype Experience = Experience(clientsDonors: seq<Value>, technicalSectors: seq<Value>, functionalAreas: seq<Value>)
  datatype Qualification = Qualification(degree: Value, institution: Value, year: string)
  datatype CvPreview = CvPreview(personal: Personal, professional: Professional, geographic: Geographic,
                                 experience: Experience, education: seq<Qualification>)

  /** `xs.filter(Boolean)`. */
  function TruthyOnly(xs: seq<Value>): (r: seq<Value>)
    ensures |r| <= |xs|
    ensures forall k :: 0 <= k < |r| ==> Truthy(r[k]) && r[k] in xs
    ensures forall x :: x in xs && Truthy(x) ==> x in r
  {
    if xs == [] then [] else (if Truthy(xs[0]) then [xs[0]] else []) + TruthyOnly(xs[1..])
  }

  /** The full name shown: the truthy ones of first and family name joined by a space. */
  function DisplayName(firstName: Value, familyName: Value): string {
    JoinValues(TruthyOnly([firstName, familyName]), " ")
  }

  /** `years ? `${years} years` : ""`. */
  function YearsText(years: Value): string {
    if Truthy(years) then ToJsString(years) + " years" else ""
  }

  /** The nationalities shown: `nationality` split at "," and trimmed. */
  function NationalityList(nationality: Value): seq<string>
    requires Truthy(nationality) ==> nationality.Str?
  {
    if Truthy(nationality) then TrimAll(Split(nationality.s, ",")) else []
  }

  /** The languages shown: `language_skills` when it is an array. */
  function LanguageList(skills: Value): seq<Value> {
    if skills.Arr? then skills.items else []
  }

  /** The countries shown: the `country` of each region entry. */
  function CountryList(region: Value): (r: seq<Value>)
    requires region.Arr? ==> forall k :: 0 <= k < |region.items| ==> !Nullish(region.items[k])
  {
    if region.Arr? then seq(|region.items|, k requires 0 <= k < |region.items| => Prop(region.items[k], "country"))
    else []
  }

  /** `e.to_date ? String(e.to_date).slice(0, 4) : ""`. */
  function Year(toDate: Value): (y: string)
    ensures |y| <= 4
    ensures !Truthy(toDate) ==> y == ""
    ensures Truthy(toDate) ==> y <= ToJsString(toDate)
    ensures Truthy(toDate) ==> |y| == (if |ToJsString(toDate)| < 4 then |ToJsString(toDate)| else 4)
  {
    if Truthy(toDate) then Take(ToJsString(toDate), 4) else ""
  }

  /** The qualifications shown: degree, institution and year of each education entry. */
  function QualificationList(education: Value): seq<Qualification>
    requires education.Arr? ==> forall k :: 0 <= k < |education.items| ==> !Nullish(education.items[k])
  {
    if education.Arr? then
      seq(|education.items|, k requires 0 <= k < |education.items| =>
        Qualification(Prop(education.items[k], "diploma"), Prop(education.items[k], "institution"),
                      Year(Prop(education.items[k], "to_date"))))
    else []
  }

  /** The shapes the panels need of the normalised record. */
  predicate Displayable(n: Normalized) {
    && (Truthy(n.nationality) ==> n.nationality.Str?)
    && (n.specificExperienceInRegion.Arr? ==>
          forall k :: 0 <= k < |n.specificExperienceInRegion.items| ==> !Nullish(n.specificExperienceInRegion.items[k]))
    && (n.education.Arr? ==> forall k :: 0 <= k < |n.education.items| ==> !Nullish(n.education.items[k]))
  }

  /** The `personal`, `professional`, `geographic`, `experience` and `education` panels. */
  function View(n: Normalized): CvPreview
    requires Displayable(n)
  {
    CvPreview(
      Personal(DisplayName(n.firstName, n.familyName), Or(n.gender, Str("")), Or(n.dateOfBirth, Str("")),
               Or(n.residenceCity, Str("")), Or(n.email, Str("")), Or(n.phone, Str("")),
               Or(n.socialMedia, Str("")), Or(n.lastCvUpdate, Str(""))),
      Professional(YearsText(n.yearsOfExperience), Or(n.roleExperience, Arr([]))),
      Geographic(NationalityList(n.nationality), LanguageList(n.languageSkills),
                 CountryList(n.specificExperienceInRegion)),
      Experience(SplitList(n.clientsDonors), SplitList(n.technicalSectors), SplitList(n.functionalAreas)),
      QualificationList(n.education))
  }

  /** `CVDataPreview`: `None` is the "No data available." placeholder for a falsy record. */
  function Preview(parsed: Value): (r: Option<CvPreview>)
    requires Truthy(parsed) ==> Normalizable(parsed) && Displayable(Normalize(parsed))
    ensures r.None? <==> !Truthy(parsed)
  {
    if !Truthy(parsed) then None else Some(View(Normalize(parsed)))
  }

  /**
   * The name shown for a `Name`: the name itself when it has no space or
   * splits into two non-empty parts; the family part alone after a leading
   * space, and the first part alone before a trailing one.
   */
  lemma DisplayedNameIsName(parsed: Value, s: string)
    requires Normalizable(parsed) && Field(parsed, "Name") == Str(s) && s != ""
    ensures !Includes(s, " ") ==> DisplayName(FirstName(parsed), FamilyName(parsed)) == s
    ensures Includes(s, " ") && Split(s, " ")[0] != "" && Join(Split(s, " ")[1..], " ") != "" ==>
      DisplayName(FirstName(parsed), FamilyName(parsed)) == s
    ensures Split(s, " ")[0] == "" ==>
      DisplayName(FirstName(parsed), FamilyName(parsed)) == Join(Split(s, " ")[1..], " ")
    ensures Join(Split(s, " ")[1..], " ") == "" ==>
      DisplayName(FirstName(parsed), FamilyName(parsed)) == Split(s, " ")[0]
  {
    NameSplitting(parsed, s);
    DisplayNameOfParts(FirstName(parsed).s, FamilyName(parsed).s);
  }

  /** `[first, family].filter(Boolean).join(" ")`: the non-empty parts, with a space between two. */
  lemma DisplayNameOfParts(first: string, family: string)
    ensures DisplayName(Str(first), Str(family)) ==
      if first == "" then family else if family == "" then first else first + " " + family
  {
    var kept := (if first != "" then [first] else []) + (if family != "" then [family] else []);
    assert TruthyOnly([Str(first), Str(family)]) == StrValues(kept);
    JoinStrValues(kept, " ");
    if first != "" && family != "" {
      assert Join(kept, " ") == first + " " + family;
    }
  }

  /**
   * Nationalities survive the trip through `normalized.nationality`: joined
   * with ", " and split again at ",", a list of trimmed comma-free names
   * gives back the same names.
   */
  lemma NationalitiesRoundTrip(parsed: Value, names: seq<string>)
    requires Normalizable(parsed)
    requires Field(parsed, "Nationalities") == Arr(StrValues(names))
    requires |names| >= 1 && names[0] != ""
    requires forall p :: p in names ==> ',' !in p && Trim(p) == p
    ensures NationalityList(Nationality(parsed)) == names
  {
    JoinStrValues(names, ", ");
    SpacedSplitsBack(names);
    JoinStartsWithFirst(names, ", ");
  }

  /** `CountriesOfWork` is shown back as it came, one country per element. */
  lemma CountriesRoundTrip(parsed: Value)
    requires Normalizable(parsed)
    requires Truthy(Field(parsed, "CountriesOfWork"))
    ensures CountryList(Region(parsed)) == Field(parsed, "CountriesOfWork").items
  {
    var countries := Field(parsed, "CountriesOfWork").items;
    var shown := CountryList(Region(parsed));
    forall k | 0 <= k < |countries| ensures shown[k] == countries[k] {
      assert Region(parsed).items[k] == Obj(map["country" := countries[k]]);
    }
  }

  /**
   * The experience panel shows the normalised lists as they are: the list
   * rule applied a second time finds an array and passes it through.
   */
  lemma ListRuleStable(v: Value)
    ensures SplitList(Arr(SplitList(v))) == SplitList(v)
  {
  }

  /**
   * An `AcademicQualifications` entry "Degree, Institution, Year" is shown as
   * that degree and institution, trimmed, with the first four characters of
   * the trimmed year.
   */
  lemma EducationShown(parsed: Value, k: nat, degree: string, institution: string, year: string)
    requires Normalizable(parsed)
    requires Truthy(Field(parsed, "AcademicQualifications"))
    requires k < |Field(parsed, "AcademicQualifications").items|
    requires Field(parsed, "AcademicQualifications").items[k] == Str(degree + "," + institution + "," + year)
    requires ',' !in degree && ',' !in institution && ',' !in year
    ensures k < |QualificationList(Education(parsed))|
    ensures QualificationList(Education(parsed))[k] ==
      Qualification(Str(Trim(degree)), Str(Trim(institution)), Take(Trim(year), 4))
  {
    var entry := Education(parsed).items[k];
    assert entry == ParseEducation(degree + "," + institution + "," + year);
    EducationFields(degree, institution, year);
    assert QualificationList(Education(parsed))[k] ==
      Qualification(Prop(entry, "diploma"), Prop(entry, "institution"), Year(Prop(entry, "to_date")));
  }

  /** Every `Languages` entry is shown as its parsed language and level, in order. */
  lemma LanguagesShown(parsed: Value)
    requires Normalizable(parsed)
    requires Truthy(Field(parsed, "Languages"))
    ensures var entries := Strings(Field(parsed, "Languages")); var shown := LanguageList(LanguageSkills(parsed));
      |shown| == |entries| && forall k :: 0 <= k < |entries| ==> shown[k] == SkillValue(ParseLanguage(entries[k]))
  {
  }
}
