/**
 * The Europass formatting page, `src/app/europass-formatting/page.tsx`: the
 * date and language-level helpers, the record handed to the `.docx` template,
 * and the tracked file list with its upload, processing and removal steps.
 *
 * `toLocaleDateString` depends on the browser's locale and clock, so it is a
 * parameter (`Locale`). The upstream parser is a parameter too: `backend(i)`
 * is the response to the i-th request of a processing run.
 */
module Europass {
  import opened Wrappers
  import opened JsStrings
  import opened JsValues
  import opened Uploads

  // ---------------------------------------------------------------------------
  // Dates and language levels

  /** `new Date(d).toLocaleDateString()` for an ISO date, and `new Date().toLocaleDateString()`. */
  datatype Locale = Locale(formatDate: string -> string, today: string)

  /** `/^\d{4}-\d{2}-\d{2}$/`: four digits, a dash, two digits, a dash, two digits, nothing else. */
  predicate IsIsoDate(s: string) {
    && |s| == 10
    && IsDigit(s[0]) && IsDigit(s[1]) && IsDigit(s[2]) && IsDigit(s[3])
    && s[4] == '-' && IsDigit(s[5]) && IsDigit(s[6])
    && s[7] == '-' && IsDigit(s[8]) && IsDigit(s[9])
  }

  /**
   * `formatDate`: "Not specified" for a missing or empty date, the locale's
   * rendering of a full ISO date, and any other text as it is.
   */
  function FormatDate(date: Option<string>, locale: Locale): (r: string)
    ensures date.None? || date.value == "" ==> r == "Not specified"
    ensures date.Some? && date.value != "" && !IsIsoDate(date.value) ==> r == date.value
    ensures date.Some? && IsIsoDate(date.value) ==> r == locale.formatDate(date.value)
  {
    if date.None? || date.value == "" then "Not specified"
    else if IsIsoDate(date.value) then locale.formatDate(date.value)
    else date.value
  }

  /** A year, a year and month, or a word such as "present" is shown as written. */
  lemma PartialDatesKept(date: string, locale: Locale)
    requires date != "" && |date| != 10
    ensures FormatDate(Some(date), locale) == date
  {
  }

  /** The five level names, indexed by the level number. */
  const LevelNames: seq<string> := ["Beginner", "Elementary", "Intermediate", "Advanced", "Proficient"]

  /** `levels[level] || "Unknown"`. */
  function LanguageLevel(level: int): (name: string)
    ensures 0 <= level < 5 ==> name == LevelNames[level]
    ensures !(0 <= level < 5) ==> name == "Unknown"
  {
    if 0 <= level < |LevelNames| then LevelNames[level] else "Unknown"
  }

  /**
   * The level name determines the level: distinct levels 0 to 4 have distinct
   * names, none of which is "Unknown".
   */
  lemma LanguageLevelInjective(a: int, b: int)
    requires LanguageLevel(a) == LanguageLevel(b)
    ensures a == b || (!(0 <= a < 5) && !(0 <= b < 5))
  {
    if 0 <= a < 5 && 0 <= b < 5 {
      assert LevelNames[a] == LevelNames[b];
    }
  }

  // ---------------------------------------------------------------------------
  // The parsed record and the template data

  datatype EducationEntry = EducationEntry(institution: string, fromDate: Option<string>, toDate: Option<string>, diploma: string)
  datatype LanguageEntry = LanguageEntry(language: string, reading: int, speaking: int, writing: int)
  datatype RegionEntry = RegionEntry(country: string, fromDate: Option<string>, toDate: Option<string>)
  datatype ExperienceEntry = ExperienceEntry(
    fromDate: Option<string>, toDate: Option<string>, location: string,
    companyReferencePerson: string, position: string, description: string)

  /** `EuropassResult.parsed`; `training` is untyped in the source and holds arbitrary values. */
  datatype Parsed = Parsed(
    proposedRole: string, familyName: string, firstName: string, dateOfBirth: Option<string>,
    nationality: string, civilStatus: Option<string>, residenceCity: string,
    education: seq<EducationEntry>, training: seq<Value>, languageSkills: seq<LanguageEntry>,
    membershipProfessionalBodies: string, otherSkills: string, presentPosition: string,
    yearsWithinFirm: Option<string>, specificExperienceInRegion: seq<RegionEntry>,
    professionalExperience: seq<ExperienceEntry>, publications: string,
    signatureName: Option<string>, signatureDate: Option<string>)

  datatype EducationRow = EducationRow(period: string, institution: string, diploma: string)
  datatype TrainingRow = TrainingRow(period: Value, topic: Value, provider: Value)
  datatype LanguageRow = LanguageRow(language: string, read: string, speak: string, write: string)
  datatype RegionRow = RegionRow(country: string, period: string)
  datatype ExperienceRow = ExperienceRow(period: string, location: string, company: string, position: string, description: string)

  /** The `templateData` object handed to `doc.render`. */
  datatype TemplateData = TemplateData(
    proposedRole: string, familyName: string, firstName: string, dateOfBirth: string,
    nationality: string, civilStatus: string, residenceCity: string,
    education: seq<EducationRow>, training: seq<TrainingRow>, languages: seq<LanguageRow>,
    membershipProfessionalBodies: string, otherSkills: string, presentPosition: string,
    yearsWithinFirm: string, regionExperience: seq<RegionRow>,
    professionalExperience: seq<ExperienceRow>, publications: string,
    signatureName: string, signatureDate: string)

  /** `s || fallback` for a string that may be `null`. */
  function OrText(s: Option<string>, fallback: string): (r: string)
    ensures s.Some? && s.value != "" ==> r == s.value
    ensures s.None? || s.value == "" ==> r == fallback
  {
    if s.Some? && s.value != "" then s.value else fallback
  }

  /** `${formatDate(from)} - ${formatDate(to)}`. */
  function Period(fromDate: Option<string>, toDate: Option<string>, locale: Locale): string {
    FormatDate(fromDate, locale) + " - " + FormatDate(toDate, locale)
  }

  /** The row shown when there is no training data. */
  const NoTraining := TrainingRow(Str("N/A"), Str("No training data available"), Str(""))

  /** `train.period || ""` and so on: reading a property of `null` or `undefined` throws. */
  predicate TrainingReadable(p: Parsed) {
    forall k :: 0 <= k < |p.training| ==> !Nullish(p.training[k])
  }

  function TrainingRows(training: seq<Value>): seq<TrainingRow>
    requires forall k :: 0 <= k < |training| ==> !Nullish(training[k])
  {
    if |training| > 0 then
      seq(|training|, k requires 0 <= k < |training| =>
        TrainingRow(Or(Prop(training[k], "period"), Str("")), Or(Prop(training[k], "topic"), Str("")),
                    Or(Prop(training[k], "provider"), Str(""))))
    else [NoTraining]
  }

  function EducationRows(education: seq<EducationEntry>, locale: Locale): seq<EducationRow> {
    seq(|education|, k requires 0 <= k < |education| =>
      EducationRow(Period(education[k].fromDate, education[k].toDate, locale), education[k].institution, education[k].diploma))
  }

  function LanguageRows(skills: seq<LanguageEntry>): seq<LanguageRow> {
    seq(|skills|, k requires 0 <= k < |skills| =>
      LanguageRow(skills[k].language, IntToString(skills[k].reading), IntToString(skills[k].speaking),
                  IntToString(skills[k].writing)))
  }

  function RegionRows(regions: seq<RegionEntry>, locale: Locale): seq<RegionRow> {
    seq(|regions|, k requires 0 <= k < |regions| =>
      RegionRow(regions[k].country, Period(regions[k].fromDate, regions[k].toDate, locale)))
  }

  function ExperienceRows(experience: seq<ExperienceEntry>, locale: Locale): seq<ExperienceRow> {
    seq(|experience|, k requires 0 <= k < |experience| =>
      ExperienceRow(Period(experience[k].fromDate, experience[k].toDate, locale), experience[k].location,
                    OrText(Some(experience[k].companyReferencePerson), "N/A"), experience[k].position,
                    experience[k].description))
  }

  /** The `templateData` construction of `downloadEuropassCVWithTemplate`. */
  function BuildTemplateData(p: Parsed, locale: Locale): TemplateData
    requires TrainingReadable(p)
  {
    TemplateData(
      proposedRole := OrText(Some(p.proposedRole), ""),
      familyName := OrText(Some(p.familyName), ""),
      firstName := OrText(Some(p.firstName), ""),
      dateOfBirth := OrText(p.dateOfBirth, ""),
      nationality := OrText(Some(p.nationality), ""),
      civilStatus := OrText(p.civilStatus, ""),
      residenceCity := OrText(Some(p.residenceCity), ""),
      education := EducationRows(p.education, locale),
      training := TrainingRows(p.training),
      languages := LanguageRows(p.languageSkills),
      membershipProfessionalBodies := OrText(Some(p.membershipProfessionalBodies), "N/A"),
      otherSkills := OrText(Some(p.otherSkills), "N/A"),
      presentPosition := OrText(Some(p.presentPosition), ""),
      yearsWithinFirm := OrText(p.yearsWithinFirm, "N/A"),
      regionExperience := RegionRows(p.specificExperienceInRegion, locale),
      professionalExperience := ExperienceRows(p.professionalExperience, locale),
      publications := OrText(Some(p.publications), "N/A"),
      signatureName := OrText(p.signatureName, p.firstName + " " + p.familyName),
      signatureDate := OrText(p.signatureDate, locale.today))
  }

  /**
   * The training table is never empty: no training gives exactly the single
   * "No training data available" row, and otherwise there is one row per
   * entry, in order, with each missing or falsy property shown as "".
   */
  lemma TrainingTable(p: Parsed, locale: Locale)
    requires TrainingReadable(p)
    ensures var rows := BuildTemplateData(p, locale).training;
      && (|p.training| == 0 ==> rows == [TrainingRow(Str("N/A"), Str("No training data available"), Str(""))])
      && (|p.training| > 0 ==> |rows| == |p.training|)
      && forall k :: 0 <= k < |p.training| ==>
           && rows[k].period == Or(Prop(p.training[k], "period"), Str(""))
           && rows[k].topic == Or(Prop(p.training[k], "topic"), Str(""))
           && rows[k].provider == Or(Prop(p.training[k], "provider"), Str(""))
    ensures |BuildTemplateData(p, locale).training| >= 1
  {
  }

  /**
   * The fields with an "N/A" default, the experience companies and the
   * signature name are never blank; a non-empty source text is kept as it is.
   */
  lemma NoBlankDefaults(p: Parsed, locale: Locale)
    requires TrainingReadable(p)
    ensures var t := BuildTemplateData(p, locale);
      && t.membershipProfessionalBodies != "" && t.otherSkills != "" && t.yearsWithinFirm != ""
      && t.publications != "" && t.signatureName != ""
      && (forall k :: 0 <= k < |t.professionalExperience| ==> t.professionalExperience[k].company != "")
    ensures var t := BuildTemplateData(p, locale);
      && (p.membershipProfessionalBodies != "" ==> t.membershipProfessionalBodies == p.membershipProfessionalBodies)
      && (p.otherSkills != "" ==> t.otherSkills == p.otherSkills)
      && (p.publications != "" ==> t.publications == p.publications)
      && (p.yearsWithinFirm.Some? && p.yearsWithinFirm.value != "" ==> t.yearsWithinFirm == p.yearsWithinFirm.value)
  {
    var t := BuildTemplateData(p, locale);
    assert |p.firstName + " " + p.familyName| >= 1;
    forall k | 0 <= k < |t.professionalExperience| ensures t.professionalExperience[k].company != "" {
      assert t.professionalExperience[k].company == OrText(Some(p.professionalExperience[k].companyReferencePerson), "N/A");
    }
  }

  /** Without a signature name the document is signed with the first and family name. */
  lemma SignatureFallback(p: Parsed, locale: Locale)
    requires TrainingReadable(p)
    requires p.signatureName.None? || p.signatureName.value == ""
    ensures BuildTemplateData(p, locale).signatureName == p.firstName + " " + p.familyName
  {
  }

  /**
   * Education, region and experience entries become rows one to one and in
   * order, each with the period "from - to" of its two formatted dates.
   */
  lemma RowsFollowEntries(p: Parsed, locale: Locale)
    requires TrainingReadable(p)
    ensures var t := BuildTemplateData(p, locale);
      && |t.education| == |p.education|
      && (forall k :: 0 <= k < |p.education| ==>
            t.education[k] == EducationRow(FormatDate(p.education[k].fromDate, locale) + " - " +
                                           FormatDate(p.education[k].toDate, locale),
                                           p.education[k].institution, p.education[k].diploma))
      && |t.regionExperience| == |p.specificExperienceInRegion|
      && (forall k :: 0 <= k < |p.specificExperienceInRegion| ==>
            t.regionExperience[k] == RegionRow(p.specificExperienceInRegion[k].country,
              FormatDate(p.specificExperienceInRegion[k].fromDate, locale) + " - " +
              FormatDate(p.specificExperienceInRegion[k].toDate, locale)))
      && |t.professionalExperience| == |p.professionalExperience|
      && (forall k :: 0 <= k < |p.professionalExperience| ==>
            && t.professionalExperience[k].period ==
                 FormatDate(p.professionalExperience[k].fromDate, locale) + " - " +
                 FormatDate(p.professionalExperience[k].toDate, locale)
            && t.professionalExperience[k].location == p.professionalExperience[k].location
            && t.professionalExperience[k].position == p.professionalExperience[k].position
            && t.professionalExperience[k].description == p.professionalExperience[k].description)
  {
  }

  /** The language scores are written as decimal numbers that read back as the scores. */
  lemma LanguageScoresReadBack(p: Parsed, locale: Locale, k: nat)
    requires TrainingReadable(p)
    requires k < |p.languageSkills|
    requires p.languageSkills[k].reading >= 0 && p.languageSkills[k].speaking >= 0 && p.languageSkills[k].writing >= 0
    ensures var row := BuildTemplateData(p, locale).languages[k];
      && row.language == p.languageSkills[k].language
      && AllDigits(row.read) && ParseDigits(row.read) == p.languageSkills[k].reading
      && AllDigits(row.speak) && ParseDigits(row.speak) == p.languageSkills[k].speaking
      && AllDigits(row.write) && ParseDigits(row.write) == p.languageSkills[k].writing
  {
    var e := p.languageSkills[k];
    var row := BuildTemplateData(p, locale).languages[k];
    assert row == LanguageRow(e.language, IntToString(e.reading), IntToString(e.speaking), IntToString(e.writing));
    ParseNatToString(e.reading);
    ParseNatToString(e.speaking);
    ParseNatToString(e.writing);
  }

  // ---------------------------------------------------------------------------
  // Tracked files

  /** What an `UploadedFile` holds beyond the shared entry fields. */
  datatype EuropassDetail = EuropassDetail(result: Option<Parsed>, error: Option<string>)

  const Fresh := EuropassDetail(None, None)

  datatype ProcessedRecord = ProcessedRecord(filename: string, parsed: Parsed)
  datatype ErrorRecord = ErrorRecord(filename: string, error: string)

  /** A response of the Europass parser; a missing list is the empty list. */
  datatype ParseResponse = ParseResponse(processed: seq<ProcessedRecord>, errors: seq<ErrorRecord>)

  /** What `downloadEuropassCVWithTemplate` does with an entry. */
  datatype Download =
    | NoResult                    // no result yet: it returns at once
    | RenderError                 // a training entry cannot be read: the error toast
    | Rendered(data: TemplateData)

  /**
   * A download without a result does nothing; a result whose training cannot be
   * read ends in the error toast; any other result renders its template data.
   */
  function DownloadFor(entry: Entry<EuropassDetail>, locale: Locale): (r: Download)
    ensures entry.detail.result.None? <==> r.NoResult?
    ensures r.Rendered? ==> TrainingReadable(entry.detail.result.value) && r.data == BuildTemplateData(entry.detail.result.value, locale)
    ensures entry.detail.result.Some? ==> (r.RenderError? <==> !TrainingReadable(entry.detail.result.value))
    ensures entry.detail.result.Some? && TrainingReadable(entry.detail.result.value) ==>
      r == Rendered(BuildTemplateData(entry.detail.result.value, locale))
  {
    if entry.detail.result.None? then NoResult
    else if !TrainingReadable(entry.detail.result.value) then RenderError
    else Rendered(BuildTemplateData(entry.detail.result.value, locale))
  }

  /** Every tracked file's progress is at most 100. */
  predicate ProgressBounded(entries: seq<Entry<EuropassDetail>>) {
    forall k :: 0 <= k < |entries| ==> entries[k].progress <= 100
  }

  /** One tick of the simulated upload: `progress: Math.min(f.progress + 10, 100)` for that id. */
  function Tick(entries: seq<Entry<EuropassDetail>>, id: string): seq<Entry<EuropassDetail>> {
    UpdateWhere(entries, (f: Entry<EuropassDetail>) => f.id == id,
      (f: Entry<EuropassDetail>) => f.(progress := if f.progress + 10 < 100 then f.progress + 10 else 100))
  }

  /** The end of the simulated upload: that id is completed at 100. */
  function FinishUpload(entries: seq<Entry<EuropassDetail>>, id: string): seq<Entry<EuropassDetail>> {
    UpdateWhere(entries, (f: Entry<EuropassDetail>) => f.id == id,
      (f: Entry<EuropassDetail>) => f.(status := Completed, progress := 100))
  }

  /** The tick raises the progress of that id by 10, never beyond 100, and touches nothing else. */
  lemma TickEffect(entries: seq<Entry<EuropassDetail>>, id: string, k: nat)
    requires k < |entries|
    ensures |Tick(entries, id)| == |entries|
    ensures entries[k].id != id ==> Tick(entries, id)[k] == entries[k]
    ensures entries[k].id == id && entries[k].progress <= 90 ==>
      Tick(entries, id)[k] == entries[k].(progress := entries[k].progress + 10)
    ensures entries[k].id == id && entries[k].progress >= 90 ==>
      Tick(entries, id)[k] == entries[k].(progress := 100)
  {
  }

  /** `uploadedFiles.filter(f => f.status === "completed" && !f.result)`. */
  function Selected(entries: seq<Entry<EuropassDetail>>): (r: seq<Entry<EuropassDetail>>)
    ensures |r| <= |entries|
    ensures forall f :: f in r <==> f in entries && f.status == Completed && f.detail.result.None?
  {
    if entries == [] then []
    else (if entries[0].status == Completed && entries[0].detail.result.None? then [entries[0]] else [])
         + Selected(entries[1..])
  }

  /** `inputFiles.find(file => file.name === name)`: the first input file with that name. */
  function FindByName(inputs: seq<FileInfo>, name: string): (r: Option<FileInfo>)
    ensures r.Some? ==> r.value in inputs && r.value.name == name
    ensures r.Some? ==>
      exists k :: 0 <= k < |inputs| && inputs[k] == r.value && (forall j :: 0 <= j < k ==> inputs[j].name != name)
    ensures r.None? ==> forall k :: 0 <= k < |inputs| ==> inputs[k].name != name
  {
    match FindFirst(inputs, (f: FileInfo) => f.name, name)
    case Some(k) => Some(inputs[k])
    case None => None
  }

  /** `filesForApi`: the input file of each selected entry's name, where there is one, in order. */
  function FilesForApi(selected: seq<Entry<EuropassDetail>>, inputs: seq<FileInfo>): (r: seq<FileInfo>)
    ensures |r| <= |selected|
  {
    if selected == [] then []
    else
      (match FindByName(inputs, selected[0].name) case Some(f) => [f] case None => [])
      + FilesForApi(selected[1..], inputs)
  }

  /**
   * The files sent are input files, each named after a selected entry, and
   * every selected entry whose name some input file has is sent.
   */
  lemma {:induction false} FilesForApiSound(selected: seq<Entry<EuropassDetail>>, inputs: seq<FileInfo>)
    ensures forall f :: f in FilesForApi(selected, inputs) ==>
      f in inputs && exists j :: 0 <= j < |selected| && selected[j].name == f.name
    ensures forall j :: 0 <= j < |selected| && FindByName(inputs, selected[j].name).Some? ==>
      FindByName(inputs, selected[j].name).value in FilesForApi(selected, inputs)
    decreases |selected|
  {
    if selected != [] {
      FilesForApiSound(selected[1..], inputs);
      var head := match FindByName(inputs, selected[0].name) case Some(f) => [f] case None => [];
      assert FilesForApi(selected, inputs) == head + FilesForApi(selected[1..], inputs);
      forall f | f in FilesForApi(selected, inputs)
        ensures f in inputs && exists j :: 0 <= j < |selected| && selected[j].name == f.name
      {
        if f in head {
          assert selected[0].name == f.name;
        } else {
          var j :| 0 <= j < |selected[1..]| && selected[1..][j].name == f.name;
          assert selected[j + 1].name == f.name;
        }
      }
      forall j | 0 <= j < |selected| && FindByName(inputs, selected[j].name).Some?
        ensures FindByName(inputs, selected[j].name).value in FilesForApi(selected, inputs)
      {
        if j > 0 {
          assert selected[1..][j - 1] == selected[j];
        }
      }
    }
  }

  function SetProcessing(entries: seq<Entry<EuropassDetail>>, name: string): seq<Entry<EuropassDetail>> {
    UpdateWhere(entries, (f: Entry<EuropassDetail>) => f.name == name,
      (f: Entry<EuropassDetail>) => f.(status := Processing, progress := 10))
  }

  function SetCompleted(entries: seq<Entry<EuropassDetail>>, name: string, parsed: Parsed): seq<Entry<EuropassDetail>> {
    UpdateWhere(entries, (f: Entry<EuropassDetail>) => f.name == name,
      (f: Entry<EuropassDetail>) => f.(status := Completed, progress := 100, detail := f.detail.(result := Some(parsed))))
  }

  function SetError(entries: seq<Entry<EuropassDetail>>, name: string, message: string): seq<Entry<EuropassDetail>> {
    UpdateWhere(entries, (f: Entry<EuropassDetail>) => f.name == name,
      (f: Entry<EuropassDetail>) => f.(status := Error, progress := 100, detail := EuropassDetail(None, Some(message))))
  }

  /** The three updates of one loop iteration for the file called `name`. */
  function HandleOne(entries: seq<Entry<EuropassDetail>>, name: string, response: ParseResponse): seq<Entry<EuropassDetail>> {
    var processing := SetProcessing(entries, name);
    var completed := if |response.processed| > 0 then SetCompleted(processing, name, response.processed[0].parsed) else processing;
    if |response.errors| > 0 then SetError(completed, name, response.errors[0].error) else completed
  }

  /**
   * One iteration for `name`: other names are untouched; a same-name entry
   * fails with the first error when there is one, even if a record was also
   * processed; else it completes with the first processed record; else it
   * stays processing at 10.
   */
  lemma HandleOneAt(entries: seq<Entry<EuropassDetail>>, name: string, response: ParseResponse, k: nat)
    requires k < |entries|
    ensures |HandleOne(entries, name, response)| == |entries|
    ensures var f, g := entries[k], HandleOne(entries, name, response)[k];
      && (f.name != name ==> g == f)
      && (f.name == name && |response.errors| > 0 ==>
            g == f.(status := Error, progress := 100, detail := EuropassDetail(None, Some(response.errors[0].error))))
      && (f.name == name && |response.errors| == 0 && |response.processed| > 0 ==>
            g == f.(status := Completed, progress := 100, detail := f.detail.(result := Some(response.processed[0].parsed))))
      && (f.name == name && |response.errors| == 0 && |response.processed| == 0 ==>
            g == f.(status := Processing, progress := 10))
  {
  }

  /** The loop over the files sent, `backend(i)` answering the i-th. */
  function ProcessAll(entries: seq<Entry<EuropassDetail>>, files: seq<FileInfo>, backend: nat -> ParseResponse): (r: seq<Entry<EuropassDetail>>)
    ensures |r| == |entries|
  {
    if files == [] then entries
    else HandleOne(ProcessAll(entries, files[..|files| - 1], backend), files[|files| - 1].name, backend(|files| - 1))
  }

  lemma ProcessOneMore(entries: seq<Entry<EuropassDetail>>, files: seq<FileInfo>, backend: nat -> ParseResponse, i: nat)
    requires i < |files|
    ensures ProcessAll(entries, files[..i + 1], backend) == HandleOne(ProcessAll(entries, files[..i], backend), files[i].name, backend(i))
  {
    assert files[..i + 1][..i] == files[..i];
  }

  /** A settled entry: processing at 10, completed at 100 with a result, or failed at 100 with a message and no result. */
  predicate Settled(f: Entry<EuropassDetail>) {
    || (f.status == Processing && f.progress == 10)
    || (f.status == Completed && f.progress == 100 && f.detail.result.Some?)
    || (f.status == Error && f.progress == 100 && f.detail.result.None? && f.detail.error.Some?)
  }

  /** One iteration keeps the identity of every entry and settles those of that name. */
  lemma HandleOneSettles(entries: seq<Entry<EuropassDetail>>, name: string, response: ParseResponse, k: nat)
    requires k < |entries|
    ensures |HandleOne(entries, name, response)| == |entries|
    ensures var f, g := entries[k], HandleOne(entries, name, response)[k];
      && g.id == f.id && g.name == f.name && g.size == f.size && g.mime == f.mime
      && (f.name != name ==> g == f)
      && (f.name == name ==> Settled(g))
  {
    HandleOneAt(entries, name, response, k);
  }

  /**
   * After a processing run an entry keeps its id, name, size and type; it is
   * untouched when no file sent has its name, and settled when one has.
   */
  lemma {:induction false} ProcessAllAt(entries: seq<Entry<EuropassDetail>>, files: seq<FileInfo>, backend: nat -> ParseResponse, k: nat)
    requires k < |entries|
    ensures var f, g := entries[k], ProcessAll(entries, files, backend)[k];
      && g.id == f.id && g.name == f.name && g.size == f.size && g.mime == f.mime
      && (f.name !in Names(files) ==> g == f)
      && (f.name in Names(files) ==> Settled(g))
    decreases |files|
  {
    if files != [] {
      var init := files[..|files| - 1];
      var last := files[|files| - 1];
      var before := ProcessAll(entries, init, backend);
      ProcessAllAt(entries, init, backend, k);
      HandleOneSettles(before, last.name, backend(|files| - 1), k);
      assert ProcessAll(entries, files, backend) == HandleOne(before, last.name, backend(|files| - 1));
      NamesOfSnoc(files);
    }
  }

  /** A name is among the files' names when it is among the earlier ones' or is the last one's. */
  lemma NamesOfSnoc(files: seq<FileInfo>)
    requires files != []
    ensures forall name :: name in Names(files) <==>
      name in Names(files[..|files| - 1]) || name == files[|files| - 1].name
  {
    assert Names(files) == Names(files[..|files| - 1]) + [files[|files| - 1].name];
  }

  /** Every step of the page keeps all progress values at most 100. */
  lemma {:induction false} ProgressStaysBounded(entries: seq<Entry<EuropassDetail>>, files: seq<FileInfo>, clock: nat -> nat, id: string, backend: nat -> ParseResponse)
    requires ProgressBounded(entries)
    ensures ProgressBounded(entries + NewEntries(Admit(files), clock, Fresh))
    ensures ProgressBounded(Tick(entries, id))
    ensures ProgressBounded(FinishUpload(entries, id))
    ensures ProgressBounded(ProcessAll(entries, files, backend))
    ensures ProgressBounded(RemoveById(entries, id))
    decreases |files|
  {
    if files != [] {
      var init := files[..|files| - 1];
      ProgressStaysBounded(entries, init, clock, id, backend);
      forall k | 0 <= k < |entries| ensures ProcessAll(entries, files, backend)[k].progress <= 100 {
        HandleOneAt(ProcessAll(entries, init, backend), files[|files| - 1].name, backend(|files| - 1), k);
      }
    }
    var r := RemoveById(entries, id);
    forall k | 0 <= k < |r| ensures r[k].progress <= 100 {
      var j :| 0 <= j < |entries| && entries[j] == r[k];
    }
  }

  /** The tracked list and the processing flag of the page. */
  class EuropassTracker {
    var uploadedFiles: seq<Entry<EuropassDetail>>
    var isProcessing: bool

    predicate Valid()
      reads this
    {
      ProgressBounded(uploadedFiles)
    }

    constructor ()
      ensures uploadedFiles == [] && !isProcessing && Valid()
    {
      uploadedFiles := [];
      isProcessing := false;
    }

    /**
     * `handleFileUpload(files)`; `clock(k)` is `Date.now()` for the k-th new entry. Returns the
     * admitted files, whose simulated uploads are then driven by `Tick`
     * and `FinishUpload`.
     */
    method HandleFileUpload(files: seq<FileInfo>, clock: nat -> nat) returns (validFiles: seq<FileInfo>)
      requires Valid()
      modifies this
      ensures Valid()
      ensures validFiles == Admit(files)
      ensures uploadedFiles == old(uploadedFiles) + NewEntries(validFiles, clock, Fresh)
      ensures isProcessing == old(isProcessing)
    {
      validFiles := Admit(files);
      ProgressStaysBounded(uploadedFiles, files, clock, "", (i: nat) => ParseResponse([], []));
      if |validFiles| == 0 {
        return;
      }
      uploadedFiles := uploadedFiles + NewEntries(validFiles, clock, Fresh);
    }

    /** One `setInterval` callback of the simulated upload of `id`. */
    method TickProgress(id: string)
      requires Valid()
      modifies this
      ensures Valid()
      ensures uploadedFiles == Tick(old(uploadedFiles), id) && isProcessing == old(isProcessing)
    {
      ProgressStaysBounded(uploadedFiles, [], (k: nat) => 0, id, (i: nat) => ParseResponse([], []));
      uploadedFiles := Tick(uploadedFiles, id);
    }

    /** The closing `setTimeout` callback of the simulated upload of `id`. */
    method FinishSimulatedUpload(id: string)
      requires Valid()
      modifies this
      ensures Valid()
      ensures uploadedFiles == FinishUpload(old(uploadedFiles), id) && isProcessing == old(isProcessing)
    {
      ProgressStaysBounded(uploadedFiles, [], (k: nat) => 0, id, (i: nat) => ParseResponse([], []));
      uploadedFiles := FinishUpload(uploadedFiles, id);
    }

    /**
     * `handleProcessFiles()`: `inputFiles` are the files of the page's file
     * input. Returns the files sent, one request each, in order.
     */
    method HandleProcessFiles(inputFiles: seq<FileInfo>, backend: nat -> ParseResponse) returns (sent: seq<FileInfo>)
      requires Valid()
      modifies this
      ensures Valid()
      ensures sent == FilesForApi(Selected(old(uploadedFiles)), inputFiles)
      ensures Selected(old(uploadedFiles)) == [] ==> uploadedFiles == old(uploadedFiles) && isProcessing == old(isProcessing)
      ensures Selected(old(uploadedFiles)) != [] ==> uploadedFiles == ProcessAll(old(uploadedFiles), sent, backend) && !isProcessing
    {
      var completedFiles := Selected(uploadedFiles);
      sent := FilesForApi(completedFiles, inputFiles);
      if |completedFiles| == 0 {
        return;
      }
      isProcessing := true;
      ghost var start := uploadedFiles;
      ProgressStaysBounded(start, sent, (k: nat) => 0, "", backend);
      var i := 0;
      while i < |sent|
        invariant 0 <= i <= |sent|
        invariant uploadedFiles == ProcessAll(start, sent[..i], backend)
      {
        var file := sent[i];
        uploadedFiles := SetProcessing(uploadedFiles, file.name);
        var response := backend(i);
        if |response.processed| > 0 {
          uploadedFiles := SetCompleted(uploadedFiles, file.name, response.processed[0].parsed);
        }
        if |response.errors| > 0 {
          uploadedFiles := SetError(uploadedFiles, file.name, response.errors[0].error);
        }
        ProcessOneMore(start, sent, backend, i);
        i := i + 1;
      }
      assert sent[..i] == sent;
      isProcessing := false;
    }

    /** `removeFile(id)`. */
    method RemoveFile(id: string)
      requires Valid()
      modifies this
      ensures Valid()
      ensures uploadedFiles == RemoveById(old(uploadedFiles), id) && isProcessing == old(isProcessing)
    {
      ProgressStaysBounded(uploadedFiles, [], (k: nat) => 0, id, (i: nat) => ParseResponse([], []));
      uploadedFiles := RemoveById(uploadedFiles, id);
    }
  }
}
