# Itera front end: a verified model of the four workflow pages

This project models, in Dafny, the logic of the four workflow pages of the
Itera front end, a Next.js application:

- **Expert profiling** (`src/app/expert-profile/page.tsx`). The user picks a
  CV and a tender and runs a four-step pipeline. Each step calls the back end
  with outputs of earlier steps. The page is the class
  `ExpertProfile.ProfileSession`, whose fields are the page's four pieces of
  state. Each method is proved against a pure transition on a `Session`
  snapshot. Lemmas about those transitions cover the step gates, the
  dataflow and the invariant that holds between user actions.
- **CV parsing** (`src/app/cv-parsing/page.tsx`). The `CvUploadTracker` class
  admits files up to 4.5 MB and appends one tracked entry per file. Its loop
  moves each entry to processing, and the per-file responses are merged
  back by file name. The preview normaliser (`CvNormalise`) turns the
  upstream PascalCase record into the page's snake_case record, and then
  into the five preview panels.
- **Europass formatting** (`src/app/europass-formatting/page.tsx`). The
  `EuropassTracker` class covers upload, the simulated upload progress and
  the sequential processing loop. Pure functions cover the date and
  language-level helpers and the data handed to the `.docx` template.
- **Tender matching** (`src/app/tender-matching/page.tsx`). The
  `TenderSlot` class holds the single tender. Pure functions cover the
  truncation and first-element rules of the candidate cards.

Shared modules:

- `Wrappers`: `Option` and `Result`.
- `JsStrings`: JavaScript `split`, `join`, `trim`, ASCII `toLowerCase`,
  `includes`, `slice(0, n)` and integer-to-string, with their laws.
- `JsValues`: a dynamic JavaScript value with truthiness, `||`, `String(x)`
  and `Object.keys(x).length`.
- `Uploads`: the admission ceiling of 4,718,592 bytes, tracked entries,
  batch ids and removal by id.

How asynchrony is modelled: an `await` boundary ends one atomic step and starts
the next. There are two exceptions, each one step (see "## Left out"): the
Europass processing run, and `ExpertProfile.ProfileSession.ExecuteStep1` to
`ExecuteStep4`, which each make the in-flight update, the back-end call and the
settling update together.

- Expert profiling: a step's back-end call is a function parameter
  (request → result or thrown value), and each `ExecuteStepN` returns the
  request it sent.
- CV parsing: a response is applied by its own method, `ReceiveResponse`.
- Europass: `backend(i)` is the response to the i-th request of a run.
- Tender matching: `StartUpload` is the part of the upload before the
  `await` and `ReceiveResponse` the part after it.

The tender split shows one consequence of the code as written. The
settling update rewrites whatever tender is in the slot, so a late
response to an earlier upload settles a newer one
(`TenderMatching.LateResponseSettlesNewerTender`).

Three behaviours of the page code worth knowing:

- The CV normaliser is not idempotent. It never reads the snake_case keys
  `clients_donors`, `technical_sectors` and `functional_areas`, so a record
  that has been normalised once is not a fixed point. No idempotence
  lemma is stated.
- Redoing a step is allowed.
  - It rewrites the flags to the step's own literal, so redoing step 1
    clears the later flags.
  - It leaves the later steps' stored outputs in place.
  - `ExpertProfile.RedoStep1ClearsLater` states exactly this.
- Transport errors are not all caught. The CV, tender and expert-profile
  actions let a failed `fetch` throw; only the Europass action converts it
  into an error list.
  - The model covers the shapes the actions return, plus the thrown
    values of the expert-profile steps.
  - A thrown CV upload is left out (see below).

## Model

| member | source | states |
|---|---|---|
| Uploads.Admit | src/app/cv-parsing/page.tsx:382-389 | the admitted files are exactly the given files of at most 4,718,592 bytes |
| Uploads.AdmitPartition | src/app/europass-formatting/page.tsx:419-426 | every file is either admitted or reported as too large, never both and never neither |
| Uploads.AdmitAppend | src/app/cv-parsing/page.tsx:383-389 | admission keeps file order: it distributes over concatenation |
| Uploads.AdmitIdempotent | src/app/cv-parsing/page.tsx:383-389 | admitting the admitted files again admits the same files |
| Uploads.NewEntries | src/app/cv-parsing/page.tsx:394-401 | one entry per admitted file, in order, with id `file-<clock(k)>-<k>` for the k-th, the clock being read once per entry, the file's name, size and type, uploading at 0 |
| Uploads.BatchIdInjective | src/app/cv-parsing/page.tsx:395 | two batch ids are equal only when both stamp and index are |
| Uploads.NewEntryIdsDistinct | src/app/europass-formatting/page.tsx:428-435 | the entries of one batch have pairwise distinct ids, whatever the clock reads for each |
| Uploads.RemoveById | src/app/cv-parsing/page.tsx:451-453 | the remaining entries are exactly the entries whose id differs |
| Uploads.RemoveByIdAppend | src/app/europass-formatting/page.tsx:523-525 | removal keeps the order of the remaining entries |
| Uploads.RemoveByIdIdempotent | src/app/europass-formatting/page.tsx:523-525 | removing an id twice is removing it once |
| Uploads.UpdateWhere | src/app/cv-parsing/page.tsx:407-411 | a `prev.map` update rewrites exactly the matching entries and keeps the length |
| JsStrings.JoinSplit | src/app/cv-parsing/page.tsx:68 | joining the pieces of a split with the same separator gives the string back |
| JsStrings.SplitJoin | src/app/cv-parsing/page.tsx:124 | splitting a join of pieces without the separator character gives the pieces back |
| JsStrings.SplitHeadTail | src/app/cv-parsing/page.tsx:67-68 | a string containing the separator is its first piece, the separator and the join of the rest |
| JsStrings.TrimKeepsMiddle | src/app/cv-parsing/page.tsx:124 | `trim` gives a contiguous slice with only white space around it, and the slice neither starts nor ends with white space |
| JsStrings.TrimIdempotent | src/app/cv-parsing/page.tsx:146 | trimming twice is trimming once |
| JsStrings.SpacedSplitsBack | src/app/cv-parsing/page.tsx:80 | a list joined with ", ", split at "," and trimmed gives back its comma-free, trimmed items |
| JsStrings.ToLowerIncludes | src/app/cv-parsing/page.tsx:86-89 | an occurrence of a word is an occurrence of the word lower-cased in the text lower-cased |
| JsStrings.ToLowerIdempotent | src/app/cv-parsing/page.tsx:86 | lower-casing twice is lower-casing once |
| JsStrings.ParseNatToString | src/app/europass-formatting/page.tsx:355-357 | the decimal rendering of a natural number reads back as that number |
| JsValues.Or | src/app/cv-parsing/page.tsx:69 | `a \|\| b` is `a` when `a` is truthy and `b` otherwise; the result is truthy iff one operand is |
| JsValues.JoinStrValues | src/app/cv-parsing/page.tsx:80 | joining an array of strings joins the strings |
| ExpertProfile.FlagsAfter | src/app/expert-profile/page.tsx:138-143 | after step n succeeds, exactly the flags of steps 1 to n are set |
| ExpertProfile.Upload | src/app/expert-profile/page.tsx:111-127 | the first chosen file fills the named slot when it is at most 4.5 MB; otherwise nothing changes |
| ExpertProfile.Drop | src/app/expert-profile/page.tsx:92-109 | two or more dropped files fill both slots; a single file fills the CV slot when it is empty, else the tender slot |
| ExpertProfile.Clear | src/app/expert-profile/page.tsx:417 | a Remove button empties its slot and changes nothing else |
| ExpertProfile.Request1 | src/app/expert-profile/page.tsx:129-136 | step 1 is admitted iff both files are present, and then receives them |
| ExpertProfile.Request2 | src/app/expert-profile/page.tsx:155-162 | step 2 is admitted iff flag 1 is set and step 1's output exists, and then receives both assignment lists |
| ExpertProfile.Request3 | src/app/expert-profile/page.tsx:181-188 | step 3 is admitted iff flag 2 is set and the outputs of steps 1 and 2 exist, and then receives the selection and the CV text |
| ExpertProfile.Request4 | src/app/expert-profile/page.tsx:207-218 | step 4 is admitted iff flag 3 is set and the outputs of steps 1 and 3 exist, and then receives the write-up, the CV text and the tender assignments |
| ExpertProfile.ErrorMessage | src/app/expert-profile/page.tsx:145-150 | a thrown `Error` gives its message and anything else "Unknown error" |
| ExpertProfile.Step1Effect | src/app/expert-profile/page.tsx:129-153 | a refused step 1 changes nothing; success stores the output and sets the flags to step 1's literal; failure records the message and keeps data and flags; processing is cleared either way |
| ExpertProfile.Step2Effect | src/app/expert-profile/page.tsx:155-179 | the same for step 2, whose success stores only step 2's output |
| ExpertProfile.Step3Effect | src/app/expert-profile/page.tsx:181-205 | the same for step 3 |
| ExpertProfile.Step4Effect | src/app/expert-profile/page.tsx:207-235 | the same for step 4 |
| ExpertProfile.Execute1 | src/app/expert-profile/page.tsx:129-153 | step 1 from click to settled state; stated by `ExpertProfile.Step1Effect` |
| ExpertProfile.Execute2 | src/app/expert-profile/page.tsx:155-179 | step 2 from click to settled state; stated by `ExpertProfile.Step2Effect` |
| ExpertProfile.Execute3 | src/app/expert-profile/page.tsx:181-205 | step 3 from click to settled state; stated by `ExpertProfile.Step3Effect` |
| ExpertProfile.Execute4 | src/app/expert-profile/page.tsx:207-235 | step 4 from click to settled state; stated by `ExpertProfile.Step4Effect` |
| ExpertProfile.Reset | src/app/expert-profile/page.tsx:237-248 | reset returns the page to its initial state |
| ExpertProfile.Dismiss | src/app/expert-profile/page.tsx:676 | dismissing clears the error and changes nothing else |
| ExpertProfile.ButtonMatchesGate | src/app/expert-profile/page.tsx:270-307 | between actions a step's button is enabled exactly when the step's own guard admits it |
| ExpertProfile.ApplyKeepsValid | src/app/expert-profile/page.tsx:92-248 | every user action keeps the session invariant: flags a prefix of trues, each set flag backed by its output, nothing in flight |
| ExpertProfile.ValidOnEveryTrace | src/app/expert-profile/page.tsx:61-69 | every sequence of user actions from the initial page ends in a valid session |
| ExpertProfile.InitialIsValid | src/app/expert-profile/page.tsx:61-69 | the initial page is valid and refuses steps 2 to 4 |
| ExpertProfile.PipelineDataflow | src/app/expert-profile/page.tsx:162-218 | after steps 1 to 3 succeed in turn, steps 2 to 4 are admitted and receive exactly the prescribed fields of the earlier outputs |
| ExpertProfile.RedoStep1ClearsLater | src/app/expert-profile/page.tsx:138-143 | redoing step 1 after a full run clears flags 2 to 4 and refuses steps 3 and 4, while the old outputs of steps 2 to 4 stay |
| ExpertProfile.ProfileSession.HandleFileUpload | src/app/expert-profile/page.tsx:111-127 | the object's new state is the upload's transition of the old state |
| ExpertProfile.ProfileSession.HandleDrop | src/app/expert-profile/page.tsx:92-109 | the new state is the drop's transition |
| ExpertProfile.ProfileSession.RemoveCvFile | src/app/expert-profile/page.tsx:417 | the CV slot is emptied |
| ExpertProfile.ProfileSession.RemoveTenderFile | src/app/expert-profile/page.tsx:467 | the tender slot is emptied |
| ExpertProfile.ProfileSession.ExecuteStep1 | src/app/expert-profile/page.tsx:129-153 | sends exactly step 1's admitted request; refused means no change; otherwise the new state is step 1's settled transition for the back end's outcome |
| ExpertProfile.ProfileSession.ExecuteStep2 | src/app/expert-profile/page.tsx:155-179 | the same for step 2 |
| ExpertProfile.ProfileSession.ExecuteStep3 | src/app/expert-profile/page.tsx:181-205 | the same for step 3 |
| ExpertProfile.ProfileSession.ExecuteStep4 | src/app/expert-profile/page.tsx:207-235 | the same for step 4 |
| ExpertProfile.FileChangesCommuteWithSettling | src/app/expert-profile/page.tsx:129-153 | choosing, dropping or removing a file commutes with a step's success or failure update |
| ExpertProfile.ProfileSession.ResetProcess | src/app/expert-profile/page.tsx:237-248 | the object is back in the initial state |
| ExpertProfile.ProfileSession.DismissError | src/app/expert-profile/page.tsx:676 | only the error is cleared |
| Uploads.FindFirst | src/app/cv-parsing/page.tsx:418-419 | `find` by name as an index: the element there has the name and no earlier one has; none means no element has it |
| CvParsing.FindProcessed | src/app/cv-parsing/page.tsx:418 | the first processed record with that file name, by `Uploads.FindFirst` |
| CvParsing.FindError | src/app/cv-parsing/page.tsx:419 | the first error record with that file name, by `Uploads.FindFirst` |
| CvParsing.Payload | src/app/cv-parsing/page.tsx:422 | the payload is `parsed` when truthy, else `result` when truthy, else `{}`, and is never nullish |
| CvParsing.DispatchAllAt | src/app/cv-parsing/page.tsx:405-411 | after the dispatches an entry is processing at 50 exactly when it was uploading under the name of a batch file; other entries are unchanged |
| CvParsing.UploadBatchEffect | src/app/cv-parsing/page.tsx:391-411 | the older entries change only by dispatch, and each new entry is processing at 50 with its batch id and file data |
| CvParsing.MergeAt | src/app/cv-parsing/page.tsx:415-437 | a response leaves other names untouched; for the name, the first processed record wins and completes at 100 with the payload and its key count, else the first error record fails it with that message, else it is untouched |
| CvParsing.Settle | src/app/cv-parsing/page.tsx:416-436 | one entry settled by a response; its outcome is stated by `CvParsing.MergeAt` |
| CvParsing.Merge | src/app/cv-parsing/page.tsx:415-437 | `prev.map` of the settling update over the entries of that name; stated by `CvParsing.MergeAt` and `CvParsing.SameNameSameOutcome` |
| CvParsing.Dispatch | src/app/cv-parsing/page.tsx:407-411 | the dispatch of one file: same-name entries still uploading go to processing at 50; stated by `CvParsing.DispatchAllAt` |
| CvParsing.FailedUploadMarksError | src/app/cv-parsing/actions.ts:14-16 | a non-OK reply marks every entry of that name as failed with "Upload failed" |
| CvParsing.SameNameSameOutcome | src/app/cv-parsing/page.tsx:416-420 | all entries sharing a name are settled alike, at 100, by a response that mentions the name |
| CvParsing.RemoveFileEffect | src/app/cv-parsing/page.tsx:451-453 | removal drops exactly the entries with that id and is idempotent |
| CvParsing.CvUploadTracker.HandleFileUpload | src/app/cv-parsing/page.tsx:381-411 | returns the admitted files; no admitted file means no change; otherwise the list is the old list plus the new entries, dispatched file by file |
| CvParsing.CvUploadTracker.ReceiveResponse | src/app/cv-parsing/page.tsx:413-437 | the list is the old list merged with the response for that name |
| CvParsing.CvUploadTracker.RemoveFile | src/app/cv-parsing/page.tsx:451-453 | the list is the old list without that id |
| CvNormalise.Pick | src/app/cv-parsing/page.tsx:69-78 | `P \|\| s \|\| d` takes the PascalCase property if truthy, else the snake_case one if truthy, else the default |
| CvNormalise.LevelOf | src/app/cv-parsing/page.tsx:83-92 | the level is Native exactly when the lower-cased text contains "excellent" or "native"; Fluent exactly when it contains "good" or "fluent" but neither of those; Intermediate exactly when it contains none of the four, including the empty text |
| CvNormalise.LevelKeywords | src/app/cv-parsing/page.tsx:86-89 | "excellent" or "native" in any case gives Native; "good" or "fluent" gives Fluent unless Native applies |
| CvNormalise.LevelIgnoresCase | src/app/cv-parsing/page.tsx:86-89 | the level does not depend on letter case |
| CvNormalise.LanguageWithoutLevel | src/app/cv-parsing/page.tsx:84-92 | an entry without " (" is that language, trimmed, at Intermediate |
| CvNormalise.LanguageWithLevel | src/app/cv-parsing/page.tsx:84-92 | "language (description" gives the trimmed language and the level of the description up to the next " (" |
| CvNormalise.ParseLanguage | src/app/cv-parsing/page.tsx:82-93 | one `Languages` entry parsed; stated by `CvNormalise.LanguageWithoutLevel` and `CvNormalise.LanguageWithLevel` |
| CvNormalise.SplitList | src/app/cv-parsing/page.tsx:99-120 | a falsy field gives no items; an array passes through; anything else gives at least one string item |
| CvNormalise.CommaListSplitsBack | src/app/cv-parsing/page.tsx:99-105 | a string list of comma-free, trimmed items joined with "," yields exactly those items |
| CvNormalise.SpacedListSplitsBack | src/app/cv-parsing/page.tsx:99-105 | the same list joined with ", " yields the same items |
| CvNormalise.ListRuleStable | src/app/cv-parsing/page.tsx:152-174 | the experience panel's second application of the list rule returns the normalised list as it is |
| CvNormalise.EducationFields | src/app/cv-parsing/page.tsx:121-125 | "degree,institution,year" gives diploma, institution and date, each trimmed |
| CvNormalise.EducationWithoutComma | src/app/cv-parsing/page.tsx:121-125 | an entry without a comma is a diploma alone, with no institution and no date |
| CvNormalise.ParseEducation | src/app/cv-parsing/page.tsx:122-125 | one `AcademicQualifications` entry parsed; stated by `CvNormalise.EducationFields` and `CvNormalise.EducationWithoutComma` |
| CvNormalise.NameSplitting | src/app/cv-parsing/page.tsx:67-68 | a `Name` splits at its first space: the first name has no space and first name + " " + family name is the `Name`; a name without a space is all first name |
| CvNormalise.FirstName | src/app/cv-parsing/page.tsx:67 | `first_name`; stated by `CvNormalise.NameSplitting` |
| CvNormalise.FamilyName | src/app/cv-parsing/page.tsx:68 | `family_name`; stated by `CvNormalise.NameSplitting` |
| CvNormalise.Normalize | src/app/cv-parsing/page.tsx:65-127 | the name fields are strings when `Name` is given, the three experience lists are arrays, and the nationality is a string when `Nationalities` is given |
| CvNormalise.Year | src/app/cv-parsing/page.tsx:180 | a falsy date shows ""; any other date shows the first four characters of `String(to_date)`, or all of it when shorter |
| CvNormalise.Preview | src/app/cv-parsing/page.tsx:60-62 | the preview is the "No data available." placeholder exactly for a falsy record |
| CvNormalise.View | src/app/cv-parsing/page.tsx:129-184 | the five panels of a normalised record; their contents are stated by `CvNormalise.DisplayedNameIsName`, `CvNormalise.NationalitiesRoundTrip`, `CvNormalise.CountriesRoundTrip`, `CvNormalise.LanguagesShown` and `CvNormalise.EducationShown` |
| CvNormalise.DisplayName | src/app/cv-parsing/page.tsx:132 | the shown name; stated by `CvNormalise.DisplayNameOfParts` |
| CvNormalise.DisplayedNameIsName | src/app/cv-parsing/page.tsx:67-68 | a `Name` without a space, or with two non-empty parts, is shown as itself; after a leading space only the family part is shown, and before a trailing space only the first part |
| CvNormalise.DisplayNameOfParts | src/app/cv-parsing/page.tsx:132 | the name shown is the non-empty one of first and family name, or both with one space between them, or "" |
| CvNormalise.NationalitiesRoundTrip | src/app/cv-parsing/page.tsx:80-146 | comma-free, trimmed nationalities survive the join with ", " and the split at "," |
| CvNormalise.CountriesRoundTrip | src/app/cv-parsing/page.tsx:95-150 | `CountriesOfWork` is shown back unchanged, in order |
| CvNormalise.EducationShown | src/app/cv-parsing/page.tsx:121-182 | a "Degree, Institution, Year" entry is shown as the trimmed degree and institution and the first four characters of the trimmed year |
| CvNormalise.LanguagesShown | src/app/cv-parsing/page.tsx:81-147 | every `Languages` entry is shown, in order, as its parsed language and level |
| Europass.FormatDate | src/app/europass-formatting/page.tsx:85-93 | a missing or empty date is "Not specified"; a full ISO date takes the locale's format; any other text is kept |
| Europass.PartialDatesKept | src/app/europass-formatting/page.tsx:91-92 | a year, a year and month, or a word is shown as written |
| Europass.LanguageLevel | src/app/europass-formatting/page.tsx:95-98 | levels 0 to 4 name Beginner to Proficient, and any other number gives "Unknown" |
| Europass.LanguageLevelInjective | src/app/europass-formatting/page.tsx:95-98 | the level name determines the level among 0 to 4 |
| Europass.TrainingTable | src/app/europass-formatting/page.tsx:339-352 | no training gives exactly the row N/A / "No training data available" / ""; otherwise one row per entry, in order, with falsy properties as "" |
| Europass.BuildTemplateData | src/app/europass-formatting/page.tsx:326-376 | the object given to `doc.render`; its fields are stated by `Europass.TrainingTable`, `Europass.NoBlankDefaults`, `Europass.SignatureFallback`, `Europass.RowsFollowEntries` and `Europass.LanguageScoresReadBack` |
| Europass.NoBlankDefaults | src/app/europass-formatting/page.tsx:359-375 | membership, other skills, years within firm, publications, companies and the signature name are never blank; non-empty source text is kept |
| Europass.SignatureFallback | src/app/europass-formatting/page.tsx:375 | without a signature name the document is signed with first name, a space and family name |
| Europass.RowsFollowEntries | src/app/europass-formatting/page.tsx:334-373 | education, region and experience rows follow the entries one to one, in order, with period "from - to" |
| Europass.LanguageScoresReadBack | src/app/europass-formatting/page.tsx:353-358 | each language score is written in decimal and reads back as the score |
| Europass.DownloadFor | src/app/europass-formatting/page.tsx:301-379 | no result means no download; a result whose training cannot be read gives the error toast; any other result renders exactly its template data |
| Europass.TickEffect | src/app/europass-formatting/page.tsx:443-446 | a tick raises that id's progress by 10, capped at 100, and touches nothing else |
| Europass.Tick | src/app/europass-formatting/page.tsx:443-446 | one tick of the simulated upload; stated by `Europass.TickEffect` |
| Europass.FinishUpload | src/app/europass-formatting/page.tsx:449-452 | the end of the simulated upload; its bound is stated by `Europass.ProgressStaysBounded` |
| Europass.Selected | src/app/europass-formatting/page.tsx:459 | the selected entries are exactly the completed entries without a result |
| Europass.FindByName | src/app/europass-formatting/page.tsx:470 | the input file with that name that comes first in the input list, or none when no input file has it |
| Europass.FilesForApiSound | src/app/europass-formatting/page.tsx:468-472 | the files sent are input files named after selected entries, and every selected entry with a matching input file is sent |
| Europass.HandleOneAt | src/app/europass-formatting/page.tsx:476-516 | one iteration leaves other names alone; for the name, an error wins (error at 100, no result), else a processed record completes it at 100 with its result, else it stays processing at 10 |
| Europass.HandleOne | src/app/europass-formatting/page.tsx:476-516 | the three updates of one loop iteration in order; stated by `Europass.HandleOneAt` |
| Europass.ProcessAll | src/app/europass-formatting/page.tsx:474-517 | the whole run, the i-th file answered by `backend(i)`; it keeps the number of entries, and `Europass.ProcessAllAt` states its effect |
| Europass.ProcessAllAt | src/app/europass-formatting/page.tsx:474-517 | after a run every entry keeps its identity; it is untouched when no file sent has its name, and settled when one has |
| Europass.ProgressStaysBounded | src/app/europass-formatting/page.tsx:428-516 | upload, tick, finish, a processing run and removal all keep every progress value at most 100 |
| Europass.EuropassTracker.HandleFileUpload | src/app/europass-formatting/page.tsx:418-437 | returns the admitted files and appends one uploading entry per file; keeps progress bounded |
| Europass.EuropassTracker.TickProgress | src/app/europass-formatting/page.tsx:443-446 | the list is the tick of the old list |
| Europass.EuropassTracker.FinishSimulatedUpload | src/app/europass-formatting/page.tsx:449-452 | that id is completed at 100 |
| Europass.EuropassTracker.HandleProcessFiles | src/app/europass-formatting/page.tsx:458-520 | sends the files for the selected entries; no selection means no change; otherwise the list is the run's result and processing ends cleared |
| Europass.EuropassTracker.RemoveFile | src/app/europass-formatting/page.tsx:523-525 | the list is the old list without that id |
| TenderMatching.UploadOutcome | src/app/tender-matching/page.tsx:311-345 | an admitted upload ends at 100, completed with the result exactly when the response exists, says "processed" and has a result, and failed without a result otherwise |
| TenderMatching.Started | src/app/tender-matching/page.tsx:305-321 | the slot after the upload starts; stated by `TenderMatching.UploadOutcome` and `TenderMatching.OversizedIgnored` |
| TenderMatching.Settled | src/app/tender-matching/page.tsx:324-345 | the slot after the response; stated by `TenderMatching.UploadOutcome` |
| TenderMatching.OversizedIgnored | src/app/tender-matching/page.tsx:306-310 | a file over the ceiling leaves the slot unchanged |
| TenderMatching.LateResponseSettlesNewerTender | src/app/tender-matching/page.tsx:319-345 | a response that arrives after a newer upload started settles the newer tender |
| TenderMatching.TenderSlot.StartUpload | src/app/tender-matching/page.tsx:305-321 | the request is sent iff the file is admissible; the slot then holds a fresh uploading tender at 30 |
| TenderMatching.TenderSlot.ReceiveResponse | src/app/tender-matching/page.tsx:324-345 | the slot is settled by the response |
| TenderMatching.RolesAccounted | src/app/tender-matching/page.tsx:187-197 | at most the first 10 roles are shown, in order; the "+k more roles" badge appears exactly when some are hidden, and k accounts for the rest |
| TenderMatching.VisibleRoles | src/app/tender-matching/page.tsx:187 | the roles listed; stated by `TenderMatching.RolesAccounted` |
| TenderMatching.HiddenRoles | src/app/tender-matching/page.tsx:192-196 | the badge count; stated by `TenderMatching.RolesAccounted` |
| TenderMatching.CardListsReadBack | src/app/tender-matching/page.tsx:609-615 | the card shows the first three sectors and the first two clients, joined by ", " and readable back item by item; an empty list shows "" |
| TenderMatching.TopSkills | src/app/tender-matching/page.tsx:609 | the top-skills line; stated by `TenderMatching.CardListsReadBack` |
| TenderMatching.KeyClients | src/app/tender-matching/page.tsx:615 | the key-clients line; stated by `TenderMatching.CardListsReadBack` |
| TenderMatching.ContactShown | src/app/tender-matching/page.tsx:138-158 | a `null` email or phone shows "Not specified"; otherwise its first element is shown, and nothing for an empty list |

## Left out

- Rendering is not modelled: JSX, tabs, dialogs, badges and CSS classes in
  all four pages, the marketing page, the navigation bar, the footer and the
  Tailwind and Next.js configuration.
- The `actions.ts` files are network wrappers. Their replies are datatypes
  the model takes as given: `UploadResponse`, `ParseResponse`,
  `TenderResponse`, and results or thrown values of the expert-profile
  steps.
- A CV upload whose request throws is left out. The action does not catch
  a failing `fetch` or a reply that is not JSON. In the page the callback
  then rejects and the entry stays processing; the model has no step for
  that.
- Timers and toasts are left out: `setTimeout`/`setInterval` scheduling,
  every `showToast`, and the completed-count toast effect of the CV page.
  The Europass tick and its finishing callback are methods; when they run
  is not modelled.
- Concurrent interleavings of awaited calls are left out. Each await
  boundary is an atomic step, and the caller of the methods chooses the
  order.
- Floating point is left out: `formatFileSize`, the score percentages of
  the tender page, and JavaScript numbers other than integers. `Value`
  numbers are integers.
- `toLocaleDateString` and `new Date()` depend on the browser's locale and
  clock; they are the `Locale` parameter. `Date.now()` is the
  `clock` parameter in the CV and Europass uploads (`clock(k)` for the k-th
  new entry) and the `stamp` parameter in the tender page.
- `toLowerCase` is modelled for ASCII letters only; Unicode case mapping is
  left out.
- Strings are sequences of Unicode characters, while JavaScript counts
  UTF-16 code units. `slice(0, 4)` in `CvNormalise.Year`, `JsStrings.Take`
  and `String.length` in `JsValues.KeyCount` therefore differ from the page
  for text outside the Basic Multilingual Plane.
- Europass.EuropassTracker.HandleProcessFiles: the run over all selected
  files is one step, although the page awaits once per file. A tick, a
  finished simulated upload, a removal or a new upload that lands between
  two files' requests, and that the page's `prev => ...` updates would
  interleave, is not expressible.
- ExpertProfile.ProfileSession.ExecuteStep1-4: the in-flight update, the
  back-end call and the settling update are one step, although the page
  awaits the call and keeps the drop zone, the file inputs and the Remove
  buttons live meanwhile; only the step buttons are disabled. A drop, upload
  or removal during the call changes only `cvFile` and `tenderFile`, which
  the settling updates never touch, so the end state is the same
  (`ExpertProfile.FileChangesCommuteWithSettling`). A reset or a dismissal
  during the call, which the page also allows, is not expressible.
- Docxtemplater and PizZip rendering, the template fetch and its
  content-type check, the Blob download and the JSON export of step
  results are left out. They are foreign libraries and browser I/O.
  `Europass.DownloadFor` stops at the data handed to `doc.render`.
- ExpertProfile step outputs keep the fields later steps read as opaque
  values; their inner structure is not modelled.
- The tender file input passes `files[0]` even for an empty file list,
  which throws in the page. The model's `StartUpload` always receives a
  file.
- The Europass profile dialog (`EuropassProfile`) is rendering; only its
  helpers `formatDate` and `getLanguageLevel` are modelled.
- CvNormalise.Normalize: its contract states the shapes of the normalised
  record, not each field. The fields are characterised by the field
  functions and the lemmas beside them.
- CvNormalise.Preview: it needs the record shapes that the page's
  `split`, `join` and `map` calls need (`Normalizable`, `Displayable`). A
  record of another shape makes the page throw, which is not modelled.
- Europass.BuildTemplateData: it needs every training entry to be
  readable. A `null` entry throws inside the `try` and only produces the
  error toast, which `Europass.DownloadFor` returns as `RenderError`.
