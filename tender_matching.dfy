/**
 * The tender-matching page, `src/app/tender-matching/page.tsx`: the single
 * tender slot with its upload and settle steps, and the truncation and
 * first-element rules of the candidate cards and profiles.
 *
 * `handleFileUpload` awaits the upstream matcher once; the part before the
 * `await` is `TenderSlot.StartUpload` and the part after it is
 * `TenderSlot.ReceiveResponse`, so that another upload may come in between.
 */
module TenderMatching {
  import opened Wrappers
  import opened JsStrings
  import opened Uploads

  /** The fields of a `CandidateMatch` that the page shows as text or lists; the score is left out. */
  datatype CandidateMatch = CandidateMatch(
    id: int, name: string, gender: string, location: string, yearsOfExperience: int,
    email: Option<seq<string>>, phone: Option<seq<string>>,
    nationalities: seq<string>, languages: seq<string>, countriesOfWork: seq<string>,
    clientsOrDonors: seq<string>, roleExperience: seq<string>,
    academicQualifications: Option<seq<string>>, technicalSectors: seq<string>, functionalAreas: seq<string>)

  datatype SelectedCandidate = SelectedCandidate(id: int, name: string, reason: string)

  datatype TenderResult = TenderResult(matches: seq<CandidateMatch>, selectedCandidates: seq<SelectedCandidate>)

  /** The body the upload action returns: `{status: "error"}` on an HTTP failure, else the parsed JSON. */
  datatype TenderResponse = TenderResponse(status: Option<string>, result: Option<TenderResult>)

  /** An `UploadedTender`; its `detail` is the optional `result`. */
  type Tender = Entry<Option<TenderResult>>

  /** The id `tender-<stamp>` of a tender uploaded at time `stamp`. */
  function TenderId(stamp: nat): string {
    "tender-" + NatToString(stamp)
  }

  /** `response && response.status === "processed" && response.result`. */
  predicate Succeeded(response: Option<TenderResponse>) {
    response.Some? && response.value.status == Some("processed") && response.value.result.Some?
  }

  /** The slot once the upload of `file` has started: unchanged for a file over the ceiling. */
  function Started(slot: Option<Tender>, file: FileInfo, stamp: nat): Option<Tender> {
    if file.size > MaxUploadBytes then slot
    else Some(Entry(TenderId(stamp), file.name, file.size, file.mime, Uploading, 30, None))
  }

  /** The slot once the response has arrived: whatever tender is there is completed or failed at 100. */
  function Settled(slot: Option<Tender>, response: Option<TenderResponse>): Option<Tender> {
    match slot
    case None => None
    case Some(t) =>
      if Succeeded(response) then Some(t.(status := Completed, progress := 100, detail := response.value.result))
      else Some(t.(status := Error, progress := 100))
  }

  /**
   * An admitted upload ends completed with the matcher's result exactly when
   * the response exists, says "processed" and has a result; otherwise it ends
   * failed without a result. Either way it keeps its id, name, size and type
   * and stands at 100.
   */
  lemma UploadOutcome(slot: Option<Tender>, file: FileInfo, stamp: nat, response: Option<TenderResponse>)
    requires Admissible(file)
    ensures var t := Settled(Started(slot, file, stamp), response);
      && t.Some? && t.value.id == TenderId(stamp) && t.value.name == file.name
      && t.value.size == file.size && t.value.mime == file.mime && t.value.progress == 100
      && (t.value.status == Completed <==> Succeeded(response))
      && (t.value.status != Completed ==> t.value.status == Error && t.value.detail.None?)
      && (t.value.status == Completed ==> t.value.detail == response.value.result && t.value.detail.Some?)
  {
  }

  /** A file over the ceiling leaves the slot, and whatever tender it holds, as it was. */
  lemma OversizedIgnored(slot: Option<Tender>, file: FileInfo, stamp: nat)
    requires !Admissible(file)
    ensures Started(slot, file, stamp) == slot
  {
  }

  /**
   * The response to an earlier upload that arrives after a later upload has
   * started settles the later tender: the slot holds the later file's id and
   * name with the earlier response's outcome.
   */
  lemma LateResponseSettlesNewerTender(slot: Option<Tender>, first: FileInfo, second: FileInfo, s1: nat, s2: nat,
                                       response: Option<TenderResponse>)
    requires Admissible(first) && Admissible(second)
    ensures var t := Settled(Started(Started(slot, first, s1), second, s2), response);
      && t.Some? && t.value.id == TenderId(s2) && t.value.name == second.name
      && (t.value.status == Completed <==> Succeeded(response))
      && (Succeeded(response) ==> t.value.detail == response.value.result)
  {
  }

  /** The single tender slot of the page. */
  class TenderSlot {
    var uploadedTender: Option<Tender>

    constructor ()
      ensures uploadedTender.None?
    {
      uploadedTender := None;
    }

    /**
     * `handleFileUpload(file)` up to the `await`, `stamp` being `Date.now()`:
     * a file over the ceiling is refused and nothing changes; otherwise the
     * slot is replaced by a fresh uploading tender, which then moves to 30.
     * Returns whether the request is sent.
     */
    method StartUpload(file: FileInfo, stamp: nat) returns (sent: bool)
      modifies this
      ensures sent <==> Admissible(file)
      ensures uploadedTender == Started(old(uploadedTender), file, stamp)
    {
      if file.size > MaxUploadBytes {
        return false;
      }
      var newTender := Entry(TenderId(stamp), file.name, file.size, file.mime, Uploading, 0, None);
      uploadedTender := Some(newTender);
      uploadedTender := match uploadedTender
        case None => None
        case Some(prev) => Some(prev.(progress := 30, status := Uploading));
      sent := true;
    }

    /** The rest of `handleFileUpload`, run when `uploadTenderAction` answers. */
    method ReceiveResponse(response: Option<TenderResponse>)
      modifies this
      ensures uploadedTender == Settled(old(uploadedTender), response)
    {
      if response.Some? && response.value.status == Some("processed") && response.value.result.Some? {
        uploadedTender := match uploadedTender
          case None => None
          case Some(prev) => Some(prev.(status := Completed, progress := 100, detail := response.value.result));
      } else {
        uploadedTender := match uploadedTender
          case None => None
          case Some(prev) => Some(prev.(status := Error, progress := 100));
      }
    }
  }

  // ---------------------------------------------------------------------------
  // Display rules

  /** `RoleExperience.slice(0, 10)`. */
  function VisibleRoles(roles: seq<string>): seq<string> {
    Take(roles, 10)
  }

  /** The "+k more roles" badge: shown, with k = length - 10, only for more than 10 roles. */
  function HiddenRoles(roles: seq<string>): Option<nat> {
    if |roles| > 10 then Some(|roles| - 10) else None
  }

  /**
   * The shown roles are the first ones in order, at most 10, and together
   * with the badge's count they account for every role; there is a badge
   * exactly when some role is not shown.
   */
  lemma RolesAccounted(roles: seq<string>)
    ensures |VisibleRoles(roles)| <= 10
    ensures VisibleRoles(roles) == roles[..|VisibleRoles(roles)|]
    ensures HiddenRoles(roles).Some? <==> |VisibleRoles(roles)| < |roles|
    ensures HiddenRoles(roles).Some? ==> |VisibleRoles(roles)| + HiddenRoles(roles).value == |roles|
    ensures HiddenRoles(roles).None? ==> VisibleRoles(roles) == roles
  {
  }

  /** `TechnicalSectors.slice(0, 3).join(", ")`. */
  function TopSkills(c: CandidateMatch): string {
    Join(Take(c.technicalSectors, 3), ", ")
  }

  /** `ClientsOrDonors.slice(0, 2).join(", ")`. */
  function KeyClients(c: CandidateMatch): string {
    Join(Take(c.clientsOrDonors, 2), ", ")
  }

  /**
   * The card lists names the first three sectors and the first two clients,
   * in order: names without commas or surrounding white space are read back
   * by splitting at "," and trimming.
   */
  lemma CardListsReadBack(c: CandidateMatch)
    requires forall p :: p in c.technicalSectors ==> ',' !in p && Trim(p) == p
    requires forall p :: p in c.clientsOrDonors ==> ',' !in p && Trim(p) == p
    ensures c.technicalSectors != [] ==> TrimAll(Split(TopSkills(c), ",")) == Take(c.technicalSectors, 3)
    ensures c.clientsOrDonors != [] ==> TrimAll(Split(KeyClients(c), ",")) == Take(c.clientsOrDonors, 2)
    ensures c.technicalSectors == [] ==> TopSkills(c) == ""
    ensures c.clientsOrDonors == [] ==> KeyClients(c) == ""
  {
    if c.technicalSectors != [] {
      SpacedSplitsBack(Take(c.technicalSectors, 3));
    }
    if c.clientsOrDonors != [] {
      SpacedSplitsBack(Take(c.clientsOrDonors, 2));
    }
  }

  /**
   * The email or phone shown: "Not specified" when the list is `null`, else
   * its first element; an empty list shows nothing, as `undefined` renders
   * as no text.
   */
  function ContactShown(contact: Option<seq<string>>): (shown: string)
    ensures contact.None? ==> shown == "Not specified"
    ensures contact.Some? && contact.value != [] ==> shown == contact.value[0]
    ensures contact.Some? && contact.value == [] ==> shown == ""
  {
    match contact
    case None => "Not specified"
    case Some(xs) => if |xs| > 0 then xs[0] else ""
  }
}
