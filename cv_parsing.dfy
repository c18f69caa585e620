/**
 * The CV upload tracker of `src/app/cv-parsing/page.tsx`: size admission,
 * appending a batch, the per-file move to "processing", the name-keyed merge
 * of each upload response, and removal by id.
 *
 * `handleFileUpload` runs synchronously up to the first `await` of every
 * `forEach` callback, so admission, the append and all the dispatches form one
 * step (`CvUploadTracker.HandleFileUpload`); each response that arrives later
 * is one more step (`CvUploadTracker.ReceiveResponse`).
 */
module CvParsing {
  import opened Wrappers
  import opened JsValues
  import opened Uploads

  /** What an `UploadedFile` holds beyond the shared entry fields. */
  datatype CvDetail = CvDetail(extractedFields: Option<nat>, parsedData: Option<Value>, error: Option<string>)

  const Fresh := CvDetail(None, None, None)

  /** One element of the response's `processed` list; a missing property is `Undefined`. */
  datatype ProcessedRecord = ProcessedRecord(filename: string, parsed: Value, result: Value)

  /** One element of the response's `errors` list. */
  datatype ErrorRecord = ErrorRecord(filename: string, error: string)

  /** An upload response; a missing list is the empty list. */
  datatype UploadResponse = UploadResponse(processed: seq<ProcessedRecord>, errors: seq<ErrorRecord>)

  /** The response the upload action gives for a request that was not answered with success. */
  function FailedUpload(name: string): UploadResponse {
    UploadResponse([], [ErrorRecord(name, "Upload failed")])
  }

  /** `processed.find(p => p.filename === name)`, as the index of the first match. */
  function FindProcessed(ps: seq<ProcessedRecord>, name: string): Option<nat> {
    FindFirst(ps, (p: ProcessedRecord) => p.filename, name)
  }

  /** `errors.find(e => e.filename === name)`, as the index of the first match. */
  function FindError(es: seq<ErrorRecord>, name: string): Option<nat> {
    FindFirst(es, (e: ErrorRecord) => e.filename, name)
  }

  /** `processed.parsed || processed.result || {}`: always truthy, so its keys can be counted. */
  function Payload(p: ProcessedRecord): (r: Value)
    ensures Truthy(r) && !Nullish(r)
    ensures Truthy(p.parsed) ==> r == p.parsed
    ensures !Truthy(p.parsed) && Truthy(p.result) ==> r == p.result
    ensures !Truthy(p.parsed) && !Truthy(p.result) ==> r == Obj(map[])
  {
    Or(p.parsed, Or(p.result, Obj(map[])))
  }

  /** The entry a response makes of one entry with the uploaded file's name. */
  function Settle(f: Entry<CvDetail>, response: UploadResponse): Entry<CvDetail> {
    match FindProcessed(response.processed, f.name)
    case Some(i) =>
      var parsed := Payload(response.processed[i]);
      f.(status := Completed, progress := 100,
         detail := f.detail.(extractedFields := Some(KeyCount(parsed)), parsedData := Some(parsed)))
    case None =>
      match FindError(response.errors, f.name)
      case Some(j) => f.(status := Error, progress := 100, detail := f.detail.(error := Some(response.errors[j].error)))
      case None => f
  }

  /** The merge of the response for the file called `name`: only same-name entries are settled. */
  function Merge(entries: seq<Entry<CvDetail>>, name: string, response: UploadResponse): seq<Entry<CvDetail>> {
    UpdateWhere(entries, (f: Entry<CvDetail>) => f.name == name, (f: Entry<CvDetail>) => Settle(f, response))
  }

  /** The dispatch of the file called `name`: same-name entries still uploading go to processing at 50%. */
  function Dispatch(entries: seq<Entry<CvDetail>>, name: string): seq<Entry<CvDetail>> {
    UpdateWhere(entries, (f: Entry<CvDetail>) => f.name == name && f.status == Uploading,
                (f: Entry<CvDetail>) => f.(status := Processing, progress := 50))
  }

  /** The dispatches of every file of a batch, in order. */
  function DispatchAll(entries: seq<Entry<CvDetail>>, files: seq<FileInfo>): (r: seq<Entry<CvDetail>>)
    ensures |r| == |entries|
    decreases |files|
  {
    if files == [] then entries
    else Dispatch(DispatchAll(entries, files[..|files| - 1]), files[|files| - 1].name)
  }

  /** Dispatching one more file of the batch is one more `Dispatch`. */
  lemma DispatchOneMore(entries: seq<Entry<CvDetail>>, files: seq<FileInfo>, i: nat)
    requires i < |files|
    ensures DispatchAll(entries, files[..i + 1]) == Dispatch(DispatchAll(entries, files[..i]), files[i].name)
  {
    assert files[..i + 1][..i] == files[..i];
  }

  /**
   * After the dispatches of a batch, an entry is at processing/50 exactly when
   * it was uploading and some file of the batch has its name; every other
   * entry is as it was.
   */
  lemma {:induction false} DispatchAllAt(entries: seq<Entry<CvDetail>>, files: seq<FileInfo>, k: nat)
    requires k < |entries|
    ensures DispatchAll(entries, files)[k] ==
      if entries[k].status == Uploading && entries[k].name in Names(files)
      then entries[k].(status := Processing, progress := 50)
      else entries[k]
    decreases |files|
  {
    if files != [] {
      var init := files[..|files| - 1];
      DispatchAllAt(entries, init, k);
      assert Names(files) == Names(init) + [files[|files| - 1].name];
    }
  }

  /**
   * The state after one call of `handleFileUpload`: nothing changes when no
   * file is admitted; otherwise one entry per admitted file is appended in
   * order and dispatched at once, and an older entry changes only when it is
   * still uploading under the name of a file in the batch.
   */
  lemma UploadBatchEffect(entries: seq<Entry<CvDetail>>, files: seq<FileInfo>, clock: nat -> nat)
    requires Admit(files) != []
    ensures var valid := Admit(files);
      var r := DispatchAll(entries + NewEntries(valid, clock, Fresh), valid);
      && |r| == |entries| + |valid|
      && r[..|entries|] == DispatchAll(entries, valid)
      && (forall k :: 0 <= k < |valid| ==>
            r[|entries| + k] == Entry(BatchId(clock(k), k), valid[k].name, valid[k].size, valid[k].mime, Processing, 50, Fresh))
  {
    var valid := Admit(files);
    var added := NewEntries(valid, clock, Fresh);
    OlderEntriesDispatched(entries, added, valid);
    forall k | 0 <= k < |valid|
      ensures DispatchAll(entries + added, valid)[|entries| + k] ==
        Entry(BatchId(clock(k), k), valid[k].name, valid[k].size, valid[k].mime, Processing, 50, Fresh)
    {
      NewEntryDispatched(entries, valid, clock, k);
    }
  }

  /** Appending entries does not change how the dispatches treat the older ones. */
  lemma OlderEntriesDispatched(entries: seq<Entry<CvDetail>>, added: seq<Entry<CvDetail>>, valid: seq<FileInfo>)
    ensures DispatchAll(entries + added, valid)[..|entries|] == DispatchAll(entries, valid)
  {
    var r := DispatchAll(entries + added, valid);
    forall k | 0 <= k < |entries|
      ensures r[k] == DispatchAll(entries, valid)[k]
    {
      DispatchAllAt(entries + added, valid, k);
      DispatchAllAt(entries, valid, k);
    }
  }

  /** The k-th new entry of a batch ends the dispatches at processing, 50%. */
  lemma NewEntryDispatched(entries: seq<Entry<CvDetail>>, valid: seq<FileInfo>, clock: nat -> nat, k: nat)
    requires k < |valid|
    ensures DispatchAll(entries + NewEntries(valid, clock, Fresh), valid)[|entries| + k] ==
      Entry(BatchId(clock(k), k), valid[k].name, valid[k].size, valid[k].mime, Processing, 50, Fresh)
  {
    var added := NewEntries(valid, clock, Fresh);
    assert Names(valid)[k] == valid[k].name;
    AppendedDispatched(entries, added, valid, k);
  }

  /** An appended entry still uploading under the name of a batch file ends the dispatches at processing, 50%. */
  lemma AppendedDispatched(entries: seq<Entry<CvDetail>>, added: seq<Entry<CvDetail>>, valid: seq<FileInfo>, k: nat)
    requires k < |added| && added[k].status == Uploading && added[k].name in Names(valid)
    ensures DispatchAll(entries + added, valid)[|entries| + k] == added[k].(status := Processing, progress := 50)
  {
    assert (entries + added)[|entries| + k] == added[k];
    UploadingDispatched(entries + added, valid, |entries| + k);
  }

  /** An entry still uploading under the name of a batch file ends the dispatches at processing, 50%. */
  lemma UploadingDispatched(entries: seq<Entry<CvDetail>>, files: seq<FileInfo>, i: nat)
    requires i < |entries| && entries[i].status == Uploading && entries[i].name in Names(files)
    ensures DispatchAll(entries, files)[i] == entries[i].(status := Processing, progress := 50)
  {
    DispatchAllAt(entries, files, i);
  }

  /**
   * What a response does to the entry at index `k`: an entry with another name
   * is untouched; for a same-name entry a matching processed record wins and
   * completes it with the payload and its key count, otherwise a matching
   * error record fails it with that record's message, otherwise it is untouched.
   */
  lemma MergeAt(entries: seq<Entry<CvDetail>>, name: string, response: UploadResponse, k: nat)
    requires k < |entries|
    ensures |Merge(entries, name, response)| == |entries|
    ensures var f, g := entries[k], Merge(entries, name, response)[k];
      && g.id == f.id && g.name == f.name && g.size == f.size && g.mime == f.mime
      && (f.name != name ==> g == f)
      && (f.name == name && (exists i :: 0 <= i < |response.processed| && response.processed[i].filename == name) ==>
            var p := response.processed[FindProcessed(response.processed, name).value];
            g.status == Completed && g.progress == 100 && g.detail.error == f.detail.error
            && g.detail.parsedData == Some(Payload(p)) && g.detail.extractedFields == Some(KeyCount(Payload(p))))
      && ((f.name == name && (forall i :: 0 <= i < |response.processed| ==> response.processed[i].filename != name)
           && (exists j :: 0 <= j < |response.errors| && response.errors[j].filename == name)) ==>
            g == f.(status := Error, progress := 100,
                    detail := f.detail.(error := Some(response.errors[FindError(response.errors, name).value].error))))
      && ((f.name == name && (forall i :: 0 <= i < |response.processed| ==> response.processed[i].filename != name)
           && (forall j :: 0 <= j < |response.errors| ==> response.errors[j].filename != name)) ==> g == f)
  {
  }

  /** A request that failed marks every entry of that name as failed with "Upload failed". */
  lemma FailedUploadMarksError(entries: seq<Entry<CvDetail>>, name: string, k: nat)
    requires k < |entries| && entries[k].name == name
    ensures Merge(entries, name, FailedUpload(name))[k] ==
      entries[k].(status := Error, progress := 100, detail := entries[k].detail.(error := Some("Upload failed")))
  {
  }

  /** The merge is keyed by name: all entries that share a name are settled by the same response the same way. */
  lemma SameNameSameOutcome(entries: seq<Entry<CvDetail>>, name: string, response: UploadResponse, j: nat, k: nat)
    requires j < |entries| && k < |entries| && entries[j].name == name && entries[k].name == name
    requires FindProcessed(response.processed, name).Some? || FindError(response.errors, name).Some?
    ensures Merge(entries, name, response)[j].status == Merge(entries, name, response)[k].status
    ensures Merge(entries, name, response)[j].progress == Merge(entries, name, response)[k].progress == 100
  {
  }

  /** Removal by id removes exactly those entries, keeps the others in order and is idempotent. */
  lemma RemoveFileEffect(entries: seq<Entry<CvDetail>>, id: string)
    ensures forall k :: 0 <= k < |RemoveById(entries, id)| ==> RemoveById(entries, id)[k].id != id
    ensures forall k :: 0 <= k < |entries| && entries[k].id != id ==> entries[k] in RemoveById(entries, id)
    ensures RemoveById(RemoveById(entries, id), id) == RemoveById(entries, id)
  {
    RemoveByIdIdempotent(entries, id);
  }

  /** The tracked list of `UploadedFile`s. */
  class CvUploadTracker {
    var uploadedFiles: seq<Entry<CvDetail>>

    constructor ()
      ensures uploadedFiles == []
    {
      uploadedFiles := [];
    }

    /**
     * `handleFileUpload(files)` up to the first `await` of each callback;
     * `clock(k)` is `Date.now()` for the k-th new entry. Returns the admitted files, whose uploads are
     * now in flight.
     */
    method HandleFileUpload(files: seq<FileInfo>, clock: nat -> nat) returns (validFiles: seq<FileInfo>)
      modifies this
      ensures validFiles == Admit(files)
      ensures validFiles == [] ==> uploadedFiles == old(uploadedFiles)
      ensures validFiles != [] ==>
        uploadedFiles == DispatchAll(old(uploadedFiles) + NewEntries(validFiles, clock, Fresh), validFiles)
    {
      validFiles := Admit(files);
      if |validFiles| == 0 {
        return;
      }
      var newFiles := NewEntries(validFiles, clock, Fresh);
      uploadedFiles := uploadedFiles + newFiles;
      ghost var appended := uploadedFiles;
      var i := 0;
      while i < |validFiles|
        invariant 0 <= i <= |validFiles|
        invariant uploadedFiles == DispatchAll(appended, validFiles[..i])
      {
        var file := validFiles[i];
        uploadedFiles := Dispatch(uploadedFiles, file.name);
        DispatchOneMore(appended, validFiles, i);
        i := i + 1;
      }
      assert validFiles[..i] == validFiles;
    }

    /** The arrival of the upload response for the file called `name`. */
    method ReceiveResponse(name: string, response: UploadResponse)
      modifies this
      ensures uploadedFiles == Merge(old(uploadedFiles), name, response)
    {
      uploadedFiles := Merge(uploadedFiles, name, response);
    }

    /** `removeFile(id)`. */
    method RemoveFile(id: string)
      modifies this
      ensures uploadedFiles == RemoveById(old(uploadedFiles), id)
    {
      uploadedFiles := RemoveById(uploadedFiles, id);
    }
  }
}
