/**
 * The four-step expert-profile workflow of `src/app/expert-profile/page.tsx`.
 *
 * The page holds two input-file slots, the outputs of the four steps and a
 * processing state. `ProfileSession` is that page state as an object whose
 * methods change it in place; `Session` is its value, and the functions on
 * `Session` are the specification the methods are proved against. Each
 * `executeStepN` is one atomic step: the gate, the in-flight update, the
 * call (a total function `backend` given by the caller, which either returns
 * the step's output or throws) and the settling update.
 */
module ExpertProfile {
  import opened Wrappers
  import opened JsValues
  import opened Uploads

  // ---------------------------------------------------------------------------
  // Step outputs and requests

  /** What step 1 returns: both assignment lists and the two extracted texts. */
  datatype Step1Output = Step1Output(cvAssignments: Value, tenderAssignments: Value, cvText: string, tenderText: string)
  datatype Step2Output = Step2Output(selectedAssignments: Value)
  datatype Step3Output = Step3Output(writeUp: Value)
  datatype Step4Output = Step4Output(expertProfile: Value)

  /** The arguments each step's call receives. */
  datatype Step1Request = Step1Request(cv: FileInfo, tender: FileInfo)
  datatype Step2Request = Step2Request(cvAssignments: Value, tenderAssignments: Value)
  datatype Step3Request = Step3Request(selectedAssignments: Value, cvText: string)
  datatype Step4Request = Step4Request(writeUp: Value, cvText: string, tenderAssignments: Value)

  /** What a failing call throws: an `Error` with its message, or any other value. */
  datatype Thrown = ErrorObject(message: string) | OtherThrown

  /** `error instanceof Error ? error.message : "Unknown error"`. */
  function ErrorMessage(t: Thrown): (m: string)
    ensures t.ErrorObject? ==> m == t.message
    ensures t.OtherThrown? ==> m == "Unknown error"
  {
    match t
    case ErrorObject(message) => message
    case OtherThrown => "Unknown error"
  }

  // ---------------------------------------------------------------------------
  // Page state

  /** `StepData`: each step's output, absent until that step has succeeded once. */
  datatype StepData = StepData(step1: Option<Step1Output>, step2: Option<Step2Output>,
                               step3: Option<Step3Output>, step4: Option<Step4Output>)

  const NoStepData := StepData(None, None, None, None)

  /** The four `completed` flags. */
  type Flags = f: seq<bool> | |f| == 4 witness [false, false, false, false]

  /** `ProcessingState`; `error == None` is `error: null`. */
  datatype ProcessingState = ProcessingState(step: nat, isProcessing: bool, error: Option<string>, completed: Flags)

  const InitialProcessing := ProcessingState(0, false, None, [false, false, false, false])

  /** The whole page state. */
  datatype Session = Session(cvFile: Option<FileInfo>, tenderFile: Option<FileInfo>,
                             stepData: StepData, processingState: ProcessingState)

  const InitialSession := Session(None, None, NoStepData, InitialProcessing)

  /** The flags written after step `n` succeeds: the source's four array literals. */
  function FlagsAfter(n: nat): (f: Flags)
    requires 1 <= n <= 4
    ensures forall k :: 0 <= k < 4 ==> (f[k] <==> k < n)
  {
    if n == 1 then [true, false, false, false]
    else if n == 2 then [true, true, false, false]
    else if n == 3 then [true, true, true, false]
    else [true, true, true, true]
  }

  /**
   * What holds between any two user actions: the flags are a prefix of
   * trues, a completed step has its output, and no call is in flight.
   */
  predicate SessionValid(s: Session) {
    var c := s.processingState.completed;
    && (forall k :: 1 <= k < 4 && c[k] ==> c[k - 1])
    && (c[0] ==> s.stepData.step1.Some?)
    && (c[1] ==> s.stepData.step2.Some?)
    && (c[2] ==> s.stepData.step3.Some?)
    && (c[3] ==> s.stepData.step4.Some?)
    && !s.processingState.isProcessing
    && s.processingState.step <= 4
  }

  // ---------------------------------------------------------------------------
  // Selecting the input files

  datatype Slot = Cv | Tender

  function Fill(s: Session, slot: Slot, f: FileInfo): Session {
    match slot
    case Cv => s.(cvFile := Some(f))
    case Tender => s.(tenderFile := Some(f))
  }

  /**
   * `handleFileUpload(files, type)`: only the first file is looked at; one
   * over the ceiling is refused, otherwise it fills the slot `type` names.
   * An absent or empty file list is `files == []`.
   */
  function Upload(s: Session, files: seq<FileInfo>, slot: Slot): (r: Session)
    ensures r.stepData == s.stepData && r.processingState == s.processingState
    ensures files == [] || !Admissible(files[0]) ==> r == s
    ensures files != [] && Admissible(files[0]) ==>
      (slot == Cv ==> r.cvFile == Some(files[0]) && r.tenderFile == s.tenderFile) &&
      (slot == Tender ==> r.tenderFile == Some(files[0]) && r.cvFile == s.cvFile)
  {
    if files == [] || !Admissible(files[0]) then s else Fill(s, slot, files[0])
  }

  /**
   * `handleDrop`: two or more files fill both slots in order; one file fills
   * the CV slot when it is empty and the tender slot otherwise. No size check.
   */
  function Drop(s: Session, files: seq<FileInfo>): (r: Session)
    ensures r.stepData == s.stepData && r.processingState == s.processingState
    ensures |files| >= 2 ==> r.cvFile == Some(files[0]) && r.tenderFile == Some(files[1])
    ensures |files| == 1 && s.cvFile.None? ==> r.cvFile == Some(files[0]) && r.tenderFile == s.tenderFile
    ensures |files| == 1 && s.cvFile.Some? ==> r.cvFile == s.cvFile && r.tenderFile == Some(files[0])
    ensures files == [] ==> r == s
  {
    if |files| >= 2 then s.(cvFile := Some(files[0]), tenderFile := Some(files[1]))
    else if |files| == 1 then (if s.cvFile.None? then s.(cvFile := Some(files[0])) else s.(tenderFile := Some(files[0])))
    else s
  }

  /** The "Remove" buttons empty one slot. */
  function Clear(s: Session, slot: Slot): (r: Session)
    ensures r.stepData == s.stepData && r.processingState == s.processingState
    ensures slot == Cv ==> r.cvFile.None? && r.tenderFile == s.tenderFile
    ensures slot == Tender ==> r.tenderFile.None? && r.cvFile == s.cvFile
  {
    match slot
    case Cv => s.(cvFile := None)
    case Tender => s.(tenderFile := None)
  }

  // ---------------------------------------------------------------------------
  // The four steps

  /** Step 1's gate and arguments: both files, or `None` when either is missing. */
  function Request1(s: Session): (r: Option<Step1Request>)
    ensures r.Some? <==> s.cvFile.Some? && s.tenderFile.Some?
    ensures r.Some? ==> r.value == Step1Request(s.cvFile.value, s.tenderFile.value)
  {
    if s.cvFile.None? || s.tenderFile.None? then None
    else Some(Step1Request(s.cvFile.value, s.tenderFile.value))
  }

  /** Step 2 needs `completed[0]` and step 1's output, and gets both of its assignment lists. */
  function Request2(s: Session): (r: Option<Step2Request>)
    ensures r.Some? <==> s.processingState.completed[0] && s.stepData.step1.Some?
    ensures r.Some? ==> r.value == Step2Request(s.stepData.step1.value.cvAssignments,
                                                s.stepData.step1.value.tenderAssignments)
  {
    if !s.processingState.completed[0] || s.stepData.step1.None? then None
    else Some(Step2Request(s.stepData.step1.value.cvAssignments, s.stepData.step1.value.tenderAssignments))
  }

  /** Step 3 needs `completed[1]` and the outputs of steps 2 and 1. */
  function Request3(s: Session): (r: Option<Step3Request>)
    ensures r.Some? <==> s.processingState.completed[1] && s.stepData.step2.Some? && s.stepData.step1.Some?
    ensures r.Some? ==> r.value == Step3Request(s.stepData.step2.value.selectedAssignments,
                                                s.stepData.step1.value.cvText)
  {
    if !s.processingState.completed[1] || s.stepData.step2.None? || s.stepData.step1.None? then None
    else Some(Step3Request(s.stepData.step2.value.selectedAssignments, s.stepData.step1.value.cvText))
  }

  /** Step 4 needs `completed[2]` and the outputs of steps 3 and 1. */
  function Request4(s: Session): (r: Option<Step4Request>)
    ensures r.Some? <==> s.processingState.completed[2] && s.stepData.step3.Some? && s.stepData.step1.Some?
    ensures r.Some? ==> r.value == Step4Request(s.stepData.step3.value.writeUp, s.stepData.step1.value.cvText,
                                                s.stepData.step1.value.tenderAssignments)
  {
    if !s.processingState.completed[2] || s.stepData.step3.None? || s.stepData.step1.None? then None
    else Some(Step4Request(s.stepData.step3.value.writeUp, s.stepData.step1.value.cvText,
                           s.stepData.step1.value.tenderAssignments))
  }

  /** The in-flight update made before the call: step `n`, processing, no error. */
  function InFlight(s: Session, n: nat): Session {
    s.(processingState := s.processingState.(step := n, isProcessing := true, error := None))
  }

  /** The update after a successful call of step `n`, with `data` holding its output. */
  function Succeed(s: Session, n: nat, data: StepData): Session
    requires 1 <= n <= 4
  {
    s.(stepData := data,
       processingState := s.processingState.(step := n, isProcessing := false, completed := FlagsAfter(n)))
  }

  /** The update after a call that threw `t`. */
  function Fail(s: Session, t: Thrown): Session {
    s.(processingState := s.processingState.(isProcessing := false, error := Some(ErrorMessage(t))))
  }

  function Execute1(s: Session, outcome: Result<Step1Output, Thrown>): Session {
    if Request1(s).None? then s
    else
      var f := InFlight(s, 1);
      match outcome
      case Success(o) => Succeed(f, 1, f.stepData.(step1 := Some(o)))
      case Failure(t) => Fail(f, t)
  }

  function Execute2(s: Session, outcome: Result<Step2Output, Thrown>): Session {
    if Request2(s).None? then s
    else
      var f := InFlight(s, 2);
      match outcome
      case Success(o) => Succeed(f, 2, f.stepData.(step2 := Some(o)))
      case Failure(t) => Fail(f, t)
  }

  function Execute3(s: Session, outcome: Result<Step3Output, Thrown>): Session {
    if Request3(s).None? then s
    else
      var f := InFlight(s, 3);
      match outcome
      case Success(o) => Succeed(f, 3, f.stepData.(step3 := Some(o)))
      case Failure(t) => Fail(f, t)
  }

  function Execute4(s: Session, outcome: Result<Step4Output, Thrown>): Session {
    if Request4(s).None? then s
    else
      var f := InFlight(s, 4);
      match outcome
      case Success(o) => Succeed(f, 4, f.stepData.(step4 := Some(o)))
      case Failure(t) => Fail(f, t)
  }

  /** `resetProcess`. */
  function Reset(s: Session): (r: Session)
    ensures r.cvFile.None? && r.tenderFile.None? && r.stepData == NoStepData
    ensures r.processingState.step == 0 && !r.processingState.isProcessing && r.processingState.error.None?
    ensures forall k :: 0 <= k < 4 ==> !r.processingState.completed[k]
  {
    InitialSession
  }

  /** The "Dismiss" button of the error card. */
  function Dismiss(s: Session): (r: Session)
    ensures r.processingState.error.None?
    ensures r == s.(processingState := s.processingState.(error := None))
  {
    s.(processingState := s.processingState.(error := None))
  }

  // ---------------------------------------------------------------------------
  // What a step does, stated once

  /** The step outputs other than step `n`'s are the same in `d` and `e`. */
  predicate OthersKept(d: StepData, e: StepData, n: nat) {
    && (n == 1 || e.step1 == d.step1)
    && (n == 2 || e.step2 == d.step2)
    && (n == 3 || e.step3 == d.step3)
    && (n == 4 || e.step4 == d.step4)
  }

  /** `after` is `before` with step `n` settled successfully. */
  predicate SucceededAt(before: Session, after: Session, n: nat) {
    && after.cvFile == before.cvFile && after.tenderFile == before.tenderFile
    && OthersKept(before.stepData, after.stepData, n)
    && (forall k :: 0 <= k < 4 ==> (after.processingState.completed[k] <==> k < n))
    && after.processingState.step == n
    && !after.processingState.isProcessing
    && after.processingState.error.None?
  }

  /** `after` is `before` with step `n` settled by a call that threw `t`. */
  predicate FailedAt(before: Session, after: Session, n: nat, t: Thrown) {
    && after.cvFile == before.cvFile && after.tenderFile == before.tenderFile
    && after.stepData == before.stepData
    && after.processingState.completed == before.processingState.completed
    && after.processingState.step == n
    && !after.processingState.isProcessing
    && after.processingState.error == Some(ErrorMessage(t))
  }

  /** A refused step changes nothing; an admitted one succeeds or fails as its outcome says. */
  lemma Step1Effect(s: Session, outcome: Result<Step1Output, Thrown>)
    ensures s.cvFile.None? || s.tenderFile.None? ==> Execute1(s, outcome) == s
    ensures Request1(s).Some? && outcome.Success? ==>
      SucceededAt(s, Execute1(s, outcome), 1) && Execute1(s, outcome).stepData.step1 == Some(outcome.value)
    ensures Request1(s).Some? && outcome.Failure? ==> FailedAt(s, Execute1(s, outcome), 1, outcome.error)
  {
  }

  lemma Step2Effect(s: Session, outcome: Result<Step2Output, Thrown>)
    ensures !s.processingState.completed[0] || s.stepData.step1.None? ==> Execute2(s, outcome) == s
    ensures Request2(s).Some? && outcome.Success? ==>
      SucceededAt(s, Execute2(s, outcome), 2) && Execute2(s, outcome).stepData.step2 == Some(outcome.value)
    ensures Request2(s).Some? && outcome.Failure? ==> FailedAt(s, Execute2(s, outcome), 2, outcome.error)
  {
  }

  lemma Step3Effect(s: Session, outcome: Result<Step3Output, Thrown>)
    ensures !s.processingState.completed[1] || s.stepData.step2.None? || s.stepData.step1.None? ==>
      Execute3(s, outcome) == s
    ensures Request3(s).Some? && outcome.Success? ==>
      SucceededAt(s, Execute3(s, outcome), 3) && Execute3(s, outcome).stepData.step3 == Some(outcome.value)
    ensures Request3(s).Some? && outcome.Failure? ==> FailedAt(s, Execute3(s, outcome), 3, outcome.error)
  {
  }

  lemma Step4Effect(s: Session, outcome: Result<Step4Output, Thrown>)
    ensures !s.processingState.completed[2] || s.stepData.step3.None? || s.stepData.step1.None? ==>
      Execute4(s, outcome) == s
    ensures Request4(s).Some? && outcome.Success? ==>
      SucceededAt(s, Execute4(s, outcome), 4) && Execute4(s, outcome).stepData.step4 == Some(outcome.value)
    ensures Request4(s).Some? && outcome.Failure? ==> FailedAt(s, Execute4(s, outcome), 4, outcome.error)
  {
  }

  // ---------------------------------------------------------------------------
  // The step buttons

  /** `steps[n - 1].canExecute`: both files for step 1, the previous flag for the others. */
  predicate CanExecute(s: Session, n: nat)
    requires 1 <= n <= 4
  {
    if n == 1 then s.cvFile.Some? && s.tenderFile.Some?
    else s.processingState.completed[n - 2]
  }

  /** A step's button is enabled when the step can execute and nothing is in flight. */
  predicate ButtonEnabled(s: Session, n: nat)
    requires 1 <= n <= 4
  {
    CanExecute(s, n) && !s.processingState.isProcessing
  }

  /**
   * Between actions, a step's button is enabled exactly when the step's own
   * gate would admit it, although the buttons of steps 2 to 4 look only at
   * the previous flag and not at the stored outputs.
   */
  lemma ButtonMatchesGate(s: Session)
    requires SessionValid(s)
    ensures ButtonEnabled(s, 1) <==> Request1(s).Some?
    ensures ButtonEnabled(s, 2) <==> Request2(s).Some?
    ensures ButtonEnabled(s, 3) <==> Request3(s).Some?
    ensures ButtonEnabled(s, 4) <==> Request4(s).Some?
  {
    var c := s.processingState.completed;
    assert c[1] ==> c[0];
    assert c[2] ==> c[1];
  }

  // ---------------------------------------------------------------------------
  // Sequences of user actions

  datatype Action =
    | ChooseFile(files: seq<FileInfo>, slot: Slot)
    | DropFiles(files: seq<FileInfo>)
    | RemoveFile(slot: Slot)
    | Run1(outcome1: Result<Step1Output, Thrown>)
    | Run2(outcome2: Result<Step2Output, Thrown>)
    | Run3(outcome3: Result<Step3Output, Thrown>)
    | Run4(outcome4: Result<Step4Output, Thrown>)
    | ResetAll
    | DismissError

  function Apply(s: Session, a: Action): Session {
    match a
    case ChooseFile(files, slot) => Upload(s, files, slot)
    case DropFiles(files) => Drop(s, files)
    case RemoveFile(slot) => Clear(s, slot)
    case Run1(o) => Execute1(s, o)
    case Run2(o) => Execute2(s, o)
    case Run3(o) => Execute3(s, o)
    case Run4(o) => Execute4(s, o)
    case ResetAll => Reset(s)
    case DismissError => Dismiss(s)
  }

  function Replay(s: Session, actions: seq<Action>): Session
    decreases |actions|
  {
    if actions == [] then s else Replay(Apply(s, actions[0]), actions[1..])
  }

  /** Every action keeps the between-actions invariant. */
  lemma ApplyKeepsValid(s: Session, a: Action)
    requires SessionValid(s)
    ensures SessionValid(Apply(s, a))
  {
    match a
    case Run1(o) => Step1Effect(s, o);
    case Run2(o) => Step2Effect(s, o);
    case Run3(o) => Step3Effect(s, o);
    case Run4(o) => Step4Effect(s, o);
    case _ =>
  }

  /** From the initial page, every sequence of actions ends in a valid session. */
  lemma {:induction false} ValidOnEveryTrace(s: Session, actions: seq<Action>)
    requires SessionValid(s)
    ensures SessionValid(Replay(s, actions))
    decreases |actions|
  {
    if actions != [] {
      ApplyKeepsValid(s, actions[0]);
      ValidOnEveryTrace(Apply(s, actions[0]), actions[1..]);
    }
  }

  lemma InitialIsValid()
    ensures SessionValid(InitialSession)
    ensures forall actions :: SessionValid(Replay(InitialSession, actions))
  {
    forall actions ensures SessionValid(Replay(InitialSession, actions)) {
      ValidOnEveryTrace(InitialSession, actions);
    }
  }

  /**
   * Each step is called with exactly the outputs of the steps before it: after
   * steps 1, 2 and 3 succeed in turn with outputs `o1`, `o2`, `o3`, steps 2, 3
   * and 4 are admitted and receive the prescribed fields of those outputs.
   */
  lemma PipelineDataflow(s: Session, o1: Step1Output, o2: Step2Output, o3: Step3Output)
    requires Request1(s).Some?
    ensures var s1 := Execute1(s, Success(o1));
      Request2(s1) == Some(Step2Request(o1.cvAssignments, o1.tenderAssignments))
    ensures var s2 := Execute2(Execute1(s, Success(o1)), Success(o2));
      Request3(s2) == Some(Step3Request(o2.selectedAssignments, o1.cvText))
    ensures var s3 := Execute3(Execute2(Execute1(s, Success(o1)), Success(o2)), Success(o3));
      Request4(s3) == Some(Step4Request(o3.writeUp, o1.cvText, o1.tenderAssignments))
  {
    var s1 := Execute1(s, Success(o1));
    Step1Effect(s, Success(o1));
    Step2Effect(s1, Success(o2));
    var s2 := Execute2(s1, Success(o2));
    Step3Effect(s2, Success(o3));
  }

  /**
   * Redoing step 1 after a complete run clears the later flags, so steps 3
   * and 4 are refused until steps 2 and 3 have been redone, even though their
   * earlier outputs are still stored.
   */
  lemma RedoStep1ClearsLater(s: Session, o1: Step1Output)
    requires SessionValid(s) && s.processingState.completed[3] && Request1(s).Some?
    ensures var r := Execute1(s, Success(o1));
      && r.processingState.completed == [true, false, false, false]
      && Request3(r).None? && Request4(r).None?
      && r.stepData.step2 == s.stepData.step2 && r.stepData.step3 == s.stepData.step3
      && r.stepData.step4.Some?
  {
    Step1Effect(s, Success(o1));
  }

  /**
   * A file chosen, dropped or removed while a step's call is pending commutes
   * with the update that settles the call: the settling updates write only
   * `stepData` and `processingState`, and the file handlers only the two slots.
   */
  lemma FileChangesCommuteWithSettling(s: Session, n: nat, data: StepData, t: Thrown,
                                       files: seq<FileInfo>, slot: Slot)
    requires 1 <= n <= 4
    ensures Succeed(Upload(s, files, slot), n, data) == Upload(Succeed(s, n, data), files, slot)
    ensures Fail(Upload(s, files, slot), t) == Upload(Fail(s, t), files, slot)
    ensures Succeed(Drop(s, files), n, data) == Drop(Succeed(s, n, data), files)
    ensures Fail(Drop(s, files), t) == Drop(Fail(s, t), files)
    ensures Succeed(Clear(s, slot), n, data) == Clear(Succeed(s, n, data), slot)
    ensures Fail(Clear(s, slot), t) == Clear(Fail(s, t), slot)
  {
  }

  // ---------------------------------------------------------------------------
  // The page as an object

  class ProfileSession {
    var cvFile: Option<FileInfo>
    var tenderFile: Option<FileInfo>
    var stepData: StepData
    var processingState: ProcessingState

    function Snapshot(): Session
      reads this
    {
      Session(cvFile, tenderFile, stepData, processingState)
    }

    constructor ()
      ensures Snapshot() == InitialSession
    {
      cvFile := None;
      tenderFile := None;
      stepData := NoStepData;
      processingState := InitialProcessing;
    }

    method HandleFileUpload(files: seq<FileInfo>, slot: Slot)
      modifies this
      ensures Snapshot() == Upload(old(Snapshot()), files, slot)
    {
      if |files| > 0 {
        var file := files[0];
        if file.size > MaxUploadBytes {
          return;
        }
        if slot == Cv {
          cvFile := Some(files[0]);
        } else {
          tenderFile := Some(files[0]);
        }
      }
    }

    method HandleDrop(files: seq<FileInfo>)
      modifies this
      ensures Snapshot() == Drop(old(Snapshot()), files)
    {
      if |files| >= 2 {
        cvFile := Some(files[0]);
        tenderFile := Some(files[1]);
      } else if |files| == 1 {
        if cvFile.None? {
          cvFile := Some(files[0]);
        } else {
          tenderFile := Some(files[0]);
        }
      }
    }

    method RemoveCvFile()
      modifies this
      ensures Snapshot() == Clear(old(Snapshot()), Cv)
    {
      cvFile := None;
    }

    method RemoveTenderFile()
      modifies this
      ensures Snapshot() == Clear(old(Snapshot()), Tender)
    {
      tenderFile := None;
    }

    /** `executeStep1`; `sent` is the call made, `None` when the gate refused. */
    method ExecuteStep1(backend: Step1Request -> Result<Step1Output, Thrown>) returns (sent: Option<Step1Request>)
      modifies this
      ensures sent == Request1(old(Snapshot()))
      ensures sent.None? ==> Snapshot() == old(Snapshot())
      ensures sent.Some? ==> Snapshot() == Execute1(old(Snapshot()), backend(sent.value))
    {
      if cvFile.None? || tenderFile.None? {
        return None;
      }
      var request := Step1Request(cvFile.value, tenderFile.value);
      sent := Some(request);
      processingState := processingState.(step := 1, isProcessing := true, error := None);
      match backend(request)
      case Success(result) =>
        stepData := stepData.(step1 := Some(result));
        processingState := processingState.(step := 1, isProcessing := false, completed := [true, false, false, false]);
      case Failure(error) =>
        processingState := processingState.(isProcessing := false, error := Some(ErrorMessage(error)));
    }

    method ExecuteStep2(backend: Step2Request -> Result<Step2Output, Thrown>) returns (sent: Option<Step2Request>)
      modifies this
      ensures sent == Request2(old(Snapshot()))
      ensures sent.None? ==> Snapshot() == old(Snapshot())
      ensures sent.Some? ==> Snapshot() == Execute2(old(Snapshot()), backend(sent.value))
    {
      if !processingState.completed[0] || stepData.step1.None? {
        return None;
      }
      var request := Step2Request(stepData.step1.value.cvAssignments, stepData.step1.value.tenderAssignments);
      sent := Some(request);
      processingState := processingState.(step := 2, isProcessing := true, error := None);
      match backend(request)
      case Success(result) =>
        stepData := stepData.(step2 := Some(result));
        processingState := processingState.(step := 2, isProcessing := false, completed := [true, true, false, false]);
      case Failure(error) =>
        processingState := processingState.(isProcessing := false, error := Some(ErrorMessage(error)));
    }

    method ExecuteStep3(backend: Step3Request -> Result<Step3Output, Thrown>) returns (sent: Option<Step3Request>)
      modifies this
      ensures sent == Request3(old(Snapshot()))
      ensures sent.None? ==> Snapshot() == old(Snapshot())
      ensures sent.Some? ==> Snapshot() == Execute3(old(Snapshot()), backend(sent.value))
    {
      if !processingState.completed[1] || stepData.step2.None? || stepData.step1.None? {
        return None;
      }
      var request := Step3Request(stepData.step2.value.selectedAssignments, stepData.step1.value.cvText);
      sent := Some(request);
      processingState := processingState.(step := 3, isProcessing := true, error := None);
      match backend(request)
      case Success(result) =>
        stepData := stepData.(step3 := Some(result));
        processingState := processingState.(step := 3, isProcessing := false, completed := [true, true, true, false]);
      case Failure(error) =>
        processingState := processingState.(isProcessing := false, error := Some(ErrorMessage(error)));
    }

    method ExecuteStep4(backend: Step4Request -> Result<Step4Output, Thrown>) returns (sent: Option<Step4Request>)
      modifies this
      ensures sent == Request4(old(Snapshot()))
      ensures sent.None? ==> Snapshot() == old(Snapshot())
      ensures sent.Some? ==> Snapshot() == Execute4(old(Snapshot()), backend(sent.value))
    {
      if !processingState.completed[2] || stepData.step3.None? || stepData.step1.None? {
        return None;
      }
      var request := Step4Request(stepData.step3.value.writeUp, stepData.step1.value.cvText,
                                  stepData.step1.value.tenderAssignments);
      sent := Some(request);
      processingState := processingState.(step := 4, isProcessing := true, error := None);
      match backend(request)
      case Success(result) =>
        stepData := stepData.(step4 := Some(result));
        processingState := processingState.(step := 4, isProcessing := false, completed := [true, true, true, true]);
      case Failure(error) =>
        processingState := processingState.(isProcessing := false, error := Some(ErrorMessage(error)));
    }

    method ResetProcess()
      modifies this
      ensures Snapshot() == Reset(old(Snapshot()))
    {
      cvFile := None;
      tenderFile := None;
      stepData := NoStepData;
      processingState := ProcessingState(0, false, None, [false, false, false, false]);
    }

    method DismissError()
      modifies this
      ensures Snapshot() == Dismiss(old(Snapshot()))
    {
      processingState := processingState.(error := None);
    }
  }
}
