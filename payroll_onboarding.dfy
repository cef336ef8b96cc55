/**
  The payroll onboarding wizard: four steps (welcome, upload, rules review,
  validation) and three files, each of which goes from idle to processing
  when its upload button is pressed and from processing to uploaded when the
  simulated 2-second processing timer fires.
*/
module PayrollOnboarding {

  /** The wizard's steps 1 to 4. */
  type WizardStep = s: int | 1 <= s <= 4 witness 1

  /** The three files the upload step asks for. */
  datatype FileKind = Payroll | Timekeeping | Policies

  /** One file's upload state. */
  datatype FileStatus = FileStatus(uploaded: bool, processing: bool)

  /** The `files` record, one status per kind. */
  datatype Files = Files(payroll: FileStatus, timekeeping: FileStatus, policies: FileStatus)

  /** Neither uploaded nor processing: the only state that shows the upload button. */
  const Idle: FileStatus := FileStatus(false, false)

  /** The status of one file. */
  function Get(files: Files, kind: FileKind): FileStatus {
    match kind
    case Payroll => files.payroll
    case Timekeeping => files.timekeeping
    case Policies => files.policies
  }

  /** `{ ...prev, [type]: status }`: replaces one file's status and copies the other two. */
  function Set(files: Files, kind: FileKind, status: FileStatus): (r: Files)
    ensures Get(r, kind) == status
    ensures forall other :: other != kind ==> Get(r, other) == Get(files, other)
  {
    match kind
    case Payroll => files.(payroll := status)
    case Timekeeping => files.(timekeeping := status)
    case Policies => files.(policies := status)
  }

  /** `allFilesUploaded`. */
  predicate AllFilesUploaded(files: Files) {
    files.payroll.uploaded && files.timekeeping.uploaded && files.policies.uploaded
  }

  /** `allFilesUploaded` holds exactly when every kind of file is uploaded. */
  lemma AllFilesUploadedIff(files: Files)
    ensures AllFilesUploaded(files) <==> forall kind :: Get(files, kind).uploaded
  {
    if !AllFilesUploaded(files) {
      if !files.payroll.uploaded {
        assert !Get(files, Payroll).uploaded;
      } else if !files.timekeeping.uploaded {
        assert !Get(files, Timekeeping).uploaded;
      } else {
        assert !Get(files, Policies).uploaded;
      }
    }
  }

  /** The wizard's state. */
  datatype Wizard = Wizard(step: WizardStep, files: Files)

  /** The state when the component mounts. */
  function Initial(): (w: Wizard)
    ensures w.step == 1
    ensures forall kind :: Get(w.files, kind) == Idle
  {
    Wizard(1, Files(Idle, Idle, Idle))
  }

  datatype Event =
    | SetUpPayroll               // step 1: "Set Up Payroll With AI"
    | ContinueToRules            // step 2: the continue button, disabled until all files are uploaded
    | BackToUpload               // step 3: "Back"
    | ApproveRules               // step 3: "Approve Rules"
    | BackToRules                // step 4: "Back"
    | StartUpload(kind: FileKind)  // step 2: a file's "Upload File" button
    | FinishUpload(kind: FileKind) // that file's processing timer

  /**
    When an event can happen: each button exists only on its own step, the
    continue button is disabled until all files are uploaded, an upload button
    is shown only for an idle file, and a timer fires only for a file being
    processed (the timer runs on whatever step the wizard is then showing).
  */
  predicate Enabled(w: Wizard, e: Event) {
    match e
    case SetUpPayroll => w.step == 1
    case ContinueToRules => w.step == 2 && AllFilesUploaded(w.files)
    case BackToUpload => w.step == 3
    case ApproveRules => w.step == 3
    case BackToRules => w.step == 4
    case StartUpload(kind) => w.step == 2 && Get(w.files, kind) == Idle
    case FinishUpload(kind) => Get(w.files, kind).processing
  }

  /** The state after one event. */
  function Step(w: Wizard, e: Event): (t: Wizard)
    requires Enabled(w, e)
    ensures t.step == w.step <==> e.StartUpload? || e.FinishUpload?
    ensures t.files != w.files ==> e.StartUpload? || e.FinishUpload?
  {
    match e
    case SetUpPayroll => w.(step := 2)
    case ContinueToRules => w.(step := 3)
    case BackToUpload => w.(step := 2)
    case ApproveRules => w.(step := 4)
    case BackToRules => w.(step := 3)
    case StartUpload(kind) => w.(files := Set(w.files, kind, FileStatus(false, true)))
    case FinishUpload(kind) => w.(files := Set(w.files, kind, FileStatus(true, false)))
  }

  /** No file is ever both uploaded and processing. */
  predicate Inv(w: Wizard) {
    forall kind :: !(Get(w.files, kind).uploaded && Get(w.files, kind).processing)
  }

  lemma InitialInv()
    ensures Inv(Initial())
  {
  }

  /** Every event keeps the invariant. */
  lemma StepPreservesInv(w: Wizard, e: Event)
    requires Inv(w) && Enabled(w, e)
    ensures Inv(Step(w, e))
  {
  }

  /** The wizard's step moves along 1→2, 2→3, 3→2, 3→4 and 4→3 only. */
  predicate Move(from: int, to: int) {
    (from == 1 && to == 2) || (from == 2 && to == 3) || (from == 3 && to == 2)
    || (from == 3 && to == 4) || (from == 4 && to == 3)
  }

  /** Every event either keeps the step or makes one of the allowed moves. */
  lemma StepMoves(w: Wizard, e: Event)
    requires Enabled(w, e)
    ensures Step(w, e).step == w.step || Move(w.step, Step(w, e).step)
  {
  }

  /** Each allowed move is made by some button, the move from step 2 once all files are uploaded. */
  lemma EveryMoveHasAButton(w: Wizard, to: WizardStep)
    requires Move(w.step, to) && (w.step == 2 ==> AllFilesUploaded(w.files))
    ensures exists e :: Enabled(w, e) && Step(w, e).step == to
  {
    var e :=
      if w.step == 1 then SetUpPayroll
      else if w.step == 2 then ContinueToRules
      else if w.step == 3 && to == 2 then BackToUpload
      else if w.step == 3 then ApproveRules
      else BackToRules;
    assert Enabled(w, e) && Step(w, e).step == to;
  }

  /** Step 4 has no forward transition: from there the wizard only goes back to step 3. */
  lemma NoForwardFromValidation(w: Wizard, e: Event)
    requires w.step == 4 && Enabled(w, e)
    ensures Step(w, e).step == 4 || Step(w, e).step == 3
  {
  }

  /** The rules step is reached from the upload step exactly when all three files are uploaded. */
  lemma ContinueNeedsAllUploads(w: Wizard)
    requires w.step == 2
    ensures (exists e :: Enabled(w, e) && Step(w, e).step == 3) <==> AllFilesUploaded(w.files)
  {
    if AllFilesUploaded(w.files) {
      assert Enabled(w, ContinueToRules) && Step(w, ContinueToRules).step == 3;
    }
  }

  /** Starting an upload marks that file processing and not uploaded; the other files are copied unchanged. */
  lemma StartUploadTouchesOnlyItsFile(w: Wizard, kind: FileKind)
    requires Enabled(w, StartUpload(kind))
    ensures Get(Step(w, StartUpload(kind)).files, kind) == FileStatus(false, true)
    ensures forall other :: other != kind ==> Get(Step(w, StartUpload(kind)).files, other) == Get(w.files, other)
    ensures Step(w, StartUpload(kind)).step == w.step
  {
  }

  /** The processing timer marks that file uploaded and not processing; the other files are copied unchanged. */
  lemma FinishUploadTouchesOnlyItsFile(w: Wizard, kind: FileKind)
    requires Enabled(w, FinishUpload(kind))
    ensures Get(Step(w, FinishUpload(kind)).files, kind) == FileStatus(true, false)
    ensures forall other :: other != kind ==> Get(Step(w, FinishUpload(kind)).files, other) == Get(w.files, other)
    ensures Step(w, FinishUpload(kind)).step == w.step
  {
  }

  /** An uploaded file stays uploaded, whatever happens next. */
  lemma UploadedNeverReverts(w: Wizard, e: Event, kind: FileKind)
    requires Inv(w) && Enabled(w, e) && Get(w.files, kind).uploaded
    ensures Get(Step(w, e).files, kind).uploaded
  {
  }

  /** Moving between steps never touches the files, so going back to the upload step keeps finished uploads. */
  lemma NavigationKeepsFiles(w: Wizard, e: Event)
    requires Enabled(w, e) && !e.StartUpload? && !e.FinishUpload?
    ensures Step(w, e).files == w.files
  {
  }

  /** Starting and finishing all three uploads from an idle upload step enables the continue button. */
  lemma UploadAllThenContinue(w: Wizard)
    requires w.step == 2 && forall kind :: Get(w.files, kind) == Idle
    ensures var w1 := Step(Step(w, StartUpload(Payroll)), FinishUpload(Payroll));
      var w2 := Step(Step(w1, StartUpload(Timekeeping)), FinishUpload(Timekeeping));
      var w3 := Step(Step(w2, StartUpload(Policies)), FinishUpload(Policies));
      Enabled(w3, ContinueToRules)
  {
    assert Get(w.files, Payroll) == Idle && Get(w.files, Timekeeping) == Idle && Get(w.files, Policies) == Idle;
  }

  /** The component's state held as fields, one method per handler. */
  class OnboardingWizard {
    var currentStep: WizardStep
    var files: Files

    function State(): Wizard
      reads this
    {
      Wizard(currentStep, files)
    }

    constructor ()
      ensures State() == Initial()
    {
      currentStep := 1;
      files := Files(Idle, Idle, Idle);
    }

    /** `allFilesUploaded` on the current state. */
    function FilesReady(): (ready: bool)
      reads this
      ensures ready <==> forall kind :: Get(files, kind).uploaded
    {
      AllFilesUploadedIff(files);
      files.payroll.uploaded && files.timekeeping.uploaded && files.policies.uploaded
    }

    /** A navigation button: `setCurrentStep` with the button's target step. */
    method Navigate(e: Event)
      requires Enabled(State(), e) && !e.StartUpload? && !e.FinishUpload?
      requires Inv(State())
      modifies this
      ensures State() == Step(old(State()), e)
      ensures Inv(State())
    {
      match e {
        case SetUpPayroll => currentStep := 2;
        case ContinueToRules => currentStep := 3;
        case BackToUpload => currentStep := 2;
        case ApproveRules => currentStep := 4;
        case BackToRules => currentStep := 3;
      }
      StepPreservesInv(old(State()), e);
    }

    /** The first half of `handleFileUpload`: the file is marked processing and its timer starts. */
    method HandleFileUpload(kind: FileKind)
      requires Enabled(State(), StartUpload(kind)) && Inv(State())
      modifies this
      ensures State() == Step(old(State()), StartUpload(kind))
      ensures Inv(State())
    {
      files := Set(files, kind, FileStatus(false, true));
      StepPreservesInv(old(State()), StartUpload(kind));
    }

    /** The timer callback of `handleFileUpload`: the file is marked uploaded. */
    method OnProcessingDone(kind: FileKind)
      requires Enabled(State(), FinishUpload(kind)) && Inv(State())
      modifies this
      ensures State() == Step(old(State()), FinishUpload(kind))
      ensures Inv(State())
    {
      files := Set(files, kind, FileStatus(true, false));
      StepPreservesInv(old(State()), FinishUpload(kind));
    }
  }
}
