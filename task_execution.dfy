/** The task-execution wizard (pages/TaskExecution.tsx).

    The page walks a contributor through four steps: the brief, the consent
    screen, the execution screen for the task's type, and the confirmation.
    Its state is the step and a handful of flags and inputs; every control
    on screen and every timer updates them. `After` states, as a function
    of the task and the state, what each control or timer does; the class
    `TaskExecution` holds the state in fields and its methods, one per
    handler, are proved to do exactly what `After` says. The lemmas below
    state the wizard's rules in terms of `After`.

    Browser media are left abstract: whether the microphone or the camera
    was granted is a parameter, a captured photo is the data URL passed
    in, and the recorder's `state !== 'inactive'` is the flag
    `recorderActive`. */
module TaskExecutionPage {
  import opened Common
  import opened Types

  datatype Step = Brief | Consent | Execute | Submitted

  /** The component state the handlers change. */
  datatype ExecState = ExecState(
    step: Step,
    isRecording: bool,
    recordingTime: nat,
    hasRecorded: bool,
    recorderActive: bool,
    cameraActive: bool,
    capturedImage: Option<string>,
    textInput: string,
    selectedOption: Option<string>,
    consentGiven: bool,
    isSubmitting: bool)

  /** The state the page mounts with. */
  function Initial(): ExecState
  {
    ExecState(Brief, false, 0, false, false, false, None, "", None, false, false)
  }

  predicate IsAudio(t: Task)       { t.taskType == AudioCollection.Value() }
  predicate IsImage(t: Task)       { t.taskType == ImageCollection.Value() }
  predicate IsLabeling(t: Task)    { t.taskType == ImageLabeling.Value() }
  predicate IsAnnotation(t: Task)  { t.taskType == TextAnnotation.Value() || t.taskType == Survey.Value() }

  /** `isSubmitDisabled()` */
  predicate IsSubmitDisabled(t: Task, s: ExecState)
  {
    if s.isSubmitting then true
    else if IsAudio(t) then !s.hasRecorded
    else if IsImage(t) then !Present(s.capturedImage)
    else if IsLabeling(t) then |s.textInput| < 5
    else if IsAnnotation(t) then !Present(s.selectedOption)
    else true
  }

  /** Submit is enabled exactly when nothing is being submitted and the
      work the task's type asks for is there; a task of any other type can
      never be submitted. */
  lemma SubmitEnabledIffWorkDone(t: Task, s: ExecState)
    ensures !IsSubmitDisabled(t, s) <==>
      !s.isSubmitting &&
      ((IsAudio(t) && s.hasRecorded) ||
       (IsImage(t) && Present(s.capturedImage)) ||
       (IsLabeling(t) && |s.textInput| >= 5) ||
       (IsAnnotation(t) && Present(s.selectedOption)))
  {
  }

  // -----------------------------------------------------------------------
  // recording time

  /** `secs.toString().padStart(2, '0')` */
  function Pad2(n: nat): string
  {
    if n < 10 then "0" + NatToString(n) else NatToString(n)
  }

  /** `formatTime(seconds)`: minutes, a colon, and the seconds within the
      minute on two digits. */
  function FormatTime(seconds: nat): string
  {
    NatToString(seconds / 60) + ":" + Pad2(seconds % 60)
  }

  predicate AllDigits(s: string)
  {
    forall i :: 0 <= i < |s| ==> IsDigit(s[i])
  }

  /** Reads `m:ss` back: two digit groups around one colon, the second of
      exactly two digits and below 60. */
  function ParseTime(text: string): Option<nat>
  {
    var parts := Split(text, ':');
    if |parts| == 2 && parts[0] != [] && AllDigits(parts[0]) && |parts[1]| == 2 && AllDigits(parts[1])
       && ParseNat(parts[1]) < 60
    then Some(ParseNat(parts[0]) * 60 + ParseNat(parts[1]))
    else None
  }

  lemma {:induction false} Pad2Shape(n: nat)
    requires n < 60
    ensures |Pad2(n)| == 2 && AllDigits(Pad2(n)) && ParseNat(Pad2(n)) == n
  {
    ParseNatToString(n);
    if n < 10 {
      var d := NatToString(n);
      assert |d| == 1;
      var p := "0" + d;
      assert p[..1] == "0";
      assert ParseNat(p[..1]) == 0 by {
        assert p[..1][..0] == [];
      }
      assert d[..0] == [];
    } else {
      assert n / 10 < 10;
      assert NatToString(n) == [DigitChar(n / 10)] + [DigitChar(n % 10)];
    }
  }

  /** The displayed time reads back as the number of seconds it shows. */
  lemma {:induction false} FormatTimeRoundTrip(seconds: nat)
    ensures ParseTime(FormatTime(seconds)) == Some(seconds)
  {
    var m := NatToString(seconds / 60);
    var ss := Pad2(seconds % 60);
    Pad2Shape(seconds % 60);
    ParseNatToString(seconds / 60);
    assert ':' !in m by {
      assert forall i :: 0 <= i < |m| ==> IsDigit(m[i]);
    }
    assert ':' !in ss by {
      assert forall i :: 0 <= i < |ss| ==> IsDigit(ss[i]);
    }
    assert FormatTime(seconds) == m + [':'] + ss;
    SplitAt(m, ':', ss);
    SplitNoSeparator(ss, ':');
  }

  /** Two different times never look the same on screen. */
  lemma FormatTimeInjective(a: nat, b: nat)
    requires FormatTime(a) == FormatTime(b)
    ensures a == b
  {
    FormatTimeRoundTrip(a);
    FormatTimeRoundTrip(b);
  }

  // -----------------------------------------------------------------------
  // controls and timers

  /** The controls of the page, and its two timers. `Tick` is the
      one-second interval that runs while recording; `SubmitDone` is the
      two-second timeout `handleSubmit` starts. */
  datatype Action =
    | BackToConsole
    | ProceedToConsent
    | ToggleConsent
    | BackToBrief
    | Initialize
    | StartRecording(micGranted: bool)
    | StopRecording
    | Tick
    | StartCamera(cameraGranted: bool)
    | Capture(dataUrl: string)
    | Retake(cameraGranted: bool)
    | EditText(text: string)
    | ChooseOption(option: string)
    | Reset
    | Submit
    | SubmitDone
    | ReturnToConsole

  /** Whether the control is on screen (or the timer is running) in state `s`. */
  predicate Shown(t: Task, s: ExecState, a: Action)
  {
    match a
    case BackToConsole => s.step == Brief
    case ProceedToConsent => s.step == Brief
    case ToggleConsent => s.step == Consent
    case BackToBrief => s.step == Consent
    case Initialize => s.step == Consent
    case StartRecording(_) => s.step == Execute && IsAudio(t) && !s.isRecording && !s.hasRecorded
    case StopRecording => s.step == Execute && IsAudio(t) && s.isRecording
    case Tick => s.isRecording
    case StartCamera(_) => s.step == Execute && IsImage(t) && !Present(s.capturedImage) && !s.cameraActive
    case Capture(_) => s.step == Execute && IsImage(t) && !Present(s.capturedImage) && s.cameraActive
    case Retake(_) => s.step == Execute && IsImage(t) && Present(s.capturedImage)
    case EditText(_) => s.step == Execute && IsLabeling(t)
    case ChooseOption(o) => s.step == Execute && IsAnnotation(t) && t.options.Some? && o in t.options.value
    case Reset => s.step == Execute
    case Submit => s.step == Execute
    case SubmitDone => s.isSubmitting
    case ReturnToConsole => s.step == Submitted
  }

  /** What the control or timer does. A disabled button (Initialize
      without consent, Reset while submitting, Submit while
      `isSubmitDisabled()`) does nothing; neither does a denied
      microphone or camera, nor Stop when the recorder is already
      inactive. Back and Return only call the page's callbacks. */
  function After(t: Task, s: ExecState, a: Action): ExecState
  {
    match a
    case BackToConsole => s
    case ProceedToConsent => s.(step := Consent)
    case ToggleConsent => s.(consentGiven := !s.consentGiven)
    case BackToBrief => s.(step := Brief)
    case Initialize => if s.consentGiven then s.(step := Execute) else s
    case StartRecording(granted) =>
      if granted then s.(recorderActive := true, isRecording := true, hasRecorded := false, recordingTime := 0) else s
    case StopRecording =>
      if s.recorderActive then s.(recorderActive := false, isRecording := false, hasRecorded := true) else s
    case Tick => s.(recordingTime := s.recordingTime + 1)
    case StartCamera(granted) => if granted then s.(cameraActive := true) else s
    case Capture(url) => s.(capturedImage := Some(url), cameraActive := false)
    case Retake(granted) => s.(capturedImage := None, cameraActive := s.cameraActive || granted)
    case EditText(text) => s.(textInput := text)
    case ChooseOption(o) => s.(selectedOption := Some(o))
    case Reset =>
      if s.isSubmitting then s
      else s.(hasRecorded := false, recordingTime := 0, textInput := "", selectedOption := None,
              capturedImage := None, cameraActive := false)
    case Submit => if IsSubmitDisabled(t, s) then s else s.(isSubmitting := true)
    case SubmitDone => s.(isSubmitting := false, step := Submitted)
    case ReturnToConsole => s
  }

  /** The step changes only from the brief to consent, from consent back
      to the brief or on to execution, and from execution to the
      confirmation. */
  predicate AllowedStep(from: Step, to: Step)
  {
    from == to ||
    (from == Brief && to == Consent) || (from == Consent && to == Brief) ||
    (from == Consent && to == Execute) || (from == Execute && to == Submitted)
  }

  /** Every control and timer keeps to the allowed steps, and the guarded
      ones keep their guards: execution starts only from consent given,
      and the confirmation comes only from the submit timer of a
      submission in flight. */
  lemma StepsFollowTheWizard(t: Task, s: ExecState, a: Action)
    requires Valid(t, s) && Shown(t, s, a)
    ensures AllowedStep(s.step, After(t, s, a).step)
    ensures s.step == Consent && After(t, s, a).step == Execute ==> a == Initialize && s.consentGiven
    ensures s.step != Submitted && After(t, s, a).step == Submitted ==> a == SubmitDone && s.isSubmitting
    ensures !s.isSubmitting && After(t, s, a).isSubmitting ==> a == Submit && !IsSubmitDisabled(t, s)
  {
  }

  /** What holds in every state the page can reach: only an audio task
      records, and only while the recorder runs, on the execution screen,
      before anything is recorded and with nothing being submitted; a
      submission is in flight only on the execution screen, and for an
      audio task only once something was recorded. */
  predicate Valid(t: Task, s: ExecState)
  {
    (s.isRecording ==> IsAudio(t) && s.recorderActive && !s.hasRecorded && s.step == Execute && !s.isSubmitting) &&
    (s.isSubmitting ==> s.step == Execute) &&
    (s.isSubmitting && IsAudio(t) ==> s.hasRecorded)
  }

  lemma InitialValid(t: Task)
    ensures Valid(t, Initial()) && Initial().step == Brief && !Initial().consentGiven
  {
  }

  /** Every control and timer keeps `Valid`. */
  lemma {:induction false} AfterKeepsValid(t: Task, s: ExecState, a: Action)
    requires Valid(t, s) && Shown(t, s, a)
    ensures Valid(t, After(t, s, a))
  {
    if a == Submit && !IsSubmitDisabled(t, s) {
      assert IsAudio(t) ==> s.hasRecorded;
    }
  }

  /** After Reset, submit is disabled whatever the task's type; the
      recording flag, the consent and the step are left as they were. */
  lemma ResetDisablesSubmit(t: Task, s: ExecState)
    requires !s.isSubmitting
    ensures var r := After(t, s, Reset);
      IsSubmitDisabled(t, r) && r.step == s.step && r.isRecording == s.isRecording &&
      r.consentGiven == s.consentGiven && r.recordingTime == 0 && !r.cameraActive
  {
  }

  /** Starting a recording clears the previous one and restarts the clock;
      stopping it marks it recorded; the clock only runs while recording. */
  lemma RecordingFlags(t: Task, s: ExecState)
    ensures var r := After(t, s, StartRecording(true));
      r.isRecording && !r.hasRecorded && r.recordingTime == 0
    ensures s.recorderActive ==> var r := After(t, s, StopRecording); !r.isRecording && r.hasRecorded
    ensures !s.recorderActive ==> After(t, s, StopRecording) == s
    ensures After(t, s, StartRecording(false)) == s
  {
  }

  // -----------------------------------------------------------------------
  // the component

  /** The mounted page for one task. */
  class TaskExecution {
    const task: Task
    var step: Step
    var isRecording: bool
    var recordingTime: nat
    var hasRecorded: bool
    var recorderActive: bool
    var cameraActive: bool
    var capturedImage: Option<string>
    var textInput: string
    var selectedOption: Option<string>
    var consentGiven: bool
    var isSubmitting: bool

    function State(): ExecState
      reads this
    {
      ExecState(step, isRecording, recordingTime, hasRecorded, recorderActive, cameraActive,
                capturedImage, textInput, selectedOption, consentGiven, isSubmitting)
    }

    constructor (task: Task)
      ensures this.task == task && State() == Initial()
    {
      this.task := task;
      step := Brief;
      isRecording := false;
      recordingTime := 0;
      hasRecorded := false;
      recorderActive := false;
      cameraActive := false;
      capturedImage := None;
      textInput := "";
      selectedOption := None;
      consentGiven := false;
      isSubmitting := false;
    }

    /** "Proceed to Consent" */
    method ProceedToConsent()
      requires Shown(task, State(), Action.ProceedToConsent)
      modifies this
      ensures State() == After(task, old(State()), Action.ProceedToConsent)
    {
      step := Consent;
    }

    /** A click anywhere in the consent box. The checkbox sits inside the
        box: its own `onChange` writes the same negated value as the box's
        handler, so every click flips the consent once. */
    method ToggleConsent()
      requires Shown(task, State(), Action.ToggleConsent)
      modifies this
      ensures State() == After(task, old(State()), Action.ToggleConsent)
    {
      consentGiven := !consentGiven;
    }

    /** "Back" on the consent screen. */
    method BackToBrief()
      requires Shown(task, State(), Action.BackToBrief)
      modifies this
      ensures State() == After(task, old(State()), Action.BackToBrief)
    {
      step := Brief;
    }

    /** "Initialize Task", disabled without consent. */
    method Initialize()
      requires Shown(task, State(), Action.Initialize)
      modifies this
      ensures State() == After(task, old(State()), Action.Initialize)
    {
      if consentGiven {
        step := Execute;
      }
    }

    /** `handleStartRecording` */
    method HandleStartRecording(micGranted: bool)
      requires Shown(task, State(), StartRecording(micGranted))
      modifies this
      ensures State() == After(task, old(State()), StartRecording(micGranted))
    {
      if !micGranted {
        return;
      }
      recorderActive := true;
      isRecording := true;
      hasRecorded := false;
      recordingTime := 0;
    }

    /** `handleStopRecording` */
    method HandleStopRecording()
      requires Shown(task, State(), StopRecording)
      modifies this
      ensures State() == After(task, old(State()), StopRecording)
    {
      if recorderActive {
        recorderActive := false;
        isRecording := false;
        hasRecorded := true;
      }
    }

    /** One second of the recording interval. */
    method Tick()
      requires Shown(task, State(), Action.Tick)
      modifies this
      ensures State() == After(task, old(State()), Action.Tick)
    {
      recordingTime := recordingTime + 1;
    }

    /** `startCamera` */
    method StartCamera(cameraGranted: bool)
      requires Shown(task, State(), Action.StartCamera(cameraGranted))
      modifies this
      ensures State() == After(task, old(State()), Action.StartCamera(cameraGranted))
    {
      if cameraGranted {
        cameraActive := true;
      }
    }

    /** `captureImage`: keeps the frame as a data URL and stops the camera. */
    method CaptureImage(dataUrl: string)
      requires Shown(task, State(), Capture(dataUrl))
      modifies this
      ensures State() == After(task, old(State()), Capture(dataUrl))
    {
      capturedImage := Some(dataUrl);
      cameraActive := false;
    }

    /** `retakePhoto` */
    method RetakePhoto(cameraGranted: bool)
      requires Shown(task, State(), Retake(cameraGranted))
      modifies this
      ensures State() == After(task, old(State()), Retake(cameraGranted))
    {
      capturedImage := None;
      if cameraGranted {
        cameraActive := true;
      }
    }

    /** The labeling text area. */
    method EditText(text: string)
      requires Shown(task, State(), Action.EditText(text))
      modifies this
      ensures State() == After(task, old(State()), Action.EditText(text))
    {
      textInput := text;
    }

    /** A click on one of the task's options. */
    method ChooseOption(option: string)
      requires Shown(task, State(), Action.ChooseOption(option))
      modifies this
      ensures State() == After(task, old(State()), Action.ChooseOption(option))
    {
      selectedOption := Some(option);
    }

    /** "Reset", disabled while submitting. */
    method Reset()
      requires Shown(task, State(), Action.Reset)
      modifies this
      ensures State() == After(task, old(State()), Action.Reset)
    {
      if isSubmitting {
        return;
      }
      hasRecorded := false;
      recordingTime := 0;
      textInput := "";
      selectedOption := None;
      capturedImage := None;
      cameraActive := false;
    }

    /** "Submit" (`handleSubmit`), disabled while `isSubmitDisabled()`. */
    method HandleSubmit()
      requires Shown(task, State(), Submit)
      modifies this
      ensures State() == After(task, old(State()), Submit)
    {
      if !IsSubmitDisabled(task, State()) {
        isSubmitting := true;
      }
    }

    /** The two-second timeout of `handleSubmit`. */
    method SubmitTimeout()
      requires Shown(task, State(), SubmitDone)
      modifies this
      ensures State() == After(task, old(State()), SubmitDone)
    {
      isSubmitting := false;
      step := Submitted;
    }
  }
}
