/** The scan session: detects a barcode, validates it through the repository,
    shows the outcome and returns to scanning when the auto-resume fires.

    Asynchronous work is made explicit. A validation task is started on
    detection and finishes later as its own event; every armed auto-resume
    task is recorded with its fate (still sleeping, cancelled, or fired), and
    its wake-up after the delay is an event too. No clock is modelled. */
module ScannerViewModel {
  import opened VenueModel
  import opened ScanResponseModel
  import opened VenueRepository

  datatype ScanState = Scanning | Processing | Result(success: bool, message: string) | Error(message: string)

  /** The custom `==` of `ScanState`: case by case, comparing the payloads. */
  predicate ScanStateEquals(a: ScanState, b: ScanState) {
    match (a, b)
    case (Scanning, Scanning) => true
    case (Processing, Processing) => true
    case (Result(a1, a2), Result(b1, b2)) => a1 == b1 && a2 == b2
    case (Error(x), Error(y)) => x == y
    case _ => false
  }

  /** The custom `==` is structural equality, so the guards that compare a
      state with `.scanning` mean exactly "the state is Scanning". */
  lemma ScanStateEqualsIsStructural(a: ScanState, b: ScanState)
    ensures ScanStateEquals(a, b) <==> a == b
  {
  }

  /** The fate of one armed auto-resume task. */
  datatype ResumeTask = Sleeping | Cancelled | Fired

  /** The view model. `resumeTasks` lists every auto-resume task ever armed,
      oldest first, so its last entry is the `resumeTask` property;
      `validations` holds the barcodes whose validation has not finished. */
  datatype ScannerViewModel = ScannerViewModel(
    scanState: ScanState,
    isScanning: bool,
    venue: Venue,
    resumeTasks: seq<ResumeTask>,
    validations: seq<string>)

  const InvalidVenueText := "Invalid venue configuration."
  const ValidationFailedText := "Failed to validate ticket. Please try again."

  /** Seconds an outcome stays on screen before the auto-resume fires. */
  const ResumeDelay: nat := 5

  function Init(venue: Venue): (s: ScannerViewModel)
    ensures s.scanState == Scanning && s.isScanning
    ensures s.venue == venue && s.resumeTasks == [] && s.validations == []
  {
    ScannerViewModel(Scanning, true, venue, [], [])
  }

  /** `handleBarcodeDetected`: ignored unless scanning; otherwise suspends the
      camera, shows progress and starts validating the barcode. */
  function HandleBarcodeDetected(s: ScannerViewModel, barcode: string): (t: ScannerViewModel)
    ensures s.scanState != Scanning ==> t == s
    ensures s.scanState == Scanning ==>
      && t.scanState == Processing && !t.isScanning
      && t.validations == s.validations + [barcode]
      && t.resumeTasks == s.resumeTasks && t.venue == s.venue
  {
    if s.scanState != Scanning then s
    else s.(scanState := Processing, isScanning := false, validations := s.validations + [barcode])
  }

  /** The state `validateTicket` shows for a barcode: a configuration error
      when the venue has no code, otherwise the repository's verdict or the
      message of the error it threw. */
  function ValidationState(venue: Venue, barcode: string, repository: Repository): (st: ScanState)
    ensures st.Result? || st.Error?
    ensures venue.code.None? ==> st == Error(InvalidVenueText)
    ensures venue.code.Some? ==>
      var reply := repository.scanTicket(venue.code.value, barcode);
      && (reply.Success? ==> st == Result(IsSuccess(reply.value), DisplayMessage(reply.value)))
      && (reply.Failure? && reply.error.Network? ==> st == Error(NetworkErrors.Description(reply.error.error)))
      && (reply.Failure? && reply.error.Foreign? ==> st == Error(ValidationFailedText))
  {
    match venue.code
    case None => Error(InvalidVenueText)
    case Some(code) =>
      match repository.scanTicket(code, barcode)
      case Success(response) => Result(IsSuccess(response), DisplayMessage(response))
      case Failure(err) => Error(FailureMessage(err, ValidationFailedText))
  }

  /** Without a venue code the repository is never consulted: any two
      repositories give the same state. */
  lemma MissingCodeSkipsRepository(venue: Venue, barcode: string, r1: Repository, r2: Repository)
    requires venue.code.None?
    ensures ValidationState(venue, barcode, r1) == ValidationState(venue, barcode, r2) == Error(InvalidVenueText)
  {
  }

  /** Only the last armed task can still be sleeping. */
  predicate OnlyLastMaySleep(tasks: seq<ResumeTask>) {
    forall k :: 0 <= k < |tasks| - 1 ==> tasks[k] != Sleeping
  }

  /** An auto-resume is pending: the current task is still sleeping. */
  predicate ResumePending(tasks: seq<ResumeTask>) {
    |tasks| > 0 && tasks[|tasks| - 1] == Sleeping
  }

  /** `cancel()` on the current task: a sleeping task will do nothing when it
      wakes; a cancelled or finished task is unaffected. */
  function CancelCurrent(tasks: seq<ResumeTask>): (t: seq<ResumeTask>)
    ensures |t| == |tasks| && !ResumePending(t)
    ensures forall k :: 0 <= k < |tasks| - 1 ==> t[k] == tasks[k]
    ensures |tasks| > 0 && tasks[|tasks| - 1] != Sleeping ==> t == tasks
  {
    if ResumePending(tasks) then tasks[|tasks| - 1 := Cancelled] else tasks
  }

  /** `scheduleResume`: cancels the current task, then arms a new one. */
  function ScheduleResume(tasks: seq<ResumeTask>): (t: seq<ResumeTask>)
    ensures |t| == |tasks| + 1 && ResumePending(t)
    ensures OnlyLastMaySleep(tasks) ==> OnlyLastMaySleep(t)
    ensures forall k :: 0 <= k < |tasks| ==> t[k] == (if k == |tasks| - 1 && tasks[k] == Sleeping then Cancelled else tasks[k])
  {
    CancelCurrent(tasks) + [Sleeping]
  }

  /** The end of `validateTicket` for the validation at `index`: shows its
      state and arms the auto-resume exactly once. `isScanning` is not
      touched. */
  function CompleteValidation(s: ScannerViewModel, index: nat, repository: Repository): (t: ScannerViewModel)
    requires index < |s.validations|
    ensures t.scanState == ValidationState(s.venue, s.validations[index], repository)
    ensures t.isScanning == s.isScanning && t.venue == s.venue
    ensures |t.resumeTasks| == |s.resumeTasks| + 1 && ResumePending(t.resumeTasks)
    ensures forall k :: 0 <= k < |s.resumeTasks| ==>
      t.resumeTasks[k] == (if k == |s.resumeTasks| - 1 && s.resumeTasks[k] == Sleeping then Cancelled else s.resumeTasks[k])
    ensures OnlyLastMaySleep(s.resumeTasks) ==> OnlyLastMaySleep(t.resumeTasks)
    ensures multiset(t.validations) + multiset{s.validations[index]} == multiset(s.validations)
  {
    assert s.validations == s.validations[..index] + [s.validations[index]] + s.validations[index + 1..];
    s.(scanState := ValidationState(s.venue, s.validations[index], repository),
       resumeTasks := ScheduleResume(s.resumeTasks),
       validations := s.validations[..index] + s.validations[index + 1..])
  }

  /** `resumeScanning`: back to scanning from any state. The pending
      auto-resume, if any, is left as it is. */
  function ResumeScanning(s: ScannerViewModel): (t: ScannerViewModel)
    ensures t.scanState == Scanning && t.isScanning
    ensures t.resumeTasks == s.resumeTasks && t.validations == s.validations && t.venue == s.venue
  {
    s.(scanState := Scanning, isScanning := true)
  }

  /** `cancelResume`: cancels the pending auto-resume; nothing else changes. */
  function CancelResume(s: ScannerViewModel): (t: ScannerViewModel)
    ensures !ResumePending(t.resumeTasks)
    ensures |t.resumeTasks| == |s.resumeTasks|
    ensures forall k :: 0 <= k < |s.resumeTasks| ==>
      t.resumeTasks[k] == (if k == |s.resumeTasks| - 1 && s.resumeTasks[k] == Sleeping then Cancelled else s.resumeTasks[k])
    ensures OnlyLastMaySleep(s.resumeTasks) ==> forall k :: 0 <= k < |t.resumeTasks| ==> t.resumeTasks[k] != Sleeping
    ensures t == s.(resumeTasks := t.resumeTasks)
  {
    s.(resumeTasks := CancelCurrent(s.resumeTasks))
  }

  /** Task `k` wakes after the delay: it resumes scanning only if it was not
      cancelled; a cancelled, finished or unknown task changes nothing. */
  function ResumeWakes(s: ScannerViewModel, k: nat): (t: ScannerViewModel)
    ensures k < |s.resumeTasks| && s.resumeTasks[k] == Sleeping ==>
      && t.scanState == Scanning && t.isScanning && t.resumeTasks == s.resumeTasks[k := Fired]
      && t.validations == s.validations && t.venue == s.venue
    ensures !(k < |s.resumeTasks| && s.resumeTasks[k] == Sleeping) ==> t == s
  {
    if k < |s.resumeTasks| && s.resumeTasks[k] == Sleeping
    then ResumeScanning(s).(resumeTasks := s.resumeTasks[k := Fired])
    else s
  }

  /** The "Scan Next Ticket" button as evidently intended: cancel the pending
      auto-resume, then resume scanning. */
  function ScanNext(s: ScannerViewModel): (t: ScannerViewModel)
    ensures t.scanState == Scanning && t.isScanning && !ResumePending(t.resumeTasks)
    ensures |t.resumeTasks| == |s.resumeTasks|
    ensures forall k :: 0 <= k < |s.resumeTasks| ==>
      t.resumeTasks[k] == (if k == |s.resumeTasks| - 1 && s.resumeTasks[k] == Sleeping then Cancelled else s.resumeTasks[k])
    ensures OnlyLastMaySleep(s.resumeTasks) ==> forall k :: 0 <= k < |t.resumeTasks| ==> t.resumeTasks[k] != Sleeping
    ensures t.validations == s.validations && t.venue == s.venue
  {
    ResumeScanning(CancelResume(s))
  }

  /** Things that happen to a session. The button exists only while an
      outcome is shown, so it is ignored in other states; a validation or
      task that does not exist cannot finish or wake. */
  datatype Event =
    | BarcodeDetected(barcode: string)
    | ValidationFinished(index: nat, repository: Repository)
    | ResumeTaskWakes(task: nat)
    | ScanNextTapped
    | Disappeared

  predicate ShowsOutcome(s: ScannerViewModel) {
    s.scanState.Result? || s.scanState.Error?
  }

  /** A session step with the button cancelling the pending auto-resume. */
  function Step(s: ScannerViewModel, e: Event): ScannerViewModel {
    match e
    case BarcodeDetected(barcode) => HandleBarcodeDetected(s, barcode)
    case ValidationFinished(i, repository) =>
      if i < |s.validations| then CompleteValidation(s, i, repository) else s
    case ResumeTaskWakes(k) => ResumeWakes(s, k)
    case ScanNextTapped => if ShowsOutcome(s) then ScanNext(s) else s
    case Disappeared => CancelResume(s)
  }

  /** A session step as the source is written: the button only calls
      `resumeScanning`. */
  function StepAsWritten(s: ScannerViewModel, e: Event): ScannerViewModel {
    match e
    case ScanNextTapped => if ShowsOutcome(s) then ResumeScanning(s) else s
    case _ => Step(s, e)
  }

  function Run(s: ScannerViewModel, events: seq<Event>): ScannerViewModel
    decreases |events|
  {
    if |events| == 0 then s else Run(Step(s, events[0]), events[1..])
  }

  function RunAsWritten(s: ScannerViewModel, events: seq<Event>): ScannerViewModel
    decreases |events|
  {
    if |events| == 0 then s else RunAsWritten(StepAsWritten(s, events[0]), events[1..])
  }

  /** The session invariant: the camera runs exactly while scanning; exactly
      one validation is in flight while processing and none otherwise; at
      most one auto-resume is pending, and only while an outcome is shown. */
  predicate Consistent(s: ScannerViewModel) {
    && (s.isScanning <==> s.scanState == Scanning)
    && |s.validations| <= 1
    && (s.scanState == Processing <==> |s.validations| == 1)
    && OnlyLastMaySleep(s.resumeTasks)
    && (ResumePending(s.resumeTasks) ==> ShowsOutcome(s))
  }

  lemma InitConsistent(venue: Venue)
    ensures Consistent(Init(venue))
  {
  }

  /** Every step keeps the session invariant. */
  lemma StepKeepsConsistent(s: ScannerViewModel, e: Event)
    requires Consistent(s)
    ensures Consistent(Step(s, e))
  {
    match e
    case BarcodeDetected(_) =>
    case ValidationFinished(i, repository) =>
    case ResumeTaskWakes(k) =>
      if k < |s.resumeTasks| && s.resumeTasks[k] == Sleeping {
        assert k == |s.resumeTasks| - 1;
      }
    case ScanNextTapped =>
    case Disappeared =>
  }

  /** Any sequence of events from a consistent session ends consistent. */
  lemma {:induction false} RunKeepsConsistent(s: ScannerViewModel, events: seq<Event>)
    requires Consistent(s)
    ensures Consistent(Run(s, events))
    decreases |events|
  {
    if |events| > 0 {
      StepKeepsConsistent(s, events[0]);
      RunKeepsConsistent(Step(s, events[0]), events[1..]);
    }
  }

  /** Arming twice in a row leaves one task pending, the second; the first
      is cancelled and does nothing when it wakes. */
  lemma ArmingTwiceLeavesOnePending(s: ScannerViewModel)
    requires OnlyLastMaySleep(s.resumeTasks)
    ensures var twice := ScheduleResume(ScheduleResume(s.resumeTasks));
      && OnlyLastMaySleep(twice) && ResumePending(twice)
      && twice[|s.resumeTasks|] == Cancelled
      && ResumeWakes(s.(resumeTasks := twice), |s.resumeTasks|) == s.(resumeTasks := twice)
  {
  }

  /** Running a non-empty trace is one step followed by the rest. */
  lemma RunAsWrittenUnfold(s: ScannerViewModel, events: seq<Event>)
    requires |events| > 0
    ensures RunAsWritten(s, events) == RunAsWritten(StepAsWritten(s, events[0]), events[1..])
  {
  }

  /** The events of the race: a first outcome, the button, a second barcode
      and the first outcome's auto-resume waking up. */
  function RaceEvents(repository: Repository): seq<Event> {
    [BarcodeDetected("A"), ValidationFinished(0, repository), ScanNextTapped,
     BarcodeDetected("B"), ResumeTaskWakes(0)]
  }

  /** As written, the stale auto-resume wakes while "B" is being validated
      and turns the camera back on. */
  lemma StaleResumeWakesAsWritten(venue: Venue, repository: Repository)
    ensures var s := RunAsWritten(Init(venue), RaceEvents(repository));
      s.scanState == Scanning && s.isScanning && s.validations == ["B"]
  {
    var evs := RaceEvents(repository);
    var s0 := Init(venue);
    var s1 := StepAsWritten(s0, evs[0]);
    assert s1.validations == ["A"] && s1.resumeTasks == [];
    var s2 := StepAsWritten(s1, evs[1]);
    assert s2.validations == [] && s2.resumeTasks == [Sleeping] && ShowsOutcome(s2);
    var s3 := StepAsWritten(s2, evs[2]);
    assert s3.scanState == Scanning && s3.resumeTasks == [Sleeping];
    var s4 := StepAsWritten(s3, evs[3]);
    assert s4.validations == ["B"] && s4.resumeTasks == [Sleeping];
    var s5 := StepAsWritten(s4, evs[4]);
    assert s5.scanState == Scanning && s5.isScanning && s5.validations == ["B"];
    RunAsWrittenUnfold(s0, evs);
    RunAsWrittenUnfold(s1, evs[1..]);
    RunAsWrittenUnfold(s2, evs[2..]);
    RunAsWrittenUnfold(s3, evs[3..]);
    RunAsWrittenUnfold(s4, evs[4..]);
  }

  /** The race the button leaves open as written: when the validation of "B"
      finishes after the stale wake-up, its outcome is shown with the camera
      running, which breaks the session invariant. */
  lemma ManualResumeRaceAsWritten(venue: Venue, repository: Repository)
    ensures var s := RunAsWritten(Init(venue), RaceEvents(repository) + [ValidationFinished(0, repository)]);
      ShowsOutcome(s) && s.isScanning && !Consistent(s)
  {
    var evs := RaceEvents(repository);
    var s5 := RunAsWritten(Init(venue), evs);
    StaleResumeWakesAsWritten(venue, repository);
    RunAsWrittenAppend(Init(venue), evs, ValidationFinished(0, repository));
    RunAsWrittenUnfold(s5, [ValidationFinished(0, repository)]);
  }

  /** With the same stale wake-up, a second barcode is admitted while the
      first is still being validated: two validations in flight. */
  lemma SecondValidationAsWritten(venue: Venue, repository: Repository)
    ensures var s := RunAsWritten(Init(venue), RaceEvents(repository) + [BarcodeDetected("C")]);
      s.validations == ["B", "C"] && s.scanState == Processing
  {
    var evs := RaceEvents(repository);
    var s5 := RunAsWritten(Init(venue), evs);
    StaleResumeWakesAsWritten(venue, repository);
    RunAsWrittenAppend(Init(venue), evs, BarcodeDetected("C"));
    RunAsWrittenUnfold(s5, [BarcodeDetected("C")]);
  }

  /** Running a trace with one more event is one more step at the end. */
  lemma {:induction false} RunAsWrittenAppend(s: ScannerViewModel, events: seq<Event>, last: Event)
    ensures RunAsWritten(s, events + [last]) == StepAsWritten(RunAsWritten(s, events), last)
    decreases |events|
  {
    if |events| == 0 {
      assert events + [last] == [last];
    } else {
      assert (events + [last])[1..] == events[1..] + [last];
      RunAsWrittenAppend(StepAsWritten(s, events[0]), events[1..], last);
    }
  }

  /** With the intended button the same events leave the validation of "B"
      undisturbed: the stale wake-up finds its task cancelled. */
  lemma ScanNextClosesRace(venue: Venue, repository: Repository)
    ensures var s := Run(Init(venue), RaceEvents(repository));
      s.scanState == Processing && !s.isScanning && s.validations == ["B"]
  {
    var evs := RaceEvents(repository);
    var s0 := Init(venue);
    var s1 := Step(s0, evs[0]);
    assert s1.validations == ["A"] && s1.resumeTasks == [];
    var s2 := Step(s1, evs[1]);
    assert s2.validations == [] && s2.resumeTasks == [Sleeping] && ShowsOutcome(s2);
    var s3 := Step(s2, evs[2]);
    assert s3.scanState == Scanning && s3.resumeTasks == [Cancelled];
    var s4 := Step(s3, evs[3]);
    assert s4.validations == ["B"] && s4.resumeTasks == [Cancelled];
    var s5 := Step(s4, evs[4]);
    assert s5 == s4;
    assert Run(s0, evs) == Run(s1, evs[1..]);
    assert Run(s1, evs[1..]) == Run(s2, evs[2..]);
    assert Run(s2, evs[2..]) == Run(s3, evs[3..]);
    assert Run(s3, evs[3..]) == Run(s4, evs[4..]);
    assert Run(s4, evs[4..]) == Run(s5, evs[5..]);
  }

  /** Tearing the session down cancels only the task already armed: a
      validation still running at that moment arms a fresh auto-resume when
      it finishes, and that task later wakes and resumes scanning. */
  lemma TeardownDuringValidationStillArms(s: ScannerViewModel, repository: Repository)
    requires Consistent(s) && s.scanState == Processing
    ensures var t := Step(Step(s, Disappeared), ValidationFinished(0, repository));
      && ResumePending(t.resumeTasks)
      && Step(t, ResumeTaskWakes(|t.resumeTasks| - 1)).scanState == Scanning
  {
  }
}
