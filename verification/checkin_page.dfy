/** The attendance check-in page: one immutable page state and one pure
    function per handler. The verification call and the storage and database
    calls are external: their outcomes are inputs, and the calls the page makes
    are returned as effects. */
module CheckInPage {
  import opened Common
  import opened Recommendation

  datatype Employee = Employee(id: string, name: string, email: string, photoUrl: string)

  datatype Step = Select | Camera | Verifying | Confirm

  datatype PageState = PageState(
    step: Step,
    selected: Option<Employee>,
    captured: Option<string>,
    showCamera: bool,
    isLoading: bool,
    result: Option<Response>,
    verificationError: Option<string>)

  const Initial := PageState(Select, None, None, false, false, None, None)

  const UnavailableMessage := "Face verification service is currently unavailable. Proceeding with basic check-in."

  /** Choosing an employee from the list. */
  function SelectEmployee(s: PageState, e: Employee): (r: PageState)
    ensures r.selected == Some(e) && r.step == Camera && r.showCamera
    ensures r.captured == s.captured && r.isLoading == s.isLoading
    ensures r.result == s.result && r.verificationError == s.verificationError
  {
    s.(selected := Some(e), step := Camera, showCamera := true)
  }

  /** The verification call the page issues: the employee's reference photo
      and the new capture. */
  datatype VerifyRequest = VerifyRequest(referencePhotoUrl: string, image: string)

  datatype Captured = Captured(state: PageState, request: Option<VerifyRequest>)

  /** The synchronous part of `handleCapture`: store the image, hide the
      camera, enter the verifying step, clear the previous error, and call the
      service if an employee is selected. The previous result is kept. */
  function Capture(s: PageState, image: string): (c: Captured)
    ensures c.state.captured == Some(image) && !c.state.showCamera && c.state.step == Verifying
    ensures c.state.verificationError.None?
    ensures c.state.result == s.result
    ensures c.state.selected == s.selected && c.state.isLoading == s.isLoading
    ensures c.request.Some? <==> s.selected.Some?
    ensures c.request.Some? ==> c.request.value == VerifyRequest(s.selected.value.photoUrl, image)
  {
    var t := s.(captured := Some(image), showCamera := false, step := Verifying, verificationError := None);
    match s.selected
    case None => Captured(t, None)
    case Some(e) => Captured(t, Some(VerifyRequest(e.photoUrl, image)))
  }

  /** How the awaited verification call ended. */
  datatype VerifyOutcome = Completed(response: Response) | Unavailable

  /** The continuation of `handleCapture` once the call settles. It applies
      whatever the current state is: nothing discards a late completion. */
  function FinishVerification(s: PageState, outcome: VerifyOutcome): (r: PageState)
    ensures r.step == Confirm
    ensures outcome.Completed? ==> r.result == Some(outcome.response) && r.verificationError == s.verificationError
    ensures outcome.Unavailable? ==> r.verificationError == Some(UnavailableMessage) && r.result == s.result
    ensures r.selected == s.selected && r.captured == s.captured
    ensures r.showCamera == s.showCamera && r.isLoading == s.isLoading
  {
    match outcome
    case Completed(response) => s.(result := Some(response), step := Confirm)
    case Unavailable => s.(verificationError := Some(UnavailableMessage), step := Confirm)
  }

  /** `resetFlow`: back to employee selection. The verification result and
      error are left as they are. */
  function Reset(s: PageState): (r: PageState)
    ensures r.step == Select && r.selected.None? && r.captured.None? && !r.showCamera
    ensures r.result == s.result && r.verificationError == s.verificationError
    ensures r.isLoading == s.isLoading
  {
    s.(selected := None, captured := None, showCamera := false, step := Select)
  }

  /** A stored result recommends denial. */
  predicate Denies(s: PageState)
  {
    s.result.Some? && !s.result.value.recommendation.allowCheckin
  }

  predicate HasInputs(s: PageState)
  {
    s.selected.Some? && Truthy(s.captured)
  }

  /** How `handleCheckIn` decides before touching storage. */
  datatype Gate = MissingInput | Denied | BypassDeclined | Proceed(bypassed: bool)

  function CheckInGate(s: PageState, operatorConfirms: bool): (g: Gate)
    ensures g == MissingInput <==> !HasInputs(s)
    ensures g == Denied <==> HasInputs(s) && Denies(s)
    ensures g.Proceed? ==> HasInputs(s) && !Denies(s)
    ensures HasInputs(s) && !Denies(s) && Truthy(s.verificationError) && s.result.None? ==>
      (g.Proceed? <==> operatorConfirms) && (g.Proceed? ==> g.bypassed)
    ensures g == BypassDeclined ==> !operatorConfirms && Truthy(s.verificationError) && s.result.None?
    ensures g.Proceed? && g.bypassed ==> Truthy(s.verificationError) && s.result.None?
  {
    if !(s.selected.Some? && Truthy(s.captured)) then MissingInput
    else if s.result.Some? && !s.result.value.recommendation.allowCheckin then Denied
    else if Truthy(s.verificationError) && s.result.None? then
      (if operatorConfirms then Proceed(true) else BypassDeclined)
    else Proceed(false)
  }

  /** The `disabled` condition of the confirm button. */
  predicate ConfirmDisabled(s: PageState)
  {
    s.isLoading || (s.result.Some? && !s.result.value.recommendation.allowCheckin)
  }

  /** The alerts the page shows. */
  datatype Notice = SelectAndCapture | CheckInDenied | UploadFailed | RecordFailed | CheckInSucceeded

  datatype CommitResult = CommitResult(notice: Notice, effects: seq<Effect>)

  predicate CreatesAttendance(effects: seq<Effect>)
  {
    exists k :: 0 <= k < |effects| && effects[k].CreateAttendance?
  }

  /** Upload the capture, then create the attendance record with the URL the
      upload returned. A failure at either call is reported; nothing else is
      attempted after it. */
  function Commit(e: Employee, image: string, upload: UploadReply, recorded: bool): (c: CommitResult)
    ensures |c.effects| >= 1 && c.effects[0] == UploadPhoto(image, AttendanceFolder)
    ensures CreatesAttendance(c.effects) <==> ReturnedUrl(upload)
    ensures forall k :: 0 <= k < |c.effects| && c.effects[k].CreateAttendance? ==>
      k > 0 && c.effects[k - 1].UploadPhoto? && c.effects[k] == CreateAttendance(e.id, upload.url)
    ensures c.effects == [UploadPhoto(image, AttendanceFolder)]
      + (if ReturnedUrl(upload) then [CreateAttendance(e.id, upload.url)] else [])
    ensures c.notice == CheckInSucceeded <==> ReturnedUrl(upload) && recorded
    ensures ReturnedUrl(upload) && !recorded ==> c.notice == RecordFailed
    ensures upload.UploadThrew? ==> c.notice == RecordFailed
    ensures !upload.UploadThrew? && !ReturnedUrl(upload) ==> c.notice == UploadFailed
  {
    var upload1 := UploadPhoto(image, AttendanceFolder);
    match upload
    case UploadThrew => CommitResult(RecordFailed, [upload1])
    case NoUrl => CommitResult(UploadFailed, [upload1])
    case Uploaded(url) =>
      if url == "" then CommitResult(UploadFailed, [upload1])
      else
        var effects := [upload1, CreateAttendance(e.id, url)];
        assert effects[1].CreateAttendance?;
        CommitResult(if recorded then CheckInSucceeded else RecordFailed, effects)
  }

  datatype CheckInResult = CheckInResult(state: PageState, gate: Gate, notice: Option<Notice>, effects: seq<Effect>)

  /** `handleCheckIn`: the gate, then the commit. Returning early leaves the
      state as it was; a commit, whatever its outcome, only toggles
      `isLoading` and ends with it false. */
  function CheckIn(s: PageState, operatorConfirms: bool, upload: UploadReply, recorded: bool): (r: CheckInResult)
    ensures r.gate == CheckInGate(s, operatorConfirms)
    ensures !HasInputs(s) ==> r.effects == [] && r.notice == Some(SelectAndCapture) && r.state == s
    ensures Denies(s) ==> !CreatesAttendance(r.effects)
    ensures !r.gate.Proceed? ==> r.effects == [] && r.state == s
    ensures r.gate.Proceed? ==>
      r.state == s.(isLoading := false) && r.notice.Some?
      && r.effects == Commit(s.selected.value, s.captured.value, upload, recorded).effects
    ensures r.gate.Proceed? ==>
      r.notice == Some(Commit(s.selected.value, s.captured.value, upload, recorded).notice)
    ensures r.gate == Denied ==> r.notice == Some(CheckInDenied)
    ensures r.gate == BypassDeclined ==> r.notice.None?
    ensures r.notice == Some(CheckInSucceeded) <==> r.gate.Proceed? && ReturnedUrl(upload) && recorded
    ensures CreatesAttendance(r.effects) <==> r.gate.Proceed? && ReturnedUrl(upload)
    ensures CreatesAttendance(r.effects) ==>
      CreateAttendance(s.selected.value.id, upload.url) in r.effects
  {
    var g := CheckInGate(s, operatorConfirms);
    match g
    case MissingInput => CheckInResult(s, g, Some(SelectAndCapture), [])
    case Denied => CheckInResult(s, g, Some(CheckInDenied), [])
    case BypassDeclined => CheckInResult(s, g, None, [])
    case Proceed(_) =>
      var c := Commit(s.selected.value, s.captured.value, upload, recorded);
      assert ReturnedUrl(upload) ==> c.effects[1] == CreateAttendance(s.selected.value.id, upload.url);
      CheckInResult(s.(isLoading := false), g, Some(c.notice), c.effects)
  }

  /** The confirm button is disabled exactly when a commit is in flight or
      when the gate would deny: button and gate agree. */
  lemma DisabledAgreesWithGate(s: PageState, operatorConfirms: bool)
    requires HasInputs(s)
    ensures ConfirmDisabled(s) <==> s.isLoading || CheckInGate(s, operatorConfirms) == Denied
    ensures ConfirmDisabled(s.(isLoading := true))
  {
  }

  /** The operator's answer to the bypass prompt matters exactly when the
      service failed and no result is stored; a result that allows check-in,
      or no result and no error, means no prompt. */
  lemma PromptOnlyWithoutResult(s: PageState)
    ensures CheckInGate(s, true) != CheckInGate(s, false) <==>
      HasInputs(s) && Truthy(s.verificationError) && s.result.None?
    ensures s.result.Some? && s.result.value.recommendation.allowCheckin ==>
      CheckInGate(s, false) == CheckInGate(s, true)
  {
  }

  /** A completion that arrives after `resetFlow` is still applied: the page
      shows the confirm step with no employee, and a check-in from there does
      nothing. */
  lemma LateCompletionIsHarmless(s: PageState, response: Response, operatorConfirms: bool, upload: UploadReply, recorded: bool)
    ensures var r := FinishVerification(Reset(s), Completed(response));
      r.step == Confirm && r.result == Some(response) && r.selected.None?
      && CheckIn(r, operatorConfirms, upload, recorded).effects == []
  {
  }

  /** A failed commit keeps the attempt: the same capture and result can be
      committed again without capturing or verifying again. */
  lemma FailedCommitCanBeRetried(s: PageState, operatorConfirms: bool, upload: UploadReply, recorded: bool, url: string)
    requires !s.isLoading
    requires CheckInGate(s, operatorConfirms).Proceed?
    requires !(ReturnedUrl(upload) && recorded)
    requires url != ""
    ensures var first := CheckIn(s, operatorConfirms, upload, recorded);
      first.state == s
      && first.notice != Some(CheckInSucceeded)
      && var second := CheckIn(first.state, operatorConfirms, Uploaded(url), true);
         second.notice == Some(CheckInSucceeded)
         && CreateAttendance(s.selected.value.id, url) in second.effects
  {
    var first := CheckIn(s, operatorConfirms, upload, recorded);
    assert first.state == s;
  }
}
