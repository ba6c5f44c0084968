/** The check-in page as a state machine: the events the rendered page offers
    in each state, the invariant every reachable state satisfies, and what
    that invariant does and does not guarantee about the commit gate.

    `handleCapture` clears the previous verification error but keeps the
    previous result, and `resetFlow` clears neither. A result from an earlier
    attempt, even for another employee, therefore survives into a later
    attempt whose own verification call failed, and the gate then proceeds
    without the bypass prompt. `CaptureRule` selects the handler as written or
    a corrected one that also clears the stale result; the properties of both
    are proved below. */
module CheckInFlow {
  import opened Common
  import opened Liveness
  import opened FaceVerification
  import opened Recommendation
  import opened CheckInPage

  datatype Event =
    | Pick(employee: Employee)
    | Snap(image: string)
    | ServiceAnswered(response: Response)
    | ServiceFailed
    | PressCancel
    | PressCheckIn(operatorConfirms: bool, upload: UploadReply, recorded: bool)

  /** Which `handleCapture` the page runs. */
  datatype CaptureRule = AsWritten | ClearsStaleResult

  /** `handleCapture` with the stale result cleared along with the error. */
  function CaptureFresh(s: PageState, image: string): (c: Captured)
    ensures c.state.result.None? && c.state.verificationError.None?
    ensures c.state == Capture(s, image).state.(result := None)
    ensures c.request == Capture(s, image).request
  {
    var c := Capture(s, image);
    Captured(c.state.(result := None), c.request)
  }

  function CaptureWith(rule: CaptureRule, s: PageState, image: string): Captured
  {
    match rule
    case AsWritten => Capture(s, image)
    case ClearsStaleResult => CaptureFresh(s, image)
  }

  /** The confirm step is rendered (it needs an employee and an image). */
  predicate ConfirmShown(s: PageState)
  {
    s.step == Confirm && s.selected.Some? && Truthy(s.captured)
  }

  /** The page offers the event in state `s`: employee buttons on the select
      step, the camera (which only delivers non-empty screenshots) and its
      cancel button on the camera step, a verification settling only while
      one is in flight, and the confirm and cancel buttons on the confirm
      step, the former unless disabled. */
  predicate Enabled(s: PageState, ev: Event)
    ensures s.step == Verifying ==>
      (Enabled(s, ev) <==> (ev.ServiceAnswered? || ev.ServiceFailed?) && s.selected.Some?)
    ensures Enabled(s, ev) && (ev.ServiceAnswered? || ev.ServiceFailed?) ==> s.step == Verifying
    ensures Enabled(s, ev) && ev.PressCancel? ==> s.step == Camera || s.step == Confirm
    ensures Enabled(s, ev) && ev.PressCheckIn? ==> s.step == Confirm && HasInputs(s) && !s.isLoading
  {
    match ev
    case Pick(_) => s.step == Select
    case Snap(image) => s.step == Camera && s.selected.Some? && s.showCamera && image != ""
    case ServiceAnswered(_) => s.step == Verifying && s.selected.Some?
    case ServiceFailed => s.step == Verifying && s.selected.Some?
    case PressCancel => (s.step == Camera && s.selected.Some? && s.showCamera) || ConfirmShown(s)
    case PressCheckIn(_, _, _) => ConfirmShown(s) && !ConfirmDisabled(s)
  }

  datatype Outcome = Outcome(state: PageState, effects: seq<Effect>)

  function Step(rule: CaptureRule, s: PageState, ev: Event): Outcome
  {
    match ev
    case Pick(e) => Outcome(SelectEmployee(s, e), [])
    case Snap(image) => Outcome(CaptureWith(rule, s, image).state, [])
    case ServiceAnswered(response) => Outcome(FinishVerification(s, Completed(response)), [])
    case ServiceFailed => Outcome(FinishVerification(s, Unavailable), [])
    case PressCancel => Outcome(Reset(s), [])
    case PressCheckIn(confirms, upload, recorded) =>
      var r := CheckIn(s, confirms, upload, recorded);
      Outcome(r.state, r.effects)
  }

  /** The state after a sequence of events and every effect performed on the
      way. */
  function Run(rule: CaptureRule, s: PageState, evs: seq<Event>): Outcome
    decreases |evs|
  {
    if evs == [] then Outcome(s, [])
    else
      var o := Step(rule, s, evs[0]);
      var rest := Run(rule, o.state, evs[1..]);
      Outcome(rest.state, o.effects + rest.effects)
  }

  /** Every event of `evs` is offered when it happens. */
  predicate Runnable(rule: CaptureRule, s: PageState, evs: seq<Event>)
    decreases |evs|
  {
    evs == [] || (Enabled(s, evs[0]) && Runnable(rule, Step(rule, s, evs[0]).state, evs[1..]))
  }

  /** What holds in every state the page can reach. */
  predicate Inv(s: PageState)
  {
    && !s.isLoading
    && (s.step == Select ==> s.selected.None? && s.captured.None? && !s.showCamera)
    && (s.step == Camera ==> s.selected.Some? && s.captured.None? && s.showCamera)
    && (s.step == Verifying ==>
          s.selected.Some? && Truthy(s.captured) && !s.showCamera && s.verificationError.None?)
    && (s.step == Confirm ==>
          s.selected.Some? && Truthy(s.captured) && !s.showCamera
          && (s.result.Some? || Truthy(s.verificationError)))
  }

  /** In addition with the corrected capture: a stored result or error always
      belongs to the current attempt, and exactly one of them is present on
      the confirm step. */
  predicate Fresh(s: PageState)
  {
    && (s.step == Verifying ==> s.result.None? && s.verificationError.None?)
    && (s.step == Confirm ==> (s.result.Some? <==> !Truthy(s.verificationError)))
  }

  lemma StepKeepsInv(rule: CaptureRule, s: PageState, ev: Event)
    requires Inv(s) && Enabled(s, ev)
    ensures Inv(Step(rule, s, ev).state)
    ensures rule == ClearsStaleResult && Fresh(s) ==> Fresh(Step(rule, s, ev).state)
  {
  }

  /** Every state reached by offered events satisfies the invariant, and with
      the corrected capture also `Fresh`. */
  lemma {:induction false} RunKeepsInv(rule: CaptureRule, s: PageState, evs: seq<Event>)
    requires Inv(s) && Runnable(rule, s, evs)
    ensures Inv(Run(rule, s, evs).state)
    ensures rule == ClearsStaleResult && Fresh(s) ==> Fresh(Run(rule, s, evs).state)
    decreases |evs|
  {
    if evs != [] {
      StepKeepsInv(rule, s, evs[0]);
      RunKeepsInv(rule, Step(rule, s, evs[0]).state, evs[1..]);
    }
  }

  /** On a reachable confirm step the screen is rendered, the missing-input
      alert cannot fire, and a check-in that goes ahead without the bypass
      prompt rests on a stored result that allows it. */
  lemma ConfirmStepGate(s: PageState, operatorConfirms: bool)
    requires Inv(s) && s.step == Confirm
    ensures ConfirmShown(s)
    ensures CheckInGate(s, operatorConfirms) != MissingInput
    ensures CheckInGate(s, false).Proceed? ==>
      s.result.Some? && s.result.value.recommendation.allowCheckin
  {
  }

  /** With the corrected capture, a failed verification on the current
      attempt always leads to the bypass prompt: declining it creates nothing,
      accepting it is recorded as a bypass. */
  lemma CorrectedFailureAlwaysPrompts(evs: seq<Event>, upload: UploadReply, recorded: bool)
    requires Runnable(ClearsStaleResult, Initial, evs)
    ensures var s := Run(ClearsStaleResult, Initial, evs).state;
      s.step == Confirm && Truthy(s.verificationError) ==>
        && CheckInGate(s, false) == BypassDeclined
        && CheckInGate(s, true) == Proceed(true)
        && CheckIn(s, false, upload, recorded).effects == []
  {
    RunKeepsInv(ClearsStaleResult, Initial, evs);
  }

  /** Running `evs` then `more` is running their concatenation. */
  lemma {:induction false} RunAppend(rule: CaptureRule, s: PageState, evs: seq<Event>, more: seq<Event>)
    ensures Run(rule, s, evs + more).state == Run(rule, Run(rule, s, evs).state, more).state
    ensures Run(rule, s, evs + more).effects == Run(rule, s, evs).effects + Run(rule, Run(rule, s, evs).state, more).effects
    decreases |evs|
  {
    if evs == [] {
      assert evs + more == more;
    } else {
      var all := evs + more;
      assert all[0] == evs[0];
      assert all[1..] == evs[1..] + more;
      var o := Step(rule, s, evs[0]);
      RunAppend(rule, o.state, evs[1..], more);
      var mid := Run(rule, o.state, evs[1..]);
      var last := Run(rule, mid.state, more);
      assert o.effects + (mid.effects + last.effects) == (o.effects + mid.effects) + last.effects;
    }
  }

  /** Events are offered along `evs + more` exactly when they are along `evs`
      and then along `more`. */
  lemma {:induction false} RunnableAppend(rule: CaptureRule, s: PageState, evs: seq<Event>, more: seq<Event>)
    ensures Runnable(rule, s, evs + more) <==> Runnable(rule, s, evs) && Runnable(rule, Run(rule, s, evs).state, more)
    decreases |evs|
  {
    if evs == [] {
      assert evs + more == more;
    } else {
      var all := evs + more;
      assert all[0] == evs[0];
      assert all[1..] == evs[1..] + more;
      RunnableAppend(rule, Step(rule, s, evs[0]).state, evs[1..], more);
    }
  }

  /** One event from `s`, offered, with no effect. */
  lemma RunOne(rule: CaptureRule, s: PageState, ev: Event)
    ensures Run(rule, s, [ev]) == Outcome(Step(rule, s, ev).state, Step(rule, s, ev).effects)
    ensures Runnable(rule, s, [ev]) <==> Enabled(s, ev)
  {
    assert [ev][1..] == [];
    assert Step(rule, s, ev).effects + [] == Step(rule, s, ev).effects;
  }

  /** The states of the trace below, event by event. */
  lemma StaleApprovalTrace(a: Employee, b: Employee, approval: Response)
    ensures var evs := [Pick(a), Snap("photo-a"), ServiceAnswered(approval), PressCancel,
                        Pick(b), Snap("photo-b"), ServiceFailed];
      && Runnable(AsWritten, Initial, evs)
      && Run(AsWritten, Initial, evs).state
           == PageState(Confirm, Some(b), Some("photo-b"), false, false, Some(approval), Some(UnavailableMessage))
  {
    var s1 := PageState(Camera, Some(a), None, true, false, None, None);
    var s2 := PageState(Verifying, Some(a), Some("photo-a"), false, false, None, None);
    var s3 := PageState(Confirm, Some(a), Some("photo-a"), false, false, Some(approval), None);
    var s4 := PageState(Select, None, None, false, false, Some(approval), None);
    var s5 := PageState(Camera, Some(b), None, true, false, Some(approval), None);
    var s6 := PageState(Verifying, Some(b), Some("photo-b"), false, false, Some(approval), None);
    var s7 := PageState(Confirm, Some(b), Some("photo-b"), false, false, Some(approval), Some(UnavailableMessage));
    // Each suffix of the trace, run from the state before its first event.
    assert Runnable(AsWritten, s6, [ServiceFailed])
      && Run(AsWritten, s6, [ServiceFailed]).state == s7;
    assert Runnable(AsWritten, s5, [Snap("photo-b"), ServiceFailed])
      && Run(AsWritten, s5, [Snap("photo-b"), ServiceFailed]).state == s7;
    assert Runnable(AsWritten, s4, [Pick(b), Snap("photo-b"), ServiceFailed])
      && Run(AsWritten, s4, [Pick(b), Snap("photo-b"), ServiceFailed]).state == s7;
    assert Runnable(AsWritten, s3, [PressCancel, Pick(b), Snap("photo-b"), ServiceFailed])
      && Run(AsWritten, s3, [PressCancel, Pick(b), Snap("photo-b"), ServiceFailed]).state == s7;
    assert Runnable(AsWritten, s2, [ServiceAnswered(approval), PressCancel, Pick(b), Snap("photo-b"), ServiceFailed])
      && Run(AsWritten, s2, [ServiceAnswered(approval), PressCancel, Pick(b), Snap("photo-b"), ServiceFailed]).state == s7;
    assert Runnable(AsWritten, s1, [Snap("photo-a"), ServiceAnswered(approval), PressCancel, Pick(b), Snap("photo-b"), ServiceFailed])
      && Run(AsWritten, s1, [Snap("photo-a"), ServiceAnswered(approval), PressCancel, Pick(b), Snap("photo-b"), ServiceFailed]).state == s7;
  }

  /** The page as written: employee A is approved, the operator cancels,
      picks employee B, and B's verification call fails. The confirm step
      shows the service warning, yet the gate proceeds without the bypass
      prompt on A's stale approval, and B's attendance is created although the
      operator would have declined. */
  lemma StaleApprovalSkipsPrompt(a: Employee, b: Employee, approval: Response)
    requires approval.recommendation.allowCheckin
    ensures var evs := [Pick(a), Snap("photo-a"), ServiceAnswered(approval), PressCancel,
                        Pick(b), Snap("photo-b"), ServiceFailed];
      var s := Run(AsWritten, Initial, evs).state;
      && Runnable(AsWritten, Initial, evs + [PressCheckIn(false, Uploaded("url-b"), true)])
      && s.step == Confirm && s.selected == Some(b) && Truthy(s.verificationError)
      && CheckInGate(s, false) == Proceed(false)
      && CreateAttendance(b.id, "url-b")
           in Run(AsWritten, Initial, evs + [PressCheckIn(false, Uploaded("url-b"), true)]).effects
  {
    var evs := [Pick(a), Snap("photo-a"), ServiceAnswered(approval), PressCancel,
                Pick(b), Snap("photo-b"), ServiceFailed];
    var press := PressCheckIn(false, Uploaded("url-b"), true);
    StaleApprovalTrace(a, b, approval);
    var s7 := Run(AsWritten, Initial, evs).state;
    var c := CheckIn(s7, false, Uploaded("url-b"), true);
    assert c.effects == [UploadPhoto("photo-b", AttendanceFolder), CreateAttendance(b.id, "url-b")];
    RunOne(AsWritten, s7, press);
    RunAppend(AsWritten, Initial, evs, [press]);
    RunnableAppend(AsWritten, Initial, evs, [press]);
    assert Run(AsWritten, Initial, evs + [press]).effects == Run(AsWritten, Initial, evs).effects + c.effects;
  }

  /** The same trace with a concrete approving reply from the service. */
  lemma StaleApprovalExample(a: Employee, b: Employee)
    ensures var evs := [Pick(a), Snap("photo-a"), ServiceAnswered(ApprovingResponse()), PressCancel,
                        Pick(b), Snap("photo-b"), ServiceFailed];
      && Runnable(AsWritten, Initial, evs)
      && Truthy(Run(AsWritten, Initial, evs).state.verificationError)
      && CheckInGate(Run(AsWritten, Initial, evs).state, false) == Proceed(false)
  {
    ApprovingResponseApproves();
    StaleApprovalSkipsPrompt(a, b, ApprovingResponse());
    var evs := [Pick(a), Snap("photo-a"), ServiceAnswered(ApprovingResponse()), PressCancel,
                Pick(b), Snap("photo-b"), ServiceFailed];
    RunnableAppend(AsWritten, Initial, evs, [PressCheckIn(false, Uploaded("url-b"), true)]);
  }
}
