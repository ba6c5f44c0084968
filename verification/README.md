# Facial attendance check-in: a Dafny model

This project models the decision logic of a facial-recognition attendance
system: a Next.js front end whose check-in page selects an employee, captures
a photo, asks a verification service to compare it with the employee's
reference photo, and gates the attendance commit on the answer; and a
FastAPI service that combines four DeepFace models, an image-quality liveness
check and a face analysis into an allow/deny recommendation. The registration
form that creates employees is modelled too.

Everything is pure functions over immutable data. The page state is one record
and every React handler is a function from state to state. Outside calls are
inputs and outputs. DeepFace, OpenCV, the photo upload, the database calls and
the operator's answer to `confirm` are inputs. The calls a page makes are
returned as a list of effects. Confidences are Dafny `real`s, and reasons are
tagged datatypes, not formatted strings.

Modules:

- `Common` (common.dfy): option values, JavaScript truthiness of nullable
  strings, the confidence clamp, upload replies and page effects.
- `Liveness` (liveness.dfy): the liveness decision of `perform_liveness_detection`.
- `FaceVerification` (face_verification.dfy): the four-model vote of
  `verify_faces_with_deepface`.
- `Recommendation` (recommendation.dfy): `generate_recommendation` and the
  composition done by the `verify-attendance` endpoint.
- `CheckInPage` (checkin_page.dfy): the handlers of the check-in page, its
  commit gate and its confirm-button condition.
- `CheckInFlow` (checkin_flow.dfy): the check-in page as a state machine over
  the events the rendered page offers, with its reachable-state invariant and
  the stale-result finding below.
- `RegisterPage` (register_page.dfy): the registration form.

## Model

| member | source | states |
|---|---|---|
| Common.Clamp01 | deepfake-detection/main.py:194-195 | The clamped value always lies in [0,1]. It equals the input when the input is already in range, is 0 below the range and 1 above it. |
| Liveness.RunChecks | deepfake-detection/main.py:172-192 | Before clamping, at most four reasons are recorded and the confidence lies in [0, 0.8]. No reason is recorded iff the confidence is still 0.8. The live flag survives iff the colour variance is at least 1000. A failed colour check always records a reason and leaves at most 0.5. |
| Liveness.RunChecksMeaning | deepfake-detection/main.py:172-192 | Running the four checks in sequence records exactly the failed checks, in service order. It subtracts exactly their penalties from 0.8 and clears the live flag exactly when the colour check fails. |
| Liveness.FailedAmongKeepsOrder | deepfake-detection/main.py:176-192 | Filtering a list of checks keeps exactly the failing ones and preserves the list's check order. |
| Liveness.FailedChecksInServiceOrder | deepfake-detection/main.py:176-192 | Each failed quality check is reported exactly once, in the order blur, lighting, detail, colour. No check that passed is reported. |
| Liveness.Assess | deepfake-detection/main.py:171-208 | The reasons are the failed checks in order, or only "good quality" when none fails. The confidence is 0.8 minus the failed checks' penalties, clamped to [0,1]. The capture is live iff the colour check passes and the confidence is at least 0.5. With no failed check the confidence is 0.8 and the capture is live. |
| Liveness.LiveExactly | deepfake-detection/main.py:173-198 | Live iff the colour variance is at least 1000 and blur and low detail do not both fail. |
| Liveness.NotLiveNamesFailedCheck | deepfake-detection/main.py:197-201 | A not-live verdict on measured metrics always lists at least one failed check and never the good-quality reason. |
| Liveness.Detect | deepfake-detection/main.py:145-216 | Measured metrics get exactly the decision `Assess` makes on them. The confidence is in [0,1] and there is always at least one reason. Live implies the metrics were measured, the colour check passed and the confidence is at least 0.5. A failed measurement gives not-live, confidence 0 and the single reason carrying its error. |
| Liveness.ClearImageIsLive | deepfake-detection/main.py:171-201 | Metrics passing every quality check give a live verdict with confidence 0.8. |
| FaceVerification.Score | deepfake-detection/main.py:226-260 | Each entry names its model and has a confidence in [0,1]. A model that answers keeps its verdict, distance and threshold, with confidence 1 − distance/threshold clamped to [0,1]. That is exactly 1 − distance/threshold when the distance lies between 0 and the threshold, and exactly 0 when it exceeds a positive threshold. A model that raises gives a failed verdict with confidence 0 and its error. |
| FaceVerification.ScoreEach | deepfake-detection/main.py:220-261 | There is exactly one entry per model, in model order, and each is that model's score. |
| FaceVerification.VerifiedCount | deepfake-detection/main.py:247-248 | The number of verifying entries never exceeds the number of entries. `CountExtremes` characterises its extremes. |
| FaceVerification.TotalConfidence | deepfake-detection/main.py:249 | The sum of confidences in [0,1] lies between 0 and the number of entries. |
| FaceVerification.ConsensusOf | deepfake-detection/main.py:267-275 | The source's real thresholds on the count (all, ≥ 4·0.7, ≥ 4·0.3) mean: `strong_match` iff 4 verify, `likely_match` iff 3, `uncertain` iff 2, `no_match` iff at most 1. |
| FaceVerification.Verify | deepfake-detection/main.py:218-282 | The result has one entry per model, in order. The confidence is the mean of the per-model confidences and lies in [0,1]. Verified iff at least two of the four models verify. The consensus label is the one for that count. |
| FaceVerification.CountExtremes | deepfake-detection/main.py:247-248 | The count equals the number of models iff every model verifies, and is 0 iff none does. |
| FaceVerification.ConsensusMeaning | deepfake-detection/main.py:262-275 | `strong_match` iff every model verifies. `no_match` implies not verified. A verified result is never `no_match`. |
| FaceVerification.AllRaisedFailsClosed | deepfake-detection/main.py:251-263 | When every model raises: not verified, `no_match`, confidence 0, and every entry carries its own error. |
| FaceVerification.CloseMatchesVerify | deepfake-detection/main.py:225-265 | Four models verifying at half their threshold give a verified result with mean confidence 0.5. |
| Recommendation.MeetsEveryRequirement | deepfake-detection/main.py:323-328 | Meeting every requirement means: a face is detected, the faces are verified, the capture is live and the weighted confidence is at least 0.5. |
| Recommendation.ConfidenceLevelOf | deepfake-detection/main.py:300-310 | The confidence level is one of five bands with bounds 0.8, 0.6, 0.4 and 0.2. Each band is characterised by both of its bounds. |
| Recommendation.RiskLevelOf | deepfake-detection/main.py:312-320 | Risk is high whenever the capture is not live or the consensus is `no_match`. Risk is low iff live, not `no_match` and the confidence is at least 0.5. Otherwise it is medium. |
| Recommendation.Recommend | deepfake-detection/main.py:284-349 | Check-in is allowed iff all four requirements hold. The reason is the success reason iff allowed. Otherwise the reason names a failed requirement, and every requirement before it in the order face, verification, liveness, confidence holds. It carries the consensus, the liveness reasons or the overall confidence unchanged. Allowed implies verified and live. The overall confidence is 0.6·v + 0.4·l and stays in [0,1]. The levels follow the bands. The liveness reasons are copied unchanged. |
| Recommendation.VerifyAttendance | deepfake-detection/main.py:399-438 | The response reports success and carries the face analysis, the verification, the liveness check and the recommendation drawn from them. Check-in is allowed iff all of these hold: a face was detected; at least two of the four models verified; the quality metrics were measured and judged live; the weighted confidence is at least 0.5. |
| Recommendation.AllowedAttendanceIsBacked | deepfake-detection/main.py:323-328 | End to end, an allowed check-in implies all of the following: a face was found; at least two models verified; the metrics were measured and the colour check passed; the confidence is at least 0.5; the risk is low; the confidence level is low or better. |
| Recommendation.ApprovingResponseApproves | deepfake-detection/main.py:323-328 | A concrete service reply allows check-in: a face, four models verifying at half their threshold, and an image passing every quality check. |
| CheckInPage.SelectEmployee | src/app/checkin/page.tsx:33-37 | Stores the employee, moves to the camera step and shows the camera. Image, loading flag, result and error are unchanged. |
| CheckInPage.Capture | src/app/checkin/page.tsx:39-52 | Stores the image, hides the camera, enters the verifying step and clears the error. The previous result is kept. The service is called iff an employee is selected, with that employee's photo URL and the new image. |
| CheckInPage.FinishVerification | src/app/checkin/page.tsx:54-60 | Always ends in the confirm step. A completed call stores the response and keeps the error. A failed call stores the unavailable message and keeps the previous result. Employee, image, camera and loading flag are unchanged. |
| CheckInPage.Reset | src/app/checkin/page.tsx:121-126 | Back to the select step with no employee, no image and the camera hidden. The result, error and loading flag are unchanged. |
| CheckInPage.CheckInGate | src/app/checkin/page.tsx:63-84 | Missing input iff there is no employee or no image. Denied iff inputs are present and a stored result denies, whatever the error holds. Proceeding needs inputs and no denial. With an error and no result, it proceeds iff the operator confirms, and then counts as a bypass. A declined prompt only happens with an error and no result. A bypass is recorded only with an error and no result. |
| CheckInPage.Commit | src/app/checkin/page.tsx:88-118 | The calls are exactly one upload to the attendance folder. It is followed by one attendance record, with the employee's id and the returned URL, iff the upload returned a URL. Success iff that URL came back and the record was created. No URL is reported as an upload failure. A failed record is reported as a record failure. An upload that throws is also reported as a record failure, because the catch shows the same alert. |
| CheckInPage.CheckIn | src/app/checkin/page.tsx:63-119 | Without employee or image, nothing is uploaded or created and the state is unchanged. A denying result never leads to attendance. A refused check-in changes nothing. A commit only ends with loading off, so step, image and result are preserved on failure. Attendance is created iff the gate proceeds and a URL came back, using the selected employee's id. After a commit, the alert is the commit's own notice. A denial shows the denied alert. A declined bypass shows no alert. Success is reported iff the gate proceeds, a URL came back and the record was created. |
| CheckInPage.DisabledAgreesWithGate | src/app/checkin/page.tsx:351 | With inputs present, the confirm button is disabled exactly when loading or when the gate would deny. The button is always disabled while a commit is loading. |
| CheckInPage.PromptOnlyWithoutResult | src/app/checkin/page.tsx:75-84 | The operator's answer changes the decision iff inputs are present, the service failed and no result is stored. A stored approving result means no prompt. |
| CheckInPage.LateCompletionIsHarmless | src/app/checkin/page.tsx:54-55 | A completion after reset is still applied: confirm step, the response stored, no employee. A check-in from there makes no calls. This is a confirm step with no employee, which breaks `CheckInFlow.Inv`. It could only arise from a cancel during verification, and the rendered page offers none (`CheckInFlow.Enabled`). The confirm screen is not rendered in it. |
| CheckInPage.FailedCommitCanBeRetried | src/app/checkin/page.tsx:93-118 | A failed commit leaves the state exactly as it was. The same attempt can then be committed successfully without capturing or verifying again. |
| CheckInFlow.Enabled | src/app/checkin/page.tsx:162-390 | While verifying, the only events the page offers are the service's answer and its failure, since the verifying screen has no buttons. Those two events are offered only while verifying. Cancel is offered only on the camera and confirm steps. The confirm button is offered only on the confirm step, with an employee and an image and no commit in flight. |
| CheckInFlow.CaptureFresh | src/app/checkin/page.tsx:39-43 | The corrected capture: the same as the page's capture, but it also clears the stored result. No result or error survives into the new attempt. |
| CheckInFlow.StepKeepsInv | src/app/checkin/page.tsx:33-126 | Every event the rendered page offers keeps the reachable-state invariant. The invariant: never loading at rest; nothing selected or captured on the select step; an employee and no image on the camera step; an employee and an image on the verifying and confirm steps; a result or an error on the confirm step. With the corrected capture, every offered event also keeps `Fresh`. |
| CheckInFlow.RunKeepsInv | src/app/checkin/page.tsx:33-126 | Every state reached by offered events satisfies the invariant, and `Fresh` too with the corrected capture. |
| CheckInFlow.ConfirmStepGate | src/app/checkin/page.tsx:63-84 | On a reachable confirm step the screen is rendered and the missing-input alert cannot fire. Going ahead without the prompt requires a stored approving result. |
| CheckInFlow.CorrectedFailureAlwaysPrompts | src/app/checkin/page.tsx:39-84 | With the corrected capture, a reachable confirm step showing the service warning always prompts. Declining creates nothing; accepting counts as a bypass. |
| CheckInFlow.RunAppend | src/app/checkin/page.tsx:33-126 | Running two event sequences one after the other gives the final state and effects of running their concatenation. |
| CheckInFlow.RunnableAppend | src/app/checkin/page.tsx:33-126 | A concatenation of events is all offered iff the first part is, and then the second part from the state it reaches. |
| CheckInFlow.StaleApprovalTrace | src/app/checkin/page.tsx:33-126 | Gives the exact page state after each event of the stale-approval trace, all events being offered. |
| CheckInFlow.StaleApprovalSkipsPrompt | src/app/checkin/page.tsx:39-84 | As written: A is approved, the operator cancels, B is selected and B's verification fails. The gate then proceeds with no prompt, and B's attendance is created even though the operator would decline. |
| CheckInFlow.StaleApprovalExample | src/app/checkin/page.tsx:39-84 | The same trace with the concrete approving reply: offered step by step, it ends showing the warning while the gate proceeds unprompted. |
| RegisterPage.InputChange | src/app/register/page.tsx:22-28 | Changes only the named field. The other field, the photo, the camera and the loading flag are unchanged. |
| RegisterPage.OpenCamera | src/app/register/page.tsx:160 | Shows the camera and changes nothing else. |
| RegisterPage.CloseCamera | src/app/register/page.tsx:173 | Hides the camera and changes nothing else. |
| RegisterPage.Capture | src/app/register/page.tsx:30-33 | Stores the photo and hides the camera. The fields and the loading flag are unchanged. |
| RegisterPage.Retake | src/app/register/page.tsx:192-195 | Clears the photo and shows the camera. The fields and the loading flag are unchanged. |
| RegisterPage.Submit | src/app/register/page.tsx:35-76 | An incomplete form is refused with no calls and no state change. Otherwise it ends with loading off. The calls are exactly one upload to the employees folder. It is followed by one employee record, with the form's name and email and the returned URL, iff the upload returned a URL. Success iff that URL came back and creation succeeded. A failed creation is reported as a registration failure. |
| RegisterPage.SubmitDisabledMatchesGuard | src/app/register/page.tsx:207 | The submit button is disabled exactly when loading or when the submit guard would refuse. It is always disabled while loading. |
| RegisterPage.InputChangesCompose | src/app/register/page.tsx:22-28 | The last edit of a field wins, and edits of different fields commute. |
| RegisterPage.RetakeThenCapture | src/app/register/page.tsx:192-195 | Retaking then capturing equals capturing directly. Capturing then retaking equals retaking. |
| RegisterPage.FilledFormRegisters | src/app/register/page.tsx:35-76 | From the empty form, filling both fields and taking a photo leads to one upload, then an employee record with the typed name and email. Success if both calls succeed. |

## Findings

| source | as written | input that shows it | evidently intended | confidence | as-written member | corrected member |
|---|---|---|---|---|---|---|
| src/app/checkin/page.tsx:39-43 | A new capture clears only the previous error. `resetFlow` clears neither result nor error. A result from an earlier attempt, even for another employee, stays stored. When the new verification call fails, the gate at line 76 sees a result and skips the bypass prompt. | Select A; capture; the service approves; cancel; select B; capture; the service fails; press confirm and decline any prompt. B's attendance is created on A's approval, with no prompt. | Each capture starts from a clean verification state. A failed verification of the current capture then always requires the operator's explicit bypass. | not executed; high | CheckInFlow.StaleApprovalSkipsPrompt | CheckInFlow.CorrectedFailureAlwaysPrompts |

The page model follows the code as written: `CheckInPage.Capture` keeps the old result. `CheckInFlow.CaptureFresh` is the corrected handler. `CaptureRule` selects which handler the state machine runs, and the invariant lemmas are proved for both.

## Left out

- Rendering, CSS classes and the step indicator are left out. The only parts kept are the conditions under which a button or the camera is offered (`CheckInFlow.Enabled`) and the two `disabled` predicates.
- Floating point is not modelled. All confidences are exact reals, so IEEE rounding near the 0.5, 0.8, 0.6, 0.4 and 0.2 thresholds is out of scope.
- Percentage formatting of reasons is left out (`:.1%`, `toFixed`). Reasons and alerts are tags that carry the values they would format.
- DeepFace, OpenCV, PIL, `face_recognition`, temp files and image decoding are left out. The per-model replies, the five quality metrics (or the exception computing them raised) and `face_detected` are inputs.
- `analyze_face_with_deepface` is left out. Of its result only `face_detected` is read by the recommendation.
- FaceVerification.Score: a zero model threshold is treated as Python's `ZeroDivisionError`, which the per-model `except` catches. If DeepFace returned NumPy floats, the division would yield infinity instead. This choice is deliberate.
- FaceVerification.Verify: takes exactly one reply per model of the fixed four-model list. The source's guard for an empty model list (line 263) is unreachable and is not modelled.
- The FastAPI app, CORS, the health, `analyze-face` and `liveness-check` endpoints, and HTTP 400/500 errors are left out. A failed request reaches the page as a verification failure (`Unavailable`).
- `@/lib/deepface-service` is not part of this model. The page's `DeepFaceResponse` is taken to be the service's response body, and a failed request is taken to make the client throw.
- `@/lib/database` and `@/lib/utils` are not part of this model. `uploadPhoto` is an input reply (URL, nothing, or a throw); `createAttendance` and `createEmployee` are an input success flag.
- `dataURLtoFile` is assumed to succeed. The file names it receives, which include `Date.now()`, are not modelled.
- `getEmployees` and the employee list are left out: selection accepts any employee, as the handler does.
- `window.alert` becomes a notice value. `window.confirm` becomes the boolean `operatorConfirms`.
- `router.push('/')` after a successful check-in or registration is left out, as are timestamps, console logging and the registration page's debug connection test.
- Asynchrony is flattened: each awaited call is a separate event or an input outcome, and a check-in is one atomic step. The loading window is covered only by the disabled-button lemmas.
- The interleaving of a commit in flight with a reset is not modelled.
- CheckInPage.CheckIn: the state after a successful commit is the page state with loading off. The navigation that follows is not modelled.
- There is no separate cancelled or committing state, because the page has none. Cancel is `resetFlow`, which does not discard a verification still in flight (`LateCompletionIsHarmless`). Denial is enforced only by the check at src/app/checkin/page.tsx:70 and the disabled button at line 351. A failed commit leaves the state as it was (`FailedCommitCanBeRetried`).
- RegisterPage.Submit: the browser's own form validation is not modelled. That covers the `required` fields at src/app/register/page.tsx:126 and 146 and the email format check of `type="email"` at line 139. In the page, a malformed email such as "abc" never reaches `handleSubmit`, but the model accepts any non-empty email. `FilledFormRegisters` inherits this.
