/** The employee registration form: two text fields, a photo taken with the
    camera, and a submit that uploads the photo and then creates the employee
    record with the returned URL. Upload and create outcomes are inputs; the
    calls made are returned as effects. */
module RegisterPage {
  import opened Common

  datatype Field = NameField | EmailField

  datatype FormState = FormState(
    name: string,
    email: string,
    captured: Option<string>,
    showCamera: bool,
    isLoading: bool)

  const Initial := FormState("", "", None, false, false)

  /** `handleInputChange` for the input named `field`. */
  function InputChange(s: FormState, field: Field, value: string): (r: FormState)
    ensures field == NameField ==> r.name == value && r.email == s.email
    ensures field == EmailField ==> r.email == value && r.name == s.name
    ensures r.captured == s.captured && r.showCamera == s.showCamera && r.isLoading == s.isLoading
  {
    match field
    case NameField => s.(name := value)
    case EmailField => s.(email := value)
  }

  /** The "click to open camera" button. */
  function OpenCamera(s: FormState): (r: FormState)
    ensures r.showCamera
    ensures r.name == s.name && r.email == s.email && r.captured == s.captured && r.isLoading == s.isLoading
  {
    s.(showCamera := true)
  }

  /** The camera's cancel button. */
  function CloseCamera(s: FormState): (r: FormState)
    ensures !r.showCamera
    ensures r.name == s.name && r.email == s.email && r.captured == s.captured && r.isLoading == s.isLoading
  {
    s.(showCamera := false)
  }

  /** `handleCapture`: keep the photo and hide the camera. */
  function Capture(s: FormState, image: string): (r: FormState)
    ensures r.captured == Some(image) && !r.showCamera
    ensures r.name == s.name && r.email == s.email && r.isLoading == s.isLoading
  {
    s.(captured := Some(image), showCamera := false)
  }

  /** The retake button: drop the photo and show the camera again. */
  function Retake(s: FormState): (r: FormState)
    ensures r.captured.None? && r.showCamera
    ensures r.name == s.name && r.email == s.email && r.isLoading == s.isLoading
  {
    s.(captured := None, showCamera := true)
  }

  /** The fields `handleSubmit` requires: a name, an email and a photo. */
  predicate Complete(s: FormState)
  {
    s.name != "" && s.email != "" && Truthy(s.captured)
  }

  /** The `disabled` condition of the submit button. */
  predicate SubmitDisabled(s: FormState)
  {
    s.isLoading || s.name == "" || s.email == "" || !Truthy(s.captured)
  }

  /** The alerts the form shows. */
  datatype Notice = FillAllFields | UploadFailed | RegisterFailed | Registered

  datatype SubmitResult = SubmitResult(state: FormState, notice: Notice, effects: seq<Effect>)

  predicate CreatesEmployee(effects: seq<Effect>)
  {
    exists k :: 0 <= k < |effects| && effects[k].CreateEmployee?
  }

  /** `handleSubmit`: validate, then upload and create. An incomplete form is
      refused before anything is touched; once validation passes the page
      ends with `isLoading` false whatever the outcome. */
  function Submit(s: FormState, upload: UploadReply, created: bool): (r: SubmitResult)
    ensures !Complete(s) ==> r == SubmitResult(s, FillAllFields, [])
    ensures Complete(s) ==> r.state == s.(isLoading := false)
    ensures Complete(s) ==> |r.effects| >= 1 && r.effects[0] == UploadPhoto(s.captured.value, EmployeesFolder)
    ensures CreatesEmployee(r.effects) <==> Complete(s) && ReturnedUrl(upload)
    ensures forall k :: 0 <= k < |r.effects| && r.effects[k].CreateEmployee? ==>
      k > 0 && r.effects[k - 1].UploadPhoto? && r.effects[k] == CreateEmployee(s.name, s.email, upload.url)
    ensures Complete(s) ==>
      r.effects == [UploadPhoto(s.captured.value, EmployeesFolder)]
                   + (if ReturnedUrl(upload) then [CreateEmployee(s.name, s.email, upload.url)] else [])
    ensures r.notice == Registered <==> Complete(s) && ReturnedUrl(upload) && created
    ensures Complete(s) && ReturnedUrl(upload) && !created ==> r.notice == RegisterFailed
    ensures Complete(s) && upload.UploadThrew? ==> r.notice == RegisterFailed
    ensures Complete(s) && !upload.UploadThrew? && !ReturnedUrl(upload) ==> r.notice == UploadFailed
  {
    if !(s.name != "" && s.email != "" && Truthy(s.captured)) then SubmitResult(s, FillAllFields, [])
    else
      var done := s.(isLoading := false);
      var upload1 := UploadPhoto(s.captured.value, EmployeesFolder);
      match upload
      case UploadThrew => SubmitResult(done, RegisterFailed, [upload1])
      case NoUrl => SubmitResult(done, UploadFailed, [upload1])
      case Uploaded(url) =>
        if url == "" then SubmitResult(done, UploadFailed, [upload1])
        else
          var effects := [upload1, CreateEmployee(s.name, s.email, url)];
          assert effects[1].CreateEmployee?;
          SubmitResult(done, if created then Registered else RegisterFailed, effects)
  }

  /** The submit button is disabled exactly when a submit is in flight or the
      submit guard would refuse the form. */
  lemma SubmitDisabledMatchesGuard(s: FormState, upload: UploadReply, created: bool)
    ensures SubmitDisabled(s) <==> s.isLoading || Submit(s, upload, created).notice == FillAllFields
    ensures SubmitDisabled(s.(isLoading := true))
  {
  }

  /** The last edit of a field wins, and edits of different fields commute. */
  lemma InputChangesCompose(s: FormState, f: Field, g: Field, x: string, y: string)
    ensures InputChange(InputChange(s, f, x), f, y) == InputChange(s, f, y)
    ensures f != g ==> InputChange(InputChange(s, f, x), g, y) == InputChange(InputChange(s, g, y), f, x)
  {
  }

  /** Retaking and then capturing is the same as capturing directly; capturing
      and then retaking forgets the photo and reopens the camera. */
  lemma RetakeThenCapture(s: FormState, image: string)
    ensures Capture(Retake(s), image) == Capture(s, image)
    ensures Retake(Capture(s, image)) == Retake(s)
  {
  }

  /** Starting from the empty form, a submit with fields filled and a photo
      taken through the camera reaches the storage, and registers the
      employee with the typed name and email when both calls succeed. */
  lemma FilledFormRegisters(name: string, email: string, image: string, url: string)
    requires name != "" && email != "" && image != "" && url != ""
    ensures var s := Capture(OpenCamera(InputChange(InputChange(Initial, NameField, name), EmailField, email)), image);
      var r := Submit(s, Uploaded(url), true);
      r.notice == Registered && !r.state.isLoading
      && r.effects == [UploadPhoto(image, EmployeesFolder), CreateEmployee(name, email, url)]
  {
  }
}
