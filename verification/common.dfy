/** Small vocabulary shared by the verification service and the two pages:
    optional values, JavaScript truthiness of nullable strings, the clamp the
    service applies to confidences, and the calls the pages make on the
    storage and database collaborators. */
module Common {

  /** A value that may be absent (`null`/`None` in the source). */
  datatype Option<+T> = None | Some(value: T)

  /** JavaScript truthiness of a `string | null`: both `null` and the empty
      string are falsy. */
  predicate Truthy(s: Option<string>)
  {
    s.Some? && s.value != ""
  }

  /** `max(0, min(1, x))`, the clamp applied to every confidence score. */
  function Clamp01(x: real): (r: real)
    ensures 0.0 <= r <= 1.0
    ensures 0.0 <= x <= 1.0 ==> r == x
    ensures x < 0.0 ==> r == 0.0
    ensures x > 1.0 ==> r == 1.0
  {
    if x < 0.0 then 0.0 else if x > 1.0 then 1.0 else x
  }

  /** Folder of the photo bucket a page uploads into. */
  datatype Folder = AttendanceFolder | EmployeesFolder

  /** What `uploadPhoto` does: returns a value (a URL, or `null`/"" when the
      upload failed without raising), or throws. */
  datatype UploadReply = Uploaded(url: string) | NoUrl | UploadThrew

  /** The URL an upload produced, if it is truthy. */
  predicate ReturnedUrl(u: UploadReply)
  {
    u.Uploaded? && u.url != ""
  }

  /** Calls a page makes on its storage and database collaborators. */
  datatype Effect =
    | UploadPhoto(image: string, folder: Folder)
    | CreateAttendance(employeeId: string, photoUrl: string)
    | CreateEmployee(name: string, email: string, photoUrl: string)
}
