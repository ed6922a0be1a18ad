/** What the admin forms share: the image-file rule, the status message and the error text
    taken from a failed request. */
module Forms {
  import opened Wrappers
  import opened Text

  /** A file chosen in a file picker: its name, its MIME type and its size in bytes. */
  datatype File = File(name: string, mimeType: string, size: int)

  /** 5 MB, the largest image any form accepts. */
  const MaxImageBytes: int := 5 * 1024 * 1024

  datatype FileVerdict = Accepted | WrongType | TooLarge

  /** The check every image picker applies: the type is tested first, then the size. */
  function CheckImageFile(f: File): (v: FileVerdict)
    ensures v == Accepted <==> StartsWith(f.mimeType, "image/") && f.size <= 5242880
    ensures v == WrongType <==> !StartsWith(f.mimeType, "image/")
    ensures v == TooLarge ==> f.size > 5242880
  {
    if !StartsWith(f.mimeType, "image/") then WrongType
    else if f.size > MaxImageBytes then TooLarge
    else Accepted
  }

  /** The banner above a form: `{ type: "error" | "success", text }`. */
  datatype Notice = Error(text: string) | Success(text: string)

  /** The outcome of a request a form sends: success, or a failure whose response body
      carries an `error` text ("" when it has none). */
  datatype Reply = Ok | Failed(error: string)

  /** `err.response?.data?.error || fallback`. */
  function ErrorText(error: string, fallback: string): (t: string)
    ensures error != "" ==> t == error
    ensures error == "" ==> t == fallback
  {
    if error != "" then error else fallback
  }

  /** The message a single-file picker shows for its file (`handleFileChange`): none when the
      file is accepted. */
  function PickedFileNotice(f: File): (n: Option<Notice>)
    ensures n.None? <==> CheckImageFile(f) == Accepted
    ensures CheckImageFile(f) == WrongType ==> n == Some(Error("Please select a valid image file."))
    ensures CheckImageFile(f) == TooLarge ==> n == Some(Error("Image size must be less than 5MB."))
  {
    match CheckImageFile(f)
    case Accepted => None
    case WrongType => Some(Error("Please select a valid image file."))
    case TooLarge => Some(Error("Image size must be less than 5MB."))
  }

  /** A form field of a multipart request: text, a number or a file. */
  datatype Field = TextField(key: string, text: string) | NumberField(key: string, number: JsNumber) | FileField(key: string, file: File)
}
