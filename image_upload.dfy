/**
 * The photo upload shared by the profile and the visitor-photo view models
 * (`uploadImage`): the file name sent and the message for a failed upload.
 * The upload itself is a parameter of the view models' methods.
 */
module ImageUpload {
  import opened Common

  const DefaultImageName := "default_image_name"
  const UploadErrorPrefix := "Error uploading image: "

  /** `imageUri.lastPathSegment ?: "default_image_name"` */
  function UploadFileName(lastPathSegment: Option<string>): (name: string)
    ensures lastPathSegment.Some? ==> name == lastPathSegment.value
    ensures lastPathSegment.None? ==> name == DefaultImageName
  {
    lastPathSegment.GetOr(DefaultImageName)
  }

  /** The message for an upload that threw; the exception's text follows the prefix, "null" when absent. */
  function UploadErrorMessage(m: Option<string>): (message: string)
    ensures |message| >= |UploadErrorPrefix| && message[..|UploadErrorPrefix|] == UploadErrorPrefix
    ensures m.Some? ==> message[|UploadErrorPrefix|..] == m.value
    ensures m.None? ==> message[|UploadErrorPrefix|..] == "null"
  {
    UploadErrorPrefix + NullableToString(m)
  }
}
