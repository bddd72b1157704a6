/**
 * The photo pre-check of `lib/image-utils.ts` (`validateImageFile`): the
 * MIME type must name an image, the file must fit the size limit, and the
 * format must be one the compressor handles. The first failing check
 * decides the message.
 */
module ImageUtils {
  import opened Common
  import opened JsText

  const DefaultMaxSizeMB: int := 10
  const SupportedFormats: seq<string> := ["image/jpeg", "image/jpg", "image/png", "image/webp"]
  const NotAnImageText: string := "File must be an image"
  const UnsupportedText: string := "Supported formats: JPEG, PNG, WebP"

  /** The `{ valid, error? }` verdict. */
  datatype Validation = Validation(valid: bool, error: Option<string>)

  function TooLargeText(maxSizeMB: int): string {
    "Image must be smaller than " + IntToString(maxSizeMB) + "MB"
  }

  /** The limit in bytes for a limit in mebibytes. */
  function MaxBytes(maxSizeMB: int): int {
    maxSizeMB * 1024 * 1024
  }

  /**
   * `validateImageFile(file, maxSizeMB)`, with `maxSizeMB` absent meaning the
   * default of 10. The checks run in order: image type, then size (a file
   * exactly at the limit passes), then format.
   */
  function ValidateImageFile(fileType: string, size: int, maxSizeMB: Option<int>): (v: Validation)
    ensures v.valid <==> v.error.None?
    ensures !StartsWith(fileType, "image/") ==> v == Validation(false, Some(NotAnImageText))
    ensures StartsWith(fileType, "image/") && size > MaxBytes(maxSizeMB.GetOr(DefaultMaxSizeMB)) ==>
              v == Validation(false, Some(TooLargeText(maxSizeMB.GetOr(DefaultMaxSizeMB))))
    ensures StartsWith(fileType, "image/") && size <= MaxBytes(maxSizeMB.GetOr(DefaultMaxSizeMB)) && fileType !in SupportedFormats ==>
              v == Validation(false, Some(UnsupportedText))
    ensures v.valid <==> size <= MaxBytes(maxSizeMB.GetOr(DefaultMaxSizeMB)) && fileType in SupportedFormats
  {
    var limit := maxSizeMB.GetOr(DefaultMaxSizeMB);
    SupportedAreImages();
    if !StartsWith(fileType, "image/") then
      Validation(false, Some(NotAnImageText))
    else if size > MaxBytes(limit) then
      Validation(false, Some(TooLargeText(limit)))
    else if fileType !in SupportedFormats then
      Validation(false, Some(UnsupportedText))
    else
      Validation(true, None)
  }

  /** Every supported format is an image type, so the format check never contradicts the first one. */
  lemma SupportedAreImages()
    ensures forall f :: f in SupportedFormats ==> StartsWith(f, "image/")
  {
    forall f | f in SupportedFormats ensures StartsWith(f, "image/") {
      assert f[..6] == "image/";
    }
  }

  /** Without an explicit limit, ten mebibytes pass and one byte more does not. */
  lemma DefaultLimitIsTenMebibytes(fileType: string)
    requires fileType in SupportedFormats
    ensures ValidateImageFile(fileType, 10 * 1024 * 1024, None).valid
    ensures ValidateImageFile(fileType, 10 * 1024 * 1024 + 1, None) == Validation(false, Some(TooLargeText(10)))
  {
    SupportedAreImages();
  }

  /** A file that is not an image is reported as such however large it is. */
  lemma TypeCheckedBeforeSize(fileType: string, size: int, size': int, maxSizeMB: Option<int>)
    requires !StartsWith(fileType, "image/")
    ensures ValidateImageFile(fileType, size, maxSizeMB) == ValidateImageFile(fileType, size', maxSizeMB)
  {
  }
}
