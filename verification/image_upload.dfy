/** The single-image upload field (src/components/ImageUpload.tsx): the
    check run before an upload and the deletion of the current image. */
module ImageUpload {
  import opened Js
  import opened Text

  /** `maxSize` when the caller gives none, in MB. */
  const DefaultMaxSize: nat := 5

  const NotImageText: string := "只能上传图片文件!"

  function TooLargeText(maxSize: nat): string {
    "图片大小不能超过 " + NatToDecimal(maxSize) + "MB!"
  }

  datatype Verdict = Accept | Reject(message: string)

  /** `beforeUpload`: the type is checked first, then the size, strictly
      below `maxSize` MB. */
  function BeforeUpload(fileType: string, size: nat, maxSize: nat): (v: Verdict)
    ensures v.Accept? <==> StartsWith(fileType, "image/") && UnderMegabytes(size, maxSize)
    ensures !StartsWith(fileType, "image/") ==> v == Reject(NotImageText)
    ensures StartsWith(fileType, "image/") && !UnderMegabytes(size, maxSize) ==> v == Reject(TooLargeText(maxSize))
  {
    if !StartsWith(fileType, "image/") then Reject(NotImageText)
    else if !UnderMegabytes(size, maxSize) then Reject(TooLargeText(maxSize))
    else Accept
  }

  /** A file that is not an image is refused with the same message
      whatever its size; with the default limit, an image of exactly 5 MB
      is refused and one byte less is accepted. */
  lemma BeforeUploadBoundaries(fileType: string, s1: nat, s2: nat, maxSize: nat)
    ensures !StartsWith(fileType, "image/") ==> BeforeUpload(fileType, s1, maxSize) == BeforeUpload(fileType, s2, maxSize)
    ensures BeforeUpload("image/png", DefaultMaxSize * 1048576, DefaultMaxSize).Reject?
    ensures BeforeUpload("image/png", DefaultMaxSize * 1048576 - 1, DefaultMaxSize).Accept?
  {
  }

  /** Raising the limit never refuses an image the lower limit accepted. */
  lemma BeforeUploadMonotone(fileType: string, size: nat, m1: nat, m2: nat)
    requires m1 <= m2 && BeforeUpload(fileType, size, m1).Accept?
    ensures BeforeUpload(fileType, size, m2).Accept?
  {
    assert m1 * 1048576 <= m2 * 1048576;
  }

  // ---------------------------------------------------------------------
  // Deleting

  /** The shown image URL and the stored URL sent for deletion. */
  datatype ImageState = ImageState(imageUrl: Option<string>, fullUrl: Option<string>)

  datatype Notice = Success(text: string) | Error(text: string)

  /** What `handleDelete` did: the new state, the URL it asked the server
      to delete (if it asked), whether it told the form the value is now
      empty, and the message shown. */
  datatype Deleted = Deleted(state: ImageState, requested: Option<Option<string>>, cleared: bool, notice: Option<Notice>)

  /** `handleDelete` once settled; the outcome carries `response.ok`. With
      no image it does nothing at all. */
  function HandleDelete(s: ImageState, outcome: Outcome<bool>): (d: Deleted)
    ensures !Truthy(s.imageUrl) ==> d == Deleted(s, None, false, None)
    ensures Truthy(s.imageUrl) ==> d.requested == Some(s.fullUrl)
    ensures Truthy(s.imageUrl) && outcome == Ok(true) ==>
      d.state.imageUrl.None? && d.state.fullUrl == s.fullUrl && d.cleared && d.notice == Some(Success("图片删除成功!"))
    ensures Truthy(s.imageUrl) && outcome != Ok(true) ==>
      d.state == s && !d.cleared && d.notice == Some(Error("图片删除失败!"))
  {
    if !Truthy(s.imageUrl) then Deleted(s, None, false, None)
    else if outcome == Ok(true) then
      Deleted(s.(imageUrl := None), Some(s.fullUrl), true, Some(Success("图片删除成功!")))
    else Deleted(s, Some(s.fullUrl), false, Some(Error("图片删除失败!")))
  }

  /** Deleting twice is deleting once: once the image is gone the second
      call sends nothing. */
  lemma DeleteThenDeleteIsNoop(s: ImageState, o1: Outcome<bool>, o2: Outcome<bool>)
    requires o1 == Ok(true)
    ensures var d := HandleDelete(s, o1); HandleDelete(d.state, o2).requested.None?
    ensures var d := HandleDelete(s, o1); HandleDelete(d.state, o2).state == d.state
  {
  }
}
