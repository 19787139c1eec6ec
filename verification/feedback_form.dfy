/** The user feedback form (src/components/FeedbackForm.tsx): the
    attachment list sent with a feedback, the upload size check, the
    submission outcome and the form's initial values. */
module FeedbackForm {
  import opened Js
  import opened Seqs

  /** An entry of the upload list: the `url` of the upload response, if the
      upload answered, and the entry's own `url`. */
  datatype UploadFile = UploadFile(responseUrl: Option<string>, url: Option<string>)

  /** `file.response?.url || file.url`. */
  function FileUrl(f: UploadFile): (u: Option<string>)
    ensures Truthy(f.responseUrl) ==> u == f.responseUrl
    ensures !Truthy(f.responseUrl) ==> u == f.url
  {
    if Truthy(f.responseUrl) then f.responseUrl else f.url
  }

  /** The `attachments` of a submission: each file's URL, files without a
      (non-empty) URL dropped. */
  function Attachments(files: seq<UploadFile>): (urls: seq<string>)
    ensures |urls| <= |files|
    ensures forall i :: 0 <= i < |urls| ==> urls[i] != ""
  {
    if |files| == 0 then []
    else
      var u := FileUrl(files[0]);
      (if Truthy(u) then [u.value] else []) + Attachments(files[1..])
  }

  /** The URL each file offers, '' standing for none. */
  function OfferedUrls(files: seq<UploadFile>): (us: seq<string>)
    ensures |us| == |files|
    ensures forall i :: 0 <= i < |files| ==> us[i] == FileUrl(files[i]).GetOr("")
  {
    seq(|files|, i requires 0 <= i < |files| => FileUrl(files[i]).GetOr(""))
  }

  function NonEmpty(s: string): bool {
    s != ""
  }

  /** The attachments are the offered URLs with the empty ones filtered
      out: `map` then `filter(Boolean)`. */
  lemma {:induction false} AttachmentsAreFilteredUrls(files: seq<UploadFile>)
    ensures Attachments(files) == Filter(OfferedUrls(files), NonEmpty)
    decreases |files|
  {
    if |files| > 0 {
      AttachmentsAreFilteredUrls(files[1..]);
      assert OfferedUrls(files)[1..] == OfferedUrls(files[1..]);
    }
  }

  /** So the attachments keep the files' order, and a URL is attached as
      often as files offer it. */
  lemma AttachmentsSpec(files: seq<UploadFile>)
    ensures SubsequenceOf(Attachments(files), OfferedUrls(files))
    ensures forall u :: u != "" ==> multiset(Attachments(files))[u] == multiset(OfferedUrls(files))[u]
    ensures "" !in Attachments(files)
  {
    AttachmentsAreFilteredUrls(files);
    FilterIsSubsequence(OfferedUrls(files), NonEmpty);
    forall u | u != ""
      ensures multiset(Attachments(files))[u] == multiset(OfferedUrls(files))[u]
    {
      FilterMultiset(OfferedUrls(files), NonEmpty, u);
    }
  }

  /** A file whose upload answered with a URL contributes that URL, even if
      the entry has a URL of its own. */
  lemma ResponseUrlWins(f: UploadFile)
    requires Truthy(f.responseUrl)
    ensures Attachments([f]) == [f.responseUrl.value]
  {
  }

  // ---------------------------------------------------------------------
  // Upload check and submission

  datatype Verdict = Accept | Reject(message: string)

  const FeedbackFileLimit: nat := 10

  /** `beforeUpload`: files under 10 MB go through; others are refused. */
  function BeforeUpload(size: nat): (v: Verdict)
    ensures v.Accept? <==> size < 10 * 1048576
    ensures v.Reject? ==> v.message == "文件大小不能超过 10MB!"
  {
    if UnderMegabytes(size, FeedbackFileLimit) then Accept else Reject("文件大小不能超过 10MB!")
  }

  /** Exactly 10 MB is already too large. */
  lemma TenMegabytesRejected()
    ensures BeforeUpload(10 * 1048576).Reject?
    ensures BeforeUpload(10 * 1048576 - 1).Accept?
  {
  }

  datatype Notice = Success(text: string) | Error(text: string)

  /** The form's state around a submission: the type and priority fields,
      its upload list, and whether it is still open. `open` stands for the
      modal the parent shows: the form's `onCancel()` callback is what
      closes it. */
  datatype FormState = FormState(values: FormValues, files: seq<UploadFile>, open: bool)

  /** The part of the create request the model keeps: the form values and
      the attachment URLs. */
  datatype Feedback = Feedback(values: FormValues, attachments: seq<string>)

  /** What `handleSubmit` did: the request it sent, the state afterwards
      and the message shown. */
  datatype Submitted = Submitted(request: Feedback, state: FormState, notice: Notice)

  /** `handleSubmit` once the create request settled: the request carries
      the values and the attachments of the current upload list; success
      resets the fields to their initial values, empties the upload list and
      closes the form; failure keeps all three. */
  function HandleSubmit(s: FormState, created: bool): (r: Submitted)
    ensures r.request == Feedback(s.values, Attachments(s.files))
    ensures created ==> r.state == FormState(InitialValues, [], false)
    ensures created ==> r.notice == Success("反馈提交成功，感谢您的建议！")
    ensures !created ==> r.state == s && r.notice == Error("反馈提交失败，请稍后重试")
  {
    var request := Feedback(s.values, Attachments(s.files));
    if created then Submitted(request, FormState(InitialValues, [], false), Success("反馈提交成功，感谢您的建议！"))
    else Submitted(request, s, Error("反馈提交失败，请稍后重试"))
  }

  /** A submission after a successful one sends the initial values and no
      attachment; a retry after a failure sends the same request again. */
  lemma ResubmitAfterOutcome(s: FormState, c1: bool, c2: bool)
    ensures HandleSubmit(HandleSubmit(s, true).state, c2).request == Feedback(InitialValues, [])
    ensures HandleSubmit(HandleSubmit(s, false).state, c2).request == HandleSubmit(s, c1).request
  {
  }

  // ---------------------------------------------------------------------
  // Initial values

  const TypeOptions: seq<string> := ["bug", "feature", "improvement", "question", "complaint", "other"]
  const PriorityOptions: seq<string> := ["low", "medium", "high", "urgent"]

  /** The type and priority fields; the free-text fields of the form are
      not modelled. */
  datatype FormValues = FormValues(kind: string, priority: string)

  /** The form's `initialValues`. */
  const InitialValues: FormValues := FormValues("improvement", "medium")

  /** The initial type and priority are options of their selects. */
  lemma InitialValuesAreOptions()
    ensures InitialValues.kind in TypeOptions && InitialValues.priority in PriorityOptions
    ensures InitialValues.kind == TypeOptions[2] && InitialValues.priority == PriorityOptions[1]
  {
  }
}
