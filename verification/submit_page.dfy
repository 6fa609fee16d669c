/** The submit form of `app/submit/page.tsx`: its initial values, the list
    of uploaded files it keeps (appended to when an upload completes,
    shortened by the remove button), and the JSON body it posts to the public
    events route. Rendering, navigation and the upload service are not
    modelled. */
module SubmitPage {
  import opened Common
  import opened Events

  /** A file the upload service has stored: its URL, name and MIME type. */
  datatype UploadedFile = UploadedFile(url: string, name: string, mimeType: string)

  /** The text fields of the form. */
  datatype FormData = FormData(title: string, description: string, eventDate: string, category: string)

  /** The values the category selector offers. */
  const Categories: seq<string> := ["maintenance", "complaint", "violation", "notice", "fee", "other"]

  /** `s.startsWith(prefix)`: `s` begins with every character of `prefix`,
      in order. */
  predicate StartsWith(s: string, prefix: string)
    ensures StartsWith(s, prefix) <==> |prefix| <= |s| && forall i :: 0 <= i < |prefix| ==> s[i] == prefix[i]
  {
    |prefix| <= |s| && s[..|prefix|] == prefix
  }

  /** The attachment kind sent for a MIME type. */
  function FileKind(mimeType: string): (kind: string)
    ensures kind == "image" <==> StartsWith(mimeType, "image/")
    ensures kind == "document" <==> !StartsWith(mimeType, "image/")
  {
    if StartsWith(mimeType, "image/") then "image" else "document"
  }

  /** The `attachments` array of the posted body: one entry per uploaded
      file, in the same order, never marked as redacted. */
  function AttachmentPayload(files: seq<UploadedFile>): (atts: seq<AttachmentInput>)
    ensures |atts| == |files|
    ensures forall i :: 0 <= i < |files| ==>
      && atts[i].fileName == files[i].name && atts[i].fileUrl == files[i].url
      && atts[i].fileType == FileKind(files[i].mimeType)
      && atts[i].isPiiRedacted == Some(false) && atts[i].redactionAreas.None?
  {
    seq(|files|, i requires 0 <= i < |files| =>
      AttachmentInput(files[i].name, files[i].url, FileKind(files[i].mimeType), Some(false), None))
  }

  /** The JSON body `handleSubmit` posts: the form's fields and the
      attachment entries, with no e-mail and no captcha token. */
  function SubmissionBody(form: FormData, files: seq<UploadedFile>): (body: EventBody)
    ensures body.title == form.title && body.description == form.description
    ensures body.eventDate == form.eventDate && body.category == form.category
    ensures body.submitterEmail.None? && body.captchaToken.None?
    ensures body.attachments == Some(AttachmentPayload(files))
    ensures |body.attachments.value| == |files|
  {
    EventBody(form.title, form.description, form.eventDate, form.category, None, None,
              Some(AttachmentPayload(files)))
  }

  /** A form submission, once stored by the public route, has one
      attachment row per uploaded file, in order, each not redacted and
      typed "image" exactly for the image MIME types. */
  lemma SubmittedAttachmentsStored(form: FormData, files: seq<UploadedFile>)
    ensures var rows := StoredAttachments(SubmissionBody(form, files).attachments);
      && |rows| == |files|
      && forall i :: 0 <= i < |files| ==>
           && rows[i].fileName == files[i].name && rows[i].fileUrl == files[i].url
           && !rows[i].isPiiRedacted
           && (rows[i].fileType == "image" <==> StartsWith(files[i].mimeType, "image/"))
  {
    var atts := AttachmentPayload(files);
    var rows := StoredAttachments(Some(atts));
    forall i | 0 <= i < |files|
      ensures rows[i].fileType == "image" <==> StartsWith(files[i].mimeType, "image/")
    {
      assert rows[i] == StoredAttachment(atts[i]);
    }
  }

  /** `list.filter((_, i) => i !== index)`: the list without the entry at
      position `index`; an index outside the list removes nothing. */
  function WithoutIndex<T>(s: seq<T>, index: int): (r: seq<T>)
    ensures 0 <= index < |s| ==> r == s[..index] + s[index + 1..]
    ensures !(0 <= index < |s|) ==> r == s
  {
    if s == [] then []
    else (if index == 0 then [] else [s[0]]) + WithoutIndex(s[1..], index - 1)
  }

  class SubmitForm {
    var formData: FormData
    var uploadedFiles: seq<UploadedFile>

    /** The form as first shown: empty fields, category "complaint", no files. */
    constructor ()
      ensures formData == FormData("", "", "", "complaint") && uploadedFiles == []
      ensures formData.category in Categories
    {
      formData := FormData("", "", "", "complaint");
      uploadedFiles := [];
    }

    /** The upload button's completion: the new files go after the ones
        already there, in the order received; no result changes nothing. */
    method OnUploadComplete(res: Option<seq<UploadedFile>>)
      modifies this
      ensures formData == old(formData)
      ensures uploadedFiles == if res.Some? then old(uploadedFiles) + res.value else old(uploadedFiles)
    {
      if res.Some? {
        var newFiles := res.value;
        uploadedFiles := uploadedFiles + newFiles;
      }
    }

    /** The remove button of the entry at `index`. */
    method Remove(index: int)
      modifies this
      ensures formData == old(formData)
      ensures uploadedFiles == WithoutIndex(old(uploadedFiles), index)
      ensures 0 <= index < |old(uploadedFiles)| ==>
        uploadedFiles == old(uploadedFiles)[..index] + old(uploadedFiles)[index + 1..]
    {
      uploadedFiles := WithoutIndex(uploadedFiles, index);
    }
  }
}
