/**
 * The image upload control: client-side validation of a chosen file, the
 * upload call, and the `preview`, `uploading` and `dragActive` flags. The
 * alerts it raises, the upload requests it sends and the values it hands to
 * its `onImageUploaded` callback are recorded in order.
 */
module ImageUpload {
  import opened Common
  import opened Text
  import Api

  /** A file as the browser describes it: name, MIME type and size in bytes. */
  datatype File = File(name: string, mimeType: string, size: nat)

  const MaxImageBytes: nat := 5 * 1024 * 1024

  const NotAnImageAlert := "Please upload an image file"
  const TooLargeAlert := "Image size must be less than 5MB"
  const UploadFailedPrefix := "Failed to upload image: "

  datatype Verdict = Accepted | NotAnImage | TooLarge

  /**
   * The two checks in their order: the MIME type must start with "image/",
   * then the size must not exceed 5 MiB.
   */
  function Validate(file: File): (v: Verdict)
    ensures v == NotAnImage <==> !StartsWith(file.mimeType, "image/")
    ensures v == TooLarge <==> StartsWith(file.mimeType, "image/") && file.size > MaxImageBytes
    ensures v == Accepted <==> StartsWith(file.mimeType, "image/") && file.size <= MaxImageBytes
  {
    if !StartsWith(file.mimeType, "image/") then NotAnImage
    else if file.size > MaxImageBytes then TooLarge
    else Accepted
  }

  /** The alert shown for a rejected file. */
  function RejectionAlert(v: Verdict): string {
    if v == NotAnImage then NotAnImageAlert else TooLargeAlert
  }

  /** Exactly 5 MiB is accepted and one byte more is not; an oversize non-image is reported as a type error. */
  lemma SizeBoundary(name: string, mimeType: string)
    requires StartsWith(mimeType, "image/")
    ensures Validate(File(name, mimeType, MaxImageBytes)) == Accepted
    ensures Validate(File(name, mimeType, MaxImageBytes + 1)) == TooLarge
    ensures Validate(File(name, "text/plain", MaxImageBytes + 1)) == NotAnImage
  {
    assert "text/plain"[..6][0] != "image/"[0];
  }

  /** The upload endpoint's reply body, of which the control reads `data.imageUrl`. */
  datatype UploadReply = UploadReply(imageUrl: string)

  class Uploader {
    /** The file whose data URL is displayed, if any. */
    var preview: Option<File>
    var uploading: bool
    var dragActive: bool
    var alerts: seq<string>
    /** Files sent to the upload endpoint. */
    var uploads: seq<File>
    /** Values passed to `onImageUploaded`. */
    var delivered: seq<string>

    constructor ()
      ensures preview == None && !uploading && !dragActive
      ensures alerts == [] && uploads == [] && delivered == []
    {
      preview := None;
      uploading := false;
      dragActive := false;
      alerts := [];
      uploads := [];
      delivered := [];
    }

    /**
     * What processFile does to everything but `dragActive`: a rejected file
     * only raises its alert; an accepted one is previewed and uploaded, the
     * callback receives the returned URL on success, a failure raises an
     * alert instead, and `uploading` is false afterwards either way.
     */
    twostate predicate Processed(file: File, call: Call<UploadReply>)
      reads this
    {
      if Validate(file) != Accepted then
        && preview == old(preview)
        && uploading == old(uploading)
        && uploads == old(uploads)
        && delivered == old(delivered)
        && alerts == old(alerts) + [RejectionAlert(Validate(file))]
      else
        && preview == Some(file)
        && !uploading
        && uploads == old(uploads) + [file]
        && match Api.Settle(call)
           case Ok(reply) => delivered == old(delivered) + [reply.imageUrl] && alerts == old(alerts)
           case Err(message) => delivered == old(delivered) && alerts == old(alerts) + [UploadFailedPrefix + message]
    }

    /** processFile: validate, then preview and upload. */
    method ProcessFile(file: File, call: Call<UploadReply>)
      modifies this
      ensures Processed(file, call)
      ensures dragActive == old(dragActive)
    {
      var verdict := Validate(file);
      if verdict != Accepted {
        alerts := alerts + [RejectionAlert(verdict)];
        return;
      }
      preview := Some(file);
      uploading := true;
      uploads := uploads + [file];
      match Api.Settle(call) {
        case Ok(reply) =>
          delivered := delivered + [reply.imageUrl];
        case Err(message) =>
          alerts := alerts + [UploadFailedPrefix + message];
      }
      uploading := false;
    }

    /** handleFileChange: the first chosen file goes through processFile; no file, no effect. */
    method HandleFileChange(files: seq<File>, call: Call<UploadReply>)
      modifies this
      ensures |files| > 0 ==> Processed(files[0], call) && dragActive == old(dragActive)
      ensures |files| == 0 ==> unchanged(this)
    {
      if |files| > 0 {
        ProcessFile(files[0], call);
      }
    }

    /** handleDrop: clears the drag highlight, then the first dropped file goes through processFile. */
    method HandleDrop(files: seq<File>, call: Call<UploadReply>)
      modifies this
      ensures !dragActive
      ensures |files| > 0 ==> Processed(files[0], call)
      ensures |files| == 0 ==>
        preview == old(preview) && uploading == old(uploading) && alerts == old(alerts) &&
        uploads == old(uploads) && delivered == old(delivered)
    {
      dragActive := false;
      if |files| > 0 {
        ProcessFile(files[0], call);
      }
    }

    /** handleDrag: dragenter and dragover highlight the drop area, dragleave clears it. */
    method HandleDrag(eventType: string)
      modifies this
      ensures eventType == "dragenter" || eventType == "dragover" ==> dragActive
      ensures eventType == "dragleave" ==> !dragActive
      ensures eventType != "dragenter" && eventType != "dragover" && eventType != "dragleave" ==>
        dragActive == old(dragActive)
      ensures preview == old(preview) && uploading == old(uploading) && alerts == old(alerts)
      ensures uploads == old(uploads) && delivered == old(delivered)
    {
      if eventType == "dragenter" || eventType == "dragover" {
        dragActive := true;
      } else if eventType == "dragleave" {
        dragActive := false;
      }
    }

    /** The remove button: drops the preview and reports an empty URL to the callback. */
    method RemovePreview()
      modifies this
      ensures preview == None && delivered == old(delivered) + [""]
      ensures uploading == old(uploading) && dragActive == old(dragActive)
      ensures alerts == old(alerts) && uploads == old(uploads)
    {
      preview := None;
      delivered := delivered + [""];
    }
  }
}
