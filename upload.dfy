/** The stand-alone upload page: a file, a title proposed from its name, and a submit that
    returns to the dashboard on success. */
module Upload {
  import opened Js
  import opened Web
  import opened Files
  import opened Entities

  const UploadedAlert := "Document uploaded successfully!"

  /** The alert for a rejected upload: the error payload's `detail` when truthy, else
      "Upload failed" (also when there is no answer at all or it could not be read). */
  function FailureAlert(r: Response<Json>): (text: string)
    requires !r.Success?
    ensures r.NetworkError? ==> text == "Upload failed"
    ensures r.Failure? && r.errorBody.Parsed? && r.errorBody.value != JNull && TruthyOpt(Member(r.errorBody.value, "detail")) ==>
              text == ToJsString(Member(r.errorBody.value, "detail").value)
    ensures !(r.Failure? && r.errorBody.Parsed? && r.errorBody.value != JNull && TruthyOpt(Member(r.errorBody.value, "detail"))) ==>
              text == "Upload failed"
  {
    if r.Failure? && r.errorBody.Parsed? && r.errorBody.value != JNull then
      ToJsString(Or(Member(r.errorBody.value, "detail"), Some(JStr("Upload failed"))).value)
    else "Upload failed"
  }

  class UploadPage {
    var file: Option<File>
    var title: string
    var uploading: bool

    constructor()
      ensures file.None? && title == "" && !uploading
    {
      file, title, uploading := None, "", false;
    }

    /** `handleFileChange`: with a file, it is kept and an empty title becomes the file's
        name without its extension; without one nothing changes. */
    method HandleFileChange(f: Option<File>)
      modifies this`file, this`title
      ensures f.None? ==> file == old(file) && title == old(title)
      ensures f.Some? ==> file == f
      ensures f.Some? && old(title) == "" ==> title == StripExtension(f.value.name)
      ensures f.Some? && old(title) != "" ==> title == old(title)
    {
      if f.Some? {
        file := f;
        if title == "" {
          title := StripExtension(f.value.name);
        }
      }
    }

    /** The submit button is disabled without a file or title, and while uploading. */
    predicate SubmitDisabled()
      reads this`file, this`title, this`uploading
      ensures uploading || file.None? || title == "" ==> SubmitDisabled()
      ensures !uploading ==> (SubmitDisabled() <==> file.None? || title == "")
    {
      file.None? || title == "" || uploading
    }

    /** `handleSubmit`: without a file or title nothing happens. A success alerts and goes
        to the dashboard; a failure alerts its `detail` or "Upload failed". The page stops
        uploading either way. Returns whether the request was sent. */
    method HandleSubmit(b: Browser, r: Response<Json>) returns (sent: bool)
      modifies this`uploading, b`alerts, b`navigations
      ensures sent <==> old(file).Some? && old(title) != ""
      ensures !old(uploading) ==> (sent <==> !old(SubmitDisabled()))
      ensures sent ==> !SubmitDisabled()
      ensures !sent ==> uploading == old(uploading) && b.alerts == old(b.alerts) && b.navigations == old(b.navigations)
      ensures sent ==> !uploading
      ensures sent && r.Success? ==> b.alerts == old(b.alerts) + [UploadedAlert] && b.navigations == old(b.navigations) + ["/dashboard"]
      ensures sent && !r.Success? ==> b.alerts == old(b.alerts) + [FailureAlert(r)] && b.navigations == old(b.navigations)
    {
      if file.None? || title == "" {
        return false;
      }
      sent := true;
      uploading := true;
      if r.Success? {
        b.Alert(UploadedAlert);
        b.Navigate("/dashboard");
      } else {
        b.Alert(FailureAlert(r));
      }
      uploading := false;
    }
  }
}
