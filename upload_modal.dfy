/** The upload dialog of the question-and-answer dashboard: a file picked or dropped, a
    title proposed from its name, and the upload sent with an XMLHttpRequest. */
module UploadModal {
  import opened Js
  import opened Web
  import opened Text
  import opened Files
  import opened Entities

  /** How the request ends: it loads with a status, or fails to connect. */
  datatype XhrOutcome = Loaded(status: int) | ConnectionError

  /** The calls the dialog makes to the page that hosts it. */
  datatype Callback = UploadSucceeded | Closed

  const RetryAlert := "Upload failed. Please try again."
  const ConnectionAlert := "Upload failed. Please check your connection."

  /** The upload check: a file and a title that is not the empty string. The title is not
      trimmed, so a title of spaces passes. */
  predicate CanUpload(file: Option<File>, title: string)
    ensures CanUpload(file, title) ==> file.Some?
    ensures file.Some? && !IsBlank(title) ==> CanUpload(file, title)
  {
    BlankIffAllWhitespace(title);
    file.Some? && title != ""
  }

  /** A title of only spaces passes the dialog's check although it is blank. */
  lemma SpacesPassTheCheck(f: File)
    ensures CanUpload(Some(f), " ") && IsBlank(" ")
  {
    assert AllWhitespace(" ") by {
      assert IsWhitespace(" "[0]);
    }
    BlankIffAllWhitespace(" ");
  }

  /** The title proposed for a file: its name without the extension. A name with an
      extension is that title, a dot and the extension. */
  lemma ProposedTitleSplitsName(name: string)
    ensures |StripExtension(name)| <= |name| && StripExtension(name) == name[..|StripExtension(name)|]
    ensures (exists k :: ExtensionAt(name, k)) ==> name == StripExtension(name) + "." + LastPart(name)
  {
    ExtensionIsLastPart(name);
    if exists k :: ExtensionAt(name, k) {
      var k :| ExtensionAt(name, k);
      assert StripExtension(name) == name[..k];
    }
  }

  class UploadModalState {
    var file: Option<File>
    var title: string
    var uploading: bool
    var progress: nat
    var calls: seq<Callback>

    constructor()
      ensures file.None? && title == "" && !uploading && progress == 0 && calls == []
    {
      file, title, uploading, progress, calls := None, "", false, 0, [];
    }

    /** Picking a file (`handleFileSelect`) or dropping one (`handleDrop`): with a file,
        it is kept, and an empty title is replaced by the file's name without its
        extension; a typed title stays. Without a file nothing changes. */
    method ChooseFile(f: Option<File>)
      modifies this`file, this`title
      ensures f.None? ==> file == old(file) && title == old(title)
      ensures f.Some? ==> file == f
      ensures f.Some? && old(title) == "" ==> title == StripExtension(f.value.name)
      ensures f.Some? && old(title) != "" ==> title == old(title)
    {
      if f.Some? {
        file := f;
        if title == "" {
          title := StripExtension(f.value.name);
        }
      }
    }

    /** The upload button is disabled without a file or title, and while uploading. */
    predicate UploadDisabled()
      reads this`file, this`title, this`uploading
      ensures uploading || file.None? ==> UploadDisabled()
      ensures !uploading ==> (UploadDisabled() <==> !CanUpload(file, title))
    {
      !CanUpload(file, title) || uploading
    }

    /** `handleClose`: the dialog is emptied and the host told it closed. */
    method HandleClose()
      modifies this`file, this`title, this`progress, this`uploading, this`calls
      ensures file.None? && title == "" && progress == 0 && !uploading
      ensures calls == old(calls) + [Closed]
      ensures !CanUpload(file, title)
    {
      file, title, progress, uploading := None, "", 0, false;
      calls := calls + [Closed];
    }

    /** `handleUpload`. Without a file or title nothing happens. Only status 200 counts as
        success: the host hears of it and the dialog closes. Any other status, or a failed
        connection, alerts and leaves the dialog open with its file and title. Returns
        whether the request was sent. */
    method HandleUpload(b: Browser, outcome: XhrOutcome) returns (sent: bool)
      modifies this`file, this`title, this`progress, this`uploading, this`calls, b`alerts
      ensures sent <==> CanUpload(old(file), old(title))
      ensures !old(uploading) ==> (sent <==> !old(UploadDisabled()))
      ensures sent && outcome != Loaded(200) ==> !UploadDisabled()
      ensures !sent ==> unchanged(this) && b.alerts == old(b.alerts)
      ensures sent ==> !uploading
      ensures sent && outcome == Loaded(200) ==>
                calls == old(calls) + [UploadSucceeded, Closed] && file.None? && title == "" && progress == 0
                && b.alerts == old(b.alerts)
      ensures sent && outcome != Loaded(200) ==>
                calls == old(calls) && file == old(file) && title == old(title) && progress == 0
                && b.alerts == old(b.alerts) + [if outcome.ConnectionError? then ConnectionAlert else RetryAlert]
    {
      if !CanUpload(file, title) {
        return false;
      }
      sent := true;
      uploading := true;
      progress := 0;
      match outcome {
        case Loaded(status) =>
          if status == 200 {
            uploading := false;
            progress := 100;
            calls := calls + [UploadSucceeded];
            HandleClose();
          } else {
            b.Alert(RetryAlert);
            uploading := false;
          }
        case ConnectionError =>
          b.Alert(ConnectionAlert);
          uploading := false;
      }
    }
  }
}
