/** File names as the upload pages and document lists treat them: the title proposed for a
    chosen file (its name without the extension) and the glyph shown for a file type. */
module Files {
  import opened Js
  import opened Text

  /** The dot at `k` begins what `/\.[^/.]+$/` matches: a dot followed by at least one
      character, none of them a dot or a slash, up to the end of the name. */
  predicate ExtensionAt(name: string, k: int) {
    0 <= k < |name| - 1 && name[k] == '.' &&
    forall i :: k < i < |name| ==> name[i] != '.' && name[i] != '/'
  }

  /** Scans backwards from `j` for the dot that starts the extension. */
  function ScanBack(name: string, j: nat): (r: Option<nat>)
    requires j <= |name|
    requires forall i :: j <= i < |name| ==> name[i] != '.' && name[i] != '/'
    ensures r.Some? ==> ExtensionAt(name, r.value)
    ensures r.None? ==> forall k :: !ExtensionAt(name, k)
    decreases j
  {
    if j == 0 then None
    else if name[j - 1] == '.' then (if j < |name| then Some(j - 1) else None)
    else if name[j - 1] == '/' then None
    else ScanBack(name, j - 1)
  }

  /** `name.replace(/\.[^/.]+$/, '')`: the name without its extension; a name whose last
      dot ends it, or is followed by a slash, or that has no dot, is kept whole. */
  function StripExtension(name: string): (r: string)
    ensures forall k :: ExtensionAt(name, k) ==> r == name[..k]
    ensures (forall k :: !ExtensionAt(name, k)) ==> r == name
  {
    match ScanBack(name, |name|)
    case Some(k) => name[..k]
    case None => name
  }

  /** `name.split('.').pop()`: the text after the last dot, or the whole name without one. */
  function LastPart(name: string): (r: string)
    ensures '.' !in r
    ensures |r| <= |name| && r == name[|name| - |r|..]
    ensures |r| < |name| ==> name[|name| - |r| - 1] == '.'
    decreases |name|
  {
    if |name| == 0 then ""
    else if name[|name| - 1] == '.' then ""
    else
      var init := name[..|name| - 1];
      var rest := LastPart(init);
      assert name[|name| - |rest| - 1..] == init[|init| - |rest|..] + [name[|name| - 1]];
      rest + [name[|name| - 1]]
  }

  /** When the name has an extension, `split('.').pop()` returns exactly that extension. */
  lemma ExtensionIsAfterLastDot(name: string, k: int)
    requires ExtensionAt(name, k)
    ensures LastPart(name) == name[k + 1..]
  {
  }

  /** A dot-preceded, non-empty, slash-free last part is an extension. */
  lemma LastPartIsExtension(name: string)
    requires '.' in name && LastPart(name) != "" && '/' !in LastPart(name)
    ensures ExtensionAt(name, |name| - |LastPart(name)| - 1)
  {
    var r := LastPart(name);
    var k := |name| - |r| - 1;
    assert forall i :: k < i < |name| ==> name[i] == r[i - k - 1];
  }

  /** A name with an extension is the stripped title, a dot and the last part, and that
      last part is non-empty and free of slashes. */
  lemma ExtensionSplits(name: string, k: int)
    requires ExtensionAt(name, k)
    ensures '.' in name && LastPart(name) != "" && '/' !in LastPart(name)
    ensures name == StripExtension(name) + "." + LastPart(name)
  {
    ExtensionIsAfterLastDot(name, k);
    var ext := name[k + 1..];
    assert name[k] == '.';
    assert name == name[..k] + "." + ext;
    forall i | 0 <= i < |ext|
      ensures ext[i] != '/'
    {
      assert ext[i] == name[k + 1 + i];
    }
  }

  /** The two readings of a file name agree: a name has an extension to strip exactly when
      it has a dot whose following text is non-empty and free of slashes, and then the name
      is the stripped title, a dot, and the extension. */
  lemma ExtensionIsLastPart(name: string)
    ensures (exists k :: ExtensionAt(name, k)) <==> ('.' in name && LastPart(name) != "" && '/' !in LastPart(name))
    ensures forall k :: ExtensionAt(name, k) ==> name == StripExtension(name) + "." + LastPart(name)
  {
    if '.' in name && LastPart(name) != "" && '/' !in LastPart(name) {
      LastPartIsExtension(name);
    }
    forall k | ExtensionAt(name, k)
      ensures '.' in name && LastPart(name) != "" && '/' !in LastPart(name)
      ensures name == StripExtension(name) + "." + LastPart(name)
    {
      ExtensionSplits(name, k);
    }
  }

  /** The proposed title for a few typical names. */
  lemma StripExtensionExamples()
    ensures StripExtension("report.final.pdf") == "report.final"
    ensures StripExtension(".bashrc") == ""
    ensures StripExtension("README") == "README"
    ensures StripExtension("notes.") == "notes."
    ensures StripExtension("v1.2/readme") == "v1.2/readme"
  {
    assert ExtensionAt("report.final.pdf", 12);
    assert ExtensionAt(".bashrc", 0);
    var path := "v1.2/readme";
    forall k | 0 <= k < |path| - 1
      ensures !ExtensionAt(path, k)
    {
      assert path[4] == '/';
    }
  }

  /** The glyphs the pages show next to a document. */
  datatype Icon = PageFacingUp | Memo | BarChart | PageWithCurl | FramedPicture | Paperclip

  /** `icons[key] || '📎'`. */
  function IconFor(table: map<string, Icon>, key: string): (r: Icon)
    ensures r != Paperclip ==> key in table && table[key] == r
    ensures Paperclip !in table.Values ==> (r == Paperclip <==> key !in table)
  {
    if key in table then table[key] else Paperclip
  }

  /** The table of Admin.tsx and Dashboard.tsx, keyed by the stored file type. */
  const TypeIcons: map<string, Icon> :=
    map["pdf" := PageFacingUp, "docx" := Memo, "xlsx" := BarChart, "pptx" := BarChart, "txt" := PageWithCurl]

  /** The table of UserDashboard.tsx, which also knows the pre-2007 Office types. */
  const UserTypeIcons: map<string, Icon> :=
    map["pdf" := PageFacingUp, "docx" := Memo, "doc" := Memo, "xlsx" := BarChart, "xls" := BarChart,
        "pptx" := BarChart, "ppt" := BarChart, "txt" := PageWithCurl]

  /** The table of the upload modal, which also knows images. */
  const ExtensionIcons: map<string, Icon> :=
    map["pdf" := PageFacingUp, "doc" := Memo, "docx" := Memo, "xls" := BarChart, "xlsx" := BarChart,
        "ppt" := BarChart, "pptx" := BarChart, "txt" := PageWithCurl,
        "jpg" := FramedPicture, "jpeg" := FramedPicture, "png" := FramedPicture]

  /** Admin.tsx and Dashboard.tsx: the file type looked up as it is stored. */
  function TypeIcon(fileType: string): (r: Icon)
    ensures r == Paperclip <==> fileType !in TypeIcons
  {
    IconFor(TypeIcons, fileType)
  }

  /** UserDashboard.tsx: the file type looked up in lower case. */
  function CaseInsensitiveTypeIcon(fileType: string): (r: Icon)
    ensures r == Paperclip <==> ToLower(fileType) !in UserTypeIcons
  {
    IconFor(UserTypeIcons, ToLower(fileType))
  }

  /** The upload modal: the text after the file name's last dot, in lower case. */
  function FileNameIcon(name: string): (r: Icon)
    ensures r == Paperclip <==> ToLower(LastPart(name)) !in ExtensionIcons
  {
    IconFor(ExtensionIcons, ToLower(LastPart(name)))
  }

  /** The admin page's table is a part of the user dashboard's, and its keys are in lower
      case, so every file type the admin page recognises gets the same glyph on the user
      dashboard. */
  lemma TypeIconsAgree(fileType: string)
    ensures TypeIcon(fileType) != Paperclip ==> CaseInsensitiveTypeIcon(fileType) == TypeIcon(fileType)
  {
    if fileType in TypeIcons {
      LowerKeys(fileType);
    }
  }

  /** Every key of the three tables is already in lower case. */
  lemma LowerKeys(key: string)
    requires key in ExtensionIcons
    ensures ToLower(key) == key
  {
    assert forall i :: 0 <= i < |key| ==> 'a' <= key[i] <= 'z';
  }

  /** Every type the user dashboard recognises gets the same glyph in the upload modal for a
      file named with that extension. */
  lemma ModalIconsAgree(fileType: string, stem: string)
    requires '.' !in fileType
    ensures CaseInsensitiveTypeIcon(fileType) != Paperclip ==>
              FileNameIcon(stem + "." + fileType) == CaseInsensitiveTypeIcon(fileType)
  {
    LastPartAfterDot(stem, fileType);
    var t := ToLower(fileType);
    assert t in UserTypeIcons ==> ExtensionIcons[t] == UserTypeIcons[t];
  }

  /** Only the upload modal recognises images. */
  lemma ModalKnowsImages(stem: string)
    ensures FileNameIcon(stem + ".png") == FramedPicture
    ensures CaseInsensitiveTypeIcon("png") == Paperclip && TypeIcon("png") == Paperclip
  {
    LastPartAfterDot(stem, "png");
    assert stem + "." + "png" == stem + ".png";
    assert ToLower("png") == "png";
  }

  /** The user dashboard ignores case, the admin page does not. */
  lemma CaseOfTypeIcons(fileType: string)
    ensures CaseInsensitiveTypeIcon(ToLower(fileType)) == CaseInsensitiveTypeIcon(fileType)
    ensures TypeIcon("PDF") == Paperclip && CaseInsensitiveTypeIcon("PDF") == PageFacingUp
  {
    ToLowerIdempotent(fileType);
    assert ToLower("PDF") == "pdf";
  }

  /** The text after a final dot-free part is that part. */
  lemma LastPartAfterDot(stem: string, ext: string)
    requires '.' !in ext
    ensures LastPart(stem + "." + ext) == ext
  {
    var name := stem + "." + ext;
    var r := LastPart(name);
    assert name[|stem|] == '.';
    assert name[|name| - |ext|..] == ext;
  }
}
