/**
  The backend's file handler: the extension allow-list, the naming of saved
  uploads, the extension-based dispatch to a text reader, the readers'
  accumulation of text, and the removal of processed files. The `uploads/`
  directory is a map from paths to file contents; the PDF and DOCX
  libraries and the UTF-8 decoder are oracles over a file's bytes.
*/
module FileHandler {
  import opened Wrappers
  import opened Text

  type byte = bv8

  // ---------------------------------------------------------------------
  // Paths
  // ---------------------------------------------------------------------

  /** The final component of a path: what follows its last `/`. */
  function FinalComponent(path: string): (r: string)
    ensures '/' !in r
    ensures |r| <= |path| && r == path[|path| - |r|..]
    ensures '/' !in path ==> r == path
  {
    var k := LastIndexOf(path, '/');
    path[k + 1..]
  }

  /** Whatever precedes the final component ends in `/`: the component is all that follows the last one. */
  lemma FinalComponentAfterSlash(path: string)
    ensures var r := FinalComponent(path); |r| < |path| ==> path[|path| - |r| - 1] == '/'
  {
  }

  /**
    `Path(p).suffix`: the final component from its last dot on, when that
    dot is neither its first nor its last character; "" otherwise.
  */
  function Suffix(path: string): (r: string)
    ensures r != "" ==> |r| >= 2 && r[0] == '.' && '.' !in r[1..] && '/' !in r
    ensures r != "" ==> var name := FinalComponent(path); |r| < |name| && r == name[|name| - |r|..]
  {
    var name := FinalComponent(path);
    var i := LastIndexOf(name, '.');
    if 0 < i < |name| - 1 then
      SuffixShape(name, i);
      name[i..]
    else ""
  }

  /** The slice from the last dot of a final component is a dot, some characters, no dot and no `/`. */
  lemma SuffixShape(name: string, i: int)
    requires '/' !in name && 0 < i < |name| - 1
    requires name[i] == '.' && '.' !in name[i + 1..]
    ensures var r := name[i..];
            |r| >= 2 && r[0] == '.' && '.' !in r[1..] && '/' !in r
            && |r| < |name| && r == name[|name| - |r|..]
  {
    var r := name[i..];
    assert r[1..] == name[i + 1..];
    assert forall k :: 0 <= k < |r| ==> r[k] == name[i + k];
  }

  /** The allowed extensions and their MIME types. */
  const AllowedExtensions: map<string, string> := map[
    ".pdf" := "application/pdf",
    ".doc" := "application/msword",
    ".docx" := "application/vnd.openxmlformats-officedocument.wordprocessingml.document",
    ".txt" := "text/plain"]

  /** The allowed extensions themselves. */
  const Extensions: set<string> := {".pdf", ".doc", ".docx", ".txt"}

  /** The table's keys are exactly the four extensions. */
  lemma AllowedKeys()
    ensures AllowedExtensions.Keys == Extensions
  {
  }

  /**
    `is_valid_file_type`: a missing or empty name is invalid; otherwise
    the lower-cased suffix must be one of the four allowed extensions.
  */
  function IsValidFileType(filename: Option<string>): (r: bool)
    ensures r <==> filename.Some? && filename.value != "" && Lower(Suffix(filename.value)) in Extensions
  {
    AllowedKeys();
    match filename
    case None => false
    case Some(name) => name != "" && Lower(Suffix(name)) in AllowedExtensions
  }

  /** Upper-case extensions are accepted: `CV.PDF` is a valid name. */
  lemma UpperCaseAccepted()
    ensures IsValidFileType(Some("CV.PDF"))
  {
    CvSuffix();
    LowerPdf();
    assert ".pdf" in Extensions;
  }

  /** The suffix of `CV.PDF` is `.PDF`. */
  lemma CvSuffix()
    ensures Suffix("CV.PDF") == ".PDF"
  {
    assert "CV.PDF" == "CV" + ['.'] + "PDF";
    ExtensionSuffix("CV", "PDF");
  }

  /**
    A file name made of a non-empty stem, a dot and a non-empty ending
    without dots has that dot and ending as its suffix.
  */
  lemma ExtensionSuffix(stem: string, ending: string)
    requires stem != "" && ending != ""
    requires '/' !in stem && '/' !in ending && '.' !in ending
    ensures Suffix(stem + ['.'] + ending) == ['.'] + ending
  {
    var name := stem + ['.'] + ending;
    NameHasNoSlash(stem, ending);
    LastDotOfName(stem, ending);
    SuffixAt(name, |stem|);
    assert name[|stem|..] == ['.'] + ending;
  }

  /** A name without `/` whose last dot is inside it has the slice from that dot as its suffix. */
  lemma SuffixAt(name: string, i: int)
    requires '/' !in name && 0 < i < |name| - 1 && LastIndexOf(name, '.') == i
    ensures Suffix(name) == name[i..]
  {
    assert FinalComponent(name) == name;
  }

  /** A name assembled from pieces without `/` has none. */
  lemma NameHasNoSlash(stem: string, ending: string)
    requires '/' !in stem && '/' !in ending
    ensures '/' !in stem + ['.'] + ending
  {
    var name := stem + ['.'] + ending;
    assert forall k :: 0 <= k < |name| ==> name[k] in stem || name[k] == '.' || name[k] in ending;
  }

  /** The last dot of `stem.ending` is the one after the stem when the ending has none. */
  lemma LastDotOfName(stem: string, ending: string)
    requires '.' !in ending
    ensures LastIndexOf(stem + ['.'] + ending, '.') == |stem|
  {
    var head := stem + ['.'];
    LastIndexOfAppend(head, ending, '.');
    assert head[|stem|] == '.';
  }

  /** Lower-casing `.PDF` gives `.pdf`. */
  lemma LowerPdf()
    ensures Lower(".PDF") == ".pdf"
  {
    var low := Lower(".PDF");
    assert low[0] == '.' && low[1] == 'p' && low[2] == 'd' && low[3] == 'f';
  }

  /** A name without an extension is refused. */
  lemma NoExtensionRefused(name: string)
    requires '.' !in name
    ensures !IsValidFileType(Some(name))
  {
  }

  /** A `uuid4` in its canonical text form: 36 hexadecimal digits and dashes. */
  predicate IsUuid(id: string) {
    |id| == 36 && forall k :: 0 <= k < |id| ==> id[k] == '-' || '0' <= id[k] <= '9' || 'a' <= id[k] <= 'f'
  }

  /** The path `save_uploaded_file` writes: `uploads/<uuid><lower-cased suffix>`. */
  function SavedPath(uniqueId: string, filename: string): string {
    "uploads/" + uniqueId + Lower(Suffix(filename))
  }

  /** Lower-casing keeps the characters that are not ASCII letters. */
  lemma LowerKeeps(s: string, c: char)
    requires !('A' <= c <= 'Z') && !('a' <= c <= 'z')
    ensures c in Lower(s) <==> c in s
  {
    if c in Lower(s) {
      var k :| 0 <= k < |s| && Lower(s)[k] == c;
      assert s[k] == c;
    }
    if c in s {
      var k :| 0 <= k < |s| && s[k] == c;
      assert Lower(s)[k] == c;
    }
  }

  /** Lower-casing twice is lower-casing once. */
  lemma LowerIdempotent(s: string)
    ensures Lower(Lower(s)) == Lower(s)
  {
  }

  /**
    Saving keeps the extension: the saved path's suffix, lower-cased as the
    extraction does, is the original name's lower-cased suffix.
  */
  lemma SavedSuffix(uniqueId: string, filename: string)
    requires IsUuid(uniqueId)
    ensures Lower(Suffix(SavedPath(uniqueId, filename))) == Lower(Suffix(filename))
  {
    var ext := Lower(Suffix(filename));
    LowerSuffixShape(Suffix(filename));
    assert SavedPath(uniqueId, filename) == "uploads/" + (uniqueId + ext);
    SuffixAfterId(uniqueId, ext);
    LowerIdempotent(Suffix(filename));
  }

  /** A lower-cased suffix is still "" or a dot followed by at least one character other than a dot or `/`. */
  lemma LowerSuffixShape(suffix: string)
    requires suffix != "" ==> |suffix| >= 2 && suffix[0] == '.' && '.' !in suffix[1..] && '/' !in suffix
    ensures var ext := Lower(suffix);
            ext != "" ==> |ext| >= 2 && ext[0] == '.' && '.' !in ext[1..] && '/' !in ext
  {
    if suffix != "" {
      LowerKeeps(suffix, '/');
      LowerKeeps(suffix[1..], '.');
      assert Lower(suffix)[1..] == Lower(suffix[1..]);
    }
  }

  /** The final component of `uploads/<name>` is `name` when `name` holds no `/`. */
  lemma FinalOfSaved(name: string)
    requires '/' !in name
    ensures FinalComponent("uploads/" + name) == name
  {
    LastIndexOfAppend("uploads/", name, '/');
    assert LastIndexOf("uploads/", '/') == 7;
    assert ("uploads/" + name)[8..] == name;
  }

  /** A uuid followed by an extension of that shape has exactly that extension as its suffix. */
  lemma SuffixAfterId(uniqueId: string, ext: string)
    requires IsUuid(uniqueId)
    requires ext != "" ==> |ext| >= 2 && ext[0] == '.' && '.' !in ext[1..] && '/' !in ext
    ensures '/' !in uniqueId + ext
    ensures Suffix("uploads/" + (uniqueId + ext)) == ext
  {
    var name := uniqueId + ext;
    assert '/' !in name by {
      assert forall k :: 0 <= k < |name| ==> name[k] == (if k < 36 then uniqueId[k] else ext[k - 36]);
    }
    FinalOfSaved(name);
    if ext == "" {
      assert name == uniqueId;
      assert '.' !in name;
    } else {
      var tail := ext[1..];
      assert name == (uniqueId + ['.']) + tail;
      LastIndexOfAppend(uniqueId + ['.'], tail, '.');
      assert LastIndexOf(uniqueId + ['.'], '.') == 36;
      assert name[36..] == ext;
    }
  }

  /** The last occurrence of `c` in `a + b` when `b` holds none lies in `a`. */
  lemma LastIndexOfAppend(a: string, b: string, c: char)
    requires c !in b
    ensures LastIndexOf(a + b, c) == LastIndexOf(a, c)
    decreases |b|
  {
    if |b| > 0 {
      var ab := a + b;
      assert ab[..|ab| - 1] == a + b[..|b| - 1];
      assert ab[|ab| - 1] == b[|b| - 1];
      LastIndexOfAppend(a, b[..|b| - 1], c);
    } else {
      assert a + b == a;
    }
  }

  // ---------------------------------------------------------------------
  // Extraction dispatch
  // ---------------------------------------------------------------------

  /** The reader `extract_text_from_file` chooses. */
  datatype Reader = PdfReader | DocxReader | TextReader

  /**
    The dispatch on the lower-cased suffix: `.pdf` to the PDF reader,
    `.doc` and `.docx` to the DOCX reader, `.txt` to the text reader,
    nothing otherwise.
  */
  function ReaderFor(path: string): Option<Reader> {
    Dispatch(Lower(Suffix(path)))
  }

  /** The dispatch on an extension already lower-cased; there is a reader exactly for the allowed ones. */
  function Dispatch(ext: string): (r: Option<Reader>)
    ensures ext == ".pdf" <==> r == Some(PdfReader)
    ensures ext in {".doc", ".docx"} <==> r == Some(DocxReader)
    ensures ext == ".txt" <==> r == Some(TextReader)
    ensures r.None? <==> ext !in Extensions
  {
    if ext == ".pdf" then Some(PdfReader)
    else if ext == ".doc" || ext == ".docx" then Some(DocxReader)
    else if ext == ".txt" then Some(TextReader)
    else None
  }

  /** A name that passes `is_valid_file_type` is always dispatched to a reader. */
  lemma ValidHasReader(filename: string)
    requires IsValidFileType(Some(filename))
    ensures ReaderFor(filename).Some?
  {
  }

  /** What the libraries make of a file's bytes; None: the library raised. */
  datatype Libraries = Libraries(
    pdfPages: seq<byte> -> Option<seq<string>>,
    docxParagraphs: seq<byte> -> Option<seq<string>>,
    utf8: seq<byte> -> Option<string>)

  /** Each part followed by a newline, concatenated: what the readers' loops accumulate. */
  function Lines(parts: seq<string>): (r: string)
    ensures |parts| > 0 ==> |r| > 0 && r[|r| - 1] == '\n'
  {
    if |parts| == 0 then ""
    else Lines(parts[..|parts| - 1]) + parts[|parts| - 1] + "\n"
  }

  /** The accumulated text is the parts joined by newlines, plus a final newline. */
  lemma {:induction false} LinesJoin(parts: seq<string>)
    requires |parts| > 0
    ensures Lines(parts) == JoinWith(parts, "\n") + "\n"
  {
    var init := parts[..|parts| - 1];
    assert parts == init + [parts[|parts| - 1]];
    if |parts| > 1 {
      LinesJoin(init);
      JoinWithSnoc(init, parts[|parts| - 1], "\n");
    }
  }

  /** Joining a list extended by one part adds a separator and that part. */
  lemma {:induction false} JoinWithSnoc(parts: seq<string>, x: string, sep: string)
    requires |parts| > 0
    ensures JoinWith(parts + [x], sep) == JoinWith(parts, sep) + sep + x
  {
    if |parts| > 1 {
      assert (parts + [x])[1..] == parts[1..] + [x];
      JoinWithSnoc(parts[1..], x, sep);
    } else {
      assert (parts + [x])[1..] == [x];
    }
  }

  /** The stripped text the loops accumulate is the stripped newline join of the parts. */
  lemma AccumulatedText(parts: seq<string>)
    ensures Strip(Lines(parts)) == Strip(JoinWith(parts, "\n") + "\n")
  {
    if |parts| > 0 {
      LinesJoin(parts);
    } else {
      assert IsBlank(JoinWith(parts, "\n") + "\n");
    }
  }

  /**
    The text a reader obtains from the file at `path`: "" when the file is
    missing or the library raises; otherwise the stripped newline join of
    the pages or paragraphs, or the stripped decoded text.
  */
  function ReaderText(libs: Libraries, files: map<string, seq<byte>>, reader: Reader, path: string): (r: string)
    ensures path !in files ==> r == ""
    ensures path in files && reader == PdfReader ==>
              match libs.pdfPages(files[path])
              case None => r == ""
              case Some(pages) => r == Strip(JoinWith(pages, "\n") + "\n")
    ensures path in files && reader == DocxReader ==>
              match libs.docxParagraphs(files[path])
              case None => r == ""
              case Some(paragraphs) => r == Strip(JoinWith(paragraphs, "\n") + "\n")
    ensures path in files && reader == TextReader ==>
              match libs.utf8(files[path])
              case None => r == ""
              case Some(content) => r == Strip(content)
    ensures r != "" ==> !IsSpace(r[0]) && !IsSpace(r[|r| - 1])
  {
    if path !in files then ""
    else
      var bytes := files[path];
      match reader
      case PdfReader =>
        (match libs.pdfPages(bytes) case None => "" case Some(p) => AccumulatedText(p); Strip(Lines(p)))
      case DocxReader =>
        (match libs.docxParagraphs(bytes) case None => "" case Some(p) => AccumulatedText(p); Strip(Lines(p)))
      case TextReader => (match libs.utf8(bytes) case None => "" case Some(t) => Strip(t))
  }

  /**
    `extract_text_from_file`: None exactly when the suffix has no reader;
    otherwise the chosen reader's text. It never raises.
  */
  function ExtractedText(libs: Libraries, files: map<string, seq<byte>>, path: string): (r: Option<string>)
    ensures r.None? <==> ReaderFor(path).None?
    ensures r.Some? ==> r.value == ReaderText(libs, files, ReaderFor(path).value, path)
  {
    match ReaderFor(path)
    case None => None
    case Some(reader) => Some(ReaderText(libs, files, reader, path))
  }

  /** A saved upload whose name passed validation always has a reader, so extraction yields text. */
  lemma SavedValidExtracts(libs: Libraries, files: map<string, seq<byte>>, uniqueId: string, filename: string)
    requires IsUuid(uniqueId) && IsValidFileType(Some(filename))
    ensures ExtractedText(libs, files, SavedPath(uniqueId, filename)).Some?
  {
    SavedSuffix(uniqueId, filename);
  }

  /** The pages or paragraphs a reader loops over, each followed by a newline, then stripped. */
  method AccumulateLines(parts: seq<string>) returns (text: string)
    ensures text == Strip(Lines(parts))
  {
    text := "";
    for i := 0 to |parts|
      invariant text == Lines(parts[..i])
    {
      assert parts[..i + 1][..i] == parts[..i];
      text := text + parts[i] + "\n";
    }
    assert parts[..|parts|] == parts;
    text := Strip(text);
  }

  /** A file event, in the order the file store sees it. */
  datatype FileEvent = Saved(path: string) | Removed(path: string)

  /** The `uploads/` directory. */
  class FileStore {
    var files: map<string, seq<byte>>
    var log: seq<FileEvent>

    constructor ()
      ensures files == map[] && log == []
    {
      files := map[];
      log := [];
    }

    /** `_extract_text_from_pdf`, `_extract_text_from_docx` and `_extract_text_from_txt`. */
    method ReadText(libs: Libraries, reader: Reader, path: string) returns (text: string)
      ensures text == ReaderText(libs, files, reader, path)
    {
      if path !in files {
        return "";
      }
      var bytes := files[path];
      match reader
      case PdfReader =>
        var pages := libs.pdfPages(bytes);
        if pages.None? { return ""; }
        text := AccumulateLines(pages.value);
      case DocxReader =>
        var paragraphs := libs.docxParagraphs(bytes);
        if paragraphs.None? { return ""; }
        text := AccumulateLines(paragraphs.value);
      case TextReader =>
        var content := libs.utf8(bytes);
        if content.None? { return ""; }
        text := Strip(content.value);
    }

    /** `extract_text_from_file`: dispatch on the suffix, then read. */
    method ExtractTextFromFile(libs: Libraries, path: string) returns (text: Option<string>)
      ensures text == ExtractedText(libs, files, path)
    {
      var reader := ReaderFor(path);
      if reader.None? {
        return None;
      }
      var t := ReadText(libs, reader.value, path);
      return Some(t);
    }

    /**
      `save_uploaded_file`: writes the upload under its new name and
      returns that name. A missing name makes `Path(None)` raise: None,
      and nothing is written.
    */
    method SaveUploadedFile(filename: Option<string>, content: seq<byte>, uniqueId: string)
      returns (path: Option<string>)
      modifies this
      ensures filename.None? ==> path.None? && files == old(files) && log == old(log)
      ensures filename.Some? ==> path == Some(SavedPath(uniqueId, filename.value))
      ensures filename.Some? ==> files == old(files)[path.value := content] && log == old(log) + [Saved(path.value)]
    {
      if filename.None? {
        return None;
      }
      var p := SavedPath(uniqueId, filename.value);
      files := files[p := content];
      log := log + [Saved(p)];
      return Some(p);
    }

    /** `cleanup_file`: an existing file is removed and the removal logged; a missing one changes nothing. */
    method CleanupFile(path: string)
      modifies this
      ensures files == old(files) - {path}
      ensures log == old(log) + (if path in old(files) then [Removed(path)] else [])
    {
      if path in files {
        files := files - {path};
        log := log + [Removed(path)];
      }
    }
  }
}
