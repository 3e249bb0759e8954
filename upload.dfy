/** The upload endpoint: picks a text extractor from the file's type and extension, cuts the
    text into overlapping chunks, and builds one index record per chunk. Parsing the form,
    extracting the text and writing to the index are parameters: their outcomes are given. */
module Upload {
  import opened Text
  import opened Common
  import Chunker

  // ----- path.extname -----

  /** The index of the last `c` in `s`, or -1. */
  function LastIndex(s: string, c: char): (r: int)
    ensures -1 <= r < |s|
    ensures r >= 0 ==> s[r] == c
    ensures forall j :: r < j < |s| ==> s[j] != c
  {
    if s == [] then -1
    else if s[|s| - 1] == c then |s| - 1
    else LastIndex(s[..|s| - 1], c)
  }

  /** `p` without its trailing slashes. */
  function DropTrailingSlashes(p: string): (r: string)
    ensures |r| <= |p| && r == p[..|r|]
    ensures r == [] || r[|r| - 1] != '/'
  {
    if p != [] && p[|p| - 1] == '/' then DropTrailingSlashes(p[..|p| - 1]) else p
  }

  /** The last segment of a POSIX path. */
  function Basename(p: string): string {
    var q := DropTrailingSlashes(p);
    q[LastIndex(q, '/') + 1..]
  }

  /** `path.extname`: the basename from its last '.' on; empty when the basename has no '.',
      starts with its only '.', or is "..". */
  function Extname(p: string): (ext: string)
    ensures ext == [] || ext[0] == '.'
    ensures '/' !in ext
    ensures forall j :: 0 < j < |ext| ==> ext[j] != '.'
  {
    var b := Basename(p);
    var d := LastIndex(b, '.');
    if d <= 0 || b == ".." then "" else b[d..]
  }

  /** Appending characters other than `c` does not move the last `c`. */
  lemma {:induction false} LastIndexAppend(s: string, t: string, c: char)
    requires c !in t
    ensures LastIndex(s + t, c) == LastIndex(s, c)
    decreases |t|
  {
    if t != [] {
      var u := s + t;
      assert u[|u| - 1] == t[|t| - 1];
      assert u[..|u| - 1] == s + t[..|t| - 1];
      LastIndexAppend(s, t[..|t| - 1], c);
    } else {
      assert s + t == s;
    }
  }

  /** A name ending in '.' and a dot-free, slash-free word has that extension. */
  lemma ExtnameOfName(base: string, x: string)
    requires base != [] && base[|base| - 1] != '/'
    requires x != [] && '.' !in x && '/' !in x
    ensures Extname(base + "." + x) == "." + x
  {
    var p := base + "." + x;
    assert p[|p| - 1] == x[|x| - 1];
    assert DropTrailingSlashes(p) == p;
    assert p == base + ("." + x);
    LastIndexAppend(base, "." + x, '/');
    var j := LastIndex(p, '/');
    assert j < |base| - 1;
    var b := p[j + 1..];
    var head := base[j + 1..] + ".";
    assert b == head + x;
    LastIndexAppend(head, x, '.');
    var d := LastIndex(b, '.');
    assert d == |head| - 1 && d > 0;
    assert |b| >= 3;
    assert Basename(p) == b;
    assert b[d..] == "." + x;
  }

  // ----- extractText dispatch -----

  datatype Extractor = PdfExtractor | DocxExtractor | PlainTextReader | GenericExtractor

  const PdfMime: string := "application/pdf"
  const DocxMime: string := "application/vnd.openxmlformats-" + "officedocument.wordprocessingml.document"

  /** The extension as the dispatch compares it: lower-cased. */
  function Extension(fileName: string): string {
    Lower(Extname(fileName))
  }

  /** The extractor for a file: PDF by type or extension first, then DOCX by type or extension,
      then plain text for ".txt", ".md" and ".csv", and the generic extractor for the rest. */
  function ChooseExtractor(mimeType: Option<string>, fileName: string): (x: Extractor)
    ensures x == PdfExtractor <==> mimeType == Some(PdfMime) || Extension(fileName) == ".pdf"
    ensures x == DocxExtractor <==> !(mimeType == Some(PdfMime) || Extension(fileName) == ".pdf")
                                    && (mimeType == Some(DocxMime) || Extension(fileName) == ".docx")
    ensures x == PlainTextReader ==> Extension(fileName) in [".txt", ".md", ".csv"]
    ensures x == GenericExtractor ==> Extension(fileName) !in [".pdf", ".docx", ".txt", ".md", ".csv"]
  {
    var ext := Extension(fileName);
    if mimeType == Some(PdfMime) || ext == ".pdf" then PdfExtractor
    else if mimeType == Some(DocxMime) || ext == ".docx" then DocxExtractor
    else if ext in [".txt", ".md", ".csv"] then PlainTextReader
    else GenericExtractor
  }

  /** The extension is compared case-insensitively: "REPORT.PDF" goes to the PDF extractor
      whatever type the browser reported. */
  lemma UpperCasePdfIsPdf(base: string, mimeType: Option<string>)
    requires base != [] && base[|base| - 1] != '/'
    ensures ChooseExtractor(mimeType, base + ".PDF") == PdfExtractor
  {
    ExtnameOfName(base, "PDF");
    LowerPdf();
    assert base + ".PDF" == base + "." + "PDF";
    assert Extension(base + ".PDF") == ".pdf";
  }

  lemma LowerPdf()
    ensures Lower(".PDF") == ".pdf"
  {
    assert Lower(".PDF")[1] == 'p' && Lower(".PDF")[2] == 'd' && Lower(".PDF")[3] == 'f';
  }

  /** Only the last extension counts: "notes.pdf.txt" is read as plain text when its type is
      not a PDF or DOCX type. */
  lemma LastExtensionCounts(base: string, mimeType: Option<string>)
    requires base != [] && base[|base| - 1] != '/'
    requires mimeType != Some(PdfMime) && mimeType != Some(DocxMime)
    ensures ChooseExtractor(mimeType, base + ".pdf" + ".txt") == PlainTextReader
  {
    assert base + ".pdf" + ".txt" == (base + ".pdf") + "." + "txt";
    ExtnameOfName(base + ".pdf", "txt");
    LowerTxt();
    assert Extension(base + ".pdf" + ".txt") == ".txt";
  }

  lemma LowerTxt()
    ensures Lower(".txt") == ".txt"
  {
    assert Lower(".txt")[1] == 't' && Lower(".txt")[2] == 'x' && Lower(".txt")[3] == 't';
  }

  /** The PDF extractor's failure: an error whose message mentions "password" in any case is
      replaced by a fixed error; anything else is rethrown as it is. */
  function PdfFailure(e: Thrown): (r: Thrown)
    ensures e.ErrorObject? && Contains(Lower(e.message), "password")
            ==> r == ErrorObject("Password-protected PDFs are not supported.")
    ensures !(e.ErrorObject? && Contains(Lower(e.message), "password")) ==> r == e
  {
    if e.ErrorObject? && e.message != "" && Contains(Lower(e.message), "password")
    then ErrorObject("Password-protected PDFs are not supported.")
    else e
  }

  // ----- records -----

  /** An index record for one chunk. */
  datatype Record = Record(id: string, text: string, fileName: string, chunkIndex: nat,
                           timestamp: int, userId: string, sessionId: string)

  /** `originalFilename || "file"`. */
  function FileLabel(name: Option<string>): (l: string)
    ensures l != ""
  {
    OrElse(name, "file")
  }

  /** The session id of the form when it is a non-empty string, else "demo-session". */
  function SessionFor(field: Field): (s: string)
    ensures field.Str? && field.s != "" ==> s == field.s
    ensures !(field.Str? && field.s != "") ==> s == "demo-session"
  {
    if field.Str? && field.s != "" then field.s else "demo-session"
  }

  const UserId: string := "demo-user"

  function RecordId(stem: string, i: nat): string {
    stem + "-" + NatToString(i)
  }

  /** One record per chunk, in chunk order: record `i` holds chunk `i` under the id
      `<name>-<i>`. */
  function Records(name: Option<string>, chunks: seq<string>, sessionId: string, now: int): (rs: seq<Record>)
    ensures |rs| == |chunks|
    ensures forall i :: 0 <= i < |rs| ==>
              rs[i] == Record(RecordId(FileLabel(name), i), chunks[i], FileLabel(name), i, now, UserId, sessionId)
  {
    seq(|chunks|, i requires 0 <= i < |chunks| =>
      Record(RecordId(FileLabel(name), i), chunks[i], FileLabel(name), i, now, UserId, sessionId))
  }

  /** The ids of one upload are pairwise distinct. */
  lemma RecordIdsDistinct(name: Option<string>, chunks: seq<string>, sessionId: string, now: int, i: nat, j: nat)
    requires i < |chunks| && j < |chunks| && i != j
    ensures Records(name, chunks, sessionId, now)[i].id != Records(name, chunks, sessionId, now)[j].id
  {
    var l := FileLabel(name);
    if RecordId(l, i) == RecordId(l, j) {
      assert RecordId(l, i)[|l| + 1..] == NatToString(i);
      assert RecordId(l, j)[|l| + 1..] == NatToString(j);
      NatToStringInjective(i, j);
      assert false;
    }
  }

  // ----- the handler -----

  datatype UploadedFile = UploadedFile(filepath: string, mimetype: Option<string>,
                                       originalFilename: Option<string>, size: int)

  /** The `file` entry of the parsed form: missing, one file, or a list of files. */
  datatype FileEntry = NoFile | OneFile(file: UploadedFile) | FileList(files: seq<UploadedFile>)

  /** What the chosen extractor did. */
  datatype Extraction = Extracted(text: string) | ExtractionFailed(thrown: Thrown)

  datatype Response =
    | Uploaded(name: Option<string>, mimetype: Option<string>, size: int, path: string, chunkCount: nat)
    | JsonError(status: int, error: string, details: Option<string>)

  const ChunkSize: nat := 1000
  const ChunkOverlap: nat := 200

  /** The upload handler. `parseError` is the form parser's error; the extractor's and the
      index writer's outcomes are given. `extractor` is the extractor chosen and `upserted` the
      records written. */
  method Handle(httpMethod: string, parseError: Option<Thrown>, file: FileEntry, sessionIdField: Field,
                extraction: Extraction, upsertFailure: Option<Thrown>, now: int)
    returns (resp: Response, extractor: Option<Extractor>, upserted: Option<seq<Record>>)
    ensures httpMethod != "POST" ==> resp == JsonError(405, "Request Method not allowed", None)
                                     && extractor.None? && upserted.None?
    ensures httpMethod == "POST" && parseError.Some?
            ==> resp == JsonError(500, "File upload error", if parseError.value.ErrorObject?
                                                            then Some(parseError.value.message) else None)
                && extractor.None? && upserted.None?
    ensures httpMethod == "POST" && parseError.None? && file.NoFile?
            ==> resp == JsonError(400, "No file uploaded", None) && extractor.None? && upserted.None?
    ensures httpMethod == "POST" && parseError.None? && (file.OneFile? || (file.FileList? && file.files != []))
            ==> var f := if file.OneFile? then file.file else file.files[0];
                && extractor == Some(ChooseExtractor(f.mimetype, OrElse(f.originalFilename, "")))
                && (extraction.Extracted? ==>
                      var rs := Records(f.originalFilename, Chunker.Chunks(extraction.text, ChunkSize, ChunkOverlap),
                                        SessionFor(sessionIdField), now);
                      && upserted == Some(rs)
                      && (upsertFailure.None? ==>
                            resp == Uploaded(f.originalFilename, f.mimetype, f.size, f.filepath, |rs|))
                      && (upsertFailure.Some? ==>
                            resp == JsonError(500, "Text extraction or indexing failed", ErrorDetails(upsertFailure.value))))
                && (extraction.ExtractionFailed? ==>
                      upserted.None?
                      && resp == JsonError(500, "Text extraction or indexing failed",
                                           ErrorDetails(if extractor == Some(PdfExtractor)
                                                        then PdfFailure(extraction.thrown) else extraction.thrown)))
  {
    extractor, upserted := None, None;
    if httpMethod != "POST" {
      resp := JsonError(405, "Request Method not allowed", None);
      return;
    }
    if parseError.Some? {
      var details := if parseError.value.ErrorObject? then Some(parseError.value.message) else None;
      resp := JsonError(500, "File upload error", details);
      return;
    }
    if file.NoFile? {
      resp := JsonError(400, "No file uploaded", None);
      return;
    }
    if file.FileList? && file.files == [] {
      // `file[0]` is undefined and reading its path throws.
      resp := JsonError(500, "Text extraction or indexing failed", None);
      return;
    }
    var f := if file.OneFile? then file.file else file.files[0];
    var x := ChooseExtractor(f.mimetype, OrElse(f.originalFilename, ""));
    extractor := Some(x);
    match extraction
    case ExtractionFailed(e) =>
      var thrown := if x == PdfExtractor then PdfFailure(e) else e;
      resp := JsonError(500, "Text extraction or indexing failed", ErrorDetails(thrown));
    case Extracted(text) =>
      var chunks := Chunker.ChunkText(text, ChunkSize, ChunkOverlap);
      var records := Records(f.originalFilename, chunks, SessionFor(sessionIdField), now);
      upserted := Some(records);
      if upsertFailure.Some? {
        resp := JsonError(500, "Text extraction or indexing failed", ErrorDetails(upsertFailure.value));
      } else {
        resp := Uploaded(f.originalFilename, f.mimetype, f.size, f.filepath, |records|);
      }
  }
}
