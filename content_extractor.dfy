/**
  `ContentExtractor` of `src/content_extractor.py`: the choice of reader by
  the lowercased file suffix, and the way each reader's output becomes one
  text. The readers themselves (PyPDF2, chardet and `open`, pytesseract,
  python-pptx, python-docx) are the fields of `FileReads`: what each would
  yield for the file, `None` where it raises.
 */
module ContentExtractor {
  import opened Wrappers
  import opened PyStr
  import opened Reports

  /** The extractor methods `extract` can choose. */
  datatype Reader = PdfReader | TextReader | ImageReader | PptxReader | DocxReader

  /** A slide shape: `Some(shape.text)` when the shape has a `text`
      attribute. */
  datatype Shape = Shape(text: Option<string>)

  /** What each library yields for one file: the PDF's pages (each page's
      `extract_text()`, `None` where it raises), the decoded text file, the
      OCR text, the slides' shapes, the Word paragraphs' texts. */
  datatype FileReads = FileReads(
    pages: Option<seq<Option<string>>>,
    decoded: Option<string>,
    ocr: Option<string>,
    slides: Option<seq<seq<Shape>>>,
    paragraphs: Option<seq<string>>)

  // -------------------------------------------------------------- dispatch

  function UnsupportedMessage(suffix: string): string {
    "Unsupported file type: " + suffix
  }

  /** The if/elif chain of `extract` on `file_path.suffix.lower()`. */
  function Dispatch(suffix: string): Result<Reader, Error> {
    var s := Lower(suffix);
    if s == ".pdf" then Ok(PdfReader)
    else if s == ".txt" then Ok(TextReader)
    else if s in [".png", ".jpg", ".jpeg"] then Ok(ImageReader)
    else if s == ".pptx" then Ok(PptxReader)
    else if s == ".docx" then Ok(DocxReader)
    else Err(UnsupportedFileType(UnsupportedMessage(s)))
  }

  /** The suffixes `extract` accepts, with the reader for each. */
  const Readers: map<string, Reader> := map[
    ".pdf" := PdfReader, ".txt" := TextReader,
    ".png" := ImageReader, ".jpg" := ImageReader, ".jpeg" := ImageReader,
    ".pptx" := PptxReader, ".docx" := DocxReader]

  /** A suffix is accepted exactly when its lowercase form is one of the
      seven, and then gets that suffix's reader; any other suffix is refused
      with a message naming its lowercase form. */
  lemma DispatchIsTable(suffix: string)
    ensures Dispatch(suffix).Ok? <==> Lower(suffix) in Readers
    ensures Dispatch(suffix).Ok? ==> Dispatch(suffix).value == Readers[Lower(suffix)]
    ensures Dispatch(suffix).Err? ==>
      Dispatch(suffix).error == UnsupportedFileType(UnsupportedMessage(Lower(suffix)))
  {
  }

  /** Case does not matter: a suffix and its lowercase form dispatch alike. */
  lemma DispatchIgnoresCase(suffix: string)
    ensures Dispatch(suffix) == Dispatch(Lower(suffix))
  {
    LowerIdempotent(suffix);
  }

  /** The three image suffixes, in any case, and no other suffix, go to the
      OCR reader. */
  lemma ImageSuffixes(suffix: string)
    ensures Dispatch(suffix) == Ok(ImageReader) <==> Lower(suffix) in [".png", ".jpg", ".jpeg"]
  {
  }

  // ------------------------------------------------------------ text joining

  /** Each text followed by "\n", concatenated in order: what `text += t + "\n"`
      accumulates. */
  function Lines(texts: seq<string>): string
    decreases |texts|
  {
    if texts == [] then ""
    else Lines(texts[..|texts| - 1]) + texts[|texts| - 1] + "\n"
  }

  lemma LinesSnoc(texts: seq<string>, t: string)
    ensures Lines(texts + [t]) == Lines(texts) + t + "\n"
  {
    assert (texts + [t])[..|texts|] == texts;
  }

  /** The accumulated text of two runs is the concatenation of their texts. */
  lemma {:induction false} LinesAppend(a: seq<string>, b: seq<string>)
    ensures Lines(a + b) == Lines(a) + Lines(b)
    decreases |b|
  {
    if b == [] {
      assert a + b == a;
    } else {
      var init := b[..|b| - 1];
      assert a + b == (a + init) + [b[|b| - 1]];
      LinesAppend(a, init);
      LinesSnoc(a + init, b[|b| - 1]);
      LinesSnoc(init, b[|b| - 1]);
      assert init + [b[|b| - 1]] == b;
    }
  }

  /** The accumulated text is the texts joined by "\n" with one more "\n" at
      the end ... */
  lemma {:induction false} LinesIsJoin(texts: seq<string>)
    ensures Lines(texts) == Join("\n", texts + [""])
    decreases |texts|
  {
    if texts != [] {
      var init := texts[..|texts| - 1];
      var t := texts[|texts| - 1];
      LinesIsJoin(init);
      assert texts == init + [t];
      JoinSnoc("\n", init + [t], "");
      JoinSnoc("\n", init, t);
      if init != [] {
        JoinSnoc("\n", init, "");
        assert Join("\n", init + [""]) == Join("\n", init) + "\n";
      }
    }
  }

  /** ... so splitting it on "\n" gives back the texts and an empty last
      piece, provided no text holds a line break. */
  lemma LinesRoundTrip(texts: seq<string>)
    requires forall i :: 0 <= i < |texts| ==> !Contains(texts[i], "\n")
    ensures Split(Lines(texts), "\n") == texts + [""]
  {
    LinesIsJoin(texts);
    NoBreakInParts(texts);
    SplitJoin("\n", texts + [""]);
  }

  lemma NoBreakInParts(texts: seq<string>)
    requires forall i :: 0 <= i < |texts| ==> !Contains(texts[i], "\n")
    ensures forall i :: 0 <= i < |texts + [""]| ==> !Contains((texts + [""])[i], "\n")
  {
    assert !Contains("", "\n");
  }

  // -------------------------------------------------------------- PDF pages

  /** The number of pages read before the first one whose `extract_text()`
      raises (all of them when none does). */
  function ReadablePrefix(pages: seq<Option<string>>): (k: nat)
    ensures k <= |pages|
    ensures forall i :: 0 <= i < k ==> pages[i].Some?
    ensures k < |pages| ==> pages[k].None?
    decreases |pages|
  {
    if pages == [] || pages[0].None? then 0 else 1 + ReadablePrefix(pages[1..])
  }

  /** The texts of pages that were all read. */
  function Texts(pages: seq<Option<string>>): (texts: seq<string>)
    requires forall i :: 0 <= i < |pages| ==> pages[i].Some?
    ensures |texts| == |pages|
  {
    seq(|pages|, i requires 0 <= i < |pages| && pages[i].Some? => pages[i].value)
  }

  /** `for page in pdf_reader.pages: text += page.extract_text() + "\n"`, up to
      the first page that raises: the text of the pages read, and whether a
      page raised. */
  method ReadPages(pages: seq<Option<string>>) returns (text: string, failed: bool)
    ensures failed <==> ReadablePrefix(pages) < |pages|
    ensures text == Lines(Texts(pages[..ReadablePrefix(pages)]))
  {
    text := "";
    var i := 0;
    while i < |pages| && pages[i].Some?
      invariant 0 <= i <= ReadablePrefix(pages)
      invariant text == Lines(Texts(pages[..i]))
    {
      assert Texts(pages[..i + 1]) == Texts(pages[..i]) + [pages[i].value];
      LinesSnoc(Texts(pages[..i]), pages[i].value);
      text := text + pages[i].value + "\n";
      i := i + 1;
    }
    failed := i < |pages|;
  }

  /** `extract_pdf`: the pages' texts each followed by "\n"; an error when the
      file cannot be opened or a page cannot be read. */
  function PdfText(pages: Option<seq<Option<string>>>): (r: Result<string, Error>)
    ensures r.Err? <==> pages.None? || ReadablePrefix(pages.value) < |pages.value|
  {
    if pages.None? || ReadablePrefix(pages.value) < |pages.value| then Err(ReaderFailed)
    else
      WholePrefix(pages.value);
      Ok(Lines(Texts(pages.value)))
  }

  method ExtractPdf(pages: Option<seq<Option<string>>>) returns (r: Result<string, Error>)
    ensures r == PdfText(pages)
  {
    if pages.None? {
      return Err(ReaderFailed);
    }
    var text, failed := ReadPages(pages.value);
    if failed {
      return Err(ReaderFailed);
    }
    WholePrefix(pages.value);
    r := Ok(text);
  }

  /** Every page's text appears, in page order, one per line. */
  lemma PdfRoundTrip(texts: seq<string>)
    requires forall i :: 0 <= i < |texts| ==> !Contains(texts[i], "\n")
    ensures var pages := seq(|texts|, i requires 0 <= i < |texts| => Some(texts[i]));
      PdfText(Some(pages)).Ok? && Split(PdfText(Some(pages)).value, "\n") == texts + [""]
  {
    var pages := seq(|texts|, i requires 0 <= i < |texts| => Some(texts[i]));
    NoneFailRead(pages);
    assert Texts(pages) == texts;
    LinesRoundTrip(texts);
  }

  lemma {:induction false} NoneFailRead(pages: seq<Option<string>>)
    requires forall i :: 0 <= i < |pages| ==> pages[i].Some?
    ensures ReadablePrefix(pages) == |pages|
    decreases |pages|
  {
    if pages != [] {
      NoneFailRead(pages[1..]);
    }
  }

  // ----------------------------------------------------------- slide shapes

  /** The texts of one slide's shapes that have text, in shape order. */
  function SlideTexts(shapes: seq<Shape>): seq<string>
    decreases |shapes|
  {
    if shapes == [] then []
    else
      var init := SlideTexts(shapes[..|shapes| - 1]);
      var last := shapes[|shapes| - 1];
      if last.text.Some? then init + [last.text.value] else init
  }

  /** The texts of all slides, in slide then shape order. */
  function DeckTexts(slides: seq<seq<Shape>>): seq<string>
    decreases |slides|
  {
    if slides == [] then [] else DeckTexts(slides[..|slides| - 1]) + SlideTexts(slides[|slides| - 1])
  }

  /** The two nested `for` loops of `extract_pptx`. */
  method ReadDeck(slides: seq<seq<Shape>>) returns (text: string)
    ensures text == Lines(DeckTexts(slides))
  {
    text := "";
    var i := 0;
    while i < |slides|
      invariant 0 <= i <= |slides|
      invariant text == Lines(DeckTexts(slides[..i]))
    {
      var shapes := slides[i];
      ghost var before := text;
      var j := 0;
      while j < |shapes|
        invariant 0 <= j <= |shapes|
        invariant text == before + Lines(SlideTexts(shapes[..j]))
      {
        assert shapes[..j + 1][..j] == shapes[..j];
        if shapes[j].text.Some? {
          LinesSnoc(SlideTexts(shapes[..j]), shapes[j].text.value);
          text := text + shapes[j].text.value + "\n";
        }
        j := j + 1;
      }
      WholePrefix(shapes);
      assert slides[..i + 1][..i] == slides[..i];
      LinesAppend(DeckTexts(slides[..i]), SlideTexts(shapes));
      i := i + 1;
    }
    WholePrefix(slides);
  }

  /** `extract_pptx`: a line per shape that has text; an error when the file
      cannot be opened. */
  function PptxText(slides: Option<seq<seq<Shape>>>): Result<string, Error> {
    match slides
    case None => Err(ReaderFailed)
    case Some(s) => Ok(Lines(DeckTexts(s)))
  }

  method ExtractPptx(slides: Option<seq<seq<Shape>>>) returns (r: Result<string, Error>)
    ensures r == PptxText(slides)
  {
    if slides.None? {
      return Err(ReaderFailed);
    }
    var text := ReadDeck(slides.value);
    r := Ok(text);
  }

  /** Shapes without text contribute nothing ... */
  lemma {:induction false} NoTextNoLines(shapes: seq<Shape>)
    requires forall i :: 0 <= i < |shapes| ==> shapes[i].text.None?
    ensures SlideTexts(shapes) == []
    decreases |shapes|
  {
    if shapes != [] {
      NoTextNoLines(shapes[..|shapes| - 1]);
    }
  }

  /** ... and the deck's text is the slides' texts one after the other. */
  lemma {:induction false} DeckTextAppend(a: seq<seq<Shape>>, b: seq<seq<Shape>>)
    ensures DeckTexts(a + b) == DeckTexts(a) + DeckTexts(b)
    decreases |b|
  {
    if b == [] {
      assert a + b == a;
    } else {
      var init := b[..|b| - 1];
      assert a + b == (a + init) + [b[|b| - 1]];
      assert (a + init + [b[|b| - 1]])[..|a + init|] == a + init;
      DeckTextAppend(a, init);
    }
  }

  // ------------------------------------------------------------ Word text

  /** `extract_docx`: the paragraphs joined by "\n"; an error when the file
      cannot be opened. */
  function DocxText(paragraphs: Option<seq<string>>): Result<string, Error> {
    match paragraphs
    case None => Err(ReaderFailed)
    case Some(ps) => Ok(Join("\n", ps))
  }

  /** Unlike the other two, the Word text has no trailing line break: splitting
      it gives back exactly the paragraphs. */
  lemma DocxRoundTrip(ps: seq<string>)
    requires ps != [] && forall i :: 0 <= i < |ps| ==> !Contains(ps[i], "\n")
    ensures DocxText(Some(ps)).Ok? && Split(DocxText(Some(ps)).value, "\n") == ps
  {
    SplitJoin("\n", ps);
  }

  // --------------------------------------------------------------- extract

  /** A reader that yields a text or raises. */
  function ReadText(text: Option<string>): Result<string, Error> {
    match text
    case None => Err(ReaderFailed)
    case Some(t) => Ok(t)
  }

  /** What `extract(file_path)` returns for a file with this suffix. */
  function ExtractText(suffix: string, file: FileReads): (r: Result<string, Error>)
    ensures Dispatch(suffix).Err? ==> r == Err(Dispatch(suffix).error)
  {
    match Dispatch(suffix)
    case Err(e) => Err(e)
    case Ok(PdfReader) => PdfText(file.pages)
    case Ok(TextReader) => ReadText(file.decoded)
    case Ok(ImageReader) => ReadText(file.ocr)
    case Ok(PptxReader) => PptxText(file.slides)
    case Ok(DocxReader) => DocxText(file.paragraphs)
  }

  /** `extract(file_path)` */
  method Extract(suffix: string, file: FileReads) returns (r: Result<string, Error>)
    ensures r == ExtractText(suffix, file)
  {
    var reader := Dispatch(suffix);
    match reader {
      case Err(e) => r := Err(e);
      case Ok(PdfReader) => r := ExtractPdf(file.pages);
      case Ok(TextReader) => r := ReadText(file.decoded);
      case Ok(ImageReader) => r := ReadText(file.ocr);
      case Ok(PptxReader) => r := ExtractPptx(file.slides);
      case Ok(DocxReader) => r := DocxText(file.paragraphs);
    }
  }

  /** No reader of this copy fails quietly: for a supported suffix, the
      result is an error exactly when the chosen library raises. */
  lemma ExtractFailsIff(suffix: string, file: FileReads)
    requires Dispatch(suffix).Ok?
    ensures ExtractText(suffix, file).Err? <==> match Dispatch(suffix).value
      case PdfReader => file.pages.None? || ReadablePrefix(file.pages.value) < |file.pages.value|
      case TextReader => file.decoded.None?
      case ImageReader => file.ocr.None?
      case PptxReader => file.slides.None?
      case DocxReader => file.paragraphs.None?
    ensures ExtractText(suffix, file).Err? ==> ExtractText(suffix, file).error == ReaderFailed
  {
  }
}
