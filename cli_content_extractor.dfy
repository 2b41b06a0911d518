/**
  `ContentExtractor` of `meeting_prep_cli.py`: the reader is looked up in a
  dictionary keyed by the lowercased suffix, and every reader catches its
  own exceptions. A PDF whose page fails keeps the text of the pages read
  before it; every other failure gives the empty text. The libraries are
  abstracted as in the package's extractor.
 */
module CliContentExtractor {
  import opened Wrappers
  import opened PyStr
  import opened Reports
  import opened ContentExtractor

  /** The `extractors` dictionary. */
  const Extractors: map<string, Reader> := map[
    ".pdf" := PdfReader, ".txt" := TextReader,
    ".png" := ImageReader, ".jpg" := ImageReader, ".jpeg" := ImageReader,
    ".pptx" := PptxReader, ".docx" := DocxReader]

  /** `extractors.get(suffix)`, refused when missing. */
  function CliDispatch(suffix: string): Result<Reader, Error> {
    var s := Lower(suffix);
    if s in Extractors then Ok(Extractors[s]) else Err(UnsupportedFileType(UnsupportedMessage(s)))
  }

  /** The dictionary chooses the same reader as the package's if/elif chain,
      and refuses the same suffixes with the same message. */
  lemma DispatchAgrees(suffix: string)
    ensures CliDispatch(suffix) == Dispatch(suffix)
  {
    DispatchIsTable(suffix);
  }

  /** `extract_pdf`: the text of the pages read before the first failure;
      the empty text when the file cannot be opened. */
  function CliPdfText(pages: Option<seq<Option<string>>>): string {
    match pages
    case None => ""
    case Some(ps) => Lines(Texts(ps[..ReadablePrefix(ps)]))
  }

  method CliExtractPdf(pages: Option<seq<Option<string>>>) returns (text: string)
    ensures text == CliPdfText(pages)
  {
    text := "";
    if pages.Some? {
      var failed;
      text, failed := ReadPages(pages.value);
    }
  }

  /** `extract_pptx`: a line per shape with text; the empty text when the
      file cannot be opened. */
  function CliPptxText(slides: Option<seq<seq<Shape>>>): string {
    match slides
    case None => ""
    case Some(s) => Lines(DeckTexts(s))
  }

  method CliExtractPptx(slides: Option<seq<seq<Shape>>>) returns (text: string)
    ensures text == CliPptxText(slides)
  {
    text := "";
    if slides.Some? {
      text := ReadDeck(slides.value);
    }
  }

  /** A reader whose failure is reported as the empty text. */
  function OrEmpty(r: Result<string, Error>): string {
    match r
    case Ok(t) => t
    case Err(_) => ""
  }

  /** What `extract(file_path)` returns: an error only for an unsupported
      suffix. */
  function CliExtractText(suffix: string, file: FileReads): (r: Result<string, Error>)
    ensures r.Err? <==> CliDispatch(suffix).Err?
  {
    match CliDispatch(suffix)
    case Err(e) => Err(e)
    case Ok(PdfReader) => Ok(CliPdfText(file.pages))
    case Ok(TextReader) => Ok(OrEmpty(ReadText(file.decoded)))
    case Ok(ImageReader) => Ok(OrEmpty(ReadText(file.ocr)))
    case Ok(PptxReader) => Ok(CliPptxText(file.slides))
    case Ok(DocxReader) => Ok(OrEmpty(DocxText(file.paragraphs)))
  }

  /** `extract(file_path)` */
  method CliExtract(suffix: string, file: FileReads) returns (r: Result<string, Error>)
    ensures r == CliExtractText(suffix, file)
  {
    var reader := CliDispatch(suffix);
    match reader {
      case Err(e) => r := Err(e);
      case Ok(PdfReader) =>
        var text := CliExtractPdf(file.pages);
        r := Ok(text);
      case Ok(TextReader) => r := Ok(OrEmpty(ReadText(file.decoded)));
      case Ok(ImageReader) => r := Ok(OrEmpty(ReadText(file.ocr)));
      case Ok(PptxReader) =>
        var text := CliExtractPptx(file.slides);
        r := Ok(text);
      case Ok(DocxReader) => r := Ok(OrEmpty(DocxText(file.paragraphs)));
    }
  }

  /** Where the package's extractor succeeds, this one returns the same
      text. */
  lemma AgreesWhenReadersSucceed(suffix: string, file: FileReads)
    requires ExtractText(suffix, file).Ok?
    ensures CliExtractText(suffix, file) == ExtractText(suffix, file)
  {
    DispatchAgrees(suffix);
    if Dispatch(suffix) == Ok(PdfReader) {
      WholePrefix(file.pages.value);
    }
  }

  /** Where the package's reader raises, this one still returns a text: for
      a PDF, what the package would give for the pages before the failing
      one; for any other file, the empty text. */
  lemma FailureRecovered(suffix: string, file: FileReads)
    requires Dispatch(suffix).Ok? && ExtractText(suffix, file).Err?
    ensures CliExtractText(suffix, file).Ok?
    ensures Dispatch(suffix).value != PdfReader ==> CliExtractText(suffix, file).value == ""
    ensures Dispatch(suffix).value == PdfReader && file.pages.Some? ==>
      var read := file.pages.value[..ReadablePrefix(file.pages.value)];
      PdfText(Some(read)).Ok? && CliExtractText(suffix, file).value == PdfText(Some(read)).value
  {
    DispatchAgrees(suffix);
    if Dispatch(suffix).value == PdfReader && file.pages.Some? {
      var read := file.pages.value[..ReadablePrefix(file.pages.value)];
      NoneFailRead(read);
      WholePrefix(read);
    }
  }
}
