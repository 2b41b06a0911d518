# Meeting-prep report core in Dafny

This project models the deterministic core of a tool that prepares engineering
meeting briefs. The tool takes source documents or a topic and asks a
language model for a ten-section report. It parses the reply into a
dictionary, adds metadata, and lays the report out as a PDF story:
reportlab's list of flowables. The repository has two copies of this
pipeline:

- the package under `src/`;
- the single-file command-line tool `meeting_prep_cli.py`.

The copies differ in small ways, so each gets its own modules.

| module | file | models |
|---|---|---|
| `Wrappers` | `wrappers.dfy` | `Option` and `Result` |
| `PyStr` | `pystr.dfy` | the Python string operations the core uses: `strip`, `lower`, `in`, `split`, `join`, `startswith`/`endswith`, `lstrip(chars)`, slicing `s[:n]`, `str(int)` |
| `Reports` | `reports.dfy` | report values (string, list, other), Python truthiness, JSON as `json.loads` returns it, the three metadata dictionaries, the ten section names |
| `OpenAIManager` | `openai_manager.dfy` | `src/openai_manager.py`: the prompt, fence extraction, the structured report built from a raw reply (a loop over lines), the fallback report, `generate_report` |
| `ReportGenerator` | `report_generator.dfy` | `src/report_generator.py`: combining documents and attaching metadata |
| `Story` | `story.dfy` | the story items, title page, bullet and paragraph bodies, section blocks; both generators share these |
| `PdfGenerator` | `pdf_generator.dfy` | `src/pdf_generator.py`: `create_pdf` up to `doc.build`, including the case where it raises |
| `ContentExtractor` | `content_extractor.dfy` | `src/content_extractor.py`: suffix dispatch and the per-format text joins |
| `CliOpenAIManager` | `cli_openai_manager.dfy` | the CLI manager: the prompt with content cut to 10000 characters, reply cleanup, its own fallback report, `generate_report` |
| `CliReportGenerator` | `cli_report_generator.dfy` | the CLI generator: each document cut to 2000 characters, the empty report |
| `CliPdfGenerator` | `cli_pdf_generator.dfy` | the CLI `create_pdf`: only truthy sections, and `str(content)` |
| `CliContentExtractor` | `cli_content_extractor.dfy` | the CLI extractor: a dictionary dispatch and readers that swallow their errors |

## Abstractions

- **The language model.** A call is a function `respond` from the prompt to
  an `ApiOutcome`. `ApiFailed` stands for any exception the client raises.
  `Replied(content)` is the reply text.
- **Decoding.** `json.loads` is a function `decode` from text to
  `Option<Json>`, where `None` is a `JSONDecodeError`. Every property holds
  for every such pair of functions.
- **The retry policy.** tenacity's `@retry` re-runs a call that raised
  outside the manager's own `try`. After three attempts it raises
  `RetryError`. Nothing in the model succeeds on a retry, so this outcome is
  modelled as the error `RetryAborted`.
- **File readers.** A file's reads are one `FileReads` value:
  - the PDF pages, each `None` where `extract_text` raises;
  - the decoded text and the OCR text;
  - the slides' shapes, each with `text` present or absent;
  - the Word paragraphs.

  `None` at the top level means the file cannot be opened.
- **Timestamps.** The `isoformat()` text and the `strftime` text are
  parameters.
- **The PDF.** The PDF is the story handed to `doc.build`. Styles and sizes
  are dropped; spacers keep their height in quarter inches, because the
  spacer sizes appear in the source.
- **Metadata.** The `metadata` entry of a report is a separate field of
  `Report`, not one more dictionary key.
- **Mutating methods.** The two report generators modify the returned
  dictionary in place. Here they are functions from the manager's result to
  a new `Report`. Where the manager's `json.loads` yields something other
  than an object, the assignment would raise; that case is modelled as
  `NotADictionary`.

The pure parts of the source are functions with lemmas. The parts that work
by appending or reassigning step by step are methods with loops whose
contracts tie them to those functions:
- `_create_structured_report`;
- the two `create_pdf` loops;
- the PDF and PowerPoint extractors;
- the CLI reply cleanup.

All line references below are to the repository's source files.

## Model

| member | source | states |
|---|---|---|
| PyStr.StripEmptyIffBlank | src/openai_manager.py:94-96 | a stripped line is empty exactly when the line is all whitespace |
| PyStr.StripUnchanged | src/openai_manager.py:94 | a line with no leading or trailing whitespace is its own strip |
| PyStr.LowerIdempotent | src/content_extractor.py:12 | lowercasing twice is lowercasing once |
| PyStr.IndexOf | src/openai_manager.py:56-59 | the index returned is an occurrence of the separator, and there is none when absent |
| PyStr.IndexOfIsFirst | src/openai_manager.py:57 | no occurrence lies before the index returned |
| PyStr.Before | src/openai_manager.py:57 | the text before the first separator, `split(sep)[0]`, holds no occurrence of it |
| PyStr.Split | src/openai_manager.py:91 | `split(sep)` yields at least one piece, more than one exactly when the separator occurs, no piece holds it, and the pieces join back to the text |
| PyStr.SplitJoin | src/openai_manager.py:91 | splitting a one-character-separator join gives back the parts |
| PyStr.SplitCons | src/openai_manager.py:91 | splitting a part, a separator and a rest gives the part followed by the split of the rest |
| PyStr.JoinSnoc | src/report_generator.py:12-15 | joining one more part appends the separator and that part |
| PyStr.RemovePrefix | meeting_prep_cli.py:256-257 | removing a present prefix leaves the rest; an absent prefix leaves the text unchanged |
| PyStr.RemoveSuffix | meeting_prep_cli.py:258-259 | removing a present suffix leaves the front; an absent suffix leaves the text unchanged |
| PyStr.LStripChars | src/openai_manager.py:108 | `lstrip(chars)` is a suffix of the text that does not start with any of the characters |
| PyStr.Take | meeting_prep_cli.py:224 | `s[:n]` is a prefix of `s` of length at most `n`, and the whole of `s` when it is short enough |
| PyStr.NatToString | src/pdf_generator.py:66 | `str(n)` is a non-empty string of decimal digits without a leading zero whose value is `n` |
| Reports.Filenames | src/report_generator.py:23 | the file-name list has one entry per document, in order |
| Reports.WithMetadata | src/report_generator.py:21-25 | attaching metadata sets it and keeps every other key and value |
| Reports.SectionNamesDistinct | src/openai_manager.py:76-87 | the ten section names are pairwise different |
| Reports.SectionMap | src/openai_manager.py:76-87 | a dictionary keyed by exactly the ten sections, each holding its value |
| Reports.SectionMapUpdate | src/openai_manager.py:101-110 | updating one section's entry is the dictionary of the updated values |
| Reports.SectionMapShape | src/openai_manager.py:76-87 | values with the list/string layout give a report of section shape |
| Reports.MetadataNotASection | src/pdf_generator.py:78-92 | "metadata" is not a section name, so it is never rendered as a section |
| Reports.TopicOrDefault | src/openai_manager.py:67 | `topic or "Technical Briefing"` |
| OpenAIManager.PromptParts | src/openai_manager.py:21-41 | the prompt starts with the topic lead when the topic is truthy, else with the content lead and the content, and always ends with the section list and format request |
| OpenAIManager.TopicPromptIgnoresContent | src/openai_manager.py:21-22 | with a truthy topic the content plays no part in the prompt |
| OpenAIManager.ExtractJsonText | src/openai_manager.py:56-61 | the text handed to `json.loads`: after the first json fence up to the next fence, else between the first two plain fences, else the whole reply, stripped |
| OpenAIManager.JsonFenceBody | src/openai_manager.py:56-57 | with a json fence, the body is the stripped text up to the first closing fence that is not followed by a backtick, or all the rest |
| OpenAIManager.JsonFenceRoundTrip | src/openai_manager.py:56-61 | a reply of prose, a json-fenced body and a trailer yields exactly the stripped body |
| OpenAIManager.OpeningFenceFirst | src/openai_manager.py:57 | the json fence after backtick-free prose is found at the end of the prose |
| OpenAIManager.ClosingFenceFirst | src/openai_manager.py:57 | the closing fence after a fence-free body is found at the end of the body |
| OpenAIManager.FallbackReport | src/openai_manager.py:118-155 | the fallback report has exactly the ten section keys |
| OpenAIManager.FallbackSections | src/openai_manager.py:120-155 | each section holds its fixed fallback value |
| OpenAIManager.FallbackValue | src/openai_manager.py:120-155 | the five list sections hold lists and the rest strings |
| OpenAIManager.FallbackShape | src/openai_manager.py:118-155 | the fallback report has section shape |
| OpenAIManager.FallbackNamesTopic | src/openai_manager.py:121-122 | the summary names the topic after its fixed lead, and the overview starts with it |
| OpenAIManager.FallbackRestFixed | src/openai_manager.py:123-154 | sections three to ten do not depend on the topic |
| OpenAIManager.FallbackSummaryTruthy | src/openai_manager.py:121 | the fallback summary is never empty |
| OpenAIManager.FirstHeader | src/openai_manager.py:99-102 | the header found lies among the remaining sections |
| OpenAIManager.FirstHeaderIs | src/openai_manager.py:99-102 | the header found is the first section, in dictionary order, whose lowercased name occurs in the lowercased line |
| OpenAIManager.FirstHeaderFirst | src/openai_manager.py:99-102 | the section found is named in the line and no earlier section is |
| OpenAIManager.Classify | src/openai_manager.py:94-110 | a content line is never empty |
| OpenAIManager.ClassifyBlank | src/openai_manager.py:94-96 | a line is skipped exactly when it is blank |
| OpenAIManager.ClassifyHeader | src/openai_manager.py:99-102 | a line naming section `h` and no earlier one switches to section `h` |
| OpenAIManager.ClassifyContent | src/openai_manager.py:103-104 | a non-blank line naming no section is content, stripped |
| OpenAIManager.FiledValue | src/openai_manager.py:104-110 | a section's value is a list for the five list sections and a string otherwise |
| OpenAIManager.FiledValueStep | src/openai_manager.py:104-110 | one more line appends its piece, if any, to that section's value |
| OpenAIManager.CurrentStep | src/openai_manager.py:101 | a header line switches the current section; other lines keep it |
| OpenAIManager.FiledInto | src/openai_manager.py:104-110 | a content line changes only the current section's value |
| OpenAIManager.FiledNothing | src/openai_manager.py:93-110 | a line that yields no piece for any section leaves every value unchanged |
| OpenAIManager.BlankAddsNothing | src/openai_manager.py:94-96 | a blank line changes neither the current section nor any value |
| OpenAIManager.HeaderAddsNothing | src/openai_manager.py:99-102 | a header line changes the current section and no value |
| OpenAIManager.StructuredReport | src/openai_manager.py:73-116 | the structured report has exactly the ten section keys |
| OpenAIManager.StructuredSections | src/openai_manager.py:89-116 | every section holds what its lines filed; an empty summary becomes "Technical briefing for {topic}" |
| OpenAIManager.StructuredShape | src/openai_manager.py:73-116 | the structured report has section shape and a non-empty summary |
| OpenAIManager.PreambleIgnored | src/openai_manager.py:105 | lines before the first header contribute nothing |
| OpenAIManager.NoHeaderReport | src/openai_manager.py:105-114 | a reply naming no section gives the default summary and empty sections elsewhere |
| OpenAIManager.ListItemsStripped | src/openai_manager.py:107-108 | every list item starts with none of the bullet and digit characters |
| OpenAIManager.TextPiecesEndInBlank | src/openai_manager.py:110 | every text piece is non-empty and ends in the space appended to it |
| OpenAIManager.ClassifyLine | src/openai_manager.py:94-103 | the loop body's three-way test agrees with the line classification |
| OpenAIManager.FindHeader | src/openai_manager.py:99-102 | the inner `for … break` loop finds the first section named in the line |
| OpenAIManager.FileLine | src/openai_manager.py:93-110 | one iteration of the lines loop files that line's piece and updates the current section |
| OpenAIManager.NoPieceFiled | src/openai_manager.py:104-105 | a non-content line, or content before any header, files nothing |
| OpenAIManager.FileContent | src/openai_manager.py:104-110 | filing a content line appends a stripped bullet item to a list section or the line and a space to a text section |
| OpenAIManager.FileLines | src/openai_manager.py:89-110 | the lines loop leaves the dictionary holding what the replayed lines filed, starting from the ten empty sections |
| OpenAIManager.DefaultSummaryIfEmpty | src/openai_manager.py:113-114 | an empty summary is replaced by the default one; otherwise nothing changes |
| OpenAIManager.CreateStructuredReport | src/openai_manager.py:73-116 | the method builds exactly the structured report of the reply |
| OpenAIManager.StructuredReportOf | src/openai_manager.py:73-116 | the structured report is the filed values with the default-summary rule |
| OpenAIManager.SummaryStep | src/openai_manager.py:113-114 | the default-summary rule as one dictionary update |
| OpenAIManager.GenerateReport | src/openai_manager.py:17-71 | an API failure gives the fallback report; a reply gives its decoded JSON, or the structured report of the whole reply when decoding fails |
| OpenAIManager.GeneratedShape | src/openai_manager.py:63-71 | without a decoded reply the result is an object of section shape with a truthy summary |
| ReportGenerator.Blocks | src/report_generator.py:12-15 | one block per document |
| ReportGenerator.CombinedContentEmpty | src/report_generator.py:12-15 | no documents combine to the empty text |
| ReportGenerator.CombinedContentAppend | src/report_generator.py:12-15 | one more document appends a blank line and its block |
| ReportGenerator.CombinedContentStartsWithFirst | src/report_generator.py:12-15 | the combined text starts with the first document's block |
| ReportGenerator.GenerateFromContent | src/report_generator.py:9-27 | the report is the manager's result for the combined text with content metadata attached, or `NotADictionary` when that result is not an object |
| ReportGenerator.GenerateFromTopic | src/report_generator.py:29-40 | the report is the manager's result for the topic with topic metadata attached, or `NotADictionary` |
| ReportGenerator.ContentReportOnFailure | src/report_generator.py:9-27 | an API failure gives the fallback report for "Technical Briefing" with the documents' metadata |
| ReportGenerator.TopicReportShape | src/report_generator.py:29-40 | without a decoded reply a topic report always succeeds with section shape |
| Story.StartStory | src/pdf_generator.py:53-75 | the appends build the title page |
| Story.TitlePageShape | src/pdf_generator.py:53-75 | title, spacer and date line, a metadata line exactly for content or topic metadata, and one page break at the end |
| Story.Bodies | src/pdf_generator.py:96-102 | one body paragraph per text |
| Story.Bulleted | src/pdf_generator.py:96-98 | one bullet per list item |
| Story.NonBlankKeeps | src/pdf_generator.py:100-102 | the paragraphs kept are pieces of the text, none blank |
| Story.NonBlankAll | src/pdf_generator.py:100-102 | when no piece is blank every piece is kept |
| Story.ParagraphsRoundTrip | src/pdf_generator.py:100-102 | when no piece is blank, rejoining the paragraphs gives the text back |
| Story.ParagraphsAreNotBlank | src/pdf_generator.py:100-102 | every paragraph rendered is a non-blank piece of the text |
| Story.BlankTextNoParagraphs | src/pdf_generator.py:100-102 | an empty or whitespace-only text renders no paragraph |
| Story.BlankPieces | src/pdf_generator.py:100-101 | every piece of a whitespace-only text is blank |
| Story.NonBlankOfBlanks | src/pdf_generator.py:100-102 | when every piece is blank no paragraph is kept |
| Story.NonBlankStep | src/pdf_generator.py:100-102 | one more piece is kept exactly when it is not blank |
| Story.AppendBullets | src/pdf_generator.py:96-98 | the bullet loop appends one bullet body per item |
| Story.AppendParagraphs | src/pdf_generator.py:99-102 | the paragraph loop appends the non-blank pieces |
| Story.AppendNonBlank | src/pdf_generator.py:100-102 | the loop over the pieces appends a body for each piece that is not blank |
| Story.HeadingsAppend | src/pdf_generator.py:91-104 | the headings of a concatenation are the headings of each part |
| Story.BodiesNoHeadings | src/pdf_generator.py:96-102 | body paragraphs hold no heading |
| Story.SectionBlockShape | src/pdf_generator.py:93-104 | a section block is its heading, its bodies and one spacer, with exactly one heading |
| PdfGenerator.SectionTexts | src/pdf_generator.py:94-102 | a section's body fails exactly when its content is neither a list nor a string |
| PdfGenerator.CreatePdf | src/pdf_generator.py:42-107 | the loop builds the story function's result: the story, or the error of the first section content without `split` |
| PdfGenerator.RenderSection | src/pdf_generator.py:91-104 | one iteration adds the section's block when its key is present |
| PdfGenerator.AppendSection | src/pdf_generator.py:93-104 | heading, bodies and spacer are appended, or the content has no `split` |
| PdfGenerator.SectionsStep | src/pdf_generator.py:91-104 | one more section of the order |
| PdfGenerator.ErrorPersists | src/pdf_generator.py:100 | once a section raises, the whole call raises |
| PdfGenerator.FailsIff | src/pdf_generator.py:91-100 | the story fails exactly when a present section holds neither a list nor a string, and then with `NoSplitAttribute` |
| PdfGenerator.SectionHeadings | src/pdf_generator.py:78-93 | the headings are the present section names in the fixed order |
| PdfGenerator.PresentAreSections | src/pdf_generator.py:91-92 | every heading is a section name and a key of the report |
| PdfGenerator.StoryHeadings | src/pdf_generator.py:53-104 | the story starts with the title page and its headings are exactly the present sections |
| PdfGenerator.TitleNoHeadings | src/pdf_generator.py:53-75 | the title page holds no section heading |
| PdfGenerator.EmptySectionRendered | src/pdf_generator.py:92-104 | an empty string section still gets a heading and a spacer |
| ContentExtractor.DispatchIsTable | src/content_extractor.py:10-25 | a suffix is accepted exactly when its lowercase form is one of seven, with that suffix's reader; otherwise the error message names the lowercase suffix |
| ContentExtractor.DispatchIgnoresCase | src/content_extractor.py:12 | dispatch depends only on the lowercase suffix |
| ContentExtractor.ImageSuffixes | src/content_extractor.py:18-19 | a suffix goes to OCR exactly when its lowercase form is `.png`, `.jpg` or `.jpeg` |
| ContentExtractor.LinesSnoc | src/content_extractor.py:33 | one more text appends it and a line break |
| ContentExtractor.LinesAppend | src/content_extractor.py:32-33 | the line text of a concatenation is the concatenation of the line texts |
| ContentExtractor.LinesIsJoin | src/content_extractor.py:29-34 | text plus line break per page is the newline join with a final empty piece |
| ContentExtractor.LinesRoundTrip | src/content_extractor.py:29-34 | splitting at line breaks gives back the page texts and a final empty piece |
| ContentExtractor.ReadablePrefix | src/content_extractor.py:32-33 | the pages read before the first failing page |
| ContentExtractor.Texts | src/content_extractor.py:33 | one text per read page |
| ContentExtractor.ReadPages | src/content_extractor.py:29-33 | the page loop yields the read pages' lines and reports whether a page failed |
| ContentExtractor.PdfText | src/content_extractor.py:27-34 | the PDF read fails exactly when the file cannot be opened or a page fails |
| ContentExtractor.ExtractPdf | src/content_extractor.py:27-34 | the method returns the PDF text or that failure |
| ContentExtractor.PdfRoundTrip | src/content_extractor.py:27-34 | the page texts are recovered from the extracted text |
| ContentExtractor.NoneFailRead | src/content_extractor.py:32-33 | when no page fails all pages are read |
| ContentExtractor.ReadDeck | src/content_extractor.py:54-59 | the nested slide and shape loops add one line per shape with text |
| ContentExtractor.ExtractPptx | src/content_extractor.py:51-59 | the method returns the deck text or the open failure |
| ContentExtractor.NoTextNoLines | src/content_extractor.py:57 | shapes without text contribute nothing |
| ContentExtractor.DeckTextAppend | src/content_extractor.py:55-58 | the texts of consecutive slides concatenate |
| ContentExtractor.DocxRoundTrip | src/content_extractor.py:61-64 | the Word text splits back into exactly its paragraphs |
| ContentExtractor.ExtractText | src/content_extractor.py:10-25 | an unsupported suffix gives its error |
| ContentExtractor.Extract | src/content_extractor.py:10-25 | the method dispatches to the chosen reader |
| ContentExtractor.ExtractFailsIff | src/content_extractor.py:10-64 | for an accepted suffix, extraction fails exactly when the chosen reader fails, with `ReaderFailed` |
| CliOpenAIManager.PromptParts | meeting_prep_cli.py:220-241 | no prompt exists exactly when the topic is falsy and the content is `None`; otherwise the lead is the topic's or the content lead with at most the first 10000 characters of the content, and the section list follows |
| CliOpenAIManager.PromptBounded | meeting_prep_cli.py:224 | a content prompt is never longer than the lead, 10000 characters and the instructions |
| CliOpenAIManager.SharedSectionList | meeting_prep_cli.py:226-240 | both copies share the numbered section list and differ in the format request |
| CliOpenAIManager.CleanReply | meeting_prep_cli.py:253-259 | the stripped reply loses one leading "```json" when it starts with one, and then one trailing "```" exactly when what is left ends with one; nothing else changes |
| CliOpenAIManager.Cleanup | meeting_prep_cli.py:253-259 | the step-by-step reassignment computes the cleaned reply |
| CliOpenAIManager.CleanJsonFence | meeting_prep_cli.py:255-259 | a json-fenced body comes back exactly |
| CliOpenAIManager.CleanPlainFence | meeting_prep_cli.py:256-259 | a plain-fenced body keeps its opening fence, so it does not decode as the body |
| CliOpenAIManager.CleanAgreesWithExtract | meeting_prep_cli.py:253-259 | on a stripped, fence-free body inside json fences both copies extract the same text |
| CliOpenAIManager.FallbackReport | meeting_prep_cli.py:269-282 | the CLI fallback report has exactly the ten section keys |
| CliOpenAIManager.FallbackSections | meeting_prep_cli.py:271-282 | each section holds its fixed fallback value |
| CliOpenAIManager.FallbackValue | meeting_prep_cli.py:271-282 | the five list sections hold lists and the rest strings |
| CliOpenAIManager.FallbackShape | meeting_prep_cli.py:269-282 | section shape, and every section is truthy |
| CliOpenAIManager.FallbackNamesTopic | meeting_prep_cli.py:272 | the summary names the topic after its fixed lead |
| CliOpenAIManager.FallbackRestFixed | meeting_prep_cli.py:273-281 | sections two to ten do not depend on the topic |
| CliOpenAIManager.GenerateReport | meeting_prep_cli.py:219-267 | the retry aborts exactly when no prompt can be built; otherwise an API failure gives the fallback report, and a reply gives the decoded cleaned reply, or the fallback report when it does not decode |
| CliOpenAIManager.GeneratedShape | meeting_prep_cli.py:262-267 | without a decoded reply the result is the fallback: section shape, all sections truthy, the topic in the summary |
| CliReportGenerator.Blocks | meeting_prep_cli.py:296-299 | one block per document |
| CliReportGenerator.Truncated | meeting_prep_cli.py:297 | each document's content is cut to a prefix of at most 2000 characters, names and order kept |
| CliReportGenerator.CombinedIsPackageOfTruncated | meeting_prep_cli.py:296-299 | the CLI combined text is the package's combined text of the truncated documents |
| CliReportGenerator.ShortDocumentsCombineAlike | meeting_prep_cli.py:296-299 | documents within the limit combine as in the package |
| CliReportGenerator.GenerateFromContent | meeting_prep_cli.py:291-311 | no documents give the empty report; otherwise the manager's result with content metadata, or `NotADictionary` |
| CliReportGenerator.GenerateFromTopic | meeting_prep_cli.py:313-323 | an empty topic aborts the retry; otherwise the manager's result with topic metadata, or `NotADictionary` |
| CliReportGenerator.EmptyReportIndependent | meeting_prep_cli.py:325-334 | the empty report makes no call, holds only a truthy summary |
| CliReportGenerator.ContentReportOnFailure | meeting_prep_cli.py:262-311 | an API or decoding failure gives the CLI fallback report with the documents' metadata |
| CliPdfGenerator.CreatePdf | meeting_prep_cli.py:370-432 | the loop builds the title page and the rendered sections |
| CliPdfGenerator.RenderSection | meeting_prep_cli.py:418-432 | one iteration adds the section's block exactly when it is present and truthy |
| CliPdfGenerator.AppendSection | meeting_prep_cli.py:420-432 | heading, bullets or the paragraphs of `str(content)`, and a spacer |
| CliPdfGenerator.SectionsStep | meeting_prep_cli.py:418-432 | one more section of the order |
| CliPdfGenerator.SectionHeadings | meeting_prep_cli.py:405-420 | the headings are the present, truthy sections in the fixed order |
| CliPdfGenerator.PresentAreTruthy | meeting_prep_cli.py:419 | every heading names a section of the order whose content is truthy |
| CliPdfGenerator.AgreesWithPackage | meeting_prep_cli.py:418-432 | on reports whose present sections are non-empty strings or lists, both copies build the same story |
| CliPdfGenerator.EmptySectionDiffers | meeting_prep_cli.py:419 | an empty summary is dropped here but rendered as heading and spacer by the package |
| CliContentExtractor.DispatchAgrees | meeting_prep_cli.py:47-64 | the dictionary dispatch chooses and refuses exactly as the package's if/elif chain |
| CliContentExtractor.CliExtractPdf | meeting_prep_cli.py:66-75 | the pages read before a failure, and nothing when the file cannot be opened |
| CliContentExtractor.CliExtractPptx | meeting_prep_cli.py:98-108 | the deck's lines, and nothing when the file cannot be opened |
| CliContentExtractor.CliExtractText | meeting_prep_cli.py:47-116 | extraction fails exactly when the suffix is refused |
| CliContentExtractor.CliExtract | meeting_prep_cli.py:47-64 | the method dispatches to the chosen reader |
| CliContentExtractor.AgreesWhenReadersSucceed | meeting_prep_cli.py:66-116 | where the package extracts, the CLI returns the same text |
| CliContentExtractor.FailureRecovered | meeting_prep_cli.py:73-116 | where the package raises, the CLI returns the package's text for the readable pages of a PDF, and the empty text otherwise |

## Left out

- Redaction (`sensitive_data.py` and the CLI's `SensitiveDataRemover`), the document processor, `process_all`, the command-line parsing and console output are not part of this model. Their results reach the core only as the `SourceDocument` contents.
- `enhance_section` is left out. It is one more API call whose reply is returned as is.
- The OpenAI client, the network and the system message are left out. The model's reply is the `respond` parameter.
- The retry's backoff and tenacity's behaviour on a transient failure are not modelled. Only the deterministic abort is: the CLI prompt raising for a `None` content.
- `json.loads` is the `decode` parameter. JSON syntax is not modelled.
- OpenAIManager.GenerateReport: a decoding failure other than `JSONDecodeError`, such as a `RecursionError` on a deeply nested reply, reaches the outer `except` and gives the fallback report; `decode` has only the one failure, which gives the structured report.
- A `None` reply content is left out: the source's `in`/`strip` applied to it would raise. The reply is always a string here.
- File I/O, chardet, PyPDF2, Pillow, pytesseract, python-pptx and python-docx are left out. Their results are the `FileReads` parameter; the text and image readers are only their `Option` result.
- ContentExtractor.ReadDeck: models a failure to open the presentation, not a failure while reading one shape's text; the CLI copy would keep the partial text of that case.
- reportlab is left out: styles, fonts, margins and `doc.build` itself.
- reportlab's `Paragraph` parses its text as markup and raises on malformed markup, such as an unknown tag. Section texts are plain text here.
- PdfGenerator.FailsIff: the failure it characterises is only the missing `split`; a markup error in a section text would also make the package's `create_pdf` fail.
- CliPdfGenerator.CreatePdf: always returns a story; a markup error in a section text would make the CLI's `create_pdf` raise, since its `Paragraph` calls lie outside its `try`.
- The clock is left out. Both timestamps are parameters.
- `str(item)` of a list item that is not a string is left out. List items are strings here.
- PyStr.LowerChar: lowercases ASCII letters and the Kelvin sign, not the full Unicode case table of Python's `lower`.
- A decoded JSON document that is not an object is kept only as `NonObject`, without its contents.
