/**
  `PDFGenerator.create_pdf` of `meeting_prep_cli.py`: the same title page as
  the package's generator, but a section is rendered only when its content is
  truthy, and a non-list content is printed through `str`, so no content
  value makes it raise. Section texts are treated as plain text: a
  reportlab markup error in them is not modelled.
 */
module CliPdfGenerator {
  import opened Wrappers
  import opened PyStr
  import opened Reports
  import opened Story
  import PdfGenerator

  /** `str(content)` of a non-list value. */
  function StrOf(v: Value): string {
    match v
    case Text(s) => s
    case Other(repr, _) => repr
    case Items(_) => ""
  }

  /** The body texts of one section: a bullet per list item, else the
      paragraphs of `str(content)`. */
  function SectionTexts(v: Value): seq<string> {
    if v.Items? then Bulleted(v.items) else Paragraphs(StrOf(v))
  }

  /** `section in report and report[section]` */
  predicate Rendered(fields: Fields, name: string) {
    name in fields && Truthy(fields[name])
  }

  /** The story of the first `n` sections of `section_order`. */
  function SectionsUpTo(fields: Fields, n: nat): seq<StoryItem>
    requires n <= |SectionNames|
  {
    if n == 0 then []
    else
      var name := SectionNames[n - 1];
      if Rendered(fields, name) then SectionsUpTo(fields, n - 1) + SectionBlock(name, SectionTexts(fields[name]))
      else SectionsUpTo(fields, n - 1)
  }

  function PdfStory(report: Report, generatedOn: string): seq<StoryItem> {
    TitlePage(generatedOn, report.metadata) + SectionsUpTo(report.fields, |SectionNames|)
  }

  /** The names of the first `n` sections that are rendered, in order. */
  function Present(fields: Fields, n: nat): seq<string>
    requires n <= |SectionNames|
  {
    if n == 0 then []
    else if Rendered(fields, SectionNames[n - 1]) then Present(fields, n - 1) + [SectionNames[n - 1]]
    else Present(fields, n - 1)
  }

  /** `create_pdf(report, output_path)` up to `doc.build(story)`. */
  method CreatePdf(report: Report, generatedOn: string) returns (story: seq<StoryItem>)
    ensures story == PdfStory(report, generatedOn)
  {
    story := StartStory(generatedOn, report.metadata);
    ghost var title := story;
    var i := 0;
    while i < |SectionNames|
      invariant 0 <= i <= |SectionNames|
      invariant story == title + SectionsUpTo(report.fields, i)
    {
      story := RenderSection(report.fields, i, story, title);
      i := i + 1;
    }
  }

  /** One turn of `for section in section_order`. */
  method RenderSection(fields: Fields, i: nat, story: seq<StoryItem>, ghost title: seq<StoryItem>)
    returns (next: seq<StoryItem>)
    requires i < |SectionNames| && story == title + SectionsUpTo(fields, i)
    ensures next == title + SectionsUpTo(fields, i + 1)
  {
    var section := SectionNames[i];
    SectionsStep(fields, i);
    if section in fields && Truthy(fields[section]) {
      next := AppendSection(story, section, fields[section]);
      AppendAssoc(title, SectionsUpTo(fields, i), SectionBlock(section, SectionTexts(fields[section])));
    } else {
      next := story;
    }
  }

  /** The body of the section loop for a rendered section: heading, content,
      spacer. */
  method AppendSection(story: seq<StoryItem>, section: string, content: Value) returns (r: seq<StoryItem>)
    ensures r == story + SectionBlock(section, SectionTexts(content))
  {
    var s := story + [Heading(section)];
    if content.Items? {
      s := AppendBullets(s, content.items);
    } else {
      s := AppendParagraphs(s, StrOf(content));
    }
    r := s + [Spacer(1)];
  }

  /** One more section of `section_order`. */
  lemma SectionsStep(fields: Fields, i: nat)
    requires i < |SectionNames|
    ensures SectionsUpTo(fields, i + 1) ==
      if Rendered(fields, SectionNames[i])
      then SectionsUpTo(fields, i) + SectionBlock(SectionNames[i], SectionTexts(fields[SectionNames[i]]))
      else SectionsUpTo(fields, i)
  {
  }

  /** The headings are the rendered section names in the fixed order: keys
      outside `section_order` and sections with falsy content never appear. */
  lemma {:induction false} SectionHeadings(fields: Fields, n: nat)
    requires n <= |SectionNames|
    ensures Headings(SectionsUpTo(fields, n)) == Present(fields, n)
  {
    if n > 0 {
      var name := SectionNames[n - 1];
      SectionHeadings(fields, n - 1);
      if Rendered(fields, name) {
        HeadingsAppend(SectionsUpTo(fields, n - 1), SectionBlock(name, SectionTexts(fields[name])));
        SectionBlockShape(name, SectionTexts(fields[name]));
      }
    }
  }

  /** Every heading names a section whose content is truthy. */
  lemma {:induction false} PresentAreTruthy(fields: Fields, n: nat)
    requires n <= |SectionNames|
    ensures forall x :: x in Present(fields, n) ==> x in SectionNames[..n] && x in fields && Truthy(fields[x])
  {
    if n > 0 {
      PresentAreTruthy(fields, n - 1);
      assert SectionNames[..n] == SectionNames[..n - 1] + [SectionNames[n - 1]];
    }
  }

  /** The two generators agree on every report whose present sections are
      non-empty strings or lists. */
  lemma {:induction false} AgreesWithPackage(fields: Fields, n: nat)
    requires n <= |SectionNames|
    requires forall i :: 0 <= i < n && SectionNames[i] in fields ==>
      Truthy(fields[SectionNames[i]]) && !fields[SectionNames[i]].Other?
    ensures PdfGenerator.SectionsUpTo(fields, n) == Ok(SectionsUpTo(fields, n))
  {
    if n > 0 {
      AgreesWithPackage(fields, n - 1);
    }
  }

  /** A present but empty summary gets a heading and a spacer from the
      package's generator and nothing from this one. */
  lemma EmptySectionDiffers(fields: Fields)
    requires SectionNames[0] in fields && fields[SectionNames[0]] == Text("")
    ensures SectionsUpTo(fields, 1) == []
    ensures PdfGenerator.SectionsUpTo(fields, 1) == Ok([Heading(SectionNames[0]), Spacer(1)])
  {
    PdfGenerator.EmptySectionRendered(SectionNames[0]);
    assert PdfGenerator.SectionsUpTo(fields, 0) == Ok([]);
    assert [] + SectionBlock(SectionNames[0], []) == [Heading(SectionNames[0]), Spacer(1)];
  }
}
