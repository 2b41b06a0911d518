/**
  `PDFGenerator.create_pdf` of `src/pdf_generator.py`: the story handed to
  reportlab. A section is rendered when its key is present, whatever its
  content; a value that is neither a list nor a string has no `split` and
  makes the method raise.
 */
module PdfGenerator {
  import opened Wrappers
  import opened PyStr
  import opened Reports
  import opened Story

  /** The body texts of one section's content: one bullet per list item, or
      the paragraphs of a string; `None` where `content.split` raises. */
  function SectionTexts(v: Value): (texts: Option<seq<string>>)
    ensures texts.None? <==> v.Other?
  {
    match v
    case Items(xs) => Some(Bulleted(xs))
    case Text(s) => Some(Paragraphs(s))
    case Other(_, _) => None
  }

  /** The story of the first `n` sections of `section_order`. */
  function SectionsUpTo(fields: Fields, n: nat): Result<seq<StoryItem>, Error>
    requires n <= |SectionNames|
  {
    if n == 0 then Ok([])
    else
      match SectionsUpTo(fields, n - 1)
      case Err(e) => Err(e)
      case Ok(story) =>
        var name := SectionNames[n - 1];
        if name !in fields then Ok(story)
        else
          match SectionTexts(fields[name])
          case None => Err(NoSplitAttribute)
          case Some(texts) => Ok(story + SectionBlock(name, texts))
  }

  /** The whole story: the title page, then the sections in order. */
  function PdfStory(report: Report, generatedOn: string): Result<seq<StoryItem>, Error> {
    match SectionsUpTo(report.fields, |SectionNames|)
    case Err(e) => Err(e)
    case Ok(sections) => Ok(TitlePage(generatedOn, report.metadata) + sections)
  }

  /** The names of the first `n` sections of `section_order` that are keys
      of the report, in that order. */
  function Present(fields: Fields, n: nat): (names: seq<string>)
    requires n <= |SectionNames|
  {
    if n == 0 then []
    else if SectionNames[n - 1] in fields then Present(fields, n - 1) + [SectionNames[n - 1]]
    else Present(fields, n - 1)
  }

  /** `create_pdf(report, output_path)` up to `doc.build(story)`. */
  method CreatePdf(report: Report, generatedOn: string) returns (r: Result<seq<StoryItem>, Error>)
    ensures r == PdfStory(report, generatedOn)
  {
    var story := StartStory(generatedOn, report.metadata);
    ghost var title := story;
    var i := 0;
    while i < |SectionNames|
      invariant 0 <= i <= |SectionNames|
      invariant SectionsUpTo(report.fields, i).Ok?
      invariant story == title + SectionsUpTo(report.fields, i).value
    {
      var next := RenderSection(report.fields, i, story, title);
      if next.None? {
        ErrorPersists(report.fields, i + 1, |SectionNames|);
        return Err(NoSplitAttribute);
      }
      story := next.value;
      i := i + 1;
    }
    r := Ok(story);
  }

  /** One turn of `for section in section_order`: the story grows by the
      section's block when the key is present; `None` where the content has
      no `split`. */
  method RenderSection(fields: Fields, i: nat, story: seq<StoryItem>, ghost title: seq<StoryItem>)
    returns (next: Option<seq<StoryItem>>)
    requires i < |SectionNames| && SectionsUpTo(fields, i).Ok?
    requires story == title + SectionsUpTo(fields, i).value
    ensures next.None? <==> SectionsUpTo(fields, i + 1).Err?
    ensures next.Some? ==> next.value == title + SectionsUpTo(fields, i + 1).value
  {
    var section := SectionNames[i];
    SectionsStep(fields, i);
    if section in fields {
      next := AppendSection(story, section, fields[section]);
      if next.Some? {
        AppendAssoc(title, SectionsUpTo(fields, i).value, SectionBlock(section, SectionTexts(fields[section]).value));
      }
    } else {
      next := Some(story);
    }
  }

  /** The body of the section loop for a present section: heading, content,
      spacer; `None` where `content.split` raises. */
  method AppendSection(story: seq<StoryItem>, section: string, content: Value) returns (r: Option<seq<StoryItem>>)
    ensures r.None? <==> SectionTexts(content).None?
    ensures r.Some? ==> r.value == story + SectionBlock(section, SectionTexts(content).value)
  {
    var s := story + [Heading(section)];
    match content {
      case Items(xs) => s := AppendBullets(s, xs);
      case Text(t) => s := AppendParagraphs(s, t);
      case Other(_, _) => return None;
    }
    r := Some(s + [Spacer(1)]);
  }

  /** One more section of `section_order`. */
  lemma SectionsStep(fields: Fields, i: nat)
    requires i < |SectionNames| && SectionsUpTo(fields, i).Ok?
    ensures SectionsUpTo(fields, i + 1) ==
      if SectionNames[i] !in fields then SectionsUpTo(fields, i)
      else match SectionTexts(fields[SectionNames[i]])
        case None => Err(NoSplitAttribute)
        case Some(texts) => Ok(SectionsUpTo(fields, i).value + SectionBlock(SectionNames[i], texts))
  {
  }

  /** Once a section fails, the whole story fails the same way. */
  lemma {:induction false} ErrorPersists(fields: Fields, i: nat, n: nat)
    requires i <= n <= |SectionNames|
    requires SectionsUpTo(fields, i).Err?
    ensures SectionsUpTo(fields, n) == SectionsUpTo(fields, i)
    decreases n - i
  {
    if i < n {
      ErrorPersists(fields, i, n - 1);
    }
  }

  /** The story fails exactly when a present section of `section_order`
      holds neither a list nor a string. */
  lemma {:induction false} FailsIff(fields: Fields, n: nat)
    requires n <= |SectionNames|
    ensures SectionsUpTo(fields, n).Err? <==>
      exists i :: 0 <= i < n && SectionNames[i] in fields && fields[SectionNames[i]].Other?
    ensures SectionsUpTo(fields, n).Err? ==> SectionsUpTo(fields, n).error == NoSplitAttribute
    decreases n
  {
    if n > 0 {
      FailsIff(fields, n - 1);
      var name := SectionNames[n - 1];
      if SectionsUpTo(fields, n - 1).Err? {
        var i :| 0 <= i < n - 1 && SectionNames[i] in fields && fields[SectionNames[i]].Other?;
        assert 0 <= i < n;
      } else if name in fields && fields[name].Other? {
        assert 0 <= n - 1 < n;
      } else {
        forall i | 0 <= i < n && SectionNames[i] in fields ensures !fields[SectionNames[i]].Other? {
          if i < n - 1 {
            assert !(0 <= i < n - 1 && SectionNames[i] in fields && fields[SectionNames[i]].Other?);
          }
        }
      }
    }
  }

  /** The headings are the section names present in the report, in the
      fixed order: keys outside `section_order`, such as "metadata", are
      never rendered, and a present section is rendered even when empty. */
  lemma {:induction false} SectionHeadings(fields: Fields, n: nat)
    requires n <= |SectionNames|
    requires SectionsUpTo(fields, n).Ok?
    ensures Headings(SectionsUpTo(fields, n).value) == Present(fields, n)
  {
    if n > 0 {
      var name := SectionNames[n - 1];
      assert SectionsUpTo(fields, n - 1).Ok?;
      SectionHeadings(fields, n - 1);
      if name in fields {
        var texts := SectionTexts(fields[name]).value;
        HeadingsAppend(SectionsUpTo(fields, n - 1).value, SectionBlock(name, texts));
        SectionBlockShape(name, texts);
      }
    }
  }

  /** Every present name is a section name and a key of the report. */
  lemma {:induction false} PresentAreSections(fields: Fields, n: nat)
    requires n <= |SectionNames|
    ensures forall x :: x in Present(fields, n) ==> x in fields && x in SectionNames[..n]
  {
    if n > 0 {
      PresentAreSections(fields, n - 1);
      assert SectionNames[..n] == SectionNames[..n - 1] + [SectionNames[n - 1]];
    }
  }

  /** The story of a report: the title page, then exactly the present
      sections' headings. */
  lemma StoryHeadings(report: Report, generatedOn: string)
    requires PdfStory(report, generatedOn).Ok?
    ensures var story := PdfStory(report, generatedOn).value;
      && story[..|TitlePage(generatedOn, report.metadata)|] == TitlePage(generatedOn, report.metadata)
      && Headings(story) == Present(report.fields, |SectionNames|)
  {
    var title := TitlePage(generatedOn, report.metadata);
    var sections := SectionsUpTo(report.fields, |SectionNames|).value;
    SectionHeadings(report.fields, |SectionNames|);
    HeadingsAppend(title, sections);
    TitleNoHeadings(generatedOn, report.metadata);
    assert (title + sections)[..|title|] == title;
  }

  lemma TitleNoHeadings(generatedOn: string, meta: Option<Metadata>)
    ensures Headings(TitlePage(generatedOn, meta)) == []
  {
    var p := TitlePage(generatedOn, meta);
    assert forall i :: 0 <= i < |p| ==> !p[i].Heading?;
    NoHeadings(p);
  }

  lemma {:induction false} NoHeadings(items: seq<StoryItem>)
    requires forall i :: 0 <= i < |items| ==> !items[i].Heading?
    ensures Headings(items) == []
    decreases |items|
  {
    if items != [] {
      NoHeadings(items[..|items| - 1]);
    }
  }

  /** An empty string section still gets its heading and its spacer. */
  lemma EmptySectionRendered(name: string)
    ensures SectionTexts(Text("")) == Some([])
    ensures SectionBlock(name, []) == [Heading(name), Spacer(1)]
  {
    BlankTextNoParagraphs("");
  }
}
