/**
  The PDF story both PDF generators build, as a sequence of abstract items
  instead of reportlab flowables, and the parts the two `create_pdf` copies
  share: the title block with the metadata line, and the loops that turn a
  list into bullets and a text into paragraphs.
 */
module Story {
  import opened Wrappers
  import opened PyStr
  import opened Reports

  /** One flowable: the title paragraph, a spacer of the given height in
      quarter inches, a paragraph in the "Normal" style, a page break, a
      section heading, or a body paragraph. */
  datatype StoryItem =
    | Title(text: string)
    | Spacer(quarterInches: nat)
    | Line(text: string)
    | PageBreak
    | Heading(text: string)
    | Body(text: string)

  const BriefTitle: string := "Engineering Meeting Brief"

  /** The line stating where the report came from: the number of documents
      when the metadata lists source documents, else the topic when it has
      one, else nothing. */
  function MetaLine(meta: Option<Metadata>): seq<StoryItem> {
    match meta
    case Some(ContentMeta(_, _, n)) => [Line("Based on " + NatToString(n) + " documents")]
    case Some(TopicMeta(_, _, topic)) => [Line("Topic: " + topic)]
    case _ => []
  }

  /** The title page: title, half-inch spacer, the "Generated on" line (the
      formatted clock is `generatedOn`), the metadata line, a page break. */
  function TitlePage(generatedOn: string, meta: Option<Metadata>): seq<StoryItem> {
    [Title(BriefTitle), Spacer(2), Line("Generated on: " + generatedOn)] + MetaLine(meta) + [PageBreak]
  }

  /** The title page as both copies build it, one append at a time. */
  method StartStory(generatedOn: string, meta: Option<Metadata>) returns (story: seq<StoryItem>)
    ensures story == TitlePage(generatedOn, meta)
  {
    story := [Title(BriefTitle), Spacer(2), Line("Generated on: " + generatedOn)];
    if meta.Some? {
      match meta.value {
        case ContentMeta(_, _, total) => story := story + [Line("Based on " + NatToString(total) + " documents")];
        case TopicMeta(_, _, topic) => story := story + [Line("Topic: " + topic)];
        case EmptyMeta(_, _, _) =>
      }
    }
    story := story + [PageBreak];
  }

  /** The title page has the title block, at most one more line, and ends
      with the only page break. */
  lemma TitlePageShape(generatedOn: string, meta: Option<Metadata>)
    ensures var p := TitlePage(generatedOn, meta);
      && p[..3] == [Title(BriefTitle), Spacer(2), Line("Generated on: " + generatedOn)]
      && (|p| == 5 <==> meta.Some? && !meta.value.EmptyMeta?)
      && (|p| == 4 <==> meta.None? || meta.value.EmptyMeta?)
      && p[|p| - 1] == PageBreak
      && (forall i :: 0 <= i < |p| - 1 ==> p[i] != PageBreak)
      && (|p| == 5 ==> p[3].Line?)
  {
  }

  /** A body paragraph for each text, in order. */
  function Bodies(texts: seq<string>): (items: seq<StoryItem>)
    ensures |items| == |texts|
  {
    seq(|texts|, i requires 0 <= i < |texts| => Body(texts[i]))
  }

  /** `f"• {item}"` for each list item. */
  function Bulleted(items: seq<string>): (texts: seq<string>)
    ensures |texts| == |items|
  {
    seq(|items|, i requires 0 <= i < |items| => "\U{2022} " + items[i])
  }

  /** The pieces that are not blank (`piece.strip()` is truthy), in order. */
  function NonBlank(pieces: seq<string>): seq<string>
    decreases |pieces|
  {
    if pieces == [] then []
    else
      var init := NonBlank(pieces[..|pieces| - 1]);
      if !IsBlank(pieces[|pieces| - 1]) then init + [pieces[|pieces| - 1]] else init
  }

  /** The paragraphs of a text: its pieces between blank lines ("\n\n"),
      whitespace-only pieces dropped. */
  function Paragraphs(text: string): seq<string> {
    NonBlank(Split(text, "\n\n"))
  }

  /** Every paragraph is a piece of the text, unchanged, and none is blank ... */
  lemma {:induction false} NonBlankKeeps(pieces: seq<string>)
    ensures forall x :: x in NonBlank(pieces) ==> x in pieces && !IsBlank(x)
    decreases |pieces|
  {
    if pieces != [] {
      var init := pieces[..|pieces| - 1];
      NonBlankKeeps(init);
      assert pieces == init + [pieces[|pieces| - 1]];
    }
  }

  /** ... and when no piece is blank, none is dropped: the paragraphs joined
      by blank lines give back the text. */
  lemma {:induction false} NonBlankAll(pieces: seq<string>)
    requires forall i :: 0 <= i < |pieces| ==> !IsBlank(pieces[i])
    ensures NonBlank(pieces) == pieces
    decreases |pieces|
  {
    if pieces != [] {
      var init := pieces[..|pieces| - 1];
      NonBlankAll(init);
      assert pieces == init + [pieces[|pieces| - 1]];
    }
  }

  lemma ParagraphsRoundTrip(text: string)
    requires forall i :: 0 <= i < |Split(text, "\n\n")| ==> !IsBlank(Split(text, "\n\n")[i])
    ensures Join("\n\n", Paragraphs(text)) == text
  {
    NonBlankAll(Split(text, "\n\n"));
  }

  lemma ParagraphsAreNotBlank(text: string)
    ensures forall x :: x in Paragraphs(text) ==> !IsBlank(x) && x in Split(text, "\n\n")
  {
    NonBlankKeeps(Split(text, "\n\n"));
  }

  /** An empty or whitespace-only text has no paragraph. */
  lemma BlankTextNoParagraphs(text: string)
    requires IsBlank(text)
    ensures Paragraphs(text) == []
  {
    BlankPieces(text, "\n\n");
    NonBlankOfBlanks(Split(text, "\n\n"));
  }

  /** Every piece of a blank text is blank. */
  lemma {:induction false} BlankPieces(s: string, sep: string)
    requires sep != [] && IsBlank(s)
    ensures forall k :: 0 <= k < |Split(s, sep)| ==> IsBlank(Split(s, sep)[k])
    decreases |s|
  {
    match IndexOf(s, sep)
    case None =>
    case Some(i) =>
      BlankPieces(s[i + |sep|..], sep);
  }

  /** Only blank pieces: nothing is kept. */
  lemma {:induction false} NonBlankOfBlanks(pieces: seq<string>)
    requires forall k :: 0 <= k < |pieces| ==> IsBlank(pieces[k])
    ensures NonBlank(pieces) == []
    decreases |pieces|
  {
    if pieces != [] {
      NonBlankOfBlanks(pieces[..|pieces| - 1]);
    }
  }

  /** Filtering one more piece. */
  lemma NonBlankStep(pieces: seq<string>, n: nat)
    requires n < |pieces|
    ensures NonBlank(pieces[..n + 1]) ==
      if IsBlank(pieces[n]) then NonBlank(pieces[..n]) else NonBlank(pieces[..n]) + [pieces[n]]
  {
    assert pieces[..n + 1][..n] == pieces[..n];
  }

  lemma BodiesSnoc(texts: seq<string>, text: string)
    ensures Bodies(texts + [text]) == Bodies(texts) + [Body(text)]
  {
  }

  /** The inner `for item in content` loop. */
  method AppendBullets(story: seq<StoryItem>, items: seq<string>) returns (story': seq<StoryItem>)
    ensures story' == story + Bodies(Bulleted(items))
  {
    story' := story;
    var n := 0;
    while n < |items|
      invariant 0 <= n <= |items|
      invariant story' == story + Bodies(Bulleted(items[..n]))
    {
      assert Bulleted(items[..n + 1]) == Bulleted(items[..n]) + ["\U{2022} " + items[n]];
      BodiesSnoc(Bulleted(items[..n]), "\U{2022} " + items[n]);
      story' := story' + [Body("\U{2022} " + items[n])];
      n := n + 1;
    }
    WholePrefix(items);
  }

  /** The inner `for paragraph in content.split('\n\n')` loop. */
  method AppendParagraphs(story: seq<StoryItem>, text: string) returns (story': seq<StoryItem>)
    ensures story' == story + Bodies(Paragraphs(text))
  {
    var pieces := Split(text, "\n\n");
    story' := AppendNonBlank(story, pieces);
  }

  /** The body of that loop over the pieces: a paragraph for each piece
      whose `strip()` is truthy. */
  method AppendNonBlank(story: seq<StoryItem>, pieces: seq<string>) returns (story': seq<StoryItem>)
    ensures story' == story + Bodies(NonBlank(pieces))
  {
    story' := story;
    var n := 0;
    while n < |pieces|
      invariant 0 <= n <= |pieces|
      invariant story' == story + Bodies(NonBlank(pieces[..n]))
    {
      var paragraph := pieces[n];
      NonBlankStep(pieces, n);
      StripEmptyIffBlank(paragraph);
      if Strip(paragraph) != "" {
        BodiesSnoc(NonBlank(pieces[..n]), paragraph);
        AppendAssoc(story, Bodies(NonBlank(pieces[..n])), [Body(paragraph)]);
        story' := story' + [Body(paragraph)];
      }
      n := n + 1;
    }
    WholePrefix(pieces);
  }

  /** The headings of a story, in order. */
  function Headings(items: seq<StoryItem>): seq<string>
    decreases |items|
  {
    if items == [] then []
    else
      var init := Headings(items[..|items| - 1]);
      if items[|items| - 1].Heading? then init + [items[|items| - 1].text] else init
  }

  lemma {:induction false} HeadingsAppend(a: seq<StoryItem>, b: seq<StoryItem>)
    ensures Headings(a + b) == Headings(a) + Headings(b)
    decreases |b|
  {
    if b == [] {
      assert a + b == a;
    } else {
      var init := b[..|b| - 1];
      assert a + b == (a + init) + [b[|b| - 1]];
      HeadingsAppend(a, init);
    }
  }

  /** Body paragraphs hold no heading. */
  lemma {:induction false} BodiesNoHeadings(texts: seq<string>)
    ensures Headings(Bodies(texts)) == []
    decreases |texts|
  {
    if texts != [] {
      var init := texts[..|texts| - 1];
      BodiesNoHeadings(init);
      assert Bodies(texts) == Bodies(init) + [Body(texts[|texts| - 1])];
    }
  }

  /** A rendered section: its heading, its body paragraphs, one spacer. */
  function SectionBlock(name: string, texts: seq<string>): seq<StoryItem> {
    [Heading(name)] + Bodies(texts) + [Spacer(1)]
  }

  /** A section block starts with its heading, ends with its only spacer,
      and holds body paragraphs in between. */
  lemma SectionBlockShape(name: string, texts: seq<string>)
    ensures var b := SectionBlock(name, texts);
      && |b| == |texts| + 2
      && b[0] == Heading(name)
      && b[|b| - 1] == Spacer(1)
      && (forall i :: 0 < i < |b| - 1 ==> b[i] == Body(texts[i - 1]))
      && Headings(b) == [name]
  {
    HeadingsAppend([Heading(name)] + Bodies(texts), [Spacer(1)]);
    HeadingsAppend([Heading(name)], Bodies(texts));
    BodiesNoHeadings(texts);
    assert Headings([Heading(name)]) == [name] by {
      assert [Heading(name)][..0] == [];
    }
    assert Headings([Spacer(1)]) == [] by {
      assert [Spacer(1)][..0] == [];
    }
  }
}
