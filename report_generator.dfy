/**
  `ReportGenerator` of `src/report_generator.py`: the documents are combined
  into one text for the language model, and the manager's report gets a
  `metadata` entry. `datetime.now().isoformat()` is the parameter
  `generatedAt`.
 */
module ReportGenerator {
  import opened Wrappers
  import opened PyStr
  import opened Reports
  import OpenAIManager

  /** The block one document contributes to the combined content. */
  function Block(doc: SourceDocument): string {
    "Document: " + doc.filename + "\nContent: " + doc.content
  }

  /** The blocks of the documents, in order. */
  function Blocks(docs: seq<SourceDocument>): (blocks: seq<string>)
    ensures |blocks| == |docs|
  {
    seq(|docs|, i requires 0 <= i < |docs| => Block(docs[i]))
  }

  /** `"\n\n".join(...)` of the blocks. */
  function CombinedContent(docs: seq<SourceDocument>): string {
    Join("\n\n", Blocks(docs))
  }

  /** No documents give the empty text ... */
  lemma CombinedContentEmpty()
    ensures CombinedContent([]) == ""
  {
  }

  /** ... and each further document appends a blank line and its block, so
      the blocks appear once each, in document order. */
  lemma CombinedContentAppend(docs: seq<SourceDocument>, doc: SourceDocument)
    ensures CombinedContent(docs + [doc]) ==
      if docs == [] then Block(doc) else CombinedContent(docs) + "\n\n" + Block(doc)
  {
    assert Blocks(docs + [doc]) == Blocks(docs) + [Block(doc)];
    JoinSnoc("\n\n", Blocks(docs), Block(doc));
  }

  /** The combined text starts with the first document's block. */
  lemma {:induction false} CombinedContentStartsWithFirst(docs: seq<SourceDocument>)
    requires docs != []
    ensures StartsWith(CombinedContent(docs), Block(docs[0]))
    decreases |docs|
  {
    if |docs| > 1 {
      var init := docs[..|docs| - 1];
      assert docs == init + [docs[|docs| - 1]];
      CombinedContentAppend(init, docs[|docs| - 1]);
      CombinedContentStartsWithFirst(init);
      assert init[0] == docs[0];
      var c := CombinedContent(init);
      var b := Block(docs[0]);
      assert (c + "\n\n" + Block(docs[|docs| - 1]))[..|b|] == c[..|b|];
    }
  }

  /** `generate_from_content(documents)`: the manager's report for the
      combined content (no topic), with `metadata` listing the file names in
      order and their number; every other key is the manager's. A reply that
      decodes to something other than an object makes the assignment of
      `metadata` raise. */
  function GenerateFromContent(docs: seq<SourceDocument>, generatedAt: string,
                               respond: string -> ApiOutcome, decode: string -> Option<Json>): (r: Result<Report, Error>)
    ensures var reply := OpenAIManager.GenerateReport(Some(CombinedContent(docs)), None, respond, decode);
      && (r.Ok? <==> reply.Object?)
      && (r.Err? ==> r.error == NotADictionary)
      && (r.Ok? ==>
            && r.value.metadata == Some(ContentMeta(generatedAt, Filenames(docs), |docs|))
            && r.value.fields.Keys == reply.fields.Keys - {"metadata"}
            && forall k :: k in r.value.fields ==> r.value.fields[k] == reply.fields[k])
  {
    match OpenAIManager.GenerateReport(Some(CombinedContent(docs)), None, respond, decode)
    case Object(fields) => Ok(WithMetadata(fields, ContentMeta(generatedAt, Filenames(docs), |docs|)))
    case NonObject => Err(NotADictionary)
  }

  /** `generate_from_topic(topic)`: the manager's report for the topic alone,
      with `metadata` recording a topic query and the topic. */
  function GenerateFromTopic(topic: string, generatedAt: string,
                             respond: string -> ApiOutcome, decode: string -> Option<Json>): (r: Result<Report, Error>)
    ensures var reply := OpenAIManager.GenerateReport(None, Some(topic), respond, decode);
      && (r.Ok? <==> reply.Object?)
      && (r.Err? ==> r.error == NotADictionary)
      && (r.Ok? ==>
            && r.value.metadata == Some(TopicMeta(generatedAt, "topic_query", topic))
            && r.value.fields.Keys == reply.fields.Keys - {"metadata"}
            && forall k :: k in r.value.fields ==> r.value.fields[k] == reply.fields[k])
  {
    match OpenAIManager.GenerateReport(None, Some(topic), respond, decode)
    case Object(fields) => Ok(WithMetadata(fields, TopicMeta(generatedAt, "topic_query", topic)))
    case NonObject => Err(NotADictionary)
  }

  /** When the service fails, the content report is the fallback report for
      "Technical Briefing", all ten sections intact, plus the metadata. */
  lemma ContentReportOnFailure(docs: seq<SourceDocument>, generatedAt: string,
                               respond: string -> ApiOutcome, decode: string -> Option<Json>)
    requires respond(OpenAIManager.Prompt(Some(CombinedContent(docs)), None)).ApiFailed?
    ensures GenerateFromContent(docs, generatedAt, respond, decode)
      == Ok(Report(OpenAIManager.FallbackReport("Technical Briefing"),
                   Some(ContentMeta(generatedAt, Filenames(docs), |docs|))))
  {
    var f := OpenAIManager.FallbackReport("Technical Briefing");
    MetadataNotASection();
    assert f - {"metadata"} == f;
  }

  /** With a topic, the report and its metadata ignore every document: the
      prompt names the topic alone. */
  lemma TopicReportShape(topic: string, generatedAt: string,
                         respond: string -> ApiOutcome, decode: string -> Option<Json>)
    requires respond(OpenAIManager.Prompt(None, Some(topic))).ApiFailed?
      || decode(OpenAIManager.ExtractJsonText(respond(OpenAIManager.Prompt(None, Some(topic))).content)).None?
    ensures GenerateFromTopic(topic, generatedAt, respond, decode).Ok?
    ensures HasSectionShape(GenerateFromTopic(topic, generatedAt, respond, decode).value.fields)
  {
    OpenAIManager.GeneratedShape(None, Some(topic), respond, decode);
    MetadataNotASection();
    var fields := OpenAIManager.GenerateReport(None, Some(topic), respond, decode).fields;
    assert fields - {"metadata"} == fields;
  }
}
