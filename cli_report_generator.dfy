/**
  `ReportGenerator` of `meeting_prep_cli.py`: like the package's, but an
  empty document list gives a one-section report without calling the model,
  and each document contributes at most its first 2000 characters.
  `datetime.now().isoformat()` is the parameter `generatedAt`.
 */
module CliReportGenerator {
  import opened Wrappers
  import opened PyStr
  import opened Reports
  import ReportGenerator
  import CliOpenAIManager

  /** `doc['content'][:2000]` */
  const DocumentLimit: nat := 2000

  const NoDocuments: string := "No documents provided for analysis."

  /** The block one document contributes: its name and the first 2000
      characters of its content. */
  function Block(doc: SourceDocument): string {
    "Document: " + doc.filename + "\nContent: " + Take(doc.content, DocumentLimit)
  }

  function Blocks(docs: seq<SourceDocument>): (blocks: seq<string>)
    ensures |blocks| == |docs|
  {
    seq(|docs|, i requires 0 <= i < |docs| => Block(docs[i]))
  }

  /** `"\n\n".join(...)` of the blocks. */
  function CombinedContent(docs: seq<SourceDocument>): string {
    Join("\n\n", Blocks(docs))
  }

  /** The documents with their contents cut to the limit, names and order
      kept. */
  function Truncated(docs: seq<SourceDocument>): (t: seq<SourceDocument>)
    ensures |t| == |docs|
    ensures forall i :: 0 <= i < |docs| ==>
      t[i].filename == docs[i].filename && |t[i].content| <= DocumentLimit
      && StartsWith(docs[i].content, t[i].content)
  {
    seq(|docs|, i requires 0 <= i < |docs| => SourceDocument(docs[i].filename, Take(docs[i].content, DocumentLimit)))
  }

  /** The combined content is the package's combined content of the
      truncated documents ... */
  lemma CombinedIsPackageOfTruncated(docs: seq<SourceDocument>)
    ensures CombinedContent(docs) == ReportGenerator.CombinedContent(Truncated(docs))
  {
    assert Blocks(docs) == ReportGenerator.Blocks(Truncated(docs));
  }

  /** ... so it is the package's own whenever no document exceeds the limit. */
  lemma ShortDocumentsCombineAlike(docs: seq<SourceDocument>)
    requires forall i :: 0 <= i < |docs| ==> |docs[i].content| <= DocumentLimit
    ensures CombinedContent(docs) == ReportGenerator.CombinedContent(docs)
  {
    CombinedIsPackageOfTruncated(docs);
    assert Truncated(docs) == docs;
  }

  /** `_create_empty_report()` */
  function EmptyReport(generatedAt: string): Report {
    Report(map[SectionNames[0] := Text(NoDocuments)], Some(EmptyMeta(generatedAt, "empty", 0)))
  }

  /** `generate_from_content(documents)`: the empty report when there are no
      documents; otherwise the manager's report for the combined content,
      with `metadata` listing the file names and their number. A reply that
      decodes to something other than an object makes the assignment of
      `metadata` raise. */
  function GenerateFromContent(docs: seq<SourceDocument>, generatedAt: string,
                               respond: string -> ApiOutcome, decode: string -> Option<Json>): (r: Result<Report, Error>)
    ensures docs == [] ==> r == Ok(EmptyReport(generatedAt))
    ensures docs != [] ==>
      var reply := CliOpenAIManager.GenerateReport(Some(CombinedContent(docs)), None, respond, decode);
      && reply.Ok?
      && (r.Ok? <==> reply.value.Object?)
      && (r.Err? ==> r.error == NotADictionary)
      && (r.Ok? ==>
            && r.value.metadata == Some(ContentMeta(generatedAt, Filenames(docs), |docs|))
            && r.value.fields.Keys == reply.value.fields.Keys - {"metadata"}
            && forall k :: k in r.value.fields ==> r.value.fields[k] == reply.value.fields[k])
  {
    if docs == [] then Ok(EmptyReport(generatedAt))
    else
      CliOpenAIManager.PromptParts(Some(CombinedContent(docs)), None);
      match CliOpenAIManager.GenerateReport(Some(CombinedContent(docs)), None, respond, decode)
      case Err(e) => Err(e)
      case Ok(Object(fields)) => Ok(WithMetadata(fields, ContentMeta(generatedAt, Filenames(docs), |docs|)))
      case Ok(NonObject) => Err(NotADictionary)
  }

  /** `generate_from_topic(topic)`: the manager's report for the topic alone,
      with `metadata` recording a topic query and the topic. An empty topic
      leaves the manager with no prompt, and its retries give up. */
  function GenerateFromTopic(topic: string, generatedAt: string,
                             respond: string -> ApiOutcome, decode: string -> Option<Json>): (r: Result<Report, Error>)
    ensures topic == "" ==> r == Err(RetryAborted)
    ensures topic != "" ==>
      var reply := CliOpenAIManager.GenerateReport(None, Some(topic), respond, decode);
      && reply.Ok?
      && (r.Ok? <==> reply.value.Object?)
      && (r.Err? ==> r.error == NotADictionary)
      && (r.Ok? ==>
            && r.value.metadata == Some(TopicMeta(generatedAt, "topic_query", topic))
            && r.value.fields.Keys == reply.value.fields.Keys - {"metadata"}
            && forall k :: k in r.value.fields ==> r.value.fields[k] == reply.value.fields[k])
  {
    CliOpenAIManager.PromptParts(None, Some(topic));
    match CliOpenAIManager.GenerateReport(None, Some(topic), respond, decode)
    case Err(e) => Err(e)
    case Ok(Object(fields)) => Ok(WithMetadata(fields, TopicMeta(generatedAt, "topic_query", topic)))
    case Ok(NonObject) => Err(NotADictionary)
  }

  /** The empty report has only the summary, truthy, and never consults the
      model. */
  lemma EmptyReportIndependent(generatedAt: string, r1: string -> ApiOutcome, d1: string -> Option<Json>,
                               r2: string -> ApiOutcome, d2: string -> Option<Json>)
    ensures GenerateFromContent([], generatedAt, r1, d1) == GenerateFromContent([], generatedAt, r2, d2)
    ensures GenerateFromContent([], generatedAt, r1, d1).value.fields.Keys == {SectionNames[0]}
    ensures Truthy(GenerateFromContent([], generatedAt, r1, d1).value.fields[SectionNames[0]])
  {
  }

  /** When the model fails or its reply does not parse, a content report is
      the fallback report for "Technical Briefing", all ten sections intact,
      plus the metadata. */
  lemma ContentReportOnFailure(docs: seq<SourceDocument>, generatedAt: string,
                               respond: string -> ApiOutcome, decode: string -> Option<Json>)
    requires docs != []
    requires CliOpenAIManager.Prompt(Some(CombinedContent(docs)), None).Some?
    requires var outcome := respond(CliOpenAIManager.Prompt(Some(CombinedContent(docs)), None).value);
      outcome.ApiFailed? || decode(CliOpenAIManager.CleanReply(outcome.content)).None?
    ensures GenerateFromContent(docs, generatedAt, respond, decode)
      == Ok(Report(CliOpenAIManager.FallbackReport("Technical Briefing"),
                   Some(ContentMeta(generatedAt, Filenames(docs), |docs|))))
  {
    var f := CliOpenAIManager.FallbackReport("Technical Briefing");
    MetadataNotASection();
    assert f - {"metadata"} == f;
  }
}
