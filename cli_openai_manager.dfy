/**
  `OpenAIManager` of `meeting_prep_cli.py`: a prompt that embeds at most the
  first 10000 characters of the content, a reply cleanup that only removes a
  leading "```json" and a trailing "```", and a fixed report for every
  failure, including a reply that is not JSON. The chat-completion call is
  the parameter `respond` and `json.loads` is the parameter `decode`.
 */
module CliOpenAIManager {
  import opened Wrappers
  import opened PyStr
  import opened Reports
  import OpenAIManager

  // ---------------------------------------------------------------- prompt

  /** `content[:10000]` */
  const ContentLimit: nat := 10000

  /** The last line of the instructions, which differs from the package's. */
  const FormatRequest: string :=
    "Format the response as valid JSON with these sections as keys. Each section should be a string or array of strings.\n        "

  /** The same numbered section list as the package's prompt, then this
      copy's request for JSON. */
  const PromptSections: string := OpenAIManager.SectionList + FormatRequest

  /** The user message sent to the model: the topic lead for a truthy topic,
      else the content lead with the content cut to its first 10000
      characters. `None` where there is neither a topic nor a content, so
      that `content[:10000]` raises on `None`. */
  function Prompt(content: Option<string>, topic: Option<string>): Option<string> {
    if topic.Some? && topic.value != "" then Some(OpenAIManager.TopicLead + topic.value + PromptSections)
    else if content.None? then None
    else Some(OpenAIManager.ContentLead + Take(content.value, ContentLimit) + PromptSections)
  }

  /** Which lead the prompt has, and that it exists unless both the topic
      and the content are missing. */
  lemma PromptParts(content: Option<string>, topic: Option<string>)
    ensures Prompt(content, topic).None? <==> (topic.None? || topic.value == "") && content.None?
    ensures Prompt(content, topic).Some? ==> EndsWith(Prompt(content, topic).value, PromptSections)
    ensures topic.Some? && topic.value != "" ==>
      StartsWith(Prompt(content, topic).value, OpenAIManager.TopicLead + topic.value)
    ensures (topic.None? || topic.value == "") && content.Some? ==>
      StartsWith(Prompt(content, topic).value, OpenAIManager.ContentLead + Take(content.value, ContentLimit))
  {
    if Prompt(content, topic).Some? {
      var lead := if topic.Some? && topic.value != "" then OpenAIManager.TopicLead + topic.value
        else OpenAIManager.ContentLead + Take(content.value, ContentLimit);
      StartsWithAppend(lead, PromptSections);
      EndsWithAppend(lead, PromptSections);
    }
  }

  /** However long the content, the prompt holds at most 10000 of its
      characters. */
  lemma PromptBounded(content: string)
    ensures Prompt(Some(content), None).Some?
    ensures |Prompt(Some(content), None).value| <= |OpenAIManager.ContentLead| + ContentLimit + |PromptSections|
  {
  }

  /** This copy's instructions and the package's start with the same
      numbered section list and differ in the request for JSON. */
  lemma SharedSectionList()
    ensures StartsWith(PromptSections, OpenAIManager.SectionList)
    ensures StartsWith(OpenAIManager.PromptSections, OpenAIManager.SectionList)
    ensures FormatRequest != OpenAIManager.FormatRequest
  {
    StartsWithAppend(OpenAIManager.SectionList, FormatRequest);
    StartsWithAppend(OpenAIManager.SectionList, OpenAIManager.FormatRequest);
    assert |FormatRequest| < |OpenAIManager.FormatRequest|;
  }

  // --------------------------------------------------------- reply cleanup

  /** The reply after `strip()`, the removal of one leading "```json" and the
      removal of one trailing "```": a slice of the stripped reply that
      starts past the opening fence when there is one, and that lacks the
      closing fence exactly when what is left after the opening one ends
      with it. */
  function CleanReply(reply: string): (r: string)
    ensures var t := Strip(reply);
      var start := if StartsWith(t, OpenAIManager.JsonFence) then |OpenAIManager.JsonFence| else 0;
      start + |r| <= |t| && r == t[start..start + |r|]
    ensures var t := Strip(reply);
      var u := if StartsWith(t, OpenAIManager.JsonFence) then t[|OpenAIManager.JsonFence|..] else t;
      (EndsWith(u, OpenAIManager.Fence) ==> r + OpenAIManager.Fence == u)
      && (!EndsWith(u, OpenAIManager.Fence) ==> r == u)
    ensures !StartsWith(Strip(reply), OpenAIManager.JsonFence) && !EndsWith(Strip(reply), OpenAIManager.Fence) ==>
      r == Strip(reply)
  {
    var t := Strip(reply);
    var u := RemovePrefix(t, OpenAIManager.JsonFence);
    var r := RemoveSuffix(u, OpenAIManager.Fence);
    SliceOfSlice(t, OpenAIManager.JsonFence, u, OpenAIManager.Fence, r);
    r
  }

  /** The cleanup as `generate_report` writes it, reassigning `content` one
      step at a time. */
  method Cleanup(reply: string) returns (content: string)
    ensures content == CleanReply(reply)
  {
    content := Strip(reply);
    if StartsWith(content, OpenAIManager.JsonFence) {
      content := content[|OpenAIManager.JsonFence|..];
    }
    if EndsWith(content, OpenAIManager.Fence) {
      content := content[..|content| - |OpenAIManager.Fence|];
    }
  }

  /** Removing a prefix and then a suffix leaves a slice of the original. */
  lemma SliceOfSlice(t: string, p: string, u: string, q: string, r: string)
    requires u == RemovePrefix(t, p) && r == RemoveSuffix(u, q)
    ensures var start := if StartsWith(t, p) then |p| else 0;
      start + |r| <= |t| && r == t[start..start + |r|]
  {
    var start := if StartsWith(t, p) then |p| else 0;
    assert u == t[start..];
    assert r == u[..|r|];
  }

  /** A reply that is exactly a ```json block gives back its body, whatever
      the body holds. */
  lemma CleanJsonFence(body: string)
    ensures CleanReply(OpenAIManager.JsonFence + body + OpenAIManager.Fence) == body
  {
    var reply := OpenAIManager.JsonFence + body + OpenAIManager.Fence;
    StripUnchanged(reply);
    assert reply[..7] == OpenAIManager.JsonFence;
    var u := reply[7..];
    assert u == body + OpenAIManager.Fence;
    assert u[|u| - 3..] == OpenAIManager.Fence;
  }

  /** A block opened by a bare "```" keeps its opening fence, so the text
      handed to `json.loads` starts with backticks. */
  lemma CleanPlainFence(body: string)
    requires !StartsWith(body, "json")
    ensures CleanReply(OpenAIManager.Fence + body + OpenAIManager.Fence) == OpenAIManager.Fence + body
  {
    var reply := OpenAIManager.Fence + body + OpenAIManager.Fence;
    StripUnchanged(reply);
    if |body| >= 4 {
      assert reply[3..7] == body[..4];
    } else {
      assert reply[3 + |body|] == '`';
    }
    assert !StartsWith(reply, OpenAIManager.JsonFence);
    assert reply[|reply| - 3..] == OpenAIManager.Fence;
  }

  /** On a reply that is a ```json block around an already stripped body
      without fences, the cleanup and the package's extraction agree. */
  lemma CleanAgreesWithExtract(body: string)
    requires !Contains(body, OpenAIManager.Fence) && (body == [] || body[|body| - 1] != '`')
    requires Strip(body) == body
    ensures CleanReply(OpenAIManager.JsonFence + body + OpenAIManager.Fence)
      == OpenAIManager.ExtractJsonText(OpenAIManager.JsonFence + body + OpenAIManager.Fence)
  {
    CleanJsonFence(body);
    OpenAIManager.JsonFenceRoundTrip("", body, "");
    EmptyAround(OpenAIManager.JsonFence, body, OpenAIManager.Fence);
  }

  // ------------------------------------------------------- fallback report

  /** `_create_fallback_report(topic)`: the fixed report used for every
      failure. */
  function FallbackReport(topic: string): (f: Fields)
    ensures f.Keys == SectionKeys()
  {
    SectionMap(FallbackValues(topic))
  }

  /** The ten fallback values in section order. */
  function FallbackValues(topic: string): (vs: seq<Value>)
    ensures |vs| == |SectionNames|
  {
    seq(|SectionNames|, i requires 0 <= i < |SectionNames| => FallbackValue(topic, i))
  }

  /** Section `i` of the fallback report is `FallbackValue(topic, i)`. */
  lemma FallbackSections(topic: string)
    ensures forall i :: 0 <= i < |SectionNames| ==> FallbackReport(topic)[SectionNames[i]] == FallbackValue(topic, i)
  {
    assert forall i :: 0 <= i < |SectionNames| ==> FallbackValues(topic)[i] == FallbackValue(topic, i);
  }

  // The fixed texts of the fallback report.
  const SummaryBeforeTopic: string := "Unable to generate detailed analysis for "
  const SummaryAfterTopic: string := ". Please review source documents manually."
  const PendingReview: string := "Analysis pending manual review."
  const NotAvailable: string := "Not available."
  const ManualAnalysis: seq<string> := ["Requires manual analysis"]
  const FurtherResearch: seq<string> := ["Requires further research"]
  const FallbackRecommendations: seq<string> := ["Review source documents", "Conduct manual analysis"]
  const FallbackActions: seq<string> := ["Schedule follow-up discussion", "Gather additional information"]

  /** The value of the `i`-th section in the fallback report. */
  function FallbackValue(topic: string, i: nat): (v: Value)
    requires i < |SectionNames|
    ensures v.Items? <==> IsListSection(i)
    ensures v.Text? || v.Items?
  {
    if i == 0 then Text(SummaryBeforeTopic + topic + SummaryAfterTopic)
    else if i == 1 then Text(PendingReview)
    else if i == 2 || i == 3 || i == 7 then Text(NotAvailable)
    else if i == 4 || i == 5 then Items(ManualAnalysis)
    else if i == 6 then Items(FurtherResearch)
    else if i == 8 then Items(FallbackRecommendations)
    else Items(FallbackActions)
  }

  /** The fallback report has the ten sections, lists where lists belong,
      and no section is empty. */
  lemma FallbackShape(topic: string)
    ensures HasSectionShape(FallbackReport(topic))
    ensures forall i :: 0 <= i < |SectionNames| ==> Truthy(FallbackReport(topic)[SectionNames[i]])
  {
    var f := FallbackReport(topic);
    FallbackSections(topic);
    forall i | 0 <= i < |SectionNames|
      ensures (f[SectionNames[i]].Items? <==> IsListSection(i)) && (f[SectionNames[i]].Text? || f[SectionNames[i]].Items?)
      ensures Truthy(f[SectionNames[i]])
    {
      assert f[SectionNames[i]] == FallbackValue(topic, i);
      if i == 0 {
        assert |f[SectionNames[i]].s| >= |SummaryBeforeTopic|;
      }
    }
  }

  /** Only the executive summary names the topic ... */
  lemma FallbackNamesTopic(topic: string)
    ensures OccursAt(FallbackReport(topic)[SectionNames[0]].s, topic, |SummaryBeforeTopic|)
  {
    FallbackSections(topic);
  }

  /** ... and the other nine sections are the same for every topic. */
  lemma FallbackRestFixed(t1: string, t2: string)
    ensures forall i :: 1 <= i < |SectionNames| ==> FallbackReport(t1)[SectionNames[i]] == FallbackReport(t2)[SectionNames[i]]
  {
    FallbackSections(t1);
    FallbackSections(t2);
  }

  // ------------------------------------------------------- generate_report

  /** `generate_report(content, topic)`. Without a topic and a content the
      prompt cannot be built, and the retry decorator gives up after its three
      attempts; otherwise the reply decoded as JSON, or the fallback report
      for `topic or "Technical Briefing"` when the call fails or the cleaned
      reply does not parse. */
  function GenerateReport(content: Option<string>, topic: Option<string>,
                          respond: string -> ApiOutcome, decode: string -> Option<Json>): (r: Result<Json, Error>)
    ensures r.Err? <==> Prompt(content, topic).None?
    ensures r.Err? ==> r.error == RetryAborted
    ensures Prompt(content, topic).Some? ==>
      match respond(Prompt(content, topic).value)
      case ApiFailed => r == Ok(Object(FallbackReport(TopicOrDefault(topic))))
      case Replied(reply) =>
        match decode(CleanReply(reply))
        case Some(j) => r == Ok(j)
        case None => r == Ok(Object(FallbackReport(TopicOrDefault(topic))))
  {
    match Prompt(content, topic)
    case None => Err(RetryAborted)
    case Some(prompt) =>
      match respond(prompt)
      case ApiFailed => Ok(Object(FallbackReport(TopicOrDefault(topic))))
      case Replied(reply) =>
        match decode(CleanReply(reply))
        case Some(j) => Ok(j)
        case None => Ok(Object(FallbackReport(TopicOrDefault(topic))))
  }

  /** Unless the decoder accepts the reply, the report has the ten-section
      shape, every section non-empty, and the summary names the topic. */
  lemma GeneratedShape(content: Option<string>, topic: Option<string>,
                       respond: string -> ApiOutcome, decode: string -> Option<Json>)
    requires Prompt(content, topic).Some?
    requires respond(Prompt(content, topic).value).ApiFailed?
      || decode(CleanReply(respond(Prompt(content, topic).value).content)).None?
    ensures var r := GenerateReport(content, topic, respond, decode);
      && r.Ok? && r.value.Object?
      && HasSectionShape(r.value.fields)
      && (forall i :: 0 <= i < |SectionNames| ==> Truthy(r.value.fields[SectionNames[i]]))
      && OccursAt(r.value.fields[SectionNames[0]].s, TopicOrDefault(topic), |SummaryBeforeTopic|)
  {
    FallbackShape(TopicOrDefault(topic));
    FallbackNamesTopic(TopicOrDefault(topic));
  }
}
