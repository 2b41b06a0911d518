/**
  `OpenAIManager` of `src/openai_manager.py`: the prompt, the extraction of
  JSON from a possibly code-fenced reply, the line-oriented fallback parser
  used when the reply is not JSON, and the fixed report used when the call
  fails. The chat-completion call is the parameter `respond` (prompt to
  outcome) and `json.loads` is the parameter `decode`.
 */
module OpenAIManager {
  import opened Wrappers
  import opened PyStr
  import opened Reports

  // ---------------------------------------------------------------- prompt

  /** The instructions appended to every prompt (the triple-quoted block,
      indentation included): the numbered section list, then the request for
      JSON. */
  const PromptSections: string := SectionList + FormatRequest

  const SectionList: string :=
    "\n"
    + "        \n"
    + "        Please provide a detailed report with the following sections:\n"
    + "        1. Executive Summary\n"
    + "        2. Topic Overview\n"
    + "        3. Technology Stack Analysis\n"
    + "        4. Architecture Overview (if applicable)\n"
    + "        5. Advantages and Benefits\n"
    + "        6. Limitations and Challenges\n"
    + "        7. Alternative Solutions\n"
    + "        8. Competitive Analysis\n"
    + "        9. Key Recommendations\n"
    + "        10. Action Items and Next Steps\n"
    + "        \n"
    + "        "
  const FormatRequest: string :=
    "Format the response as a valid JSON object with these sections as keys. Each section should contain relevant content as a string or array of strings.\n        "

  const TopicLead: string := "Create a comprehensive technical briefing about: "
  const ContentLead: string := "Based on the following content, create a comprehensive technical briefing:\n\n"

  /** The f-string rendering of an optional string: `None` prints as "None". */
  function Show(content: Option<string>): string {
    match content
    case None => "None"
    case Some(c) => c
  }

  /** The user message sent to the model. A truthy topic gives the topic
      prompt; otherwise the whole content is embedded, untruncated. */
  function Prompt(content: Option<string>, topic: Option<string>): string {
    var lead := if topic.Some? && topic.value != "" then TopicLead + topic.value else ContentLead + Show(content);
    lead + PromptSections
  }

  /** The prompt is the topic lead when the topic is truthy, the content lead
      with the whole content otherwise, and ends with the section list. */
  lemma PromptParts(content: Option<string>, topic: Option<string>)
    ensures EndsWith(Prompt(content, topic), PromptSections)
    ensures topic.Some? && topic.value != "" ==> StartsWith(Prompt(content, topic), TopicLead + topic.value)
    ensures (topic.None? || topic.value == "") ==> StartsWith(Prompt(content, topic), ContentLead + Show(content))
  {
    var lead := if topic.Some? && topic.value != "" then TopicLead + topic.value else ContentLead + Show(content);
    assert (lead + PromptSections)[..|lead|] == lead;
  }

  /** With a topic, the prompt does not depend on the content at all. */
  lemma TopicPromptIgnoresContent(c1: Option<string>, c2: Option<string>, topic: string)
    requires topic != ""
    ensures Prompt(c1, Some(topic)) == Prompt(c2, Some(topic))
  {
  }

  // ---------------------------------------------------------- fence removal

  const JsonFence: string := "```json"
  const Fence: string := "```"

  /** The text handed to `json.loads`: `content.split("```json")[1].split("```")[0]`
      when the reply holds "```json", else `content.split("```")[1].split("```")[0]`
      when it holds "```", else the reply itself; stripped in every case. */
  function ExtractJsonText(reply: string): (r: string)
    ensures Contains(reply, JsonFence) ==>
      r == Strip(Before(Before(After(reply, JsonFence), JsonFence), Fence))
    ensures !Contains(reply, JsonFence) && Contains(reply, Fence) ==>
      r == Strip(Before(After(reply, Fence), Fence))
    ensures !Contains(reply, JsonFence) && !Contains(reply, Fence) ==> r == Strip(reply)
  {
    var body :=
      if Contains(reply, JsonFence) then
        SplitSecond(reply, JsonFence);
        Split(Split(reply, JsonFence)[1], Fence)[0]
      else if Contains(reply, Fence) then
        SplitSecond(reply, Fence);
        Split(Split(reply, Fence)[1], Fence)[0]
      else reply;
    Strip(body)
  }

  /** After "```json" the parsed text runs up to the next "```", provided that
      fence is not part of a longer run of backticks (only then can a second
      "```json" cut the text earlier). */
  lemma JsonFenceBody(reply: string)
    requires Contains(reply, JsonFence)
    ensures var rest := After(reply, JsonFence);
      match IndexOf(rest, Fence)
      case None => ExtractJsonText(reply) == Strip(rest)
      case Some(j) => (j + 3 == |rest| || rest[j + 3] != '`') ==> ExtractJsonText(reply) == Strip(rest[..j])
  {
    var rest := After(reply, JsonFence);
    BeforeJsonThenFence(rest);
  }

  /** `Before(Before(rest, "```json"), "```")` is the text before the first
      "```" unless that fence is followed by another backtick. */
  lemma BeforeJsonThenFence(rest: string)
    ensures match IndexOf(rest, Fence)
      case None => Before(Before(rest, JsonFence), Fence) == rest
      case Some(j) => (j + 3 == |rest| || rest[j + 3] != '`') ==> Before(Before(rest, JsonFence), Fence) == rest[..j]
  {
    var json := IndexOf(rest, JsonFence);
    if json.Some? {
      var k := json.value;
      JsonFenceChars(rest, k);
      var j := IndexOf(rest, Fence).value;
      if j + 3 == |rest| || rest[j + 3] != '`' {
        CutAtJsonFence(rest, j, k);
      }
    }
  }

  /** Cutting at the first "```json" keeps the first "```" when the two
      coincide or are at least three characters apart. */
  lemma CutAtJsonFence(rest: string, j: nat, k: nat)
    requires IndexOf(rest, Fence) == Some(j) && IndexOf(rest, JsonFence) == Some(k)
    requires OccursAt(rest, Fence, k) && rest[k + 1] == '`' && rest[k + 2] == '`'
    requires j + 3 == |rest| || rest[j + 3] != '`'
    ensures Before(Before(rest, JsonFence), Fence) == rest[..j]
  {
    assert j <= k;
    FencesApart(rest, j, k);
    CutBefore(rest, JsonFence, k);
    if k == j {
      CutSameFence(rest, j);
    } else {
      CutInPrefix(rest, Fence, j, k);
    }
  }

  /** A closing fence that is not followed by a backtick is either the json
      fence itself or lies at least three characters before it. */
  lemma FencesApart(rest: string, j: nat, k: nat)
    requires j <= k && k + 2 < |rest| && rest[k + 1] == '`' && rest[k + 2] == '`'
    requires j + 3 == |rest| || rest[j + 3] != '`'
    ensures j == k || k >= j + 3
  {
  }

  lemma CutSameFence(rest: string, j: nat)
    requires IndexOf(rest, Fence) == Some(j)
    ensures Before(rest[..j], Fence) == rest[..j]
  {
    NoOccurrenceBeforeFirst(rest, Fence, j);
    CutBefore(rest[..j], Fence, j);
  }

  /** `Before` when the separator occurs first at `i`. */
  lemma CutFirst(s: string, sep: string, i: nat)
    requires sep != [] && IndexOf(s, sep) == Some(i)
    ensures Before(s, sep) == s[..i]
  {
  }

  /** `Before` of text in which `sep` occurs first at `k`, or not at all
      (then the whole text, of length `k`). */
  lemma CutBefore(s: string, sep: string, k: nat)
    requires sep != []
    requires IndexOf(s, sep) == Some(k) || (IndexOf(s, sep).None? && k == |s|)
    ensures Before(s, sep) == s[..k]
  {
  }

  /** A "```" at `j` is three backticks. */
  lemma FenceChars(s: string, j: nat)
    ensures OccursAt(s, Fence, j) ==> s[j] == '`' && s[j + 1] == '`' && s[j + 2] == '`'
  {
    if OccursAt(s, Fence, j) {
      assert s[j + 1] == s[j..j + 3][1] && s[j + 2] == s[j..j + 3][2];
    }
  }

  /** A "```json" at `k` is a "```" at `k` followed by the letter 'j'. */
  lemma JsonFenceChars(s: string, k: nat)
    requires OccursAt(s, JsonFence, k)
    ensures OccursAt(s, Fence, k)
    ensures s[k] == '`' && s[k + 1] == '`' && s[k + 2] == '`' && s[k + 3] == 'j'
  {
    assert s[k..k + 3] == s[k..k + 7][..3];
    assert s[k + 1] == s[k..k + 7][1] && s[k + 2] == s[k..k + 7][2] && s[k + 3] == s[k..k + 7][3];
  }

  /** A reply wrapped in a ```json fence, with prose before it and text after
      it, yields its stripped body: the common shape of a model answer. The
      body holds no fence and does not end in a backtick, the text after the
      closing fence does not start with one, and the prose holds none. */
  lemma JsonFenceRoundTrip(prose: string, body: string, trailer: string)
    requires '`' !in prose
    requires !Contains(body, Fence) && (body == [] || body[|body| - 1] != '`')
    requires trailer == [] || trailer[0] != '`'
    ensures ExtractJsonText(prose + JsonFence + body + Fence + trailer) == Strip(body)
  {
    var reply := prose + JsonFence + body + Fence + trailer;
    assert reply == prose + JsonFence + (body + Fence + trailer);
    OpeningFenceFirst(prose, body + Fence + trailer);
    var rest := After(reply, JsonFence);
    assert rest == body + Fence + trailer;
    ClosingFenceFirst(body, trailer);
    assert rest[..|body|] == body;
    assert |body| + 3 == |rest| || rest[|body| + 3] == trailer[0];
    JsonFenceBody(reply);
  }

  /** With no backtick in the prose, the first "```json" is the one after it. */
  lemma OpeningFenceFirst(prose: string, tail: string)
    requires '`' !in prose
    ensures IndexOf(prose + JsonFence + tail, JsonFence) == Some(|prose|)
  {
    var reply := prose + JsonFence + tail;
    assert reply[|prose|..|prose| + 7] == JsonFence;
    forall i | 0 <= i < |prose| ensures !OccursAt(reply, JsonFence, i) {
      assert reply[i] == prose[i];
      if i + 7 <= |reply| {
        assert reply[i] == reply[i..i + 7][0];
      }
    }
    IndexOfIsFirst(reply, JsonFence, |prose|);
  }

  /** A body without a fence and not ending in a backtick is closed by the
      fence that follows it. */
  lemma ClosingFenceFirst(body: string, trailer: string)
    requires !Contains(body, Fence) && (body == [] || body[|body| - 1] != '`')
    ensures IndexOf(body + Fence + trailer, Fence) == Some(|body|)
  {
    var rest := body + Fence + trailer;
    assert rest[|body|..|body| + 3] == Fence;
    forall j | 0 <= j < |body| ensures !OccursAt(rest, Fence, j) {
      if j + 3 <= |body| {
        assert body[j..j + 3] == rest[j..j + 3];
        assert !OccursAt(body, Fence, j);
      } else {
        FenceChars(rest, j);
        assert rest[|body| - 1] == body[|body| - 1];
      }
    }
    IndexOfIsFirst(rest, Fence, |body|);
  }

  // ------------------------------------------------------- fallback report

  /** `_create_fallback_report(topic)`: the fixed report used when the call
      fails, naming the topic in its first two sections. */
  function FallbackReport(topic: string): (f: Fields)
    ensures f.Keys == SectionKeys()
  {
    SectionMap(FallbackValues(topic))
  }

  /** The ten fallback values in section order. */
  function FallbackValues(topic: string): (vs: seq<Value>)
    ensures |vs| == |SectionNames|
  {
    seq(|SectionNames|, i requires 0 <= i < |SectionNames| => FallbackValue(topic, i))
  }

  /** Section `i` of the fallback report is `FallbackValue(topic, i)`. */
  lemma FallbackSections(topic: string)
    ensures forall i :: 0 <= i < |SectionNames| ==> FallbackReport(topic)[SectionNames[i]] == FallbackValue(topic, i)
  {
    assert forall i :: 0 <= i < |SectionNames| ==> FallbackValues(topic)[i] == FallbackValue(topic, i);
  }

  // The fixed texts of the fallback report.
  const SummaryAfterTopic: string :=
    ", providing a comprehensive analysis of its key aspects, benefits, challenges, and recommendations for implementation."
  const OverviewAfterTopic: string :=
    " is a significant technology/methodology in modern software engineering. This briefing examines its core concepts, applications, and strategic implications."
  const FallbackStack: string :=
    "Due to an API error, detailed technology stack analysis is unavailable. Please review source documents for specific technical details."
  const FallbackArchitecture: string := "Architecture details require manual review of source materials."
  const FallbackCompetition: string :=
    "Comparative analysis with alternative solutions shows both advantages and trade-offs. Specific comparisons require detailed evaluation."

  const FallbackAdvantages: seq<string> := [
    "Enhanced scalability and performance", "Improved development efficiency",
    "Better resource utilization", "Modern architectural patterns"]
  const FallbackLimitations: seq<string> := [
    "Learning curve for team members", "Initial setup complexity",
    "Integration with existing systems", "Potential migration challenges"]
  const FallbackAlternatives: seq<string> := [
    "Traditional monolithic approaches", "Other modern architectural patterns",
    "Hybrid solutions combining multiple approaches"]
  const FallbackRecommendations: seq<string> := [
    "Conduct proof of concept implementation", "Evaluate team readiness and training needs",
    "Plan phased adoption strategy", "Establish monitoring and success metrics"]
  const FallbackActions: seq<string> := [
    "Schedule technical deep-dive sessions", "Create implementation roadmap",
    "Identify pilot project opportunities", "Develop team training plan"]

  /** The value of the `i`-th section in the fallback report. */
  function FallbackValue(topic: string, i: nat): (v: Value)
    requires i < |SectionNames|
    ensures v.Items? <==> IsListSection(i)
    ensures v.Text? || v.Items?
  {
    if i == 0 then Text("This technical briefing covers " + topic + SummaryAfterTopic)
    else if i == 1 then Text(topic + OverviewAfterTopic)
    else if i == 2 then Text(FallbackStack)
    else if i == 3 then Text(FallbackArchitecture)
    else if i == 4 then Items(FallbackAdvantages)
    else if i == 5 then Items(FallbackLimitations)
    else if i == 6 then Items(FallbackAlternatives)
    else if i == 7 then Text(FallbackCompetition)
    else if i == 8 then Items(FallbackRecommendations)
    else Items(FallbackActions)
  }

  /** The fallback report has the ten sections, lists where lists belong. */
  lemma FallbackShape(topic: string)
    ensures HasSectionShape(FallbackReport(topic))
  {
    var f := FallbackReport(topic);
    FallbackSections(topic);
    forall i | 0 <= i < |SectionNames|
      ensures (f[SectionNames[i]].Items? <==> IsListSection(i)) && (f[SectionNames[i]].Text? || f[SectionNames[i]].Items?)
    {
      assert f[SectionNames[i]] == FallbackValue(topic, i);
    }
  }

  /** The fallback report names the topic in its first two sections ... */
  lemma FallbackNamesTopic(topic: string)
    ensures OccursAt(FallbackReport(topic)[SectionNames[0]].s, topic, 31)
    ensures StartsWith(FallbackReport(topic)[SectionNames[1]].s, topic)
  {
    FallbackSections(topic);
  }

  /** ... and its other eight sections are the same for every topic. */
  lemma FallbackRestFixed(t1: string, t2: string)
    ensures forall i :: 2 <= i < |SectionNames| ==> FallbackReport(t1)[SectionNames[i]] == FallbackReport(t2)[SectionNames[i]]
  {
    FallbackSections(t1);
    FallbackSections(t2);
  }

  // ------------------------------------------------ structured fallback parser

  /** The characters `lstrip` removes from the front of a list item. */
  const BulletChars: string := "\U{2022}-* 123456789."

  /** `line.startswith(('•', '-', '*', '1.', '2.', '3.'))` */
  predicate HasBulletPrefix(line: string) {
    StartsWith(line, "\U{2022}") || StartsWith(line, "-") || StartsWith(line, "*")
    || StartsWith(line, "1.") || StartsWith(line, "2.") || StartsWith(line, "3.")
  }

  /** `section_name.lower() in line.lower()` for the `i`-th section name. */
  predicate Names(line: string, i: nat)
    requires i < |SectionNames|
  {
    Contains(Lower(line), Lower(SectionNames[i]))
  }

  /** The first section, from the `i`-th on, that `line` names. */
  function FirstHeader(line: string, i: nat): (h: Option<nat>)
    requires i <= |SectionNames|
    ensures h.Some? ==> i <= h.value < |SectionNames|
    decreases |SectionNames| - i
  {
    if i == |SectionNames| then None
    else if Names(line, i) then Some(i)
    else FirstHeader(line, i + 1)
  }

  /** The section a (stripped) line announces: the first in dictionary order
      whose name, lower-cased, occurs in the lower-cased line. */
  function HeaderOf(line: string): Option<nat> {
    FirstHeader(line, 0)
  }

  /** `FirstHeader` from `i` finds `t` when the names from `i` to `t` are
      not in the line and the `t`-th is (or `t` is past the last name). */
  lemma {:induction false} FirstHeaderIs(line: string, i: nat, t: nat)
    requires i <= t <= |SectionNames|
    requires forall u :: i <= u < t ==> !Names(line, u)
    requires t < |SectionNames| ==> Names(line, t)
    ensures FirstHeader(line, i) == if t < |SectionNames| then Some(t) else None
    decreases t - i
  {
    if i < t {
      FirstHeaderIs(line, i + 1, t);
    }
  }

  /** The header `HeaderOf` reports is named by the line, and no earlier
      section is ... */
  lemma {:induction false} FirstHeaderFirst(line: string, i: nat)
    requires i <= |SectionNames|
    ensures FirstHeader(line, i).Some? ==> Names(line, FirstHeader(line, i).value)
    ensures forall u :: i <= u < |SectionNames| && FirstHeader(line, i) != Some(u) && (FirstHeader(line, i).None? || u < FirstHeader(line, i).value) ==> !Names(line, u)
    decreases |SectionNames| - i
  {
    if i < |SectionNames| && !Names(line, i) {
      FirstHeaderFirst(line, i + 1);
    }
  }

  /** How the loop treats one raw line once it is stripped: skipped when
      blank, a header naming a section, or content. */
  datatype LineKind = Blank | Header(section: nat) | Content(line: string)

  function Classify(raw: string): (c: LineKind)
    ensures c.Content? ==> c.line != ""
  {
    var line := Strip(raw);
    if line == "" then Blank
    else
      match HeaderOf(line)
      case Some(h) => Header(h)
      case None => Content(line)
  }

  /** The classification of every line of the reply. */
  function Classified(lines: seq<string>): (kinds: seq<LineKind>)
    ensures |kinds| == |lines|
    decreases |lines|
  {
    if lines == [] then [] else Classified(lines[..|lines| - 1]) + [Classify(lines[|lines| - 1])]
  }

  /** The loop's prefix, once it reaches the end, is every line. */
  lemma ClassifiedAll(lines: seq<string>)
    ensures Classified(lines[..|lines|]) == Classified(lines)
  {
    WholePrefix(lines);
  }

  /** Classifying one more line. */
  lemma ClassifiedStep(lines: seq<string>, n: nat)
    requires n < |lines|
    ensures Classified(lines[..n + 1]) == Classified(lines[..n]) + [Classify(lines[n])]
  {
    assert lines[..n + 1][..n] == lines[..n];
  }

  /** `current_section` after the loop has consumed lines of the given kinds:
      the section named by the last header, or `None` before the first one. */
  function CurrentAfter(kinds: seq<LineKind>): Option<nat>
    decreases |kinds|
  {
    if kinds == [] then None
    else
      match kinds[|kinds| - 1]
      case Header(h) => Some(h)
      case _ => CurrentAfter(kinds[..|kinds| - 1])
  }

  /** What a line of kind `kind` adds to section `k` when `current` is the
      section in force: only a content line of section `k` adds anything; in
      a list section only a bulleted line, with its bullet stripped; in a text
      section the line and a blank. */
  function Piece(k: nat, current: Option<nat>, kind: LineKind): Option<string> {
    if !kind.Content? || current != Some(k) then None
    else if IsListSection(k) then
      if HasBulletPrefix(kind.line) then Some(LStripChars(kind.line, BulletChars)) else None
    else Some(kind.line + " ")
  }

  /** Every piece lines of kinds `kinds` put into section `k`, in order. */
  function Pieces(k: nat, kinds: seq<LineKind>): seq<string>
    decreases |kinds|
  {
    if kinds == [] then []
    else
      var init := kinds[..|kinds| - 1];
      match Piece(k, CurrentAfter(init), kinds[|kinds| - 1])
      case None => Pieces(k, init)
      case Some(p) => Pieces(k, init) + [p]
  }

  /** Section `k` as filed: its pieces as a list, or joined into one text. */
  function FiledValue(k: nat, kinds: seq<LineKind>): (v: Value)
    ensures v.Items? <==> IsListSection(k)
    ensures v.Text? || v.Items?
  {
    if IsListSection(k) then Items(Pieces(k, kinds)) else Text(Join("", Pieces(k, kinds)))
  }

  /** The executive summary used when nothing was filed under it. */
  function DefaultSummary(topic: string): string {
    "Technical briefing for " + topic
  }

  /** Sections `vs` with an empty executive summary replaced by the default. */
  function WithSummary(topic: string, vs: seq<Value>): seq<Value>
    requires |vs| == |SectionNames|
  {
    if vs[0] == Text("") then vs[0 := Text(DefaultSummary(topic))] else vs
  }

  /** The lines of `raw` as `raw.split('\n')` gives them, classified. */
  function ReplyLines(raw: string): seq<LineKind> {
    Classified(Split(raw, "\n"))
  }

  /** The report `_create_structured_report(topic, raw)` builds: the ten
      sections as the reply's lines file them, with the default summary when
      nothing was filed under "Executive Summary". */
  function StructuredReport(topic: string, raw: string): (f: Fields)
    ensures f.Keys == SectionKeys()
  {
    SectionMap(WithSummary(topic, FiledValues(ReplyLines(raw))))
  }

  /** Section by section: every section but the summary holds exactly what
      was filed under it; the summary too unless nothing was. */
  lemma StructuredSections(topic: string, raw: string)
    ensures forall k :: 1 <= k < |SectionNames| ==>
      StructuredReport(topic, raw)[SectionNames[k]] == FiledValue(k, ReplyLines(raw))
    ensures StructuredReport(topic, raw)[SectionNames[0]] ==
      if FiledValue(0, ReplyLines(raw)) == Text("") then Text(DefaultSummary(topic)) else FiledValue(0, ReplyLines(raw))
  {
    SummarySections(topic, FiledValues(ReplyLines(raw)));
    FiledValuesAll(ReplyLines(raw));
  }

  /** The summary default touches the summary alone. */
  lemma SummarySections(topic: string, vs: seq<Value>)
    requires |vs| == |SectionNames|
    ensures forall k :: 1 <= k < |SectionNames| ==> SectionMap(WithSummary(topic, vs))[SectionNames[k]] == vs[k]
    ensures SectionMap(WithSummary(topic, vs))[SectionNames[0]] == if vs[0] == Text("") then Text(DefaultSummary(topic)) else vs[0]
  {
  }

  /** Section value `v` after the piece `p` (if any) is filed into it. */
  function Filed(v: Value, p: Option<string>): Value {
    match p
    case None => v
    case Some(x) =>
      match v
      case Items(xs) => Items(xs + [x])
      case Text(t) => Text(t + x)
      case Other(_, _) => v
  }

  /** One more line files its piece, if any, into section `k`, and moves the
      current section when it is a header. */
  lemma FiledValueStep(k: nat, kinds: seq<LineKind>, kind: LineKind)
    ensures FiledValue(k, kinds + [kind]) == Filed(FiledValue(k, kinds), Piece(k, CurrentAfter(kinds), kind))
  {
    var p := Piece(k, CurrentAfter(kinds), kind);
    PiecesStep(k, kinds, kind);
    if p.Some? && !IsListSection(k) {
      var ps := Pieces(k, kinds);
      JoinSnoc("", ps, p.value);
      assert Join("", ps + [p.value]) == Join("", ps) + p.value by {
        if ps != [] {
          assert Join("", ps) + "" == Join("", ps);
        }
      }
    }
  }

  lemma PiecesStep(k: nat, kinds: seq<LineKind>, kind: LineKind)
    ensures Pieces(k, kinds + [kind]) == match Piece(k, CurrentAfter(kinds), kind)
      case None => Pieces(k, kinds)
      case Some(p) => Pieces(k, kinds) + [p]
  {
    assert (kinds + [kind])[..|kinds|] == kinds;
  }

  lemma CurrentStep(kinds: seq<LineKind>, kind: LineKind)
    ensures CurrentAfter(kinds + [kind]) == if kind.Header? then Some(kind.section) else CurrentAfter(kinds)
  {
    assert (kinds + [kind])[..|kinds|] == kinds;
  }

  /** The first `m` sections as filed from lines of kinds `kinds`. */
  function FiledUpTo(kinds: seq<LineKind>, m: nat): (vs: seq<Value>)
    ensures |vs| == m
  {
    if m == 0 then [] else FiledUpTo(kinds, m - 1) + [FiledValue(m - 1, kinds)]
  }

  lemma {:induction false} FiledUpToAt(kinds: seq<LineKind>, m: nat, k: nat)
    requires k < m
    ensures FiledUpTo(kinds, m)[k] == FiledValue(k, kinds)
  {
    if k < m - 1 {
      FiledUpToAt(kinds, m - 1, k);
    }
  }

  /** The ten sections as filed from lines of kinds `kinds`. */
  function FiledValues(kinds: seq<LineKind>): (vs: seq<Value>)
    ensures |vs| == |SectionNames|
  {
    FiledUpTo(kinds, |SectionNames|)
  }

  lemma FiledValuesAll(kinds: seq<LineKind>)
    ensures forall k :: 0 <= k < |SectionNames| ==> FiledValues(kinds)[k] == FiledValue(k, kinds)
  {
    forall k | 0 <= k < |SectionNames| ensures FiledValues(kinds)[k] == FiledValue(k, kinds) {
      FiledValuesAt(kinds, k);
    }
  }

  lemma FiledValuesAt(kinds: seq<LineKind>, k: nat)
    requires k < |SectionNames|
    ensures FiledValues(kinds)[k] == FiledValue(k, kinds)
  {
    FiledUpToAt(kinds, |SectionNames|, k);
  }

  /** A line that adds nothing to any section leaves the filed values as
      they were ... */
  lemma FiledNothing(kinds: seq<LineKind>, kind: LineKind)
    requires forall k :: 0 <= k < |SectionNames| ==> Piece(k, CurrentAfter(kinds), kind).None?
    ensures FiledValues(kinds + [kind]) == FiledValues(kinds)
  {
    forall k | 0 <= k < |SectionNames| ensures FiledValues(kinds + [kind])[k] == FiledValues(kinds)[k] {
      FiledValueStep(k, kinds, kind);
      FiledValuesAt(kinds + [kind], k);
      FiledValuesAt(kinds, k);
    }
  }

  /** ... and a content line of section `c` changes section `c` alone. */
  lemma FiledInto(c: nat, kinds: seq<LineKind>, kind: LineKind)
    requires c < |SectionNames| && kind.Content? && CurrentAfter(kinds) == Some(c)
    ensures FiledValues(kinds + [kind]) == FiledValues(kinds)[c := Filed(FiledValue(c, kinds), Piece(c, Some(c), kind))]
  {
    var updated := FiledValues(kinds)[c := Filed(FiledValue(c, kinds), Piece(c, Some(c), kind))];
    forall k | 0 <= k < |SectionNames| ensures FiledValues(kinds + [kind])[k] == updated[k] {
      FiledValueStep(k, kinds, kind);
      FiledValuesAt(kinds + [kind], k);
      FiledValuesAt(kinds, k);
    }
  }

  // ------------------------------------- what the structured report promises

  /** The report has exactly the ten keys; the five prose sections are
      strings, the five list sections lists, and the summary is never empty. */
  lemma StructuredShape(topic: string, raw: string)
    ensures HasSectionShape(StructuredReport(topic, raw))
    ensures StructuredReport(topic, raw)[SectionNames[0]].Text?
    ensures StructuredReport(topic, raw)[SectionNames[0]].s != ""
  {
    StructuredReportOf(topic, raw, ReplyLines(raw));
    FiledShape(topic, ReplyLines(raw));
  }

  /** The same for the sections filed from any lines. */
  lemma FiledShape(topic: string, kinds: seq<LineKind>)
    ensures HasSectionShape(SectionMap(WithSummary(topic, FiledValues(kinds))))
    ensures SectionMap(WithSummary(topic, FiledValues(kinds)))[SectionNames[0]].Text?
    ensures SectionMap(WithSummary(topic, FiledValues(kinds)))[SectionNames[0]].s != ""
  {
    var vs := FiledValues(kinds);
    FiledValuesAll(kinds);
    SummaryShape(topic, vs);
    SectionMapShape(WithSummary(topic, vs));
  }

  /** The summary default keeps every value's kind and leaves a non-empty
      summary. */
  lemma SummaryShape(topic: string, vs: seq<Value>)
    requires |vs| == |SectionNames|
    requires forall i :: 0 <= i < |vs| ==> (vs[i].Items? <==> IsListSection(i)) && (vs[i].Text? || vs[i].Items?)
    ensures var ws := WithSummary(topic, vs);
      && (forall i :: 0 <= i < |ws| ==> (ws[i].Items? <==> IsListSection(i)) && (ws[i].Text? || ws[i].Items?))
      && ws[0].Text? && ws[0].s != ""
  {
    var d := DefaultSummary(topic);
    assert d[..|"Technical briefing for "|] == "Technical briefing for ";
  }

  /** A line is skipped exactly when it is blank or whitespace only. */
  lemma ClassifyBlank(raw: string)
    ensures Classify(raw) == Blank <==> IsBlank(raw)
  {
    StripEmptyIffBlank(raw);
  }

  /** A skipped line changes neither the current section nor any section. */
  lemma BlankAddsNothing(kinds: seq<LineKind>)
    ensures CurrentAfter(kinds + [Blank]) == CurrentAfter(kinds)
    ensures FiledValues(kinds + [Blank]) == FiledValues(kinds)
  {
    CurrentStep(kinds, Blank);
    FiledNothing(kinds, Blank);
  }

  /** A non-blank line that names sections is a header for the first of them
      in key order ... */
  lemma ClassifyHeader(raw: string, h: nat)
    requires h < |SectionNames| && Strip(raw) != ""
    requires Names(Strip(raw), h)
    requires forall u :: 0 <= u < h ==> !Names(Strip(raw), u)
    ensures Classify(raw) == Header(h)
  {
    FirstHeaderIs(Strip(raw), 0, h);
  }

  /** ... and a line naming none is content, stripped. */
  lemma ClassifyContent(raw: string)
    requires Strip(raw) != ""
    requires forall u :: 0 <= u < |SectionNames| ==> !Names(Strip(raw), u)
    ensures Classify(raw) == Content(Strip(raw))
  {
    FirstHeaderIs(Strip(raw), 0, |SectionNames|);
  }

  /** A header makes its section current and records nothing. */
  lemma HeaderAddsNothing(kinds: seq<LineKind>, h: nat)
    ensures CurrentAfter(kinds + [Header(h)]) == Some(h)
    ensures FiledValues(kinds + [Header(h)]) == FiledValues(kinds)
  {
    CurrentStep(kinds, Header(h));
    FiledNothing(kinds, Header(h));
  }

  /** Lines with no header among them leave no section current and file
      nothing. */
  lemma {:induction false} NoHeaderNoPieces(k: nat, kinds: seq<LineKind>)
    requires forall i :: 0 <= i < |kinds| ==> !kinds[i].Header?
    ensures CurrentAfter(kinds) == None
    ensures Pieces(k, kinds) == []
    decreases |kinds|
  {
    if kinds != [] {
      var init, last := kinds[..|kinds| - 1], kinds[|kinds| - 1];
      assert kinds == init + [last];
      NoHeaderNoPieces(k, init);
      CurrentStep(init, last);
      PiecesStep(k, init, last);
    }
  }

  /** Lines before the first header do not affect which section is current
      later on ... */
  lemma {:induction false} CurrentAfterPreamble(pre: seq<LineKind>, rest: seq<LineKind>)
    requires forall i :: 0 <= i < |pre| ==> !pre[i].Header?
    ensures CurrentAfter(pre + rest) == CurrentAfter(rest)
    decreases |rest|
  {
    if rest == [] {
      assert pre + rest == pre;
      NoHeaderNoPieces(0, pre);
    } else {
      var init, last := rest[..|rest| - 1], rest[|rest| - 1];
      assert rest == init + [last];
      assert pre + rest == (pre + init) + [last];
      CurrentAfterPreamble(pre, init);
      CurrentStep(pre + init, last);
      CurrentStep(init, last);
    }
  }

  /** ... nor what is filed under any section. */
  lemma {:induction false} PiecesPreamble(k: nat, pre: seq<LineKind>, rest: seq<LineKind>)
    requires forall i :: 0 <= i < |pre| ==> !pre[i].Header?
    ensures Pieces(k, pre + rest) == Pieces(k, rest)
    decreases |rest|
  {
    if rest == [] {
      assert pre + rest == pre;
      NoHeaderNoPieces(k, pre);
    } else {
      var init, last := rest[..|rest| - 1], rest[|rest| - 1];
      assert rest == init + [last];
      assert pre + rest == (pre + init) + [last];
      PiecesPreamble(k, pre, init);
      CurrentAfterPreamble(pre, init);
      PiecesStep(k, pre + init, last);
      PiecesStep(k, init, last);
    }
  }

  /** Content before the first header is dropped: the sections are as if the
      reply began at that header. */
  lemma PreambleIgnored(pre: seq<LineKind>, rest: seq<LineKind>)
    requires forall i :: 0 <= i < |pre| ==> !pre[i].Header?
    ensures FiledValues(pre + rest) == FiledValues(rest)
  {
    forall k | 0 <= k < |SectionNames| ensures FiledValues(pre + rest)[k] == FiledValues(rest)[k] {
      PiecesPreamble(k, pre, rest);
      FiledValuesAt(pre + rest, k);
      FiledValuesAt(rest, k);
    }
  }

  /** A reply that names no section yields empty sections and the default
      summary. */
  lemma NoHeaderReport(topic: string, raw: string)
    requires forall i :: 0 <= i < |ReplyLines(raw)| ==> !ReplyLines(raw)[i].Header?
    ensures StructuredReport(topic, raw)[SectionNames[0]] == Text(DefaultSummary(topic))
    ensures forall k :: 1 <= k < |SectionNames| ==>
      StructuredReport(topic, raw)[SectionNames[k]] == if IsListSection(k) then Items([]) else Text("")
  {
    StructuredSections(topic, raw);
    forall k | 0 <= k < |SectionNames| ensures Pieces(k, ReplyLines(raw)) == [] {
      NoHeaderNoPieces(k, ReplyLines(raw));
    }
  }

  /** Every list item has its leading bullet characters removed... */
  lemma {:induction false} ListItemsStripped(k: nat, kinds: seq<LineKind>)
    requires IsListSection(k)
    ensures forall x :: x in Pieces(k, kinds) ==> x == [] || x[0] !in BulletChars
    decreases |kinds|
  {
    if kinds != [] {
      var init, last := kinds[..|kinds| - 1], kinds[|kinds| - 1];
      assert kinds == init + [last];
      ListItemsStripped(k, init);
      PiecesStep(k, init, last);
    }
  }

  /** ... and each piece of a prose section is a stripped content line
      followed by one blank. */
  lemma {:induction false} TextPiecesEndInBlank(k: nat, kinds: seq<LineKind>)
    requires !IsListSection(k)
    ensures forall x :: x in Pieces(k, kinds) ==> x != [] && x[|x| - 1] == ' '
    decreases |kinds|
  {
    if kinds != [] {
      var init, last := kinds[..|kinds| - 1], kinds[|kinds| - 1];
      assert kinds == init + [last];
      TextPiecesEndInBlank(k, init);
      PiecesStep(k, init, last);
    }
  }

  /** How the loop body classifies the raw line it strips to `line`. */
  lemma ClassifyLine(raw: string, line: string, header: Option<nat>)
    requires line == Strip(raw) && (line != "" ==> header == HeaderOf(line))
    ensures Classify(raw) == if line == "" then Blank else if header.Some? then Header(header.value) else Content(line)
  {
  }

  /** The inner `for section_name in sections.keys()` loop: the first
      section, in key order, that the stripped line names. */
  method FindHeader(line: string) returns (header: Option<nat>)
    ensures header == HeaderOf(line)
  {
    var t := 0;
    while t < |SectionNames| && !Names(line, t)
      invariant 0 <= t <= |SectionNames|
      invariant forall u :: 0 <= u < t ==> !Names(line, u)
    {
      t := t + 1;
    }
    FirstHeaderIs(line, 0, t);
    header := if t < |SectionNames| then Some(t) else None;
  }

  /** The body of the `for line in lines` loop for one raw line: skip it
      when blank, make it the current section when it names one, else file it
      under the current section (if any). */
  method FileLine(sections: Fields, current: Option<nat>, raw: string, ghost kinds: seq<LineKind>)
    returns (sections': Fields, current': Option<nat>)
    requires current == CurrentAfter(kinds) && (current.Some? ==> current.value < |SectionNames|)
    requires sections == SectionMap(FiledValues(kinds))
    ensures current' == CurrentAfter(kinds + [Classify(raw)])
    ensures current'.Some? ==> current'.value < |SectionNames|
    ensures sections' == SectionMap(FiledValues(kinds + [Classify(raw)]))
  {
    var line := Strip(raw);
    var header: Option<nat> := None;
    if line != "" {
      header := FindHeader(line);
    }
    ClassifyLine(raw, line, header);
    CurrentStep(kinds, Classify(raw));
    if line != "" && header.None? && current.Some? {
      sections' := FileContent(sections, current.value, line, kinds);
      current' := current;
    } else {
      NoPieceFiled(kinds, Classify(raw));
      sections' := sections;
      current' := if header.Some? then header else current;
    }
  }

  /** A blank line, a header, or a content line before the first header
      files nothing. */
  lemma NoPieceFiled(kinds: seq<LineKind>, kind: LineKind)
    requires !kind.Content? || CurrentAfter(kinds).None?
    ensures FiledValues(kinds + [kind]) == FiledValues(kinds)
  {
    FiledNothing(kinds, kind);
  }

  /** Filing a content line under the current section `c`: appended, without
      its bullet, to a list section when it is bulleted; appended with a
      trailing blank to a text section. */
  method FileContent(sections: Fields, c: nat, line: string, ghost kinds: seq<LineKind>) returns (sections': Fields)
    requires c < |SectionNames| && CurrentAfter(kinds) == Some(c)
    requires sections == SectionMap(FiledValues(kinds))
    ensures sections' == SectionMap(FiledValues(kinds + [Content(line)]))
  {
    var name := SectionNames[c];
    FiledValuesAt(kinds, c);
    if sections[name].Items? {
      if HasBulletPrefix(line) {
        FiledInto(c, kinds, Content(line));
        var updated := Items(sections[name].items + [LStripChars(line, BulletChars)]);
        SectionMapUpdate(FiledValues(kinds), c, updated);
        sections' := sections[name := updated];
      } else {
        FiledNothing(kinds, Content(line));
        sections' := sections;
      }
    } else {
      FiledInto(c, kinds, Content(line));
      var updated := Text(sections[name].s + (line + " "));
      SectionMapUpdate(FiledValues(kinds), c, updated);
      sections' := sections[name := updated];
    }
  }

  /** `_create_structured_report`: one pass over the reply's lines, tracking
      the current section and appending to it, then the default summary. */
  method CreateStructuredReport(topic: string, rawContent: string) returns (sections: Fields)
    ensures sections == StructuredReport(topic, rawContent)
  {
    var lines := Split(rawContent, "\n");
    sections := FileLines(lines);
    StructuredReportOf(topic, rawContent, Classified(lines));
    sections := DefaultSummaryIfEmpty(topic, sections, Classified(lines));
  }

  /** The `for line in lines` loop: every line filed in order. */
  method FileLines(lines: seq<string>) returns (sections: Fields)
    ensures sections == SectionMap(FiledValues(Classified(lines)))
  {
    sections := SectionMap(FiledValues([]));
    var current: Option<nat> := None;
    ghost var kinds: seq<LineKind> := [];
    var n := 0;
    while n < |lines|
      invariant 0 <= n <= |lines|
      invariant kinds == Classified(lines[..n])
      invariant current == CurrentAfter(kinds)
      invariant current.Some? ==> current.value < |SectionNames|
      invariant sections == SectionMap(FiledValues(kinds))
    {
      ClassifiedStep(lines, n);
      sections, current := FileLine(sections, current, lines[n], kinds);
      kinds := kinds + [Classify(lines[n])];
      n := n + 1;
    }
    ClassifiedAll(lines);
  }

  /** `if not sections["Executive Summary"]`: the default summary replaces an
      empty one. */
  method DefaultSummaryIfEmpty(topic: string, sections: Fields, ghost kinds: seq<LineKind>) returns (sections': Fields)
    requires sections == SectionMap(FiledValues(kinds))
    ensures sections' == SectionMap(WithSummary(topic, FiledValues(kinds)))
  {
    SummaryStep(topic, FiledValues(kinds));
    sections' := sections;
    if sections[SectionNames[0]] == Text("") {
      sections' := sections[SectionNames[0] := Text(DefaultSummary(topic))];
    }
  }

  lemma StructuredReportOf(topic: string, raw: string, kinds: seq<LineKind>)
    requires kinds == ReplyLines(raw)
    ensures StructuredReport(topic, raw) == SectionMap(WithSummary(topic, FiledValues(kinds)))
  {
  }

  /** The final `if not sections["Executive Summary"]` step on the map. */
  lemma SummaryStep(topic: string, vs: seq<Value>)
    requires |vs| == |SectionNames|
    ensures SectionMap(WithSummary(topic, vs)) ==
      if SectionMap(vs)[SectionNames[0]] == Text("") then SectionMap(vs)[SectionNames[0] := Text(DefaultSummary(topic))]
      else SectionMap(vs)
  {
    if vs[0] == Text("") {
      SectionMapUpdate(vs, 0, Text(DefaultSummary(topic)));
    }
  }

  // ------------------------------------------------------- generate_report

  /** `generate_report(content, topic)`: the model's reply decoded as JSON when
      the fenced text parses; the structured report of the whole reply when it
      does not; the fallback report when the call fails. The topic used by
      both fall-backs is `topic or "Technical Briefing"`. */
  function GenerateReport(content: Option<string>, topic: Option<string>,
                          respond: string -> ApiOutcome, decode: string -> Option<Json>): (r: Json)
    ensures respond(Prompt(content, topic)).ApiFailed? ==> r == Object(FallbackReport(TopicOrDefault(topic)))
    ensures respond(Prompt(content, topic)).Replied? ==>
      var reply := respond(Prompt(content, topic)).content;
      match decode(ExtractJsonText(reply))
      case Some(j) => r == j
      case None => r == Object(StructuredReport(TopicOrDefault(topic), reply))
  {
    match respond(Prompt(content, topic))
    case ApiFailed => Object(FallbackReport(TopicOrDefault(topic)))
    case Replied(reply) =>
      match decode(ExtractJsonText(reply))
      case Some(j) => j
      case None => Object(StructuredReport(TopicOrDefault(topic), reply))
  }

  /** Unless the decoder accepts the reply, the report has the ten-section
      shape and a non-empty executive summary. */
  lemma GeneratedShape(content: Option<string>, topic: Option<string>,
                       respond: string -> ApiOutcome, decode: string -> Option<Json>)
    requires respond(Prompt(content, topic)).ApiFailed?
      || decode(ExtractJsonText(respond(Prompt(content, topic)).content)).None?
    ensures GenerateReport(content, topic, respond, decode).Object?
    ensures HasSectionShape(GenerateReport(content, topic, respond, decode).fields)
    ensures Truthy(GenerateReport(content, topic, respond, decode).fields[SectionNames[0]])
  {
    var t := TopicOrDefault(topic);
    match respond(Prompt(content, topic))
    case ApiFailed =>
      FallbackShape(t);
      FallbackNamesTopic(t);
      FallbackSummaryTruthy(t);
    case Replied(reply) =>
      StructuredShape(t, reply);
  }

  /** The fallback summary is never empty. */
  lemma FallbackSummaryTruthy(topic: string)
    ensures Truthy(FallbackReport(topic)[SectionNames[0]])
  {
    FallbackSections(topic);
    assert |FallbackReport(topic)[SectionNames[0]].s| >= 31;
  }
}
