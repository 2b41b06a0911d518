/**
  The report dictionary both copies of the program pass between the language
  model manager, the report generator and the PDF generator, and the inputs
  that stand for foreign code: the OpenAI reply and `json.loads`.
 */
module Reports {
  import opened Wrappers

  /** A JSON value under a report key: a string, a list (each item as
      `str(item)`, which is what both PDF generators print), or anything else
      with its `str()` text and its Python truthiness. */
  datatype Value = Text(s: string) | Items(items: seq<string>) | Other(repr: string, truthy: bool)

  /** `bool(value)` */
  predicate Truthy(v: Value) {
    match v
    case Text(s) => s != ""
    case Items(xs) => xs != []
    case Other(_, t) => t
  }

  /** The members of a JSON object, keyed by name. */
  type Fields = map<string, Value>

  /** What `json.loads` can hand back: an object, or some other JSON document
      (array, string, number, boolean, null). A decoding failure is `None` of
      the decoder's `Option` result. */
  datatype Json = Object(fields: Fields) | NonObject

  /** The three `metadata` dictionaries the report generators build;
      `generatedAt` is the `datetime.now().isoformat()` text. */
  datatype Metadata =
    | ContentMeta(generatedAt: string, sourceDocuments: seq<string>, totalDocuments: nat)
    | TopicMeta(generatedAt: string, sourceType: string, topic: string)
    | EmptyMeta(generatedAt: string, sourceType: string, totalDocuments: nat)

  /** One processed document as the report generators receive it: the
      `filename` and (already redacted) `content` entries of its dictionary. */
  datatype SourceDocument = SourceDocument(filename: string, content: string)

  /** `[doc['filename'] for doc in documents]` */
  function Filenames(docs: seq<SourceDocument>): (names: seq<string>)
    ensures |names| == |docs|
    ensures forall i :: 0 <= i < |docs| ==> names[i] == docs[i].filename
  {
    seq(|docs|, i requires 0 <= i < |docs| => docs[i].filename)
  }

  /** A report: the language model's sections, and the `metadata` entry once a
      generator has set it. */
  datatype Report = Report(fields: Fields, metadata: Option<Metadata>)

  /** `report['metadata'] = meta` on the dictionary `fields`: the entry is
      replaced and no other key changes. */
  function WithMetadata(fields: Fields, meta: Metadata): (r: Report)
    ensures r.metadata == Some(meta)
    ensures "metadata" !in r.fields
    ensures forall k :: k in fields && k != "metadata" ==> k in r.fields && r.fields[k] == fields[k]
    ensures forall k :: k in r.fields ==> k in fields
  {
    Report(fields - {"metadata"}, Some(meta))
  }

  /** The outcome of one chat-completion call: the reply text, or any
      exception raised while calling the service or reading its reply. */
  datatype ApiOutcome = ApiFailed | Replied(content: string)

  /** Exceptions that escape the modelled operations. */
  datatype Error =
    | UnsupportedFileType(message: string)   // ValueError raised by `extract`
    | ReaderFailed                           // an exception raised by a document reader library
    | NoSplitAttribute                       // AttributeError: a section value that is neither str nor list
    | NotADictionary                         // TypeError: `report['metadata'] = ...` on a non-object reply
    | RetryAborted                           // tenacity's RetryError after three failed attempts

  /** The ten section names, in the key order of the report dictionaries the
      managers build and in the `section_order` of the PDF generators. */
  const SectionNames: seq<string> := [
    "Executive Summary",
    "Topic Overview",
    "Technology Stack Analysis",
    "Architecture Overview",
    "Advantages and Benefits",
    "Limitations and Challenges",
    "Alternative Solutions",
    "Competitive Analysis",
    "Key Recommendations",
    "Action Items and Next Steps"
  ]

  /** No name occurs twice in `names`. */
  predicate Distinct(names: seq<string>) {
    forall i, j :: 0 <= i < j < |names| ==> names[i] != names[j]
  }

  /** The ten names are pairwise different, so a dictionary built from them
      has ten entries. */
  lemma SectionNamesDistinct()
    ensures Distinct(SectionNames)
  {
    forall i, j | 0 <= i < j < |SectionNames| ensures SectionNames[i] != SectionNames[j] {
      assert |SectionNames[i]| != |SectionNames[j]| || SectionNames[i][0] != SectionNames[j][0]
        || SectionNames[i][1] != SectionNames[j][1];
    }
  }

  /** The set of the names in `names`. */
  function KeySet(names: seq<string>): set<string> {
    set i | 0 <= i < |names| :: names[i]
  }

  /** The set of the ten section names. */
  function SectionKeys(): set<string> {
    KeySet(SectionNames)
  }

  /** The five list sections: "Advantages and Benefits", "Limitations and
      Challenges", "Alternative Solutions", "Key Recommendations" and "Action
      Items and Next Steps", by their position in `SectionNames`. */
  predicate IsListSection(i: nat) {
    i == 4 || i == 5 || i == 6 || i == 8 || i == 9
  }

  /** The shape of every report the managers build themselves: exactly the ten
      section keys, the five list sections holding lists and the other five
      holding strings. */
  predicate HasSectionShape(fields: Fields) {
    && fields.Keys == SectionKeys()
    && (forall i :: 0 <= i < |SectionNames| ==>
          (fields[SectionNames[i]].Items? <==> IsListSection(i))
          && (fields[SectionNames[i]].Text? || fields[SectionNames[i]].Items?))
  }

  /** The dictionary mapping each `names[i]` to `values[i]`. */
  function Zip(names: seq<string>, values: seq<Value>): (f: Fields)
    requires |values| == |names| && Distinct(names)
    ensures f.Keys == KeySet(names)
    ensures forall i :: 0 <= i < |names| ==> f[names[i]] == values[i]
  {
    map i | 0 <= i < |names| :: names[i] := values[i]
  }

  /** A dictionary over the keys `names` is the zip of its values. */
  lemma ZipOf(f: Fields, names: seq<string>, values: seq<Value>)
    requires |values| == |names| && Distinct(names) && f.Keys == KeySet(names)
    requires forall i :: 0 <= i < |names| ==> f[names[i]] == values[i]
    ensures f == Zip(names, values)
  {
    var g := Zip(names, values);
    forall key | key in f ensures f[key] == g[key] {
      var i :| 0 <= i < |names| && key == names[i];
    }
  }

  /** Updating one entry of a zip. */
  lemma ZipUpdate(names: seq<string>, values: seq<Value>, i: nat, v: Value)
    requires |values| == |names| && Distinct(names) && i < |names|
    ensures Zip(names, values)[names[i] := v] == Zip(names, values[i := v])
  {
    var f := Zip(names, values)[names[i] := v];
    forall j | 0 <= j < |names| ensures f[names[j]] == values[i := v][j] {
      if j != i {
        assert names[j] != names[i];
      }
    }
    ZipOf(f, names, values[i := v]);
  }

  /** The dictionary whose `i`-th section name maps to `values[i]`. */
  function SectionMap(values: seq<Value>): (f: Fields)
    requires |values| == |SectionNames|
    ensures f.Keys == SectionKeys()
    ensures forall i :: 0 <= i < |SectionNames| ==> f[SectionNames[i]] == values[i]
  {
    SectionNamesDistinct();
    Zip(SectionNames, values)
  }

  /** Updating one section of a section map. */
  lemma SectionMapUpdate(values: seq<Value>, i: nat, v: Value)
    requires |values| == |SectionNames| && i < |SectionNames|
    ensures SectionMap(values)[SectionNames[i] := v] == SectionMap(values[i := v])
  {
    SectionNamesDistinct();
    ZipUpdate(SectionNames, values, i, v);
  }

  /** A section map has the section shape when each value has the kind its
      section calls for. */
  lemma SectionMapShape(values: seq<Value>)
    requires |values| == |SectionNames|
    requires forall i :: 0 <= i < |values| ==> (values[i].Items? <==> IsListSection(i))
    requires forall i :: 0 <= i < |values| ==> values[i].Text? || values[i].Items?
    ensures HasSectionShape(SectionMap(values))
  {
  }

  /** "metadata" is not one of the section names, so setting it never
      replaces a section. */
  lemma MetadataNotASection()
    ensures "metadata" !in SectionKeys()
  {
    forall i | 0 <= i < |SectionNames| ensures SectionNames[i] != "metadata" {
      assert |SectionNames[i]| > |"metadata"|;
    }
  }

  /** `topic or "Technical Briefing"` */
  function TopicOrDefault(topic: Option<string>): (r: string)
    ensures topic.Some? && topic.value != "" ==> r == topic.value
    ensures (topic.None? || topic.value == "") ==> r == "Technical Briefing"
  {
    if topic.Some? && topic.value != "" then topic.value else "Technical Briefing"
  }
}
