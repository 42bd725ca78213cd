/**
 * `KnowledgeGraphManager`: the façade over the mem0 semantic store. The
 * store itself is an oracle (`Memory`): each call's answer is given. What
 * is modelled is the manager's own data transformation: the records it
 * hands to the store (papers with ", "-joined author and category lists,
 * insights with their context flattened into "context_"-prefixed string
 * metadata), how it reads records back (splitting lists, reconstructing
 * context, de-duplicating insights, merging store papers with arXiv
 * results), the summary it aggregates, and its uniform degradation when
 * the store could not be initialised.
 */
module KnowledgeGraph {
  import opened Wrappers
  import opened Strings
  import ArxivClient

  // ---------------------------------------------------------------------
  // What the store returns

  /** A record's metadata as the store returns it: key/value pairs in the
      store's order. */
  type Metadata = seq<(string, string)>

  /** `metadata.get(key)`. A dictionary holds each key once; should a
      sequence hold a key twice, the later pair wins, as it does when a
      dictionary is built pair by pair. */
  function Get(md: Metadata, key: string): Option<string> {
    if md == [] then None
    else if md[|md| - 1].0 == key then Some(md[|md| - 1].1)
    else Get(md[..|md| - 1], key)
  }

  /** A dictionary result of `memory.search`: "memory", "metadata",
      "score" and "id", each of which may be missing. */
  datatype Record = Record(memory: Option<string>, metadata: Metadata, score: Option<real>, id: Option<string>)

  /** `json.loads` of a string result. */
  datatype Decoded = NotJson | JsonObject(record: Record) | JsonOther

  /** One element of a search result: a dictionary, a string (with what
      `json.loads` makes of it), or anything else (with its `str`). */
  datatype Hit = DictHit(record: Record) | StrHit(text: string, decoded: Decoded) | OtherHit(text: string)

  datatype StoreAnswer = Hits(hits: seq<Hit>) | SearchRaised(error: string)

  /** The mem0 `Memory` instance: what each of its calls answers. */
  datatype Memory = Memory(
    search: (string, int) -> StoreAnswer,           // search(query, limit=...)
    add: (string, map<string, string>) -> Outcome,  // add(text, metadata=...)
    delete: string -> Outcome,                      // delete(memory_id)
    update: (string, string) -> Outcome)            // update(memory_id, data)

  /** The manager: its `memory` is `None` when mem0 could not be set up.
      `maxContentLength` is the `MAX_CONTENT_LENGTH` constant. */
  datatype Manager = Manager(memory: Option<Memory>, maxContentLength: nat)

  /** How `_initialize_memory` ends. */
  datatype InitOutcome = Initialized(handle: Memory) | Mem0Missing | InitRaised(error: string)

  function NewManager(init: InitOutcome, maxContentLength: nat): (m: Manager)
    ensures m.memory.Some? <==> init.Initialized?
    ensures m.maxContentLength == maxContentLength
  {
    match init
    case Initialized(handle) => Manager(Some(handle), maxContentLength)
    case _ => Manager(None, maxContentLength)
  }

  /** Values of an insight's context dictionary. `Float` carries Python's
      rendering of the number; `Structured` (lists, dictionaries, ...)
      carries its `json.dumps` text. */
  datatype CtxValue = Str(s: string) | Int(i: int) | Float(text: string) | Bool(b: bool) | Null | Structured(json: string)

  type Context = map<string, CtxValue>

  /** Everything else the manager calls: the arxiv library (for the
      related-papers backfill), the clock, and `json.dumps(context,
      indent=2)`. */
  datatype Services = Services(
    library: ArxivClient.Library,
    now: string,
    dumpContext: Context -> string)

  // ---------------------------------------------------------------------
  // Writing: add_research_paper

  /** A list-valued paper field: a list, a string, or another scalar (with
      its `str`). */
  datatype ListField = Items(items: seq<string>) | Text(text: string) | Scalar(rendered: string)

  /** A paper dictionary; a `None` field is a missing key. */
  datatype PaperData = PaperData(
    paperId: Option<string>,
    title: Option<string>,
    published: Option<string>,
    authors: Option<ListField>,
    categories: Option<ListField>,
    abstractText: Option<string>,
    content: Option<string>)

  /** What the manager handed to `memory.add`. */
  datatype Written = Written(text: string, metadata: map<string, string>)

  /** The manager's boolean answer, with the record it tried to store. */
  datatype AddOutcome = AddOutcome(ok: bool, written: Option<Written>)

  /** Metadata encoding of a list field: ", ".join of a list, `str` of
      anything else. */
  function EncodeList(f: ListField): string {
    match f
    case Items(xs) => Join(xs, ListSep)
    case Text(t) => t
    case Scalar(r) => r
  }

  /** Reading a list field back: split on ", " when present and non-empty,
      otherwise the empty list. */
  function DecodeList(v: Option<string>): seq<string> {
    if v.Some? && v.value != [] then Split(v.value, ListSep) else []
  }

  /** `", ".join(field)` inside the paper text: a string is joined
      character by character, and any other scalar raises (`None`). */
  function JoinForText(f: ListField): Option<string> {
    match f
    case Items(xs) => Some(Join(xs, ListSep))
    case Text(t) => Some(Join(seq(|t|, i requires 0 <= i < |t| => [t[i]]), ListSep))
    case Scalar(_) => None
  }

  /** The content kept in the paper text: unchanged up to the limit, and
      otherwise its first `maxLen` characters followed by "...". */
  function TruncateContent(content: string, maxLen: nat): (r: string)
    ensures |content| <= maxLen ==> r == content
    ensures |content| > maxLen ==> |r| == maxLen + 3 && StartsWith(r, content[..maxLen]) && EndsWith(r, "...")
    ensures |r| <= maxLen + 3
  {
    if |content| <= maxLen then content else content[..maxLen] + "..."
  }

  /** The indentation around the paper text's lines. */
  const Indent: string := "\n        "

  /** `_format_paper_for_storage`; `None` when joining the authors or the
      categories raises. The stripped text opens with the title line and,
      unless the kept content is empty or ends in whitespace, closes with
      the "Key Content" line holding the (truncated) content. */
  function FormatPaperForStorage(paper: PaperData, maxLen: nat): (r: Option<string>)
    ensures r.Some? <==> JoinForText(paper.authors.GetOr(Items([]))).Some? && JoinForText(paper.categories.GetOr(Items([]))).Some?
    ensures r.Some? ==> StartsWith(r.value, "Title: " + paper.title.GetOr("Unknown Title"))
    ensures var kept := TruncateContent(paper.content.GetOr(""), maxLen);
      r.Some? && kept != [] && !IsSpace(kept[|kept| - 1]) ==> EndsWith(r.value, "Key Content: " + kept)
  {
    var authors := JoinForText(paper.authors.GetOr(Items([])));
    var categories := JoinForText(paper.categories.GetOr(Items([])));
    if authors.None? || categories.None? then None
    else
      var truncated := TruncateContent(paper.content.GetOr(""), maxLen);
      var title := "Title: " + paper.title.GetOr("Unknown Title");
      var fields :=
        "\n\n        Authors: " + authors.value
        + "\n\n        ArXiv ID: " + paper.paperId.GetOr("")
        + "\n\n        Categories: " + categories.value
        + "\n\n        Abstract: " + paper.abstractText.GetOr("")
        + "\n\n        ";
      var last := "Key Content: " + truncated;
      var text := Strip(Indent + (title + fields + last) + Indent);
      assert fields[10] == 'A';
      assert truncated != [] ==> last[|last| - 1] == truncated[|truncated| - 1];
      StrippedText(title, fields, last, 10);
      Some(text)
  }

  /** The stripped, indented text keeps its first line whole, and its
      last line whole when that line ends in a non-space character. */
  lemma StrippedText(head: string, mid: string, tail: string, j: nat)
    requires head != [] && !IsSpace(head[0])
    requires j < |mid| && !IsSpace(mid[j])
    ensures var text := Strip(Indent + (head + mid + tail) + Indent);
      && StartsWith(text, head)
      && (tail != [] && !IsSpace(tail[|tail| - 1]) ==> EndsWith(text, tail))
  {
    var core := head + mid + tail;
    assert AllSpace(Indent);
    StripIndented(Indent, core);
    assert core == head + (mid + tail);
    assert (mid + tail)[j] == mid[j];
    TrimEndAfter(head, mid + tail, j);
    assert (head + TrimEnd(mid + tail))[..|head|] == head;
    if tail != [] && !IsSpace(tail[|tail| - 1]) {
      assert TrimEnd(core) == core;
    }
  }

  /** The metadata stored with a paper. */
  function PaperMetadata(paper: PaperData, now: string): (md: map<string, string>)
    ensures md.Keys == {"type", "arxiv_id", "title", "published", "added_date", "authors", "categories"}
    ensures md["type"] == "research_paper" && md["added_date"] == now
    ensures md["arxiv_id"] == paper.paperId.GetOr("") && md["title"] == paper.title.GetOr("")
    ensures md["published"] == paper.published.GetOr("")
    ensures md["authors"] == EncodeList(paper.authors.GetOr(Items([])))
    ensures md["categories"] == EncodeList(paper.categories.GetOr(Items([])))
  {
    map[
      "type" := "research_paper",
      "arxiv_id" := paper.paperId.GetOr(""),
      "title" := paper.title.GetOr(""),
      "published" := paper.published.GetOr(""),
      "added_date" := now,
      "authors" := EncodeList(paper.authors.GetOr(Items([]))),
      "categories" := EncodeList(paper.categories.GetOr(Items([])))]
  }

  /** `add_research_paper`: `False` without a store, when formatting
      raises or when the store raises; `True` once the store accepted the
      text and metadata. */
  function AddResearchPaper(m: Manager, sv: Services, paper: PaperData): (r: AddOutcome)
    ensures m.memory.None? ==> r == AddOutcome(false, None)
    ensures r.ok ==> r.written.Some? && r.written.value.metadata == PaperMetadata(paper, sv.now)
    ensures r.written.Some? <==> m.memory.Some? && FormatPaperForStorage(paper, m.maxContentLength).Some?
    ensures r.written.Some? ==> FormatPaperForStorage(paper, m.maxContentLength) == Some(r.written.value.text)
    ensures r.ok <==> m.memory.Some? && r.written.Some? && m.memory.value.add(r.written.value.text, r.written.value.metadata).Pass?
  {
    if m.memory.None? then AddOutcome(false, None)
    else
      var text := FormatPaperForStorage(paper, m.maxContentLength);
      if text.None? then AddOutcome(false, None)
      else
        var md := PaperMetadata(paper, sv.now);
        AddOutcome(m.memory.value.add(text.value, md).Pass?, Some(Written(text.value, md)))
  }

  // ---------------------------------------------------------------------
  // Writing: add_research_insight

  const CtxPrefix: string := "context_"

  /** `str(v)` for primitives, "None" for `None`, JSON text otherwise. */
  function Render(v: CtxValue): string {
    match v
    case Str(s) => s
    case Int(i) => IntToString(i)
    case Float(t) => t
    case Bool(b) => if b then "True" else "False"
    case Null => "None"
    case Structured(j) => j
  }

  /** The metadata key under which context key `k` is stored. */
  function Prefixed(k: string): (fk: string)
    ensures StartsWith(fk, CtxPrefix) && fk[|CtxPrefix|..] == k
  {
    CtxPrefix + k
  }

  /** Every key that starts with the prefix is the prefixed form of its
      remainder. */
  lemma PrefixedOnto(fk: string)
    requires StartsWith(fk, CtxPrefix)
    ensures fk == Prefixed(fk[|CtxPrefix|..])
  {
  }

  /** Each context value as the string stored for it. */
  function Rendered(context: Context): (rendered: map<string, string>)
    ensures rendered.Keys == context.Keys
    ensures forall k :: k in context ==> rendered[k] == Render(context[k])
  {
    map k | k in context :: Render(context[k])
  }

  /** The same entries under prefixed keys. */
  function PrefixKeys(m: map<string, string>): (flat: map<string, string>)
    ensures forall k :: k in m ==> Prefixed(k) in flat && flat[Prefixed(k)] == m[k]
    ensures forall fk :: fk in flat ==> StartsWith(fk, CtxPrefix) && fk[|CtxPrefix|..] in m
  {
    map fk | fk in (set k | k in m :: Prefixed(k)) :: m[fk[|CtxPrefix|..]]
  }

  /** The flattened context: key k stored under "context_" + k. */
  function FlatContext(context: Context): (flat: map<string, string>)
    ensures forall k :: k in context ==> Prefixed(k) in flat && flat[Prefixed(k)] == Render(context[k])
    ensures forall fk :: fk in flat ==> StartsWith(fk, CtxPrefix) && fk[|CtxPrefix|..] in context
  {
    PrefixKeys(Rendered(context))
  }

  /** The part of `m` whose keys are in `done`. */
  function Restrict(m: map<string, string>, done: set<string>): (r: map<string, string>)
    ensures r.Keys == m.Keys * done
    ensures forall k :: k in r ==> r[k] == m[k]
  {
    map k | k in m && k in done :: m[k]
  }

  function InsightBase(topic: string, now: string): map<string, string> {
    map["type" := "research_insight", "topic" := topic, "added_date" := now]
  }

  /** The metadata stored with an insight. It always carries the insight
      type, the topic and the date, which no context key can overwrite, and
      one string entry per context key. */
  function InsightMetadata(topic: string, now: string, context: Context): (md: map<string, string>)
    ensures "type" in md && md["type"] == "research_insight"
    ensures "topic" in md && md["topic"] == topic
    ensures "added_date" in md && md["added_date"] == now
    ensures forall k :: k in context ==> Prefixed(k) in md && md[Prefixed(k)] == Render(context[k])
    ensures forall fk :: fk in md ==> fk in InsightBase(topic, now) || (StartsWith(fk, CtxPrefix) && fk[|CtxPrefix|..] in context)
  {
    var flat := FlatContext(context);
    assert "added_date"[0] != CtxPrefix[0];
    assert !StartsWith("type", CtxPrefix) && !StartsWith("topic", CtxPrefix) && !StartsWith("added_date", CtxPrefix);
    InsightBase(topic, now) + flat
  }

  /** The stored text of an insight: the insight on its topic, followed by
      the dumped context when there is one. */
  function InsightText(topic: string, insight: string, context: Context, dump: Context -> string): (t: string)
    ensures StartsWith(t, "Research insight on " + topic + ": " + insight)
    ensures context == map[] ==> t == "Research insight on " + topic + ": " + insight
    ensures context != map[] ==> EndsWith(t, "\n\nContext: " + dump(context))
  {
    var text := "Research insight on " + topic + ": " + insight;
    if context == map[] then text else text + "\n\nContext: " + dump(context)
  }

  function AddInsightResult(m: Manager, sv: Services, insight: string, topic: string, context: Context): (r: AddOutcome)
    ensures m.memory.None? ==> r == AddOutcome(false, None)
    ensures m.memory.Some? ==> r.written.Some? && r.written.value.metadata == InsightMetadata(topic, sv.now, context)
    ensures m.memory.Some? ==> r.written.value.text == InsightText(topic, insight, context, sv.dumpContext)
    ensures r.ok <==> m.memory.Some? && m.memory.value.add(r.written.value.text, r.written.value.metadata).Pass?
  {
    if m.memory.None? then AddOutcome(false, None)
    else
      var text := InsightText(topic, insight, context, sv.dumpContext);
      var md := InsightMetadata(topic, sv.now, context);
      AddOutcome(m.memory.value.add(text, md).Pass?, Some(Written(text, md)))
  }

  /** The loop of `add_research_insight` that copies each (rendered)
      context entry into the metadata under its prefixed key. */
  method FlattenInto(base: map<string, string>, rendered: map<string, string>) returns (metadata: map<string, string>)
    ensures metadata == base + PrefixKeys(rendered)
  {
    metadata := base;
    var pending := rendered.Keys;
    FlattenNothing(base, rendered);
    while pending != {}
      invariant pending <= rendered.Keys
      invariant metadata == base + PrefixKeys(Restrict(rendered, rendered.Keys - pending))
      decreases pending
    {
      var key :| key in pending;
      FlattenStep(base, rendered, pending, key);
      metadata := metadata[Prefixed(key) := rendered[key]];
      pending := pending - {key};
    }
    FlattenAll(base, rendered, pending);
  }

  lemma FlattenNothing(base: map<string, string>, m: map<string, string>)
    ensures base + PrefixKeys(Restrict(m, m.Keys - m.Keys)) == base
  {
    assert Restrict(m, m.Keys - m.Keys) == map[];
    assert PrefixKeys(map[]) == map[];
  }

  lemma FlattenAll(base: map<string, string>, m: map<string, string>, pending: set<string>)
    requires pending == {}
    ensures base + PrefixKeys(Restrict(m, m.Keys - pending)) == base + PrefixKeys(m)
  {
    assert m.Keys - pending == m.Keys;
    assert Restrict(m, m.Keys) == m;
  }

  /** `add_research_insight`. */
  method AddResearchInsight(m: Manager, sv: Services, insight: string, topic: string, context: Context)
    returns (r: AddOutcome)
    ensures r == AddInsightResult(m, sv, insight, topic, context)
  {
    if m.memory.None? {
      return AddOutcome(false, None);
    }
    var text := "Research insight on " + topic + ": " + insight;
    var metadata := InsightBase(topic, sv.now);
    if context != map[] {
      text := text + "\n\nContext: " + sv.dumpContext(context);
      metadata := FlattenInto(metadata, Rendered(context));
    } else {
      assert FlatContext(context) == map[];
    }
    assert text == InsightText(topic, insight, context, sv.dumpContext);
    assert metadata == InsightMetadata(topic, sv.now, context);
    r := AddOutcome(m.memory.value.add(text, metadata).Pass?, Some(Written(text, metadata)));
  }

  /** One turn of the flattening loop: copying one more pending key. */
  lemma FlattenStep(base: map<string, string>, m: map<string, string>, pending: set<string>, key: string)
    requires key in pending && pending <= m.Keys
    ensures (base + PrefixKeys(Restrict(m, m.Keys - pending)))[Prefixed(key) := m[key]]
         == base + PrefixKeys(Restrict(m, m.Keys - (pending - {key})))
  {
    var done := m.Keys - pending;
    assert m.Keys - (pending - {key}) == done + {key};
    PrefixKeysGrows(m, done, key);
    UpdateMerge(base, PrefixKeys(Restrict(m, done)), Prefixed(key), m[key]);
  }

  lemma UpdateMerge(base: map<string, string>, a: map<string, string>, k: string, v: string)
    ensures (base + a)[k := v] == base + a[k := v]
  {
  }

  /** Flattening one more key adds exactly its prefixed entry. */
  lemma PrefixKeysGrows(m: map<string, string>, done: set<string>, key: string)
    requires key in m && key !in done
    ensures PrefixKeys(Restrict(m, done + {key})) == PrefixKeys(Restrict(m, done))[Prefixed(key) := m[key]]
  {
    var small := Restrict(m, done);
    var large := Restrict(m, done + {key});
    var rhs := PrefixKeys(small)[Prefixed(key) := m[key]];
    forall k | k in large ensures Prefixed(k) in rhs && rhs[Prefixed(k)] == large[k] {
      if k != key {
        assert k in small;
      }
    }
    PrefixKeysUnique(large, rhs);
  }

  /** The two contracts of `PrefixKeys` pin its result down. */
  lemma PrefixKeysUnique(m: map<string, string>, f: map<string, string>)
    requires forall k :: k in m ==> Prefixed(k) in f && f[Prefixed(k)] == m[k]
    requires forall fk :: fk in f ==> StartsWith(fk, CtxPrefix) && fk[|CtxPrefix|..] in m
    ensures f == PrefixKeys(m)
  {
    var g := PrefixKeys(m);
    forall fk | fk in f ensures fk in g && g[fk] == f[fk] {
      PrefixedOnto(fk);
    }
    forall fk | fk in g ensures fk in f {
      PrefixedOnto(fk);
    }
  }

  // ---------------------------------------------------------------------
  // Lists stored as ", "-joined strings

  /** A list of authors or categories written by `add_research_paper` is
      read back unchanged by `get_related_papers`, provided no item
      contains ", " and the list is not `[""]` (whose join is empty and
      reads back as `[]`). */
  lemma ListFieldRoundTrip(xs: seq<string>)
    requires xs != [[]]
    requires forall i :: 0 <= i < |xs| ==> !Contains(xs[i], ListSep)
    ensures DecodeList(Some(EncodeList(Items(xs)))) == xs
  {
    JoinEmpty(xs, ListSep);
    if xs != [] {
      assert HeadUnique(ListSep);
      forall i | 0 <= i < |xs|
        ensures CleanItem(xs[i], ListSep)
      {
        CleanWithoutHeadUnique(xs[i], ListSep);
      }
      SplitJoin(xs, ListSep);
    }
  }

  /** A missing or empty metadata value reads back as the empty list. */
  lemma DecodeListEmpty(v: Option<string>)
    ensures DecodeList(v) == [] <==> v.None? || v.value == []
  {
    if v.Some? && v.value != [] {
      assert |Split(v.value, ListSep)| >= 1;
    }
  }

  // ---------------------------------------------------------------------
  // search_knowledge

  /** A formatted search result. */
  datatype Knowledge = Knowledge(content: string, metadata: Metadata, relevanceScore: real, id: string)

  function FormatHit(h: Hit): (k: Knowledge)
    ensures h.DictHit? ==> k.content == h.record.memory.GetOr("") && k.metadata == h.record.metadata
    ensures !h.DictHit? ==> k == Knowledge(h.text, [], 0.0, "")
  {
    match h
    case DictHit(rec) => Knowledge(rec.memory.GetOr(""), rec.metadata, rec.score.GetOr(0.0), rec.id.GetOr(""))
    case StrHit(text, _) => Knowledge(text, [], 0.0, "")
    case OtherHit(text) => Knowledge(text, [], 0.0, "")
  }

  /** What `search_knowledge` answers: nothing without a store or when the
      store raises, and otherwise one formatted result per hit, in order. */
  function SearchKnowledgeSpec(m: Manager, query: string, limit: int): (r: seq<Knowledge>)
    ensures m.memory.None? ==> r == []
    ensures m.memory.Some? && m.memory.value.search(query, limit).SearchRaised? ==> r == []
    ensures m.memory.Some? && m.memory.value.search(query, limit).Hits? ==>
      var hits := m.memory.value.search(query, limit).hits;
      |r| == |hits| && forall i :: 0 <= i < |hits| ==> r[i] == FormatHit(hits[i])
  {
    if m.memory.None? then []
    else match m.memory.value.search(query, limit)
      case SearchRaised(_) => []
      case Hits(hits) => seq(|hits|, i requires 0 <= i < |hits| => FormatHit(hits[i]))
  }

  method SearchKnowledge(m: Manager, query: string, limit: int) returns (r: seq<Knowledge>)
    ensures r == SearchKnowledgeSpec(m, query, limit)
  {
    if m.memory.None? {
      return [];
    }
    var answer := m.memory.value.search(query, limit);
    if answer.SearchRaised? {
      return [];
    }
    var formatted: seq<Knowledge> := [];
    for i := 0 to |answer.hits|
      invariant |formatted| == i
      invariant forall j :: 0 <= j < i ==> formatted[j] == FormatHit(answer.hits[j])
    {
      formatted := formatted + [FormatHit(answer.hits[i])];
    }
    r := formatted;
  }

  // ---------------------------------------------------------------------
  // Reading records back

  /** How the readers of `get_related_papers` and `get_research_insights`
      treat one hit: a dictionary (given or decoded from a JSON string) is
      read; a string that is not JSON, or a value of another type, raises
      `ValueError`, which skips it; a JSON string that decodes to a
      non-dictionary fails on `.get` with an error that aborts the whole
      operation. */
  datatype Reading = Read(record: Record) | Skipped | Aborted

  function ReadHit(h: Hit): (r: Reading)
    ensures r.Aborted? <==> h.StrHit? && h.decoded.JsonOther?
    ensures h.DictHit? ==> r == Read(h.record)
  {
    match h
    case DictHit(rec) => Read(rec)
    case StrHit(_, NotJson) => Skipped
    case StrHit(_, JsonObject(rec)) => Read(rec)
    case StrHit(_, JsonOther) => Aborted
    case OtherHit(_) => Skipped
  }

  predicate AbortsAt(hits: seq<Hit>, i: int) {
    0 <= i < |hits| && ReadHit(hits[i]).Aborted?
  }

  /** The values `pick` selects from the records read off `hits`, in
      order; `None` when some hit aborts. */
  function Collect<T>(hits: seq<Hit>, pick: Record -> Option<T>): (r: Option<seq<T>>)
    ensures r.None? <==> exists i :: AbortsAt(hits, i)
    ensures r.Some? ==> |r.value| <= |hits|
    ensures r.Some? ==> forall x :: x in r.value ==> exists i :: 0 <= i < |hits| && ReadHit(hits[i]).Read? && pick(ReadHit(hits[i]).record) == Some(x)
  {
    if hits == [] then Some([])
    else
      var init := hits[..|hits| - 1];
      var last := hits[|hits| - 1];
      var before := Collect(init, pick);
      assert forall i :: AbortsAt(init, i) ==> AbortsAt(hits, i);
      assert forall i :: AbortsAt(hits, i) && i < |hits| - 1 ==> AbortsAt(init, i);
      if before.None? then None
      else match ReadHit(last)
        case Aborted => assert AbortsAt(hits, |hits| - 1); None
        case Skipped => Some(before.value)
        case Read(rec) =>
          if pick(rec).Some? then
            assert ReadHit(hits[|hits| - 1]).Read?;
            Some(before.value + [pick(rec).value])
          else Some(before.value)
  }

  /** Collecting over a concatenation collects each part in turn, and
      fails when either part does. */
  lemma {:induction false} CollectAppend<T>(a: seq<Hit>, b: seq<Hit>, pick: Record -> Option<T>)
    ensures Collect(a + b, pick) ==
      if Collect(a, pick).Some? && Collect(b, pick).Some? then Some(Collect(a, pick).value + Collect(b, pick).value) else None
    decreases |b|
  {
    if b == [] {
      assert a + b == a;
      assert Collect(b, pick) == Some([]);
      if Collect(a, pick).Some? {
        assert Collect(a, pick).value + [] == Collect(a, pick).value;
      }
    } else {
      var init := b[..|b| - 1];
      assert (a + b)[..|a + b| - 1] == a + init;
      assert (a + b)[|a + b| - 1] == b[|b| - 1];
      CollectAppend(a, init, pick);
      if Collect(a, pick).Some? && Collect(b, pick).Some? {
        var x := Collect(a, pick).value;
        var y := Collect(init, pick).value;
        match ReadHit(b[|b| - 1])
        case Aborted =>
        case Skipped =>
        case Read(rec) =>
          if pick(rec).Some? {
            assert x + y + [pick(rec).value] == x + (y + [pick(rec).value]);
          }
      }
    }
  }

  /** One hit: aborts, contributes nothing, or contributes what `pick`
      selects from its record. */
  lemma CollectOne<T>(h: Hit, pick: Record -> Option<T>)
    ensures Collect([h], pick) ==
      match ReadHit(h)
      case Aborted => None
      case Skipped => Some([])
      case Read(rec) => Some(if pick(rec).Some? then [pick(rec).value] else [])
  {
    var hits := [h];
    assert hits[..0] == [] && hits[0] == h;
    assert Collect(hits[..0], pick) == Some([]);
    match ReadHit(h)
    case Aborted =>
    case Skipped =>
    case Read(rec) =>
      assert hits[|hits| - 1] == h;
      if pick(rec).Some? {
        var x: seq<T> := [];
        assert Collect(hits, pick) == Some(x + [pick(rec).value]);
        assert x + [pick(rec).value] == [pick(rec).value];
      } else {
        assert Collect(hits, pick) == Some(Collect(hits[..0], pick).value);
      }
  }

  /** Every value `pick` selects is collected, after the values selected
      from the hits before it. */
  lemma CollectPicksEvery<T>(hits: seq<Hit>, pick: Record -> Option<T>, i: nat)
    requires i < |hits| && Collect(hits, pick).Some?
    requires ReadHit(hits[i]).Read? && pick(ReadHit(hits[i]).record).Some?
    ensures Collect(hits[..i], pick).Some?
    ensures var k := |Collect(hits[..i], pick).value|;
      k < |Collect(hits, pick).value| && Collect(hits, pick).value[k] == pick(ReadHit(hits[i]).record).value
  {
    assert hits == hits[..i] + [hits[i]] + hits[i + 1..];
    CollectAppend(hits[..i] + [hits[i]], hits[i + 1..], pick);
    CollectAppend(hits[..i], [hits[i]], pick);
    CollectOne(hits[i], pick);
  }

  // ---------------------------------------------------------------------
  // get_related_papers

  const PaperSource: string := "knowledge_graph"
  const ArxivSource: string := "arxiv_search"

  datatype RelatedPaper = RelatedPaper(
    title: string,
    authors: seq<string>,
    arxivId: string,
    categories: seq<string>,
    relevanceScore: real,
    content: string,
    source: string)

  /** A stored record, when it is a paper. */
  function StorePaper(rec: Record): (r: Option<RelatedPaper>)
    ensures r.Some? <==> Get(rec.metadata, "type") == Some("research_paper")
    ensures r.Some? ==> r.value.source == PaperSource
    ensures r.Some? ==> r.value.authors == DecodeList(Get(rec.metadata, "authors"))
    ensures r.Some? ==> r.value.categories == DecodeList(Get(rec.metadata, "categories"))
    ensures r.Some? ==>
      && r.value.title == Get(rec.metadata, "title").GetOr("")
      && r.value.arxivId == Get(rec.metadata, "arxiv_id").GetOr("")
      && r.value.content == rec.memory.GetOr("")
      && r.value.relevanceScore == rec.score.GetOr(0.0)
  {
    var md := rec.metadata;
    if Get(md, "type") == Some("research_paper") then
      Some(RelatedPaper(
        Get(md, "title").GetOr(""),
        DecodeList(Get(md, "authors")),
        Get(md, "arxiv_id").GetOr(""),
        DecodeList(Get(md, "categories")),
        rec.score.GetOr(0.0),
        rec.memory.GetOr(""),
        PaperSource))
    else None
  }

  /** A key of metadata enumerating `m` is read as its entry in `m`. */
  lemma {:induction false} GetEnumerated(md: Metadata, m: map<string, string>, k: string)
    requires forall i :: 0 <= i < |md| ==> md[i].0 in m && md[i].1 == m[md[i].0]
    requires k in KeysOf(md)
    ensures k in m && Get(md, k) == Some(m[k])
    decreases |md|
  {
    var last := md[|md| - 1];
    if last.0 != k {
      KeysOfSnoc(md);
      var init := md[..|md| - 1];
      assert forall i :: 0 <= i < |init| ==> init[i] == md[i];
      GetEnumerated(init, m, k);
    }
  }

  /** A paper written by `add_research_paper` and handed back by the store
      is read as a related paper with its title, id, and (for lists free of
      ", " and other than `[""]`) its authors and categories. */
  lemma PaperRoundTrip(rec: Record, paper: PaperData, now: string, authors: seq<string>, categories: seq<string>)
    requires Enumerates(rec.metadata, PaperMetadata(paper, now))
    requires paper.authors == Some(Items(authors)) && paper.categories == Some(Items(categories))
    requires authors != [[]] && forall i :: 0 <= i < |authors| ==> !Contains(authors[i], ListSep)
    requires categories != [[]] && forall i :: 0 <= i < |categories| ==> !Contains(categories[i], ListSep)
    ensures var r := StorePaper(rec);
      && r.Some?
      && r.value.title == paper.title.GetOr("") && r.value.arxivId == paper.paperId.GetOr("")
      && r.value.authors == authors && r.value.categories == categories
  {
    var md := PaperMetadata(paper, now);
    forall k | k in md
      ensures Get(rec.metadata, k) == Some(md[k])
    {
      GetEnumerated(rec.metadata, md, k);
    }
    ListFieldRoundTrip(authors);
    ListFieldRoundTrip(categories);
  }

  function ArxivPaper(e: ArxivClient.Entry): (p: RelatedPaper)
    ensures p.source == ArxivSource && p.relevanceScore == 1.0
  {
    RelatedPaper(e.title, e.authors, ArxivClient.ArxivId(e.entryId), e.categories, 1.0, e.summary, ArxivSource)
  }

  /** The arXiv papers appended when the store has too few: none without
      the library; otherwise every entry the search yields, including
      those yielded before it raised. */
  function Backfill(topic: string, wanted: int, lib: ArxivClient.Library): (r: seq<RelatedPaper>)
    ensures !lib.installed ==> r == []
    ensures lib.installed ==> |r| == |lib.search(topic, wanted).entries|
    ensures forall p :: p in r ==> p.source == ArxivSource
  {
    if !lib.installed then []
    else
      var entries := lib.search(topic, wanted).entries;
      seq(|entries|, i requires 0 <= i < |entries| => ArxivPaper(entries[i]))
  }

  /** The backfilled papers are the arXiv papers of the search entries,
      one for one and in order. */
  lemma BackfillEntry(topic: string, wanted: int, lib: ArxivClient.Library, i: nat)
    requires lib.installed && i < |lib.search(topic, wanted).entries|
    ensures i < |Backfill(topic, wanted, lib)|
    ensures Backfill(topic, wanted, lib)[i] == ArxivPaper(lib.search(topic, wanted).entries[i])
  {
  }

  function PapersQuery(topic: string): string {
    "research papers about " + topic
  }

  /** The papers `get_related_papers` finds in the store: `None` when
      there is no store, the store raises, or a hit aborts. */
  function StoredPapers(m: Manager, topic: string, limit: int): (r: Option<seq<RelatedPaper>>)
    ensures m.memory.None? ==> r.None?
    ensures r.Some? ==> forall p :: p in r.value ==> p.source == PaperSource
    ensures m.memory.Some? && m.memory.value.search(PapersQuery(topic), limit).SearchRaised? ==> r.None?
    ensures m.memory.Some? && m.memory.value.search(PapersQuery(topic), limit).Hits? ==>
      r == Collect(m.memory.value.search(PapersQuery(topic), limit).hits, StorePaper)
  {
    if m.memory.None? then None
    else match m.memory.value.search(PapersQuery(topic), limit)
      case SearchRaised(_) => None
      case Hits(hits) => Collect(hits, StorePaper)
  }

  /** What `get_related_papers` answers. `None` is the value it returns
      when the store alone already yields `limit` papers or more: that
      path reaches the end of the method without a `return`. */
  function RelatedPapers(m: Manager, lib: ArxivClient.Library, topic: string, limit: int): (r: Option<seq<RelatedPaper>>)
    ensures m.memory.None? ==> r == Some([])
    ensures r.None? <==> StoredPapers(m, topic, limit).Some? && |StoredPapers(m, topic, limit).value| >= limit
    ensures StoredPapers(m, topic, limit).None? ==> r == Some([])
    ensures r.Some? ==> |r.value| <= limit || r.value == []
  {
    var stored := StoredPapers(m, topic, limit);
    if stored.None? then Some([])
    else
      var papers := stored.value;
      if |papers| < limit then Some(Merged(papers, Backfill(topic, limit - |papers|, lib), limit))
      else None
  }

  /** Store papers followed by arXiv papers, cut at `limit`. */
  function Merged(stored: seq<RelatedPaper>, extra: seq<RelatedPaper>, limit: int): seq<RelatedPaper>
    requires 0 <= limit
  {
    var all := stored + extra;
    all[..ArxivClient.Min(limit, |all|)]
  }

  lemma {:induction false} MergedStoreFirst(stored: seq<RelatedPaper>, extra: seq<RelatedPaper>, limit: int)
    requires |stored| < limit
    requires forall p :: p in stored ==> p.source == PaperSource
    requires forall p :: p in extra ==> p.source == ArxivSource
    ensures var r := Merged(stored, extra, limit);
      && |stored| <= |r| <= limit
      && |r| == ArxivClient.Min(limit, |stored| + |extra|)
      && r[..|stored|] == stored
      && (forall i :: 0 <= i < |stored| ==> r[i].source == PaperSource)
      && (forall i :: |stored| <= i < |r| ==> r[i].source == ArxivSource)
  {
    var r := Merged(stored, extra, limit);
    forall i | |stored| <= i < |r|
      ensures r[i].source == ArxivSource
    {
      assert r[i] == extra[i - |stored|];
    }
    forall i | 0 <= i < |stored|
      ensures r[i].source == PaperSource
    {
      assert r[i] == stored[i];
    }
  }

  /** When the store yields fewer than `limit` papers, the answer lists
      those papers first, in store order, and arXiv papers after them, and
      holds `limit` papers when arXiv has enough. */
  lemma RelatedPapersStoreFirst(m: Manager, lib: ArxivClient.Library, topic: string, limit: int)
    requires StoredPapers(m, topic, limit).Some? && |StoredPapers(m, topic, limit).value| < limit
    ensures var stored := StoredPapers(m, topic, limit).value;
      var extra := Backfill(topic, limit - |stored|, lib);
      var r := RelatedPapers(m, lib, topic, limit);
      && r.Some?
      && |r.value| == ArxivClient.Min(limit, |stored| + |extra|)
      && r.value[..|stored|] == stored
      && (forall i :: 0 <= i < |stored| ==> r.value[i].source == PaperSource)
      && (forall i :: |stored| <= i < |r.value| ==> r.value[i].source == ArxivSource)
  {
    var stored := StoredPapers(m, topic, limit).value;
    var extra := Backfill(topic, limit - |stored|, lib);
    assert RelatedPapers(m, lib, topic, limit) == Some(Merged(stored, extra, limit));
    MergedStoreFirst(stored, extra, limit);
  }

  /** Five papers asked for, three in the store and at least two more on
      arXiv: the answer holds exactly five, the three stored ones first. */
  lemma RelatedPapersFillsToLimit(m: Manager, lib: ArxivClient.Library, topic: string)
    requires StoredPapers(m, topic, 5).Some? && |StoredPapers(m, topic, 5).value| == 3
    requires lib.installed && |lib.search(topic, 2).entries| >= 2
    ensures var r := RelatedPapers(m, lib, topic, 5);
      r.Some? && |r.value| == 5 && r.value[..3] == StoredPapers(m, topic, 5).value
  {
    RelatedPapersStoreFirst(m, lib, topic, 5);
  }

  /** `get_related_papers`, accumulating the list over two loops. */
  method GetRelatedPapers(m: Manager, lib: ArxivClient.Library, topic: string, limit: int)
    returns (r: Option<seq<RelatedPaper>>)
    ensures r == RelatedPapers(m, lib, topic, limit)
  {
    var stored := ReadStoredPapers(m, topic, limit);
    if stored.None? {
      return Some([]);
    }
    var papers := stored.value;
    if |papers| < limit {
      var extra := FetchBackfill(topic, limit - |papers|, lib);
      return Some(Merged(papers, extra, limit));
    }
    r := None;
  }

  /** The store side of `get_related_papers`: `None` when there is no
      store, the search raises, or a hit aborts the scan. */
  method ReadStoredPapers(m: Manager, topic: string, limit: int) returns (stored: Option<seq<RelatedPaper>>)
    ensures stored == StoredPapers(m, topic, limit)
  {
    if m.memory.None? {
      return None;
    }
    var answer := m.memory.value.search(PapersQuery(topic), limit);
    if answer.SearchRaised? {
      return None;
    }
    stored := ScanPapers(answer.hits);
  }

  /** The first loop of `get_related_papers`: the papers read off the
      store's hits, or `None` at the first hit that aborts the scan. */
  method ScanPapers(hits: seq<Hit>) returns (r: Option<seq<RelatedPaper>>)
    ensures r == Collect(hits, StorePaper)
  {
    var papers: seq<RelatedPaper> := [];
    for i := 0 to |hits|
      invariant Collect(hits[..i], StorePaper) == Some(papers)
    {
      assert hits[..i + 1][..i] == hits[..i];
      match ReadHit(hits[i]) {
        case Aborted =>
          assert AbortsAt(hits, i);
          return None;
        case Skipped =>
        case Read(rec) =>
          var paper := StorePaper(rec);
          if paper.Some? {
            papers := papers + [paper.value];
          }
      }
    }
    assert hits[..|hits|] == hits;
    r := Some(papers);
  }

  /** The second loop of `get_related_papers`: one arXiv paper per entry
      the search yields. */
  method FetchBackfill(topic: string, wanted: int, lib: ArxivClient.Library) returns (extra: seq<RelatedPaper>)
    ensures extra == Backfill(topic, wanted, lib)
  {
    if !lib.installed {
      return [];
    }
    var entries := lib.search(topic, wanted).entries;
    ghost var all := Backfill(topic, wanted, lib);
    extra := [];
    for i := 0 to |entries|
      invariant extra == all[..i]
    {
      BackfillEntry(topic, wanted, lib, i);
      assert all[..i + 1] == all[..i] + [all[i]];
      extra := extra + [ArxivPaper(entries[i])];
    }
    assert all[..|entries|] == all;
  }

  // ---------------------------------------------------------------------
  // get_research_insights: gathering and de-duplication

  function SearchTerms(topic: string): seq<string> {
    ["Research insight on " + topic, "research insights " + topic, topic + " insights", topic + " findings"]
  }

  /** The per-term search limit `limit // 4 + 2` (floor division; the
      divisor is positive, so Dafny's `/` agrees with Python's `//`). */
  function PerTermLimit(limit: int): int {
    limit / 4 + 2
  }

  /** Every hit of the searches over `terms` that did not raise, term by
      term. */
  function Gathered(mem: Memory, terms: seq<string>, perTerm: int): (hits: seq<Hit>)
    ensures forall h :: h in hits ==> exists t :: t in terms && mem.search(t, perTerm).Hits? && h in mem.search(t, perTerm).hits
  {
    if terms == [] then []
    else
      var last := terms[|terms| - 1];
      var before := Gathered(mem, terms[..|terms| - 1], perTerm);
      match mem.search(last, perTerm)
      case SearchRaised(_) => before
      case Hits(found) => before + found
  }

  /** Gathering over a concatenation of terms gathers each part in turn. */
  lemma {:induction false} GatheredAppend(mem: Memory, a: seq<string>, b: seq<string>, perTerm: int)
    ensures Gathered(mem, a + b, perTerm) == Gathered(mem, a, perTerm) + Gathered(mem, b, perTerm)
    decreases |b|
  {
    if b == [] {
      assert a + b == a;
    } else {
      var init := b[..|b| - 1];
      assert (a + b)[..|a + b| - 1] == a + init;
      assert (a + b)[|a + b| - 1] == b[|b| - 1];
      GatheredAppend(mem, a, init, perTerm);
      var x := Gathered(mem, a, perTerm);
      var y := Gathered(mem, init, perTerm);
      match mem.search(b[|b| - 1], perTerm)
      case SearchRaised(_) =>
      case Hits(found) => assert x + y + found == x + (y + found);
    }
  }

  /** One term contributes every hit of its search, or nothing when the
      search raises. */
  lemma GatheredOne(mem: Memory, t: string, perTerm: int)
    ensures Gathered(mem, [t], perTerm) == match mem.search(t, perTerm) case Hits(found) => found case SearchRaised(_) => []
  {
    assert [t][..0] == [];
  }

  /** The content a hit is de-duplicated on. */
  function HitContent(h: Hit): string {
    match h
    case DictHit(rec) => rec.memory.GetOr("")
    case StrHit(text, _) => text
    case OtherHit(text) => text
  }

  function Contents(hits: seq<Hit>): (cs: seq<string>)
    ensures |cs| == |hits| && forall i :: 0 <= i < |hits| ==> cs[i] == HitContent(hits[i])
  {
    seq(|hits|, i requires 0 <= i < |hits| => HitContent(hits[i]))
  }

  predicate DistinctContents(hits: seq<Hit>) {
    forall i, j :: 0 <= i < j < |hits| ==> HitContent(hits[i]) != HitContent(hits[j])
  }

  /** The de-duplication loop, continuing from the hits `kept` so far:
      the first hit of each content is kept, in order, and the loop stops
      as soon as `limit` hits are kept (after the first kept hit even when
      `limit` is below 1). */
  function Dedup(hits: seq<Hit>, limit: int, kept: seq<Hit>): (r: seq<Hit>)
    decreases |hits|
  {
    if hits == [] then kept
    else if HitContent(hits[0]) in Contents(kept) then Dedup(hits[1..], limit, kept)
    else if |kept + [hits[0]]| >= limit then kept + [hits[0]]
    else Dedup(hits[1..], limit, kept + [hits[0]])
  }

  function Max(a: int, b: int): int {
    if a >= b then a else b
  }

  /** The hits kept extend those kept before, have pairwise distinct
      contents, come from the input, and number at most `max(limit, 1)`. */
  lemma {:induction false} DedupProperties(hits: seq<Hit>, limit: int, kept: seq<Hit>)
    requires DistinctContents(kept) && |kept| < Max(limit, 1)
    ensures var r := Dedup(hits, limit, kept);
      && |kept| <= |r| <= Max(limit, 1)
      && r[..|kept|] == kept
      && DistinctContents(r)
      && forall h :: h in r ==> h in kept || h in hits
    decreases |hits|
  {
    if hits != [] {
      var h := hits[0];
      if HitContent(h) in Contents(kept) {
        DedupProperties(hits[1..], limit, kept);
      } else {
        var next := kept + [h];
        assert DistinctContents(next) by {
          forall i | 0 <= i < |kept|
            ensures HitContent(next[i]) != HitContent(h)
          {
            assert Contents(kept)[i] == HitContent(kept[i]);
          }
        }
        if |next| < limit {
          DedupProperties(hits[1..], limit, next);
          var r := Dedup(hits[1..], limit, next);
          assert r[..|kept|] == r[..|next|][..|kept|];
        }
      }
    }
  }

  /** When the limit is not reached, every content of the input is kept. */
  lemma {:induction false} DedupComplete(hits: seq<Hit>, limit: int, kept: seq<Hit>, i: int)
    requires 0 <= i < |hits|
    requires |Dedup(hits, limit, kept)| < limit
    ensures HitContent(hits[i]) in Contents(Dedup(hits, limit, kept))
    decreases |hits|
  {
    var h := hits[0];
    if HitContent(h) in Contents(kept) {
      if i == 0 {
        DedupKeepsKept(hits[1..], limit, kept);
        KeptContents(Dedup(hits[1..], limit, kept), kept, HitContent(h));
      } else {
        DedupComplete(hits[1..], limit, kept, i - 1);
      }
    } else {
      var next := kept + [h];
      assert |next| < limit;
      if i == 0 {
        DedupKeepsKept(hits[1..], limit, next);
        assert Contents(next)[|kept|] == HitContent(h);
        KeptContents(Dedup(hits[1..], limit, next), next, HitContent(h));
      } else {
        DedupComplete(hits[1..], limit, next, i - 1);
      }
    }
  }

  /** The hits kept so far stay kept. */
  lemma {:induction false} DedupKeepsKept(hits: seq<Hit>, limit: int, kept: seq<Hit>)
    ensures var r := Dedup(hits, limit, kept); |kept| <= |r| && r[..|kept|] == kept
    decreases |hits|
  {
    if hits != [] {
      var next := kept + [hits[0]];
      if HitContent(hits[0]) in Contents(kept) {
        DedupKeepsKept(hits[1..], limit, kept);
      } else if |next| < limit {
        DedupKeepsKept(hits[1..], limit, next);
        var r := Dedup(hits[1..], limit, next);
        assert r[..|kept|] == r[..|next|][..|kept|];
      }
    }
  }

  // The reference the loop is measured against: the first hit of each
  // content, over the whole input.

  function ContentSet(hits: seq<Hit>): set<string> {
    set c | c in Contents(hits)
  }

  /** The first hit of each content outside `seen`, in input order. */
  function Firsts(hits: seq<Hit>, seen: set<string>): seq<Hit>
    decreases |hits|
  {
    if hits == [] then []
    else if HitContent(hits[0]) in seen then Firsts(hits[1..], seen)
    else [hits[0]] + Firsts(hits[1..], seen + {HitContent(hits[0])})
  }

  lemma ContentSetCons(hits: seq<Hit>)
    requires hits != []
    ensures ContentSet(hits) == {HitContent(hits[0])} + ContentSet(hits[1..])
  {
    assert Contents(hits) == [HitContent(hits[0])] + Contents(hits[1..]);
  }

  /** The first occurrences over a concatenation: those of the first part,
      then those of the second part whose content the first part lacks. */
  lemma {:induction false} FirstsAppend(a: seq<Hit>, b: seq<Hit>, seen: set<string>)
    ensures Firsts(a + b, seen) == Firsts(a, seen) + Firsts(b, seen + ContentSet(a))
    decreases |a|
  {
    if a == [] {
      assert a + b == b;
      assert ContentSet(a) == {};
      assert seen + ContentSet(a) == seen;
    } else {
      var c := HitContent(a[0]);
      assert (a + b)[0] == a[0] && (a + b)[1..] == a[1..] + b;
      ContentSetCons(a);
      if c in seen {
        FirstsAppend(a[1..], b, seen);
        assert seen + ContentSet(a[1..]) == seen + ContentSet(a);
      } else {
        FirstsAppend(a[1..], b, seen + {c});
        assert seen + {c} + ContentSet(a[1..]) == seen + ContentSet(a);
      }
    }
  }

  /** One more hit is kept exactly when neither `seen` nor any earlier hit
      has its content. */
  lemma FirstsSnoc(hits: seq<Hit>, h: Hit, seen: set<string>)
    ensures Firsts(hits + [h], seen) ==
      Firsts(hits, seen) + if HitContent(h) in seen + ContentSet(hits) then [] else [h]
  {
    FirstsAppend(hits, [h], seen);
    assert [h][1..] == [];
  }

  /** The first occurrences have distinct contents, and between them every
      content of the input outside `seen`. */
  lemma {:induction false} FirstsContents(hits: seq<Hit>, seen: set<string>)
    ensures DistinctContents(Firsts(hits, seen))
    ensures ContentSet(Firsts(hits, seen)) == ContentSet(hits) - seen
    decreases |hits|
  {
    if hits == [] {
      assert ContentSet(hits) == {};
    } else {
      var c := HitContent(hits[0]);
      ContentSetCons(hits);
      if c in seen {
        FirstsContents(hits[1..], seen);
      } else {
        var rest := Firsts(hits[1..], seen + {c});
        FirstsContents(hits[1..], seen + {c});
        var r := [hits[0]] + rest;
        ContentSetCons(r);
        assert r[1..] == rest;
        forall j | 0 < j < |r|
          ensures HitContent(r[j]) != c
        {
          assert HitContent(rest[j - 1]) in ContentSet(rest) by {
            assert Contents(rest)[j - 1] == HitContent(rest[j - 1]);
          }
        }
      }
    }
  }

  /** The loop keeps the first occurrences over a prefix of its input: the
      whole input when fewer than `max(limit, 1)` hits are kept, and
      otherwise the shortest prefix holding that many distinct contents. */
  lemma {:induction false} DedupScansPrefix(hits: seq<Hit>, limit: int, kept: seq<Hit>) returns (j: nat)
    requires DistinctContents(kept) && |kept| < Max(limit, 1)
    ensures j <= |hits|
    ensures Dedup(hits, limit, kept) == kept + Firsts(hits[..j], ContentSet(kept))
    ensures j < |hits| ==> |Dedup(hits, limit, kept)| == Max(limit, 1)
    decreases |hits|
  {
    if hits == [] {
      j := 0;
      assert kept + [] == kept;
    } else {
      var h := hits[0];
      var c := HitContent(h);
      var next := kept + [h];
      assert Contents(next) == Contents(kept) + [c];
      assert ContentSet(next) == ContentSet(kept) + {c};
      if c in Contents(kept) {
        var j' := DedupScansPrefix(hits[1..], limit, kept);
        j := j' + 1;
        assert hits[..j][0] == h && hits[..j][1..] == hits[1..][..j'];
      } else if |next| >= limit {
        j := 1;
        assert hits[..1] == [h] && [h][1..] == [];
      } else {
        assert DistinctContents(next) by {
          forall i | 0 <= i < |kept|
            ensures HitContent(next[i]) != c
          {
            assert Contents(kept)[i] == HitContent(kept[i]);
          }
        }
        var j' := DedupScansPrefix(hits[1..], limit, next);
        j := j' + 1;
        assert hits[..j][0] == h && hits[..j][1..] == hits[1..][..j'];
      }
    }
  }

  lemma KeptContents(r: seq<Hit>, kept: seq<Hit>, c: string)
    requires |kept| <= |r| && r[..|kept|] == kept && c in Contents(kept)
    ensures c in Contents(r)
  {
    var i :| 0 <= i < |kept| && Contents(kept)[i] == c;
    assert r[i] == kept[i];
    assert Contents(r)[i] == c;
  }

  // ---------------------------------------------------------------------
  // get_research_insights: context reconstruction

  /** The context rebuilt from a record's metadata: every key starting
      with "context_", with every "context_" removed from it, maps to its
      value; a later pair wins over an earlier one. */
  function ContextOf(md: Metadata): (context: map<string, string>)
    ensures forall k :: k in context ==> exists i :: 0 <= i < |md| && StartsWith(md[i].0, CtxPrefix) && RemoveAll(md[i].0, CtxPrefix) == k
  {
    if md == [] then map[]
    else
      var rest := ContextOf(md[..|md| - 1]);
      var (key, value) := md[|md| - 1];
      if StartsWith(key, CtxPrefix) then rest[RemoveAll(key, CtxPrefix) := value] else rest
  }

  /** The context key a "context_" metadata key stands for. */
  function CtxKey(key: string): string {
    RemoveAll(key, CtxPrefix)
  }

  /** Pair `i` carries a context entry that no later pair overrides. */
  predicate LastContextPair(md: Metadata, i: int) {
    && 0 <= i < |md| && StartsWith(md[i].0, CtxPrefix)
    && forall j :: i < j < |md| && StartsWith(md[j].0, CtxPrefix) ==> CtxKey(md[j].0) != CtxKey(md[i].0)
  }

  /** Every "context_" pair that no later pair overrides is in the
      context with its own value: every such key appears, and of two pairs
      for the same context key the later one wins. */
  lemma {:induction false} ContextOfLastWins(md: Metadata, i: int)
    requires LastContextPair(md, i)
    ensures CtxKey(md[i].0) in ContextOf(md) && ContextOf(md)[CtxKey(md[i].0)] == md[i].1
    decreases |md|
  {
    var n := |md| - 1;
    var init := md[..n];
    var rest := ContextOf(init);
    var key := md[n].0;
    var k := CtxKey(md[i].0);
    assert ContextOf(md) == if StartsWith(key, CtxPrefix) then rest[CtxKey(key) := md[n].1] else rest;
    if i < n {
      assert init[i] == md[i];
      assert LastContextPair(init, i) by {
        forall j | i < j < |init| && StartsWith(init[j].0, CtxPrefix)
          ensures CtxKey(init[j].0) != k
        {
          assert init[j] == md[j];
        }
      }
      ContextOfLastWins(init, i);
      assert StartsWith(key, CtxPrefix) ==> CtxKey(key) != k;
    }
  }

  method ReconstructContext(md: Metadata) returns (context: map<string, string>)
    ensures context == ContextOf(md)
  {
    context := map[];
    for i := 0 to |md|
      invariant context == ContextOf(md[..i])
    {
      assert md[..i + 1][..i] == md[..i];
      var (key, value) := md[i];
      if StartsWith(key, CtxPrefix) {
        context := context[RemoveAll(key, CtxPrefix) := value];
      }
    }
    assert md[..|md|] == md;
  }

  /** The keys of a metadata sequence. */
  function KeysOf(md: Metadata): set<string> {
    set i | 0 <= i < |md| :: md[i].0
  }

  /** The pairs of `md` are exactly the entries of the map `m`, in some
      order: what the store hands back for metadata written as `m`. */
  predicate Enumerates(md: Metadata, m: map<string, string>) {
    && (forall i :: 0 <= i < |md| ==> md[i].0 in m && md[i].1 == m[md[i].0])
    && (forall k :: k in m ==> k in KeysOf(md))
  }

  /** The rendered context entries whose prefixed keys are among `keys`. */
  function ContextWithin(context: Context, keys: set<string>): map<string, string> {
    map k | k in context && Prefixed(k) in keys :: Render(context[k])
  }

  lemma BaseKeysUnprefixed(topic: string, now: string, fk: string)
    requires fk in InsightBase(topic, now)
    ensures !StartsWith(fk, CtxPrefix)
  {
    assert "added_date"[0] != CtxPrefix[0];
  }

  lemma KeysOfSnoc(md: Metadata)
    requires md != []
    ensures KeysOf(md) == KeysOf(md[..|md| - 1]) + {md[|md| - 1].0}
  {
    var init := md[..|md| - 1];
    forall fk | fk in KeysOf(md) ensures fk in KeysOf(init) + {md[|md| - 1].0} {
      var i :| 0 <= i < |md| && md[i].0 == fk;
      if i < |init| {
        assert init[i].0 == fk;
      }
    }
    forall fk | fk in KeysOf(init) ensures fk in KeysOf(md) {
      var i :| 0 <= i < |init| && init[i].0 == fk;
      assert md[i].0 == fk;
    }
  }

  /** A prefixed key adds its context entry. */
  lemma ContextWithinPrefixed(context: Context, keys: set<string>, k: string)
    requires k in context
    ensures ContextWithin(context, keys)[k := Render(context[k])] == ContextWithin(context, keys + {Prefixed(k)})
  {
    forall k' | k' in context && Prefixed(k') == Prefixed(k) ensures k' == k {
      assert k' == Prefixed(k')[|CtxPrefix|..];
    }
  }

  /** A key without the prefix adds nothing. */
  lemma ContextWithinUnprefixed(context: Context, keys: set<string>, key: string)
    requires !StartsWith(key, CtxPrefix)
    ensures ContextWithin(context, keys + {key}) == ContextWithin(context, keys)
  {
  }

  /** A prefixed key of an insight's metadata names a context key and holds
      its rendered value, and reconstruction maps it back to that key. */
  lemma InsightMetadataPrefixedKey(topic: string, now: string, context: Context, key: string)
    requires forall k :: k in context ==> !Contains(k, CtxPrefix)
    requires key in InsightMetadata(topic, now, context) && StartsWith(key, CtxPrefix)
    ensures key[|CtxPrefix|..] in context && key == Prefixed(key[|CtxPrefix|..])
    ensures InsightMetadata(topic, now, context)[key] == Render(context[key[|CtxPrefix|..]])
    ensures RemoveAll(key, CtxPrefix) == key[|CtxPrefix|..]
  {
    if key in InsightBase(topic, now) {
      BaseKeysUnprefixed(topic, now, key);
    }
    PrefixedOnto(key);
    RemoveAllAfterPrefix(CtxPrefix, key[|CtxPrefix|..]);
  }

  /** Reconstruction over any part of the metadata written for an insight
      recovers the rendered context entries whose keys that part holds. */
  lemma {:induction false} ContextOfInsightPart(md: Metadata, topic: string, now: string, context: Context)
    requires forall k :: k in context ==> !Contains(k, CtxPrefix)
    requires forall i :: 0 <= i < |md| ==>
      md[i].0 in InsightMetadata(topic, now, context) && md[i].1 == InsightMetadata(topic, now, context)[md[i].0]
    ensures ContextOf(md) == ContextWithin(context, KeysOf(md))
    decreases |md|
  {
    if md != [] {
      var init := md[..|md| - 1];
      var (key, value) := md[|md| - 1];
      assert forall i :: 0 <= i < |init| ==> init[i] == md[i];
      ContextOfInsightPart(init, topic, now, context);
      KeysOfSnoc(md);
      if StartsWith(key, CtxPrefix) {
        InsightMetadataPrefixedKey(topic, now, context, key);
        ContextWithinPrefixed(context, KeysOf(init), key[|CtxPrefix|..]);
      } else {
        ContextWithinUnprefixed(context, KeysOf(init), key);
      }
    }
  }

  /** Flatten-then-reconstruct: the metadata an insight was written with,
      read back in any order, gives back its context with the values
      rendered as strings, provided no context key contains "context_". */
  lemma ContextRoundTrip(md: Metadata, topic: string, now: string, context: Context)
    requires forall k :: k in context ==> !Contains(k, CtxPrefix)
    requires Enumerates(md, InsightMetadata(topic, now, context))
    ensures ContextOf(md) == Rendered(context)
  {
    ContextOfInsightPart(md, topic, now, context);
    assert ContextWithin(context, KeysOf(md)) == Rendered(context);
  }

  // ---------------------------------------------------------------------
  // get_research_insights

  datatype Insight = Insight(
    insight: string,
    topic: string,
    context: map<string, string>,
    relevanceScore: real,
    addedDate: string)

  /** A stored record, when it is an insight. */
  function InsightOf(rec: Record): (r: Option<Insight>)
    ensures r.Some? <==> Get(rec.metadata, "type") == Some("research_insight")
    ensures r.Some? ==> r.value.context == ContextOf(rec.metadata) && r.value.insight == rec.memory.GetOr("")
  {
    var md := rec.metadata;
    if Get(md, "type") == Some("research_insight") then
      Some(Insight(
        rec.memory.GetOr(""),
        Get(md, "topic").GetOr(""),
        ContextOf(md),
        rec.score.GetOr(0.0),
        Get(md, "added_date").GetOr("")))
    else None
  }

  /** The hits that survive de-duplication. */
  function DedupedInsightHits(mem: Memory, topic: string, limit: int): seq<Hit> {
    Dedup(Gathered(mem, SearchTerms(topic), PerTermLimit(limit)), limit, [])
  }

  /** What `get_research_insights` answers: nothing without a store or
      when a kept hit aborts; otherwise the insights among the
      de-duplicated hits, in order. */
  function ResearchInsights(m: Manager, topic: string, limit: int): (r: seq<Insight>)
    ensures m.memory.None? ==> r == []
    ensures |r| <= Max(limit, 1)
  {
    if m.memory.None? then []
    else
      var kept := DedupedInsightHits(m.memory.value, topic, limit);
      DedupProperties(Gathered(m.memory.value, SearchTerms(topic), PerTermLimit(limit)), limit, []);
      var insights := Collect(kept, InsightOf);
      if insights.None? then [] else insights.value
  }

  /** Every insight returned was stored as an insight, and comes from a
      distinct content among the hits of the four searches. */
  lemma ResearchInsightsSound(m: Manager, topic: string, limit: int, x: Insight)
    requires m.memory.Some? && x in ResearchInsights(m, topic, limit)
    ensures var kept := DedupedInsightHits(m.memory.value, topic, limit);
      && DistinctContents(kept)
      && exists i :: 0 <= i < |kept| && ReadHit(kept[i]).Read? && InsightOf(ReadHit(kept[i]).record) == Some(x)
  {
    DedupProperties(Gathered(m.memory.value, SearchTerms(topic), PerTermLimit(limit)), limit, []);
  }

  /** `get_research_insights` answers the insights among the first hit of
      each content, taken over the prefix of the gathered hits that the
      de-duplication scanned, in that order: the whole input unless
      `max(limit, 1)` hits were kept. Nothing when a kept hit aborts. */
  lemma ResearchInsightsOfFirsts(m: Manager, topic: string, limit: int) returns (j: nat)
    requires m.memory.Some?
    ensures j <= |Gathered(m.memory.value, SearchTerms(topic), PerTermLimit(limit))|
    ensures var hits := Gathered(m.memory.value, SearchTerms(topic), PerTermLimit(limit));
      var kept := Firsts(hits[..j], {});
      && DedupedInsightHits(m.memory.value, topic, limit) == kept
      && (j < |hits| ==> |kept| == Max(limit, 1))
      && ResearchInsights(m, topic, limit) == Collect(kept, InsightOf).GetOr([])
  {
    var hits := Gathered(m.memory.value, SearchTerms(topic), PerTermLimit(limit));
    assert ContentSet([]) == {};
    j := DedupScansPrefix(hits, limit, []);
    assert [] + Firsts(hits[..j], {}) == Firsts(hits[..j], {});
  }

  /** The four searches of `get_research_insights`; a search that raises
      contributes nothing. */
  method GatherHits(mem: Memory, terms: seq<string>, perTerm: int) returns (all: seq<Hit>)
    ensures all == Gathered(mem, terms, perTerm)
  {
    all := [];
    for t := 0 to |terms|
      invariant all == Gathered(mem, terms[..t], perTerm)
    {
      assert terms[..t + 1][..t] == terms[..t];
      var answer := mem.search(terms[t], perTerm);
      if answer.Hits? {
        all := all + answer.hits;
      }
    }
    assert terms[..|terms|] == terms;
  }

  /** The de-duplication loop, with its set of seen contents and its early
      exit at `limit`. */
  method DedupHits(all: seq<Hit>, limit: int) returns (results: seq<Hit>)
    ensures results == Dedup(all, limit, [])
  {
    var seen: set<string> := {};
    results := [];
    var i := 0;
    while i < |all|
      invariant 0 <= i <= |all|
      invariant Dedup(all, limit, []) == Dedup(all[i..], limit, results)
      invariant forall c :: c in seen <==> c in Contents(results)
    {
      assert all[i..][1..] == all[i + 1..];
      var content := HitContent(all[i]);
      if content !in seen {
        seen := seen + {content};
        results := results + [all[i]];
        assert Contents(results) == Contents(results[..|results| - 1]) + [content];
        if |results| >= limit {
          return;
        }
      }
      i := i + 1;
    }
  }

  /** The insight filter over the kept hits. */
  method FilterInsights(results: seq<Hit>) returns (insights: Option<seq<Insight>>)
    ensures insights == Collect(results, InsightOf)
  {
    var found: seq<Insight> := [];
    for j := 0 to |results|
      invariant Collect(results[..j], InsightOf) == Some(found)
    {
      assert results[..j + 1][..j] == results[..j];
      match ReadHit(results[j]) {
        case Aborted =>
          assert AbortsAt(results, j);
          return None;
        case Skipped =>
        case Read(rec) =>
          var metadata := rec.metadata;
          if Get(metadata, "type") == Some("research_insight") {
            var context := ReconstructContext(metadata);
            found := found + [Insight(rec.memory.GetOr(""), Get(metadata, "topic").GetOr(""), context,
                                      rec.score.GetOr(0.0), Get(metadata, "added_date").GetOr(""))];
          }
      }
    }
    assert results[..|results|] == results;
    insights := Some(found);
  }

  /** `get_research_insights`. */
  method GetResearchInsights(m: Manager, topic: string, limit: int) returns (r: seq<Insight>)
    ensures r == ResearchInsights(m, topic, limit)
  {
    if m.memory.None? {
      return [];
    }
    var terms := SearchTerms(topic);
    var all := GatherHits(m.memory.value, terms, limit / |terms| + 2);
    var results := DedupHits(all, limit);
    var insights := FilterInsights(results);
    r := if insights.None? then [] else insights.value;
  }

  // ---------------------------------------------------------------------
  // get_knowledge_summary

  const NotInitialized: string := "Knowledge graph not initialized"

  /** CPython's message for `len(None)`. */
  const NoLenOfNone: string := "object of type 'NoneType' has no len()"

  datatype Summary =
    | Summary(
        topic: string,
        relatedPapers: seq<RelatedPaper>,
        researchInsights: seq<Insight>,
        generalKnowledge: seq<Knowledge>,
        totalPapers: int,
        totalInsights: int,
        totalKnowledgeItems: int)
    | SummaryError(error: string)

  /** `get_knowledge_summary`: related papers (limit 5), insights (limit
      10) and general knowledge (limit 10) with their counts. Without a
      store it is the not-initialised error; when the related-papers call
      falls through with `None`, taking its length raises, and the summary
      is that error. */
  function KnowledgeSummary(m: Manager, lib: ArxivClient.Library, topic: string): (r: Summary)
    ensures m.memory.None? ==> r == SummaryError(NotInitialized)
    ensures r.Summary? <==> m.memory.Some? && RelatedPapers(m, lib, topic, 5).Some?
    ensures m.memory.Some? && RelatedPapers(m, lib, topic, 5).None? ==> r == SummaryError(NoLenOfNone)
    ensures r.Summary? ==>
      && r.topic == topic
      && r.totalPapers == |r.relatedPapers| <= 5
      && r.relatedPapers == RelatedPapers(m, lib, topic, 5).value
      && r.totalInsights == |r.researchInsights| <= 10
      && r.totalKnowledgeItems == |r.generalKnowledge|
      && r.researchInsights == ResearchInsights(m, topic, 10)
      && r.generalKnowledge == SearchKnowledgeSpec(m, topic, 10)
  {
    if m.memory.None? then SummaryError(NotInitialized)
    else
      var papers := RelatedPapers(m, lib, topic, 5);
      var insights := ResearchInsights(m, topic, 10);
      var general := SearchKnowledgeSpec(m, topic, 10);
      if papers.None? then SummaryError(NoLenOfNone)
      else Summary(topic, papers.value, insights, general, |papers.value|, |insights|, |general|)
  }

  /** With five or more papers on the topic already in the store, the
      summary is always the `len(None)` error. */
  lemma SummaryFailsWhenStoreFull(m: Manager, lib: ArxivClient.Library, topic: string)
    requires StoredPapers(m, topic, 5).Some? && |StoredPapers(m, topic, 5).value| >= 5
    ensures KnowledgeSummary(m, lib, topic) == SummaryError(NoLenOfNone)
  {
  }

  method GetKnowledgeSummary(m: Manager, lib: ArxivClient.Library, topic: string) returns (r: Summary)
    ensures r == KnowledgeSummary(m, lib, topic)
  {
    if m.memory.None? {
      return SummaryError(NotInitialized);
    }
    var papers := GetRelatedPapers(m, lib, topic, 5);
    var insights := GetResearchInsights(m, topic, 10);
    var general := SearchKnowledge(m, topic, 10);
    if papers.None? {
      return SummaryError(NoLenOfNone);
    }
    r := Summary(topic, papers.value, insights, general, |papers.value|, |insights|, |general|);
  }

  // ---------------------------------------------------------------------
  // delete_memory, update_memory

  /** `delete_memory`: `True` exactly when there is a store and its delete
      call returns normally. */
  function DeleteMemory(m: Manager, memoryId: string): (ok: bool)
    ensures m.memory.None? ==> !ok
    ensures ok <==> m.memory.Some? && m.memory.value.delete(memoryId).Pass?
  {
    m.memory.Some? && m.memory.value.delete(memoryId).Pass?
  }

  /** `update_memory`: `True` exactly when there is a store and its update
      call returns normally. */
  function UpdateMemory(m: Manager, memoryId: string, newContent: string): (ok: bool)
    ensures m.memory.None? ==> !ok
    ensures ok <==> m.memory.Some? && m.memory.value.update(memoryId, newContent).Pass?
  {
    m.memory.Some? && m.memory.value.update(memoryId, newContent).Pass?
  }

  /** Without a store every operation answers its fixed fallback. */
  lemma AbsentStoreDegrades(m: Manager, sv: Services, topic: string, query: string, limit: int, memoryId: string, text: string, paper: PaperData, context: Context)
    requires m.memory.None?
    ensures !AddResearchPaper(m, sv, paper).ok && !AddInsightResult(m, sv, text, topic, context).ok
    ensures SearchKnowledgeSpec(m, query, limit) == [] && ResearchInsights(m, topic, limit) == []
    ensures RelatedPapers(m, sv.library, topic, limit) == Some([])
    ensures KnowledgeSummary(m, sv.library, topic) == SummaryError(NotInitialized)
    ensures !DeleteMemory(m, memoryId) && !UpdateMemory(m, memoryId, text)
  {
  }

  // ---------------------------------------------------------------------
  // get_knowledge_graph_manager

  /** The module-level `_global_manager` cache. */
  class ManagerSlot {
    var manager: Option<Manager>

    constructor()
      ensures manager.None?
    {
      manager := None;
    }

    /** `get_knowledge_graph_manager`: the first call builds the manager
        from how initialisation ends; every later call returns the same
        one. */
    method Get(init: InitOutcome, maxContentLength: nat) returns (m: Manager)
      modifies this
      ensures old(manager).Some? ==> m == old(manager).value && manager == old(manager)
      ensures old(manager).None? ==> m == NewManager(init, maxContentLength) && manager == Some(m)
    {
      if manager.None? {
        manager := Some(NewManager(init, maxContentLength));
      }
      m := manager.value;
    }
  }

  /** Two calls return the same manager, however the second
      initialisation would have ended. */
  method GetTwice(slot: ManagerSlot, first: InitOutcome, second: InitOutcome, maxContentLength: nat)
    returns (a: Manager, b: Manager)
    modifies slot
    ensures a == b
  {
    a := slot.Get(first, maxContentLength);
    b := slot.Get(second, maxContentLength);
  }
}
