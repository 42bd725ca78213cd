/**
 * The arXiv helpers of the agent (`SimpleArxivClient` and
 * `SimpleResearchAgent`): building the category-filtered search query,
 * extracting arXiv ids, listing downloaded PDFs, choosing which papers a
 * topic search downloads, and the `ArxivResult` success/failure shape.
 * The `arxiv` library and the file system are oracles: a `Library` value
 * says what each of their calls answers.
 */
module ArxivClient {
  import opened Wrappers
  import opened Strings

  /** One result yielded by the arxiv library's search iterator. */
  datatype Entry = Entry(
    entryId: string,
    title: string,
    authors: seq<string>,
    summary: string,
    categories: seq<string>,
    published: Option<string>,   // ISO rendering of the date, if any
    pdfUrl: string)

  /** Iterating `client.results(search)`: the entries yielded before the
      iterator raised, if it raised. */
  datatype Feed = Feed(entries: seq<Entry>, failure: Option<string>)

  /** `next(client.results(Search(id_list=[id])), None)`. */
  datatype Lookup = Found(entry: Entry) | NotFound | LookupRaised(error: string)

  /** The arxiv library and the disk under the storage directory. */
  datatype Library = Library(
    installed: bool,                  // `import arxiv` succeeds
    search: (string, int) -> Feed,    // results of Search(query, max_results)
    lookup: string -> Lookup,         // the paper with a given id
    downloadPdf: string -> Outcome,   // paper.download_pdf(..., filename = id + ".pdf")
    pathExists: string -> bool)       // os.path.exists

  /** `os.listdir` of the storage directory. */
  datatype Listing = Names(names: seq<string>) | ListRaised(error: string)

  datatype Disk = Disk(storageExists: bool, listing: Listing)

  /** `ArxivResult(success, data, error)`. */
  datatype ArxivResult<T> = ArxivResult(success: bool, data: Option<T>, error: Option<string>)

  /** Every result the client builds is either a success carrying data and
      no error, or a failure carrying an error and no data. */
  predicate WellShaped<T>(r: ArxivResult<T>) {
    if r.success then r.data.Some? && r.error.None? else r.data.None? && r.error.Some?
  }

  function Succeeded<T>(data: T): ArxivResult<T> {
    ArxivResult(true, Some(data), None)
  }

  function Failed<T>(error: string): ArxivResult<T> {
    ArxivResult(false, None, Some(error))
  }

  const InstallMessage: string := "arxiv library not installed. Install with: pip install arxiv"

  /** A paper dictionary produced by `search_papers`. */
  datatype Paper = Paper(
    id: string,
    title: string,
    authors: seq<string>,
    abstractText: string,
    categories: seq<string>,
    published: string,
    pdfUrl: string,
    entryId: string)

  datatype SearchData = SearchData(papers: seq<Paper>, papersFound: int)

  datatype DownloadData = DownloadData(paperId: string, pdfPath: string, title: string, downloaded: bool)

  /** The dictionary `read_paper` returns. */
  datatype PaperContent = PaperContent(
    paperId: string,
    title: string,
    authors: seq<string>,
    abstractText: string,
    content: string,
    categories: seq<string>,
    published: string,
    pdfPath: Option<string>)

  datatype Listed = Listed(paperId: string, filename: string, path: string)

  datatype ListData = ListData(papers: seq<Listed>, count: int)

  /** What `research_topic` returns: a report, or the error dictionary
      whose "papers" entry is the empty list. */
  datatype Report =
    | Report(topic: string, papersFound: int, papersDownloaded: int, papers: seq<Paper>, downloadedIds: seq<string>)
    | ReportError(topic: string, error: Option<string>)
  {
    /** The report's "papers" entry. */
    function PaperList(): seq<Paper> {
      if Report? then papers else []
    }
  }

  /** What `analyze_paper` returns: the paper's content, or a dictionary
      with an "error" key. */
  datatype Analysis = Analyzed(content: PaperContent) | AnalysisError(paperId: string, error: string)

  // ---------------------------------------------------------------------
  // Query building and id extraction

  function CategoryTerms(categories: seq<string>): (r: seq<string>)
    ensures |r| == |categories|
    ensures forall i :: 0 <= i < |r| ==> r[i] == "cat:" + categories[i]
  {
    seq(|categories|, i requires 0 <= i < |categories| => "cat:" + categories[i])
  }

  /** The query sent to arXiv: the query itself without categories, and
      otherwise the query in parentheses AND-ed with a parenthesised OR of
      `cat:` terms, one per category. */
  function BuildQuery(query: string, categories: Option<seq<string>>): (r: string)
    ensures categories.None? || categories.value == [] ==> r == query
    ensures categories.Some? && categories.value != [] ==>
      && StartsWith(r, "(" + query + ") AND (")
      && EndsWith(r, ")")
      && forall c :: c in categories.value ==> Contains(r, "cat:" + c)
    ensures categories.Some? && categories.value != [] ==>
      && |"(" + query + ") AND ("| < |r|
      && r[|"(" + query + ") AND ("|..|r| - 1] == Join(CategoryTerms(categories.value), " OR ")
  {
    if categories.None? || categories.value == [] then query
    else
      var terms := CategoryTerms(categories.value);
      var filter := Join(terms, " OR ");
      var r := "(" + query + ") AND (" + filter + ")";
      assert r[..|"(" + query + ") AND ("|] == "(" + query + ") AND (";
      forall c | c in categories.value
        ensures Contains(r, "cat:" + c)
      {
        var i :| 0 <= i < |categories.value| && categories.value[i] == c;
        JoinContainsItems(terms, " OR ", i);
        ContainedInPrefix(filter, ")", "cat:" + c);
        ContainedInSuffix("(" + query + ") AND (", filter + ")", "cat:" + c);
        assert r == "(" + query + ") AND (" + (filter + ")");
      }
      assert r[|"(" + query + ") AND ("|..|r| - 1] == filter;
      r
  }

  /** The category filter reads back: splitting the text between the
      query's "AND (" and the closing ")" at " OR " gives one `cat:` term
      per category, in order, as long as no category holds a space (arXiv
      category names such as "cs.AI" never do). */
  lemma QueryFilterRoundTrip(query: string, categories: seq<string>)
    requires categories != []
    requires forall i :: 0 <= i < |categories| ==> ' ' !in categories[i]
    ensures var r := BuildQuery(query, Some(categories));
      Split(r[|"(" + query + ") AND ("|..|r| - 1], " OR ") == CategoryTerms(categories)
  {
    var terms := CategoryTerms(categories);
    forall i | 0 <= i < |terms|
      ensures !Contains(terms[i], " OR ") && CleanItem(terms[i], " OR ")
    {
      assert ' ' !in terms[i] by {
        assert terms[i] == "cat:" + categories[i];
      }
      CleanWithoutHead(terms[i], " OR ");
    }
    SplitJoin(terms, " OR ");
  }

  /** The arXiv id of an entry: what follows the last "/" of its entry id. */
  function ArxivId(entryId: string): (r: string)
    ensures '/' !in r
    ensures EndsWith(entryId, r)
    ensures |r| < |entryId| ==> entryId[|entryId| - |r| - 1] == '/'
    ensures '/' !in entryId ==> r == entryId
  {
    AfterLast(entryId, '/')
  }

  function ToPaper(e: Entry): (p: Paper)
  {
    Paper(ArxivId(e.entryId), e.title, e.authors, e.summary, e.categories,
          e.published.GetOr(""), e.pdfUrl, e.entryId)
  }

  // ---------------------------------------------------------------------
  // search_papers

  /** The papers built from a feed, one per entry, in order. */
  function FeedPapers(entries: seq<Entry>): (papers: seq<Paper>)
    ensures |papers| == |entries|
    ensures forall i :: 0 <= i < |entries| ==> papers[i] == ToPaper(entries[i])
  {
    seq(|entries|, i requires 0 <= i < |entries| => ToPaper(entries[i]))
  }

  /** What `search_papers` answers: the install message without the
      library, the iterator's error if it raised (papers yielded before it
      are dropped), and otherwise every yielded entry as a paper, with
      "papers_found" its number of papers. */
  function SearchResult(query: string, maxResults: int, categories: Option<seq<string>>, lib: Library): (r: ArxivResult<SearchData>)
    ensures WellShaped(r)
    ensures !lib.installed ==> r == Failed(InstallMessage)
    ensures r.success ==> r.data.value.papersFound == |r.data.value.papers|
    ensures r.success ==>
      var entries := lib.search(BuildQuery(query, categories), maxResults).entries;
      && |r.data.value.papers| == |entries|
      && forall i :: 0 <= i < |entries| ==> r.data.value.papers[i].id == ArxivId(entries[i].entryId)
  {
    if !lib.installed then Failed(InstallMessage)
    else
      var feed := lib.search(BuildQuery(query, categories), maxResults);
      if feed.failure.Some? then Failed(feed.failure.value)
      else
        var papers := FeedPapers(feed.entries);
        Succeeded(SearchData(papers, |papers|))
  }

  method SearchPapers(query: string, maxResults: int, categories: Option<seq<string>>, lib: Library)
    returns (r: ArxivResult<SearchData>)
    ensures r == SearchResult(query, maxResults, categories, lib)
  {
    if !lib.installed {
      return Failed(InstallMessage);
    }
    var searchQuery := BuildQuery(query, categories);
    var feed := lib.search(searchQuery, maxResults);
    var papers := ToPapers(feed.entries);
    if feed.failure.Some? {
      return Failed(feed.failure.value);
    }
    r := Succeeded(SearchData(papers, |papers|));
  }

  /** The loop of `search_papers` over the yielded entries. */
  method ToPapers(entries: seq<Entry>) returns (papers: seq<Paper>)
    ensures papers == FeedPapers(entries)
  {
    papers := [];
    for i := 0 to |entries|
      invariant |papers| == i
      invariant forall j :: 0 <= j < i ==> papers[j] == ToPaper(entries[j])
    {
      papers := papers + [ToPaper(entries[i])];
    }
  }

  // ---------------------------------------------------------------------
  // download_paper, read_paper, analyze_paper

  /** `os.path.join(dir, name)`. */
  function JoinPath(dir: string, name: string): string {
    if StartsWith(name, "/") then name
    else if dir == [] || EndsWith(dir, "/") then dir + name
    else dir + "/" + name
  }

  function Download(paperId: string, storagePath: string, lib: Library): (r: ArxivResult<DownloadData>)
    ensures WellShaped(r)
    ensures !lib.installed ==> r == Failed(InstallMessage)
    ensures r.success ==> r.data.value.paperId == paperId && r.data.value.downloaded
  {
    if !lib.installed then Failed(InstallMessage)
    else match lib.lookup(paperId)
      case LookupRaised(e) => Failed(e)
      case NotFound => Failed("Paper " + paperId + " not found")
      case Found(entry) =>
        match lib.downloadPdf(paperId)
        case Fail(e) => Failed(e)
        case Pass =>
          Succeeded(DownloadData(paperId, JoinPath(storagePath, paperId + ".pdf"), entry.title, true))
  }

  const ExtractionNote: string := "[Full PDF content extraction would require additional PDF processing libraries]"

  function Read(paperId: string, storagePath: string, lib: Library): (r: ArxivResult<PaperContent>)
    ensures WellShaped(r)
    ensures !lib.installed ==> r == Failed(InstallMessage)
    ensures r.success ==> r.data.value.paperId == paperId
  {
    if !lib.installed then Failed(InstallMessage)
    else match lib.lookup(paperId)
      case LookupRaised(e) => Failed(e)
      case NotFound => Failed("Paper " + paperId + " not found")
      case Found(entry) =>
        var path := JoinPath(storagePath, paperId + ".pdf");
        Succeeded(PaperContent(
          paperId, entry.title, entry.authors, entry.summary,
          "Abstract: " + entry.summary + "\n\n" + ExtractionNote,
          entry.categories, entry.published.GetOr(""),
          if lib.pathExists(path) then Some(path) else None))
  }

  /** f"{error}" of an optional error string. */
  function ErrorText(error: Option<string>): string {
    match error
    case Some(e) => e
    case None => "None"
  }

  /** `analyze_paper`: download, then read; either failure becomes an
      error dictionary for the same id. */
  function AnalyzePaper(paperId: string, storagePath: string, lib: Library): (r: Analysis)
    ensures r.AnalysisError? ==> r.paperId == paperId
    ensures r.Analyzed? <==> Download(paperId, storagePath, lib).success && Read(paperId, storagePath, lib).success
  {
    var d := Download(paperId, storagePath, lib);
    if !d.success then AnalysisError(paperId, "Failed to download paper: " + ErrorText(d.error))
    else
      var rd := Read(paperId, storagePath, lib);
      if !rd.success then AnalysisError(paperId, "Failed to read paper: " + ErrorText(rd.error))
      else Analyzed(rd.data.value)
  }

  // ---------------------------------------------------------------------
  // list_papers

  /** The `.pdf` files among `names`, in listing order. */
  function PdfFiles(names: seq<string>, storagePath: string): (r: seq<Listed>)
    ensures |r| <= |names|
    ensures forall k :: 0 <= k < |r| ==>
      && EndsWith(r[k].filename, ".pdf")
      && r[k].filename in names
      && r[k].paperId == RemoveAll(r[k].filename, ".pdf")
  {
    if names == [] then []
    else
      var rest := PdfFiles(names[1..], storagePath);
      if EndsWith(names[0], ".pdf") then
        [Listed(RemoveAll(names[0], ".pdf"), names[0], JoinPath(storagePath, names[0]))] + rest
      else rest
  }

  /** Listing a concatenation lists each part in turn: the filter keeps
      the listing's order. */
  lemma {:induction false} PdfFilesAppend(a: seq<string>, b: seq<string>, storagePath: string)
    ensures PdfFiles(a + b, storagePath) == PdfFiles(a, storagePath) + PdfFiles(b, storagePath)
    decreases |a|
  {
    if a != [] {
      assert (a + b)[1..] == a[1..] + b;
      PdfFilesAppend(a[1..], b, storagePath);
    } else {
      assert a + b == b;
    }
  }

  /** A single name is listed exactly when it ends in ".pdf", with its id
      the name without ".pdf" and its path under the storage directory. */
  lemma PdfFilesOne(name: string, storagePath: string)
    ensures PdfFiles([name], storagePath) ==
      if EndsWith(name, ".pdf") then [Listed(RemoveAll(name, ".pdf"), name, JoinPath(storagePath, name))] else []
  {
    assert [name][1..] == [];
  }

  /** Every ".pdf" name of the listing is listed, at the position given by
      the ".pdf" names before it. */
  lemma PdfFilesListsEveryPdf(names: seq<string>, storagePath: string, j: nat)
    requires j < |names| && EndsWith(names[j], ".pdf")
    ensures var r := PdfFiles(names, storagePath);
      var k := |PdfFiles(names[..j], storagePath)|;
      k < |r| && r[k].filename == names[j] && r[k].paperId == RemoveAll(names[j], ".pdf")
  {
    assert names == names[..j] + [names[j]] + names[j + 1..];
    PdfFilesAppend(names[..j] + [names[j]], names[j + 1..], storagePath);
    PdfFilesAppend(names[..j], [names[j]], storagePath);
    PdfFilesOne(names[j], storagePath);
  }

  method ListPapers(storagePath: string, disk: Disk) returns (r: ArxivResult<ListData>)
    ensures WellShaped(r)
    ensures disk.storageExists && disk.listing.ListRaised? ==> r == Failed(disk.listing.error)
    ensures !disk.storageExists ==> r == Succeeded(ListData([], 0))
    ensures disk.storageExists && disk.listing.Names? ==>
      r == Succeeded(ListData(PdfFiles(disk.listing.names, storagePath), |PdfFiles(disk.listing.names, storagePath)|))
  {
    var papers: seq<Listed> := [];
    if disk.storageExists {
      if disk.listing.ListRaised? {
        return Failed(disk.listing.error);
      }
      var names := disk.listing.names;
      var i := |names|;
      // Walk the listing back to front so that each step prepends
      // the next file of the filtered listing.
      while i > 0
        invariant 0 <= i <= |names|
        invariant papers == PdfFiles(names[i..], storagePath)
      {
        i := i - 1;
        assert names[i..][1..] == names[i + 1..];
        if EndsWith(names[i], ".pdf") {
          papers := [Listed(RemoveAll(names[i], ".pdf"), names[i], JoinPath(storagePath, names[i]))] + papers;
        }
      }
      assert names[0..] == names;
    }
    r := Succeeded(ListData(papers, |papers|));
  }

  // ---------------------------------------------------------------------
  // research_topic

  /** The ids `research_topic` records among `papers`: each non-empty id
      whose download succeeds, in order. */
  function DownloadedIds(papers: seq<Paper>, storagePath: string, lib: Library): (ids: seq<string>)
    ensures |ids| <= |papers|
    ensures forall k :: 0 <= k < |ids| ==>
      && ids[k] != []
      && Download(ids[k], storagePath, lib).success
      && exists j :: 0 <= j < |papers| && papers[j].id == ids[k]
    ensures forall j :: 0 <= j < |papers| && papers[j].id != [] && Download(papers[j].id, storagePath, lib).success ==>
      papers[j].id in ids
  {
    if papers == [] then []
    else
      var last := papers[|papers| - 1];
      var before := DownloadedIds(papers[..|papers| - 1], storagePath, lib);
      assert forall j :: 0 <= j < |papers| - 1 ==> papers[..|papers| - 1][j] == papers[j];
      if last.id != [] && Download(last.id, storagePath, lib).success then before + [last.id] else before
  }

  /** The ids of a concatenation are those of each part in turn. */
  lemma {:induction false} DownloadedIdsAppend(a: seq<Paper>, b: seq<Paper>, storagePath: string, lib: Library)
    ensures DownloadedIds(a + b, storagePath, lib) == DownloadedIds(a, storagePath, lib) + DownloadedIds(b, storagePath, lib)
    decreases |b|
  {
    if b == [] {
      assert a + b == a;
    } else {
      var b' := b[..|b| - 1];
      assert (a + b)[..|a + b| - 1] == a + b';
      DownloadedIdsAppend(a, b', storagePath, lib);
    }
  }

  /** One paper contributes its id exactly when the id is not empty and
      its download succeeds. */
  lemma DownloadedIdsOne(p: Paper, storagePath: string, lib: Library)
    ensures DownloadedIds([p], storagePath, lib) ==
      if p.id != [] && Download(p.id, storagePath, lib).success then [p.id] else []
  {
    assert [p][..0] == [];
  }

  function Min(a: int, b: int): int {
    if a <= b then a else b
  }

  /** What `research_topic` answers: the search error when the search
      fails, and otherwise every paper found together with the ids of the
      papers downloaded among the first three. */
  function TopicReport(topic: string, maxPapers: int, storagePath: string, lib: Library): (r: Report)
    ensures r.topic == topic
    ensures r.ReportError? <==> !SearchResult(topic, maxPapers, None, lib).success
    ensures r.ReportError? ==> r.error == SearchResult(topic, maxPapers, None, lib).error && r.PaperList() == []
    ensures r.Report? ==>
      && r.papersFound == |r.papers|
      && r.papersDownloaded == |r.downloadedIds| <= 3
      && forall k :: 0 <= k < |r.downloadedIds| ==>
           r.downloadedIds[k] != [] && exists j :: 0 <= j < Min(3, |r.papers|) && r.papers[j].id == r.downloadedIds[k]
    ensures r.Report? ==>
      && r.papers == SearchResult(topic, maxPapers, None, lib).data.value.papers
      && r.downloadedIds == DownloadedIds(r.papers[..Min(3, |r.papers|)], storagePath, lib)
  {
    var found := SearchResult(topic, maxPapers, None, lib);
    if !found.success then ReportError(topic, found.error)
    else
      var papers := found.data.value.papers;
      var top := papers[..Min(3, |papers|)];
      var ids := DownloadedIds(top, storagePath, lib);
      Report(topic, |papers|, |ids|, papers, ids)
  }

  method ResearchTopic(topic: string, maxPapers: int, storagePath: string, lib: Library) returns (r: Report)
    ensures r == TopicReport(topic, maxPapers, storagePath, lib)
  {
    var found := SearchPapers(topic, maxPapers, None, lib);
    if !found.success {
      return ReportError(topic, found.error);
    }
    var papers := found.data.value.papers;
    var downloaded := DownloadTop(papers[..Min(3, |papers|)], storagePath, lib);
    r := Report(topic, |papers|, |downloaded|, papers, downloaded);
  }

  /** The download loop of `research_topic` over the top papers. */
  method DownloadTop(top: seq<Paper>, storagePath: string, lib: Library) returns (downloaded: seq<string>)
    ensures downloaded == DownloadedIds(top, storagePath, lib)
  {
    downloaded := [];
    for i := 0 to |top|
      invariant downloaded == DownloadedIds(top[..i], storagePath, lib)
    {
      assert top[..i + 1][..i] == top[..i];
      var paperId := top[i].id;
      if paperId != [] {
        var result := Download(paperId, storagePath, lib);
        if result.success {
          downloaded := downloaded + [paperId];
        }
      }
    }
    assert top[..|top|] == top;
  }

  /** A file "x.pdf" is listed with id x when x itself contains no ".pdf";
      every ".pdf" is removed, so "x.pdf.pdf" is listed as x too. */
  lemma ListedIdOfPdfName(x: string)
    requires !Contains(x, ".pdf")
    ensures RemoveAll(x + ".pdf", ".pdf") == x
    ensures RemoveAll(x + ".pdf.pdf", ".pdf") == x
  {
    assert HeadUnique(".pdf");
    assert x + ".pdf.pdf" == x + ".pdf" + ".pdf";
    RemoveAllTrailing(x, ".pdf");
  }
}
