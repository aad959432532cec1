/**
 * The backend's document store (backend/rag.py): choosing a parser by file
 * extension, flattening PDF pages and CSV rows into text, ingesting chunks
 * into two parallel lists, and turning the indices a similarity search
 * returns into aligned document and metadata lists.
 *
 * Embedding, the FAISS index, the text splitter and the parsing libraries
 * are foreign: the splitter and the search are function parameters, what
 * pypdf and pandas read from a file is given as data, and the files on disk
 * are the fields of a `VectorStore`.
 */
module Rag {
  import opened Wrappers
  import opened Strings

  // ------------------------------------------------------------ parse_file

  /** `filename.lower().split(".")[-1] if "." in filename else ""`. */
  function Extension(filename: string): (ext: string)
    ensures '.' !in ext
    ensures '.' !in filename ==> ext == ""
    ensures '.' in filename ==>
      && |ext| < |filename|
      && ext == Lower(filename)[|filename| - |ext|..]
      && Lower(filename)[|filename| - |ext| - 1] == '.'
  {
    if '.' in filename then
      var lower := Lower(filename);
      SplitLast(lower, '.');
      assert '.' in lower by {
        var i :| 0 <= i < |filename| && filename[i] == '.';
        assert lower[i] == '.';
      }
      Last(Split(lower, '.'))
    else ""
  }

  /** Lower-casing never produces a dot from anything but a dot. */
  lemma LowerDot(filename: string, i: nat)
    requires i < |filename| && Lower(filename)[i] == '.'
    ensures filename[i] == '.'
  {
  }

  /**
   * For a non-empty, dot-free `e`: the extension is `e` exactly when the
   * lower-cased name ends in a dot followed by `e`.
   */
  lemma ExtensionIs(filename: string, e: string)
    requires e != [] && '.' !in e
    ensures Extension(filename) == e <==>
      |filename| > |e| && Lower(filename)[|filename| - |e| - 1..] == ['.'] + e
  {
    var lower, n, m := Lower(filename), |filename|, |e|;
    if Extension(filename) == e {
      assert lower[n - m - 1..] == [lower[n - m - 1]] + lower[n - m..];
    }
    if n > m && lower[n - m - 1..] == ['.'] + e {
      assert lower[n - m - 1] == '.';
      LowerDot(filename, n - m - 1);
      var ext := Extension(filename);
      var x := |ext|;
      if x > m {
        assert false;
      } else if x < m {
        assert false;
      }
      assert ext == lower[n - m..] == e;
    }
  }

  /** `"A.PDF"` has extension `"pdf"`. */
  lemma ExtensionOfUpperCase()
    ensures Extension("A.PDF") == "pdf"
  {
    assert Lower("A.PDF") == "a.pdf";
    ExtensionIs("A.PDF", "pdf");
  }

  /** `"notes."` has the empty extension. */
  lemma ExtensionOfTrailingDot()
    ensures Extension("notes.") == ""
  {
    assert Lower("notes.")[5] == '.';
  }

  /** Only the text after the last dot counts: `"archive.tar.gz"` has extension `"gz"`. */
  lemma ExtensionOfLastDot()
    ensures Extension("archive.tar.gz") == "gz"
  {
    assert Lower("archive.tar.gz")[11..] == ".gz";
    ExtensionIs("archive.tar.gz", "gz");
  }

  /** The three branches of parse_file. */
  datatype Parser = PdfParser | CsvParser | TextDecoder

  function ParserFor(filename: string): Parser {
    var ext := Extension(filename);
    if ext == "pdf" then PdfParser
    else if ext == "csv" then CsvParser
    else TextDecoder
  }

  /** The name ends, case-insensitively, in `suffix`. */
  predicate EndsWithLower(filename: string, suffix: string) {
    |filename| >= |suffix| && Lower(filename[|filename| - |suffix|..]) == suffix
  }

  /** For a non-empty, dot-free `e`: the extension is `e` exactly when the name ends in "." + `e`. */
  lemma ExtensionIsSuffix(filename: string, e: string)
    requires e != [] && '.' !in e
    ensures Extension(filename) == e <==> EndsWithLower(filename, ['.'] + e)
  {
    ExtensionIs(filename, e);
    var n := |filename|;
    if n >= |e| + 1 {
      assert Lower(filename[n - |e| - 1..]) == Lower(filename)[n - |e| - 1..];
    }
  }

  /**
   * Dispatch by suffix: ".pdf" and ".csv" in any letter case pick their
   * parsers; every other name, dot-less ones included, is decoded as text.
   */
  lemma ParserForSuffix(filename: string)
    ensures ParserFor(filename) == PdfParser <==> EndsWithLower(filename, ".pdf")
    ensures ParserFor(filename) == CsvParser <==> EndsWithLower(filename, ".csv")
    ensures ParserFor(filename) == TextDecoder <==>
      !EndsWithLower(filename, ".pdf") && !EndsWithLower(filename, ".csv")
  {
    ExtensionIsSuffix(filename, "pdf");
    ExtensionIsSuffix(filename, "csv");
    assert ['.'] + "pdf" == ".pdf" && ['.'] + "csv" == ".csv";
    var ext := Extension(filename);
    assert ParserFor(filename) == PdfParser <==> ext == "pdf";
    assert ParserFor(filename) == CsvParser <==> ext == "csv";
  }

  /** What parse_file yields: text, or the ImportError of a missing parser library. */
  datatype ParseResult = Parsed(text: string) | MissingLibrary(name: string)

  /** Which optional parser libraries imported successfully. */
  datatype Libraries = Libraries(pypdf: bool, pandas: bool)

  /** What pypdf extracted: one text per page (None counts as ""), or a read failure. */
  datatype PdfRead = PdfPages(pages: seq<string>) | PdfUnreadable

  /** One column of a CSV row as pandas read it; `None` is a missing value. */
  datatype CsvCell = CsvCell(column: string, value: Option<string>)

  /** What pandas read: the rows in order, or a read failure. */
  datatype CsvRead = CsvTable(rows: seq<seq<CsvCell>>) | CsvUnreadable

  /** Separator between pages and between rows. */
  const PartSeparator := "\n\n"

  /** Separator between the cells of one CSV row. */
  const CellSeparator := " | "

  /** `text and text.strip()`. */
  predicate HasText(page: string) {
    !IsBlank(page)
  }

  /** parse_pdf's result: the non-blank pages in order, joined by a blank line. */
  function PdfText(libs: Libraries, read: PdfRead): ParseResult {
    if !libs.pypdf then MissingLibrary("pypdf")
    else match read
      case PdfUnreadable => Parsed("")
      case PdfPages(pages) => Parsed(Join(Filter(pages, HasText), PartSeparator))
  }

  method ParsePdf(libs: Libraries, read: PdfRead) returns (r: ParseResult)
    ensures r == PdfText(libs, read)
  {
    if !libs.pypdf {
      return MissingLibrary("pypdf");
    }
    match read {
      case PdfUnreadable =>
        return Parsed("");
      case PdfPages(pages) =>
        var parts: seq<string> := [];
        var i := 0;
        while i < |pages|
          invariant 0 <= i <= |pages|
          invariant parts == Filter(pages[..i], HasText)
        {
          if HasText(pages[i]) {
            parts := parts + [pages[i]];
          }
          assert pages[..i + 1] == pages[..i] + [pages[i]];
          FilterSnoc(pages[..i], pages[i], HasText);
          i := i + 1;
        }
        assert pages[..i] == pages;
        return Parsed(Join(parts, PartSeparator));
    }
  }

  /** A readable PDF flattens to "" exactly when no page has any text. */
  lemma PdfEmptyIffNoText(pages: seq<string>)
    ensures PdfText(Libraries(true, true), PdfPages(pages)) == Parsed("") <==>
      forall i :: 0 <= i < |pages| ==> IsBlank(pages[i])
  {
    var kept := Filter(pages, HasText);
    if kept != [] {
      JoinStartsWith(kept, PartSeparator);
      assert HasText(kept[0]);
    }
    if exists i :: 0 <= i < |pages| && !IsBlank(pages[i]) {
      var i :| 0 <= i < |pages| && !IsBlank(pages[i]);
      assert pages[i] in kept;
    }
  }

  predicate IsPresent(cell: CsvCell) {
    cell.value.Some?
  }

  /** `f"{col}: {val}"`. */
  function CellText(cell: CsvCell): string
    requires IsPresent(cell)
  {
    cell.column + ": " + cell.value.value
  }

  /** One CSV row as text: its non-missing cells as "col: val", joined by " | ". */
  function RowText(row: seq<CsvCell>): (text: string)
    ensures text == "" <==> forall i :: 0 <= i < |row| ==> !IsPresent(row[i])
  {
    var present := Filter(row, IsPresent);
    var parts := seq(|present|, i requires 0 <= i < |present| => CellText(present[i]));
    if parts == [] then
      assert forall i :: 0 <= i < |row| ==> !IsPresent(row[i]);
      Join(parts, CellSeparator)
    else
      JoinStartsWith(parts, CellSeparator);
      assert |parts[0]| >= 2;
      assert present[0] in row;
      Join(parts, CellSeparator)
  }

  function RowTexts(rows: seq<seq<CsvCell>>): (texts: seq<string>)
    ensures |texts| == |rows|
  {
    seq(|rows|, i requires 0 <= i < |rows| => RowText(rows[i]))
  }

  lemma RowTextsSnoc(rows: seq<seq<CsvCell>>, i: nat)
    requires i < |rows|
    ensures RowTexts(rows[..i + 1]) == RowTexts(rows[..i]) + [RowText(rows[i])]
  {
  }

  predicate NonEmpty(s: string) {
    s != ""
  }

  /**
   * parse_csv's result: the non-empty row texts in order, joined by a blank
   * line; a table pandas cannot read falls back to the decoded bytes.
   */
  function CsvText(libs: Libraries, read: CsvRead, decoded: string): ParseResult {
    if !libs.pandas then MissingLibrary("pandas")
    else match read
      case CsvUnreadable => Parsed(decoded)
      case CsvTable(rows) => Parsed(Join(Filter(RowTexts(rows), NonEmpty), PartSeparator))
  }

  method ParseCsv(libs: Libraries, read: CsvRead, decoded: string) returns (r: ParseResult)
    ensures r == CsvText(libs, read, decoded)
  {
    if !libs.pandas {
      return MissingLibrary("pandas");
    }
    match read {
      case CsvUnreadable =>
        return Parsed(decoded);
      case CsvTable(rows) =>
        var parts: seq<string> := [];
        var i := 0;
        while i < |rows|
          invariant 0 <= i <= |rows|
          invariant parts == Filter(RowTexts(rows[..i]), NonEmpty)
        {
          var rowText := RowText(rows[i]);
          if rowText != "" {
            parts := parts + [rowText];
          }
          RowTextsSnoc(rows, i);
          FilterSnoc(RowTexts(rows[..i]), rowText, NonEmpty);
          i := i + 1;
        }
        assert rows[..i] == rows;
        return Parsed(Join(parts, PartSeparator));
    }
  }

  /** A readable CSV flattens to "" exactly when every cell of every row is missing. */
  lemma CsvEmptyIffNoValues(rows: seq<seq<CsvCell>>)
    ensures CsvText(Libraries(true, true), CsvTable(rows), "") == Parsed("") <==>
      forall i, j :: 0 <= i < |rows| && 0 <= j < |rows[i]| ==> !IsPresent(rows[i][j])
  {
    var texts := RowTexts(rows);
    var kept := Filter(texts, NonEmpty);
    if kept != [] {
      JoinStartsWith(kept, PartSeparator);
      assert NonEmpty(kept[0]);
    }
    if exists i, j :: 0 <= i < |rows| && 0 <= j < |rows[i]| && IsPresent(rows[i][j]) {
      var i, j :| 0 <= i < |rows| && 0 <= j < |rows[i]| && IsPresent(rows[i][j]);
      assert texts[i] == RowText(rows[i]) != "";
      assert texts[i] in kept;
    }
  }

  /** parse_file's result for each branch. */
  function FileText(filename: string, libs: Libraries, pdf: PdfRead, csv: CsvRead, decoded: string): ParseResult {
    match ParserFor(filename)
    case PdfParser => PdfText(libs, pdf)
    case CsvParser => CsvText(libs, csv, decoded)
    case TextDecoder => Parsed(decoded)
  }

  /**
   * parse_file. `decoded` is the UTF-8 decoding of the file's bytes; `pdf`
   * and `csv` are what the two libraries read from them.
   */
  method ParseFile(filename: string, libs: Libraries, pdf: PdfRead, csv: CsvRead, decoded: string)
    returns (r: ParseResult)
    ensures r == FileText(filename, libs, pdf, csv, decoded)
    ensures EndsWithLower(filename, ".pdf") ==> r == PdfText(libs, pdf)
    ensures EndsWithLower(filename, ".csv") ==> r == CsvText(libs, csv, decoded)
    ensures !EndsWithLower(filename, ".pdf") && !EndsWithLower(filename, ".csv") ==> r == Parsed(decoded)
  {
    ParserForSuffix(filename);
    var ext := Extension(filename);
    if ext == "pdf" {
      r := ParsePdf(libs, pdf);
    } else if ext == "csv" {
      r := ParseCsv(libs, csv, decoded);
    } else {
      r := Parsed(decoded);
    }
  }

  // ------------------------------------------------------------ the store

  /** One entry of `metadatas`: a dict with or without a "source" key, or anything else. */
  datatype Metadata = Dict(source: Option<string>) | NonDict

  /** The record retrieve substitutes for an index past the end of `metadatas`. */
  const UnknownSource: Metadata := Dict(Some("unknown"))

  /**
   * The store's files: the FAISS index's vector count (`None` when the
   * index file does not exist) and the pickled lists (empty when the
   * pickle does not exist).
   */
  datatype Store = Store(index: Option<nat>, documents: seq<string>, metadatas: seq<Metadata>)

  /** `_load_store()`: without an index file the pickle is ignored. */
  function Load(disk: Store): (loaded: Store)
    ensures disk.index.None? ==> loaded.index.None? && loaded.documents == [] && loaded.metadatas == []
    ensures disk.index.Some? ==> loaded == disk
  {
    if disk.index.None? then Store(None, [], []) else disk
  }

  /** `index.ntotal` of the loaded index, 0 when there is none. */
  function Ntotal(disk: Store): nat {
    Load(disk).index.GetOr(0)
  }

  /** The two lists have equal length, as ingest_document keeps them. */
  predicate Aligned(disk: Store) {
    |Load(disk).documents| == |Load(disk).metadatas|
  }

  /** How ingest_document returned. */
  datatype IngestOutcome = NoText | NoChunks | Indexed(chunks: nat)

  /** The persisted store; ingest_document is the one operation that changes it. */
  class VectorStore {
    var index: Option<nat>
    var documents: seq<string>
    var metadatas: seq<Metadata>

    function Disk(): Store
      reads this
    {
      Store(index, documents, metadatas)
    }

    /** No index file and no pickle yet. */
    constructor ()
      ensures Disk() == Store(None, [], [])
    {
      index, documents, metadatas := None, [], [];
    }

    /**
     * ingest_document. `splitText` stands for the text splitter; the
     * embeddings are not modelled, only the count of vectors they add.
     */
    method IngestDocument(text: string, source: string, splitText: string -> seq<string>)
      returns (outcome: IngestOutcome)
      modifies this
      ensures IsBlank(text) ==> outcome == NoText && Disk() == old(Disk())
      ensures !IsBlank(text) && splitText(text) == [] ==> outcome == NoChunks && Disk() == old(Disk())
      ensures !IsBlank(text) && splitText(text) != [] ==>
        var chunks := splitText(text);
        var before := Load(old(Disk()));
        && outcome == Indexed(|chunks|)
        && index == Some(Ntotal(before) + |chunks|)
        && documents == before.documents + chunks
        && metadatas == before.metadatas + Repeat(Dict(Some(source)), |chunks|)
      ensures Aligned(old(Disk())) ==> Aligned(Disk())
      ensures outcome.Indexed? ==> DocumentCount(Disk()) == DocumentCount(old(Disk())) + outcome.chunks
      ensures outcome.Indexed? ==> IsIndexReady(Disk())
    {
      if IsBlank(text) {
        return NoText;
      }
      var chunks := splitText(text);
      if chunks == [] {
        return NoChunks;
      }
      var records := Repeat(Dict(Some(source)), |chunks|);
      var loaded := Load(Disk());
      var ntotal := Ntotal(loaded);
      index := Some(ntotal + |chunks|);
      documents := loaded.documents + chunks;
      metadatas := loaded.metadatas + records;
      outcome := Indexed(|chunks|);
    }
  }

  // ------------------------------------------------------------ retrieve

  /**
   * What retrieve produces: `(out_docs, out_metas)`, or the failure the
   * FAISS search raises when asked for fewer than one neighbour (its
   * `assert k > 0`), which the /retrieve endpoint reports as a server error.
   */
  datatype Retrieved = Retrieved(documents: seq<string>, metadatas: seq<Metadata>) | SearchRejected

  /** `min(k, index.ntotal)`: how many neighbours the search is asked for. */
  function SearchCount(disk: Store, k: int): int {
    if k < Ntotal(disk) then k else Ntotal(disk)
  }

  /** The search hits that are positions of `documents`, in search order. */
  function InRange(hits: seq<int>, n: nat): (r: seq<int>)
    ensures forall j :: 0 <= j < |r| ==> 0 <= r[j] < n
    ensures forall j :: 0 <= j < |hits| && 0 <= hits[j] < n ==> hits[j] in r
  {
    Filter(hits, i => 0 <= i < n)
  }

  /** `metas[i] if i < len(metas) else {"source": "unknown"}`. */
  function MetadataAt(metas: seq<Metadata>, i: nat): Metadata {
    if i < |metas| then metas[i] else UnknownSource
  }

  /**
   * retrieve. `search(query, n)` stands for embedding the query and asking
   * the index for `n > 0` neighbours; it may return -1 or any other integer.
   * `k` arrives unchecked from the request, so the count can be 0 or less.
   */
  function Retrieve(disk: Store, query: string, k: int, search: (string, int) -> seq<int>): (r: Retrieved)
    ensures r == SearchRejected <==> Load(disk).documents != [] && SearchCount(disk, k) <= 0
    ensures r.Retrieved? ==> |r.documents| == |r.metadatas|
    ensures Load(disk).documents == [] ==> r == Retrieved([], [])
    ensures Load(disk).documents != [] && SearchCount(disk, k) > 0 ==>
      var hits := InRange(search(query, SearchCount(disk, k)), |disk.documents|);
      && r.Retrieved?
      && |r.documents| == |hits|
      && forall j :: 0 <= j < |hits| ==>
           r.documents[j] == disk.documents[hits[j]] && r.metadatas[j] == MetadataAt(disk.metadatas, hits[j])
  {
    var loaded := Load(disk);
    if loaded.documents == [] then Retrieved([], [])
    else if SearchCount(disk, k) <= 0 then SearchRejected
    else
      var docs, metas := loaded.documents, loaded.metadatas;
      var hits := InRange(search(query, SearchCount(disk, k)), |docs|);
      Retrieved(seq(|hits|, j requires 0 <= j < |hits| => docs[hits[j]]),
                seq(|hits|, j requires 0 <= j < |hits| => MetadataAt(metas, hits[j])))
  }

  /**
   * Everything retrieve returns comes from the store: each document is a
   * stored chunk, each metadata a stored record or the "unknown"
   * placeholder, and on an aligned store never the placeholder unless stored.
   */
  lemma RetrieveDrawsFromStore(disk: Store, query: string, k: int, search: (string, int) -> seq<int>)
    ensures var r := Retrieve(disk, query, k, search);
      r.Retrieved? ==>
      && (forall j :: 0 <= j < |r.documents| ==> r.documents[j] in Load(disk).documents)
      && (forall j :: 0 <= j < |r.metadatas| ==>
            r.metadatas[j] in Load(disk).metadatas || r.metadatas[j] == UnknownSource)
      && (Aligned(disk) ==> forall j :: 0 <= j < |r.metadatas| ==> r.metadatas[j] in Load(disk).metadatas)
  {
    var r := Retrieve(disk, query, k, search);
    if r.Retrieved? && Load(disk).documents != [] {
      var hits := InRange(search(query, SearchCount(disk, k)), |disk.documents|);
      forall j | 0 <= j < |r.metadatas|
        ensures r.metadatas[j] in Load(disk).metadatas || r.metadatas[j] == UnknownSource
        ensures Aligned(disk) ==> r.metadatas[j] in Load(disk).metadatas
      {
        assert 0 <= hits[j] < |disk.documents|;
      }
    }
  }

  /** When the search honours its count, retrieve returns at most `k` results, and at most `ntotal`. */
  lemma RetrieveBound(disk: Store, query: string, k: int, search: (string, int) -> seq<int>)
    requires |search(query, SearchCount(disk, k))| <= if SearchCount(disk, k) < 0 then 0 else SearchCount(disk, k)
    ensures var r := Retrieve(disk, query, k, search);
      r.Retrieved? ==> |r.documents| <= (if k < 0 then 0 else k) && |r.documents| <= Ntotal(disk)
  {
  }

  /** get_document_count: the number of stored chunks, 0 without an index file. */
  function DocumentCount(disk: Store): (n: nat)
    ensures disk.index.None? ==> n == 0
    ensures disk.index.Some? ==> n == |disk.documents|
  {
    |Load(disk).documents|
  }

  /** is_index_ready: an index file exists and the pickle holds at least one chunk. */
  predicate IsIndexReady(disk: Store)
    ensures IsIndexReady(disk) <==> disk.index.Some? && disk.documents != []
  {
    DocumentCount(disk) > 0
  }

  /**
   * The store is ready exactly when retrieve does more than answer
   * `([], [])`: with a positive count and a search that finds position 0 it
   * returns a document, and with a non-positive count the search fails.
   */
  lemma ReadyIffRetrievable(disk: Store, query: string, k: int, search: (string, int) -> seq<int>)
    requires search(query, SearchCount(disk, k)) == [0]
    ensures IsIndexReady(disk) <==> Retrieve(disk, query, k, search) != Retrieved([], [])
    ensures IsIndexReady(disk) && SearchCount(disk, k) > 0 ==>
      Retrieve(disk, query, k, search).Retrieved? && Retrieve(disk, query, k, search).documents != []
  {
    if IsIndexReady(disk) && SearchCount(disk, k) > 0 {
      var hits := InRange([0], |disk.documents|);
      assert 0 in hits;
    }
  }

  // ------------------------------------------------------------ get_indexed_documents

  /** A dict whose "source" is a non-empty string (truthy). */
  predicate Named(m: Metadata) {
    m.Dict? && m.source.Some? && m.source.value != ""
  }

  /** The distinct truthy sources among the metadata records. */
  function Sources(metas: seq<Metadata>): (names: set<string>)
    ensures forall s :: s in names <==>
      exists i :: 0 <= i < |metas| && Named(metas[i]) && metas[i].source.value == s
    decreases |metas|
  {
    if metas == [] then {}
    else
      var init := metas[..|metas| - 1];
      var m := Last(metas);
      assert forall i :: 0 <= i < |init| ==> init[i] == metas[i];
      Sources(init) + (if Named(m) then {m.source.value} else {})
  }

  /**
   * Ingesting `n > 0` chunks under `source` adds exactly that source to the
   * listed documents when it is non-empty, and nothing otherwise.
   */
  lemma SourcesAfterIngest(metas: seq<Metadata>, source: string, n: nat)
    requires n > 0
    ensures Sources(metas + Repeat(Dict(Some(source)), n)) ==
      Sources(metas) + (if source != "" then {source} else {})
  {
    var all := metas + Repeat(Dict(Some(source)), n);
    forall s
      ensures s in Sources(all) <==> s in Sources(metas) + (if source != "" then {source} else {})
    {
      if s in Sources(all) {
        var i :| 0 <= i < |all| && Named(all[i]) && all[i].source.value == s;
        if i < |metas| {
          assert metas[i] == all[i];
        }
      }
      if s in Sources(metas) {
        var i :| 0 <= i < |metas| && Named(metas[i]) && metas[i].source.value == s;
        assert all[i] == metas[i];
      }
      if source != "" && s == source {
        assert all[|metas|] == Dict(Some(source));
      }
    }
  }

  /**
   * get_indexed_documents: no names while the store holds no chunks;
   * otherwise each truthy source exactly once, in an unspecified order.
   */
  method GetIndexedDocuments(disk: Store) returns (names: seq<string>)
    ensures Load(disk).documents == [] ==> names == []
    ensures Load(disk).documents != [] ==>
      Distinct(names) && forall s :: s in names <==> s in Sources(disk.metadatas)
  {
    var loaded := Load(disk);
    if loaded.documents == [] {
      return [];
    }
    var metas := loaded.metadatas;
    var found: set<string> := {};
    var i := 0;
    while i < |metas|
      invariant 0 <= i <= |metas|
      invariant found == Sources(metas[..i])
    {
      var m := metas[i];
      if m.Dict? && m.source.Some? && m.source.value != "" {
        found := found + {m.source.value};
      }
      assert metas[..i + 1][..i] == metas[..i];
      i := i + 1;
    }
    assert metas[..i] == metas;
    names := [];
    var rest := found;
    while rest != {}
      invariant rest <= found
      invariant forall s :: s in names <==> s in found && s !in rest
      invariant Distinct(names)
      decreases |rest|
    {
      var s :| s in rest;
      names := names + [s];
      rest := rest - {s};
    }
  }
}
