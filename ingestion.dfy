/**
 * The ingestion script: provisioning the collection and the loop that
 * scrapes each source page, splits it, embeds each chunk, validates the
 * embedding and inserts the valid ones, counting processed and skipped
 * chunks. Every call into a provider is replaced by the outcome it had:
 * whether the page could be scraped and split and into which chunks, what
 * the embedding call returned for each chunk, and whether the insert failed.
 */
module Ingestion {
  import opened Results
  import opened Seqs
  import opened Embedding

  /** The pages the script loads, in the order it loads them. */
  const SourceUrls: seq<string> := [
    "https://www.autosport.com/f1/",
    "http://www.gptoday.com/",
    "https://motorsportstats.com/",
    "https://en.wikipedia.org/wiki/2025_Formula_One_World_Championship",
    "https://en.wikipedia.org/wiki/2025_F1_Academy_season",
    "https://en.wikipedia.org/wiki/List_of_Formula_One_World_Drivers'_Champions",
    "https://en.wikipedia.org/wiki/List_of_Formula_One_Grand_Prix_winners",
    "https://en.wikipedia.org/wiki/List_of_Formula_One_circuits",
    "https://en.wikipedia.org/wiki/2026_Formula_One_World_Championship"
  ]

  /** What `openai.embeddings.create(...).data[0].embedding` gave: a thrown error, or some value. */
  datatype EmbedOutcome = EmbedFailed | Embedded(vector: JsValue)

  /** One chunk of a page, with what happened when it was embedded and, if attempted, inserted. */
  datatype Chunk = Chunk(text: string, embed: EmbedOutcome, insertFails: bool)

  /** What scraping and splitting one page gave. */
  datatype PageOutcome = ScrapeFailed | SplitFailed | Split(chunks: seq<Chunk>)

  datatype Page = Page(url: string, outcome: PageOutcome)

  /** A document of the collection: `{ $vector, text }`. */
  datatype StoredRecord = StoredRecord(vector: JsValue, text: string)

  datatype ProvisionError = ListError | CreateError

  datatype Report = Report(processed: nat, skipped: nat)

  /** The page list is the script's own list of source URLs, in order. */
  predicate IsSourceList(pages: seq<Page>) {
    |pages| == |SourceUrls| && forall i :: 0 <= i < |pages| ==> pages[i].url == SourceUrls[i]
  }

  /** The chunk reaches the store: it was embedded, the vector is valid and the insert succeeded. */
  predicate IsStored(c: Chunk) {
    c.embed.Embedded? && IsValidEmbedding(c.embed.vector) && !c.insertFails
  }

  function RecordOf(c: Chunk): StoredRecord
    requires c.embed.Embedded?
  {
    StoredRecord(c.embed.vector, c.text)
  }

  /** The chunks the loop visits for a page: none when scraping or splitting failed. */
  function ChunksOf(p: Page): seq<Chunk> {
    if p.outcome.Split? then p.outcome.chunks else []
  }

  // ----- specification: what the loop leaves behind -----

  /** The records inserted for a list of chunks, in chunk order. */
  function ChunkRecords(cs: seq<Chunk>): seq<StoredRecord> {
    if cs == [] then []
    else
      var c := cs[|cs| - 1];
      ChunkRecords(cs[..|cs| - 1]) + (if IsStored(c) then [RecordOf(c)] else [])
  }

  /** How many of the chunks did not reach the store. */
  function ChunkSkips(cs: seq<Chunk>): nat {
    if cs == [] then 0
    else ChunkSkips(cs[..|cs| - 1]) + (if IsStored(cs[|cs| - 1]) then 0 else 1)
  }

  /** The records inserted for a list of pages, in page order. */
  function Records(pages: seq<Page>): seq<StoredRecord> {
    if pages == [] then []
    else Records(pages[..|pages| - 1]) + ChunkRecords(ChunksOf(pages[|pages| - 1]))
  }

  function Skipped(pages: seq<Page>): nat {
    if pages == [] then 0
    else Skipped(pages[..|pages| - 1]) + ChunkSkips(ChunksOf(pages[|pages| - 1]))
  }

  /** The number of chunks of the pages that were scraped and split. */
  function ChunkTotal(pages: seq<Page>): nat {
    if pages == [] then 0
    else ChunkTotal(pages[..|pages| - 1]) + |ChunksOf(pages[|pages| - 1])|
  }

  /** All chunks of all pages, pages in list order and chunks in split order. */
  function AllChunks(pages: seq<Page>): seq<Chunk> {
    if pages == [] then []
    else AllChunks(pages[..|pages| - 1]) + ChunksOf(pages[|pages| - 1])
  }

  function RecordTexts(rs: seq<StoredRecord>): seq<string> {
    if rs == [] then [] else RecordTexts(rs[..|rs| - 1]) + [rs[|rs| - 1].text]
  }

  function ChunkTexts(cs: seq<Chunk>): seq<string> {
    if cs == [] then [] else ChunkTexts(cs[..|cs| - 1]) + [cs[|cs| - 1].text]
  }

  // ----- the vector database -----

  /** The database: its collections' names, how often creation was requested, and the configured collection's documents. */
  class Database {
    var collectionNames: seq<string>
    var creations: nat
    var records: seq<StoredRecord>

    constructor (names: seq<string>)
      ensures collectionNames == names && creations == 0 && records == []
    {
      collectionNames := names;
      creations := 0;
      records := [];
    }

    /**
     * `checkAndCreateCollection`: list the collections; if one has the name,
     * return; otherwise create it. An error from listing or creating is
     * rethrown. `listFails` and `createFails` say whether those calls throw.
     */
    method CheckAndCreateCollection(name: string, listFails: bool, createFails: bool) returns (r: Outcome<ProvisionError>)
      modifies this
      ensures records == old(records)
      ensures r.Pass? ==> name in collectionNames
      ensures listFails ==>
        r == Fail(ListError) && collectionNames == old(collectionNames) && creations == old(creations)
      ensures !listFails && name in old(collectionNames) ==>
        r == Pass && collectionNames == old(collectionNames) && creations == old(creations)
      ensures !listFails && name !in old(collectionNames) ==>
        creations == old(creations) + 1 &&
        if createFails then r == Fail(CreateError) && collectionNames == old(collectionNames)
        else r == Pass && collectionNames == old(collectionNames) + [name]
    {
      if listFails {
        return Fail(ListError);
      }
      var collections := collectionNames;
      var collectionExists := name in collections;
      if collectionExists {
        return Pass;
      }
      creations := creations + 1;
      if createFails {
        return Fail(CreateError);
      }
      collectionNames := collectionNames + [name];
      return Pass;
    }

    /** `collection.insertOne(record)`; `fails` says whether the call throws, in which case nothing is stored. */
    method InsertOne(record: StoredRecord, fails: bool) returns (ok: bool)
      modifies this
      ensures ok == !fails
      ensures records == if ok then old(records) + [record] else old(records)
      ensures collectionNames == old(collectionNames) && creations == old(creations)
    {
      if fails {
        return false;
      }
      records := records + [record];
      return true;
    }
  }

  /**
   * Two provisioning calls in a row: once the first has returned normally,
   * a second that can list the collections returns normally without
   * creating anything, so the pair requests at most one creation.
   */
  method ProvisionTwice(db: Database, name: string, listFails1: bool, createFails1: bool, listFails2: bool, createFails2: bool)
    returns (first: Outcome<ProvisionError>, second: Outcome<ProvisionError>)
    modifies db
    ensures first.Pass? && !listFails2 ==> second.Pass? && db.creations <= old(db.creations) + 1
    ensures name in old(db.collectionNames) ==> db.creations == old(db.creations)
    ensures db.records == old(db.records)
  {
    first := db.CheckAndCreateCollection(name, listFails1, createFails1);
    second := db.CheckAndCreateCollection(name, listFails2, createFails2);
  }

  /**
   * `loadSampleData`: for each page in order, and for each of its chunks in
   * order (see LoadPage and LoadChunks), validate the embedding and insert the chunk. A
   * page that could not be scraped or split contributes no chunk and leaves
   * both counters as they were.
   */
  method LoadSampleData(db: Database, pages: seq<Page>) returns (processed: nat, skipped: nat)
    modifies db
    ensures db.records == old(db.records) + Records(pages)
    ensures db.collectionNames == old(db.collectionNames) && db.creations == old(db.creations)
    ensures processed == |Records(pages)| && skipped == Skipped(pages)
  {
    processed, skipped := 0, 0;
    for i := 0 to |pages|
      invariant db.records == old(db.records) + Records(pages[..i])
      invariant db.collectionNames == old(db.collectionNames) && db.creations == old(db.creations)
      invariant processed == |Records(pages[..i])| && skipped == Skipped(pages[..i])
    {
      PageStep(pages, i);
      var stored, failed := LoadPage(db, pages[i]);
      processed, skipped := processed + stored, skipped + failed;
    }
    assert pages[..|pages|] == pages;
  }

  /**
   * The `try` block for one URL: a page that was scraped and split has its
   * chunks loaded; one whose scrape or split threw is only logged.
   */
  method LoadPage(db: Database, page: Page) returns (processed: nat, skipped: nat)
    modifies db
    ensures db.records == old(db.records) + ChunkRecords(ChunksOf(page))
    ensures db.collectionNames == old(db.collectionNames) && db.creations == old(db.creations)
    ensures processed == |ChunkRecords(ChunksOf(page))| && skipped == ChunkSkips(ChunksOf(page))
  {
    if page.outcome.Split? {
      processed, skipped := LoadChunks(db, page.outcome.chunks);
    } else {
      assert ChunkRecords(ChunksOf(page)) == [] && ChunkSkips(ChunksOf(page)) == 0;
      processed, skipped := 0, 0;
    }
  }

  /**
   * The inner loop of `loadSampleData` over the chunks of one page: a chunk
   * whose embedding call failed, whose vector is invalid, or whose insert
   * failed is counted as skipped; every other chunk is inserted and counted
   * as processed.
   */
  method LoadChunks(db: Database, chunks: seq<Chunk>) returns (processed: nat, skipped: nat)
    modifies db
    ensures db.records == old(db.records) + ChunkRecords(chunks)
    ensures db.collectionNames == old(db.collectionNames) && db.creations == old(db.creations)
    ensures processed == |ChunkRecords(chunks)| && skipped == ChunkSkips(chunks)
  {
    processed, skipped := 0, 0;
    for j := 0 to |chunks|
      invariant db.records == old(db.records) + ChunkRecords(chunks[..j])
      invariant db.collectionNames == old(db.collectionNames) && db.creations == old(db.creations)
      invariant processed == |ChunkRecords(chunks[..j])| && skipped == ChunkSkips(chunks[..j])
    {
      ChunkStep(chunks, j);
      var chunk := chunks[j];
      if chunk.embed.EmbedFailed? {
        skipped := skipped + 1;
      } else if !IsValidEmbedding(chunk.embed.vector) {
        skipped := skipped + 1;
      } else {
        var ok := db.InsertOne(StoredRecord(chunk.embed.vector, chunk.text), chunk.insertFails);
        if ok {
          processed := processed + 1;
        } else {
          skipped := skipped + 1;
        }
      }
    }
    assert chunks[..|chunks|] == chunks;
  }

  /** The state after page `i` is the state before it plus that page's chunks. */
  lemma PageStep(pages: seq<Page>, i: nat)
    requires i < |pages|
    ensures Records(pages[..i + 1]) == Records(pages[..i]) + ChunkRecords(ChunksOf(pages[i]))
    ensures Skipped(pages[..i + 1]) == Skipped(pages[..i]) + ChunkSkips(ChunksOf(pages[i]))
  {
    assert pages[..i + 1][..i] == pages[..i];
  }

  /** The state after chunk `j` is the state before it plus that chunk's record or skip. */
  lemma ChunkStep(cs: seq<Chunk>, j: nat)
    requires j < |cs|
    ensures ChunkRecords(cs[..j + 1]) == ChunkRecords(cs[..j]) + (if IsStored(cs[j]) then [RecordOf(cs[j])] else [])
    ensures ChunkSkips(cs[..j + 1]) == ChunkSkips(cs[..j]) + (if IsStored(cs[j]) then 0 else 1)
  {
    assert cs[..j + 1][..j] == cs[..j];
  }

  /** The script's entry: provision the collection, and load the data only once that has succeeded. */
  method ProvisionThenLoad(db: Database, name: string, listFails: bool, createFails: bool, pages: seq<Page>)
    returns (r: Result<Report, ProvisionError>)
    requires IsSourceList(pages)
    modifies db
    ensures r.Failure? ==> db.records == old(db.records)
    ensures r.Failure? <==> listFails || (name !in old(db.collectionNames) && createFails)
    ensures r.Success? ==>
      name in db.collectionNames &&
      db.records == old(db.records) + Records(pages) &&
      r.value == Report(|Records(pages)|, Skipped(pages))
  {
    var provisioned := db.CheckAndCreateCollection(name, listFails, createFails);
    if provisioned.Fail? {
      return Failure(provisioned.error);
    }
    var processed, skipped := LoadSampleData(db, pages);
    return Success(Report(processed, skipped));
  }

  // ----- properties of the specification -----

  lemma {:induction false} ChunkRecordsAreValid(cs: seq<Chunk>)
    ensures forall r :: r in ChunkRecords(cs) ==> IsValidEmbedding(r.vector)
    decreases |cs|
  {
    if cs != [] {
      ChunkRecordsAreValid(cs[..|cs| - 1]);
    }
  }

  /** No record with an invalid embedding is ever inserted. */
  lemma {:induction false} RecordsAreValid(pages: seq<Page>)
    ensures forall r :: r in Records(pages) ==> IsValidEmbedding(r.vector)
    decreases |pages|
  {
    if pages != [] {
      RecordsAreValid(pages[..|pages| - 1]);
      ChunkRecordsAreValid(ChunksOf(pages[|pages| - 1]));
    }
  }

  lemma {:induction false} ChunkConservation(cs: seq<Chunk>)
    ensures |ChunkRecords(cs)| + ChunkSkips(cs) == |cs|
    decreases |cs|
  {
    if cs != [] {
      ChunkConservation(cs[..|cs| - 1]);
    }
  }

  /** Every chunk of a scraped and split page is counted exactly once, as processed or as skipped. */
  lemma {:induction false} Conservation(pages: seq<Page>)
    ensures |Records(pages)| + Skipped(pages) == ChunkTotal(pages)
    decreases |pages|
  {
    if pages != [] {
      Conservation(pages[..|pages| - 1]);
      ChunkConservation(ChunksOf(pages[|pages| - 1]));
    }
  }

  /** Loading two lists of pages one after the other is loading their concatenation. */
  lemma {:induction false} LoadAppend(a: seq<Page>, b: seq<Page>)
    ensures Records(a + b) == Records(a) + Records(b)
    ensures Skipped(a + b) == Skipped(a) + Skipped(b)
    ensures ChunkTotal(a + b) == ChunkTotal(a) + ChunkTotal(b)
    decreases |b|
  {
    if b == [] {
      assert a + b == a;
    } else {
      var b', last := b[..|b| - 1], ChunksOf(b[|b| - 1]);
      assert (a + b)[..|a + b| - 1] == a + b';
      assert (a + b)[|a + b| - 1] == b[|b| - 1];
      LoadAppend(a, b');
      assert Records(a + b) == Records(a + b') + ChunkRecords(last);
      assert Records(b) == Records(b') + ChunkRecords(last);
      assert Skipped(a + b) == Skipped(a + b') + ChunkSkips(last);
      assert ChunkTotal(a + b) == ChunkTotal(a + b') + |last|;
    }
  }

  /** A page that could not be scraped or split changes neither the records nor the counters, wherever it stands. */
  lemma FailedPageIsInert(pages: seq<Page>, i: nat)
    requires i < |pages| && !pages[i].outcome.Split?
    ensures Records(pages) == Records(pages[..i] + pages[i + 1..])
    ensures Skipped(pages) == Skipped(pages[..i] + pages[i + 1..])
    ensures ChunkTotal(pages) == ChunkTotal(pages[..i] + pages[i + 1..])
  {
    var pre, post := pages[..i], pages[i + 1..];
    var failed := [pages[i]];
    assert pages == (pre + failed) + post;
    FailedPageAlone(pages[i]);
    LoadAppend(pre + failed, post);
    LoadAppend(pre, failed);
    LoadAppend(pre, post);
    assert Records(pre + failed) == Records(pre);
    assert Records(pages) == Records(pre) + Records(post);
  }

  lemma FailedPageAlone(p: Page)
    requires !p.outcome.Split?
    ensures Records([p]) == [] && Skipped([p]) == 0 && ChunkTotal([p]) == 0
  {
    assert [p][..0] == [] && [p][0] == p && ChunksOf(p) == [];
    assert ChunkRecords([]) == [] && ChunkSkips([]) == 0;
  }

  lemma {:induction false} ChunkRecordsAppend(a: seq<Chunk>, b: seq<Chunk>)
    ensures ChunkRecords(a + b) == ChunkRecords(a) + ChunkRecords(b)
    decreases |b|
  {
    if b == [] {
      assert a + b == a;
    } else {
      var b' := b[..|b| - 1];
      assert (a + b)[..|a + b| - 1] == a + b';
      assert (a + b)[|a + b| - 1] == b[|b| - 1];
      ChunkRecordsAppend(a, b');
    }
  }

  /** The records are those of all chunks taken page by page and, within a page, in split order. */
  lemma {:induction false} RecordsFollowChunkOrder(pages: seq<Page>)
    ensures Records(pages) == ChunkRecords(AllChunks(pages))
    decreases |pages|
  {
    if pages != [] {
      RecordsFollowChunkOrder(pages[..|pages| - 1]);
      ChunkRecordsAppend(AllChunks(pages[..|pages| - 1]), ChunksOf(pages[|pages| - 1]));
    }
  }

  /** The inserted texts are the chunk texts with the skipped ones left out, in their original order. */
  lemma {:induction false} InsertedTextsAreSubsequence(cs: seq<Chunk>)
    ensures IsSubsequence(RecordTexts(ChunkRecords(cs)), ChunkTexts(cs))
    decreases |cs|
  {
    if cs != [] {
      var init := cs[..|cs| - 1];
      var c := cs[|cs| - 1];
      InsertedTextsAreSubsequence(init);
      if IsStored(c) {
        var rs := ChunkRecords(init) + [RecordOf(c)];
        assert rs[..|rs| - 1] == ChunkRecords(init);
        assert RecordTexts(rs) == RecordTexts(ChunkRecords(init)) + [c.text];
        SubsequenceAppendBoth(RecordTexts(ChunkRecords(init)), ChunkTexts(init), c.text);
      } else {
        assert ChunkRecords(cs) == ChunkRecords(init);
        SubsequenceAppendRight(RecordTexts(ChunkRecords(init)), ChunkTexts(init), c.text);
      }
    }
  }
}
