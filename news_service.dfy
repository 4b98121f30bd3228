/** The news service: ingestion of one upstream page into the article store,
    de-duplicated by URL, followed by a page read back from the store; a
    store-only page read; and the administrative bulk insert.

    The store is the `News` table: a sequence of rows in insertion order with
    an auto-increment primary key. A page of the store is a window of the
    rows ordered by date, newest first. The order of rows with equal dates is
    left open: a page is a window of SOME date-descending ordering of the
    rows. */
module NewsService {
  import opened Common

  /** The `source` JSON column. */
  datatype Source = Source(id: Option<string>, name: string)

  /** A row of the News table. `date` is a timestamp in milliseconds. */
  datatype News = News(
    id: nat, newsid: string, title: string, description: Option<string>,
    content: Option<string>, url: string, urlToImage: Option<string>,
    source: Source, date: int)

  /** An entity built by `create` but not yet saved: everything except the id. */
  datatype Draft = Draft(
    newsid: string, title: string, description: Option<string>,
    content: Option<string>, url: string, urlToImage: Option<string>,
    source: Source, date: int)

  /** One article of the upstream feed. `publishedAt` is the parsed timestamp
      when the field is present and non-empty. */
  datatype Article = Article(
    title: string, description: Option<string>, content: Option<string>,
    url: Option<string>, urlToImage: Option<string>, source: Source,
    publishedAt: Option<int>)

  /** The upstream body: `articles` (absent when the body lacks the field) and `totalResults`. */
  datatype Feed = Feed(articles: Option<seq<Article>>, totalResults: int)

  /** One entry of a bulk-load request (`date` already parsed). */
  datatype BulkArticle = BulkArticle(
    newsid: string, title: string, description: Option<string>,
    content: Option<string>, url: Option<string>, urlToImage: Option<string>,
    source: Source, date: int)

  datatype NewsPage = NewsPage(articles: seq<News>, totalResults: int)

  datatype DbPage = DbPage(articles: seq<News>, totalCount: int)

  /** The constructor's check that the feed's API key is configured. */
  function ConfigureNews(apiKey: Option<string>): (r: Raised<string>)
    ensures r.Returned? <==> Truthy(apiKey)
    ensures r.Returned? ==> r.value == apiKey.value
  {
    if Truthy(apiKey) then Returned(apiKey.value)
    else Threw(PlainError("NEWS_API_KEY environment variable is not set."))
  }

  function FeedError(): ServiceError {
    PlainError("Failed to fetch news from external source")
  }

  function NotIterableError(): ServiceError {
    PlainError("response.data.articles is not iterable")
  }

  function BulkError(): ServiceError {
    HttpException(InternalServerError)
  }

  /** The row `save` stores for a draft: its fields under the generated key. */
  function Saved(d: Draft, id: nat): (n: News)
    ensures n.id == id && n.url == d.url && n.date == d.date && n.newsid == d.newsid
    ensures n.title == d.title && n.description == d.description && n.content == d.content
    ensures n.urlToImage == d.urlToImage && n.source == d.source
  {
    News(id, d.newsid, d.title, d.description, d.content, d.url, d.urlToImage, d.source, d.date)
  }

  // ------------------------------------------------------------- look-ups

  /** `findOneBy({ url })`: the first row with that URL. */
  function UrlIndex(rows: seq<News>, url: string): (r: Option<nat>)
    ensures r.Some? ==> r.value < |rows| && rows[r.value].url == url
    ensures r.None? <==> forall k :: 0 <= k < |rows| ==> rows[k].url != url
  {
    FirstIndex(rows, (n: News) => n.url == url)
  }

  ghost predicate UrlsDistinct(rows: seq<News>) {
    forall i, j | 0 <= i < j < |rows| :: rows[i].url != rows[j].url
  }

  /** Primary keys increase along the table and stay below the next key. */
  ghost predicate KeysBelow(rows: seq<News>, nextId: nat) {
    && (forall i | 0 <= i < |rows| :: rows[i].id < nextId)
    && (forall i, j | 0 <= i < j < |rows| :: rows[i].id < rows[j].id)
  }

  // ------------------------------------------------------------- ordering

  ghost predicate NewestFirst(o: seq<News>) {
    forall i, j | 0 <= i < j < |o| :: o[i].date >= o[j].date
  }

  /** `o` is the store ordered by `date: 'DESC'`, ties in any order. */
  ghost predicate DateDescOrderOf(o: seq<News>, rows: seq<News>) {
    multiset(o) == multiset(rows) && NewestFirst(o)
  }

  /** `skip` then `take`. */
  function Window(o: seq<News>, skip: nat, take: nat): (w: seq<News>)
    ensures |w| == if skip >= |o| then 0 else if skip + take <= |o| then take else |o| - skip
    ensures forall k | 0 <= k < |w| :: w[k] == o[skip + k]
  {
    if skip >= |o| then [] else if skip + take <= |o| then o[skip..skip + take] else o[skip..]
  }

  /** `page` is what `find({ order: { date: 'DESC' }, skip, take })` may return. */
  ghost predicate IsPageOf(page: seq<News>, rows: seq<News>, skip: nat, take: nat) {
    exists o :: DateDescOrderOf(o, rows) && page == Window(o, skip, take)
  }

  /** A row no older than the head of a newest-first list may be put in front of it. */
  lemma ConsNewestFirst(h: News, t: seq<News>)
    requires NewestFirst(t)
    requires t != [] ==> h.date >= t[0].date
    ensures NewestFirst([h] + t)
  {
    var o := [h] + t;
    forall i, j | 0 <= i < j < |o|
      ensures o[i].date >= o[j].date
    {
      if i > 0 {
        assert o[i] == t[i - 1] && o[j] == t[j - 1];
      } else {
        assert o[j] == t[j - 1];
      }
    }
  }

  /** The tail of a newest-first list is newest-first. */
  lemma TailNewestFirst(s: seq<News>)
    requires s != [] && NewestFirst(s)
    ensures NewestFirst(s[1..])
  {
    forall i, j | 0 <= i < j < |s[1..]| ensures s[1..][i].date >= s[1..][j].date {
      assert s[1..][i] == s[i + 1] && s[1..][j] == s[j + 1];
    }
  }

  /** Putting the old head back in front of `rest`, the tail with `x` inserted. */
  lemma InsertBehindHead(x: News, s: seq<News>, rest: seq<News>)
    requires s != [] && x.date < s[0].date && NewestFirst(rest)
    requires multiset(rest) == multiset(s[1..]) + multiset{x}
    requires rest != [] && (rest[0] == x || (s[1..] != [] && rest[0] == s[1..][0]))
    requires NewestFirst(s)
    ensures NewestFirst([s[0]] + rest)
    ensures multiset([s[0]] + rest) == multiset(s) + multiset{x}
  {
    assert rest[0].date <= s[0].date;
    ConsNewestFirst(s[0], rest);
    assert s == [s[0]] + s[1..];
    assert multiset(s) == multiset{s[0]} + multiset(s[1..]);
  }

  function InsertByDate(x: News, s: seq<News>): (r: seq<News>)
    requires NewestFirst(s)
    ensures NewestFirst(r)
    ensures multiset(r) == multiset(s) + multiset{x}
    ensures |r| == |s| + 1
    ensures r[0] == x || (s != [] && r[0] == s[0])
  {
    if s == [] then [x]
    else if x.date >= s[0].date then
      ConsNewestFirst(x, s);
      [x] + s
    else
      TailNewestFirst(s);
      var rest := InsertByDate(x, s[1..]);
      InsertBehindHead(x, s, rest);
      [s[0]] + rest
  }

  /** One date-descending ordering of the rows (stable insertion sort). */
  function SortByDate(rows: seq<News>): (r: seq<News>)
    ensures DateDescOrderOf(r, rows)
  {
    if rows == [] then []
    else
      assert rows == rows[..|rows| - 1] + [rows[|rows| - 1]];
      InsertByDate(rows[|rows| - 1], SortByDate(rows[..|rows| - 1]))
  }

  /** Every page of the store holds exactly the expected number of rows, all
      of them stored, newest first. */
  lemma {:induction false} PageShape(page: seq<News>, rows: seq<News>, skip: nat, take: nat)
    requires IsPageOf(page, rows, skip, take)
    ensures |page| == if skip >= |rows| then 0 else if skip + take <= |rows| then take else |rows| - skip
    ensures |page| <= take
    ensures forall k | 0 <= k < |page| :: page[k] in rows
    ensures NewestFirst(page)
  {
    var o :| DateDescOrderOf(o, rows) && page == Window(o, skip, take);
    assert |o| == |multiset(o)| == |multiset(rows)| == |rows|;
    forall k | 0 <= k < |page| ensures page[k] in rows {
      assert page[k] == o[skip + k];
      assert o[skip + k] in multiset(o);
    }
  }

  /** The first page starts with a newest row of the store. */
  lemma {:induction false} FirstPageStartsWithNewest(page: seq<News>, rows: seq<News>, take: nat)
    requires IsPageOf(page, rows, 0, take) && take > 0 && rows != []
    ensures page != [] && forall k | 0 <= k < |rows| :: rows[k].date <= page[0].date
  {
    var o :| DateDescOrderOf(o, rows) && page == Window(o, 0, take);
    assert |o| == |multiset(o)| == |multiset(rows)| == |rows|;
    forall k | 0 <= k < |rows| ensures rows[k].date <= page[0].date {
      assert rows[k] in multiset(o);
      var m :| 0 <= m < |o| && o[m] == rows[k];
    }
  }

  // ------------------------------------------------------------ ingestion

  /** The entity `getNews` creates for an article it has not seen before. */
  function DraftOf(a: Article, newsid: string, now: int): (d: Draft)
    requires Truthy(a.url)
    ensures d.newsid == newsid && d.url == a.url.value && d.title == a.title
    ensures d.description == a.description && d.content == a.content
    ensures d.urlToImage == a.urlToImage && d.source == a.source
    ensures d.date == if a.publishedAt.Some? then a.publishedAt.value else now
  {
    Draft(newsid, a.title, a.description, a.content, a.url.value, a.urlToImage, a.source,
          if a.publishedAt.Some? then a.publishedAt.value else now)
  }

  /** The store and the loop's counter during ingestion. */
  datatype Ingest = Ingest(rows: seq<News>, nextId: nat, saved: nat)

  /** One iteration of the ingestion loop: skip an article without a URL,
      skip one whose URL is stored, otherwise try to save it; a failed save
      is swallowed and leaves the store as it was. */
  function Step(st: Ingest, a: Article, newsid: string, fails: bool, now: int): Ingest {
    if !Truthy(a.url) then st
    else if UrlIndex(st.rows, a.url.value).Some? then st
    else if fails then st
    else Ingest(st.rows + [Saved(DraftOf(a, newsid, now), st.nextId)], st.nextId + 1, st.saved + 1)
  }

  /** The state after the first `i` articles; article `j` uses id `uuids[j]`
      and its save fails exactly when `j in failing`. */
  function IngestUpTo(st0: Ingest, articles: seq<Article>, uuids: seq<string>, failing: set<nat>, now: int, i: nat)
    : (st: Ingest)
    requires i <= |articles| && |uuids| == |articles|
    ensures |st0.rows| <= |st.rows| && st.rows[..|st0.rows|] == st0.rows
    ensures st.saved - st0.saved == |st.rows| - |st0.rows| == st.nextId - st0.nextId
    decreases i
  {
    if i == 0 then st0
    else Step(IngestUpTo(st0, articles, uuids, failing, now, i - 1), articles[i - 1], uuids[i - 1], (i - 1) in failing, now)
  }

  /** Some article among the first `i` carries `url`. */
  ghost predicate Carried(articles: seq<Article>, i: nat, url: string) {
    exists j | 0 <= j < i && j < |articles| :: articles[j].url == Some(url)
  }

  /** Every row past the first `from` has a URL carried by one of the first `i` articles. */
  ghost predicate AddedFromArticles(rows: seq<News>, from: nat, articles: seq<Article>, i: nat) {
    forall k | from <= k < |rows| :: rows[k].url != "" && Carried(articles, i, rows[k].url)
  }

  /** Rows added by ingestion all come from articles with a URL. */
  lemma {:induction false} IngestedRowsHaveUrls(st0: Ingest, articles: seq<Article>, uuids: seq<string>,
                                                failing: set<nat>, now: int, i: nat)
    requires i <= |articles| && |uuids| == |articles|
    ensures AddedFromArticles(IngestUpTo(st0, articles, uuids, failing, now, i).rows, |st0.rows|, articles, i)
  {
    if i > 0 {
      IngestedRowsHaveUrls(st0, articles, uuids, failing, now, i - 1);
      var prev := IngestUpTo(st0, articles, uuids, failing, now, i - 1);
      var st := IngestUpTo(st0, articles, uuids, failing, now, i);
      forall k | |st0.rows| <= k < |st.rows|
        ensures st.rows[k].url != "" && Carried(articles, i, st.rows[k].url)
      {
        if k < |prev.rows| {
          assert st.rows[k] == prev.rows[k];
          assert prev.rows[k].url != "" && Carried(articles, i - 1, prev.rows[k].url);
          var j :| 0 <= j < i - 1 && j < |articles| && articles[j].url == Some(prev.rows[k].url);
        } else {
          var a := articles[i - 1];
          assert Truthy(a.url) && st.rows == prev.rows + [Saved(DraftOf(a, uuids[i - 1], now), prev.nextId)];
          assert st.rows[k].url == a.url.value;
        }
      }
    }
  }

  /** No row past the first `from` repeats the URL of an earlier row. */
  ghost predicate NoRepeatAfter(rows: seq<News>, from: nat) {
    forall k, m | from <= k < |rows| && 0 <= m < k :: rows[m].url != rows[k].url
  }

  /** On any store, even one that already holds duplicate URLs, no row that
      ingestion adds repeats the URL of a row stored before it. */
  lemma {:induction false} IngestAddsNoRepeatedUrl(st0: Ingest, articles: seq<Article>, uuids: seq<string>,
                                                   failing: set<nat>, now: int, i: nat)
    requires i <= |articles| && |uuids| == |articles|
    ensures NoRepeatAfter(IngestUpTo(st0, articles, uuids, failing, now, i).rows, |st0.rows|)
  {
    if i > 0 {
      IngestAddsNoRepeatedUrl(st0, articles, uuids, failing, now, i - 1);
      var prev := IngestUpTo(st0, articles, uuids, failing, now, i - 1);
      var st := IngestUpTo(st0, articles, uuids, failing, now, i);
      var a := articles[i - 1];
      if st.rows != prev.rows {
        assert Truthy(a.url) && UrlIndex(prev.rows, a.url.value).None?;
        assert st.rows == prev.rows + [Saved(DraftOf(a, uuids[i - 1], now), prev.nextId)];
        forall k, m | |st0.rows| <= k < |st.rows| && 0 <= m < k
          ensures st.rows[m].url != st.rows[k].url
        {
          if k < |prev.rows| {
            assert st.rows[k] == prev.rows[k] && st.rows[m] == prev.rows[m];
          } else {
            assert st.rows[k].url == a.url.value && st.rows[m] == prev.rows[m];
          }
        }
      }
    }
  }

  /** Corollary: ingestion keeps a store free of duplicate URLs. */
  lemma {:induction false} IngestKeepsUrlsDistinct(st0: Ingest, articles: seq<Article>, uuids: seq<string>,
                                                   failing: set<nat>, now: int, i: nat)
    requires i <= |articles| && |uuids| == |articles|
    requires UrlsDistinct(st0.rows)
    ensures UrlsDistinct(IngestUpTo(st0, articles, uuids, failing, now, i).rows)
  {
    IngestAddsNoRepeatedUrl(st0, articles, uuids, failing, now, i);
  }

  /** With no failed saves, after the first `i` articles every URL they carry is stored. */
  lemma {:induction false} IngestStoresEveryUrl(st0: Ingest, articles: seq<Article>, uuids: seq<string>, now: int, i: nat)
    requires i <= |articles| && |uuids| == |articles|
    ensures var st := IngestUpTo(st0, articles, uuids, {}, now, i);
      forall j | 0 <= j < i && Truthy(articles[j].url) :: UrlIndex(st.rows, articles[j].url.value).Some?
  {
    if i > 0 {
      IngestStoresEveryUrl(st0, articles, uuids, now, i - 1);
      var prev := IngestUpTo(st0, articles, uuids, {}, now, i - 1);
      var st := IngestUpTo(st0, articles, uuids, {}, now, i);
      forall j | 0 <= j < i && Truthy(articles[j].url) ensures UrlIndex(st.rows, articles[j].url.value).Some? {
        if j < i - 1 {
          var k := UrlIndex(prev.rows, articles[j].url.value).value;
          assert st.rows[k] == prev.rows[k];
        } else if UrlIndex(prev.rows, articles[j].url.value).Some? {
          var k := UrlIndex(prev.rows, articles[j].url.value).value;
          assert st.rows[k] == prev.rows[k];
        } else {
          assert st.rows[|st.rows| - 1].url == articles[j].url.value;
        }
      }
    }
  }

  /** When every URL of the page is already stored, ingestion changes nothing. */
  lemma {:induction false} IngestOfStoredUrlsIsIdle(st0: Ingest, articles: seq<Article>, uuids: seq<string>,
                                                    failing: set<nat>, now: int, i: nat)
    requires i <= |articles| && |uuids| == |articles|
    requires forall j | 0 <= j < |articles| && Truthy(articles[j].url) :: UrlIndex(st0.rows, articles[j].url.value).Some?
    ensures IngestUpTo(st0, articles, uuids, failing, now, i) == st0
  {
    if i > 0 {
      IngestOfStoredUrlsIsIdle(st0, articles, uuids, failing, now, i - 1);
    }
  }

  /** Ingesting the same upstream page twice, with no failed saves: the second
      round saves nothing and leaves the store as the first round left it. */
  lemma IngestTwiceAddsNothing(rows: seq<News>, nextId: nat, articles: seq<Article>,
                                 uuids1: seq<string>, uuids2: seq<string>, now1: int, now2: int)
    requires |uuids1| == |articles| && |uuids2| == |articles|
    ensures var first := IngestUpTo(Ingest(rows, nextId, 0), articles, uuids1, {}, now1, |articles|);
      IngestUpTo(Ingest(first.rows, first.nextId, 0), articles, uuids2, {}, now2, |articles|)
        == Ingest(first.rows, first.nextId, 0)
  {
    var first := IngestUpTo(Ingest(rows, nextId, 0), articles, uuids1, {}, now1, |articles|);
    IngestStoresEveryUrl(Ingest(rows, nextId, 0), articles, uuids1, now1, |articles|);
    IngestOfStoredUrlsIsIdle(Ingest(first.rows, first.nextId, 0), articles, uuids2, {}, now2, |articles|);
  }

  // ----------------------------------------------------------- bulk insert

  function DraftOfBulk(a: BulkArticle): Draft
    requires Truthy(a.url)
  {
    Draft(a.newsid, a.title, a.description, a.content, a.url.value, a.urlToImage, a.source, a.date)
  }

  /** The `map`/`filter` of the bulk insert: the entries with a URL, in order. */
  function BulkEntities(articles: seq<BulkArticle>): (r: seq<Draft>)
    ensures |r| <= |articles|
    ensures forall k | 0 <= k < |r| :: r[k].url != ""
    ensures r == [] <==> forall j | 0 <= j < |articles| :: !Truthy(articles[j].url)
  {
    if articles == [] then []
    else if Truthy(articles[0].url) then [DraftOfBulk(articles[0])] + BulkEntities(articles[1..])
    else BulkEntities(articles[1..])
  }

  /** The positions from `from` on whose entry carries a URL: all of them,
      only them, in increasing order. */
  function UrlPositions(articles: seq<BulkArticle>, from: nat): (p: seq<nat>)
    requires from <= |articles|
    ensures forall k | 0 <= k < |p| :: from <= p[k] < |articles| && Truthy(articles[p[k]].url)
    ensures forall k, l | 0 <= k < l < |p| :: p[k] < p[l]
    ensures forall j | from <= j < |articles| && Truthy(articles[j].url) :: j in p
    decreases |articles| - from
  {
    if from == |articles| then []
    else if Truthy(articles[from].url) then [from] + UrlPositions(articles, from + 1)
    else UrlPositions(articles, from + 1)
  }

  /** The positions from `from` on whose entry carries a URL, as a set. */
  ghost function UrlSet(articles: seq<BulkArticle>, from: nat): set<nat> {
    set j: nat | from <= j < |articles| && Truthy(articles[j].url)
  }

  lemma UrlSetStep(articles: seq<BulkArticle>, from: nat)
    requires from < |articles|
    ensures from !in UrlSet(articles, from + 1)
    ensures UrlSet(articles, from) ==
            (if Truthy(articles[from].url) then {from} else {}) + UrlSet(articles, from + 1)
  {
  }

  /** There are as many such positions as entries with a URL. */
  lemma {:induction false} UrlPositionsCount(articles: seq<BulkArticle>, from: nat)
    requires from <= |articles|
    ensures |UrlPositions(articles, from)| == |UrlSet(articles, from)|
    decreases |articles| - from
  {
    if from == |articles| {
      assert UrlSet(articles, from) == {};
    } else {
      UrlPositionsCount(articles, from + 1);
      UrlSetStep(articles, from);
      var rest := UrlSet(articles, from + 1);
      if Truthy(articles[from].url) {
        assert |UrlPositions(articles, from)| == 1 + |UrlPositions(articles, from + 1)|;
        assert |{from} + rest| == 1 + |rest|;
      } else {
        assert UrlPositions(articles, from) == UrlPositions(articles, from + 1);
      }
    }
  }

  /** One step of the `map`/`filter`: the entry at `from` contributes its
      draft when it has a URL, and nothing otherwise. */
  lemma BulkEntitiesStep(articles: seq<BulkArticle>, from: nat)
    requires from < |articles|
    ensures BulkEntities(articles[from..]) ==
            (if Truthy(articles[from].url) then [DraftOfBulk(articles[from])] else []) + BulkEntities(articles[from + 1..])
  {
    assert articles[from..][1..] == articles[from + 1..];
    assert articles[from..][0] == articles[from];
  }

  /** Putting a draft and its position in front keeps drafts and positions aligned. */
  lemma AlignedCons(articles: seq<BulkArticle>, r: seq<Draft>, p: seq<nat>, x: nat)
    requires x < |articles| && Truthy(articles[x].url)
    requires forall k | 0 <= k < |p| :: p[k] < |articles| && Truthy(articles[p[k]].url)
    requires |r| == |p| && forall k | 0 <= k < |r| :: r[k] == DraftOfBulk(articles[p[k]])
    ensures forall k | 0 <= k < |r| + 1 :: ([DraftOfBulk(articles[x])] + r)[k] == DraftOfBulk(articles[([x] + p)[k]])
  {
    forall k | 0 <= k < |r| + 1
      ensures ([DraftOfBulk(articles[x])] + r)[k] == DraftOfBulk(articles[([x] + p)[k]])
    {
      if k > 0 {
        assert ([DraftOfBulk(articles[x])] + r)[k] == r[k - 1];
        assert ([x] + p)[k] == p[k - 1];
      }
    }
  }

  lemma {:induction false} BulkEntitiesFrom(articles: seq<BulkArticle>, from: nat)
    requires from <= |articles|
    ensures var r := BulkEntities(articles[from..]);
      var p := UrlPositions(articles, from);
      |r| == |p| && forall k | 0 <= k < |r| :: r[k] == DraftOfBulk(articles[p[k]])
    decreases |articles| - from
  {
    if from < |articles| {
      BulkEntitiesFrom(articles, from + 1);
      BulkEntitiesStep(articles, from);
      if Truthy(articles[from].url) {
        AlignedCons(articles, BulkEntities(articles[from + 1..]), UrlPositions(articles, from + 1), from);
      }
    }
  }

  /** The bulk entities are exactly the drafts of the entries with a URL, in
      input order: one per such entry, and nothing else. */
  lemma BulkEntitiesAreTheEntriesWithUrls(articles: seq<BulkArticle>)
    ensures |BulkEntities(articles)| == |set j: nat | 0 <= j < |articles| && Truthy(articles[j].url)|
    ensures var p := UrlPositions(articles, 0);
      |BulkEntities(articles)| == |p| && forall k | 0 <= k < |p| :: BulkEntities(articles)[k] == DraftOfBulk(articles[p[k]])
    ensures forall j | 0 <= j < |articles| && Truthy(articles[j].url) :: DraftOfBulk(articles[j]) in BulkEntities(articles)
  {
    BulkEntitiesFrom(articles, 0);
    assert articles[0..] == articles;
    UrlPositionsCount(articles, 0);
    assert UrlSet(articles, 0) == set j: nat | 0 <= j < |articles| && Truthy(articles[j].url);
    var r := BulkEntities(articles);
    var p := UrlPositions(articles, 0);
    forall j | 0 <= j < |articles| && Truthy(articles[j].url)
      ensures DraftOfBulk(articles[j]) in r
    {
      var k :| 0 <= k < |p| && p[k] == j;
      assert r[k] == DraftOfBulk(articles[j]);
    }
  }

  /** An entry with a URL is loaded whatever the other entries are, and an
      entry without one is dropped: the filter keeps exactly the entries
      with a URL. */
  lemma {:induction false} BulkEntitiesCount(articles: seq<BulkArticle>, j: nat)
    requires j < |articles|
    ensures Truthy(articles[j].url) ==>
              |BulkEntities(articles)| == |BulkEntities(articles[..j])| + 1 + |BulkEntities(articles[j + 1..])|
    ensures !Truthy(articles[j].url) ==>
              |BulkEntities(articles)| == |BulkEntities(articles[..j])| + |BulkEntities(articles[j + 1..])|
  {
    if j > 0 {
      BulkEntitiesCount(articles[1..], j - 1);
      assert articles[1..][..j - 1] == articles[1..j];
      assert articles[1..][j - 1 + 1..] == articles[j + 1..];
      assert articles[..j][1..] == articles[1..j];
    }
  }

  /** Five entries, one of them without a URL: four are loaded. */
  lemma FourOfFiveLoaded(a: BulkArticle, b: BulkArticle, c: BulkArticle, d: BulkArticle, e: BulkArticle)
    requires Truthy(a.url) && Truthy(b.url) && !Truthy(c.url) && Truthy(d.url) && Truthy(e.url)
    ensures |BulkEntities([a, b, c, d, e])| == 4
  {
    assert [e][1..] == [];
    assert |BulkEntities([e])| == 1;
    assert [d, e][1..] == [e];
    assert |BulkEntities([d, e])| == 2;
    assert [c, d, e][1..] == [d, e];
    assert |BulkEntities([c, d, e])| == 2;
    assert [b, c, d, e][1..] == [c, d, e];
    assert |BulkEntities([b, c, d, e])| == 3;
    assert [a, b, c, d, e][1..] == [b, c, d, e];
  }

  /** The rows `save(entities)` creates: one per entity, consecutive keys. */
  function WithKeys(drafts: seq<Draft>, start: nat): (r: seq<News>)
    ensures |r| == |drafts|
    ensures forall k | 0 <= k < |r| :: r[k] == Saved(drafts[k], start + k)
  {
    seq(|drafts|, k requires 0 <= k < |drafts| => Saved(drafts[k], start + k))
  }

  /** The rows a successful bulk insert appends: the drafts of the entries
      with a URL, in input order, under consecutive keys from `start`. */
  lemma BulkRows(articles: seq<BulkArticle>, start: nat)
    ensures var rows := WithKeys(BulkEntities(articles), start);
      var p := UrlPositions(articles, 0);
      && |rows| == |p| == |set j: nat | 0 <= j < |articles| && Truthy(articles[j].url)|
      && forall k | 0 <= k < |p| :: rows[k] == Saved(DraftOfBulk(articles[p[k]]), start + k)
  {
    BulkEntitiesAreTheEntriesWithUrls(articles);
  }

  /** The bulk path does not look at stored URLs, so loading an article whose
      URL is already stored leaves two rows with that URL. */
  lemma BulkInsertCanDuplicate(rows: seq<News>, nextId: nat, a: BulkArticle)
    requires Truthy(a.url) && UrlIndex(rows, a.url.value).Some?
    ensures !UrlsDistinct(rows + WithKeys(BulkEntities([a]), nextId))
  {
    var after := rows + WithKeys(BulkEntities([a]), nextId);
    var k := UrlIndex(rows, a.url.value).value;
    assert BulkEntities([a]) == [DraftOfBulk(a)] by {
      assert [a][1..] == [];
    }
    assert after[k].url == after[|rows|].url;
  }

  // -------------------------------------------------------------- service

  class Service {
    /** The News table, in insertion order. */
    var rows: seq<News>
    /** The next auto-increment key. */
    var nextId: nat

    ghost predicate Valid()
      reads this
    {
      KeysBelow(rows, nextId)
    }

    constructor ()
      ensures Valid() && rows == [] && nextId == 1
    {
      rows := [];
      nextId := 1;
    }

    /** `newsRepository.save(entity)`: inserts one row, or fails and inserts nothing. */
    method Save(d: Draft, fails: bool) returns (ok: bool)
      requires Valid()
      modifies this
      ensures Valid()
      ensures ok == !fails
      ensures rows == (if ok then old(rows) + [Saved(d, old(nextId))] else old(rows))
      ensures nextId == (if ok then old(nextId) + 1 else old(nextId))
    {
      if fails {
        ok := false;
        return;
      }
      rows := rows + [Saved(d, nextId)];
      nextId := nextId + 1;
      ok := true;
    }

    /** One pass of the ingestion loop over article `a`: the store and the
        saved count move exactly as `Step` says. */
    method IngestArticle(a: Article, newsid: string, fails: bool, now: int, count: nat) returns (count': nat)
      requires Valid()
      modifies this
      ensures Valid()
      ensures Ingest(rows, nextId, count') == Step(Ingest(old(rows), old(nextId), count), a, newsid, fails, now)
    {
      count' := count;
      if !Truthy(a.url) {
        return;
      }
      var existing := UrlIndex(rows, a.url.value);
      if existing.None? {
        var ok := Save(DraftOf(a, newsid, now), fails);
        if ok {
          count' := count + 1;
        }
      }
    }

    /** `find({ order: { date: 'DESC' }, skip, take })`. */
    method Find(skip: nat, take: nat) returns (page: seq<News>)
      ensures IsPageOf(page, rows, skip, take)
    {
      var ordered := SortByDate(rows);
      page := Window(ordered, skip, take);
    }

    /** GET news: ingest one upstream page, then serve a page of the store. */
    method GetNews(page: int, pageSize: int, upstream: Http<Feed>, uuids: seq<string>, failing: set<nat>, now: int)
      returns (r: Raised<NewsPage>)
      requires Valid() && page >= 1 && pageSize >= 1
      requires upstream.Body? && upstream.data.articles.Some? ==> |uuids| == |upstream.data.articles.value|
      modifies this
      ensures Valid()
      ensures upstream.Failure? ==> r == Threw(FeedError()) && rows == old(rows) && nextId == old(nextId)
      ensures upstream.Body? && upstream.data.articles.None? ==>
                r == Threw(NotIterableError()) && rows == old(rows) && nextId == old(nextId)
      ensures upstream.Body? && upstream.data.articles.Some? ==>
                var articles := upstream.data.articles.value;
                var st := IngestUpTo(Ingest(old(rows), old(nextId), 0), articles, uuids, failing, now, |articles|);
                && rows == st.rows && nextId == st.nextId
                && r.Returned? && r.value.totalResults == upstream.data.totalResults
                && IsPageOf(r.value.articles, rows, (page - 1) * pageSize, pageSize)
    {
      if upstream.Failure? {
        r := Threw(FeedError());
        return;
      }
      if upstream.data.articles.None? {
        r := Threw(NotIterableError());
        return;
      }
      var articles := upstream.data.articles.value;
      var totalResults := upstream.data.totalResults;
      ghost var st0 := Ingest(rows, nextId, 0);
      var savedCount := 0;
      var i := 0;
      while i < |articles|
        invariant 0 <= i <= |articles|
        invariant Valid()
        invariant IngestUpTo(st0, articles, uuids, failing, now, i) == Ingest(rows, nextId, savedCount)
      {
        savedCount := IngestArticle(articles[i], uuids[i], i in failing, now, savedCount);
        i := i + 1;
      }
      var found := Find((page - 1) * pageSize, pageSize);
      r := Returned(NewsPage(found, totalResults));
    }

    /** GET news/db: a page of the store and the number of stored rows. */
    method GetNewsFromDb(page: int, pageSize: int) returns (r: DbPage)
      requires page >= 1 && pageSize >= 1
      ensures IsPageOf(r.articles, rows, (page - 1) * pageSize, pageSize)
      ensures r.totalCount == |rows|
    {
      var found := Find((page - 1) * pageSize, pageSize);
      r := DbPage(found, |rows|);
    }

    /** POST news/bulk-load: entries without a URL are dropped, the rest are
        saved in one batch, which either commits whole or fails whole. */
    method BulkInsertNews(articles: seq<BulkArticle>, batchFails: bool) returns (r: Raised<seq<News>>)
      requires Valid()
      modifies this
      ensures Valid()
      ensures BulkEntities(articles) == [] ==> r == Returned([]) && rows == old(rows) && nextId == old(nextId)
      ensures BulkEntities(articles) != [] && batchFails ==>
                r == Threw(BulkError()) && rows == old(rows) && nextId == old(nextId)
      ensures BulkEntities(articles) != [] && !batchFails ==>
                && r == Returned(WithKeys(BulkEntities(articles), old(nextId)))
                && rows == old(rows) + r.value
                && nextId == old(nextId) + |r.value|
      ensures BulkEntities(articles) != [] && !batchFails ==>
                var p := UrlPositions(articles, 0);
                && |r.value| == |p| == |set j: nat | 0 <= j < |articles| && Truthy(articles[j].url)|
                && forall k | 0 <= k < |p| :: r.value[k] == Saved(DraftOfBulk(articles[p[k]]), old(nextId) + k)
    {
      var entities := BulkEntities(articles);
      if |entities| == 0 {
        r := Returned([]);
        return;
      }
      if batchFails {
        r := Threw(BulkError());
        return;
      }
      BulkRows(articles, nextId);
      var saved := WithKeys(entities, nextId);
      rows := rows + saved;
      nextId := nextId + |entities|;
      r := Returned(saved);
    }
  }
}
