/** The job bookkeeping of `ArachnadoCrawlerProcess` that only reads state:
    the status rule, the list of active jobs, the combined `jobs` snapshot and
    the search behind `get_crawler`. Crawlers are seen here through the
    values of the fields these read (`CrawlerView`). */
module Jobs {
  import opened Base

  /** The stats mapping of a crawler; the model only copies it. */
  type Stats = map<string, int>

  /** The attributes of a spider that the process reads. */
  datatype Spider = Spider(crawlId: int, motorJobId: string, domain: string)

  /** What the process reads of one crawler: its spider (None until Scrapy
      creates it), its `crawling` flag and its current stats. */
  datatype CrawlerView = CrawlerView(spider: Option<Spider>, crawling: bool, stats: Stats)

  /** A job as `get_jobs`, `jobs` and `_finished_jobs` list it: the dictionary
      with keys `id`, `job_id`, `seed`, `status` and `stats`. */
  datatype JobRecord = JobRecord(id: int, jobId: string, seed: string, status: string, stats: Stats)

  /** `_get_crawler_status`: the first rule that applies decides. */
  function CrawlerStatus(v: CrawlerView, paused: set<int>): (s: string)
    ensures s == "unknown" <==> v.spider.None?
    ensures s == "stopping" <==> v.spider.Some? && !v.crawling
    ensures s == "suspended" <==> v.spider.Some? && v.crawling && v.spider.value.crawlId in paused
    ensures s == "crawling" <==> v.spider.Some? && v.crawling && v.spider.value.crawlId !in paused
  {
    if v.spider.None? then "unknown"
    else if !v.crawling then "stopping"
    else if v.spider.value.crawlId in paused then "suspended"
    else "crawling"
  }

  /** A job told to stop while it is paused reports "stopping": the stop rule
      comes before the pause rule. */
  lemma StopOutranksPause(v: CrawlerView, paused: set<int>)
    requires v.spider.Some? && v.spider.value.crawlId in paused
    ensures CrawlerStatus(v, paused) == (if v.crawling then "suspended" else "stopping")
  {
  }

  /** The crawlers of `get_jobs` that have a spider, in their order. */
  function WithSpider(views: seq<CrawlerView>): (r: seq<CrawlerView>)
    ensures |r| <= |views|
    ensures forall i :: 0 <= i < |r| ==> r[i].spider.Some?
    ensures forall v :: v in r <==> v in views && v.spider.Some?
  {
    if views == [] then []
    else if views[0].spider.Some? then [views[0]] + WithSpider(views[1..])
    else WithSpider(views[1..])
  }

  /** The record `get_jobs` builds for a crawler with a spider. */
  function ActiveEntry(v: CrawlerView, paused: set<int>): (e: JobRecord)
    requires v.spider.Some?
    ensures e.id == v.spider.value.crawlId && e.jobId == v.spider.value.motorJobId
    ensures e.seed == v.spider.value.domain && e.stats == v.stats
    ensures e.status == CrawlerStatus(v, paused) && e.status != "unknown"
  {
    var sp := v.spider.value;
    JobRecord(sp.crawlId, sp.motorJobId, sp.domain, CrawlerStatus(v, paused), v.stats)
  }

  /** `get_jobs`: one record per crawler that has a spider, in crawler order. */
  function GetJobs(views: seq<CrawlerView>, paused: set<int>): (r: seq<JobRecord>)
    ensures |r| == |WithSpider(views)| <= |views|
    ensures forall i :: 0 <= i < |r| ==> r[i] == ActiveEntry(WithSpider(views)[i], paused)
    ensures forall i :: 0 <= i < |r| ==> r[i].status in {"stopping", "suspended", "crawling"}
    ensures forall v :: v in views && v.spider.Some? ==> ActiveEntry(v, paused) in r
  {
    var ws := WithSpider(views);
    var r := seq(|ws|, i requires 0 <= i < |ws| => ActiveEntry(ws[i], paused));
    assert forall v :: v in ws ==> ActiveEntry(v, paused) in r by {
      forall v | v in ws ensures ActiveEntry(v, paused) in r {
        var i :| 0 <= i < |ws| && ws[i] == v;
        assert r[i] == ActiveEntry(v, paused);
      }
    }
    r
  }

  /** The filter of `get_jobs` works piece by piece, so it keeps the
      crawlers' order and keeps each crawler at most once. */
  lemma {:induction false} WithSpiderAppend(a: seq<CrawlerView>, b: seq<CrawlerView>)
    ensures WithSpider(a + b) == WithSpider(a) + WithSpider(b)
  {
    if a == [] {
      assert a + b == b;
    } else {
      assert (a + b)[1..] == a[1..] + b;
      WithSpiderAppend(a[1..], b);
    }
  }

  /** `get_jobs` over two runs of crawlers is `get_jobs` over each, in
      order. */
  lemma GetJobsAppend(a: seq<CrawlerView>, b: seq<CrawlerView>, paused: set<int>)
    ensures GetJobs(a + b, paused) == GetJobs(a, paused) + GetJobs(b, paused)
  {
    WithSpiderAppend(a, b);
  }

  /** One crawler gives one record when it has a spider and none otherwise. */
  lemma GetJobsOne(v: CrawlerView, paused: set<int>)
    ensures GetJobs([v], paused) == if v.spider.Some? then [ActiveEntry(v, paused)] else []
  {
    assert [v][1..] == [];
  }

  /** Every record of `get_jobs` describes a crawler that has a spider. */
  lemma GetJobsOnlyStarted(views: seq<CrawlerView>, paused: set<int>, e: JobRecord)
    requires e in GetJobs(views, paused)
    ensures exists v :: v in views && v.spider.Some? && e == ActiveEntry(v, paused)
  {
    var ws := WithSpider(views);
    var i :| 0 <= i < |GetJobs(views, paused)| && GetJobs(views, paused)[i] == e;
    assert ws[i] in ws;
  }

  /** Once every crawler has its spider, `get_jobs` lists each of them, in
      crawler order. */
  lemma {:induction false} GetJobsAllStarted(views: seq<CrawlerView>, paused: set<int>)
    requires forall i :: 0 <= i < |views| ==> views[i].spider.Some?
    ensures GetJobs(views, paused) == seq(|views|, i requires 0 <= i < |views| => ActiveEntry(views[i], paused))
  {
    WithSpiderAllStarted(views);
  }

  lemma {:induction false} WithSpiderAllStarted(views: seq<CrawlerView>)
    requires forall i :: 0 <= i < |views| ==> views[i].spider.Some?
    ensures WithSpider(views) == views
  {
    if views != [] {
      WithSpiderAllStarted(views[1..]);
      assert [views[0]] + views[1..] == views;
    }
  }

  /** The ids in the finished list (`finished_ids` in `jobs`). */
  function FinishedIds(finished: seq<JobRecord>): set<int>
  {
    set j | j in finished :: j.id
  }

  /** The active records whose id is not in `ids`, in their order. */
  function DropFinished(active: seq<JobRecord>, ids: set<int>): (r: seq<JobRecord>)
    ensures |r| <= |active|
    ensures forall e :: e in r <==> e in active && e.id !in ids
  {
    if active == [] then []
    else if active[0].id !in ids then [active[0]] + DropFinished(active[1..], ids)
    else DropFinished(active[1..], ids)
  }

  /** Dropping finished records keeps the order: it works piece by piece. */
  lemma {:induction false} DropFinishedAppend(a: seq<JobRecord>, b: seq<JobRecord>, ids: set<int>)
    ensures DropFinished(a + b, ids) == DropFinished(a, ids) + DropFinished(b, ids)
  {
    if a == [] {
      assert a + b == b;
    } else {
      assert (a + b)[1..] == a[1..] + b;
      DropFinishedAppend(a[1..], b, ids);
    }
  }

  /** When no active record has a finished id, nothing is dropped. */
  lemma {:induction false} DropFinishedNothingFinished(a: seq<JobRecord>, ids: set<int>)
    requires forall i :: 0 <= i < |a| ==> a[i].id !in ids
    ensures DropFinished(a, ids) == a
  {
    if a != [] {
      DropFinishedNothingFinished(a[1..], ids);
    }
  }

  /** The `jobs` property: active jobs that have no finished record, then
      the finished records. */
  function Snapshot(views: seq<CrawlerView>, paused: set<int>, finished: seq<JobRecord>): (r: seq<JobRecord>)
    ensures |finished| <= |r| <= |views| + |finished|
    ensures r[|r| - |finished|..] == finished
  {
    DropFinished(GetJobs(views, paused), FinishedIds(finished)) + finished
  }

  /** The shape of the snapshot: its last part is the finished list as it is;
      the first part lists active jobs only (none "unknown"), exactly those
      whose id has no finished record, and no id appears in both parts. */
  lemma SnapshotShape(views: seq<CrawlerView>, paused: set<int>, finished: seq<JobRecord>)
    ensures var r := Snapshot(views, paused, finished);
            var n := |r| - |finished|;
            && 0 <= n <= |views|
            && r[n..] == finished
            && r[..n] == DropFinished(GetJobs(views, paused), FinishedIds(finished))
            && (forall e :: e in r[..n] <==> e in GetJobs(views, paused) && e.id !in FinishedIds(finished))
            && (forall i :: 0 <= i < n ==> r[i].status != "unknown")
            && (forall i, j :: 0 <= i < n && 0 <= j < |finished| ==> r[i].id != finished[j].id)
  {
    var r := Snapshot(views, paused, finished);
    var active := DropFinished(GetJobs(views, paused), FinishedIds(finished));
    var n := |r| - |finished|;
    assert r[..n] == active && r[n..] == finished;
    forall i | 0 <= i < n
      ensures r[i].status != "unknown" && r[i].id !in FinishedIds(finished)
    {
      assert r[i] in active;
    }
    forall i, j | 0 <= i < n && 0 <= j < |finished|
      ensures r[i].id != finished[j].id
    {
      assert r[i] in active;
      assert finished[j].id in FinishedIds(finished);
    }
  }

  /** The crawlers `get_crawler` passes over before position `k`: each has
      a spider, with a different id. The search reads only the crawlers'
      spiders, given here in crawler order. */
  ghost predicate ScannedPast(spiders: seq<Option<Spider>>, id: int, k: int)
    requires 0 <= k <= |spiders|
  {
    forall j :: 0 <= j < k ==> spiders[j].Some? && spiders[j].value.crawlId != id
  }

  /** `get_crawler`'s search, giving the position of the crawler found.
      `getattr(None, "crawl_id")` raises AttributeError, so a crawler without
      a spider stops the search when it is reached before a match. */
  function Lookup(spiders: seq<Option<Spider>>, id: int): (r: Result<nat>)
    ensures r.Ok? ==> && r.value < |spiders|
                      && ScannedPast(spiders, id, r.value)
                      && spiders[r.value].Some?
                      && spiders[r.value].value.crawlId == id
    ensures r == Err(JobKeyError(id)) <==> ScannedPast(spiders, id, |spiders|)
    ensures r.Err? ==> r.error == JobKeyError(id) || r.error == AttributeError("crawl_id")
    ensures r == Err(AttributeError("crawl_id")) ==>
              exists k :: 0 <= k < |spiders| && ScannedPast(spiders, id, k) && spiders[k].None?
  {
    if spiders == [] then Err(JobKeyError(id))
    else if spiders[0].None? then Err(AttributeError("crawl_id"))
    else if spiders[0].value.crawlId == id then Ok(0)
    else match Lookup(spiders[1..], id)
      case Ok(k) => Ok(k + 1)
      case Err(e) => Err(e)
  }

  /** No two crawlers with spiders share an id. */
  ghost predicate DistinctIds(spiders: seq<Option<Spider>>)
  {
    forall i, j :: 0 <= i < j < |spiders| && spiders[i].Some? && spiders[j].Some? ==>
      spiders[i].value.crawlId != spiders[j].value.crawlId
  }

  /** With distinct ids, the crawler found is the only one with that id. */
  lemma LookupUnique(spiders: seq<Option<Spider>>, id: int, j: nat)
    requires DistinctIds(spiders)
    requires Lookup(spiders, id).Ok?
    requires j < |spiders| && spiders[j].Some? && spiders[j].value.crawlId == id
    ensures Lookup(spiders, id).value == j
  {
    var k := Lookup(spiders, id).value;
    assert ScannedPast(spiders, id, k);
    assert k <= j;
  }
}
