/** `ArachnadoCrawlerProcess`: job ids, the crawler list, the set of paused
    job ids and the most-recent-first list of finished jobs, with the
    operations that change them. Scrapy's own `CrawlerProcess` is modelled
    only as far as these operations reach into it. */
module Process {
  import opened Base
  import opened Jobs
  import opened Signals
  import opened Crawlers

  /** `crawl_ids = itertools.count(start=1)`. It is a class attribute in the
      source, so every process object draws from the same counter; processes
      here hold it by reference. */
  class CrawlIds {
    var next: int

    constructor ()
      ensures next == 1
    {
      next := 1;
    }

    /** `next(crawl_ids)`. */
    method Next() returns (id: int)
      modifies this
      ensures id == old(next) && next == old(next) + 1
    {
      id := next;
      next := next + 1;
    }
  }

  /** The signals of a crawler that `crawl` connects `_resend_signal` to, in
      the order it connects them. */
  function ResentSignals(names: seq<string>, hasStatsSignals: bool): (r: seq<SpiderSignal>)
    ensures |r| == |names| + (if hasStatsSignals then 1 else 0)
    ensures forall i :: 0 <= i < |names| ==> r[i] == ScrapySignal(names[i])
    ensures hasStatsSignals <==> StatsChanged in r
  {
    seq(|names|, i requires 0 <= i < |names| => ScrapySignal(names[i])) +
      (if hasStatsSignals then [StatsChanged] else [])
  }

  /** The signal wiring of `crawl`: connect `_resend_signal` to each named
      signal of the crawler, then to its stats collector's `stats_changed`
      when the collector has signals. */
  method ConnectResend(crawler: Crawler, names: seq<string>)
    modifies crawler`connected
    ensures crawler.connected == old(crawler.connected) + ResentSignals(names, crawler.hasStatsSignals)
  {
    for i := 0 to |names|
      invariant crawler.connected == old(crawler.connected) + ResentSignals(names[..i], false)
    {
      crawler.connected := crawler.connected + [ScrapySignal(names[i])];
    }
    assert names[..|names|] == names;
    if crawler.hasStatsSignals {
      crawler.connected := crawler.connected + [StatsChanged];
    }
  }

  /** The outcome of `get_crawler`: the crawler found, or the exception. */
  function Found(crawlers: seq<Crawler>, id: int): (r: Result<Crawler>)
    reads crawlers`spider
  {
    match Lookup(SpidersOf(crawlers), id)
    case Ok(k) => Ok(crawlers[k])
    case Err(e) => Err(e)
  }

  /** What `get_crawler` hands back: a crawler of the process whose spider has
    * the id, or one of the two errors its scan can raise. */
  lemma FoundMatches(crawlers: seq<Crawler>, id: int)
    ensures var r := Found(crawlers, id);
            && (r.Ok? ==> r.value in crawlers && r.value.spider.Some? && r.value.spider.value.crawlId == id)
            && (r.Err? ==> r.error == JobKeyError(id) || r.error == AttributeError("crawl_id"))
  {
    var spiders := SpidersOf(crawlers);
    match Lookup(spiders, id)
    case Ok(k) =>
      assert spiders[k] == crawlers[k].spider;
    case Err(e) =>
  }

  /** The engine that `pause_job`/`resume_job` reach, as a frame. */
  ghost function EngineOf(r: Result<Crawler>): set<Engine>
    reads (if r.Ok? then {r.value} else {})`engine
  {
    if r.Ok? && r.value.engine != null then {r.value.engine} else {}
  }

  /** The exception, if any, of calling `engine.pause()` or
      `engine.unpause()` on the crawler found: `get_crawler`'s own, or an
      AttributeError when the crawler has no engine yet. */
  function EngineCallError(r: Result<Crawler>, method_: string): (e: Option<Error>)
    reads (if r.Ok? then {r.value} else {})`engine
  {
    match r
    case Err(e) => Some(e)
    case Ok(c) => if c.engine == null then Some(AttributeError(method_)) else None
  }

  /** The engine step of `pause_job`: `.engine.pause()` on the crawler
      found, or the exception on the way there. */
  method PauseEngineOf(found: Result<Crawler>) returns (err: Option<Error>)
    modifies EngineOf(found)`paused, EngineOf(found)`sent
    ensures err == EngineCallError(found, "pause")
    ensures err.None? ==>
              var e := found.value.engine;
              && e.paused
              && e.sent == old(e.sent) + [Emission(ScrapySignal("engine_paused"), e.crawler.crawling)]
  {
    match found {
      case Err(e) =>
        return Some(e);
      case Ok(c) =>
        if c.engine == null {
          return Some(AttributeError("pause"));
        }
        c.engine.Pause();
        return None;
    }
  }

  /** The engine step of `resume_job`: `.engine.unpause()` on the crawler
      found, or the exception on the way there. */
  method UnpauseEngineOf(found: Result<Crawler>) returns (err: Option<Error>)
    modifies EngineOf(found)`paused, EngineOf(found)`sent
    ensures err == EngineCallError(found, "unpause")
    ensures err.None? ==>
              var e := found.value.engine;
              && !e.paused
              && e.sent == old(e.sent) + [Emission(ScrapySignal("engine_resumed"), e.crawler.crawling)]
  {
    match found {
      case Err(e) =>
        return Some(e);
      case Ok(c) =>
        if c.engine == null {
          return Some(AttributeError("unpause"));
        }
        c.engine.Unpause();
        return None;
    }
  }

  class CrawlerProcess {
    const crawlIds: CrawlIds
    /** Scrapy's `CrawlerProcess.crawlers`, in the order they were added. */
    var crawlers: seq<Crawler>
    /** `_paused_jobs`. */
    var pausedJobs: set<int>
    /** `_finished_jobs`, most recent first. */
    var finishedJobs: seq<JobRecord>

    /** Ids issued by `crawl` are positive, below the counter, and no two
        registered crawlers share an id; each crawler is registered once. */
    ghost predicate Valid()
      reads this`crawlers, crawlIds`next, crawlers`spider
    {
      && crawlIds.next >= 1
      && (forall i :: 0 <= i < |crawlers| && crawlers[i].spider.Some? ==>
            1 <= crawlers[i].spider.value.crawlId < crawlIds.next)
      && (forall i, j :: 0 <= i < j < |crawlers| && crawlers[i].spider.Some? && crawlers[j].spider.Some? ==>
            crawlers[i].spider.value.crawlId != crawlers[j].spider.value.crawlId)
      && (forall i, j :: 0 <= i < j < |crawlers| ==> crawlers[i] != crawlers[j])
    }

    /** `__init__`: no crawlers, no paused and no finished jobs. The stats
        monitor and Scrapy's settings are not modelled. */
    constructor (crawlIds: CrawlIds)
      requires crawlIds.next >= 1
      ensures this.crawlIds == crawlIds && Valid()
      ensures crawlers == [] && pausedJobs == {} && finishedJobs == []
    {
      this.crawlIds := crawlIds;
      crawlers := [];
      pausedJobs := {};
      finishedJobs := [];
    }

    /** `crawl`: take the next id, connect `_resend_signal` to the crawler's
        signals (and to its stats collector's, when it has them), then let
        Scrapy register and start the crawler with that id. The source
        returns Scrapy's deferred; the id it hands back here is observable in
        the source only as the spider's `crawl_id`. */
    method Crawl(crawler: Crawler, motorJobId: string, domain: string) returns (id: int)
      requires Valid()
      requires crawler !in crawlers && !crawler.crawling
      modifies this`crawlers, crawlIds, crawler
      ensures Valid()
      ensures id == old(crawlIds.next) && crawlIds.next == id + 1 && id >= 1
      ensures crawlers == old(crawlers) + [crawler]
      ensures forall i :: 0 <= i < |old(crawlers)| && crawlers[i].spider.Some? ==> crawlers[i].spider.value.crawlId < id
      ensures crawler.connected == old(crawler.connected) + ResentSignals(SCRAPY_SIGNAL_NAMES, crawler.hasStatsSignals)
      ensures crawler.spider == Some(Spider(id, motorJobId, domain)) && crawler.crawling
      ensures crawler.stats == old(crawler.stats) && crawler.engineStopRequested == old(crawler.engineStopRequested)
      ensures crawler.engine != null && fresh(crawler.engine) && crawler.engine.crawler == crawler
      ensures crawler.engine.closing == None && !crawler.engine.paused && crawler.engine.sent == []
    {
      ghost var others := crawlers;
      id := crawlIds.Next();
      ConnectResend(crawler, SCRAPY_SIGNAL_NAMES);
      crawlers := crawlers + [crawler];
      crawler.Start(Spider(id, motorJobId, domain));
      assert forall i :: 0 <= i < |others| ==> others[i] != crawler;
      assert forall i :: 0 <= i < |others| ==> others[i].spider == old(others[i].spider);
    }

    /** `get_crawler`: the first crawler whose spider has the id, or
        KeyError; AttributeError if a crawler without a spider comes first. */
    method GetCrawler(id: int) returns (r: Result<Crawler>)
      ensures r == Found(crawlers, id)
    {
      ghost var spiders := SpidersOf(crawlers);
      var i := 0;
      while i < |crawlers|
        invariant 0 <= i <= |crawlers|
        invariant ScannedPast(spiders, id, i)
      {
        var crawler := crawlers[i];
        if crawler.spider.None? {
          assert spiders[i].None?;
          return Err(AttributeError("crawl_id"));
        }
        if crawler.spider.value.crawlId == id {
          return Ok(crawler);
        }
        i := i + 1;
      }
      return Err(JobKeyError(id));
    }

    /** `stop_job`: ask the crawler found to stop; `get_crawler`'s exception
        otherwise. */
    method StopJob(id: int) returns (err: Option<Error>)
      requires Valid()
      modifies if Found(crawlers, id).Ok? then {Found(crawlers, id).value} else {}
      ensures Valid()
      ensures old(Found(crawlers, id)).Err? ==> err == Some(old(Found(crawlers, id)).error)
      ensures old(Found(crawlers, id)).Ok? ==>
                var c := old(Found(crawlers, id)).value;
                && err == None
                && !c.crawling
                && c.engineStopRequested == (old(c.engineStopRequested) || old(c.crawling))
                && unchanged(c`spider, c`stats, c`engine, c`connected)
    {
      var found := GetCrawler(id);
      match found {
        case Err(e) =>
          return Some(e);
        case Ok(c) =>
          c.Stop();
          return None;
      }
    }

    /** `pause_job`: the id joins the paused set, and stays there even when
        `get_crawler` raises; then the engine is paused. The source adds the
        id before the lookup; the lookup does not read the paused set, so
        looking up first, as here, ends in the same state on every path. */
    method PauseJob(id: int) returns (err: Option<Error>)
      requires Valid()
      modifies this`pausedJobs, EngineOf(Found(crawlers, id))`paused, EngineOf(Found(crawlers, id))`sent
      ensures Valid()
      ensures pausedJobs == old(pausedJobs) + {id}
      ensures err == old(EngineCallError(Found(crawlers, id), "pause"))
      ensures err.None? ==>
                var e := old(Found(crawlers, id)).value.engine;
                && e.paused
                && e.sent == old(e.sent) + [Emission(ScrapySignal("engine_paused"), e.crawler.crawling)]
    {
      var found := GetCrawler(id);
      pausedJobs := pausedJobs + {id};
      err := PauseEngineOf(found);
      ValidKept(this);
    }

    /** `resume_job`: removing an id that is not paused raises KeyError and
        changes nothing; otherwise the id leaves the paused set, and stays out
        even when `get_crawler` raises; then the engine is resumed. As in
        `PauseJob`, the lookup is made before the set changes, which the
        source does after it, to the same effect. */
    method ResumeJob(id: int) returns (err: Option<Error>)
      requires Valid()
      modifies this`pausedJobs, EngineOf(Found(crawlers, id))`paused, EngineOf(Found(crawlers, id))`sent
      ensures Valid()
      ensures id !in old(pausedJobs) ==> err == Some(JobKeyError(id)) && pausedJobs == old(pausedJobs)
      ensures id !in old(pausedJobs) ==> forall e :: e in old(EngineOf(Found(crawlers, id))) ==> unchanged(e)
      ensures id in old(pausedJobs) ==> pausedJobs == old(pausedJobs) - {id}
      ensures id in old(pausedJobs) ==> err == old(EngineCallError(Found(crawlers, id), "unpause"))
      ensures id in old(pausedJobs) && err.None? ==>
                var e := old(Found(crawlers, id)).value.engine;
                && !e.paused
                && e.sent == old(e.sent) + [Emission(ScrapySignal("engine_resumed"), e.crawler.crawling)]
    {
      if id !in pausedJobs {
        return Some(JobKeyError(id));
      }
      var found := GetCrawler(id);
      pausedJobs := pausedJobs - {id};
      err := UnpauseEngineOf(found);
      ValidKept(this);
    }

    /** `on_spider_closed`, the listener of the process-wide `spider_closed`:
        put the closed job's record at the head of the finished list. There
        is no check for a record with the same id. */
    method OnSpiderClosed(spider: Spider, stats: Stats, reason: string)
      requires Valid()
      modifies this`finishedJobs
      ensures Valid()
      ensures finishedJobs == [ClosedRecord(spider, stats, reason)] + old(finishedJobs)
    {
      finishedJobs := [ClosedRecord(spider, stats, reason)] + finishedJobs;
    }

    /** The `jobs` property. */
    function JobsNow(): (r: seq<JobRecord>)
      reads this, crawlers
      ensures |finishedJobs| <= |r| <= |crawlers| + |finishedJobs|
      ensures r[|r| - |finishedJobs|..] == finishedJobs
      ensures forall i :: 0 <= i < |r| - |finishedJobs| ==> r[i].status != "unknown"
    {
      SnapshotShape(ViewsOf(crawlers), pausedJobs, finishedJobs);
      Snapshot(ViewsOf(crawlers), pausedJobs, finishedJobs)
    }
  }

  /** `Valid` depends only on the crawler list, the counter and the
      crawlers' spiders, so a step that leaves those alone keeps it. */
  twostate lemma ValidKept(process: CrawlerProcess)
    requires old(process.Valid())
    requires unchanged(process`crawlers, process.crawlIds`next)
    requires forall c :: c in old(process.crawlers) ==> unchanged(c`spider)
    ensures process.Valid()
  {
    var cs := process.crawlers;
    forall i | 0 <= i < |cs|
      ensures cs[i].spider == old(cs[i].spider)
    {
      assert cs[i] in old(process.crawlers);
    }
  }

  /** The crawlers of a valid process never share an id. */
  lemma ValidIdsDistinct(process: CrawlerProcess)
    requires process.Valid()
    ensures DistinctIds(SpidersOf(process.crawlers))
  {
    var spiders := SpidersOf(process.crawlers);
    forall i, j | 0 <= i < j < |spiders| && spiders[i].Some? && spiders[j].Some?
      ensures spiders[i].value.crawlId != spiders[j].value.crawlId
    {
      assert spiders[i] == process.crawlers[i].spider && spiders[j] == process.crawlers[j].spider;
    }
  }

  /** In a valid process `get_crawler` finds the one crawler whose spider has
      the id, whichever position it holds. */
  lemma FoundIsOnlyMatch(process: CrawlerProcess, id: int, j: nat)
    requires process.Valid()
    requires Found(process.crawlers, id).Ok?
    requires j < |process.crawlers| && process.crawlers[j].spider.Some?
    requires process.crawlers[j].spider.value.crawlId == id
    ensures Found(process.crawlers, id).value == process.crawlers[j]
  {
    ValidIdsDistinct(process);
    LookupUnique(SpidersOf(process.crawlers), id, j);
  }

  /** An id the counter has not issued yet names no job. */
  lemma UnissuedIdNotFound(process: CrawlerProcess, id: int)
    requires process.Valid()
    requires id >= process.crawlIds.next || id < 1
    ensures Found(process.crawlers, id).Err?
  {
  }

  /** The record `on_spider_closed` archives: the reason becomes the status. */
  function ClosedRecord(spider: Spider, stats: Stats, reason: string): (r: JobRecord)
    ensures r.id == spider.crawlId && r.jobId == spider.motorJobId && r.seed == spider.domain
    ensures r.status == reason && r.stats == stats
  {
    JobRecord(spider.crawlId, spider.motorJobId, spider.domain, reason, stats)
  }
}
