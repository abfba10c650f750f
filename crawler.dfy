/** The crawler objects the process manages: Scrapy's `Crawler` as the
    process sees it, and `ArachnadoExecutionEngine`, whose `close_spider`
    clears the crawler's `crawling` flag before announcing `spider_closing`.
    The engine's downloading, scheduling and teardown belong to Scrapy and
    are not modelled. */
module Crawlers {
  import opened Base
  import opened Jobs
  import opened Signals

  /** A signal sent on a crawler's own signal manager, with the value of
      `crawler.crawling` that its listeners observe when it fires. */
  datatype Emission = Emission(signal: SpiderSignal, crawlingSeen: bool)

  /** A Scrapy `Crawler` of the class `ArachnadoCrawler`. */
  class Crawler {
    /** The spider, None until `Crawler.crawl` has created it. */
    var spider: Option<Spider>
    var crawling: bool
    /** `crawler.stats.get_stats(spider)`, copied by the process. */
    var stats: Stats
    /** The engine, null until `Crawler.crawl` has created it. */
    var engine: Engine?
    /** Whether `crawler.stats` has a `signals` attribute (an evented stats collector). */
    const hasStatsSignals: bool
    /** The signals of this crawler that `_resend_signal` is connected to, in order. */
    var connected: seq<SpiderSignal>
    /** Whether `Crawler.stop` has asked the engine to stop. */
    var engineStopRequested: bool

    constructor (hasStatsSignals: bool)
      ensures spider == None && !crawling && stats == map[] && engine == null
      ensures this.hasStatsSignals == hasStatsSignals && connected == [] && !engineStopRequested
    {
      spider := None;
      crawling := false;
      stats := map[];
      engine := null;
      this.hasStatsSignals := hasStatsSignals;
      connected := [];
      engineStopRequested := false;
    }

    /** The fields the process reads. */
    function View(): CrawlerView
      reads this
    {
      CrawlerView(spider, crawling, stats)
    }

    /** Scrapy's `Crawler.crawl` up to its first wait: set `crawling`, create
        the spider from the crawl arguments and the engine
        (`ArachnadoCrawler._create_engine`). */
    method Start(spider: Spider)
      requires !crawling
      modifies this`crawling, this`spider, this`engine
      ensures crawling && this.spider == Some(spider)
      ensures engine != null && fresh(engine) && engine.crawler == this
      ensures engine.closing == None && !engine.paused && engine.sent == []
    {
      crawling := true;
      this.spider := Some(spider);
      engine := new Engine(this);
    }

    /** Scrapy's `Crawler.stop`: a crawling crawler stops crawling and asks
        its engine to stop; otherwise nothing happens. */
    method Stop()
      modifies this`crawling, this`engineStopRequested
      ensures !crawling
      ensures engineStopRequested == (old(engineStopRequested) || old(crawling))
    {
      if crawling {
        crawling := false;
        engineStopRequested := true;
      }
    }
  }

  /** `ArachnadoExecutionEngine`. */
  class Engine {
    const crawler: Crawler
    /** `slot.closing`: None while open, else the reason of the close under way. */
    var closing: Option<string>
    var paused: bool
    /** The signals this engine has sent, oldest first. */
    var sent: seq<Emission>

    constructor (crawler: Crawler)
      ensures this.crawler == crawler && closing == None && !paused && sent == []
    {
      this.crawler := crawler;
      closing := None;
      paused := false;
      sent := [];
    }

    /** `close_spider`: a second call returns the close already under way and
        changes nothing. The first clears `crawler.crawling`, then sends
        `spider_closing` (so its listeners see `crawling` false), then starts
        Scrapy's close, which records the reason in `slot.closing`. */
    method CloseSpider(reason: string := "cancelled") returns (result: string)
      modifies this`closing, this`sent, crawler`crawling
      ensures old(closing).Some? ==>
                && result == old(closing).value
                && closing == old(closing) && sent == old(sent)
                && crawler.crawling == old(crawler.crawling)
      ensures old(closing).None? ==>
                && result == reason
                && closing == Some(reason)
                && !crawler.crawling
                && sent == old(sent) + [Emission(ScrapySignal("spider_closing"), false)]
    {
      if closing.Some? {
        return closing.value;
      }
      crawler.crawling := false;
      sent := sent + [Emission(ScrapySignal("spider_closing"), crawler.crawling)];
      closing := Some(reason);
      result := reason;
    }

    /** `pause`: Scrapy's pause sets `paused`, then `engine_paused` is sent. */
    method Pause()
      modifies this`paused, this`sent
      ensures paused
      ensures sent == old(sent) + [Emission(ScrapySignal("engine_paused"), crawler.crawling)]
    {
      paused := true;
      sent := sent + [Emission(ScrapySignal("engine_paused"), crawler.crawling)];
    }

    /** `unpause`: Scrapy's unpause clears `paused`, then `engine_resumed` is sent. */
    method Unpause()
      modifies this`paused, this`sent
      ensures !paused
      ensures sent == old(sent) + [Emission(ScrapySignal("engine_resumed"), crawler.crawling)]
    {
      paused := false;
      sent := sent + [Emission(ScrapySignal("engine_resumed"), crawler.crawling)];
    }
  }

  /** What the process reads of each crawler, in order. */
  function ViewsOf(cs: seq<Crawler>): (r: seq<CrawlerView>)
    reads cs
    ensures |r| == |cs|
    ensures forall i :: 0 <= i < |cs| ==> r[i] == cs[i].View()
  {
    if cs == [] then [] else [cs[0].View()] + ViewsOf(cs[1..])
  }

  /** The spiders of the crawlers, in order: all that `get_crawler` reads. */
  function SpidersOf(cs: seq<Crawler>): (r: seq<Option<Spider>>)
    reads cs`spider
    ensures |r| == |cs|
    ensures forall i :: 0 <= i < |cs| ==> r[i] == cs[i].spider
  {
    if cs == [] then [] else [cs[0].spider] + SpidersOf(cs[1..])
  }
}
