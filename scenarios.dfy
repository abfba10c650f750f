/** Whole runs of the process from a fresh start, each ending in the values
    a caller would observe. */
module Scenarios {
  import opened Base
  import opened Jobs
  import opened Signals
  import opened Crawlers
  import opened Process

  /** The snapshot over two started crawlers, before any has finished. */
  lemma SnapshotOfTwo(v1: CrawlerView, v2: CrawlerView, paused: set<int>)
    requires v1.spider.Some? && v2.spider.Some?
    ensures Snapshot([v1, v2], paused, []) == [ActiveEntry(v1, paused), ActiveEntry(v2, paused)]
  {
    var views := [v1, v2];
    GetJobsAllStarted(views, paused);
    var active := [ActiveEntry(v1, paused), ActiveEntry(v2, paused)];
    assert seq(|views|, i requires 0 <= i < |views| => ActiveEntry(views[i], paused)) == active;
    DropFinishedNothingFinished(active, FinishedIds([]));
  }

  /** The snapshot over two started crawlers once the second has an archived
      record and the first has none. */
  lemma SnapshotOfTwoSecondClosed(v1: CrawlerView, v2: CrawlerView, paused: set<int>, closed: JobRecord)
    requires v1.spider.Some? && v2.spider.Some?
    requires closed.id == v2.spider.value.crawlId != v1.spider.value.crawlId
    ensures Snapshot([v1, v2], paused, [closed]) == [ActiveEntry(v1, paused), closed]
  {
    var views := [v1, v2];
    GetJobsAllStarted(views, paused);
    var active := [ActiveEntry(v1, paused), ActiveEntry(v2, paused)];
    assert seq(|views|, i requires 0 <= i < |views| => ActiveEntry(views[i], paused)) == active;
    var ids := FinishedIds([closed]);
    assert ids == {closed.id};
    assert active[1..] == [ActiveEntry(v2, paused)];
    assert DropFinished(active[1..], ids) == DropFinished([], ids) == [];
    assert DropFinished(active, ids) == [ActiveEntry(v1, paused)];
  }

  /** `jobs` of a process whose two crawlers have started and none has an
      archived record. */
  method ObserveTwo(process: CrawlerProcess, v1: CrawlerView, v2: CrawlerView) returns (r: seq<JobRecord>)
    requires ViewsOf(process.crawlers) == [v1, v2] && v1.spider.Some? && v2.spider.Some?
    requires process.finishedJobs == []
    ensures r == [ActiveEntry(v1, process.pausedJobs), ActiveEntry(v2, process.pausedJobs)]
  {
    SnapshotOfTwo(v1, v2, process.pausedJobs);
    r := process.JobsNow();
  }

  /** `jobs` of such a process once the second crawler's record is archived. */
  method ObserveTwoSecondClosed(process: CrawlerProcess, v1: CrawlerView, v2: CrawlerView) returns (r: seq<JobRecord>)
    requires ViewsOf(process.crawlers) == [v1, v2] && v1.spider.Some? && v2.spider.Some?
    requires |process.finishedJobs| == 1
    requires process.finishedJobs[0].id == v2.spider.value.crawlId != v1.spider.value.crawlId
    ensures r == [ActiveEntry(v1, process.pausedJobs), process.finishedJobs[0]]
  {
    assert process.finishedJobs == [process.finishedJobs[0]];
    SnapshotOfTwoSecondClosed(v1, v2, process.pausedJobs, process.finishedJobs[0]);
    r := process.JobsNow();
  }

  /** Start two crawlers on a fresh process: they get ids 1 and 2. */
  method StartTwo(jobA: string, seedA: string, jobB: string, seedB: string)
    returns (process: CrawlerProcess, a: Crawler, b: Crawler, ids: seq<int>)
    ensures ids == [1, 2]
    ensures process.Valid() && process.crawlers == [a, b] && a != b
    ensures process.pausedJobs == {} && process.finishedJobs == []
    ensures a.View() == CrawlerView(Some(Spider(1, jobA, seedA)), true, map[])
    ensures b.View() == CrawlerView(Some(Spider(2, jobB, seedB)), true, map[])
    ensures a.engine != null && b.engine != null && a.engine.crawler == a && b.engine.crawler == b
    ensures a.engine.closing == None && b.engine.closing == None && a.engine.sent == [] && !a.engine.paused
    ensures fresh(process) && fresh(process.crawlIds) && fresh(a) && fresh(b) && fresh(a.engine) && fresh(b.engine)
  {
    var counter := new CrawlIds();
    process := new CrawlerProcess(counter);
    a := new Crawler(false);
    b := new Crawler(true);
    var id1 := process.Crawl(a, jobA, seedA);
    var id2 := process.Crawl(b, jobB, seedB);
    ids := [id1, id2];
  }

  /** Pausing job 1 shows it suspended beside the crawling job 2. */
  method PauseFirst(jobA: string, seedA: string, jobB: string, seedB: string)
    returns (err: Option<Error>, jobs: seq<JobRecord>)
    ensures err == None
    ensures jobs == [JobRecord(1, jobA, seedA, "suspended", map[]),
                     JobRecord(2, jobB, seedB, "crawling", map[])]
  {
    var process, a, b, ids := StartTwo(jobA, seedA, jobB, seedB);
    assert Lookup(SpidersOf(process.crawlers), 1) == Ok(0);
    err := process.PauseJob(1);
    assert ViewsOf(process.crawlers) == [a.View(), b.View()];
    jobs := ObserveTwo(process, a.View(), b.View());
  }

  /** Resuming job 1 after pausing it shows it crawling again. */
  method PauseResumeFirst(jobA: string, seedA: string, jobB: string, seedB: string)
    returns (err: Option<Error>, jobs: seq<JobRecord>)
    ensures err == None
    ensures jobs == [JobRecord(1, jobA, seedA, "crawling", map[]),
                     JobRecord(2, jobB, seedB, "crawling", map[])]
  {
    var process, a, b, ids := StartTwo(jobA, seedA, jobB, seedB);
    assert Lookup(SpidersOf(process.crawlers), 1) == Ok(0);
    err := process.PauseJob(1);
    assert ViewsOf(process.crawlers) == [a.View(), b.View()];
    err := process.ResumeJob(1);
    assert ViewsOf(process.crawlers) == [a.View(), b.View()];
    jobs := ObserveTwo(process, a.View(), b.View());
  }

  /** Resuming a running job that was never paused raises KeyError and
      leaves its engine as it was. */
  method ResumeNotPaused(jobA: string, seedA: string, jobB: string, seedB: string)
    returns (err: Option<Error>, paused: set<int>, enginePaused: bool, sent: seq<Emission>)
    ensures err == Some(JobKeyError(1)) && paused == {}
    ensures !enginePaused && sent == []
  {
    var process, a, b, ids := StartTwo(jobA, seedA, jobB, seedB);
    assert Lookup(SpidersOf(process.crawlers), 1) == Ok(0);
    err := process.ResumeJob(1);
    paused := process.pausedJobs;
    enginePaused := a.engine.paused;
    sent := a.engine.sent;
  }

  /** Stopping job 2 shows it stopping beside the crawling job 1. */
  method StopSecond(jobA: string, seedA: string, jobB: string, seedB: string)
    returns (err: Option<Error>, jobs: seq<JobRecord>)
    ensures err == None
    ensures jobs == [JobRecord(1, jobA, seedA, "crawling", map[]),
                     JobRecord(2, jobB, seedB, "stopping", map[])]
  {
    var process, a, b, ids := StartTwo(jobA, seedA, jobB, seedB);
    assert Lookup(SpidersOf(process.crawlers), 2) == Ok(1);
    err := process.StopJob(2);
    assert ViewsOf(process.crawlers) == [a.View(), b.View()];
    jobs := ObserveTwo(process, a.View(), b.View());
  }

  /** When job 2's engine closes its spider with reason "finished" and the
      close is archived, only its finished record, with its final stats,
      stands for it, after the active job 1. */
  method FinishSecond(jobA: string, seedA: string, jobB: string, seedB: string, finalStats: Stats)
    returns (reason: string, jobs: seq<JobRecord>)
    ensures reason == "finished"
    ensures jobs == [JobRecord(1, jobA, seedA, "crawling", map[]),
                     JobRecord(2, jobB, seedB, "finished", finalStats)]
  {
    var process, a, b, ids := StartTwo(jobA, seedA, jobB, seedB);
    reason := b.engine.CloseSpider("finished");
    assert ViewsOf(process.crawlers) == [a.View(), b.View()];
    process.OnSpiderClosed(b.spider.value, finalStats, reason);
    assert ViewsOf(process.crawlers) == [a.View(), b.View()];
    jobs := ObserveTwoSecondClosed(process, a.View(), b.View());
  }

  /** Pausing an id no crawler has raises KeyError, yet the id is left in
      the paused set; resuming it then raises KeyError too, from the lookup
      after the id has left the set. */
  method PauseUnknown(id: int) returns (pauseErr: Option<Error>, pausedAfter: set<int>,
                                         resumeErr: Option<Error>, pausedAtEnd: set<int>)
    ensures pauseErr == Some(JobKeyError(id)) && pausedAfter == {id}
    ensures resumeErr == Some(JobKeyError(id)) && pausedAtEnd == {}
  {
    var counter := new CrawlIds();
    var process := new CrawlerProcess(counter);
    pauseErr := process.PauseJob(id);
    pausedAfter := process.pausedJobs;
    resumeErr := process.ResumeJob(id);
    pausedAtEnd := process.pausedJobs;
  }

  /** A second `close_spider` returns the first close's reason, sends no
      second `spider_closing`, and the listeners of the one sent saw
      `crawling` false. */
  method CloseTwice(job: string, seed: string) returns (first: string, second: string, sent: seq<Emission>)
    ensures first == "finished" && second == "finished"
    ensures sent == [Emission(ScrapySignal("spider_closing"), false)]
  {
    var process, a, b, ids := StartTwo(job, seed, job, seed);
    first := a.engine.CloseSpider("finished");
    second := a.engine.CloseSpider();
    sent := a.engine.sent;
  }

  /** `spider_closed` delivered twice for one job leaves two records with
      its id, the later first; `jobs` lists both. */
  method ClosedTwice(job: string, seed: string, stats: Stats) returns (jobs: seq<JobRecord>)
    ensures jobs == [JobRecord(1, job, seed, "finished", stats), JobRecord(1, job, seed, "cancelled", map[])]
  {
    var counter := new CrawlIds();
    var process := new CrawlerProcess(counter);
    process.OnSpiderClosed(Spider(1, job, seed), map[], "cancelled");
    process.OnSpiderClosed(Spider(1, job, seed), stats, "finished");
    assert process.crawlers == [] && process.pausedJobs == {};
    jobs := process.JobsNow();
    assert jobs == Snapshot([], {}, process.finishedJobs);
    SnapshotShape([], {}, process.finishedJobs);
  }
}
