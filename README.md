# Arachnado crawler process: job bookkeeping in Dafny

This project models the job-bookkeeping layer of Arachnado's
`ArachnadoCrawlerProcess` (`arachnado/crawler_process.py`), the Scrapy
`CrawlerProcess` subclass that runs several crawl jobs in one process. The
model covers:

- **Ids.** `crawl` gives every crawl job an id from a counter that starts at 1.
- **Process state.** The process keeps the crawlers it runs, a set of paused
  job ids and a list of finished-job records, most recent first.
- **Operations.** `stop_job`, `pause_job` and `resume_job` find a job's
  crawler with `get_crawler`. `on_spider_closed` archives a closed job. The
  `jobs` property combines the active jobs (`get_jobs` with the status rule
  `_get_crawler_status`) and the finished list.
- **Signals.** Each crawler's signals are re-published process-wide by
  `_resend_signal`, through the `spider_to_cp` and `STAT_SIGNALS` tables.
- **Engine.** `ArachnadoExecutionEngine.close_spider` clears the crawler's
  `crawling` flag before it announces `spider_closing`, and a second close
  returns the first one's result.

Modules, leaf first:

- `Base` (`base.dfy`): `Option`, `Result` and the exceptions the operations
  raise (`KeyError` for a job id or a missing keyword argument, `KeyError`
  from the signal table, `AttributeError`).
- `Signals` (`signals.dfy`): `SCRAPY_SIGNAL_NAMES`, the attributes of
  `CrawlerProcessSignals`, `STAT_SIGNALS`, the loop that builds
  `spider_to_cp`, and `_resend_signal` as a function on keyword-argument
  maps.
- `Jobs` (`jobs.dfy`): the parts that only read state. These are the status
  rule, `get_jobs`, the `jobs` snapshot and the search behind `get_crawler`,
  all over `CrawlerView` values (what the process reads of a crawler).
- `Crawlers` (`crawler.dfy`): two classes. `Crawler` has the fields the
  process reads and writes. `Engine` (`ArachnadoExecutionEngine`) has
  `close_spider`, `pause` and `unpause`.
- `Process` (`process.dfy`): the `CrawlerProcess` class and the shared
  `CrawlIds` counter. They hold `crawl`, `get_crawler`, `stop_job`,
  `pause_job`, `resume_job` and `on_spider_closed`, plus lemmas about the
  process invariant `Valid`.
- `Scenarios` (`scenarios.dfy`): whole runs from a fresh process. Each one
  ends in the values a caller observes.

Some behaviours of the code are easy to miss. The model keeps each of them:

- **`on_spider_closed` has no duplicate guard.** A second close event for one
  id adds a second record (`Scenarios.ClosedTwice`).
- **`get_crawler` returns the first match.** A crawler without a spider that
  comes before the match raises `AttributeError`, because
  `getattr(None, "crawl_id")` fails. A process that only adds crawlers through
  `crawl` never has two live crawlers with one id (`Process.FoundIsOnlyMatch`).
- **`pause_job` adds the id whatever the lookup finds.** An unknown id stays
  in the paused set even though the call raises `KeyError`
  (`Scenarios.PauseUnknown`).
- **`resume_job` raises `KeyError` from `set.remove` before the lookup.** A
  never-paused id and an unknown id raise the same exception type. A paused
  but unknown id leaves the set, and the lookup raises.
- **The order inside `pause_job` and `resume_job`.** The source changes the
  paused set before the lookup. The model looks the crawler up first. The
  lookup does not read the paused set, so every path ends in the same state.
- **No cleanup when a paused job closes.** Its id stays in the paused set.

## Model

| member | source | states |
|---|---|---|
| Process.CrawlIds.constructor | arachnado/crawler_process.py:123 | the id counter starts at 1 |
| Process.CrawlIds.Next | arachnado/crawler_process.py:139 | returns the current value and advances the counter by one |
| Process.ResentSignals | arachnado/crawler_process.py:145-151 | the signals `crawl` connects: each Scrapy signal name in order, then `stats_changed` exactly when the stats collector has signals |
| Process.ConnectResend | arachnado/crawler_process.py:145-151 | the connect loop appends exactly those signals to the crawler's connections |
| Process.CrawlerProcess.constructor | arachnado/crawler_process.py:125-132 | a new process has no crawlers, no paused ids and no finished jobs, and satisfies the invariant |
| Process.CrawlerProcess.Crawl | arachnado/crawler_process.py:138-154 | the id is the counter's old value and the counter moves on by one; the id exceeds every id already issued; the crawler is appended and connected; it is crawling with a spider carrying the id, job id and seed, and a fresh open engine; the invariant (positive ids below the counter, distinct ids, each crawler once) is kept |
| Process.CrawlerProcess.GetCrawler | arachnado/crawler_process.py:175-179 | the search loop returns exactly what the `Lookup` specification gives: the first crawler whose spider has the id, `KeyError` when none has it, `AttributeError` when a spider-less crawler comes first |
| Process.CrawlerProcess.StopJob | arachnado/crawler_process.py:161-163 | `get_crawler`'s exception is passed on; otherwise the crawler found stops crawling, an engine stop is requested if it was crawling, and nothing else of it changes |
| Process.CrawlerProcess.PauseJob | arachnado/crawler_process.py:165-168 | the paused set becomes the old set plus the id, even when the lookup raises; the error is the lookup's, or `AttributeError` for a crawler without engine; on success the engine is paused and has sent `engine_paused`; only the paused set and that engine's paused flag and sent signals may change, so the crawlers, their spiders and the engine's close state stay as they were |
| Process.CrawlerProcess.ResumeJob | arachnado/crawler_process.py:170-173 | a not-paused id raises `KeyError` and changes nothing; otherwise exactly the id leaves the set, the lookup's error is passed on, and on success the engine is unpaused and has sent `engine_resumed`; as for `PauseJob`, only the paused set and that engine's paused flag and sent signals may change |
| Process.PauseEngineOf | arachnado/crawler_process.py:168 | `.engine.pause()` on the lookup's result: its exception, `AttributeError` for a crawler without engine, or a paused engine that has sent `engine_paused` |
| Process.UnpauseEngineOf | arachnado/crawler_process.py:173 | `.engine.unpause()` on the lookup's result: its exception, `AttributeError` for a crawler without engine, or an unpaused engine that has sent `engine_resumed` |
| Process.ClosedRecord | arachnado/crawler_process.py:206-212 | the record of a closed job: the spider's id, job id and seed, the close reason as status, the stats |
| Process.CrawlerProcess.JobsNow | arachnado/crawler_process.py:241-249 | the `jobs` property ends with the whole finished list, has at most one more record per crawler, and none of its active records is "unknown" |
| Process.CrawlerProcess.OnSpiderClosed | arachnado/crawler_process.py:204-212 | exactly one record (id, job id, seed, the reason as status, the stats) is put at the head; earlier records keep their order; no duplicate check |
| Process.ValidIdsDistinct | arachnado/crawler_process.py:139 | in a process built by `crawl`, no two crawlers share an id |
| Process.FoundMatches | arachnado/crawler_process.py:175-179 | the crawler `get_crawler` returns is one of the process's crawlers and its spider has the id; otherwise the error is `KeyError` for the id or `AttributeError` for `crawl_id` |
| Process.FoundIsOnlyMatch | arachnado/crawler_process.py:175-179 | in such a process the crawler `get_crawler` finds is the only one with the id |
| Process.UnissuedIdNotFound | arachnado/crawler_process.py:175-179 | an id the counter has not issued yet (or below 1) finds no crawler |
| Jobs.CrawlerStatus | arachnado/crawler_process.py:232-239 | each status holds exactly under its condition, first rule first: no spider gives "unknown"; not crawling gives "stopping"; a paused id gives "suspended"; otherwise "crawling" |
| Jobs.StopOutranksPause | arachnado/crawler_process.py:235-238 | a paused job that has stopped crawling reports "stopping" |
| Jobs.WithSpider | arachnado/crawler_process.py:220 | the crawlers kept are exactly those with a spider |
| Jobs.WithSpiderAppend | arachnado/crawler_process.py:220 | the filter works piecewise: filtering two lists one after the other is filtering their concatenation, so the kept crawlers keep their order and each occurrence is kept once |
| Jobs.WithSpiderAllStarted | arachnado/crawler_process.py:220 | when every crawler has a spider, none is dropped and the order is kept |
| Jobs.ActiveEntry | arachnado/crawler_process.py:222-228 | the record of an active crawler: its spider's id, job id and seed, its stats, and its status by the status rule, never "unknown" |
| Jobs.GetJobs | arachnado/crawler_process.py:218-230 | record i is the record of the i-th crawler with a spider, so there is one record per such crawler in crawler order; no record is "unknown"; every crawler with a spider has its record |
| Jobs.GetJobsAppend | arachnado/crawler_process.py:218-230 | `get_jobs` works piecewise over the crawler list |
| Jobs.GetJobsOne | arachnado/crawler_process.py:218-230 | a single crawler gives its record when it has a spider and nothing otherwise |
| Jobs.GetJobsOnlyStarted | arachnado/crawler_process.py:218-230 | every record describes a crawler that has a spider |
| Jobs.GetJobsAllStarted | arachnado/crawler_process.py:218-230 | with every spider present, `get_jobs` is one record per crawler in crawler order |
| Jobs.DropFinished | arachnado/crawler_process.py:245-247 | a record is kept exactly when it was active and its id has no finished record |
| Jobs.DropFinishedAppend | arachnado/crawler_process.py:246-247 | the filter works piecewise, so it keeps the active order |
| Jobs.DropFinishedNothingFinished | arachnado/crawler_process.py:246-247 | with no finished ids among the active records, nothing is dropped |
| Jobs.Snapshot | arachnado/crawler_process.py:241-249 | the snapshot ends with the whole finished list and has at most one more record per crawler |
| Jobs.SnapshotShape | arachnado/crawler_process.py:241-249 | `jobs` is the filtered active records followed by the whole finished list; none of the first part is "unknown"; no id appears in both parts |
| Jobs.Lookup | arachnado/crawler_process.py:175-179 | the position found has the id and every crawler before it has a spider with another id; `KeyError` exactly when no crawler has the id and none lacks a spider; `AttributeError` only when a spider-less crawler comes before any match |
| Jobs.LookupUnique | arachnado/crawler_process.py:175-179 | with distinct ids the position found is the only one with the id |
| Signals.FindSignal | arachnado/crawler_process.py:58-72 | `getattr(CrawlerProcessSignals, name)`: the attribute found has that name; None exactly when no attribute has it |
| Signals.CatalogueDeclared | arachnado/crawler_process.py:31-72 | every re-published Scrapy signal name is an attribute of `CrawlerProcessSignals` |
| Signals.BuildSpiderToCp | arachnado/crawler_process.py:74-77 | the table-building loop succeeds exactly when every name is an attribute; then the table maps each name's Scrapy signal to that attribute; otherwise it raises `AttributeError` for a missing name |
| Signals.SpiderToCpOf | arachnado/crawler_process.py:74-77 | the table the loop builds over a list of names: its keys are exactly the Scrapy signals of those names, each mapped to the attribute of that name |
| Signals.SpiderToCpSameName | arachnado/crawler_process.py:74-77 | each listed Scrapy signal maps to the process signal of the same name |
| Signals.SpiderToCpKeys | arachnado/crawler_process.py:51-77 | the table's keys are exactly the listed Scrapy signals |
| Signals.SpiderToCpInjective | arachnado/crawler_process.py:58-77 | no two Scrapy signals map to the same process signal, and `stats_changed` is not in the table |
| Signals.CpSignal | arachnado/crawler_process.py:54-56 | `CrawlerProcessSignals.signal` succeeds exactly for listed Scrapy signals, with the same-name process signal; otherwise `KeyError` |
| Signals.Republish | arachnado/crawler_process.py:193-197 | the re-published arguments are the given ones plus `crawler` and `signal`, set to the crawler and the process signal, with every other argument kept; dispatch is deferred exactly when the target supports it |
| Signals.ResendWithout | arachnado/crawler_process.py:188-197 | the same with the sender removed first |
| Signals.ResendStats | arachnado/crawler_process.py:186-188 | the `STAT_SIGNALS` branch: `KeyError` for a missing sender, `AttributeError` for a sender that is not a stats collector, otherwise `agg_stats_changed` about the collector's crawler |
| Signals.ResendScrapy | arachnado/crawler_process.py:189-191 | the `spider_to_cp` branch: the table's `KeyError` for an unlisted signal, `KeyError` for a missing sender, otherwise the same-name process signal with the sender as crawler |
| Signals.ResendSignal | arachnado/crawler_process.py:181-197 | each error in the order the code meets it: no `signal`; a signal that is neither the stats signal nor a Scrapy signal; for the stats signal, no sender, then a sender that is not a stats collector; for a Scrapy signal, one not in the table, then no sender; and success in every other case; `sender` is removed, `crawler` and `signal` are set and every other argument is kept; `stats_changed` becomes `agg_stats_changed` with the stats collector's crawler; a Scrapy signal becomes the same-name process signal with the sender as crawler; dispatch is deferred exactly when the target supports it |
| Signals.ResendStatsChanged | arachnado/crawler_process.py:26-28 | `stats_changed` from a crawler's stats collector is re-published, not deferred, as `agg_stats_changed` about that crawler |
| Crawlers.Crawler.Start | arachnado/crawler_process.py:113-114 | a crawl sets `crawling`, creates the spider and a fresh open, unpaused engine of the Arachnado class |
| Crawlers.Crawler.Stop | arachnado/crawler_process.py:163 | the crawler is no longer crawling, and an engine stop is requested exactly when it was crawling |
| Crawlers.Engine.CloseSpider | arachnado/crawler_process.py:90-95 | a close already under way returns its reason and changes nothing; the first close clears `crawling`, sends one `spider_closing` whose listeners see `crawling` false, and records the reason |
| Crawlers.Engine.Pause | arachnado/crawler_process.py:97-100 | the engine is paused, then `engine_paused` is sent |
| Crawlers.Engine.Unpause | arachnado/crawler_process.py:102-105 | the engine is unpaused, then `engine_resumed` is sent |
| Crawlers.SpidersOf | arachnado/crawler_process.py:176-177 | the spiders `get_crawler` reads, one per crawler in list order |
| Crawlers.ViewsOf | arachnado/crawler_process.py:176 | what the process reads of each crawler, one view per crawler in list order |
| Scenarios.SnapshotOfTwo | arachnado/crawler_process.py:241-249 | with two started crawlers and no finished job, `jobs` is their two records in order |
| Scenarios.SnapshotOfTwoSecondClosed | arachnado/crawler_process.py:241-249 | once the second job has a finished record, `jobs` is the first job's active record followed by that record |
| Scenarios.StartTwo | arachnado/crawler_process.py:138-154 | two `crawl` calls on a fresh process give ids 1 and 2, in order |
| Scenarios.PauseFirst | arachnado/crawler_process.py:165-168 | pausing job 1 succeeds and `jobs` shows it "suspended" beside the "crawling" job 2 |
| Scenarios.PauseResumeFirst | arachnado/crawler_process.py:170-173 | pausing then resuming job 1 succeeds and shows it "crawling" again |
| Scenarios.ResumeNotPaused | arachnado/crawler_process.py:170-172 | resuming a job that was never paused raises `KeyError` and leaves its engine untouched |
| Scenarios.StopSecond | arachnado/crawler_process.py:161-163 | stopping job 2 shows it "stopping" |
| Scenarios.FinishSecond | arachnado/crawler_process.py:204-212 | after job 2's engine closes with "finished" and the close is archived, `jobs` shows job 1 active and job 2's finished record with its final stats |
| Scenarios.PauseUnknown | arachnado/crawler_process.py:165-173 | pausing an unknown id raises `KeyError` but leaves the id paused; resuming it then raises `KeyError` after removing it |
| Scenarios.CloseTwice | arachnado/crawler_process.py:90-95 | a second `close_spider` returns the first reason and sends no second `spider_closing` |
| Scenarios.ClosedTwice | arachnado/crawler_process.py:204-212 | two close events for one id leave two records, the later first, and `jobs` lists both |

## Left out

- `stop` (lines 199-202) and `ProcessStatsMonitor`: they stop the process and sample its resources in the background.
- The constructor's connection of `on_spider_closed` to the process-wide `spider_closed` signal is not modelled as a subscription. `OnSpiderClosed` stands for the delivery of that signal.
- `send_catch_log` and `send_catch_log_deferred` are external dispatch primitives with Twisted deferreds. `ResendSignal` records only which of them is chosen and with which arguments.
- The logging setup and the monkey-patching of `signals.spider_closing`, `engine_paused` and `engine_resumed`. These are plumbing; the three signals simply exist in the model.
- `_create_crawler` and the spider loader. `crawl` is modelled for a crawler object passed in. When a spider class or name is passed, the source creates a crawler itself (line 143) and connects `_resend_signal` to it (lines 146-151). It then passes the class, not that crawler, to Scrapy's `crawl` (line 153), which creates a second crawler. The connected crawler never runs, so the running one's signals are not re-published. That path is not modelled.
- Process.CrawlerProcess.Crawl: the source returns Scrapy's deferred (lines 153-154). The model returns the id instead, which in the source is observable only as the spider's `crawl_id`.
- Process.CrawlerProcess.Crawl: its precondition (a crawler not yet in the process and not crawling) leaves out a second `crawl` of the same crawler. In the source that call still takes an id (line 139) and connects the signals again (lines 146-151) before Scrapy's own check rejects the crawler.
- Scrapy discards a crawler from `crawlers` once its crawl finishes. The model never removes a crawler, so a finished job's id is still found by `get_crawler` and still listed by `get_jobs` (the `jobs` snapshot then drops it in favour of its finished record).
- Jobs.ActiveEntry: `getattr(spider, 'motor_job_id')` (line 224) raises `AttributeError` for a spider without that attribute. The model's spider always has a job id.
- Process.ClosedRecord: `getattr(spider, 'motor_job_id')` (line 208) raises `AttributeError` in the same way. The model's spider always has a job id.
- Scrapy's internals (`Crawler.crawl`, `Crawler.stop`, the engine's own `close_spider`, `pause`, `unpause`) are abstract actions. They are: register the crawler and create its spider and engine; clear `crawling` and request an engine stop; record the close reason; set or clear a paused flag.
- Stats are opaque maps that the model only copies. In the model's `OnSpiderClosed` the caller passes them in. The source reads them from the spider's crawler.
- Scrapy keeps `crawlers` in a set, so the order `get_crawler` scans it in is not fixed there. The model uses a sequence in insertion order, which fixes one order.
- Twisted's concurrency between crawlers is not modelled. Every operation runs to completion before the next.
- The engine's `slot` being None (no spider open) before `close_spider` is not modelled. The model's engine always has its close state.
- Crawlers.Engine.CloseSpider: Scrapy's own close returns a deferred. The model returns the reason that the deferred stands for.
- Signals.ResendSignal: the values of the signal table are checked against the 15 declared attributes by name, not by object identity, because the declared attributes have distinct names.
