/** Signal translation: the per-crawler signals that a crawl job emits, the
    process-wide signals they are re-published as, the tables between the two
    and the payload rewrite done by `ArachnadoCrawlerProcess._resend_signal`.
    The listener dispatch itself (`send_catch_log`, `send_catch_log_deferred`)
    is not modelled; a translation only records which of the two is chosen. */
module Signals {
  import opened Base

  /** A process-wide signal (`arachnado.signals.Signal`): its name and whether
      listeners may return deferreds that the sender waits for. */
  datatype Signal = Signal(name: string, supportsDefer: bool)

  /** A signal emitted by one crawler: one of Scrapy's signal sentinels, named
      by their attribute in `scrapy.signals` (three of them are added by the
      monkey patch at the top of the module), or the stats collector's
      `stats_changed`. */
  datatype SpiderSignal = ScrapySignal(name: string) | StatsChanged

  /** The process-wide signal fired when the stats of any spider change. */
  const AGG_STATS_CHANGED: Signal := Signal("agg_stats_changed", false)

  /** The per-crawler signals that the process re-publishes, in source order. */
  const SCRAPY_SIGNAL_NAMES: seq<string> := [
    "engine_started", "engine_stopped", "engine_paused", "engine_resumed",
    "item_scraped", "item_dropped", "spider_closed", "spider_closing",
    "spider_opened", "spider_idle", "spider_error", "request_scheduled",
    "request_dropped", "response_received", "response_downloaded"
  ]

  /** The attributes of `CrawlerProcessSignals`, in declaration order. */
  const CRAWLER_PROCESS_SIGNALS: seq<Signal> := [
    Signal("engine_started", true),
    Signal("engine_stopped", true),
    Signal("engine_paused", false),
    Signal("engine_resumed", false),
    Signal("spider_opened", true),
    Signal("spider_idle", false),
    Signal("spider_closed", true),
    Signal("spider_closing", false),
    Signal("spider_error", false),
    Signal("request_scheduled", false),
    Signal("request_dropped", false),
    Signal("response_received", false),
    Signal("response_downloaded", false),
    Signal("item_scraped", true),
    Signal("item_dropped", true)
  ]

  /** `STAT_SIGNALS`: the stats signal goes to `agg_stats_changed`. */
  const STAT_SIGNALS: map<SpiderSignal, Signal> := map[StatsChanged := AGG_STATS_CHANGED]

  /** The first signal of `sigs` called `name`, or None. */
  function FindSignal(sigs: seq<Signal>, name: string): (r: Option<Signal>)
    ensures r.Some? ==> r.value in sigs && r.value.name == name
    ensures r.None? <==> forall i :: 0 <= i < |sigs| ==> sigs[i].name != name
  {
    if sigs == [] then None
    else if sigs[0].name == name then Some(sigs[0])
    else FindSignal(sigs[1..], name)
  }

  /** `getattr(CrawlerProcessSignals, name)`; None stands for AttributeError. */
  function ProcessSignal(name: string): Option<Signal>
  {
    FindSignal(CRAWLER_PROCESS_SIGNALS, name)
  }

  /** Every name the process re-publishes is an attribute of
      `CrawlerProcessSignals`, so building the table never raises. */
  lemma CatalogueDeclared()
    ensures forall n :: n in SCRAPY_SIGNAL_NAMES ==> ProcessSignal(n).Some?
  {
    // where each re-published name stands among the class attributes
    var at := [0, 1, 2, 3, 13, 14, 6, 7, 4, 5, 8, 9, 10, 11, 12];
    forall i | 0 <= i < |SCRAPY_SIGNAL_NAMES|
      ensures ProcessSignal(SCRAPY_SIGNAL_NAMES[i]).Some?
    {
      assert CRAWLER_PROCESS_SIGNALS[at[i]].name == SCRAPY_SIGNAL_NAMES[i];
    }
  }

  /** The table `spider_to_cp` holds once the loop has run over `names`,
      looking each name up among the attributes `sigs`. */
  function SpiderToCpOf(names: seq<string>, sigs: seq<Signal>): (m: map<SpiderSignal, Signal>)
    requires forall n :: n in names ==> FindSignal(sigs, n).Some?
    ensures forall s :: s in m <==> s.ScrapySignal? && s.name in names
    ensures forall s :: s in m ==> m[s] == FindSignal(sigs, s.name).value
  {
    map n | n in names :: ScrapySignal(n) := FindSignal(sigs, n).value
  }

  /** The `spider_to_cp` table: each listed Scrapy signal to the
      `CrawlerProcessSignals` attribute of the same name. */
  function SpiderToCp(): map<SpiderSignal, Signal>
  {
    CatalogueDeclared();
    SpiderToCpOf(SCRAPY_SIGNAL_NAMES, CRAWLER_PROCESS_SIGNALS)
  }

  /** The loop that fills `spider_to_cp` when the module is imported: for
      each name, `getattr(CrawlerProcessSignals, name)` (an AttributeError if
      the class has no such attribute) is stored under the Scrapy signal of
      that name. */
  method BuildSpiderToCp(names: seq<string>, attributes: seq<Signal>) returns (r: Result<map<SpiderSignal, Signal>>)
    ensures r.Ok? <==> forall n :: n in names ==> FindSignal(attributes, n).Some?
    ensures r.Ok? ==> (forall n :: n in names ==> FindSignal(attributes, n).Some?) &&
                      r.value == SpiderToCpOf(names, attributes)
    ensures r.Err? ==> exists n :: n in names && FindSignal(attributes, n).None? && r.error == AttributeError(n)
  {
    var m: map<SpiderSignal, Signal> := map[];
    for i := 0 to |names|
      invariant forall n :: n in names[..i] ==> FindSignal(attributes, n).Some?
      invariant forall s :: s in m <==> s.ScrapySignal? && s.name in names[..i]
      invariant forall s :: s in m ==> m[s] == FindSignal(attributes, s.name).value
    {
      var name := names[i];
      var cpSignal := FindSignal(attributes, name);
      if cpSignal.None? {
        assert name in names;
        return Err(AttributeError(name));
      }
      assert names[..i + 1] == names[..i] + [name];
      m := m[ScrapySignal(name) := cpSignal.value];
    }
    assert names[..|names|] == names;
    assert m.Keys == SpiderToCpOf(names, attributes).Keys;
    r := Ok(m);
  }

  /** Each listed Scrapy signal maps to the process signal of the same name. */
  lemma SpiderToCpSameName(n: string)
    requires n in SCRAPY_SIGNAL_NAMES
    ensures ScrapySignal(n) in SpiderToCp()
    ensures SpiderToCp()[ScrapySignal(n)].name == n
    ensures SpiderToCp()[ScrapySignal(n)] in CRAWLER_PROCESS_SIGNALS
  {
    CatalogueDeclared();
  }

  /** The keys of `spider_to_cp` are exactly the listed Scrapy signals. */
  lemma SpiderToCpKeys(s: SpiderSignal)
    ensures s in SpiderToCp() <==> s.ScrapySignal? && s.name in SCRAPY_SIGNAL_NAMES
  {
    CatalogueDeclared();
  }

  /** No two Scrapy signals are re-published as the same process signal, and
      the stats signal is never among them. */
  lemma SpiderToCpInjective()
    ensures forall a, b :: a in SpiderToCp() && b in SpiderToCp() && SpiderToCp()[a] == SpiderToCp()[b] ==> a == b
    ensures StatsChanged !in SpiderToCp()
  {
    var m := SpiderToCp();
    forall a, b | a in m && b in m && m[a] == m[b]
      ensures a == b
    {
      SpiderToCpKeys(a);
      SpiderToCpKeys(b);
      SpiderToCpSameName(a.name);
      SpiderToCpSameName(b.name);
    }
    SpiderToCpKeys(StatsChanged);
  }

  /** `CrawlerProcessSignals.signal`: look a Scrapy signal up in `spider_to_cp`. */
  function CpSignal(s: SpiderSignal): (r: Result<Signal>)
    ensures r.Ok? <==> s.ScrapySignal? && s.name in SCRAPY_SIGNAL_NAMES
    ensures r.Ok? ==> r.value.name == s.name && r.value in CRAWLER_PROCESS_SIGNALS
    ensures r.Err? ==> r.error == SignalKeyError
  {
    SpiderToCpKeys(s);
    if s in SpiderToCp() then
      SpiderToCpSameName(s.name);
      Ok(SpiderToCp()[s])
    else
      Err(SignalKeyError)
  }

  /** A value carried in a signal's keyword arguments. `C` is the crawler
      object type; senders are crawlers (for Scrapy signals) or stats
      collectors (for `stats_changed`), each of which knows its crawler. */
  datatype Value<C> =
    | SpiderSig(s: SpiderSignal)
    | ProcessSig(p: Signal)
    | CrawlerObj(c: C)
    | StatsObj(owner: C)
    | Data(d: string)

  /** The `**kwargs` of a signal handler. */
  type Kwargs<C> = map<string, Value<C>>

  /** `send_catch_log_deferred` or `send_catch_log`. */
  datatype DispatchKind = SendCatchLogDeferred | SendCatchLog

  /** A re-publication: which dispatch is used and with which arguments. */
  datatype Dispatch<C> = Dispatch(kind: DispatchKind, kwargs: Kwargs<C>)

  /** The last step of `_resend_signal`: set `crawler` and `signal`, then pick
      the dispatch by `supports_defer`. */
  function Republish<C>(target: Signal, rest: Kwargs<C>, crawler: Value<C>): (d: Dispatch<C>)
    ensures d.kwargs.Keys == rest.Keys + {"crawler", "signal"}
    ensures d.kwargs["crawler"] == crawler && d.kwargs["signal"] == ProcessSig(target)
    ensures forall k :: k in rest && k != "crawler" && k != "signal" ==> d.kwargs[k] == rest[k]
    ensures d.kind == SendCatchLogDeferred <==> target.supportsDefer
  {
    var out := rest["crawler" := crawler]["signal" := ProcessSig(target)];
    Dispatch(if target.supportsDefer then SendCatchLogDeferred else SendCatchLog, out)
  }

  /** Republishing without the sender: what both branches of `_resend_signal` do. */
  function ResendWithout<C>(target: Signal, kwargs: Kwargs<C>, crawler: Value<C>): (d: Dispatch<C>)
    requires "sender" in kwargs
    ensures "sender" !in d.kwargs
    ensures d.kwargs.Keys == kwargs.Keys - {"sender"} + {"crawler", "signal"}
    ensures forall k :: k in d.kwargs && k != "crawler" && k != "signal" ==> d.kwargs[k] == kwargs[k]
    ensures d.kwargs["signal"] == ProcessSig(target) && d.kwargs["crawler"] == crawler
    ensures d.kind == SendCatchLogDeferred <==> target.supportsDefer
  {
    Republish(target, kwargs - {"sender"}, crawler)
  }

  /** The `STAT_SIGNALS` branch of `_resend_signal`: the crawler is read off
      the sender, a stats collector. */
  function ResendStats<C>(kwargs: Kwargs<C>): (r: Result<Dispatch<C>>)
    ensures "sender" !in kwargs ==> r == Err(KwargKeyError("sender"))
    ensures "sender" in kwargs && !kwargs["sender"].StatsObj? ==> r == Err(AttributeError("crawler"))
    ensures "sender" in kwargs && kwargs["sender"].StatsObj? ==>
              r == Ok(ResendWithout(AGG_STATS_CHANGED, kwargs, CrawlerObj(kwargs["sender"].owner)))
  {
    if "sender" !in kwargs then Err(KwargKeyError("sender"))
    else if !kwargs["sender"].StatsObj? then Err(AttributeError("crawler"))
    else Ok(ResendWithout(STAT_SIGNALS[StatsChanged], kwargs, CrawlerObj(kwargs["sender"].owner)))
  }

  /** The `spider_to_cp` branch of `_resend_signal`: the sender is the crawler. */
  function ResendScrapy<C>(kwargs: Kwargs<C>, s: SpiderSignal): (r: Result<Dispatch<C>>)
    ensures !(s.ScrapySignal? && s.name in SCRAPY_SIGNAL_NAMES) ==> r == Err(SignalKeyError)
    ensures s.ScrapySignal? && s.name in SCRAPY_SIGNAL_NAMES && "sender" !in kwargs ==> r == Err(KwargKeyError("sender"))
    ensures s.ScrapySignal? && s.name in SCRAPY_SIGNAL_NAMES && "sender" in kwargs ==>
              && r.Ok?
              && r.value == ResendWithout(CpSignal(s).value, kwargs, kwargs["sender"])
              && CpSignal(s).value.name == s.name && CpSignal(s).value in CRAWLER_PROCESS_SIGNALS
  {
    match CpSignal(s)
    case Err(e) => Err(e)
    case Ok(target) =>
      if "sender" !in kwargs then Err(KwargKeyError("sender"))
      else Ok(ResendWithout(target, kwargs, kwargs["sender"]))
  }

  /** `_resend_signal(**kwargs)`: re-publish a crawler's signal process-wide
      with the sender replaced by the crawler it belongs to. */
  function ResendSignal<C>(kwargs: Kwargs<C>): (r: Result<Dispatch<C>>)
    // the error cases, in the order the source meets them
    ensures "signal" !in kwargs ==> r == Err(KwargKeyError("signal"))
    ensures "signal" in kwargs && !kwargs["signal"].SpiderSig? ==> r == Err(SignalKeyError)
    ensures "signal" in kwargs && kwargs["signal"] == SpiderSig(StatsChanged) ==>
              && ("sender" !in kwargs ==> r == Err(KwargKeyError("sender")))
              && ("sender" in kwargs && !kwargs["sender"].StatsObj? ==> r == Err(AttributeError("crawler")))
              && ("sender" in kwargs && kwargs["sender"].StatsObj? ==> r.Ok?)
    ensures "signal" in kwargs && kwargs["signal"].SpiderSig? && kwargs["signal"].s.ScrapySignal? ==>
              && (kwargs["signal"].s.name !in SCRAPY_SIGNAL_NAMES ==> r == Err(SignalKeyError))
              && (kwargs["signal"].s.name in SCRAPY_SIGNAL_NAMES && "sender" !in kwargs ==> r == Err(KwargKeyError("sender")))
              && (kwargs["signal"].s.name in SCRAPY_SIGNAL_NAMES && "sender" in kwargs ==> r.Ok?)
    // the sender is removed, `crawler` and `signal` are set, the rest is kept
    ensures r.Ok? ==> "sender" in kwargs && "sender" !in r.value.kwargs
    ensures r.Ok? ==> r.value.kwargs.Keys == kwargs.Keys - {"sender"} + {"crawler", "signal"}
    ensures r.Ok? ==> forall k :: k in r.value.kwargs && k != "crawler" && k != "signal" ==> r.value.kwargs[k] == kwargs[k]
    // stats signals: the crawler is the stats collector's crawler
    ensures r.Ok? && kwargs["signal"] == SpiderSig(StatsChanged) ==>
              && r.value.kwargs["signal"] == ProcessSig(AGG_STATS_CHANGED)
              && r.value.kwargs["crawler"] == CrawlerObj(kwargs["sender"].owner)
    // Scrapy signals: the crawler is the sender itself
    ensures r.Ok? && kwargs["signal"].s.ScrapySignal? ==>
              && r.value.kwargs["signal"].ProcessSig?
              && r.value.kwargs["signal"].p.name == kwargs["signal"].s.name
              && r.value.kwargs["signal"].p in CRAWLER_PROCESS_SIGNALS
              && r.value.kwargs["crawler"] == kwargs["sender"]
    // deferred dispatch exactly for signals that support it
    ensures r.Ok? ==> && r.value.kwargs["signal"].ProcessSig?
                      && (r.value.kind == SendCatchLogDeferred <==> r.value.kwargs["signal"].p.supportsDefer)
  {
    if "signal" !in kwargs then Err(KwargKeyError("signal"))
    else
      var signal := kwargs["signal"];
      if signal.SpiderSig? && signal.s in STAT_SIGNALS then ResendStats(kwargs)
      else if !signal.SpiderSig? then Err(SignalKeyError)
      else ResendScrapy(kwargs, signal.s)
  }

  /** A `stats_changed` from a crawler's stats collector becomes a
      non-deferred `agg_stats_changed` about that crawler. */
  lemma ResendStatsChanged<C>(kwargs: Kwargs<C>, crawler: C)
    requires kwargs.Keys == {"signal", "sender"}
    requires kwargs["signal"] == SpiderSig(StatsChanged) && kwargs["sender"] == StatsObj(crawler)
    ensures ResendSignal(kwargs) ==
            Ok(Dispatch(SendCatchLog, map["signal" := ProcessSig(AGG_STATS_CHANGED), "crawler" := CrawlerObj(crawler)]))
  {
    var expected := map["signal" := ProcessSig(AGG_STATS_CHANGED), "crawler" := CrawlerObj(crawler)];
    var out := (kwargs - {"sender"})["crawler" := CrawlerObj(crawler)]["signal" := ProcessSig(AGG_STATS_CHANGED)];
    assert out.Keys == expected.Keys;
    assert out == expected;
  }
}
