/**
 * The campaign scheduler (scheduler.py): the event-listener registry, the running flag, the job
 * table keyed by job id, and the bodies of the daily-analysis, monitoring and auto-optimization
 * jobs. The timing library, its background thread and the event loop that runs coroutine
 * listeners are not modelled; a job body is a method that the timer would call.
 */
module Scheduler {
  import opened Wrappers
  import opened Seqs
  import opened Config
  import opened Records
  import opened Analysis
  import opened Keywords

  // ---------------------------------------------------------------------------------------------
  // The services a job calls.

  /** The reporting window a job asks statistics for (seven days, 24 hours, three days). */
  datatype Period = LastWeek | LastDay | LastThreeDays

  /**
   * The answers the API client gives during one run: its campaign list, and its statistics,
   * pause and bid-update calls as functions of their arguments. `stats` is None where the client
   * answers with an empty dictionary.
   */
  datatype Platform = Platform(
    campaigns: seq<Campaign>,
    stats: (string, Period) -> Option<CampaignTotals>,
    keywordStats: (string, Period) -> seq<KeywordRecord>,
    pause: (string, seq<string>) -> bool,
    updateBid: (string, string, real) -> bool)

  /**
   * The analyzer the scheduler is given: its `analyze_keywords`, and its `get_campaign_summary`
   * of the campaign statistics and the analysis (Analysis models both).
   */
  datatype Analyzer = Analyzer(
    analyzeKeywords: seq<KeywordRecord> -> seq<Classified>,
    campaignSummary: (Option<CampaignTotals>, seq<Classified>) -> Summary)

  /** The keyword manager the scheduler is given: its `suggest_bid_adjustments` (Keywords models it). */
  datatype KeywordManager = KeywordManager(suggestBidAdjustments: seq<Classified> -> seq<BidAdjustment>)

  /** A state-changing request sent to the advertising platform. */
  datatype Command =
    | PauseCommand(campaignId: string, keywords: seq<string>)
    | BidCommand(campaignId: string, keyword: string, bid: real)

  // ---------------------------------------------------------------------------------------------
  // Events and listeners.

  datatype Event = AnalysisComplete | OptimizationComplete | ReportGenerated | CriticalIssue

  /** The registry key of each event. */
  function EventName(e: Event): string {
    match e
    case AnalysisComplete => "on_analysis_complete"
    case OptimizationComplete => "on_optimization_complete"
    case ReportGenerated => "on_report_generated"
    case CriticalIssue => "on_critical_issue"
  }

  /** The event a registry key names; None for a name that is not one of the four keys. */
  function EventNamed(name: string): (r: Option<Event>)
    ensures r.Some? ==> EventName(r.value) == name
    ensures r.None? ==> forall e :: EventName(e) != name
  {
    if name == "on_analysis_complete" then Some(AnalysisComplete)
    else if name == "on_optimization_complete" then Some(OptimizationComplete)
    else if name == "on_report_generated" then Some(ReportGenerated)
    else if name == "on_critical_issue" then Some(CriticalIssue)
    else None
  }

  /** One campaign's entry in the daily-analysis results. */
  datatype CampaignResult = CampaignResult(
    campaignId: string,
    campaignName: string,
    summary: Summary,
    analysis: seq<Classified>)

  /** One campaign's entry in the auto-optimization results. */
  datatype OptimizationResult = OptimizationResult(
    campaignId: string,
    actionsTaken: int,
    pausedKeywords: int,
    bidAdjustments: int)

  /** What a listener is called with. */
  datatype Payload =
    | AnalysisResults(results: seq<CampaignResult>)
    | OptimizationResults(runs: seq<OptimizationResult>)
    | CriticalIssues(campaignId: string, issues: seq<Classified>)

  /**
   * A plain function, or a coroutine function that is run to completion in its own loop. The
   * scheduler's dispatch treats both alike, because the `iscoroutinefunction` test and
   * `_run_coro` are not modelled: every listener runs to completion either way.
   */
  datatype Mode = Sync | Async

  /** A registered listener: how it is called, and which payloads make it raise. */
  datatype Listener = Listener(mode: Mode, raises: Payload -> bool)

  /** What the scheduler does that can be observed: listener calls and error-level log lines. */
  datatype Entry = Called(listener: Listener, payload: Payload) | Logged(message: string)

  /**
   * Calling every listener of an event, in registration order. A listener that raises has the
   * message logged, and the next listener is called all the same.
   */
  function Delivery(ls: seq<Listener>, p: Payload, message: string): seq<Entry>
    decreases |ls|
  {
    if ls == [] then []
    else
      var l := ls[|ls| - 1];
      Delivery(ls[..|ls| - 1], p, message) + [Called(l, p)]
        + (if l.raises(p) then [Logged(message)] else [])
  }

  /** The listeners a log shows as called, in order. */
  function Invoked(log: seq<Entry>): seq<Listener>
    decreases |log|
  {
    if log == [] then []
    else
      var e := log[|log| - 1];
      Invoked(log[..|log| - 1]) + (if e.Called? then [e.listener] else [])
  }

  /** The number of error lines in a log. */
  function ErrorCount(log: seq<Entry>): nat
    decreases |log|
  {
    if log == [] then 0
    else ErrorCount(log[..|log| - 1]) + (if log[|log| - 1].Logged? then 1 else 0)
  }

  /** The number of listeners that raise on the payload. */
  function Raising(ls: seq<Listener>, p: Payload): nat
    decreases |ls|
  {
    if ls == [] then 0
    else Raising(ls[..|ls| - 1], p) + (if ls[|ls| - 1].raises(p) then 1 else 0)
  }

  lemma {:induction false} InvokedAppend(a: seq<Entry>, b: seq<Entry>)
    ensures Invoked(a + b) == Invoked(a) + Invoked(b)
    ensures ErrorCount(a + b) == ErrorCount(a) + ErrorCount(b)
    decreases |b|
  {
    if b != [] {
      var front := b[..|b| - 1];
      InvokedAppend(a, front);
      assert (a + b)[..|a + b| - 1] == a + front;
      assert (a + b)[|a + b| - 1] == b[|b| - 1];
    } else {
      assert a + b == a;
    }
  }

  /**
   * Every listener is called, in registration order, with the payload, whichever of them raise;
   * exactly one error line is logged per listener that raises, and it is the given message.
   */
  lemma {:induction false} DeliveryCallsAll(ls: seq<Listener>, p: Payload, message: string)
    ensures Invoked(Delivery(ls, p, message)) == ls
    ensures ErrorCount(Delivery(ls, p, message)) == Raising(ls, p)
    ensures forall i :: 0 <= i < |Delivery(ls, p, message)| ==>
      Delivery(ls, p, message)[i] == Logged(message)
      || (Delivery(ls, p, message)[i].Called? && Delivery(ls, p, message)[i].payload == p)
    decreases |ls|
  {
    if ls != [] {
      var front := ls[..|ls| - 1];
      var l := ls[|ls| - 1];
      var tail := [Called(l, p)] + (if l.raises(p) then [Logged(message)] else []);
      DeliveryCallsAll(front, p, message);
      assert Delivery(ls, p, message) == Delivery(front, p, message) + tail;
      InvokedAppend(Delivery(front, p, message), tail);
      assert tail == [Called(l, p)] + (if l.raises(p) then [Logged(message)] else []);
      assert Invoked(tail) == [l] by {
        if l.raises(p) {
          assert tail[..1] == [Called(l, p)];
        }
      }
      assert ErrorCount(tail) == (if l.raises(p) then 1 else 0) by {
        if l.raises(p) {
          assert tail[..1] == [Called(l, p)];
        }
      }
      assert front + [l] == ls;
    }
  }

  // ---------------------------------------------------------------------------------------------
  // The job table.

  datatype Task = DailyAnalysis | WeeklyReport | Monitoring | Optimization

  /** A cron trigger (day of week, hour, minute) or an interval trigger in hours. */
  datatype Trigger = Cron(dayOfWeek: Option<int>, hour: int, minute: int) | Every(hours: int)

  datatype Job = Job(name: string, task: Task, trigger: Trigger)

  const DailyAnalysisId := "daily_analysis"
  const WeeklyReportId := "weekly_report"
  const MonitoringId := "monitoring"
  const OptimizationId := "optimization"

  function DailyJob(hour: int, minute: int): Job {
    Job("Daily Campaign Analysis", DailyAnalysis, Cron(None, hour, minute))
  }

  function WeeklyJob(dayOfWeek: int, hour: int, minute: int): Job {
    Job("Weekly Campaign Report", WeeklyReport, Cron(Some(dayOfWeek), hour, minute))
  }

  function MonitoringJob(intervalHours: int): Job {
    Job("Campaign Monitoring", Monitoring, Every(intervalHours))
  }

  function OptimizationJob(hour: int, minute: int): Job {
    Job("Campaign Optimization", Optimization, Cron(None, hour, minute))
  }

  // ---------------------------------------------------------------------------------------------
  // Daily analysis.

  /** The entries with priority at least 90, in analysis order. */
  function CriticalEntries(analysis: seq<Classified>): seq<Classified> {
    Filter(analysis, IsCritical)
  }

  predicate HasCritical(r: CampaignResult) {
    CriticalEntries(r.analysis) != []
  }

  function CriticalPayload(r: CampaignResult): Payload {
    CriticalIssues(r.campaignId, CriticalEntries(r.analysis))
  }

  /** The critical-issue payloads of a run, one per campaign that has a critical entry. */
  function Dispatches(results: seq<CampaignResult>): seq<Payload>
    decreases |results|
  {
    if results == [] then []
    else
      var r := results[|results| - 1];
      Dispatches(results[..|results| - 1]) + (if HasCritical(r) then [CriticalPayload(r)] else [])
  }

  /**
   * There is one critical-issue dispatch per campaign that has an entry with priority at least
   * 90, in campaign order, and it carries exactly that campaign's critical entries.
   */
  lemma {:induction false} DispatchesPerCampaign(results: seq<CampaignResult>)
    ensures |Dispatches(results)| == |Filter(results, HasCritical)|
    ensures forall j :: 0 <= j < |Dispatches(results)| ==>
      Dispatches(results)[j] == CriticalPayload(Filter(results, HasCritical)[j])
    decreases |results|
  {
    if results != [] {
      var front := results[..|results| - 1];
      var r := results[|results| - 1];
      DispatchesPerCampaign(front);
      assert results == front + [r];
      FilterSnoc(front, r, HasCritical);
    }
  }

  const CriticalMessage := "Critical issue callback error"
  const AnalysisMessage := "Callback error"
  const OptimizationMessage := "Optimization callback error"

  /** The log of a run's critical-issue dispatches, in order. */
  function DeliverAll(ls: seq<Listener>, ps: seq<Payload>): seq<Entry>
    decreases |ps|
  {
    if ps == [] then []
    else DeliverAll(ls, ps[..|ps| - 1]) + Delivery(ls, ps[|ps| - 1], CriticalMessage)
  }

  lemma DispatchesSnoc(results: seq<CampaignResult>, r: CampaignResult)
    ensures Dispatches(results + [r]) == Dispatches(results) + (if HasCritical(r) then [CriticalPayload(r)] else [])
  {
    assert (results + [r])[..|results|] == results;
  }

  lemma DeliverAllSnoc(ls: seq<Listener>, ps: seq<Payload>, p: Payload)
    ensures DeliverAll(ls, ps + [p]) == DeliverAll(ls, ps) + Delivery(ls, p, CriticalMessage)
  {
    assert (ps + [p])[..|ps|] == ps;
  }

  /** A daily-analysis entry built from the client's answers for one listed campaign. */
  predicate Reported(r: CampaignResult, analyzer: Analyzer, platform: Platform, c: Campaign) {
    var id := IdText(c);
    r.campaignId == id
    && r.campaignName == c.name.GetOr("Unknown")
    && r.analysis == analyzer.analyzeKeywords(platform.keywordStats(id, LastWeek))
    && r.summary == analyzer.campaignSummary(platform.stats(id, LastWeek), r.analysis)
  }

  // ---------------------------------------------------------------------------------------------
  // Monitoring.

  datatype AlertKind = DrrAlert | SpendAlert

  datatype Severity = CriticalSeverity | WarningSeverity

  /** An alert with the value its message shows. */
  datatype Alert = Alert(kind: AlertKind, campaignId: string, value: real, severity: Severity)

  const DrrAlertAbove: real := 50.0
  const SpendAlertAbove: real := 10000.0

  /** `stats.get('drr', 0)`. */
  function StatsDrr(stats: Option<CampaignTotals>): real {
    if stats.Some? then stats.value.drr else 0.0
  }

  /** `stats.get('spend', 0)`. */
  function StatsSpend(stats: Option<CampaignTotals>): real {
    if stats.Some? then stats.value.spend else 0.0
  }

  /**
   * One campaign's alerts: a critical ДРР alert iff drr is above 50 and a warning spend alert iff
   * spend is above 10000, so at most two, the ДРР one first.
   */
  function AlertsFor(id: string, stats: Option<CampaignTotals>): (r: seq<Alert>)
    ensures |r| <= 2
    ensures StatsDrr(stats) > DrrAlertAbove ==> Alert(DrrAlert, id, StatsDrr(stats), CriticalSeverity) in r
    ensures StatsSpend(stats) > SpendAlertAbove ==> Alert(SpendAlert, id, StatsSpend(stats), WarningSeverity) in r
    ensures forall i :: 0 <= i < |r| && r[i].kind == DrrAlert ==> StatsDrr(stats) > DrrAlertAbove
    ensures forall i :: 0 <= i < |r| && r[i].kind == SpendAlert ==> StatsSpend(stats) > SpendAlertAbove
    ensures forall i :: 0 <= i < |r| ==> r[i].campaignId == id
    ensures forall i :: 0 <= i < |r| ==>
      (r[i].kind == DrrAlert <==> r[i].severity == CriticalSeverity)
      && r[i].value == (if r[i].kind == DrrAlert then StatsDrr(stats) else StatsSpend(stats))
  {
    var drr := StatsDrr(stats);
    var spend := StatsSpend(stats);
    (if drr > DrrAlertAbove then [Alert(DrrAlert, id, drr, CriticalSeverity)] else [])
      + (if spend > SpendAlertAbove then [Alert(SpendAlert, id, spend, WarningSeverity)] else [])
  }

  /** The alerts of a monitoring run over the campaigns, in campaign order. */
  function MonitoringAlerts(platform: Platform, cs: seq<Campaign>): seq<Alert>
    decreases |cs|
  {
    if cs == [] then []
    else
      var id := IdText(cs[|cs| - 1]);
      MonitoringAlerts(platform, cs[..|cs| - 1]) + AlertsFor(id, platform.stats(id, LastDay))
  }

  /** At most two alerts per campaign, each about one of the monitored campaigns. */
  lemma {:induction false} MonitoringAlertsBound(platform: Platform, cs: seq<Campaign>)
    ensures |MonitoringAlerts(platform, cs)| <= 2 * |cs|
    ensures forall a :: a in MonitoringAlerts(platform, cs) ==>
      exists i :: 0 <= i < |cs| && a.campaignId == IdText(cs[i])
    decreases |cs|
  {
    if cs != [] {
      var front := cs[..|cs| - 1];
      var id := IdText(cs[|cs| - 1]);
      MonitoringAlertsBound(platform, front);
      forall a | a in MonitoringAlerts(platform, cs)
        ensures exists i :: 0 <= i < |cs| && a.campaignId == IdText(cs[i])
      {
        if a in MonitoringAlerts(platform, front) {
          var i :| 0 <= i < |front| && a.campaignId == IdText(front[i]);
          assert cs[i] == front[i];
        } else {
          assert a in AlertsFor(id, platform.stats(id, LastDay));
          assert a.campaignId == IdText(cs[|cs| - 1]);
        }
      }
    }
  }

  // ---------------------------------------------------------------------------------------------
  // Auto-optimization.

  /** `[k['keyword'] for k in analysis if k['action'] == 'pause']`. */
  function PauseList(analysis: seq<Classified>): (r: seq<string>)
    ensures |r| == Count(analysis, Pause)
    decreases |analysis|
  {
    if analysis == [] then []
    else
      var c := analysis[|analysis| - 1];
      PauseList(analysis[..|analysis| - 1]) + (if c.action == Pause then [c.metric.keyword] else [])
  }

  /** A bid adjustment applied automatically: priority at least 70. */
  predicate IsConfident(b: BidAdjustment) {
    b.priority >= 70
  }

  /** The high-confidence bid adjustments suggested for an analysis, in suggestion order. */
  function HighConfidence(manager: KeywordManager, analysis: seq<Classified>): seq<BidAdjustment> {
    Filter(manager.suggestBidAdjustments(analysis), IsConfident)
  }

  /** The number of bid updates the platform accepts. */
  function Applied(platform: Platform, id: string, adjs: seq<BidAdjustment>): (n: nat)
    decreases |adjs|
  {
    if adjs == [] then 0
    else
      var a := adjs[|adjs| - 1];
      Applied(platform, id, adjs[..|adjs| - 1])
        + (if platform.updateBid(id, a.keyword, a.suggestedBid) then 1 else 0)
  }

  /** Between none and all of the bid updates are applied: all when each is accepted, none when none is. */
  lemma {:induction false} AppliedBounds(platform: Platform, id: string, adjs: seq<BidAdjustment>)
    ensures Applied(platform, id, adjs) <= |adjs|
    ensures (forall i :: 0 <= i < |adjs| ==> platform.updateBid(id, adjs[i].keyword, adjs[i].suggestedBid))
      ==> Applied(platform, id, adjs) == |adjs|
    ensures (forall i :: 0 <= i < |adjs| ==> !platform.updateBid(id, adjs[i].keyword, adjs[i].suggestedBid))
      ==> Applied(platform, id, adjs) == 0
    decreases |adjs|
  {
    if adjs != [] {
      AppliedBounds(platform, id, adjs[..|adjs| - 1]);
    }
  }

  /** The bid-update requests, one per adjustment, in order. */
  function BidCommands(id: string, adjs: seq<BidAdjustment>): (r: seq<Command>)
    ensures |r| == |adjs|
    ensures forall i :: 0 <= i < |r| ==>
      r[i] == BidCommand(id, adjs[i].keyword, adjs[i].suggestedBid)
  {
    seq(|adjs|, i requires 0 <= i < |adjs| => BidCommand(id, adjs[i].keyword, adjs[i].suggestedBid))
  }

  const MaxOptimizedCampaigns: nat := 2
  const MaxBidUpdates: nat := 5

  /** The analysis auto-optimization works on: the last three days' keyword statistics. */
  function OptimizationAnalysis(analyzer: Analyzer, platform: Platform, id: string): seq<Classified> {
    analyzer.analyzeKeywords(platform.keywordStats(id, LastThreeDays))
  }

  /** The pause request for a pause list: none for an empty list. */
  function PauseRequests(id: string, pauses: seq<string>): seq<Command> {
    if pauses != [] then [PauseCommand(id, pauses)] else []
  }

  /** The keywords counted as paused: the whole list when the pause request is accepted. */
  function PausedCount(platform: Platform, id: string, pauses: seq<string>): nat {
    if pauses != [] && platform.pause(id, pauses) then |pauses| else 0
  }

  /** Whether the pause request for the campaign's pause list is sent and accepted. */
  predicate PauseApplied(analyzer: Analyzer, platform: Platform, id: string) {
    var pauses := PauseList(OptimizationAnalysis(analyzer, platform, id));
    pauses != [] && platform.pause(id, pauses)
  }

  /** One campaign's auto-optimization result. */
  function Optimized(analyzer: Analyzer, manager: KeywordManager, platform: Platform, c: Campaign): OptimizationResult {
    var id := IdText(c);
    var analysis := OptimizationAnalysis(analyzer, platform, id);
    var pauses := PauseList(analysis);
    var high := HighConfidence(manager, analysis);
    OptimizationResult(id, PausedCount(platform, id, pauses) + Applied(platform, id, Take(high, MaxBidUpdates)),
                       |pauses|, |high|)
  }

  /**
   * The actions taken are the paused keywords (when the pause request is accepted) plus the
   * accepted bid updates, so never more than the pause list plus five; all of them when every
   * request is accepted. The recorded `bid_adjustments` is the number of high-confidence
   * suggestions, however many were applied.
   */
  lemma OptimizedCounts(analyzer: Analyzer, manager: KeywordManager, platform: Platform, c: Campaign)
    ensures var r := Optimized(analyzer, manager, platform, c);
      var analysis := OptimizationAnalysis(analyzer, platform, IdText(c));
      r.campaignId == IdText(c)
      && r.pausedKeywords == Count(analysis, Pause)
      && r.bidAdjustments == |HighConfidence(manager, analysis)|
      && 0 <= r.actionsTaken <= r.pausedKeywords + Min(MaxBidUpdates, r.bidAdjustments)
      && (!PauseApplied(analyzer, platform, IdText(c)) ==> r.actionsTaken <= MaxBidUpdates)
  {
    var id := IdText(c);
    var high := HighConfidence(manager, OptimizationAnalysis(analyzer, platform, id));
    AppliedBounds(platform, id, Take(high, MaxBidUpdates));
  }

  /** The requests one campaign's optimization sends: one pause request, then the bid updates. */
  function OptimizationSent(analyzer: Analyzer, manager: KeywordManager, platform: Platform, c: Campaign): seq<Command> {
    var id := IdText(c);
    var analysis := OptimizationAnalysis(analyzer, platform, id);
    var pauses := PauseList(analysis);
    PauseRequests(id, pauses) + BidCommands(id, Take(HighConfidence(manager, analysis), MaxBidUpdates))
  }

  /** At most one pause request, first, then at most five bid updates, all about the campaign. */
  lemma OptimizationSentShape(analyzer: Analyzer, manager: KeywordManager, platform: Platform, c: Campaign)
    ensures var r := OptimizationSent(analyzer, manager, platform, c);
      |r| <= 1 + MaxBidUpdates
      && (forall k :: 0 <= k < |r| ==> r[k].campaignId == IdText(c))
      && (forall k :: 0 <= k < |r| && r[k].PauseCommand? ==> k == 0)
  {
  }

  /** The results of an optimization run over the campaigns, in order. */
  function Optimizations(analyzer: Analyzer, manager: KeywordManager, platform: Platform, cs: seq<Campaign>): seq<OptimizationResult>
    decreases |cs|
  {
    if cs == [] then []
    else Optimizations(analyzer, manager, platform, cs[..|cs| - 1]) + [Optimized(analyzer, manager, platform, cs[|cs| - 1])]
  }

  /** One result per campaign, each that campaign's own. */
  lemma {:induction false} OptimizationsPerCampaign(analyzer: Analyzer, manager: KeywordManager, platform: Platform, cs: seq<Campaign>)
    ensures |Optimizations(analyzer, manager, platform, cs)| == |cs|
    ensures forall i :: 0 <= i < |cs| ==> Optimizations(analyzer, manager, platform, cs)[i] == Optimized(analyzer, manager, platform, cs[i])
    decreases |cs|
  {
    if cs != [] {
      OptimizationsPerCampaign(analyzer, manager, platform, cs[..|cs| - 1]);
    }
  }

  /** The requests of an optimization run over the campaigns, in order. */
  function OptimizationCommands(analyzer: Analyzer, manager: KeywordManager, platform: Platform, cs: seq<Campaign>): seq<Command>
    decreases |cs|
  {
    if cs == [] then []
    else
      OptimizationCommands(analyzer, manager, platform, cs[..|cs| - 1])
        + OptimizationSent(analyzer, manager, platform, cs[|cs| - 1])
  }

  /** At most six requests per campaign, each about one of the optimized campaigns. */
  lemma {:induction false} OptimizationCommandsBound(analyzer: Analyzer, manager: KeywordManager, platform: Platform, cs: seq<Campaign>)
    ensures |OptimizationCommands(analyzer, manager, platform, cs)| <= (1 + MaxBidUpdates) * |cs|
    ensures forall k :: k in OptimizationCommands(analyzer, manager, platform, cs) ==>
      exists i :: 0 <= i < |cs| && k.campaignId == IdText(cs[i])
    decreases |cs|
  {
    if cs != [] {
      var front := cs[..|cs| - 1];
      var last := cs[|cs| - 1];
      OptimizationCommandsBound(analyzer, manager, platform, front);
      OptimizationSentShape(analyzer, manager, platform, last);
      forall k | k in OptimizationCommands(analyzer, manager, platform, cs)
        ensures exists i :: 0 <= i < |cs| && k.campaignId == IdText(cs[i])
      {
        if k in OptimizationCommands(analyzer, manager, platform, front) {
          var i :| 0 <= i < |front| && k.campaignId == IdText(front[i]);
          assert cs[i] == front[i];
        } else {
          var sent := OptimizationSent(analyzer, manager, platform, last);
          OptimizationSentShape(analyzer, manager, platform, last);
          assert k in sent;
          var j :| 0 <= j < |sent| && sent[j] == k;
          assert k.campaignId == IdText(cs[|cs| - 1]);
        }
      }
    }
  }

  // ---------------------------------------------------------------------------------------------
  // The scheduler.

  class CampaignScheduler {
    /** Whether the timing library is importable (`self.scheduler is not None`). */
    const available: bool
    /** Whether an API client was supplied; the analyzer and keyword manager are None when missing. */
    const hasClient: bool
    const analyzer: Option<Analyzer>
    const keywordManager: Option<KeywordManager>
    const settings: Settings

    var isRunning: bool
    var callbacks: map<Event, seq<Listener>>
    var jobs: map<string, Job>
    /** Listener calls and error-level log lines, oldest first. */
    var log: seq<Entry>
    /** The requests sent to the advertising platform, oldest first. */
    var sent: seq<Command>

    ghost predicate Valid()
      reads this
    {
      AnalysisComplete in callbacks && OptimizationComplete in callbacks
      && ReportGenerated in callbacks && CriticalIssue in callbacks
      && (isRunning ==> available)
    }

    constructor(available: bool, hasClient: bool, analyzer: Option<Analyzer>,
                keywordManager: Option<KeywordManager>, settings: Settings)
      ensures Valid()
      ensures this.available == available && this.hasClient == hasClient
      ensures this.analyzer == analyzer && this.keywordManager == keywordManager
      ensures this.settings == settings
      ensures !isRunning && jobs == map[] && log == [] && sent == []
      ensures callbacks == map[AnalysisComplete := [], OptimizationComplete := [],
                               ReportGenerated := [], CriticalIssue := []]
    {
      this.available := available;
      this.hasClient := hasClient;
      this.analyzer := analyzer;
      this.keywordManager := keywordManager;
      this.settings := settings;
      isRunning := false;
      callbacks := map[AnalysisComplete := [], OptimizationComplete := [],
                       ReportGenerated := [], CriticalIssue := []];
      jobs := map[];
      log := [];
      sent := [];
    }

    /** `add_callback`: append to the listeners of a known event; ignore any other name. */
    method AddCallback(event: string, l: Listener)
      requires Valid()
      modifies this
      ensures Valid()
      ensures EventNamed(event).Some? ==>
        var e := EventNamed(event).value;
        callbacks == old(callbacks)[e := old(callbacks)[e] + [l]]
      ensures EventNamed(event).None? ==> callbacks == old(callbacks)
      ensures isRunning == old(isRunning) && jobs == old(jobs) && log == old(log) && sent == old(sent)
    {
      match EventNamed(event)
      case Some(e) =>
        callbacks := callbacks[e := callbacks[e] + [l]];
      case None =>
    }

    /** Call every listener of the event with the payload, logging the message for each that raises. */
    method Dispatch(event: Event, p: Payload, message: string)
      requires Valid()
      modifies this
      ensures callbacks == old(callbacks) && isRunning == old(isRunning)
      ensures jobs == old(jobs) && sent == old(sent)
      ensures log == old(log) + Delivery(old(callbacks)[event], p, message)
    {
      var ls := callbacks[event];
      for i := 0 to |ls|
        invariant log == old(log) + Delivery(ls[..i], p, message)
        invariant callbacks == old(callbacks) && isRunning == old(isRunning)
        invariant jobs == old(jobs) && sent == old(sent)
      {
        assert ls[..i + 1][..i] == ls[..i];
        ghost var done := Delivery(ls[..i], p, message);
        // A coroutine listener is run in a fresh event loop; either kind runs to completion.
        log := log + [Called(ls[i], p)];
        AppendAssoc(old(log), done, [Called(ls[i], p)]);
        if ls[i].raises(p) {
          log := log + [Logged(message)];
          AppendAssoc(old(log), done + [Called(ls[i], p)], [Logged(message)]);
        }
      }
      assert ls[..|ls|] == ls;
    }

    /** Register a job under an id, replacing any job with that id. */
    method AddJob(id: string, job: Job)
      modifies this
      ensures jobs == old(jobs)[id := job]
      ensures callbacks == old(callbacks) && isRunning == old(isRunning)
      ensures log == old(log) && sent == old(sent)
    {
      jobs := jobs[id := job];
    }

    /** `schedule_daily_analysis`: nothing happens when the timing library is missing. */
    method ScheduleDailyAnalysis(hour: int, minute: int)
      modifies this
      ensures jobs == if available then old(jobs)[DailyAnalysisId := DailyJob(hour, minute)] else old(jobs)
      ensures callbacks == old(callbacks) && isRunning == old(isRunning)
      ensures log == old(log) && sent == old(sent)
    {
      if available {
        AddJob(DailyAnalysisId, DailyJob(hour, minute));
      }
    }

    /** `schedule_weekly_report`: raises when the timing library is missing. */
    method ScheduleWeeklyReport(dayOfWeek: int, hour: int, minute: int) returns (raised: bool)
      modifies this
      ensures raised == !available
      ensures jobs == if available then old(jobs)[WeeklyReportId := WeeklyJob(dayOfWeek, hour, minute)] else old(jobs)
      ensures callbacks == old(callbacks) && isRunning == old(isRunning)
      ensures log == old(log) && sent == old(sent)
    {
      raised := !available;
      if available {
        AddJob(WeeklyReportId, WeeklyJob(dayOfWeek, hour, minute));
      }
    }

    /** `schedule_monitoring`: raises when the timing library is missing. */
    method ScheduleMonitoring(intervalHours: int) returns (raised: bool)
      modifies this
      ensures raised == !available
      ensures jobs == if available then old(jobs)[MonitoringId := MonitoringJob(intervalHours)] else old(jobs)
      ensures callbacks == old(callbacks) && isRunning == old(isRunning)
      ensures log == old(log) && sent == old(sent)
    {
      raised := !available;
      if available {
        AddJob(MonitoringId, MonitoringJob(intervalHours));
      }
    }

    /**
     * `schedule_optimization`: nothing happens when auto-optimization is disabled; otherwise it
     * raises when the timing library is missing.
     */
    method ScheduleOptimization(hour: int, minute: int) returns (raised: bool)
      modifies this
      ensures raised == (settings.autoOptimizationEnabled && !available)
      ensures jobs == if settings.autoOptimizationEnabled && available
                      then old(jobs)[OptimizationId := OptimizationJob(hour, minute)] else old(jobs)
      ensures callbacks == old(callbacks) && isRunning == old(isRunning)
      ensures log == old(log) && sent == old(sent)
    {
      raised := false;
      if !settings.autoOptimizationEnabled {
        return;
      }
      raised := !available;
      if available {
        AddJob(OptimizationId, OptimizationJob(hour, minute));
      }
    }

    /** `_schedule_default_tasks`: daily analysis at 9:00, the weekly report on Mondays at 10:00, hourly monitoring. */
    method ScheduleDefaultTasks()
      modifies this
      ensures jobs == if available then old(jobs)[DailyAnalysisId := DailyJob(9, 0)]
                                                 [WeeklyReportId := WeeklyJob(0, 10, 0)]
                                                 [MonitoringId := MonitoringJob(1)]
                      else old(jobs)
      ensures callbacks == old(callbacks) && isRunning == old(isRunning)
      ensures log == old(log) && sent == old(sent)
    {
      if !available {
        return;
      }
      ScheduleDailyAnalysis(9, 0);
      var raised := ScheduleWeeklyReport(0, 10, 0);
      raised := ScheduleMonitoring(1);
    }

    /**
     * `start`: only a stopped scheduler whose timing library is present starts. `startFails` is
     * whether the library's own start raises, in which case the error is logged and the
     * scheduler stays stopped; otherwise it is running with the three default jobs registered.
     */
    method Start(startFails: bool)
      requires Valid()
      modifies this
      ensures Valid()
      ensures old(isRunning) ==> isRunning && jobs == old(jobs) && log == old(log)
      ensures !old(isRunning) && !available ==> !isRunning && jobs == old(jobs) && log == old(log)
      ensures !old(isRunning) && available && startFails ==>
        !isRunning && jobs == old(jobs) && log == old(log) + [Logged("Failed to start scheduler")]
      ensures !old(isRunning) && available && !startFails ==>
        isRunning && log == old(log)
        && jobs == old(jobs)[DailyAnalysisId := DailyJob(9, 0)][WeeklyReportId := WeeklyJob(0, 10, 0)]
                            [MonitoringId := MonitoringJob(1)]
      ensures callbacks == old(callbacks) && sent == old(sent)
    {
      if !isRunning && available {
        if startFails {
          isRunning := false;
          log := log + [Logged("Failed to start scheduler")];
        } else {
          isRunning := true;
          ScheduleDefaultTasks();
        }
      } else if !available {
        isRunning := false;
      }
    }

    /**
     * `stop`: afterwards the scheduler is stopped, even when the library's shutdown raises
     * (`shutdownFails`), which is then logged. The job table is kept.
     */
    method Stop(shutdownFails: bool)
      requires Valid()
      modifies this
      ensures Valid() && !isRunning
      ensures log == if old(isRunning) && shutdownFails then old(log) + [Logged("Error stopping scheduler")]
                     else old(log)
      ensures callbacks == old(callbacks) && jobs == old(jobs) && sent == old(sent)
    {
      if isRunning && available {
        if shutdownFails {
          log := log + [Logged("Error stopping scheduler")];
        }
        isRunning := false;
      }
    }

    /** `remove_job`: a missing id, or a missing timing library, is logged and is not fatal. */
    method RemoveJob(id: string)
      requires Valid()
      modifies this
      ensures Valid()
      ensures available && id in old(jobs) ==> jobs == old(jobs) - {id} && log == old(log)
      ensures !(available && id in old(jobs)) ==>
        jobs == old(jobs) && log == old(log) + [Logged("Failed to remove job")]
      ensures callbacks == old(callbacks) && isRunning == old(isRunning) && sent == old(sent)
    {
      if available && id in jobs {
        jobs := jobs - {id};
      } else {
        log := log + [Logged("Failed to remove job")];
      }
    }

    /** `_handle_critical_issues`: hand the campaign's critical entries to the critical-issue listeners. */
    method HandleCriticalIssues(campaignId: string, issues: seq<Classified>)
      requires Valid()
      modifies this
      ensures Valid()
      ensures log == old(log) + Delivery(callbacks[CriticalIssue], CriticalIssues(campaignId, issues), CriticalMessage)
      ensures callbacks == old(callbacks) && isRunning == old(isRunning)
      ensures jobs == old(jobs) && sent == old(sent)
    {
      Dispatch(CriticalIssue, CriticalIssues(campaignId, issues), CriticalMessage);
    }

    /**
     * `_run_daily_analysis`. Returns the results it hands to the analysis listeners: one entry
     * for each of the first five listed campaigns. On the way, each campaign with an entry of
     * priority at least 90 has those entries dispatched to the critical-issue listeners.
     */
    method RunDailyAnalysis(platform: Platform) returns (results: seq<CampaignResult>)
      requires Valid()
      modifies this
      ensures Valid()
      ensures !(hasClient && analyzer.Some?) ==>
        results == [] && log == old(log) + [Logged("Missing required components for analysis")]
      ensures hasClient && analyzer.Some? ==>
        |results| == Min(5, |platform.campaigns|)
        && (forall i :: 0 <= i < |results| ==> Reported(results[i], analyzer.value, platform, platform.campaigns[i]))
        && log == old(log) + DeliverAll(callbacks[CriticalIssue], Dispatches(results))
                 + Delivery(callbacks[AnalysisComplete], AnalysisResults(results), AnalysisMessage)
      ensures callbacks == old(callbacks) && isRunning == old(isRunning)
      ensures jobs == old(jobs) && sent == old(sent)
    {
      if !(hasClient && analyzer.Some?) {
        log := log + [Logged("Missing required components for analysis")];
        return [];
      }
      results := AnalyzeCampaigns(platform, analyzer.value, Take(platform.campaigns, 5));
      Dispatch(AnalysisComplete, AnalysisResults(results), AnalysisMessage);
    }

    /** The campaign loop of the daily analysis. */
    method AnalyzeCampaigns(platform: Platform, a: Analyzer, campaigns: seq<Campaign>)
      returns (results: seq<CampaignResult>)
      requires Valid()
      modifies this
      ensures Valid()
      ensures |results| == |campaigns|
      ensures forall i :: 0 <= i < |results| ==> Reported(results[i], a, platform, campaigns[i])
      ensures log == old(log) + DeliverAll(callbacks[CriticalIssue], Dispatches(results))
      ensures callbacks == old(callbacks) && isRunning == old(isRunning)
      ensures jobs == old(jobs) && sent == old(sent)
    {
      results := [];
      for i := 0 to |campaigns|
        invariant Valid()
        invariant |results| == i
        invariant forall j :: 0 <= j < i ==> Reported(results[j], a, platform, campaigns[j])
        invariant log == old(log) + DeliverAll(callbacks[CriticalIssue], Dispatches(results))
        invariant callbacks == old(callbacks) && isRunning == old(isRunning)
        invariant jobs == old(jobs) && sent == old(sent)
      {
        ghost var ls := callbacks[CriticalIssue];
        ghost var done := DeliverAll(ls, Dispatches(results));
        var result := AnalyzeCampaign(platform, a, campaigns[i]);
        DispatchesSnoc(results, result);
        results := results + [result];
        var criticalIssues := CriticalEntries(result.analysis);
        if criticalIssues != [] {
          DeliverAllSnoc(ls, Dispatches(results[..i]), CriticalPayload(result));
          HandleCriticalIssues(result.campaignId, criticalIssues);
          AppendAssoc(old(log), done, Delivery(ls, CriticalPayload(result), CriticalMessage));
        } else {
          assert Dispatches(results) == Dispatches(results[..i]);
        }
      }
    }

    /** One campaign of the daily analysis: its week's statistics, analysis and summary. */
    method AnalyzeCampaign(platform: Platform, a: Analyzer, campaign: Campaign) returns (result: CampaignResult)
      ensures Reported(result, a, platform, campaign)
    {
      var campaignId := IdText(campaign);
      var stats := platform.stats(campaignId, LastWeek);
      var keywordStats := platform.keywordStats(campaignId, LastWeek);
      var analysis := a.analyzeKeywords(keywordStats);
      var summary := a.campaignSummary(stats, analysis);
      result := CampaignResult(campaignId, campaign.name.GetOr("Unknown"), summary, analysis);
    }

    /**
     * `_run_monitoring`: the alerts over every listed campaign, from the last day's statistics;
     * none when there is no client. Nothing is sent and nothing is logged at error level.
     */
    method RunMonitoring(platform: Platform) returns (alerts: seq<Alert>)
      ensures alerts == if hasClient then MonitoringAlerts(platform, platform.campaigns) else []
    {
      alerts := [];
      if !hasClient {
        return;
      }
      var campaigns := platform.campaigns;
      for i := 0 to |campaigns|
        invariant alerts == MonitoringAlerts(platform, campaigns[..i])
      {
        assert campaigns[..i + 1][..i] == campaigns[..i];
        var found := MonitorCampaign(platform, campaigns[i]);
        alerts := alerts + found;
      }
      assert campaigns[..|campaigns|] == campaigns;
    }

    /** One campaign of the monitoring run: its critical ДРР alert, then its spend warning. */
    method MonitorCampaign(platform: Platform, campaign: Campaign) returns (found: seq<Alert>)
      ensures found == AlertsFor(IdText(campaign), platform.stats(IdText(campaign), LastDay))
    {
      found := [];
      var campaignId := IdText(campaign);
      var stats := platform.stats(campaignId, LastDay);
      if StatsDrr(stats) > DrrAlertAbove {
        found := found + [Alert(DrrAlert, campaignId, StatsDrr(stats), CriticalSeverity)];
      }
      if StatsSpend(stats) > SpendAlertAbove {
        found := found + [Alert(SpendAlert, campaignId, StatsSpend(stats), WarningSeverity)];
      }
    }

    /**
     * `_run_optimization`. Returns the results it hands to the optimization listeners: one
     * entry for each of the first two listed campaigns. Nothing happens when auto-optimization
     * is disabled.
     */
    method RunOptimization(platform: Platform) returns (runs: seq<OptimizationResult>)
      requires Valid()
      modifies this
      ensures Valid()
      ensures !settings.autoOptimizationEnabled ==> runs == [] && log == old(log) && sent == old(sent)
      ensures settings.autoOptimizationEnabled && !(hasClient && analyzer.Some? && keywordManager.Some?) ==>
        runs == [] && sent == old(sent)
        && log == old(log) + [Logged("Missing required components for optimization")]
      ensures settings.autoOptimizationEnabled && hasClient && analyzer.Some? && keywordManager.Some? ==>
        var cs := Take(platform.campaigns, MaxOptimizedCampaigns);
        runs == Optimizations(analyzer.value, keywordManager.value, platform, cs)
        && sent == old(sent) + OptimizationCommands(analyzer.value, keywordManager.value, platform, cs)
        && log == old(log) + Delivery(callbacks[OptimizationComplete], OptimizationResults(runs), OptimizationMessage)
      ensures callbacks == old(callbacks) && isRunning == old(isRunning) && jobs == old(jobs)
    {
      runs := [];
      if !settings.autoOptimizationEnabled {
        return;
      }
      if !(hasClient && analyzer.Some? && keywordManager.Some?) {
        log := log + [Logged("Missing required components for optimization")];
        return;
      }
      runs := OptimizeCampaigns(platform, analyzer.value, keywordManager.value,
                                Take(platform.campaigns, MaxOptimizedCampaigns));
      Dispatch(OptimizationComplete, OptimizationResults(runs), OptimizationMessage);
    }

    /** The campaign loop of the auto-optimization. */
    method OptimizeCampaigns(platform: Platform, a: Analyzer, m: KeywordManager, campaigns: seq<Campaign>)
      returns (runs: seq<OptimizationResult>)
      modifies this
      ensures runs == Optimizations(a, m, platform, campaigns)
      ensures sent == old(sent) + OptimizationCommands(a, m, platform, campaigns)
      ensures callbacks == old(callbacks) && isRunning == old(isRunning)
      ensures jobs == old(jobs) && log == old(log)
    {
      runs := [];
      for i := 0 to |campaigns|
        invariant runs == Optimizations(a, m, platform, campaigns[..i])
        invariant sent == old(sent) + OptimizationCommands(a, m, platform, campaigns[..i])
        invariant callbacks == old(callbacks) && isRunning == old(isRunning)
        invariant jobs == old(jobs) && log == old(log)
      {
        assert campaigns[..i + 1][..i] == campaigns[..i];
        ghost var sentBefore := OptimizationCommands(a, m, platform, campaigns[..i]);
        var result := OptimizeCampaign(platform, a, m, campaigns[i]);
        AppendAssoc(old(sent), sentBefore, OptimizationSent(a, m, platform, campaigns[i]));
        runs := runs + [result];
      }
      assert campaigns[..|campaigns|] == campaigns;
    }

    /** One campaign of the auto-optimization: pause, then apply up to five high-confidence bids. */
    method OptimizeCampaign(platform: Platform, a: Analyzer, m: KeywordManager, campaign: Campaign)
      returns (r: OptimizationResult)
      modifies this
      ensures r == Optimized(a, m, platform, campaign)
      ensures sent == old(sent) + OptimizationSent(a, m, platform, campaign)
      ensures callbacks == old(callbacks) && isRunning == old(isRunning)
      ensures jobs == old(jobs) && log == old(log)
    {
      var campaignId := IdText(campaign);
      var keywordStats := platform.keywordStats(campaignId, LastThreeDays);
      var analysis := a.analyzeKeywords(keywordStats);
      var pauseKeywords := PauseList(analysis);
      ghost var before := sent;
      var actionsTaken := PauseKeywords(platform, campaignId, pauseKeywords);
      var bidAdjustments := m.suggestBidAdjustments(analysis);
      var highConfidence := Filter(bidAdjustments, IsConfident);
      var applied := ApplyBids(platform, campaignId, Take(highConfidence, MaxBidUpdates));
      AppendAssoc(before, PauseRequests(campaignId, pauseKeywords),
                  BidCommands(campaignId, Take(highConfidence, MaxBidUpdates)));
      actionsTaken := actionsTaken + applied;
      r := OptimizationResult(campaignId, actionsTaken, |pauseKeywords|, |highConfidence|);
    }

    /** The pause step: one pause request when the list is non-empty, counting the list if accepted. */
    method PauseKeywords(platform: Platform, campaignId: string, pauseKeywords: seq<string>)
      returns (paused: nat)
      modifies this
      ensures paused == PausedCount(platform, campaignId, pauseKeywords)
      ensures sent == old(sent) + PauseRequests(campaignId, pauseKeywords)
      ensures callbacks == old(callbacks) && isRunning == old(isRunning)
      ensures jobs == old(jobs) && log == old(log)
    {
      paused := 0;
      if pauseKeywords != [] {
        var success := platform.pause(campaignId, pauseKeywords);
        sent := sent + [PauseCommand(campaignId, pauseKeywords)];
        if success {
          paused := |pauseKeywords|;
        }
      }
    }

    /** The bid-update loop: send each update, counting those the platform accepts. */
    method ApplyBids(platform: Platform, campaignId: string, adjustments: seq<BidAdjustment>)
      returns (applied: nat)
      modifies this
      ensures applied == Applied(platform, campaignId, adjustments)
      ensures sent == old(sent) + BidCommands(campaignId, adjustments)
      ensures callbacks == old(callbacks) && isRunning == old(isRunning)
      ensures jobs == old(jobs) && log == old(log)
    {
      applied := 0;
      for i := 0 to |adjustments|
        invariant applied == Applied(platform, campaignId, adjustments[..i])
        invariant sent == old(sent) + BidCommands(campaignId, adjustments[..i])
        invariant callbacks == old(callbacks) && isRunning == old(isRunning)
        invariant jobs == old(jobs) && log == old(log)
      {
        assert adjustments[..i + 1][..i] == adjustments[..i];
        var adjustment := adjustments[i];
        var success := platform.updateBid(campaignId, adjustment.keyword, adjustment.suggestedBid);
        sent := sent + [BidCommand(campaignId, adjustment.keyword, adjustment.suggestedBid)];
        if success {
          applied := applied + 1;
        }
      }
      assert adjustments[..|adjustments|] == adjustments;
    }
  }
}
