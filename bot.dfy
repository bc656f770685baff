/**
 * The bot's coordinating operations (main.py): the one-campaign optimization with its dry-run
 * and live modes, the campaign and format selection of the report command, and the guard of the
 * `optimize` command line command. The API client, analyzer and keyword manager are the
 * Scheduler's Platform, Analyzer and KeywordManager values.
 */
module Bot {
  import opened Wrappers
  import opened Seqs
  import opened Config
  import opened Records
  import opened Analysis
  import opened Keywords
  import opened Scheduler

  // ---------------------------------------------------------------------------------------------
  // Analysing one campaign.

  /** `analyze_campaign`'s answer: the summary and analysis of the last seven days. */
  datatype CampaignAnalysis = CampaignAnalysis(campaignId: string, summary: Summary, analysis: seq<Classified>)

  /** `analyze_campaign(campaign_id)` with its default window of seven days. */
  function AnalyzeCampaign(a: Analyzer, platform: Platform, campaignId: string): CampaignAnalysis {
    var analysis := a.analyzeKeywords(platform.keywordStats(campaignId, LastWeek));
    CampaignAnalysis(campaignId, a.campaignSummary(platform.stats(campaignId, LastWeek), analysis), analysis)
  }

  // ---------------------------------------------------------------------------------------------
  // Optimizing one campaign.

  /** The `optimization_results` dictionary. */
  datatype OptimizationReport = OptimizationReport(
    campaignId: string,
    dryRun: bool,
    actionsPlanned: nat,
    actionsExecuted: nat,
    pausedKeywords: seq<string>,
    bidAdjustments: seq<BidAdjustment>,
    errors: seq<string>)

  const PauseFailure: string := "Failed to pause keywords"

  function BidFailure(keyword: string): string {
    "Failed to update bid for " + keyword
  }

  /** Whether the client accepts the bid update of an adjustment. */
  predicate Accepted(platform: Platform, campaignId: string, b: BidAdjustment) {
    platform.updateBid(campaignId, b.keyword, b.suggestedBid)
  }

  function AcceptedBy(platform: Platform, campaignId: string): BidAdjustment -> bool {
    b => Accepted(platform, campaignId, b)
  }

  function RejectedBy(platform: Platform, campaignId: string): BidAdjustment -> bool {
    b => !Accepted(platform, campaignId, b)
  }

  /** The adjustments whose update the client accepts, in the order they are sent. */
  function AcceptedBids(platform: Platform, campaignId: string, adjs: seq<BidAdjustment>): seq<BidAdjustment>
    decreases |adjs|
  {
    if adjs == [] then []
    else
      var b := adjs[|adjs| - 1];
      AcceptedBids(platform, campaignId, adjs[..|adjs| - 1])
        + (if Accepted(platform, campaignId, b) then [b] else [])
  }

  /** One error per refused update, in the order they are sent. */
  function BidErrors(platform: Platform, campaignId: string, adjs: seq<BidAdjustment>): seq<string>
    decreases |adjs|
  {
    if adjs == [] then []
    else
      var b := adjs[|adjs| - 1];
      BidErrors(platform, campaignId, adjs[..|adjs| - 1])
        + (if Accepted(platform, campaignId, b) then [] else [BidFailure(b.keyword)])
  }

  /** The error text of each update the client refuses. */
  function FailureTexts(adjs: seq<BidAdjustment>): (r: seq<string>)
    ensures |r| == |adjs|
    ensures forall i :: 0 <= i < |r| ==> r[i] == BidFailure(adjs[i].keyword)
  {
    seq(|adjs|, i requires 0 <= i < |adjs| => BidFailure(adjs[i].keyword))
  }

  lemma FailureTextsSnoc(adjs: seq<BidAdjustment>, b: BidAdjustment)
    ensures FailureTexts(adjs + [b]) == FailureTexts(adjs) + [BidFailure(b.keyword)]
  {
  }

  /** The accepted updates are exactly the accepted adjustments, in the order they are sent. */
  lemma {:induction false} AcceptedBidsFiltered(platform: Platform, campaignId: string, adjs: seq<BidAdjustment>)
    ensures AcceptedBids(platform, campaignId, adjs) == Filter(adjs, AcceptedBy(platform, campaignId))
    decreases |adjs|
  {
    if adjs != [] {
      var front := adjs[..|adjs| - 1];
      var b := adjs[|adjs| - 1];
      AcceptedBidsFiltered(platform, campaignId, front);
      assert adjs == front + [b];
      FilterSnoc(front, b, AcceptedBy(platform, campaignId));
    }
  }

  /** The errors are one per refused adjustment, in the order they are sent. */
  lemma {:induction false} BidErrorsFiltered(platform: Platform, campaignId: string, adjs: seq<BidAdjustment>)
    ensures BidErrors(platform, campaignId, adjs) == FailureTexts(Filter(adjs, RejectedBy(platform, campaignId)))
    decreases |adjs|
  {
    if adjs != [] {
      var front := adjs[..|adjs| - 1];
      var b := adjs[|adjs| - 1];
      BidErrorsFiltered(platform, campaignId, front);
      assert adjs == front + [b];
      FilterSnoc(front, b, RejectedBy(platform, campaignId));
      if !Accepted(platform, campaignId, b) {
        FailureTextsSnoc(Filter(front, RejectedBy(platform, campaignId)), b);
      } else {
        assert Filter(adjs, RejectedBy(platform, campaignId)) == Filter(front, RejectedBy(platform, campaignId));
      }
    }
  }

  /** Each adjustment is either accepted or reported as an error, never both. */
  lemma {:induction false} BidOutcomesPartition(platform: Platform, campaignId: string, adjs: seq<BidAdjustment>)
    ensures |AcceptedBids(platform, campaignId, adjs)| + |BidErrors(platform, campaignId, adjs)| == |adjs|
    decreases |adjs|
  {
    if adjs != [] {
      BidOutcomesPartition(platform, campaignId, adjs[..|adjs| - 1]);
    }
  }

  /** A bid error never reads as the pause error. */
  lemma BidFailureDistinct(keyword: string)
    ensures BidFailure(keyword) != PauseFailure
  {
    assert BidFailure(keyword)[10] == 'u';
  }

  /** The pause step's effect on the result: keywords executed, keywords reported paused, errors. */
  datatype PauseOutcome = PauseOutcome(executed: nat, paused: seq<string>, errors: seq<string>)

  /**
   * The pause step of `optimize_campaign`: nothing for an empty pause list; in a dry run the list
   * is reported; in a live run it is reported and counted when the client accepts the request,
   * and the pause error is added when it refuses.
   */
  function PauseStep(platform: Platform, campaignId: string, dryRun: bool, pauses: seq<string>): PauseOutcome {
    if pauses == [] then PauseOutcome(0, [], [])
    else if dryRun then PauseOutcome(0, pauses, [])
    else if platform.pause(campaignId, pauses) then PauseOutcome(|pauses|, pauses, [])
    else PauseOutcome(0, [], [PauseFailure])
  }

  /** The result `optimize_campaign` returns (its analysis is the seven-day one). */
  function Optimization(platform: Platform, a: Analyzer, m: KeywordManager, campaignId: string, dryRun: bool)
    : OptimizationReport
  {
    var analysis := AnalyzeCampaign(a, platform, campaignId).analysis;
    var pauses := PauseList(analysis);
    var high := Filter(m.suggestBidAdjustments(analysis), IsConfident);
    var step := PauseStep(platform, campaignId, dryRun, pauses);
    OptimizationReport(
      campaignId, dryRun, |pauses| + |high|,
      step.executed + (if dryRun then 0 else |AcceptedBids(platform, campaignId, high)|),
      step.paused,
      if dryRun then high else AcceptedBids(platform, campaignId, high),
      step.errors + (if dryRun then [] else BidErrors(platform, campaignId, high)))
  }

  /** The high-confidence suggestions for the campaign's seven-day analysis. */
  function HighConfidenceFor(platform: Platform, a: Analyzer, m: KeywordManager, campaignId: string)
    : seq<BidAdjustment>
  {
    Filter(m.suggestBidAdjustments(AnalyzeCampaign(a, platform, campaignId).analysis), IsConfident)
  }

  /** Whether the live pause request for the campaign's pause list is refused. */
  predicate PauseRefused(platform: Platform, a: Analyzer, campaignId: string) {
    var pauses := PauseList(AnalyzeCampaign(a, platform, campaignId).analysis);
    pauses != [] && !platform.pause(campaignId, pauses)
  }

  /**
   * The planned actions are the pause-action entries of the analysis plus the suggested bid
   * adjustments of priority at least 70, in dry-run and live alike.
   */
  lemma OptimizationPlanned(platform: Platform, a: Analyzer, m: KeywordManager, campaignId: string, dryRun: bool)
    ensures var r := Optimization(platform, a, m, campaignId, dryRun);
      var analysis := AnalyzeCampaign(a, platform, campaignId).analysis;
      var high := HighConfidenceFor(platform, a, m, campaignId);
      r.campaignId == campaignId && r.dryRun == dryRun
      && r.actionsPlanned == Count(analysis, Pause) + |high|
      && (forall i :: 0 <= i < |high| ==> high[i].priority >= 70 && high[i] in m.suggestBidAdjustments(analysis))
      && (forall b :: b in m.suggestBidAdjustments(analysis) && b.priority >= 70 ==> b in high)
  {
    var analysis := AnalyzeCampaign(a, platform, campaignId).analysis;
    var suggested := m.suggestBidAdjustments(analysis);
    forall b | b in suggested && b.priority >= 70
      ensures b in HighConfidenceFor(platform, a, m, campaignId)
    {
      FilterMember(suggested, IsConfident, b);
    }
  }

  /** A dry run executes nothing and reports no error: it lists the whole plan. */
  lemma DryRunPlan(platform: Platform, a: Analyzer, m: KeywordManager, campaignId: string)
    ensures var r := Optimization(platform, a, m, campaignId, true);
      r.actionsExecuted == 0
      && r.pausedKeywords == PauseList(AnalyzeCampaign(a, platform, campaignId).analysis)
      && r.bidAdjustments == HighConfidenceFor(platform, a, m, campaignId)
      && r.errors == []
  {
  }

  /**
   * A live run: the executed actions are the paused keywords plus the accepted bid updates, so
   * never more than planned. The paused list is the whole pause list, or empty exactly when the
   * pause request is refused, which adds the one error "Failed to pause keywords" first. The
   * reported bid adjustments are exactly the accepted ones, in order, and every refused one adds
   * its own error after it.
   */
  lemma LiveRun(platform: Platform, a: Analyzer, m: KeywordManager, campaignId: string)
    ensures var r := Optimization(platform, a, m, campaignId, false);
      var pauses := PauseList(AnalyzeCampaign(a, platform, campaignId).analysis);
      var high := HighConfidenceFor(platform, a, m, campaignId);
      var refused := PauseRefused(platform, a, campaignId);
      r.actionsExecuted == |r.pausedKeywords| + |r.bidAdjustments|
      && r.actionsExecuted <= r.actionsPlanned
      && r.pausedKeywords == (if refused then [] else pauses)
      && r.bidAdjustments == Filter(high, AcceptedBy(platform, campaignId))
      && r.errors == (if refused then [PauseFailure] else [])
                     + FailureTexts(Filter(high, RejectedBy(platform, campaignId)))
  {
    var high := HighConfidenceFor(platform, a, m, campaignId);
    AcceptedBidsFiltered(platform, campaignId, high);
    BidErrorsFiltered(platform, campaignId, high);
    BidOutcomesPartition(platform, campaignId, high);
  }

  /** A refused pause is reported by its own error, which no bid error can be mistaken for. */
  lemma PauseErrorExactly(platform: Platform, a: Analyzer, m: KeywordManager, campaignId: string)
    ensures var r := Optimization(platform, a, m, campaignId, false);
      (PauseFailure in r.errors <==> PauseRefused(platform, a, campaignId))
      && (PauseFailure in r.errors ==> r.pausedKeywords == [])
  {
    var r := Optimization(platform, a, m, campaignId, false);
    var high := HighConfidenceFor(platform, a, m, campaignId);
    var errors := BidErrors(platform, campaignId, high);
    BidErrorsFiltered(platform, campaignId, high);
    var texts := FailureTexts(Filter(high, RejectedBy(platform, campaignId)));
    forall i | 0 <= i < |texts|
      ensures texts[i] != PauseFailure
    {
      BidFailureDistinct(Filter(high, RejectedBy(platform, campaignId))[i].keyword);
    }
    assert PauseFailure !in errors;
  }

  /**
   * `optimize_campaign`: plan the pauses and the high-confidence bid updates; in a live run send
   * them and count what the client accepts.
   */
  method OptimizeCampaign(platform: Platform, a: Analyzer, m: KeywordManager, campaignId: string, dryRun: bool)
    returns (r: OptimizationReport)
    ensures r == Optimization(platform, a, m, campaignId, dryRun)
  {
    var analysis := AnalyzeCampaign(a, platform, campaignId).analysis;
    var pauseKeywords := PauseList(analysis);
    var actionsPlanned: nat := |pauseKeywords|;
    var step := PauseKeywords(platform, campaignId, dryRun, pauseKeywords);
    var bidAdjustments := m.suggestBidAdjustments(analysis);
    var highConfidence := Filter(bidAdjustments, IsConfident);
    actionsPlanned := actionsPlanned + |highConfidence|;
    var applied, updated, bidErrors := SendBids(platform, campaignId, dryRun, highConfidence);
    r := OptimizationReport(campaignId, dryRun, actionsPlanned, step.executed + applied, step.paused, updated,
                            step.errors + bidErrors);
  }

  /** The pause branch of `optimize_campaign`. */
  method PauseKeywords(platform: Platform, campaignId: string, dryRun: bool, pauseKeywords: seq<string>)
    returns (step: PauseOutcome)
    ensures step == PauseStep(platform, campaignId, dryRun, pauseKeywords)
  {
    var actionsExecuted: nat := 0;
    var pausedKeywords: seq<string> := [];
    var errors: seq<string> := [];
    if pauseKeywords != [] {
      if !dryRun {
        var success := platform.pause(campaignId, pauseKeywords);
        if success {
          actionsExecuted := actionsExecuted + |pauseKeywords|;
          pausedKeywords := pauseKeywords;
        } else {
          errors := errors + [PauseFailure];
        }
      } else {
        pausedKeywords := pauseKeywords;
      }
    }
    step := PauseOutcome(actionsExecuted, pausedKeywords, errors);
  }

  /**
   * The bid loop of `optimize_campaign`: the number of updates executed, the adjustments it
   * reports, and the errors it adds. A dry run reports every adjustment.
   */
  method SendBids(platform: Platform, campaignId: string, dryRun: bool, adjs: seq<BidAdjustment>)
    returns (applied: nat, updated: seq<BidAdjustment>, errors: seq<string>)
    ensures applied == if dryRun then 0 else |AcceptedBids(platform, campaignId, adjs)|
    ensures updated == if dryRun then adjs else AcceptedBids(platform, campaignId, adjs)
    ensures errors == if dryRun then [] else BidErrors(platform, campaignId, adjs)
  {
    applied, updated, errors := 0, [], [];
    for i := 0 to |adjs|
      invariant applied == if dryRun then 0 else |AcceptedBids(platform, campaignId, adjs[..i])|
      invariant updated == if dryRun then adjs[..i] else AcceptedBids(platform, campaignId, adjs[..i])
      invariant errors == if dryRun then [] else BidErrors(platform, campaignId, adjs[..i])
    {
      assert adjs[..i + 1][..i] == adjs[..i];
      var adjustment := adjs[i];
      if !dryRun {
        var success := platform.updateBid(campaignId, adjustment.keyword, adjustment.suggestedBid);
        if success {
          applied := applied + 1;
          updated := updated + [adjustment];
        } else {
          errors := errors + [BidFailure(adjustment.keyword)];
        }
      } else {
        updated := updated + [adjustment];
      }
    }
    assert adjs[..|adjs|] == adjs;
  }

  // ---------------------------------------------------------------------------------------------
  // The report command.

  /** The report `generate_report` asks the report generator for, with what it is built from. */
  datatype Report =
    | ExcelReport(summary: Summary, analysis: seq<Classified>)
    | PdfReport(summary: Summary)
    | HtmlReport(summary: Summary, analysis: seq<Classified>)

  /** Python truthiness of the optional campaign id: None and "" are false. */
  predicate Given(campaignId: Option<string>) {
    campaignId.Some? && campaignId.value != ""
  }

  predicate KnownFormat(format: string) {
    format == "excel" || format == "pdf" || format == "html"
  }

  /**
   * `generate_report`: analyse the given campaign, or else the first listed one, then build the
   * report in the requested format.
   */
  function GenerateReport(a: Analyzer, platform: Platform, campaignId: Option<string>, format: string)
    : (r: Result<Report>)
    ensures !Given(campaignId) && platform.campaigns == [] ==> r == Failure("No campaigns found")
    ensures (Given(campaignId) || platform.campaigns != []) && !KnownFormat(format) ==>
      r == Failure("Unsupported format: " + format)
    ensures r.Success? <==> (Given(campaignId) || platform.campaigns != []) && KnownFormat(format)
    ensures r.Success? ==>
      var id := if Given(campaignId) then campaignId.value else IdText(platform.campaigns[0]);
      var result := AnalyzeCampaign(a, platform, id);
      r.value.summary == result.summary
      && (r.value.PdfReport? <==> format == "pdf")
      && (r.value.ExcelReport? <==> format == "excel")
      && (!r.value.PdfReport? ==> r.value.analysis == result.analysis)
  {
    if !Given(campaignId) && platform.campaigns == [] then Failure("No campaigns found")
    else
      var id := if Given(campaignId) then campaignId.value else IdText(platform.campaigns[0]);
      var result := AnalyzeCampaign(a, platform, id);
      if format == "excel" then Success(ExcelReport(result.summary, result.analysis))
      else if format == "pdf" then Success(PdfReport(result.summary))
      else if format == "html" then Success(HtmlReport(result.summary, result.analysis))
      else Failure("Unsupported format: " + format)
  }

  // ---------------------------------------------------------------------------------------------
  // The `optimize` command.

  /**
   * The `optimize` command: a live run is refused (None) when auto-optimization is disabled;
   * otherwise it is the campaign's optimization in the requested mode.
   */
  method OptimizeCommand(s: Settings, platform: Platform, a: Analyzer, m: KeywordManager,
                         campaignId: string, dryRun: bool)
    returns (r: Option<OptimizationReport>)
    ensures r.None? <==> !dryRun && !s.autoOptimizationEnabled
    ensures r.Some? ==> r.value == Optimization(platform, a, m, campaignId, dryRun)
  {
    if !dryRun && !s.autoOptimizationEnabled {
      return None;
    }
    var result := OptimizeCampaign(platform, a, m, campaignId, dryRun);
    r := Some(result);
  }
}
