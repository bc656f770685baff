/**
 * The campaign analyzer (data_analysis.py): the rule cascade that classifies one keyword, the
 * sorted analysis of a keyword list, the campaign summary and its recommendations, and the
 * labelling part of trend detection.
 */
module Analysis {
  import opened Wrappers
  import opened Config
  import opened Records
  import opened Seqs

  datatype Action = Keep | Pause | Monitor | IncreaseBid | DecreaseBid

  /** The issue tags the cascade attaches, one per rule. */
  datatype Issue =
    | NoOrdersWithClicks
    | CriticalDrr
    | LowCtr
    | HighPerformance
    | HighDrr
    | WarningDrr
    | LowCtrHighImpressions

  /** The recommendation texts, each carrying the numbers its template interpolates. */
  datatype Advice =
    | ContinueMonitoring
    | PauseNoOrders(clicks: int)
    | PauseCriticalDrr(drr: real)
    | PauseLowCtr(ctr: real)
    | RaiseBid(percent: real)
    | LowerBid(percent: real, drr: real)
    | MonitorDrr(drr: real)
    | MonitorLowCtr(ctr: real)

  /** One keyword's analysis: the input record unchanged plus the fields the cascade adds. */
  datatype Classified = Classified(
    metric: KeywordRecord,
    action: Action,
    advice: Advice,
    priority: int,
    issues: seq<Issue>,
    bidAdjustment: real)

  // ---------------------------------------------------------------------------------------------
  // The rules, each taken on its own. The cascade tries them in the order of their priorities, so
  // the result is the rule with the highest priority among those whose own condition holds.

  predicate Fires(s: Settings, m: KeywordRecord, i: Issue) {
    match i
    case NoOrdersWithClicks => m.clicks >= s.minClicks && m.orders == 0
    case CriticalDrr => m.drr > s.criticalDrr
    case LowCtr => m.ctr < s.minCtr && m.clicks > 10
    case HighPerformance =>
      m.ctr > s.highCtr && m.cr > s.highCr && m.drr < s.maxAcceptableDrr && m.drr > 0.0
    case HighDrr => m.drr > s.maxDrr && m.drr <= s.criticalDrr
    case WarningDrr => m.drr > s.maxDrr
    case LowCtrHighImpressions => m.impressions > 1000 && m.ctr < 1.0
  }

  function PriorityOf(i: Issue): int {
    match i
    case NoOrdersWithClicks => 100
    case CriticalDrr => 95
    case LowCtr => 90
    case HighPerformance => 70
    case HighDrr => 60
    case WarningDrr => 30
    case LowCtrHighImpressions => 20
  }

  function ActionOf(i: Issue): Action {
    match i
    case NoOrdersWithClicks => Pause
    case CriticalDrr => Pause
    case LowCtr => Pause
    case HighPerformance => IncreaseBid
    case HighDrr => DecreaseBid
    case WarningDrr => Monitor
    case LowCtrHighImpressions => Monitor
  }

  function AdviceOf(s: Settings, m: KeywordRecord, i: Issue): Advice {
    match i
    case NoOrdersWithClicks => PauseNoOrders(m.clicks)
    case CriticalDrr => PauseCriticalDrr(m.drr)
    case LowCtr => PauseLowCtr(m.ctr)
    case HighPerformance => RaiseBid(s.bidIncreasePercent)
    case HighDrr => LowerBid(s.bidDecreasePercent, m.drr)
    case WarningDrr => MonitorDrr(m.drr)
    case LowCtrHighImpressions => MonitorLowCtr(m.ctr)
  }

  /** The result of a rule that fired: its action, priority, single issue tag and bid change. */
  function Outcome(s: Settings, m: KeywordRecord, i: Issue): Classified {
    Classified(m, ActionOf(i), AdviceOf(s, m, i), PriorityOf(i), [i],
      if i == HighPerformance then s.bidIncreasePercent
      else if i == HighDrr then -s.bidDecreasePercent
      else 0.0)
  }

  /** The `if/elif` cascade of `_analyze_single_keyword`, in the source's order. */
  function Classify(s: Settings, m: KeywordRecord): (r: Classified)
    ensures r.metric == m
    // When a rule fires, the result is that of the highest-priority rule whose condition holds.
    ensures r.action != Keep ==>
      |r.issues| == 1 && Fires(s, m, r.issues[0]) && r.priority == PriorityOf(r.issues[0])
      && r.action == ActionOf(r.issues[0]) && r.advice == AdviceOf(s, m, r.issues[0])
    ensures forall i :: Fires(s, m, i) ==> PriorityOf(i) <= r.priority
    // No rule fires exactly when the keyword is kept, and a kept keyword carries the defaults.
    ensures r.action == Keep ==> forall i :: !Fires(s, m, i)
    ensures r.action == Keep <==> r.issues == []
    ensures r.action == Keep ==>
      r.priority == 0 && r.bidAdjustment == 0.0 && r.advice == ContinueMonitoring
    // The first rule wins whatever ctr and drr are.
    ensures m.clicks >= s.minClicks && m.orders == 0 ==>
      r.action == Pause && r.priority == 100 && r.issues == [NoOrdersWithClicks]
    // Only the two bid rules move the bid, each by its configured percentage.
    ensures r.action == IncreaseBid ==>
      r.bidAdjustment == s.bidIncreasePercent && m.ctr > s.highCtr && m.cr > s.highCr
      && 0.0 < m.drr < s.maxAcceptableDrr
    ensures r.action == DecreaseBid ==>
      r.bidAdjustment == -s.bidDecreasePercent && s.maxDrr < m.drr <= s.criticalDrr
    ensures r.action != IncreaseBid && r.action != DecreaseBid ==> r.bidAdjustment == 0.0
    // The warning_drr branch can never be taken: when its condition holds, a rule above it fires.
    ensures WarningDrr !in r.issues && r.priority != 30
    // Rule 7: a keyword that passes rules 1-5 and has many impressions but a CTR below 1% is
    // monitored.
    ensures (m.impressions > 1000 && m.ctr < 1.0
             && !Fires(s, m, NoOrdersWithClicks) && !Fires(s, m, CriticalDrr)
             && !Fires(s, m, LowCtr) && !Fires(s, m, HighPerformance) && !Fires(s, m, HighDrr))
      ==> r.action == Monitor && r.priority == 20 && r.issues == [LowCtrHighImpressions]
    // Exactly the three pause rules reach priority 90.
    ensures r.priority >= 90 <==> r.action == Pause
  {
    if m.clicks >= s.minClicks && m.orders == 0 then Outcome(s, m, NoOrdersWithClicks)
    else if m.drr > s.criticalDrr then Outcome(s, m, CriticalDrr)
    else if m.ctr < s.minCtr && m.clicks > 10 then Outcome(s, m, LowCtr)
    else if m.ctr > s.highCtr && m.cr > s.highCr && m.drr < s.maxAcceptableDrr && m.drr > 0.0 then
      Outcome(s, m, HighPerformance)
    else if m.drr > s.maxDrr && m.drr <= s.criticalDrr then Outcome(s, m, HighDrr)
    else if m.drr > s.maxDrr then Outcome(s, m, WarningDrr)
    else if m.impressions > 1000 && m.ctr < 1.0 then Outcome(s, m, LowCtrHighImpressions)
    else Classified(m, Keep, ContinueMonitoring, 0, [], 0.0)
  }

  /** The analyses in input order, before sorting. */
  function ClassifyAll(s: Settings, stats: seq<KeywordRecord>): (r: seq<Classified>)
    ensures |r| == |stats|
    ensures forall i :: 0 <= i < |stats| ==> r[i] == Classify(s, stats[i])
  {
    seq(|stats|, i requires 0 <= i < |stats| => Classify(s, stats[i]))
  }

  function PriorityKey(c: Classified): real {
    c.priority as real
  }

  /** What `analyze_keywords` returns: the analyses stably sorted by priority, highest first. */
  function Analyzed(s: Settings, stats: seq<KeywordRecord>): seq<Classified> {
    SortDesc(ClassifyAll(s, stats), PriorityKey)
  }

  /** `analyze_keywords`: classify every keyword, then sort by priority in place. */
  method AnalyzeKeywords(s: Settings, stats: seq<KeywordRecord>) returns (r: seq<Classified>)
    ensures r == Analyzed(s, stats)
    ensures |r| == |stats|
    ensures SortedDesc(r, PriorityKey)
    ensures multiset(r) == multiset(ClassifyAll(s, stats))
    ensures forall k :: WithKey(r, PriorityKey, k) == WithKey(ClassifyAll(s, stats), PriorityKey, k)
  {
    var analyzed: seq<Classified> := [];
    for i := 0 to |stats|
      invariant |analyzed| == i
      invariant forall j :: 0 <= j < i ==> analyzed[j] == Classify(s, stats[j])
    {
      analyzed := analyzed + [Classify(s, stats[i])];
    }
    assert analyzed == ClassifyAll(s, stats);
    r := SortDesc(analyzed, PriorityKey);
    SortDescSpec(analyzed, PriorityKey);
  }

  // ---------------------------------------------------------------------------------------------
  // Counting actions. Python's `actions_count` dictionary is an association list in insertion
  // order, so the report that iterates over it sees the actions in order of first appearance.

  datatype ActionCount = ActionCount(action: Action, count: int)

  function CountField(c: ActionCount): int {
    c.count
  }

  /** The number of analyses whose action is a. */
  function Count(xs: seq<Classified>, a: Action): nat
    decreases |xs|
  {
    if xs == [] then 0
    else Count(xs[..|xs| - 1], a) + (if xs[|xs| - 1].action == a then 1 else 0)
  }

  /** The position of the first element of xs whose action is a, or |xs| when there is none. */
  function IndexOf<T>(xs: seq<T>, action: T -> Action, a: Action): (k: nat)
    ensures k <= |xs|
    ensures k < |xs| ==> action(xs[k]) == a
    ensures forall p :: 0 <= p < k ==> action(xs[p]) != a
    decreases |xs|
  {
    if xs == [] then 0
    else if action(xs[0]) == a then 0
    else 1 + IndexOf(xs[1..], action, a)
  }

  function KeyOf(c: ActionCount): Action {
    c.action
  }

  function AnalysisAction(c: Classified): Action {
    c.action
  }

  /** The position of key a in the dictionary, or |counts| when a is not a key. */
  function KeyIndex(counts: seq<ActionCount>, a: Action): (k: nat)
    ensures k <= |counts|
    ensures k < |counts| ==> counts[k].action == a
    ensures forall p :: 0 <= p < k ==> counts[p].action != a
  {
    IndexOf(counts, KeyOf, a)
  }

  /** `actions_count.get(a, 0)`. */
  function Lookup(counts: seq<ActionCount>, a: Action): int {
    var k := KeyIndex(counts, a);
    if k < |counts| then counts[k].count else 0
  }

  /** The index of the first analysis with action a, or |xs| when there is none. */
  function FirstIndex(xs: seq<Classified>, a: Action): (k: nat)
    ensures k <= |xs|
    ensures k < |xs| ==> xs[k].action == a
    ensures forall p :: 0 <= p < k ==> xs[p].action != a
  {
    IndexOf(xs, AnalysisAction, a)
  }

  ghost predicate DistinctKeys(counts: seq<ActionCount>) {
    forall i, j :: 0 <= i < j < |counts| ==> counts[i].action != counts[j].action
  }

  /**
   * `counts[a] = counts.get(a, 0) + 1` on an insertion-ordered dictionary: an existing entry is
   * bumped in place, a new key is appended with count 1.
   */
  function Put(counts: seq<ActionCount>, a: Action): (r: seq<ActionCount>)
    requires DistinctKeys(counts)
    ensures |r| == |counts| || (|r| == |counts| + 1 && r[|counts|] == ActionCount(a, 1))
    ensures |r| == |counts| + 1 <==> forall j :: 0 <= j < |counts| ==> counts[j].action != a
    ensures forall j :: 0 <= j < |counts| ==> r[j].action == counts[j].action
    ensures forall j :: 0 <= j < |counts| ==>
      r[j].count == counts[j].count + (if counts[j].action == a then 1 else 0)
    ensures DistinctKeys(r)
    ensures Lookup(r, a) == Lookup(counts, a) + 1
    ensures forall b :: b != a ==> Lookup(r, b) == Lookup(counts, b)
    ensures SumInt(r, CountField) == SumInt(counts, CountField) + 1
  {
    var k := KeyIndex(counts, a);
    if k < |counts| then
      var r := counts[k := ActionCount(a, counts[k].count + 1)];
      SumIntUpdate(counts, k, ActionCount(a, counts[k].count + 1), CountField);
      r
    else
      var r := counts + [ActionCount(a, 1)];
      SumIntAppend(counts, [ActionCount(a, 1)], CountField);
      r
  }

  lemma {:induction false} CountZero(xs: seq<Classified>, a: Action)
    requires Count(xs, a) == 0
    ensures forall p :: 0 <= p < |xs| ==> xs[p].action != a
    decreases |xs|
  {
    if xs != [] {
      CountZero(xs[..|xs| - 1], a);
    }
  }

  /**
   * The counting loop of `get_campaign_summary`. The resulting dictionary has each action at most
   * once, in order of first appearance, maps every action to the number of analyses carrying it,
   * lists only actions that occur, and its counts add up to the number of keywords.
   */
  method CountActions(xs: seq<Classified>) returns (counts: seq<ActionCount>)
    ensures DistinctKeys(counts)
    ensures forall a :: Lookup(counts, a) == Count(xs, a)
    ensures forall j :: 0 <= j < |counts| ==> counts[j].count > 0
    ensures FirstOrdered(xs, counts, |xs|)
    ensures SumInt(counts, CountField) == |xs|
  {
    counts := [];
    for i := 0 to |xs|
      invariant Counted(xs, i, counts)
    {
      CountStep(xs, i, counts);
      counts := Put(counts, xs[i].action);
    }
    assert xs[..|xs|] == xs;
  }

  /** The loop invariant of the counting loop after the first i analyses. */
  ghost predicate Counted(xs: seq<Classified>, i: nat, counts: seq<ActionCount>)
    requires i <= |xs|
  {
    && DistinctKeys(counts)
    && (forall a :: Lookup(counts, a) == Count(xs[..i], a))
    && (forall j :: 0 <= j < |counts| ==> counts[j].count > 0)
    && FirstOrdered(xs, counts, i)
    && SumInt(counts, CountField) == i
  }

  /** One iteration of the counting loop keeps its invariant. */
  lemma CountStep(xs: seq<Classified>, i: nat, counts: seq<ActionCount>)
    requires i < |xs| && Counted(xs, i, counts)
    ensures Counted(xs, i + 1, Put(counts, xs[i].action))
  {
    var r := Put(counts, xs[i].action);
    LookupStep(xs, i, counts);
    FirstIndexStep(xs, i, counts);
    OrderStep(xs, i, counts);
    assert forall j :: 0 <= j < |r| ==> r[j].count > 0;
  }

  /** The keys are in order of their first appearance in xs, all before position `bound`. */
  ghost predicate FirstOrdered(xs: seq<Classified>, counts: seq<ActionCount>, bound: nat) {
    (forall j, k :: 0 <= j < k < |counts| ==>
       FirstIndex(xs, counts[j].action) < FirstIndex(xs, counts[k].action))
    && (forall j :: 0 <= j < |counts| ==> FirstIndex(xs, counts[j].action) < bound)
  }

  /** Appending a key that first appears at position i keeps the keys in first-appearance order. */
  lemma OrderStep(xs: seq<Classified>, i: nat, counts: seq<ActionCount>)
    requires i < |xs| && DistinctKeys(counts) && FirstOrdered(xs, counts, i)
    requires (forall j :: 0 <= j < |counts| ==> counts[j].action != xs[i].action) ==>
      FirstIndex(xs, xs[i].action) == i
    ensures FirstOrdered(xs, Put(counts, xs[i].action), i + 1)
  {
    var r := Put(counts, xs[i].action);
    forall j, k | 0 <= j < k < |r|
      ensures FirstIndex(xs, r[j].action) < FirstIndex(xs, r[k].action)
    {
      assert r[j].action == counts[j].action;
      if k < |counts| {
        assert r[k].action == counts[k].action;
      }
    }
  }

  /** Counting one more analysis bumps exactly the entry of its action. */
  lemma LookupStep(xs: seq<Classified>, i: nat, counts: seq<ActionCount>)
    requires i < |xs| && DistinctKeys(counts)
    requires forall a :: Lookup(counts, a) == Count(xs[..i], a)
    ensures forall a :: Lookup(Put(counts, xs[i].action), a) == Count(xs[..i + 1], a)
  {
    assert xs[..i + 1][..i] == xs[..i];
  }

  /** A key the dictionary does not hold yet first appears at the current position. */
  lemma FirstIndexStep(xs: seq<Classified>, i: nat, counts: seq<ActionCount>)
    requires i < |xs|
    requires forall a :: Lookup(counts, a) == Count(xs[..i], a)
    ensures (forall j :: 0 <= j < |counts| ==> counts[j].action != xs[i].action) ==>
      FirstIndex(xs, xs[i].action) == i
  {
    var a := xs[i].action;
    if forall j :: 0 <= j < |counts| ==> counts[j].action != a {
      CountZero(xs[..i], a);
    }
  }

  // ---------------------------------------------------------------------------------------------
  // The campaign summary.

  datatype Metrics = Metrics(
    totalSpend: real,
    totalRevenue: real,
    totalClicks: int,
    totalImpressions: int,
    totalOrders: int,
    overallCtr: real,
    overallCr: real,
    overallDrr: real,
    overallRoi: real)

  /** The campaign-level recommendation texts, with the numbers they interpolate. */
  datatype CampaignAdvice =
    | PauseAdvice(count: int)
    | RaiseBidsAdvice(count: int)
    | LowerBidsAdvice(count: int)
    | SavingsAdvice(amount: real)

  datatype Summary = Summary(
    campaignId: Option<string>,
    totalKeywords: int,
    actionsNeeded: seq<ActionCount>,
    metrics: Metrics,
    topPerformers: seq<Classified>,
    criticalIssues: seq<Classified>,
    recommendations: seq<CampaignAdvice>)

  function SpendOf(c: Classified): real { c.metric.spend }
  function RevenueOf(c: Classified): real { c.metric.revenue }
  function ClicksOf(c: Classified): int { c.metric.clicks }
  function ImpressionsOf(c: Classified): int { c.metric.impressions }
  function OrdersOf(c: Classified): int { c.metric.orders }

  predicate IsHighPerformer(c: Classified) { HighPerformance in c.issues }
  predicate IsCritical(c: Classified) { c.priority >= 90 }
  predicate IsPause(c: Classified) { c.action == Pause }

  function AdviceRank(a: CampaignAdvice): int {
    match a
    case PauseAdvice(_) => 0
    case RaiseBidsAdvice(_) => 1
    case LowerBidsAdvice(_) => 2
    case SavingsAdvice(_) => 3
  }

  /** The money spent on the keywords the analysis says to pause. */
  function Savings(analysis: seq<Classified>): real {
    SumReal(Filter(analysis, IsPause), SpendOf)
  }

  /** The number each recommendation line interpolates. */
  predicate Interpolates(a: CampaignAdvice, pauses: int, raises: int, lowers: int, savings: real) {
    match a
    case PauseAdvice(n) => n == pauses
    case RaiseBidsAdvice(n) => n == raises
    case LowerBidsAdvice(n) => n == lowers
    case SavingsAdvice(x) => x == savings
  }

  /**
   * The campaign recommendations for the given numbers of pauses, bid raises and bid lowers
   * and the given potential savings: each line appears exactly when its number is positive, every
   * line carries its number, and the lines come in the fixed order pause, raise, lower, savings.
   */
  ghost predicate Recommends(recs: seq<CampaignAdvice>, pauses: int, raises: int, lowers: int,
                             savings: real) {
    (PauseAdvice(pauses) in recs <==> pauses > 0)
    && (RaiseBidsAdvice(raises) in recs <==> raises > 0)
    && (LowerBidsAdvice(lowers) in recs <==> lowers > 0)
    && (SavingsAdvice(savings) in recs <==> savings > 0.0)
    && (forall i :: 0 <= i < |recs| ==> Interpolates(recs[i], pauses, raises, lowers, savings))
    && (forall i, j :: 0 <= i < j < |recs| ==> AdviceRank(recs[i]) < AdviceRank(recs[j]))
  }

  /** `_generate_campaign_recommendations`: one line per kind of action needed, then the savings. */
  method GenerateCampaignRecommendations(analysis: seq<Classified>, counts: seq<ActionCount>)
    returns (recs: seq<CampaignAdvice>)
    ensures Recommends(recs, Lookup(counts, Pause), Lookup(counts, IncreaseBid),
                       Lookup(counts, DecreaseBid), Savings(analysis))
  {
    var pauseCount := Lookup(counts, Pause);
    var increaseCount := Lookup(counts, IncreaseBid);
    var decreaseCount := Lookup(counts, DecreaseBid);
    var savings := Savings(analysis);
    recs := BuildRecommendations(pauseCount, increaseCount, decreaseCount, savings);
  }

  /** The appends of the recommendation generator, on the numbers it has looked up. */
  method BuildRecommendations(pauses: int, raises: int, lowers: int, savings: real)
    returns (recs: seq<CampaignAdvice>)
    ensures Recommends(recs, pauses, raises, lowers, savings)
  {
    recs := [];
    if pauses > 0 {
      recs := recs + [PauseAdvice(pauses)];
    }
    if raises > 0 {
      recs := recs + [RaiseBidsAdvice(raises)];
    }
    if lowers > 0 {
      recs := recs + [LowerBidsAdvice(lowers)];
    }
    if savings > 0.0 {
      recs := recs + [SavingsAdvice(savings)];
    }
    assert recs == Line(pauses > 0, PauseAdvice(pauses)) + Line(raises > 0, RaiseBidsAdvice(raises))
                   + Line(lowers > 0, LowerBidsAdvice(lowers)) + Line(savings > 0.0, SavingsAdvice(savings));
    LinesPresent(pauses, raises, lowers, savings);
    LinesOrdered(pauses, raises, lowers, savings);
  }

  /** One optional recommendation line. */
  function Line(present: bool, a: CampaignAdvice): seq<CampaignAdvice> {
    if present then [a] else []
  }

  function Lines(pauses: int, raises: int, lowers: int, savings: real): seq<CampaignAdvice> {
    Line(pauses > 0, PauseAdvice(pauses)) + Line(raises > 0, RaiseBidsAdvice(raises))
    + Line(lowers > 0, LowerBidsAdvice(lowers)) + Line(savings > 0.0, SavingsAdvice(savings))
  }

  lemma LinesPresent(pauses: int, raises: int, lowers: int, savings: real)
    ensures var recs := Lines(pauses, raises, lowers, savings);
      (PauseAdvice(pauses) in recs <==> pauses > 0)
      && (RaiseBidsAdvice(raises) in recs <==> raises > 0)
      && (LowerBidsAdvice(lowers) in recs <==> lowers > 0)
      && (SavingsAdvice(savings) in recs <==> savings > 0.0)
  {
  }

  lemma LinesOrdered(pauses: int, raises: int, lowers: int, savings: real)
    ensures var recs := Lines(pauses, raises, lowers, savings);
      (forall i :: 0 <= i < |recs| ==> Interpolates(recs[i], pauses, raises, lowers, savings))
      && (forall i, j :: 0 <= i < j < |recs| ==> AdviceRank(recs[i]) < AdviceRank(recs[j]))
  {
  }

  /** `get_campaign_summary`. */
  method GetCampaignSummary(campaignId: Option<string>, analysis: seq<Classified>)
    returns (r: Summary)
    ensures r.campaignId == campaignId && r.totalKeywords == |analysis|
    // The action counts.
    ensures DistinctKeys(r.actionsNeeded)
    ensures forall a :: Lookup(r.actionsNeeded, a) == Count(analysis, a)
    ensures SumInt(r.actionsNeeded, CountField) == r.totalKeywords
    // Totals are the sums of the per-keyword fields; ratios are 0 when their denominator is.
    ensures r.metrics.totalSpend == SumReal(analysis, SpendOf)
    ensures r.metrics.totalRevenue == SumReal(analysis, RevenueOf)
    ensures r.metrics.totalClicks == SumInt(analysis, ClicksOf)
    ensures r.metrics.totalImpressions == SumInt(analysis, ImpressionsOf)
    ensures r.metrics.totalOrders == SumInt(analysis, OrdersOf)
    ensures r.metrics.overallCtr
      == Percent(r.metrics.totalClicks as real, r.metrics.totalImpressions as real)
    ensures r.metrics.overallCr
      == Percent(r.metrics.totalOrders as real, r.metrics.totalClicks as real)
    ensures r.metrics.overallDrr == Percent(r.metrics.totalSpend, r.metrics.totalRevenue)
    ensures r.metrics.overallRoi == Ratio(r.metrics.totalRevenue, r.metrics.totalSpend)
    // Top performers: high-performance keywords, at most 5, by revenue, highest first.
    ensures r.topPerformers == Take(SortDesc(Filter(analysis, IsHighPerformer), RevenueOf), 5)
    ensures |r.topPerformers| <= 5 && SortedDesc(r.topPerformers, RevenueOf)
    ensures forall i :: 0 <= i < |r.topPerformers| ==>
      IsHighPerformer(r.topPerformers[i]) && r.topPerformers[i] in analysis
    // Critical issues: priority at least 90, at most 10, by priority, highest first.
    ensures r.criticalIssues == Take(SortDesc(Filter(analysis, IsCritical), PriorityKey), 10)
    ensures |r.criticalIssues| <= 10 && SortedDesc(r.criticalIssues, PriorityKey)
    ensures forall i :: 0 <= i < |r.criticalIssues| ==>
      IsCritical(r.criticalIssues[i]) && r.criticalIssues[i] in analysis
    ensures Recommends(r.recommendations, Count(analysis, Pause), Count(analysis, IncreaseBid),
                       Count(analysis, DecreaseBid), Savings(analysis))
  {
    var counts := CountActions(analysis);
    var totalSpend := SumReal(analysis, SpendOf);
    var totalRevenue := SumReal(analysis, RevenueOf);
    var totalClicks := SumInt(analysis, ClicksOf);
    var totalImpressions := SumInt(analysis, ImpressionsOf);
    var totalOrders := SumInt(analysis, OrdersOf);
    var metrics := Metrics(totalSpend, totalRevenue, totalClicks, totalImpressions, totalOrders,
      Percent(totalClicks as real, totalImpressions as real),
      Percent(totalOrders as real, totalClicks as real),
      Percent(totalSpend, totalRevenue),
      Ratio(totalRevenue, totalSpend));
    var high := Filter(analysis, IsHighPerformer);
    var critical := Filter(analysis, IsCritical);
    var byRevenue := SortDesc(high, RevenueOf);
    var byPriority := SortDesc(critical, PriorityKey);
    SortDescSorted(high, RevenueOf);
    SortDescSorted(critical, PriorityKey);
    TakeSorted(byRevenue, 5, RevenueOf);
    TakeSorted(byPriority, 10, PriorityKey);
    var top := Take(byRevenue, 5);
    var crit := Take(byPriority, 10);
    forall i | 0 <= i < |top| ensures IsHighPerformer(top[i]) && top[i] in analysis {
      assert top[i] in multiset(byRevenue);
      FilterMember(analysis, IsHighPerformer, top[i]);
    }
    forall i | 0 <= i < |crit| ensures IsCritical(crit[i]) && crit[i] in analysis {
      assert crit[i] in multiset(byPriority);
      FilterMember(analysis, IsCritical, crit[i]);
    }
    var recs := GenerateCampaignRecommendations(analysis, counts);
    r := Summary(campaignId, |analysis|, counts, metrics, top, crit, recs);
  }

  // ---------------------------------------------------------------------------------------------
  // Trend labelling. The slope of each metric's least-squares line is computed by a numerical
  // library and is taken here as given; what is modelled is the guard and the labels.

  datatype Trend = Stable | Increasing | Decreasing

  datatype MetricName = CtrMetric | CrMetric | DrrMetric | SpendMetric | RevenueMetric

  datatype MetricTrend = MetricTrend(metric: MetricName, trend: Trend, slope: real)

  datatype TrendReport = InsufficientData | Trends(trends: seq<MetricTrend>)

  /** The metrics in the order the source examines them. */
  const TrendMetrics: seq<MetricName> := [CtrMetric, CrMetric, DrrMetric, SpendMetric, RevenueMetric]

  /** `stable` when |slope| < 0.01, otherwise the sign of the slope. */
  function TrendOf(slope: real): (t: Trend)
    ensures t == Stable <==> -0.01 < slope < 0.01
    ensures t == Increasing <==> slope >= 0.01
    ensures t == Decreasing <==> slope <= -0.01
  {
    if (if slope < 0.0 then -slope else slope) < 0.01 then Stable
    else if slope > 0.0 then Increasing
    else Decreasing
  }

  /** The position of each metric in TrendMetrics. */
  function MetricIndex(m: MetricName): (k: nat)
    ensures k < |TrendMetrics| && TrendMetrics[k] == m
  {
    match m
    case CtrMetric => 0
    case CrMetric => 1
    case DrrMetric => 2
    case SpendMetric => 3
    case RevenueMetric => 4
  }

  /** The entries `detect_trends` produces for the first k metrics of TrendMetrics. */
  function TrendEntries(slopeOf: MetricName -> Option<real>, k: nat): seq<MetricTrend>
    requires k <= |TrendMetrics|
  {
    if k == 0 then [] else TrendEntries(slopeOf, k - 1) + TrendEntry(slopeOf, TrendMetrics[k - 1])
  }

  /** The entry for metric m: none without a slope, else its slope and label. */
  function TrendEntry(slopeOf: MetricName -> Option<real>, m: MetricName): seq<MetricTrend> {
    match slopeOf(m)
    case Some(slope) => [MetricTrend(m, TrendOf(slope), slope)]
    case None => []
  }

  /** Every entry carries its metric's slope and the label TrendOf gives that slope. */
  predicate Labelled(ts: seq<MetricTrend>, slopeOf: MetricName -> Option<real>) {
    forall i :: 0 <= i < |ts| ==>
      slopeOf(ts[i].metric) == Some(ts[i].slope) && ts[i].trend == TrendOf(ts[i].slope)
  }

  lemma {:induction false} TrendEntriesLabelled(slopeOf: MetricName -> Option<real>, k: nat)
    requires k <= |TrendMetrics|
    ensures Labelled(TrendEntries(slopeOf, k), slopeOf)
  {
    if k > 0 {
      TrendEntriesLabelled(slopeOf, k - 1);
      var before := TrendEntries(slopeOf, k - 1);
      var e := TrendEntry(slopeOf, TrendMetrics[k - 1]);
      var ts := TrendEntries(slopeOf, k);
      assert ts == before + e;
      forall i | 0 <= i < |ts|
        ensures slopeOf(ts[i].metric) == Some(ts[i].slope) && ts[i].trend == TrendOf(ts[i].slope)
      {
        if i < |before| {
          assert ts[i] == before[i];
        } else {
          assert ts[i] == e[0];
        }
      }
    }
  }

  /** The entries are in TrendMetrics order, all among the first k metrics. */
  predicate InMetricOrder(ts: seq<MetricTrend>, k: nat) {
    (forall i :: 0 <= i < |ts| ==> MetricIndex(ts[i].metric) < k)
    && forall i, j :: 0 <= i < j < |ts| ==> MetricIndex(ts[i].metric) < MetricIndex(ts[j].metric)
  }

  lemma {:induction false} TrendEntriesOrdered(slopeOf: MetricName -> Option<real>, k: nat)
    requires k <= |TrendMetrics|
    ensures InMetricOrder(TrendEntries(slopeOf, k), k)
  {
    if k > 0 {
      TrendEntriesOrdered(slopeOf, k - 1);
      var before := TrendEntries(slopeOf, k - 1);
      var e := TrendEntry(slopeOf, TrendMetrics[k - 1]);
      var ts := TrendEntries(slopeOf, k);
      assert ts == before + e;
      assert MetricIndex(TrendMetrics[k - 1]) == k - 1;
      forall i | 0 <= i < |ts| ensures MetricIndex(ts[i].metric) < k {
        if i < |before| {
          assert ts[i] == before[i];
        } else {
          assert ts[i] == e[0];
        }
      }
      forall i, j | 0 <= i < j < |ts|
        ensures MetricIndex(ts[i].metric) < MetricIndex(ts[j].metric)
      {
        assert ts[i] == before[i];
        if j < |before| {
          assert ts[j] == before[j];
        } else {
          assert ts[j] == e[0];
        }
      }
    }
  }

  /** Every metric among the first k that has a slope has an entry. */
  predicate Covers(ts: seq<MetricTrend>, slopeOf: MetricName -> Option<real>, k: nat) {
    forall m :: slopeOf(m).Some? && MetricIndex(m) < k ==>
      exists i :: 0 <= i < |ts| && ts[i].metric == m
  }

  lemma {:induction false} TrendEntriesComplete(slopeOf: MetricName -> Option<real>, k: nat)
    requires k <= |TrendMetrics|
    ensures Covers(TrendEntries(slopeOf, k), slopeOf, k)
  {
    if k > 0 {
      TrendEntriesComplete(slopeOf, k - 1);
      var before := TrendEntries(slopeOf, k - 1);
      var e := TrendEntry(slopeOf, TrendMetrics[k - 1]);
      var ts := TrendEntries(slopeOf, k);
      assert ts == before + e;
      forall m | slopeOf(m).Some? && MetricIndex(m) < k
        ensures exists i :: 0 <= i < |ts| && ts[i].metric == m
      {
        if MetricIndex(m) == k - 1 {
          assert ts[|before|] == e[0];
        } else {
          var i :| 0 <= i < |before| && before[i].metric == m;
          assert ts[i] == before[i];
        }
      }
    }
  }

  /**
   * `detect_trends` over `points` history records, where `slopeOf(m)` is the fitted slope of
   * metric m, or None when no record has that metric. Each metric that has a slope gets exactly
   * one entry, labelled by TrendOf, in the order of TrendMetrics.
   */
  method DetectTrends(points: nat, slopeOf: MetricName -> Option<real>) returns (r: TrendReport)
    ensures points < 2 <==> r == InsufficientData
    ensures r.Trends? ==>
      (forall i :: 0 <= i < |r.trends| ==>
        slopeOf(r.trends[i].metric) == Some(r.trends[i].slope)
        && r.trends[i].trend == TrendOf(r.trends[i].slope))
      && (forall m :: slopeOf(m).Some? <==> exists i :: 0 <= i < |r.trends| && r.trends[i].metric == m)
      && (forall i, j :: 0 <= i < j < |r.trends| ==>
            MetricIndex(r.trends[i].metric) < MetricIndex(r.trends[j].metric))
  {
    if points < 2 {
      return InsufficientData;
    }
    var trends: seq<MetricTrend> := [];
    for k := 0 to |TrendMetrics|
      invariant trends == TrendEntries(slopeOf, k)
    {
      var m := TrendMetrics[k];
      if slopeOf(m).Some? {
        var slope := slopeOf(m).value;
        trends := trends + [MetricTrend(m, TrendOf(slope), slope)];
      }
    }
    TrendEntriesLabelled(slopeOf, |TrendMetrics|);
    TrendEntriesOrdered(slopeOf, |TrendMetrics|);
    TrendEntriesComplete(slopeOf, |TrendMetrics|);
    r := Trends(trends);
  }
}
