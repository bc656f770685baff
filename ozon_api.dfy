/**
 * The advertising API client (ozon_api.py): the base-URL fallback of every request, the
 * endpoint fallback of the campaign list and the statistics query, the aggregation of campaign
 * statistics, the construction of keyword records and the payloads of the bid and status
 * updates. The network is an oracle from a request to a reply, or to nothing when the request
 * raises.
 */
module OzonApi {
  import opened Wrappers
  import opened Seqs
  import opened Records

  /** The base URLs the client tries, in order (ozon_api.py:23-27). */
  const BaseUrls: seq<string> := ["https://api-seller.ozon.ru", "https://api.ozon.ru",
                                  "https://performance.ozon.ru/api"]

  /** The campaign list endpoints, in order (ozon_api.py:66-71), and the last-resort one. */
  const CampaignListEndpoints: seq<string> := ["/v2/performance/campaign/list",
    "/v1/performance/campaign/list", "/v1/campaign/list", "/v2/campaign/list"]
  const BaseCampaignListEndpoint: string := "/v1/campaign/list"

  /** The campaign statistics endpoints, in order (ozon_api.py:111-116). */
  const StatisticsEndpoints: seq<string> := ["/v2/performance/campaign/statistics",
    "/v1/performance/campaign/statistics", "/v1/campaign/statistics", "/v2/campaign/statistics"]

  const KeywordStatisticsEndpoint: string := "/v1/performance/keyword/statistics"
  const BidEndpoint: string := "/v1/performance/keyword/bid/set"
  const StatusEndpoint: string := "/v1/performance/keyword/status/set"

  /** One entry of a `statistics` list; each field may be missing. */
  datatype StatEntry = StatEntry(
    keyword: Option<string>,
    impressions: Option<int>,
    clicks: Option<int>,
    orders: Option<int>,
    spend: Option<real>,
    revenue: Option<real>)

  /**
   * The `result` member of a reply, when it is present and truthy: its `campaigns` list, read as
   * campaign descriptions by the list endpoints and as the `statistics` list of each item by the
   * statistics endpoints (a missing list is empty).
   */
  datatype ResultBody = ResultBody(campaigns: seq<Campaign>, statistics: seq<seq<StatEntry>>)

  /** A decoded reply; `result` is None when it is missing, empty or false. */
  datatype Reply = Reply(result: Option<ResultBody>)

  datatype KeywordBid = KeywordBid(keyword: string, bid: real)
  datatype KeywordStatus = KeywordStatus(keyword: string, status: string)

  /** The JSON bodies the client sends. */
  datatype Payload =
    | NoData
    | StatsQuery(campaignId: int, dateFrom: string, dateTo: string, groupBy: string)
    | BidUpdate(campaignId: int, bids: seq<KeywordBid>)
    | StatusUpdate(campaignId: int, statuses: seq<KeywordStatus>)

  datatype Request = Request(verb: string, url: string, data: Payload)

  /** The network: the decoded reply to a request, or None when the request raises. */
  type Network = Request -> Option<Reply>

  predicate IsDigit(c: char) {
    '0' <= c <= '9'
  }

  predicate AllDigits(s: string) {
    forall i :: 0 <= i < |s| ==> IsDigit(s[i])
  }

  /** The value of a string of decimal digits. */
  function DigitsValue(s: string): (n: nat)
    requires AllDigits(s)
  {
    if s == [] then 0 else 10 * DigitsValue(s[..|s| - 1]) + (s[|s| - 1] as int - '0' as int)
  }

  /** A sign, then at least one decimal digit. */
  predicate IsIntLiteral(s: string) {
    if s != [] && (s[0] == '-' || s[0] == '+') then |s| > 1 && AllDigits(s[1..])
    else s != [] && AllDigits(s)
  }

  /** Python's `int(s)` on a string: the value of a signed decimal literal, None when it raises. */
  function ParseInt(s: string): (r: Option<int>)
    ensures r.Some? <==> IsIntLiteral(s)
    ensures r.Some? && s[0] == '-' ==> r.value <= 0
    ensures r.Some? && s[0] != '-' ==> r.value >= 0
  {
    if !IsIntLiteral(s) then None
    else if s[0] == '-' then Some(0 - DigitsValue(s[1..]) as int)
    else if s[0] == '+' then Some(DigitsValue(s[1..]))
    else Some(DigitsValue(s))
  }

  /** A request to `base + endpoint` succeeds. */
  predicate Serves(net: Network, verb: string, endpoint: string, data: Payload, base: string) {
    net(Request(verb, base + endpoint, data)).Some?
  }

  /** The first position at or after k whose base URL serves the request, or |BaseUrls|. */
  function ServingFrom(net: Network, verb: string, endpoint: string, data: Payload, k: nat): (i: nat)
    requires k <= |BaseUrls|
    ensures k <= i <= |BaseUrls|
    decreases |BaseUrls| - k
  {
    if k == |BaseUrls| || Serves(net, verb, endpoint, data, BaseUrls[k]) then k
    else ServingFrom(net, verb, endpoint, data, k + 1)
  }

  /** The position of the first base URL that serves the request (|BaseUrls| when none does). */
  function Serving(net: Network, verb: string, endpoint: string, data: Payload): nat {
    ServingFrom(net, verb, endpoint, data, 0)
  }

  /** The base URL found serves the request, and none tried before it does. */
  lemma {:induction false} ServingFirst(net: Network, verb: string, endpoint: string, data: Payload, k: nat)
    requires k <= |BaseUrls|
    ensures ServingFrom(net, verb, endpoint, data, k) < |BaseUrls| ==>
      Serves(net, verb, endpoint, data, BaseUrls[ServingFrom(net, verb, endpoint, data, k)])
    ensures forall j :: k <= j < ServingFrom(net, verb, endpoint, data, k) ==>
      !Serves(net, verb, endpoint, data, BaseUrls[j])
    decreases |BaseUrls| - k
  {
    if k < |BaseUrls| && !Serves(net, verb, endpoint, data, BaseUrls[k]) {
      ServingFirst(net, verb, endpoint, data, k + 1);
    }
  }

  /** The outcome of `_make_request`: the reply of the first base URL that serves the request. */
  function Fetch(net: Network, verb: string, endpoint: string, data: Payload): Result<Reply> {
    var i := Serving(net, verb, endpoint, data);
    if i < |BaseUrls| then Success(net(Request(verb, BaseUrls[i] + endpoint, data)).value)
    else Failure("All API endpoints failed for endpoint: " + endpoint)
  }

  /** A request fails only when every base URL fails it; otherwise it gets the first URL's reply. */
  lemma FetchFirst(net: Network, verb: string, endpoint: string, data: Payload)
    ensures Fetch(net, verb, endpoint, data).Failure? <==>
      forall j :: 0 <= j < |BaseUrls| ==> !Serves(net, verb, endpoint, data, BaseUrls[j])
    ensures Fetch(net, verb, endpoint, data).Success? ==>
      var i := Serving(net, verb, endpoint, data);
      i < |BaseUrls| && Fetch(net, verb, endpoint, data).value == net(Request(verb, BaseUrls[i] + endpoint, data)).value
      && forall j :: 0 <= j < i ==> !Serves(net, verb, endpoint, data, BaseUrls[j])
  {
    ServingFirst(net, verb, endpoint, data, 0);
  }

  /** `response.get("result", {}).get("campaigns", [])`. */
  function CampaignsOf(reply: Reply): seq<Campaign> {
    match reply.result
    case None => []
    case Some(body) => body.campaigns
  }

  /** The endpoint answers with a non-empty campaign list. */
  predicate Lists(net: Network, endpoint: string) {
    var f := Fetch(net, "POST", endpoint, NoData);
    f.Success? && CampaignsOf(f.value) != []
  }

  /** The first list endpoint at or after k that answers with a non-empty campaign list. */
  function ListingFrom(net: Network, k: nat): (i: nat)
    requires k <= |CampaignListEndpoints|
    ensures k <= i <= |CampaignListEndpoints|
    decreases |CampaignListEndpoints| - k
  {
    if k == |CampaignListEndpoints| || Lists(net, CampaignListEndpoints[k]) then k
    else ListingFrom(net, k + 1)
  }

  /** The list endpoint found lists campaigns, and none tried before it does. */
  lemma {:induction false} ListingFirst(net: Network, k: nat)
    requires k <= |CampaignListEndpoints|
    ensures ListingFrom(net, k) < |CampaignListEndpoints| ==> Lists(net, CampaignListEndpoints[ListingFrom(net, k)])
    ensures forall j :: k <= j < ListingFrom(net, k) ==> !Lists(net, CampaignListEndpoints[j])
    decreases |CampaignListEndpoints| - k
  {
    if k < |CampaignListEndpoints| && !Lists(net, CampaignListEndpoints[k]) {
      ListingFirst(net, k + 1);
    }
  }

  /**
   * What `get_all_campaigns` returns: the first non-empty campaign list in endpoint order, else
   * the list of the base endpoint, else nothing.
   */
  function ListedCampaigns(net: Network): seq<Campaign> {
    var i := ListingFrom(net, 0);
    if i < |CampaignListEndpoints| then CampaignsOf(Fetch(net, "POST", CampaignListEndpoints[i], NoData).value)
    else
      var f := Fetch(net, "POST", BaseCampaignListEndpoint, NoData);
      if f.Success? then CampaignsOf(f.value) else []
  }

  /**
   * The campaign list is the first non-empty one in endpoint order when there is one; otherwise
   * it is what the base endpoint lists, and empty when that request fails too.
   */
  lemma ListedCampaignsFirst(net: Network)
    ensures (exists i :: 0 <= i < |CampaignListEndpoints| && Lists(net, CampaignListEndpoints[i])) ==>
      exists i :: 0 <= i < |CampaignListEndpoints| && Lists(net, CampaignListEndpoints[i])
        && ListedCampaigns(net) == CampaignsOf(Fetch(net, "POST", CampaignListEndpoints[i], NoData).value)
        && forall j :: 0 <= j < i ==> !Lists(net, CampaignListEndpoints[j])
    ensures (forall j :: 0 <= j < |CampaignListEndpoints| ==> !Lists(net, CampaignListEndpoints[j])) ==>
      ListedCampaigns(net) == (var f := Fetch(net, "POST", BaseCampaignListEndpoint, NoData);
                               if f.Success? then CampaignsOf(f.value) else [])
  {
    ListingFirst(net, 0);
  }

  /** Some base URL serves a POST of the data to the endpoint. */
  predicate Answers(net: Network, data: Payload, endpoint: string) {
    Fetch(net, "POST", endpoint, data).Success?
  }

  /** The first endpoint at or after k that answers. */
  function AnsweringFrom(net: Network, endpoints: seq<string>, data: Payload, k: nat): (i: nat)
    requires k <= |endpoints|
    ensures k <= i <= |endpoints|
    decreases |endpoints| - k
  {
    if k == |endpoints| || Answers(net, data, endpoints[k]) then k
    else AnsweringFrom(net, endpoints, data, k + 1)
  }

  /** The endpoint found answers, and none tried before it does. */
  lemma {:induction false} AnsweringFirst(net: Network, endpoints: seq<string>, data: Payload, k: nat)
    requires k <= |endpoints|
    ensures AnsweringFrom(net, endpoints, data, k) < |endpoints| ==>
      Answers(net, data, endpoints[AnsweringFrom(net, endpoints, data, k)])
    ensures forall j :: k <= j < AnsweringFrom(net, endpoints, data, k) ==> !Answers(net, data, endpoints[j])
    decreases |endpoints| - k
  {
    if k < |endpoints| && !Answers(net, data, endpoints[k]) {
      AnsweringFirst(net, endpoints, data, k + 1);
    }
  }

  /** The reply of the first endpoint that answers, if any does. */
  function FirstEndpoint(net: Network, endpoints: seq<string>, data: Payload): Option<Reply> {
    AnsweringFirst(net, endpoints, data, 0);
    var i := AnsweringFrom(net, endpoints, data, 0);
    if i < |endpoints| then Some(Fetch(net, "POST", endpoints[i], data).value) else None
  }

  /** There is no reply iff no endpoint answers; otherwise it is the first answering endpoint's. */
  lemma FirstEndpointFirst(net: Network, endpoints: seq<string>, data: Payload)
    ensures FirstEndpoint(net, endpoints, data).None? <==>
      forall j :: 0 <= j < |endpoints| ==> !Answers(net, data, endpoints[j])
    ensures FirstEndpoint(net, endpoints, data).Some? ==>
      exists i :: 0 <= i < |endpoints| && Fetch(net, "POST", endpoints[i], data) == Success(FirstEndpoint(net, endpoints, data).value)
        && forall j :: 0 <= j < i ==> !Answers(net, data, endpoints[j])
  {
    AnsweringFirst(net, endpoints, data, 0);
  }

  /** The running totals of `get_campaign_stats`. */
  datatype Sums = Sums(impressions: int, clicks: int, orders: int, spend: real, revenue: real)

  function ImpressionsOf(e: StatEntry): int { e.impressions.GetOr(0) }
  function ClicksOf(e: StatEntry): int { e.clicks.GetOr(0) }
  function OrdersOf(e: StatEntry): int { e.orders.GetOr(0) }
  function SpendOf(e: StatEntry): real { e.spend.GetOr(0.0) }
  function RevenueOf(e: StatEntry): real { e.revenue.GetOr(0.0) }

  /** The field-by-field sums of the entries, a missing field counting as 0. */
  function Total(es: seq<StatEntry>): Sums {
    Sums(SumInt(es, ImpressionsOf), SumInt(es, ClicksOf), SumInt(es, OrdersOf),
         SumReal(es, SpendOf), SumReal(es, RevenueOf))
  }

  /** The totals with one more entry counted. */
  function AddEntry(s: Sums, e: StatEntry): Sums {
    Sums(s.impressions + ImpressionsOf(e), s.clicks + ClicksOf(e), s.orders + OrdersOf(e),
         s.spend + SpendOf(e), s.revenue + RevenueOf(e))
  }

  /** Counting one more entry keeps the totals equal to the sums. */
  lemma TotalSnoc(es: seq<StatEntry>, e: StatEntry)
    ensures Total(es + [e]) == AddEntry(Total(es), e)
  {
    SumIntAppend(es, [e], ImpressionsOf);
    SumIntAppend(es, [e], ClicksOf);
    SumIntAppend(es, [e], OrdersOf);
    SumRealAppend(es, [e], SpendOf);
    SumRealAppend(es, [e], RevenueOf);
  }

  /** The campaign record of the totals, with the ratios guarded against a zero denominator. */
  function WithRatios(campaignId: string, s: Sums): (t: CampaignTotals)
    ensures t.campaignId == campaignId && t.impressions == s.impressions && t.clicks == s.clicks
    ensures t.orders == s.orders && t.spend == s.spend && t.revenue == s.revenue
    ensures s.impressions <= 0 ==> t.ctr == 0.0
    ensures s.clicks <= 0 ==> t.cr == 0.0
    ensures s.revenue <= 0.0 ==> t.drr == 0.0
    ensures s.spend <= 0.0 ==> t.roi == 0.0
    ensures s.impressions > 0 ==> t.ctr * s.impressions as real == s.clicks as real * 100.0
    ensures s.clicks > 0 ==> t.cr * s.clicks as real == s.orders as real * 100.0
    ensures s.revenue > 0.0 ==> t.drr * s.revenue == s.spend * 100.0
    ensures s.spend > 0.0 ==> t.roi * s.spend == s.revenue
  {
    CampaignTotals(campaignId, s.impressions, s.clicks, s.orders, s.spend, s.revenue,
      Percent(s.clicks as real, s.impressions as real), Percent(s.orders as real, s.clicks as real),
      Percent(s.spend, s.revenue), Ratio(s.revenue, s.spend))
  }

  /** What `get_campaign_stats` returns for a statistics reply: nothing for an empty result. */
  function StatsOf(campaignId: string, reply: Reply): Option<CampaignTotals> {
    match reply.result
    case None => None
    case Some(body) => Some(WithRatios(campaignId, Total(Flatten(body.statistics))))
  }

  function StatsPayload(id: int, dateFrom: string, dateTo: string): Payload {
    StatsQuery(id, dateFrom, dateTo, "DATE")
  }

  /**
   * What `get_campaign_stats` does when the campaign id is a number: the totals of the first
   * statistics endpoint that answers, and nothing when none answers or the result is empty.
   */
  function CampaignStatsFor(net: Network, campaignId: string, id: int, dateFrom: string, dateTo: string): Option<CampaignTotals> {
    var reply := FirstEndpoint(net, StatisticsEndpoints, StatsPayload(id, dateFrom, dateTo));
    if reply.None? then None else StatsOf(campaignId, reply.value)
  }

  /**
   * `get_campaign_stats` as written: the payload, and with it `int(campaign_id)`, is built before
   * the `try`, so an id that is not an integer literal raises instead of giving `{}`.
   */
  function CampaignStatsAsWritten(net: Network, campaignId: string, dateFrom: string, dateTo: string): Result<Option<CampaignTotals>> {
    match ParseInt(campaignId)
    case None => Failure("invalid literal for int() with base 10")
    case Some(id) => Success(CampaignStatsFor(net, campaignId, id, dateFrom, dateTo))
  }

  /** `get_campaign_stats` with the payload built inside the `try`: every failure gives `{}`. */
  function CampaignStats(net: Network, campaignId: string, dateFrom: string, dateTo: string): Option<CampaignTotals> {
    match ParseInt(campaignId)
    case None => None
    case Some(id) => CampaignStatsFor(net, campaignId, id, dateFrom, dateTo)
  }

  /** A campaign without an id is looked up as "": the code as written raises for it. */
  lemma MissingIdRaises(net: Network, dateFrom: string, dateTo: string)
    ensures CampaignStatsAsWritten(net, IdText(Campaign(None, None)), dateFrom, dateTo).Failure?
    ensures CampaignStats(net, IdText(Campaign(None, None)), dateFrom, dateTo) == None
  {
  }

  /** The two versions agree whenever the id is an integer literal. */
  lemma CampaignStatsAgree(net: Network, campaignId: string, dateFrom: string, dateTo: string)
    requires IsIntLiteral(campaignId)
    ensures CampaignStatsAsWritten(net, campaignId, dateFrom, dateTo) == Success(CampaignStats(net, campaignId, dateFrom, dateTo))
  {
  }

  /** The keyword record of one statistics entry (ozon_api.py:221-233). */
  function KeywordOf(e: StatEntry): (k: KeywordRecord)
    ensures k.keyword == e.keyword.GetOr("") && k.impressions == ImpressionsOf(e)
    ensures k.clicks == ClicksOf(e) && k.orders == OrdersOf(e)
    ensures k.spend == SpendOf(e) && k.revenue == RevenueOf(e) && k.currentBid == None
    ensures k.impressions <= 0 ==> k.ctr == 0.0
    ensures k.clicks <= 0 ==> k.cr == 0.0
    ensures k.revenue <= 0.0 ==> k.drr == 0.0
    ensures k.impressions > 0 ==> k.ctr * k.impressions as real == k.clicks as real * 100.0
    ensures k.clicks > 0 ==> k.cr * k.clicks as real == k.orders as real * 100.0
    ensures k.revenue > 0.0 ==> k.drr * k.revenue == k.spend * 100.0
  {
    KeywordRecord(e.keyword.GetOr(""), ImpressionsOf(e), ClicksOf(e), OrdersOf(e), SpendOf(e), RevenueOf(e),
      Percent(ClicksOf(e) as real, ImpressionsOf(e) as real), Percent(OrdersOf(e) as real, ClicksOf(e) as real),
      Percent(SpendOf(e), RevenueOf(e)), None)
  }

  /** The records `get_keyword_stats` builds from a reply: one per statistics entry, in order. */
  function KeywordRecordsOf(reply: Reply): seq<StatEntry> {
    match reply.result
    case None => []
    case Some(body) => Flatten(body.statistics)
  }

  /** `get_keyword_stats` when the id is a number: every failure gives the empty list. */
  function KeywordStatsFor(net: Network, id: int, dateFrom: string, dateTo: string): seq<StatEntry> {
    var f := Fetch(net, "POST", KeywordStatisticsEndpoint, StatsQuery(id, dateFrom, dateTo, "KEYWORD"));
    if f.Failure? then [] else KeywordRecordsOf(f.value)
  }

  /** The entries of a `PAUSED` status update: one per keyword, in order. */
  function PauseEntries(keywords: seq<string>): (r: seq<KeywordStatus>)
    ensures |r| == |keywords|
    ensures forall i :: 0 <= i < |keywords| ==> r[i] == KeywordStatus(keywords[i], "PAUSED")
  {
    seq(|keywords|, i requires 0 <= i < |keywords| => KeywordStatus(keywords[i], "PAUSED"))
  }

  /** A reply whose `result` is truthy. */
  predicate Accepted(f: Result<Reply>) {
    f.Success? && f.value.result.Some?
  }

  /** The client: the base URL of the last request that succeeded. */
  class Client {
    var baseUrl: string

    constructor()
      ensures baseUrl == BaseUrls[0]
    {
      baseUrl := BaseUrls[0];
    }

    /**
     * `_make_request`: tries the base URLs in order and returns the first reply, remembering the
     * URL that gave it; when every URL fails it raises and the base URL is unchanged.
     */
    method MakeRequest(net: Network, verb: string, endpoint: string, data: Payload) returns (r: Result<Reply>)
      modifies this
      ensures r == Fetch(net, verb, endpoint, data)
      ensures r.Success? ==> baseUrl == BaseUrls[Serving(net, verb, endpoint, data)]
      ensures r.Failure? ==> baseUrl == old(baseUrl)
    {
      for i := 0 to |BaseUrls|
        invariant Serving(net, verb, endpoint, data) == ServingFrom(net, verb, endpoint, data, i)
        invariant baseUrl == old(baseUrl)
      {
        var reply := net(Request(verb, BaseUrls[i] + endpoint, data));
        if reply.Some? {
          baseUrl := BaseUrls[i];
          return Success(reply.value);
        }
      }
      return Failure("All API endpoints failed for endpoint: " + endpoint);
    }

    /** `get_all_campaigns`. */
    method GetAllCampaigns(net: Network) returns (r: seq<Campaign>)
      modifies this
      ensures r == ListedCampaigns(net)
      ensures baseUrl == old(baseUrl) || baseUrl in BaseUrls
    {
      for i := 0 to |CampaignListEndpoints|
        invariant ListingFrom(net, 0) == ListingFrom(net, i)
        invariant baseUrl == old(baseUrl) || baseUrl in BaseUrls
      {
        var response := MakeRequest(net, "POST", CampaignListEndpoints[i], NoData);
        if response.Success? {
          var campaigns := CampaignsOf(response.value);
          if campaigns != [] {
            return campaigns;
          }
        }
      }
      var response := MakeRequest(net, "POST", BaseCampaignListEndpoint, NoData);
      if response.Failure? {
        return [];
      }
      return CampaignsOf(response.value);
    }

    /**
     * `get_campaign_stats` with the payload built inside the `try` (see CampaignStatsAsWritten):
     * the totals of the first statistics endpoint that answers, or nothing.
     */
    method GetCampaignStats(net: Network, campaignId: string, dateFrom: string, dateTo: string)
      returns (r: Option<CampaignTotals>)
      modifies this
      ensures r == CampaignStats(net, campaignId, dateFrom, dateTo)
      ensures baseUrl == old(baseUrl) || baseUrl in BaseUrls
    {
      var id := ParseInt(campaignId);
      if id.None? {
        return None;
      }
      var data := StatsPayload(id.value, dateFrom, dateTo);
      var response: Option<Reply> := None;
      for i := 0 to |StatisticsEndpoints|
        invariant response.None?
        invariant AnsweringFrom(net, StatisticsEndpoints, data, 0) == AnsweringFrom(net, StatisticsEndpoints, data, i)
        invariant baseUrl == old(baseUrl) || baseUrl in BaseUrls
      {
        var f := MakeRequest(net, "POST", StatisticsEndpoints[i], data);
        if f.Success? {
          response := Some(f.value);
          break;
        }
      }
      if response.None? {
        return None;
      }
      assert response == FirstEndpoint(net, StatisticsEndpoints, data);
      match response.value.result {
        case None =>
          return None;
        case Some(body) =>
          var totals := Aggregate(body.statistics);
          return Some(WithRatios(campaignId, totals));
      }
    }

    /** `get_keyword_stats` with the payload built inside the `try`: one record per entry, in order. */
    method GetKeywordStats(net: Network, campaignId: string, dateFrom: string, dateTo: string)
      returns (r: seq<KeywordRecord>)
      modifies this
      ensures var es := if ParseInt(campaignId).None? then [] else
          KeywordStatsFor(net, ParseInt(campaignId).value, dateFrom, dateTo);
        |r| == |es| && forall i :: 0 <= i < |es| ==> r[i] == KeywordOf(es[i])
      ensures baseUrl == old(baseUrl) || baseUrl in BaseUrls
    {
      var id := ParseInt(campaignId);
      if id.None? {
        return [];
      }
      var f := MakeRequest(net, "POST", KeywordStatisticsEndpoint, StatsQuery(id.value, dateFrom, dateTo, "KEYWORD"));
      if f.Failure? {
        return [];
      }
      r := BuildRecords(KeywordRecordsOf(f.value));
    }

    /** `update_keyword_bid`: true iff the id is a number and the reply's result is truthy. */
    method UpdateKeywordBid(net: Network, campaignId: string, keyword: string, newBid: real) returns (ok: bool)
      modifies this
      ensures ok <==> (ParseInt(campaignId).Some?
        && Accepted(Fetch(net, "POST", BidEndpoint, BidUpdate(ParseInt(campaignId).value, [KeywordBid(keyword, newBid)]))))
      ensures baseUrl == old(baseUrl) || baseUrl in BaseUrls
    {
      var id := ParseInt(campaignId);
      if id.None? {
        return false;
      }
      var f := MakeRequest(net, "POST", BidEndpoint, BidUpdate(id.value, [KeywordBid(keyword, newBid)]));
      ok := f.Success? && f.value.result.Some?;
    }

    /** `pause_keywords`: one `PAUSED` entry per keyword; true iff the reply's result is truthy. */
    method PauseKeywords(net: Network, campaignId: string, keywords: seq<string>) returns (ok: bool)
      modifies this
      ensures ok <==> (ParseInt(campaignId).Some?
        && Accepted(Fetch(net, "POST", StatusEndpoint, StatusUpdate(ParseInt(campaignId).value, PauseEntries(keywords)))))
      ensures baseUrl == old(baseUrl) || baseUrl in BaseUrls
    {
      var id := ParseInt(campaignId);
      if id.None? {
        return false;
      }
      var f := MakeRequest(net, "POST", StatusEndpoint, StatusUpdate(id.value, PauseEntries(keywords)));
      ok := f.Success? && f.value.result.Some?;
    }
  }

  /** The aggregation loops of `get_campaign_stats`: totals over every entry of every campaign. */
  method Aggregate(statistics: seq<seq<StatEntry>>) returns (s: Sums)
    ensures s == Total(Flatten(statistics))
  {
    s := Sums(0, 0, 0, 0.0, 0.0);
    for i := 0 to |statistics|
      invariant s == Total(Flatten(statistics[..i]))
    {
      assert statistics[..i + 1][..i] == statistics[..i];
      var entries := statistics[i];
      assert Flatten(statistics[..i]) + entries[..0] == Flatten(statistics[..i]);
      for j := 0 to |entries|
        invariant s == Total(Flatten(statistics[..i]) + entries[..j])
      {
        assert entries[..j + 1] == entries[..j] + [entries[j]];
        assert Flatten(statistics[..i]) + entries[..j + 1] == (Flatten(statistics[..i]) + entries[..j]) + [entries[j]];
        TotalSnoc(Flatten(statistics[..i]) + entries[..j], entries[j]);
        s := AddEntry(s, entries[j]);
      }
      assert entries[..|entries|] == entries;
    }
    assert statistics[..|statistics|] == statistics;
  }

  /** The record loop of `get_keyword_stats`. */
  method BuildRecords(entries: seq<StatEntry>) returns (r: seq<KeywordRecord>)
    ensures |r| == |entries|
    ensures forall i :: 0 <= i < |entries| ==> r[i] == KeywordOf(entries[i])
  {
    r := [];
    for i := 0 to |entries|
      invariant |r| == i
      invariant forall j :: 0 <= j < i ==> r[j] == KeywordOf(entries[j])
    {
      r := r + [KeywordOf(entries[i])];
    }
  }

  /** The totals a reply with no statistics gives are all zero, and so are its ratios. */
  lemma EmptyTotals(campaignId: string)
    ensures WithRatios(campaignId, Total(Flatten([]))) == CampaignTotals(campaignId, 0, 0, 0, 0.0, 0.0, 0.0, 0.0, 0.0, 0.0)
  {
  }
}
