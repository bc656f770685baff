/** The metric records the components exchange, with the guarded ratios they all compute. */
module Records {
  import opened Wrappers

  /** A keyword's statistics as built from the keyword statistics endpoint (plus an optional bid). */
  datatype KeywordRecord = KeywordRecord(
    keyword: string,
    impressions: int,
    clicks: int,
    orders: int,
    spend: real,
    revenue: real,
    ctr: real,
    cr: real,
    drr: real,
    currentBid: Option<real>)

  /** A campaign's aggregated statistics. */
  datatype CampaignTotals = CampaignTotals(
    campaignId: string,
    impressions: int,
    clicks: int,
    orders: int,
    spend: real,
    revenue: real,
    ctr: real,
    cr: real,
    drr: real,
    roi: real)

  /** A campaign as listed by the campaign list endpoint: `id` and `name` may be missing. */
  datatype Campaign = Campaign(id: Option<string>, name: Option<string>)

  /** `str(campaign.get('id', ''))`. */
  function IdText(c: Campaign): string {
    c.id.GetOr("")
  }

  /** `num / den * 100 if den > 0 else 0`. */
  function Percent(num: real, den: real): (r: real)
    ensures den <= 0.0 ==> r == 0.0
    ensures den > 0.0 ==> r * den == num * 100.0
    ensures num >= 0.0 ==> r >= 0.0
  {
    if den > 0.0 then num / den * 100.0 else 0.0
  }

  /** `num / den if den > 0 else 0`. */
  function Ratio(num: real, den: real): (r: real)
    ensures den <= 0.0 ==> r == 0.0
    ensures den > 0.0 ==> r * den == num
    ensures num >= 0.0 ==> r >= 0.0
  {
    if den > 0.0 then num / den else 0.0
  }
}
