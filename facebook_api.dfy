/** The service functions of src/services/facebookApi.ts built on the
    executor. Each one is modelled over the results its requests produced
    (a `Result` of the executor), so that the shaping logic is separate from
    transport and timing. */
module FacebookApi {
  import opened Common
  import opened Types
  import opened RequestExecutor

  /** A listing body: its `data` key, when present. */
  type ListBody<T> = Body<Option<seq<T>>>

  /** `body.data || []`. */
  function DataOrEmpty<T>(body: ListBody<T>): seq<T>
  {
    if body.payload.Some? then body.payload.value else []
  }

  /** `body.data?.[0]`. */
  function FirstOf<T>(body: ListBody<T>): (r: Option<T>)
    ensures r.Some? <==> body.payload.Some? && |body.payload.value| > 0
    ensures r.Some? ==> r.value == body.payload.value[0]
  {
    if body.payload.Some? && |body.payload.value| > 0 then Some(body.payload.value[0]) else None
  }

  // ---------------------------------------------------------------------
  // getAdAccounts
  // ---------------------------------------------------------------------

  function AdAccountsRequest(): Request
  {
    Request(Get, MyAdAccounts, map["fields" := Text("id,name,account_id")])
  }

  /** The accounts listed, or `[]` when the body has no `data`; a failed
      request is rethrown with its message. */
  function GetAdAccounts(response: Result<ListBody<AdAccount>>): (r: Result<seq<AdAccount>>)
    ensures r.Err? <==> response.Err?
    ensures r.Err? ==> r.message == response.message
    ensures r.Ok? && response.value.payload.Some? ==> r.value == response.value.payload.value
    ensures r.Ok? && response.value.payload.None? ==> r.value == []
  {
    match response
    case Err(m) => Err(m)
    case Ok(body) => Ok(DataOrEmpty(body))
  }

  /** getAdAccounts as a call on the client: its one request goes through
      the executor with the default budget, `transport` answering it
      attempt by attempt. */
  method FetchAdAccounts(client: ApiClient, now: int, resumedAt: int,
                         transport: Request -> seq<Outcome<Option<seq<AdAccount>>>>)
    returns (r: Result<seq<AdAccount>>)
    requires resumedAt >= now + PacingDelay(now, client.lastRequestTime)
    requires DefaultRetries <= |transport(AdAccountsRequest())|
    modifies client
    ensures client.lastRequestTime == resumedAt
    ensures r == GetAdAccounts(Execute(Get, transport(AdAccountsRequest()), DefaultRetries).result)
  {
    var request := AdAccountsRequest();
    var result, pacingWait, waits, attempts := client.MakeRequest(request, now, resumedAt, transport(request), DefaultRetries);
    r := GetAdAccounts(result);
  }

  // ---------------------------------------------------------------------
  // getDatePresetParams
  // ---------------------------------------------------------------------

  /** The date part of a request's parameters: `date_preset`, or a
      `time_range` with its two days. */
  datatype DateParams = DatePresetParam(datePreset: string) | TimeRangeParam(since: string, until: string)

  /** The preset names the upstream service accepts. */
  const UpstreamPresets: set<string> := {"today", "yesterday", "last_7d", "this_month"}

  function PresetName(p: DatePreset): string
  {
    match p
    case Today => "today"
    case Yesterday => "yesterday"
    case Last7d => "last_7d"
    case ThisMonth => "this_month"
    case Custom => "custom"
  }

  /** `isoDay(t)` stands for `t.toISOString().split('T')[0]`. */
  function DatePresetParams(preset: DatePreset, customRange: Option<DateRange>, isoDay: Instant -> string): (r: DateParams)
    ensures r.TimeRangeParam? <==> preset == Custom && customRange.Some?
    ensures r.TimeRangeParam? ==> r.since == isoDay(customRange.value.start) && r.until == isoDay(customRange.value.end)
    ensures preset != Custom ==> r == DatePresetParam(PresetName(preset))
    ensures preset == Custom && customRange.None? ==> r == DatePresetParam("today")
    ensures r.DatePresetParam? ==> r.datePreset in UpstreamPresets
  {
    if preset == Custom && customRange.Some? then
      TimeRangeParam(isoDay(customRange.value.start), isoDay(customRange.value.end))
    else
      var name := PresetName(preset);
      DatePresetParam(
        if name == "today" then "today"
        else if name == "yesterday" then "yesterday"
        else if name == "last_7d" then "last_7d"
        else if name == "this_month" then "this_month"
        else "today")
  }

  /** The query entries the date part contributes: `date_preset`, or
      `time_range` as the text `JSON.stringify` gives the two days. */
  function DateParamEntries(d: DateParams): (entries: map<string, ParamValue>)
    ensures d.DatePresetParam? ==> entries == map["date_preset" := Text(d.datePreset)]
    ensures d.TimeRangeParam? ==>
      entries == map["time_range" := Text("{\"since\":\"" + d.since + "\",\"until\":\"" + d.until + "\"}")]
  {
    match d
    case DatePresetParam(p) => map["date_preset" := Text(p)]
    case TimeRangeParam(since, until) =>
      map["time_range" := Text("{\"since\":\"" + since + "\",\"until\":\"" + until + "\"}")]
  }

  // ---------------------------------------------------------------------
  // getCampaigns
  // ---------------------------------------------------------------------

  /** A campaign as the listing returns it; budgets in cents. */
  datatype RawCampaign = RawCampaign(
    id: string,
    name: string,
    status: CampaignStatus,
    dailyBudget: Option<int>,
    lifetimeBudget: Option<int>,
    effectiveStatus: Option<string>)

  /** An insights row, with its numeric fields already parsed (absent
      fields are `None`). */
  datatype RawInsights = RawInsights(
    impressions: Option<int>,
    clicks: Option<int>,
    ctr: Option<real>,
    cpc: Option<real>,
    spend: Option<real>,
    actions: Option<seq<Action>>)

  /** An ad row: its `creative.id`, when present. */
  datatype RawAd = RawAd(creativeId: Option<string>)

  /** A campaign's insights request, over the period `dates` selects. */
  function InsightsRequest(campaignId: string, dates: DateParams): (r: Request)
    ensures r.verb == Get && r.endpoint == CampaignInsights(campaignId)
    ensures r.params.Keys == {"fields"} + DateParamEntries(dates).Keys
    ensures forall key :: key in DateParamEntries(dates) ==> r.params[key] == DateParamEntries(dates)[key]
  {
    Request(Get, CampaignInsights(campaignId),
            map["fields" := Text("impressions,clicks,ctr,cpc,spend,actions")] + DateParamEntries(dates))
  }

  /** A campaign's ads request: the first ad's creative id only. */
  function AdsRequest(campaignId: string): Request
  {
    Request(Get, CampaignAds(campaignId), map["fields" := Text("creative{id}"), "limit" := Number(1)])
  }

  /** `cents ? cents / 100 : undefined`: a zero or absent budget is absent. */
  function CentsToDollars(cents: Option<int>): (dollars: Option<real>)
    ensures dollars.Some? <==> cents.Some? && cents.value != 0
    ensures dollars.Some? ==> dollars.value * 100.0 == cents.value as real
  {
    if cents.Some? && cents.value != 0 then Some(cents.value as real / 100.0) else None
  }

  /** The `.map((camp) => ({…}))` of the listing. */
  function ShapeCampaign(raw: RawCampaign): (c: Campaign)
    ensures c.id == raw.id && c.name == raw.name && c.status == raw.status
    ensures c.dailyBudget == CentsToDollars(raw.dailyBudget)
    ensures c.lifetimeBudget == CentsToDollars(raw.lifetimeBudget)
    ensures c.deliveryStatus == raw.effectiveStatus
    ensures c.insights.None? && c.creativeId.None?
  {
    Campaign(raw.id, raw.name, raw.status, CentsToDollars(raw.dailyBudget), CentsToDollars(raw.lifetimeBudget),
             raw.effectiveStatus, None, None)
  }

  /** The insights object built from the first row (`parseInt(x || '0')`
      and the like, with parsing left out). */
  function ParseInsights(raw: RawInsights): (i: Insights)
    ensures raw.impressions.Some? ==> i.impressions == raw.impressions.value
    ensures raw.impressions.None? ==> i.impressions == 0
    ensures raw.clicks.Some? ==> i.clicks == raw.clicks.value
    ensures raw.clicks.None? ==> i.clicks == 0
    ensures i.ctr == (if raw.ctr.Some? then raw.ctr.value else 0.0)
    ensures i.cpc == (if raw.cpc.Some? then raw.cpc.value else 0.0)
    ensures i.spend == (if raw.spend.Some? then raw.spend.value else 0.0)
    ensures raw.actions.Some? ==> i.actions == raw.actions.value
    ensures raw.actions.None? ==> i.actions == []
  {
    Insights(
      if raw.impressions.Some? then raw.impressions.value else 0,
      if raw.clicks.Some? then raw.clicks.value else 0,
      if raw.ctr.Some? then raw.ctr.value else 0.0,
      if raw.cpc.Some? then raw.cpc.value else 0.0,
      if raw.spend.Some? then raw.spend.value else 0.0,
      if raw.actions.Some? then raw.actions.value else [])
  }

  /** The insights a successful insights request contributes. */
  function InsightsFrom(body: ListBody<RawInsights>): Option<Insights>
  {
    var first := FirstOf(body);
    if first.Some? then Some(ParseInsights(first.value)) else None
  }

  /** The creative id an ads request contributes: `data?.[0]?.creative?.id`
      when the request succeeded and the id is non-empty. */
  function CreativeIdFrom(ads: Result<ListBody<RawAd>>): (id: Option<string>)
    ensures ads.Err? ==> id.None?
    ensures id.Some? <==>
      && ads.Ok? && FirstOf(ads.value).Some?
      && FirstOf(ads.value).value.creativeId.Some? && FirstOf(ads.value).value.creativeId.value != ""
    ensures id.Some? ==> id == FirstOf(ads.value).value.creativeId && id.value != ""
  {
    if ads.Ok? then
      var first := FirstOf(ads.value);
      if first.Some? && first.value.creativeId.Some? && first.value.creativeId.value != "" then first.value.creativeId
      else None
    else None
  }

  /** getCampaigns: `listing` is the result of the campaigns request;
      `insightsFor` and `adsFor` answer a campaign's insights and ads
      requests. The insights request carries the date parameters of
      `preset` and `customRange`; the ads request is made only after the
      insights request succeeded; a failure of either is swallowed. */
  method GetCampaigns(listing: Result<ListBody<RawCampaign>>,
                      preset: DatePreset, customRange: Option<DateRange>, isoDay: Instant -> string,
                      insightsFor: Request -> Result<ListBody<RawInsights>>,
                      adsFor: Request -> Result<ListBody<RawAd>>)
    returns (r: Result<seq<Campaign>>)
    ensures listing.Err? ==> r == Err(listing.message)
    ensures listing.Ok? ==> r.Ok? && |r.value| == |DataOrEmpty(listing.value)|
    ensures listing.Ok? ==> forall i :: 0 <= i < |r.value| ==>
      var raw := DataOrEmpty(listing.value)[i];
      var insights := insightsFor(InsightsRequest(raw.id, DatePresetParams(preset, customRange, isoDay)));
      && r.value[i].(insights := None, creativeId := None) == ShapeCampaign(raw)
      && (insights.Err? ==> r.value[i].insights.None? && r.value[i].creativeId.None?)
      && (insights.Ok? ==>
            r.value[i].insights == InsightsFrom(insights.value)
            && r.value[i].creativeId == CreativeIdFrom(adsFor(AdsRequest(raw.id))))
  {
    var dateParams := DatePresetParams(preset, customRange, isoDay);
    if listing.Err? {
      return Err(listing.message);
    }
    var raws := DataOrEmpty(listing.value);
    var campaigns := seq(|raws|, i requires 0 <= i < |raws| => ShapeCampaign(raws[i]));
    for k := 0 to |campaigns|
      invariant |campaigns| == |raws|
      invariant forall i :: k <= i < |raws| ==> campaigns[i] == ShapeCampaign(raws[i])
      invariant forall i :: 0 <= i < k ==>
        && campaigns[i].(insights := None, creativeId := None) == ShapeCampaign(raws[i])
        && (insightsFor(InsightsRequest(raws[i].id, dateParams)).Err? ==>
              campaigns[i].insights.None? && campaigns[i].creativeId.None?)
        && (insightsFor(InsightsRequest(raws[i].id, dateParams)).Ok? ==>
              campaigns[i].insights == InsightsFrom(insightsFor(InsightsRequest(raws[i].id, dateParams)).value)
              && campaigns[i].creativeId == CreativeIdFrom(adsFor(AdsRequest(raws[i].id))))
    {
      var campaign := campaigns[k];
      var insightsData := insightsFor(InsightsRequest(campaign.id, dateParams));
      if insightsData.Ok? {
        var insights := FirstOf(insightsData.value);
        if insights.Some? {
          campaign := campaign.(insights := Some(ParseInsights(insights.value)));
        }
        var adsData := adsFor(AdsRequest(campaign.id));
        if adsData.Ok? {
          var ad := FirstOf(adsData.value);
          if ad.Some? && ad.value.creativeId.Some? && ad.value.creativeId.value != "" {
            campaign := campaign.(creativeId := ad.value.creativeId);
          }
        }
      }
      campaigns := campaigns[k := campaign];
    }
    return Ok(campaigns);
  }

  // ---------------------------------------------------------------------
  // updateCampaignStatus, updateCampaignBudget
  // ---------------------------------------------------------------------

  function UpdateStatusRequest(campaignId: string, status: ToggleStatus): Request
  {
    Request(Post, Node(campaignId), map["status" := Text(StatusName(status))])
  }

  /** `Math.round(dollars * 100)`: the nearest whole number of cents, a
      half cent rounding up. */
  function BudgetInCents(dollars: real): (cents: int)
    ensures cents as real - 0.5 <= dollars * 100.0 < cents as real + 0.5
  {
    (dollars * 100.0 + 0.5).Floor
  }

  function UpdateBudgetRequest(campaignId: string, dailyBudget: real): Request
  {
    Request(Post, Node(campaignId), map["daily_budget" := Number(BudgetInCents(dailyBudget))])
  }

  /** Writing back a daily budget as it was read sends the very number of
      cents the listing reported. */
  lemma BudgetRoundTrip(raw: RawCampaign)
    requires raw.dailyBudget.Some? && raw.dailyBudget.value != 0
    ensures var c := ShapeCampaign(raw);
      UpdateBudgetRequest(c.id, c.dailyBudget.value).params["daily_budget"] == Number(raw.dailyBudget.value)
  {
    var cents := raw.dailyBudget.value;
    var dollars := ShapeCampaign(raw).dailyBudget.value;
    assert dollars * 100.0 == cents as real;
    var sent := BudgetInCents(dollars);
    assert sent as real - 0.5 <= cents as real < sent as real + 0.5;
  }

  /** Both update wrappers resolve to `true` when the write succeeded and
      rethrow its error otherwise. */
  function UpdateResult<P>(response: Result<Body<P>>): (r: Result<bool>)
    ensures r.Ok? <==> response.Ok?
    ensures r.Ok? ==> r.value
    ensures r.Err? ==> r.message == response.message
  {
    match response
    case Ok(_) => Ok(true)
    case Err(m) => Err(m)
  }

  /** updateCampaignStatus as a call on the client. */
  method UpdateCampaignStatus<P>(client: ApiClient, campaignId: string, status: ToggleStatus,
                                 now: int, resumedAt: int, transport: Request -> seq<Outcome<P>>)
    returns (r: Result<bool>)
    requires resumedAt >= now + PacingDelay(now, client.lastRequestTime)
    requires DefaultRetries <= |transport(UpdateStatusRequest(campaignId, status))|
    modifies client
    ensures client.lastRequestTime == resumedAt
    ensures r == UpdateResult(Execute(Post, transport(UpdateStatusRequest(campaignId, status)), DefaultRetries).result)
  {
    var request := UpdateStatusRequest(campaignId, status);
    var result, pacingWait, waits, attempts := client.MakeRequest(request, now, resumedAt, transport(request), DefaultRetries);
    r := UpdateResult(result);
  }

  /** updateCampaignBudget as a call on the client. */
  method UpdateCampaignBudget<P>(client: ApiClient, campaignId: string, dailyBudget: real,
                                 now: int, resumedAt: int, transport: Request -> seq<Outcome<P>>)
    returns (r: Result<bool>)
    requires resumedAt >= now + PacingDelay(now, client.lastRequestTime)
    requires DefaultRetries <= |transport(UpdateBudgetRequest(campaignId, dailyBudget))|
    modifies client
    ensures client.lastRequestTime == resumedAt
    ensures r == UpdateResult(Execute(Post, transport(UpdateBudgetRequest(campaignId, dailyBudget)), DefaultRetries).result)
  {
    var request := UpdateBudgetRequest(campaignId, dailyBudget);
    var result, pacingWait, waits, attempts := client.MakeRequest(request, now, resumedAt, transport(request), DefaultRetries);
    r := UpdateResult(result);
  }

  // ---------------------------------------------------------------------
  // getAdPreview
  // ---------------------------------------------------------------------

  datatype AdFormat = DesktopFeedStandard | MobileFeedStandard

  function AdFormatName(f: AdFormat): string
  {
    match f
    case DesktopFeedStandard => "DESKTOP_FEED_STANDARD"
    case MobileFeedStandard => "MOBILE_FEED_STANDARD"
  }

  /** A preview row: its `body` HTML, when present. */
  datatype PreviewRow = PreviewRow(body: Option<string>)

  function PreviewRequest(creativeId: string, format: AdFormat): Request
  {
    Request(Get, CreativePreviews(creativeId), map["ad_format" := Text(AdFormatName(format))])
  }

  const PreviewPageUrl := "https://www.facebook.com/ads/preview"

  /** The iframe that embeds the public preview page of the creative, in
      the requested format. */
  function PreviewIframe(creativeId: string, format: AdFormat): (html: string)
    ensures "<iframe src=\"" + PreviewPageUrl + "?creative_id=" + creativeId + "&ad_format=" + AdFormatName(format) + "\"" <= html
  {
    var head := "<iframe src=\"" + PreviewPageUrl + "?creative_id=" + creativeId + "&ad_format=" + AdFormatName(format) + "\"";
    var tail := " width=\"100%\" height=\"600\" frameborder=\"0\"></iframe>";
    assert (head + tail)[..|head|] == head;
    head + tail
  }

  /** getAdPreview never fails: it yields the first row's non-empty body
      when the request succeeded with one, and the iframe otherwise. */
  function GetAdPreview(creativeId: string, format: AdFormat, response: Result<ListBody<PreviewRow>>): (html: string)
    ensures response.Err? ==> html == PreviewIframe(creativeId, format)
    ensures response.Ok? ==>
      var first := FirstOf(response.value);
      && (first.Some? && first.value.body.Some? && first.value.body.value != "" ==> html == first.value.body.value)
      && (first.None? || first.value.body.None? || first.value.body.value == "" ==> html == PreviewIframe(creativeId, format))
    ensures |html| > 0
  {
    var first := if response.Ok? then FirstOf(response.value) else None;
    if first.Some? && first.value.body.Some? && first.value.body.value != "" then first.value.body.value
    else PreviewIframe(creativeId, format)
  }

  /** getAdPreview as a call on the client. */
  method FetchAdPreview(client: ApiClient, creativeId: string, format: AdFormat, now: int, resumedAt: int,
                        transport: Request -> seq<Outcome<Option<seq<PreviewRow>>>>)
    returns (html: string)
    requires resumedAt >= now + PacingDelay(now, client.lastRequestTime)
    requires DefaultRetries <= |transport(PreviewRequest(creativeId, format))|
    modifies client
    ensures client.lastRequestTime == resumedAt
    ensures html == GetAdPreview(creativeId, format, Execute(Get, transport(PreviewRequest(creativeId, format)), DefaultRetries).result)
  {
    var request := PreviewRequest(creativeId, format);
    var result, pacingWait, waits, attempts := client.MakeRequest(request, now, resumedAt, transport(request), DefaultRetries);
    html := GetAdPreview(creativeId, format, result);
  }
}
