/** The records and enumerations of src/types.ts. */
module Types {
  import opened Common

  /** `Campaign.status`. */
  datatype CampaignStatus = ACTIVE | PAUSED | ARCHIVED | DELETED

  /** The two statuses a campaign can be switched between. */
  type ToggleStatus = s: CampaignStatus | s == ACTIVE || s == PAUSED witness ACTIVE

  /** The wire name of a status, as sent in the `status` parameter. */
  function StatusName(s: CampaignStatus): string
  {
    match s
    case ACTIVE => "ACTIVE"
    case PAUSED => "PAUSED"
    case ARCHIVED => "ARCHIVED"
    case DELETED => "DELETED"
  }

  /** One `actions` entry of the insights. */
  datatype Action = Action(actionType: string, value: string)

  /** `CampaignInsights`, after the numeric fields were parsed. */
  datatype Insights = Insights(
    impressions: int,
    clicks: int,
    ctr: real,
    cpc: real,
    spend: real,
    actions: seq<Action>)

  /** `Campaign`. Budgets are in currency units (dollars); the optional
      fields are `Option`s. */
  datatype Campaign = Campaign(
    id: string,
    name: string,
    status: CampaignStatus,
    dailyBudget: Option<real>,
    lifetimeBudget: Option<real>,
    deliveryStatus: Option<string>,
    insights: Option<Insights>,
    creativeId: Option<string>)

  /** `AdAccount`. */
  datatype AdAccount = AdAccount(id: string, name: string, accountId: string)

  /** `DatePreset`. */
  datatype DatePreset = Today | Yesterday | Last7d | ThisMonth | Custom

  /** A point in time, in milliseconds since the epoch (a JavaScript `Date`). */
  type Instant = int

  /** `DateRange`. */
  datatype DateRange = DateRange(start: Instant, end: Instant)
}
