/** src/components/BudgetEditModal.tsx: the modal's initial state and its
    `handleSave` handler. The callbacks it invokes (`onSave`, `onClose`,
    `onError`) and the service call it awaits are recorded, in order, as
    effects. */
module BudgetEditModal {
  import opened Common
  import opened Types
  import FacebookApi

  const InvalidAmountMessage := "Please enter a valid budget amount"
  const LifetimeUnsupportedMessage := "Lifetime budget updates are not supported in this version. Please use daily budget."
  const UpdateFailedFallback := "Failed to update budget"

  /** What the modal does to the world outside its own state. */
  datatype Effect =
    | UpdateBudget(campaignId: string, dailyBudget: real)  // updateCampaignBudget(id, value)
    | OnSave
    | OnClose
    | OnError(message: string)

  /** `onError?.(msg)`: nothing when no `onError` prop was given. */
  function Reported(hasOnError: bool, msg: string): (effects: seq<Effect>)
    ensures hasOnError ==> effects == [OnError(msg)]
    ensures !hasOnError ==> effects == []
  {
    if hasOnError then [OnError(msg)] else []
  }

  /** The initial text of the amount field:
      `daily?.toString() || lifetime?.toString() || '0'`, where `show`
      stands for the conversion of a number to its decimal text. */
  function InitialBudgetText(c: Campaign, show: real -> string): (text: string)
    ensures c.dailyBudget.Some? && show(c.dailyBudget.value) != "" ==> text == show(c.dailyBudget.value)
    ensures c.dailyBudget.None? && c.lifetimeBudget.Some? && show(c.lifetimeBudget.value) != ""
            ==> text == show(c.lifetimeBudget.value)
    ensures c.dailyBudget.None? && c.lifetimeBudget.None? ==> text == "0"
    ensures text != ""
  {
    Or(if c.dailyBudget.Some? then show(c.dailyBudget.value) else "",
       Or(if c.lifetimeBudget.Some? then show(c.lifetimeBudget.value) else "", "0"))
  }

  /** `!!campaign.daily_budget`: a zero daily budget counts as none. */
  predicate IsDailyInitially(c: Campaign)
  {
    c.dailyBudget.Some? && c.dailyBudget.value != 0.0
  }

  /** For a campaign shaped from the listing, the modal starts on a daily
      budget exactly when the listing reported one, so the initial text is
      then that daily budget. */
  lemma ListedCampaignStartsDailyIffItHasDailyBudget(raw: FacebookApi.RawCampaign)
    ensures IsDailyInitially(FacebookApi.ShapeCampaign(raw)) <==> raw.dailyBudget.Some? && raw.dailyBudget.value != 0
    ensures IsDailyInitially(FacebookApi.ShapeCampaign(raw)) <==> FacebookApi.ShapeCampaign(raw).dailyBudget.Some?
  {
    var c := FacebookApi.ShapeCampaign(raw);
    if c.dailyBudget.Some? {
      assert c.dailyBudget.value * 100.0 == raw.dailyBudget.value as real;
    }
  }

  class Modal {
    const campaign: Campaign
    const hasOnError: bool
    var budget: string
    var isDaily: bool
    var loading: bool
    var error: Option<string>
    var effects: seq<Effect>

    constructor (campaign: Campaign, hasOnError: bool, show: real -> string)
      ensures this.campaign == campaign && this.hasOnError == hasOnError
      ensures budget == InitialBudgetText(campaign, show)
      ensures isDaily == IsDailyInitially(campaign)
      ensures !loading && error.None? && effects == []
    {
      this.campaign := campaign;
      this.hasOnError := hasOnError;
      budget := InitialBudgetText(campaign, show);
      isDaily := IsDailyInitially(campaign);
      loading := false;
      error := None;
      effects := [];
    }

    /** `handleSave`. `parse` stands for `parseFloat` (`None` for NaN);
        `update` is what `updateCampaignBudget` resolves or rejects with,
        should it be called. */
    method HandleSave(parse: string -> Option<real>, update: Result<bool>)
      modifies this
      ensures budget == old(budget) && isDaily == old(isDaily)
      ensures var value := parse(budget);
        if value.None? || value.value <= 0.0 then
          && error == Some(InvalidAmountMessage)
          && loading == old(loading)
          && effects == old(effects) + Reported(hasOnError, InvalidAmountMessage)
        else if !isDaily then
          && error == Some(LifetimeUnsupportedMessage)
          && !loading
          && effects == old(effects) + Reported(hasOnError, LifetimeUnsupportedMessage)
        else if update.Ok? then
          && error.None?
          && !loading
          && effects == old(effects) + [UpdateBudget(campaign.id, value.value), OnSave, OnClose]
        else
          var msg := Or(update.message, UpdateFailedFallback);
          && error == Some(msg)
          && !loading
          && effects == old(effects) + [UpdateBudget(campaign.id, value.value)] + Reported(hasOnError, msg)
    {
      var budgetValue := parse(budget);
      if budgetValue.None? || budgetValue.value <= 0.0 {
        var msg := InvalidAmountMessage;
        error := Some(msg);
        if hasOnError {
          effects := effects + [OnError(msg)];
        }
        return;
      }
      loading := true;
      error := None;
      // try
      if isDaily {
        effects := effects + [UpdateBudget(campaign.id, budgetValue.value)];
      } else {
        var msg := LifetimeUnsupportedMessage;
        error := Some(msg);
        if hasOnError {
          effects := effects + [OnError(msg)];
        }
        loading := false;
        return;  // the `finally` block clears `loading` once more
      }
      if update.Ok? {
        effects := effects + [OnSave];
        effects := effects + [OnClose];
      } else {
        // catch
        var msg := Or(update.message, UpdateFailedFallback);
        error := Some(msg);
        if hasOnError {
          effects := effects + [OnError(msg)];
        }
      }
      // finally
      loading := false;
    }
  }

  /** Opening the modal on a listed campaign and saving: the budget update
      is requested only for a positive amount on a campaign listed with a
      daily budget, `onSave` is called only when that update succeeded,
      and it is always followed directly by `onClose`. */
  method SaveListedCampaign(raw: FacebookApi.RawCampaign, show: real -> string,
                            parse: string -> Option<real>, update: Result<bool>)
    returns (effects: seq<Effect>, loading: bool)
    ensures var value := parse(InitialBudgetText(FacebookApi.ShapeCampaign(raw), show));
      (exists k :: 0 <= k < |effects| && effects[k].UpdateBudget?)
        <==> value.Some? && value.value > 0.0 && raw.dailyBudget.Some? && raw.dailyBudget.value != 0
    ensures OnSave in effects <==>
      var value := parse(InitialBudgetText(FacebookApi.ShapeCampaign(raw), show));
      value.Some? && value.value > 0.0 && raw.dailyBudget.Some? && raw.dailyBudget.value != 0 && update.Ok?
    ensures forall k :: 0 <= k < |effects| && effects[k] == OnSave ==> k + 1 < |effects| && effects[k + 1] == OnClose
    ensures !loading
  {
    var campaign := FacebookApi.ShapeCampaign(raw);
    ListedCampaignStartsDailyIffItHasDailyBudget(raw);
    var modal := new Modal(campaign, true, show);
    modal.HandleSave(parse, update);
    effects, loading := modal.effects, modal.loading;
    if effects != [] && effects[0].UpdateBudget? {
      assert exists k :: 0 <= k < |effects| && effects[k].UpdateBudget?;
    }
  }
}
