/** src/components/StatusToggle.tsx: the click handler and the `disabled`
    attribute of the ACTIVE/PAUSED switch. */
module StatusToggle {
  import opened Common
  import opened Types

  /** The button's `disabled` attribute; an absent `disabled` prop is `false`. */
  predicate IsDisabled(status: CampaignStatus, disabled: bool)
  {
    disabled || status == ARCHIVED || status == DELETED
  }

  /** `handleToggle`: the status passed to `onChange`, or `None` when
      `onChange` is not called. */
  function HandleToggle(status: CampaignStatus, disabled: bool): (emitted: Option<ToggleStatus>)
    ensures emitted.None? <==> IsDisabled(status, disabled)
    ensures emitted.Some? ==> emitted.value != status
    ensures emitted.Some? && status == ACTIVE ==> emitted.value == PAUSED
    ensures emitted.Some? && status == PAUSED ==> emitted.value == ACTIVE
  {
    var isActive := status == ACTIVE;
    if disabled || status == ARCHIVED || status == DELETED then None
    else Some(if isActive then PAUSED else ACTIVE)
  }

  /** Applying the emitted status and clicking again gives back the
      original status. */
  lemma ToggleTwiceRestores(status: ToggleStatus)
    ensures HandleToggle(status, false).Some?
    ensures HandleToggle(HandleToggle(status, false).value, false) == Some(status)
  {
  }
}
