/** The filter panel of the transaction list
    (app/components/index/TransactionList/TransactionFilter.tsx): the badge
    counting the active filters of the applied options, the draft the modal
    edits, and its clear, apply and date handlers. The parent's callbacks
    are recorded as notices. */
module TransactionFilter {
  import opened JsValue
  import opened Transactions

  /** A call of one of the parent's callbacks. */
  datatype Notice = FilterChange(options: FilterOptions) | Applied

  function Indicator(b: bool): nat {
    if b then 1 else 0
  }

  /** The number of active filters: a type other than 'all', each date
      bound, and each non-blank amount bound. */
  function ActiveCount(f: FilterOptions): (r: nat)
    ensures r <= 5
    ensures r == 0 <==>
      !TypeFilterActive(f) && f.fromDate.None? && f.toDate.None? &&
      !AmountBoundActive(f.minAmount) && !AmountBoundActive(f.maxAmount)
  {
    Indicator(TypeFilterActive(f)) + Indicator(f.fromDate.Some?) + Indicator(f.toDate.Some?) +
    Indicator(AmountBoundActive(f.minAmount)) + Indicator(AmountBoundActive(f.maxAmount))
  }

  /** Sorting and the category never count. */
  lemma SortAndCategoryNotCounted(f: FilterOptions, sortBy: Option<SortKey>, sortOrder: Option<SortOrder>,
                                  category: Option<string>)
    ensures ActiveCount(f.(sortBy := sortBy, sortOrder := sortOrder, category := category)) == ActiveCount(f)
  {
  }

  /** An amount bound of white space only does not count. */
  lemma BlankAmountNotCounted(f: FilterOptions, blank: string)
    requires IsBlank(blank)
    ensures ActiveCount(f.(minAmount := Some(blank))) == ActiveCount(f.(minAmount := None))
    ensures ActiveCount(f.(maxAmount := Some(blank))) == ActiveCount(f.(maxAmount := None))
  {
  }

  /** The options `handleClearFilters` puts in the draft; the category the
      reset object lacks is gone too. */
  const ResetFilters: FilterOptions :=
    FilterOptions(Some(AllTypes), Some(ByDate), Some(Desc), None, None, Some(""), Some(""), None)

  lemma ResetCountsNothing()
    ensures ActiveCount(ResetFilters) == 0
  {
  }

  class FilterPanel {
    /** The `filterOptions` prop: the options the list applies. */
    var filterOptions: FilterOptions
    /** `tempFilters`: the draft the modal edits. */
    var draft: FilterOptions
    var modalVisible: bool
    var showFromPicker: bool
    var showToPicker: bool
    var activeCount: nat
    var notices: seq<Notice>

    /** The effect on `filterOptions` has run once the panel is shown. */
    predicate Valid()
      reads this
    {
      activeCount == ActiveCount(filterOptions)
    }

    constructor(filterOptions: FilterOptions)
      ensures Valid()
      ensures this.filterOptions == filterOptions && draft == filterOptions
      ensures !modalVisible && !showFromPicker && !showToPicker && notices == []
    {
      this.filterOptions := filterOptions;
      draft := filterOptions;
      modalVisible := false;
      showFromPicker := false;
      showToPicker := false;
      notices := [];
      activeCount := 0;
      new;
      CountActiveFilters();
    }

    /** The counting effect: one increment per active criterion of the
        applied options. */
    method CountActiveFilters()
      modifies this
      ensures Valid()
      ensures filterOptions == old(filterOptions) && draft == old(draft) && notices == old(notices)
      ensures modalVisible == old(modalVisible) && showFromPicker == old(showFromPicker) && showToPicker == old(showToPicker)
    {
      var count: nat := 0;
      if TypeFilterActive(filterOptions) { count := count + 1; }
      if filterOptions.fromDate.Some? { count := count + 1; }
      if filterOptions.toDate.Some? { count := count + 1; }
      if AmountBoundActive(filterOptions.minAmount) { count := count + 1; }
      if AmountBoundActive(filterOptions.maxAmount) { count := count + 1; }
      activeCount := count;
    }

    /** A new `filterOptions` prop from the parent: the badge is recounted,
        but the draft, initialised once from the first prop, stays. */
    method ReceiveOptions(options: FilterOptions)
      modifies this
      ensures Valid()
      ensures filterOptions == options && draft == old(draft) && notices == old(notices)
      ensures modalVisible == old(modalVisible) && showFromPicker == old(showFromPicker) && showToPicker == old(showToPicker)
    {
      filterOptions := options;
      CountActiveFilters();
    }

    method OpenModal()
      modifies this
      ensures modalVisible
      ensures filterOptions == old(filterOptions) && draft == old(draft) && notices == old(notices)
      ensures activeCount == old(activeCount)
      ensures showFromPicker == old(showFromPicker) && showToPicker == old(showToPicker)
    {
      modalVisible := true;
    }

    method CloseModal()
      modifies this
      ensures !modalVisible
      ensures filterOptions == old(filterOptions) && draft == old(draft) && notices == old(notices)
      ensures activeCount == old(activeCount)
      ensures showFromPicker == old(showFromPicker) && showToPicker == old(showToPicker)
    {
      modalVisible := false;
    }

    /** `handleClearFilters`: only the draft is reset; the parent is not
        told, so the applied options and the badge are unchanged. */
    method ClearFilters()
      modifies this
      ensures draft == ResetFilters
      ensures filterOptions == old(filterOptions) && notices == old(notices) && activeCount == old(activeCount)
      ensures modalVisible == old(modalVisible)
      ensures showFromPicker == old(showFromPicker) && showToPicker == old(showToPicker)
    {
      draft := ResetFilters;
    }

    /** `handleApplyFilters`: the draft goes to `onFilterChange`, the modal
        closes, then `onApply` runs. */
    method ApplyFilters()
      modifies this
      ensures notices == old(notices) + [FilterChange(old(draft)), Applied]
      ensures !modalVisible
      ensures draft == old(draft) && filterOptions == old(filterOptions) && activeCount == old(activeCount)
    {
      notices := notices + [FilterChange(draft)];
      modalVisible := false;
      notices := notices + [Applied];
    }

    /** `handleFromDateChange`: the picker closes; a chosen date replaces
        only the draft's lower bound. */
    method FromDateChange(selected: Option<Moment>)
      modifies this
      ensures !showFromPicker && showToPicker == old(showToPicker)
      ensures selected.None? ==> draft == old(draft)
      ensures selected.Some? ==> draft == old(draft).(fromDate := selected)
      ensures filterOptions == old(filterOptions) && notices == old(notices) && activeCount == old(activeCount)
    {
      showFromPicker := false;
      if selected.Some? {
        draft := draft.(fromDate := selected);
      }
    }

    /** `handleToDateChange`, the same for the upper bound. */
    method ToDateChange(selected: Option<Moment>)
      modifies this
      ensures !showToPicker && showFromPicker == old(showFromPicker)
      ensures selected.None? ==> draft == old(draft)
      ensures selected.Some? ==> draft == old(draft).(toDate := selected)
      ensures filterOptions == old(filterOptions) && notices == old(notices) && activeCount == old(activeCount)
    {
      showToPicker := false;
      if selected.Some? {
        draft := draft.(toDate := selected);
      }
    }
  }

  /** Clearing and then applying hands the parent the reset options, which
      count no active filter once they come back as the prop. */
  method ClearThenApply(panel: FilterPanel)
    modifies panel
    ensures panel.notices == old(panel.notices) + [FilterChange(ResetFilters), Applied]
    ensures panel.activeCount == 0 && panel.Valid()
  {
    panel.ClearFilters();
    panel.ApplyFilters();
    panel.ReceiveOptions(ResetFilters);
  }
}
