/**
 * The add/trade/edit dialog. Its state (the selected tab and the form
 * inputs) decides which request reaches the ledger: a market-value
 * correction, or a submission that creates an asset, records a buy or sell,
 * or saves the asset's settings.
 */
module Modal {
  import opened Types

  datatype ModalTab = TransactionTab | SettingsTab | ValueUpdateTab

  /** The asset part of a submission; `id` is absent when the dialog was opened without an asset. */
  datatype AssetData = AssetData(
    id: Option<string>,
    name: string,
    code: string,
    investmentDirection: string,
    targetAmount: real)

  /** The trade part of a submission. */
  datatype TransactionData = TransactionData(txType: TransactionType, amount: real, date: string)

  /** The request handed to the ledger's submission handler. */
  datatype SubmitData = SubmitData(
    isNewAsset: bool,
    isSettingsUpdate: bool,
    assetData: AssetData,
    transactionData: Option<TransactionData>)

  /** The callback a form submission invokes. */
  datatype Dispatch = UpdateValue(assetId: string, newValue: real) | Submit(data: SubmitData)

  /** A change the user types into one input; a number input may be left blank (`None`). */
  datatype Edit =
    | NameInput(text: string)
    | CodeInput(text: string)
    | DirectionInput(text: string)
    | TargetInput(number: Option<real>)
    | AmountInput(number: Option<real>)
    | DateInput(text: string)
    | NewValueInput(number: Option<real>)

  /** Reading a number input: a blank input reads as 0. */
  function NumberOf(field: Option<real>): real {
    field.GetOr(0.0)
  }

  class TransactionModal {
    // Properties passed in by the dashboard.
    var isOpen: bool
    var initialAsset: Option<Asset>

    // Form state.
    var activeTab: ModalTab
    var amount: Option<real>
    var transactionType: TransactionType
    var date: string
    var name: string
    var code: string
    var direction: string
    var targetAmount: Option<real>
    var newValue: Option<real>

    /**
     * A dialog open for a new asset is on the trade tab with a buy selected:
     * the new-asset form shows neither the tab bar nor the buy/sell toggle.
     */
    ghost predicate Valid()
      reads this
    {
      isOpen && initialAsset.None? ==> activeTab == TransactionTab && transactionType == Buy
    }

    /** Mounting: the initial form state, then the open effect. */
    constructor (isOpen: bool, initialAsset: Option<Asset>, today: string)
      ensures Valid()
      ensures this.isOpen == isOpen && this.initialAsset == initialAsset
      ensures activeTab == TransactionTab && date == today
      ensures transactionType == Buy && amount == None
      ensures !isOpen || initialAsset.None? ==>
                name == "" && code == "" && direction == "" && targetAmount == None && newValue == None
      ensures isOpen && initialAsset.Some? ==>
                var a := initialAsset.value;
                && name == a.name && code == a.code.GetOr("") && direction == a.investmentDirection
                && targetAmount == Some(a.targetAmount) && newValue == Some(a.currentValue)
    {
      this.isOpen := isOpen;
      this.initialAsset := initialAsset;
      activeTab := TransactionTab;
      amount := None;
      transactionType := Buy;
      date := today;
      name := "";
      code := "";
      direction := "";
      targetAmount := None;
      newValue := None;
      new;
      OpenEffect(today);
    }

    /** The effect that runs when the dialog opens or its asset changes. */
    method OpenEffect(today: string)
      modifies this
      ensures Valid()
      ensures isOpen == old(isOpen) && initialAsset == old(initialAsset)
      ensures !isOpen ==> unchanged(this)
      ensures isOpen && initialAsset.Some? ==>
                var a := initialAsset.value;
                && name == a.name && code == a.code.GetOr("") && direction == a.investmentDirection
                && targetAmount == Some(a.targetAmount) && newValue == Some(a.currentValue)
                && activeTab == TransactionTab && date == today
                && amount == old(amount) && transactionType == old(transactionType)
      ensures isOpen && initialAsset.None? ==>
                && name == "" && code == "" && direction == "" && targetAmount == None && amount == None
                && transactionType == Buy && activeTab == TransactionTab && date == today
                && newValue == old(newValue)
    {
      if isOpen {
        match initialAsset {
          case Some(a) =>
            name := a.name;
            code := a.code.GetOr("");
            direction := a.investmentDirection;
            targetAmount := Some(a.targetAmount);
            newValue := Some(a.currentValue);
            activeTab := TransactionTab;
          case None =>
            name := "";
            code := "";
            direction := "";
            targetAmount := None;
            amount := None;
            transactionType := Buy;
            activeTab := TransactionTab;
        }
        date := today;
      }
    }

    /** The dashboard re-renders the dialog; the open effect runs when either property changed. */
    method ReceiveProps(open: bool, asset: Option<Asset>, today: string)
      requires Valid()
      modifies this
      ensures Valid()
      ensures isOpen == open && initialAsset == asset
      ensures open == old(isOpen) && asset == old(initialAsset) ==> unchanged(this)
      ensures (open != old(isOpen) || asset != old(initialAsset)) && !open ==>
                && activeTab == old(activeTab) && amount == old(amount) && transactionType == old(transactionType)
                && date == old(date) && name == old(name) && code == old(code) && direction == old(direction)
                && targetAmount == old(targetAmount) && newValue == old(newValue)
      ensures (open != old(isOpen) || asset != old(initialAsset)) && open && asset.Some? ==>
                var a := asset.value;
                && name == a.name && code == a.code.GetOr("") && direction == a.investmentDirection
                && targetAmount == Some(a.targetAmount) && newValue == Some(a.currentValue)
                && activeTab == TransactionTab && date == today
                && amount == old(amount) && transactionType == old(transactionType)
      ensures (open != old(isOpen) || asset != old(initialAsset)) && open && asset.None? ==>
                && name == "" && code == "" && direction == "" && targetAmount == None && amount == None
                && transactionType == Buy && activeTab == TransactionTab && date == today
                && newValue == old(newValue)
    {
      if open != isOpen || asset != initialAsset {
        isOpen, initialAsset := open, asset;
        OpenEffect(today);
      }
    }

    /** Typing into one input. */
    method Apply(e: Edit)
      requires Valid()
      modifies this
      ensures Valid()
      ensures isOpen == old(isOpen) && initialAsset == old(initialAsset)
      ensures activeTab == old(activeTab) && transactionType == old(transactionType)
      ensures name == (if e.NameInput? then e.text else old(name))
      ensures code == (if e.CodeInput? then e.text else old(code))
      ensures direction == (if e.DirectionInput? then e.text else old(direction))
      ensures targetAmount == (if e.TargetInput? then e.number else old(targetAmount))
      ensures amount == (if e.AmountInput? then e.number else old(amount))
      ensures date == (if e.DateInput? then e.text else old(date))
      ensures newValue == (if e.NewValueInput? then e.number else old(newValue))
    {
      match e {
        case NameInput(t) => name := t;
        case CodeInput(t) => code := t;
        case DirectionInput(t) => direction := t;
        case TargetInput(n) => targetAmount := n;
        case AmountInput(n) => amount := n;
        case DateInput(t) => date := t;
        case NewValueInput(n) => newValue := n;
      }
    }

    /** Clicking a tab; the tab bar is shown only for an existing asset. */
    method SelectTab(tab: ModalTab)
      requires Valid() && isOpen && initialAsset.Some?
      modifies this`activeTab
      ensures Valid() && activeTab == tab
    {
      activeTab := tab;
    }

    /** Clicking buy or sell; the toggle is shown only on the trade tab of an existing asset. */
    method SelectType(t: TransactionType)
      requires Valid() && isOpen && initialAsset.Some? && activeTab == TransactionTab
      modifies this`transactionType
      ensures Valid() && transactionType == t
    {
      transactionType := t;
    }

    /**
     * Leaving the name input of the new-asset form. A category is asked for
     * only for a new asset whose name is longer than two characters and whose
     * direction is still empty; `suggestion` is the answer of the category
     * service, and a non-empty answer becomes the direction.
     */
    method NameBlur(suggestion: string) returns (requested: bool)
      requires Valid()
      modifies this`direction
      ensures Valid()
      ensures requested <==> initialAsset.None? && |name| > 2 && old(direction) == ""
      ensures direction == (if requested && suggestion != "" then suggestion else old(direction))
    {
      requested := initialAsset.None? && |name| > 2 && direction == "";
      if requested {
        if suggestion != "" {
          direction := suggestion;
        }
      }
    }

    /** Submitting the form: which callback is invoked, with what. */
    function HandleSubmit(): (d: Dispatch)
      reads this
      ensures d.UpdateValue? <==> activeTab == ValueUpdateTab && initialAsset.Some?
      ensures d.UpdateValue? ==> d.assetId == initialAsset.value.id && d.newValue == NumberOf(newValue)
      ensures d.Submit? ==>
                && (d.data.isNewAsset <==> initialAsset.None?)
                && (d.data.isSettingsUpdate <==> activeTab == SettingsTab)
                && (d.data.transactionData.Some? <==> activeTab == TransactionTab)
                && d.data.assetData
                   == AssetData(if initialAsset.Some? then Some(initialAsset.value.id) else None,
                                name, code, direction, NumberOf(targetAmount))
                && (d.data.transactionData.Some? ==>
                      d.data.transactionData.value == TransactionData(transactionType, NumberOf(amount), date))
    {
      if activeTab == ValueUpdateTab && initialAsset.Some? then
        UpdateValue(initialAsset.value.id, NumberOf(newValue))
      else
        Submit(SubmitData(
          initialAsset.None?,
          activeTab == SettingsTab,
          AssetData(
            if initialAsset.Some? then Some(initialAsset.value.id) else None,
            name, code, direction, NumberOf(targetAmount)),
          if activeTab == TransactionTab then Some(TransactionData(transactionType, NumberOf(amount), date)) else None))
    }

    /** The delete button: the asset to delete, if there is one and the user confirmed. */
    function HandleDelete(confirmed: bool): (target: Option<string>)
      reads this
      ensures target.Some? <==> initialAsset.Some? && confirmed
      ensures target.Some? ==> target.value == initialAsset.value.id
    {
      if initialAsset.Some? && confirmed then Some(initialAsset.value.id) else None
    }
  }

  /**
   * What an open, consistent dialog can submit: a settings save never carries
   * a trade, a trade is never a settings save, a new asset always comes with
   * an initial buy, and an existing asset always comes with its id.
   */
  lemma SubmissionShapes(m: TransactionModal)
    requires m.Valid() && m.isOpen
    ensures var d := m.HandleSubmit();
            d.Submit? ==>
              && (d.data.isSettingsUpdate <==> d.data.transactionData.None?)
              && (d.data.isNewAsset ==> !d.data.isSettingsUpdate && d.data.transactionData.value.txType == Buy)
              && (!d.data.isNewAsset ==> d.data.assetData.id.Some?)
  {
  }
}
