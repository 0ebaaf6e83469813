/** The quick-action dialogs of frontend/src/components/QuickActions.jsx: which
    actions are offered, the stock the sell form shows, the over-sell warning,
    and the dialog state (the six `useState` fields) as updated by the button
    clicks, the sell form's change handler, submit and close. The DOM reads of
    the sell form's two fields and `new Date()` are explicit inputs. */
module QuickActions {
  import opened Common
  import opened ClientData
  import App
  import Ledger

  /** The four dialogs, in display order. */
  const Actions: seq<string> := ["fullTruck", "splitTruck", "custom", "sell"]

  /** `selectedLocation && selectedLocation !== "all"`. */
  predicate IsLocationSelected(selected: string) {
    selected != "" && selected != "all"
  }

  /** The action buttons rendered: all four, or none without a specific location. */
  function OfferedActions(selected: string): (r: seq<string>)
    ensures r == [] <==> !IsLocationSelected(selected)
    ensures r != [] ==> r == Actions
  {
    if IsLocationSelected(selected) then Actions else []
  }

  /** `getCurrentInventory`: the stock of the selected location per SKU name. */
  function CurrentInventory(data: Option<Data>, selected: string): (r: map<string, int>)
    ensures r == map[] <==>
              !(data.Some? && data.value.locations.Some? && IsLocationSelected(selected)
                && var l := FindLocation(data.value.locations.value, ParseInt(selected));
                   l.Some? && l.value.items.Some?)
    ensures r != map[] ==>
              var l := FindLocation(data.value.locations.value, ParseInt(selected)).value;
              r.Keys == {"4x5", "4x8"}
              && r["4x5"] == FirstQuantity(l.items.value, "4x5")
              && r["4x8"] == FirstQuantity(l.items.value, "4x8")
  {
    if data.None? || data.value.locations.None? || !IsLocationSelected(selected) then map[]
    else
      match FindLocation(data.value.locations.value, ParseInt(selected))
      case None => map[]
      case Some(l) =>
        if l.items.None? then map[]
        else
          var r := map["4x5" := FirstQuantity(l.items.value, "4x5"), "4x8" := FirstQuantity(l.items.value, "4x8")];
          assert "4x5" in r;
          r
  }

  /** The stock the warning compares against: `inventory[itemType] || 0`. */
  function Available(inventory: map<string, int>, itemType: string): int {
    if itemType in inventory then inventory[itemType] else 0
  }

  /** The warning rule of `handleSellChange`: the available count to show when
      the entered quantity (0 when it does not parse) exceeds the stock of the
      chosen SKU ("4x5" when none is chosen), and no warning otherwise. */
  function SellWarning(quantityField: Option<string>, itemTypeField: Option<string>, inventory: map<string, int>): (r: Option<int>)
    ensures var available := Available(inventory, OrElse(itemTypeField, "4x5"));
            (r.Some? <==> ParseIntOrZero(quantityField) > available)
            && (r.Some? ==> r.value == available)
  {
    var quantity := ParseIntOrZero(quantityField);
    var itemType := OrElse(itemTypeField, "4x5");
    if quantity > Available(inventory, itemType) then Some(Available(inventory, itemType)) else None
  }

  /** Against a location whose items list the SKU, the warning appears exactly
      when more than its listed quantity is entered. */
  lemma WarningAgainstListedStock(data: Data, selected: string, quantityField: Option<string>, sku: string)
    requires sku in {"4x5", "4x8"} && IsLocationSelected(selected) && data.locations.Some?
    requires var l := FindLocation(data.locations.value, ParseInt(selected));
             l.Some? && l.value.items.Some?
    ensures var l := FindLocation(data.locations.value, ParseInt(selected)).value;
            var w := SellWarning(quantityField, Some(sku), CurrentInventory(Some(data), selected));
            w.Some? <==> ParseIntOrZero(quantityField) > FirstQuantity(l.items.value, sku)
  {
  }

  /** With no location data the available stock is 0, so any positive entry warns. */
  lemma NoDataWarnsOnAnySale(selected: string, quantityField: Option<string>, itemTypeField: Option<string>)
    ensures SellWarning(quantityField, itemTypeField, CurrentInventory(None, selected)).Some?
            <==> ParseIntOrZero(quantityField) > 0
  {
  }

  /** The form values a full-truck dialog submits: the hidden `truckType` input
      exists only once a type button was chosen, the date input always. */
  function TruckFormValues(truckType: Option<string>, transactionDate: string): (r: map<string, string>)
    ensures "truckType" in r <==> Truthy(truckType)
    ensures "truckType" in r ==> r["truckType"] == truckType.value
    ensures "transactionDate" in r && r["transactionDate"] == transactionDate
  {
    if Truthy(truckType) then map["truckType" := truckType.value, "transactionDate" := transactionDate]
    else map["transactionDate" := transactionDate]
  }

  /** A call of `onAction(currentAction, values)`. */
  datatype ActionCall = ActionCall(actionId: Option<string>, values: map<string, string>)

  class ActionDialog {
    var currentAction: Option<string>
    var truckType: Option<string>
    /** The available count the warning text shows; `None` is no warning. */
    var sellWarning: Option<int>
    var sellConfirmed: bool
    var selectedItemType: string
    var transactionDate: string

    /** The state every reset returns to; `today` is the date part of `new Date()`. */
    predicate IsInitial(today: string)
      reads this
    {
      currentAction == None && truckType == None && sellWarning == None && !sellConfirmed
      && selectedItemType == "4x5" && transactionDate == today
    }

    constructor (today: string)
      ensures IsInitial(today)
    {
      currentAction := None;
      truckType := None;
      sellWarning := None;
      sellConfirmed := false;
      selectedItemType := "4x5";
      transactionDate := today;
    }

    /** Clicking an action button opens its dialog. */
    method Open(actionId: string)
      modifies this
      ensures currentAction == Some(actionId)
      ensures truckType == old(truckType) && sellWarning == old(sellWarning) && sellConfirmed == old(sellConfirmed)
      ensures selectedItemType == old(selectedItemType) && transactionDate == old(transactionDate)
    {
      currentAction := Some(actionId);
    }

    /** The "Full 4x5" / "Full 4x8" buttons. */
    method ChooseTruckType(choice: string)
      modifies this
      ensures truckType == Some(choice)
      ensures currentAction == old(currentAction) && sellWarning == old(sellWarning) && sellConfirmed == old(sellConfirmed)
      ensures selectedItemType == old(selectedItemType) && transactionDate == old(transactionDate)
    {
      truckType := Some(choice);
    }

    /** The date input. */
    method ChangeDate(date: string)
      modifies this
      ensures transactionDate == date
      ensures currentAction == old(currentAction) && truckType == old(truckType) && sellWarning == old(sellWarning)
      ensures sellConfirmed == old(sellConfirmed) && selectedItemType == old(selectedItemType)
    {
      transactionDate := date;
    }

    /** The values the open dialog's form submits when it is a full truck. */
    function FullTruckValues(): (r: map<string, string>)
      reads this
      ensures "truckType" in r <==> Truthy(truckType)
    {
      TruckFormValues(truckType, transactionDate)
    }

    /** `handleSellChange`: a change of the item select or the quantity field.
        `quantityField` and `itemTypeField` are the two fields' current values. */
    method SellChange(name: string, value: string, quantityField: Option<string>, itemTypeField: Option<string>,
                      inventory: map<string, int>)
      modifies this
      ensures selectedItemType == if name == "itemType" then value else old(selectedItemType)
      ensures sellWarning == SellWarning(quantityField, itemTypeField, inventory)
      ensures currentAction == old(currentAction) && truckType == old(truckType)
      ensures sellConfirmed == old(sellConfirmed) && transactionDate == old(transactionDate)
    {
      if name == "itemType" {
        selectedItemType := value;
      }
      sellWarning := SellWarning(quantityField, itemTypeField, inventory);
    }

    /** Puts the six fields back to their initial values. */
    method Reset(today: string)
      modifies this
      ensures IsInitial(today)
    {
      currentAction := None;
      truckType := None;
      sellWarning := None;
      sellConfirmed := false;
      selectedItemType := "4x5";
      transactionDate := today;
    }

    /** `handleSubmit`. A sale under a warning that is not yet confirmed only
        becomes confirmed. Otherwise `onAction` is called when there is one
        (`hasHandler`) and the dialog is reset, unless the call rejects
        (`handlerRejects`), in which case nothing changes. */
    method Submit(values: map<string, string>, hasHandler: bool, handlerRejects: bool, today: string)
      returns (call: Option<ActionCall>)
      modifies this
      ensures old(currentAction == Some("sell") && sellWarning.Some? && !sellConfirmed) ==>
                call.None? && sellConfirmed
                && currentAction == old(currentAction) && truckType == old(truckType) && sellWarning == old(sellWarning)
                && selectedItemType == old(selectedItemType) && transactionDate == old(transactionDate)
      ensures !old(currentAction == Some("sell") && sellWarning.Some? && !sellConfirmed) ==>
                (call.Some? <==> hasHandler)
                && (call.Some? ==> call.value == ActionCall(old(currentAction), values))
                && (hasHandler && handlerRejects ==> unchanged(this))
                && (!(hasHandler && handlerRejects) ==> IsInitial(today))
    {
      if currentAction == Some("sell") && sellWarning.Some? && !sellConfirmed {
        sellConfirmed := true;
        return None;
      }
      call := None;
      if hasHandler {
        call := Some(ActionCall(currentAction, values));
        if handlerRejects {
          return;
        }
      }
      Reset(today);
    }

    /** `onOpenChange`: closing the dialog resets it, opening changes nothing. */
    method OpenChange(open: bool, today: string)
      modifies this
      ensures !open ==> IsInitial(today)
      ensures open ==> unchanged(this)
    {
      if !open {
        Reset(today);
      }
    }
  }

  /** Selling more than the stock: the first confirm only arms the
      confirmation, and the second one calls `onAction` with the form values. */
  method OverSellNeedsTwoConfirms(today: string, quantity: int, stock: int)
    returns (first: Option<ActionCall>, second: Option<ActionCall>)
    requires quantity > stock
    ensures first.None?
    ensures second == Some(ActionCall(Some("sell"),
              map["itemType" := "4x5", "quantity" := DecimalString(quantity), "transactionDate" := today]))
  {
    var dialog := new ActionDialog(today);
    dialog.Open("sell");
    var text := DecimalString(quantity);
    var values := map["itemType" := "4x5", "quantity" := text, "transactionDate" := today];
    ParseDecimalString(quantity);
    dialog.SellChange("quantity", text, Some(text), Some("4x5"), map["4x5" := stock, "4x8" := 0]);
    first := dialog.Submit(values, true, false, today);
    second := dialog.Submit(values, true, false, today);
  }

  /** A full-truck dialog confirmed without choosing a type, taken through the
      request builder: the backend is asked for a 50/50 truck. */
  method ConfirmFullTruckWithoutType(selected: string, today: string) returns (request: Option<App.Request>)
    requires selected != "all"
    ensures request.Some? && request.value.body.TruckBody? && request.value.body.mode == "full"
    ensures Ledger.TruckQuantities(request.value.body.truckType)
            == [(Ledger.S4x5, Ledger.Split4x5), (Ledger.S4x8, Ledger.Split4x8)]
  {
    var dialog := new ActionDialog(today);
    dialog.Open("fullTruck");
    var values := dialog.FullTruckValues();
    var call := dialog.Submit(values, true, false, today);
    var alerted, refreshed;
    alerted, request, refreshed := App.HandleAction(selected, call.value.actionId, call.value.values, true);
    App.FullTruckWithoutTypeAddsSplit(selected, values);
  }
}
