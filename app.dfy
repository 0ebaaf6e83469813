/** The action callback of frontend/src/App.jsx: it turns a quick action and the
    submitted form values into one POST to the backend, and re-fetches the
    snapshot after a successful reply. The request body is what the ledger
    handlers of the backend destructure, so the composition lemmas at the end
    follow a request into the handler branch it reaches. */
module App {
  import opened Common
  import opened Ledger

  /** The selector state as `getNumericLocationId` returns it. */
  datatype LocationRef = AllLocations | Numeric(id: Option<int>)

  /** `getNumericLocationId`: "all" stays "all", anything else goes through
      `parseInt` (`None` is `NaN`). */
  function NumericLocationId(locId: string): (r: LocationRef)
    ensures r.AllLocations? <==> locId == "all"
    ensures r.Numeric? ==> r.id == ParseInt(locId)
  {
    if locId == "all" then AllLocations else Numeric(ParseInt(locId))
  }

  /** The JSON body of a request. `NaN` serializes as `null` and an undefined
      field is dropped, so both are `None` here. */
  datatype Body =
    | TruckBody(locationId: Option<int>, mode: string, truckType: Option<string>, transactionDate: Option<string>)
    | CustomBody(locationId: Option<int>, qty4x5: int, qty4x8: int, transactionDate: Option<string>)
    | SellBody(locationId: Option<int>, itemType: Option<string>, quantity: int, transactionDate: Option<string>)

  /** A POST to `http://localhost:4000/inventory` followed by `endpoint`. */
  datatype Request = Request(endpoint: string, body: Body)

  /** The request `handleAction` sends, if any. */
  function RequestFor(selected: string, actionId: Option<string>, values: map<string, string>): (r: Option<Request>)
    ensures r.Some? <==> selected != "all" && actionId.Some?
                         && actionId.value in {"fullTruck", "splitTruck", "custom", "sell"}
    ensures r.Some? ==> r.value.body.locationId == ParseInt(selected)
                        && r.value.body.transactionDate == Get(values, "transactionDate")
    ensures r.Some? ==> (r.value.endpoint == "/add-truck" <==> r.value.body.TruckBody?)
                        && (r.value.endpoint == "/add-custom" <==> r.value.body.CustomBody?)
                        && (r.value.endpoint == "/sell" <==> r.value.body.SellBody?)
  {
    if selected == "all" || actionId.None? then None
    else
      var location := ParseInt(selected);
      var date := Get(values, "transactionDate");
      match actionId.value
      case "fullTruck" => Some(Request("/add-truck", TruckBody(location, "full", Get(values, "truckType"), date)))
      case "splitTruck" => Some(Request("/add-truck", TruckBody(location, "split", None, date)))
      case "custom" => Some(Request("/add-custom", CustomBody(location, ParseIntOrZero(Get(values, "qty4x5")),
                                                              ParseIntOrZero(Get(values, "qty4x8")), date)))
      case "sell" => Some(Request("/sell", SellBody(location, Get(values, "itemType"),
                                                    ParseIntOrZero(Get(values, "quantity")), date)))
      case _ => None
  }

  /** `handleAction`: the "all" guard, the switch that fills in `endpoint` and
      `body`, the POST (its reply is `responseOk`), and the refresh. */
  method HandleAction(selected: string, actionId: Option<string>, values: map<string, string>, responseOk: bool)
    returns (alerted: bool, sent: Option<Request>, refreshed: bool)
    ensures alerted <==> selected == "all"
    ensures sent == RequestFor(selected, actionId, values)
    ensures refreshed <==> sent.Some? && responseOk
  {
    alerted, sent, refreshed := false, None, false;
    if selected == "all" {
      alerted := true;
      return;
    }
    var endpoint := "";
    var location := match NumericLocationId(selected) case Numeric(id) => id case AllLocations => None;
    var date := Get(values, "transactionDate");
    var body: Body;
    if actionId == Some("fullTruck") {
      endpoint := "/add-truck";
      body := TruckBody(location, "full", Get(values, "truckType"), date);
    } else if actionId == Some("splitTruck") {
      endpoint := "/add-truck";
      body := TruckBody(location, "split", None, date);
    } else if actionId == Some("custom") {
      endpoint := "/add-custom";
      body := CustomBody(location, ParseIntOrZero(Get(values, "qty4x5")), ParseIntOrZero(Get(values, "qty4x8")), date);
    } else if actionId == Some("sell") {
      endpoint := "/sell";
      body := SellBody(location, Get(values, "itemType"), ParseIntOrZero(Get(values, "quantity")), date);
    } else {
      return;
    }
    sent := Some(Request(endpoint, body));
    refreshed := responseOk;
  }

  // ---------------------------------------------------------------------------
  // Requests followed into the ledger handlers

  /** A 50/50 request never carries a truck type, so `addTruck` takes its split
      branch whatever the form held. */
  lemma SplitRequestTakesSplitBranch(selected: string, values: map<string, string>)
    requires selected != "all"
    ensures var r := RequestFor(selected, Some("splitTruck"), values);
            r.Some? && r.value.endpoint == "/add-truck" && r.value.body.mode == "split"
            && TruckQuantities(r.value.body.truckType) == [(S4x5, Split4x5), (S4x8, Split4x8)]
  {
  }

  /** A full-truck request after a type button was chosen adds one full truck
      of that type and nothing of the other. */
  lemma ChosenTruckTypeAddsOneSku(selected: string, values: map<string, string>)
    requires selected != "all" && "truckType" in values && values["truckType"] in {"4x5", "4x8"}
    ensures var r := RequestFor(selected, Some("fullTruck"), values);
            r.Some? && r.value.endpoint == "/add-truck" && r.value.body.mode == "full"
            && TruckQuantities(r.value.body.truckType)
               == if values["truckType"] == "4x5" then [(S4x5, FullTruck4x5)] else [(S4x8, FullTruck4x8)]
  {
  }

  /** As written, a full-truck form confirmed before a type is chosen sends no
      `truckType`, so the server records a 50/50 truck instead. */
  lemma FullTruckWithoutTypeAddsSplit(selected: string, values: map<string, string>)
    requires selected != "all" && "truckType" !in values
    ensures var r := RequestFor(selected, Some("fullTruck"), values);
            r.Some? && r.value.body.mode == "full"
            && TruckQuantities(r.value.body.truckType) == [(S4x5, Split4x5), (S4x8, Split4x8)]
  {
  }

  /** The request the dialog evidently means to send: a full truck is sent only
      once its type is one of the two SKUs; every other action is unchanged. */
  function CheckedRequestFor(selected: string, actionId: Option<string>, values: map<string, string>): (r: Option<Request>)
    ensures actionId != Some("fullTruck") ==> r == RequestFor(selected, actionId, values)
    ensures actionId == Some("fullTruck") && ResolveSku(Get(values, "truckType")).None? ==> r.None?
    ensures actionId == Some("fullTruck") && ResolveSku(Get(values, "truckType")).Some? ==>
              r == RequestFor(selected, actionId, values)
    ensures r.Some? && actionId == Some("fullTruck") ==>
              r.value.body.TruckBody? && r.value.body.mode == "full"
              && var q := TruckQuantities(r.value.body.truckType);
                 |q| == 1 && q[0].1 == (if q[0].0 == S4x5 then FullTruck4x5 else FullTruck4x8)
  {
    if actionId == Some("fullTruck") && ResolveSku(Get(values, "truckType")).None? then None
    else
      var r := RequestFor(selected, actionId, values);
      assert actionId == Some("fullTruck") && r.Some? ==>
               TruckQuantities(r.value.body.truckType)
               == [(ResolveSku(Get(values, "truckType")).value,
                    if ResolveSku(Get(values, "truckType")).value == S4x5 then FullTruck4x5 else FullTruck4x8)];
      r
  }

  /** The quantities a custom request carries are the parsed form fields, and
      they reach `addCustom` as its two updates. */
  lemma CustomRequestUpdates(selected: string, values: map<string, string>)
    requires selected != "all"
    ensures var r := RequestFor(selected, Some("custom"), values);
            r.Some? && r.value.endpoint == "/add-custom"
            && CustomUpdates(Some(r.value.body.qty4x5), Some(r.value.body.qty4x8))
               == [(S4x5, ParseIntOrZero(Get(values, "qty4x5"))), (S4x8, ParseIntOrZero(Get(values, "qty4x8")))]
  {
  }

  /** A sell request carries the chosen item type and the parsed quantity, 0
      when the field does not parse. */
  lemma SellRequestFields(selected: string, values: map<string, string>)
    requires selected != "all"
    ensures var r := RequestFor(selected, Some("sell"), values);
            r.Some? && r.value.endpoint == "/sell" && r.value.body.itemType == Get(values, "itemType")
            && r.value.body.quantity == ParseIntOrZero(Get(values, "quantity"))
            && ("quantity" !in values ==> r.value.body.quantity == 0)
  {
  }

  /** A location chosen in the selector (its id written in decimal) is sent
      back as that very id. */
  lemma {:induction false} SelectedIdRoundTrip(id: int, actionId: Option<string>, values: map<string, string>)
    ensures var r := RequestFor(DecimalString(id), actionId, values);
            r.Some? <==> actionId.Some? && actionId.value in {"fullTruck", "splitTruck", "custom", "sell"}
    ensures var r := RequestFor(DecimalString(id), actionId, values);
            r.Some? ==> r.value.body.locationId == Some(id)
  {
    ParseDecimalString(id);
    assert DecimalString(id) != "all" by {
      assert ParseInt("all") == None by { AllIsNotANumber(); }
    }
  }
}
