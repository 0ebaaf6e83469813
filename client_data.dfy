/** The snapshot as the client receives it: the JSON body of `GET /inventory`,
    shared by the quick-action dialog, the transactions table and the KPI
    cards. Every field the server may send as `null` is optional here. */
module ClientData {
  import opened Common

  /** One object of a location's `items` array. */
  datatype ClientItem = ClientItem(sku: Option<string>, quantity: Option<int>)

  /** One object of a location's `transactions` array. Dates arrive as strings. */
  datatype ClientTx = ClientTx(qty4x5: Option<int>, qty4x8: Option<int>, txType: string,
                               date: Option<string>, createdAt: string)

  datatype ClientLocation = ClientLocation(id: int, name: string, items: Option<seq<ClientItem>>,
                                           inventoryValueCents: Option<int>, profitCents: Option<int>,
                                           transactions: Option<seq<ClientTx>>)

  /** The response object `{ locations }`. */
  datatype Data = Data(locations: Option<seq<ClientLocation>>)

  /** `items.find((i) => i.sku === sku)?.quantity || 0`: the quantity of the
      first item with that SKU, 0 when there is none or its quantity is null. */
  function FirstQuantity(items: seq<ClientItem>, sku: string): (r: int)
    ensures (forall i :: 0 <= i < |items| ==> items[i].sku != Some(sku)) ==> r == 0
    ensures forall i :: 0 <= i < |items| && items[i].sku == Some(sku)
                        && (forall j :: 0 <= j < i ==> items[j].sku != Some(sku))
                        ==> r == items[i].quantity.GetOr(0)
  {
    if items == [] then 0
    else if items[0].sku == Some(sku) then items[0].quantity.GetOr(0)
    else
      var r := FirstQuantity(items[1..], sku);
      assert forall i :: 1 <= i < |items| ==> items[1..][i - 1] == items[i];
      r
  }

  /** `locations.find((l) => l.id === id)`; a `None` id stands for `NaN`,
      which equals no id. */
  function FindLocation(locations: seq<ClientLocation>, id: Option<int>): (r: Option<ClientLocation>)
    ensures r.Some? ==> r.value in locations && Some(r.value.id) == id
    ensures r.None? <==> forall l :: l in locations ==> Some(l.id) != id
    ensures r.Some? ==> exists i :: 0 <= i < |locations| && locations[i] == r.value
                                    && forall j :: 0 <= j < i ==> Some(locations[j].id) != id
  {
    if locations == [] then None
    else if Some(locations[0].id) == id then Some(locations[0])
    else
      var r := FindLocation(locations[1..], id);
      assert r.Some? ==> exists i :: 1 <= i < |locations| && locations[i] == r.value
                                     && forall j :: 0 <= j < i ==> Some(locations[j].id) != id by {
        if r.Some? {
          var i :| 0 <= i < |locations[1..]| && locations[1..][i] == r.value
                   && forall j :: 0 <= j < i ==> Some(locations[1..][j].id) != id;
          assert forall j :: 1 <= j < i + 1 ==> Some(locations[j].id) != id by {
            forall j | 1 <= j < i + 1 ensures Some(locations[j].id) != id {
              assert locations[j] == locations[1..][j - 1];
            }
          }
        }
      }
      r
  }
}
