/** The KPI cards of frontend/src/components/KPICards.jsx: the locations in
    view, and four totals over them (inventory value and profit in cents, and
    the sheets of each SKU). Dividing cents by 100 and locale formatting are
    display only and left out, so values stay integers. */
module KpiCards {
  import opened Common
  import opened ClientData

  datatype Kpi = Kpi(id: string, title: string, value: int)

  /** What the component renders. */
  datatype Screen = Loading | NoData | Cards(kpis: seq<Kpi>)

  /** `locations.filter((l) => l.id === id)`; a `None` id (`NaN`) keeps nothing. */
  function WithId(locations: seq<ClientLocation>, id: Option<int>): (r: seq<ClientLocation>)
    ensures forall l :: l in r <==> l in locations && Some(l.id) == id
    ensures |r| <= |locations|
  {
    if locations == [] then []
    else (if Some(locations[0].id) == id then [locations[0]] else []) + WithId(locations[1..], id)
  }

  /** `filteredLocations`: every location for "all", otherwise those whose id
      equals `parseInt(selected)`. */
  function FilteredLocations(locations: seq<ClientLocation>, selected: string): (r: seq<ClientLocation>)
    ensures selected == "all" ==> r == locations
    ensures forall l :: l in r <==> l in locations && (selected == "all" || Some(l.id) == ParseInt(selected))
  {
    if selected == "all" then locations else WithId(locations, ParseInt(selected))
  }

  /** `l.inventory_value_cents || 0`. */
  function ValueOf(l: ClientLocation): int {
    l.inventoryValueCents.GetOr(0)
  }

  /** `l.profit_cents || 0`. */
  function ProfitOf(l: ClientLocation): int {
    l.profitCents.GetOr(0)
  }

  /** `l.items?.find((i) => i.sku === "4x5")?.quantity || 0`. */
  function Sheets4x5(l: ClientLocation): int {
    if l.items.Some? then FirstQuantity(l.items.value, "4x5") else 0
  }

  function Sheets4x8(l: ClientLocation): int {
    if l.items.Some? then FirstQuantity(l.items.value, "4x8") else 0
  }

  /** The four cards, in display order, over the given locations. */
  function Kpis(locations: seq<ClientLocation>): (r: seq<Kpi>)
    ensures |r| == 4
    ensures r[0].id == "inventory_value" && r[1].id == "profit_today" && r[2].id == "total_4x5" && r[3].id == "total_4x8"
  {
    [Kpi("inventory_value", "Inventory Value", SumOf(locations, ValueOf)),
     Kpi("profit_today", "Profit Today", SumOf(locations, ProfitOf)),
     Kpi("total_4x5", "Total 4x5 Sheets", SumOf(locations, Sheets4x5)),
     Kpi("total_4x8", "Total 4x8 Sheets", SumOf(locations, Sheets4x8))]
  }

  /** The component: loading wins over missing data; `data.locations || []`. */
  function Render(loading: bool, data: Option<Data>, selected: string): (s: Screen)
    ensures loading ==> s == Loading
    ensures !loading && data.None? ==> s == NoData
    ensures s.Cards? <==> !loading && data.Some?
    ensures s.Cards? ==> |s.kpis| == 4
  {
    if loading then Loading
    else if data.None? then NoData
    else Cards(Kpis(FilteredLocations(data.value.locations.GetOr([]), selected)))
  }

  /** The totals of two groups of locations together are the sums of their totals. */
  lemma KpisAdditive(a: seq<ClientLocation>, b: seq<ClientLocation>)
    ensures forall n :: 0 <= n < 4 ==> Kpis(a + b)[n].value == Kpis(a)[n].value + Kpis(b)[n].value
  {
    SumOfConcat(a, b, ValueOf);
    SumOfConcat(a, b, ProfitOf);
    SumOfConcat(a, b, Sheets4x5);
    SumOfConcat(a, b, Sheets4x8);
  }

  lemma {:induction false} WithIdNone(locations: seq<ClientLocation>, id: Option<int>)
    requires forall l :: l in locations ==> Some(l.id) != id
    ensures WithId(locations, id) == []
  {
    if locations != [] {
      assert locations[0] in locations;
      WithIdNone(locations[1..], id);
    }
  }

  lemma FirstIdUnique(locations: seq<ClientLocation>)
    requires locations != []
    requires forall m, n :: 0 <= m < n < |locations| ==> locations[m].id != locations[n].id
    ensures forall x :: x in locations[1..] ==> Some(x.id) != Some(locations[0].id)
  {
    forall x | x in locations[1..]
      ensures Some(x.id) != Some(locations[0].id)
    {
      var n :| 0 <= n < |locations[1..]| && locations[1..][n] == x;
      assert locations[n + 1] == x;
    }
  }

  /** With distinct ids, keeping the id of location `i` keeps just that location. */
  lemma {:induction false} WithIdKeepsOne(locations: seq<ClientLocation>, i: nat)
    requires i < |locations|
    requires forall m, n :: 0 <= m < n < |locations| ==> locations[m].id != locations[n].id
    ensures WithId(locations, Some(locations[i].id)) == [locations[i]]
  {
    var id := Some(locations[i].id);
    var rest := locations[1..];
    if i == 0 {
      FirstIdUnique(locations);
      WithIdNone(rest, id);
    } else {
      WithIdKeepsOne(rest, i - 1);
      assert rest[i - 1] == locations[i];
    }
  }

  /** Choosing a location in the selector (its id in decimal) shows the cards
      of that location alone. */
  lemma SelectedLocationCards(data: Data, i: nat)
    requires data.locations.Some? && i < |data.locations.value|
    requires var ls := data.locations.value;
             forall m, n :: 0 <= m < n < |ls| ==> ls[m].id != ls[n].id
    ensures var l := data.locations.value[i];
            Render(false, Some(data), DecimalString(l.id))
            == Cards([Kpi("inventory_value", "Inventory Value", ValueOf(l)),
                      Kpi("profit_today", "Profit Today", ProfitOf(l)),
                      Kpi("total_4x5", "Total 4x5 Sheets", Sheets4x5(l)),
                      Kpi("total_4x8", "Total 4x8 Sheets", Sheets4x8(l))])
  {
    var l := data.locations.value[i];
    ParseDecimalString(l.id);
    assert DecimalString(l.id) != "all" by {
      AllIsNotANumber();
    }
    WithIdKeepsOne(data.locations.value, i);
    assert FilteredLocations(data.locations.value, DecimalString(l.id)) == [l];
    assert [l][1..] == [];
    assert SumOf([l], ValueOf) == ValueOf(l);
    assert SumOf([l], ProfitOf) == ProfitOf(l);
    assert SumOf([l], Sheets4x5) == Sheets4x5(l);
    assert SumOf([l], Sheets4x8) == Sheets4x8(l);
  }
}
