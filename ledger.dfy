/** The ledger mutation engine of backend/controllers/inventoryController.js:
    `addTruck`, `addCustom` and `sell`. The store is the inventory table (a map
    from (location, SKU) to a quantity, seeded once) and the transactions table
    (an append-only log). Each `UPDATE inventory SET quantity = quantity ± q`
    changes one existing row and does nothing when the row is missing; each
    `INSERT INTO transactions` appends one record. The two statements of a pair
    are applied one after the other, as sequential steps. */
module Ledger {
  import opened Common

  datatype Sku = S4x5 | S4x8

  datatype Kind = Add | Sell

  /** The key of an inventory row. */
  datatype RowKey = RowKey(location: int, sku: Sku)

  /** A row of the transactions table. `item` is `None` when the SKU name given
      to the insert matched no item (the row's item id is then NULL). */
  datatype Tx = Tx(location: int, item: Option<Sku>, quantity: int, kind: Kind, date: string)

  const FullTruck4x5: int := 1000
  const FullTruck4x8: int := 640
  const Split4x5: int := 500
  const Split4x8: int := 300

  function SkuName(sku: Sku): string {
    match sku
    case S4x5 => "4x5"
    case S4x8 => "4x8"
  }

  /** `(SELECT id FROM items WHERE type = $n)` against the two seeded items. */
  function ResolveSku(name: Option<string>): (r: Option<Sku>)
    ensures r.Some? <==> name.Some? && (name.value == "4x5" || name.value == "4x8")
    ensures r.Some? ==> SkuName(r.value) == name.value
  {
    if name == Some("4x5") then Some(S4x5)
    else if name == Some("4x8") then Some(S4x8)
    else None
  }

  /** The entries of the `quantities` object `addTruck` builds, in insertion
      order. The branch depends on whether `truckType` is truthy; `mode` is
      never read. */
  function TruckQuantities(truckType: Option<string>): (r: seq<(Sku, int)>)
    ensures forall i :: 0 <= i < |r| ==> r[i].1 > 0
    ensures forall i, j :: 0 <= i < j < |r| ==> r[i].0 != r[j].0
    ensures r == [] <==> Truthy(truckType) && truckType.value != "4x5" && truckType.value != "4x8"
    ensures |r| == 2 <==> !Truthy(truckType)
  {
    if Truthy(truckType) then
      if truckType.value == "4x5" then [(S4x5, FullTruck4x5)]
      else if truckType.value == "4x8" then [(S4x8, FullTruck4x8)]
      else []
    else
      [(S4x5, Split4x5), (S4x8, Split4x8)]
  }

  /** The `updates` list of `addCustom`. A missing quantity fails `qty > 0`
      exactly as 0 does, so it is entered as 0. */
  function CustomUpdates(qty4x5: Option<int>, qty4x8: Option<int>): (r: seq<(Sku, int)>)
    ensures |r| == 2 && r[0].0 == S4x5 && r[1].0 == S4x8
    ensures Added(r, S4x5) == (if qty4x5.Some? && qty4x5.value > 0 then qty4x5.value else 0)
    ensures Added(r, S4x8) == (if qty4x8.Some? && qty4x8.value > 0 then qty4x8.value else 0)
  {
    var r := [(S4x5, qty4x5.GetOr(0)), (S4x8, qty4x8.GetOr(0))];
    assert r[..1] == [r[0]] && r[..1][..0] == [];
    assert Added(r[..1], S4x5) == (if r[0].1 > 0 then r[0].1 else 0) && Added(r[..1], S4x8) == 0;
    r
  }

  // ---------------------------------------------------------------------------
  // The log and what it explains

  /** Total quantity of the "add" records for the row `k`. */
  function AddedTotal(log: seq<Tx>, k: RowKey): int {
    if log == [] then 0
    else
      var t := log[|log| - 1];
      AddedTotal(log[..|log| - 1], k)
        + (if t.location == k.location && t.item == Some(k.sku) && t.kind == Add then t.quantity else 0)
  }

  /** Total quantity of the "sell" records for the row `k`. */
  function SoldTotal(log: seq<Tx>, k: RowKey): int {
    if log == [] then 0
    else
      var t := log[|log| - 1];
      SoldTotal(log[..|log| - 1], k)
        + (if t.location == k.location && t.item == Some(k.sku) && t.kind == Sell then t.quantity else 0)
  }

  /** How one record moves the row `k`. */
  function Effect(t: Tx, k: RowKey): int {
    if t.location == k.location && t.item == Some(k.sku) then
      (if t.kind == Add then t.quantity else -t.quantity)
    else 0
  }

  /** The ledger invariant: every seeded row holds its seed plus everything
      added minus everything sold for it according to the log. */
  ghost predicate Explains(seed: map<RowKey, int>, inventory: map<RowKey, int>, log: seq<Tx>) {
    && inventory.Keys == seed.Keys
    && forall k :: k in inventory ==> inventory[k] == seed[k] + AddedTotal(log, k) - SoldTotal(log, k)
  }

  lemma AppendRecord(log: seq<Tx>, t: Tx, k: RowKey)
    ensures AddedTotal(log + [t], k) - SoldTotal(log + [t], k)
         == AddedTotal(log, k) - SoldTotal(log, k) + Effect(t, k)
  {
    assert (log + [t])[..|log|] == log;
  }

  /** `UPDATE inventory SET quantity = quantity + delta WHERE (location, item) = k`. */
  function Bump(inventory: map<RowKey, int>, k: RowKey, delta: int): (r: map<RowKey, int>)
    ensures r.Keys == inventory.Keys
    ensures forall j :: j in r ==> r[j] == if j == k then inventory[j] + delta else inventory[j]
  {
    if k in inventory then inventory[k := inventory[k] + delta] else inventory
  }

  /** The inventory after the loop of `addTruck` / `addCustom` over `entries`. */
  function AddAll(inventory: map<RowKey, int>, location: int, entries: seq<(Sku, int)>): map<RowKey, int> {
    if entries == [] then inventory
    else
      var before := AddAll(inventory, location, entries[..|entries| - 1]);
      var (sku, qty) := entries[|entries| - 1];
      if qty > 0 then Bump(before, RowKey(location, sku), qty) else before
  }

  /** The records the same loop appends to the log. */
  function AddRows(location: int, entries: seq<(Sku, int)>, date: string): seq<Tx> {
    if entries == [] then []
    else
      var before := AddRows(location, entries[..|entries| - 1], date);
      var (sku, qty) := entries[|entries| - 1];
      if qty > 0 then before + [Tx(location, Some(sku), qty, Add, date)] else before
  }

  /** The positive quantities `entries` hold for one SKU. */
  function Added(entries: seq<(Sku, int)>, sku: Sku): int {
    if entries == [] then 0
    else
      var (s, qty) := entries[|entries| - 1];
      Added(entries[..|entries| - 1], sku) + (if s == sku && qty > 0 then qty else 0)
  }

  /** The add loop changes the rows of `location` by the positive quantities
      listed for their SKU, and no other row. */
  lemma {:induction false} AddAllAt(inventory: map<RowKey, int>, location: int, entries: seq<(Sku, int)>, k: RowKey)
    requires k in inventory
    ensures AddAll(inventory, location, entries).Keys == inventory.Keys
    ensures AddAll(inventory, location, entries)[k]
         == inventory[k] + (if k.location == location then Added(entries, k.sku) else 0)
  {
    if entries != [] {
      AddAllAt(inventory, location, entries[..|entries| - 1], k);
    }
  }

  /** Every record the add loop appends is an "add" of a positive quantity of
      a known SKU at `location`, dated `date`; there is one per positive entry. */
  lemma {:induction false} AddRowsShape(location: int, entries: seq<(Sku, int)>, date: string)
    ensures forall t :: t in AddRows(location, entries, date) ==>
              t.location == location && t.item.Some? && t.kind == Add && t.quantity > 0 && t.date == date
    ensures forall sku :: Added(entries, sku) == AddedTotal(AddRows(location, entries, date), RowKey(location, sku))
  {
    if entries != [] {
      var prefix := entries[..|entries| - 1];
      AddRowsShape(location, prefix, date);
      var rows := AddRows(location, prefix, date);
      var (s, qty) := entries[|entries| - 1];
      if qty > 0 {
        var t := Tx(location, Some(s), qty, Add, date);
        assert (rows + [t])[..|rows|] == rows;
      }
    }
  }

  // ---------------------------------------------------------------------------
  // The delta rules, one lemma per branch of addTruck and addCustom

  lemma FullTruck4x5Adds(inventory: map<RowKey, int>, location: int, date: string)
    ensures AddAll(inventory, location, TruckQuantities(Some("4x5")))
         == Bump(inventory, RowKey(location, S4x5), 1000)
    ensures AddRows(location, TruckQuantities(Some("4x5")), date)
         == [Tx(location, Some(S4x5), 1000, Add, date)]
  {
    assert TruckQuantities(Some("4x5"))[..0] == [];
  }

  lemma FullTruck4x8Adds(inventory: map<RowKey, int>, location: int, date: string)
    ensures AddAll(inventory, location, TruckQuantities(Some("4x8")))
         == Bump(inventory, RowKey(location, S4x8), 640)
    ensures AddRows(location, TruckQuantities(Some("4x8")), date)
         == [Tx(location, Some(S4x8), 640, Add, date)]
  {
    assert TruckQuantities(Some("4x8"))[..0] == [];
  }

  /** A missing or empty `truckType` takes the split branch, whatever `mode` says. */
  lemma SplitTruckAdds(inventory: map<RowKey, int>, location: int, truckType: Option<string>, date: string)
    requires !Truthy(truckType)
    ensures AddAll(inventory, location, TruckQuantities(truckType))
         == Bump(Bump(inventory, RowKey(location, S4x5), 500), RowKey(location, S4x8), 300)
    ensures AddRows(location, TruckQuantities(truckType), date)
         == [Tx(location, Some(S4x5), 500, Add, date), Tx(location, Some(S4x8), 300, Add, date)]
  {
    var q := TruckQuantities(truckType);
    var first := q[..|q| - 1];
    assert first == [(S4x5, 500)] && first[..0] == [];
    assert AddAll(inventory, location, first) == Bump(inventory, RowKey(location, S4x5), 500);
    assert AddRows(location, first, date) == [Tx(location, Some(S4x5), 500, Add, date)];
  }

  /** The split branch is taken exactly when `truckType` is falsy. */
  lemma SplitExactlyWhenFalsy(truckType: Option<string>)
    ensures TruckQuantities(truckType) == [(S4x5, Split4x5), (S4x8, Split4x8)] <==> !Truthy(truckType)
  {
  }

  /** An unrecognised truck type changes nothing and logs nothing. */
  lemma UnknownTruckTypeAddsNothing(inventory: map<RowKey, int>, location: int, truckType: Option<string>, date: string)
    requires Truthy(truckType) && truckType.value != "4x5" && truckType.value != "4x8"
    ensures AddAll(inventory, location, TruckQuantities(truckType)) == inventory
    ensures AddRows(location, TruckQuantities(truckType), date) == []
  {
  }

  /** Only positive custom quantities move a row; zero, negative or missing ones
      neither update nor log. */
  lemma {:induction false} CustomAdds(inventory: map<RowKey, int>, location: int, qty4x5: Option<int>, qty4x8: Option<int>, k: RowKey)
    requires k in inventory
    ensures AddAll(inventory, location, CustomUpdates(qty4x5, qty4x8)).Keys == inventory.Keys
    ensures AddAll(inventory, location, CustomUpdates(qty4x5, qty4x8))[k]
         == inventory[k] + (if k.location != location then 0
                            else if k.sku == S4x5 then (if qty4x5.Some? && qty4x5.value > 0 then qty4x5.value else 0)
                            else (if qty4x8.Some? && qty4x8.value > 0 then qty4x8.value else 0))
  {
    var u := CustomUpdates(qty4x5, qty4x8);
    AddAllAt(inventory, location, u, k);
    var first := u[..|u| - 1];
    assert first == [u[0]] && first[..0] == [];
    assert Added(first, k.sku) == if k.sku == S4x5 && u[0].1 > 0 then u[0].1 else 0;
    assert Added(u, k.sku) == Added(first, k.sku) + (if k.sku == S4x8 && u[1].1 > 0 then u[1].1 else 0);
  }

  lemma CustomZeroIsNoop(inventory: map<RowKey, int>, location: int, qty4x5: Option<int>, qty4x8: Option<int>, date: string)
    requires qty4x5.GetOr(0) <= 0 && qty4x8.GetOr(0) <= 0
    ensures AddAll(inventory, location, CustomUpdates(qty4x5, qty4x8)) == inventory
    ensures AddRows(location, CustomUpdates(qty4x5, qty4x8), date) == []
  {
    var u := CustomUpdates(qty4x5, qty4x8);
    var first := u[..|u| - 1];
    assert first == [u[0]] && first[..0] == [];
    assert AddAll(inventory, location, first) == inventory;
    assert AddRows(location, first, date) == [];
  }

  // ---------------------------------------------------------------------------
  // The store

  class Store {
    /** The inventory table: seeded rows only. */
    var inventory: map<RowKey, int>
    /** The transactions table, oldest record first. */
    var log: seq<Tx>
    /** The quantities the rows were seeded with. */
    ghost var seed: map<RowKey, int>

    ghost predicate Consistent()
      reads this
    {
      Explains(seed, inventory, log)
    }

    constructor (rows: map<RowKey, int>)
      ensures inventory == rows && log == [] && seed == rows
      ensures Consistent()
    {
      inventory, log, seed := rows, [], rows;
    }

    /** One UPDATE of a row by `quantity` in the direction of `kind`, followed by
        the INSERT of its record. The pair keeps the ledger invariant. */
    method Post(location: int, item: Option<Sku>, quantity: int, kind: Kind, date: string)
      requires Consistent()
      modifies this
      ensures Consistent() && seed == old(seed)
      ensures inventory == if item.Some?
                           then Bump(old(inventory), RowKey(location, item.value), if kind == Add then quantity else -quantity)
                           else old(inventory)
      ensures log == old(log) + [Tx(location, item, quantity, kind, date)]
    {
      var t := Tx(location, item, quantity, kind, date);
      if item.Some? {
        var k := RowKey(location, item.value);
        if k in inventory {
          inventory := inventory[k := inventory[k] + (if kind == Add then quantity else -quantity)];
        }
      }
      log := log + [t];
      forall j | j in inventory
        ensures inventory[j] == seed[j] + AddedTotal(log, j) - SoldTotal(log, j)
      {
        AppendRecord(old(log), t, j);
      }
    }

    /** `for (const [type, qty] of entries) if (qty > 0) { UPDATE …; INSERT … }`,
        the loop `addTruck` and `addCustom` share. */
    method AddEach(location: int, entries: seq<(Sku, int)>, date: string)
      requires Consistent()
      modifies this
      ensures Consistent() && seed == old(seed)
      ensures inventory == AddAll(old(inventory), location, entries)
      ensures log == old(log) + AddRows(location, entries, date)
    {
      for i := 0 to |entries|
        invariant Consistent() && seed == old(seed)
        invariant inventory == AddAll(old(inventory), location, entries[..i])
        invariant log == old(log) + AddRows(location, entries[..i], date)
      {
        var (sku, qty) := entries[i];
        assert entries[..i + 1][..i] == entries[..i];
        if qty > 0 {
          Post(location, Some(sku), qty, Add, date);
        }
      }
      assert entries[..|entries|] == entries;
    }

    /** `addTruck`: a full truck of the truthy `truckType`, else a split truck. */
    method AddTruck(location: int, truckType: Option<string>, transactionDate: Option<string>, today: string)
      requires Consistent()
      modifies this
      ensures Consistent() && seed == old(seed)
      ensures inventory == AddAll(old(inventory), location, TruckQuantities(truckType))
      ensures log == old(log) + AddRows(location, TruckQuantities(truckType), OrElse(transactionDate, today))
    {
      var txDate := OrElse(transactionDate, today);
      var quantities: seq<(Sku, int)> := [];
      if Truthy(truckType) {
        if truckType.value == "4x5" {
          quantities := [(S4x5, FullTruck4x5)];
        } else if truckType.value == "4x8" {
          quantities := [(S4x8, FullTruck4x8)];
        }
      } else {
        quantities := [(S4x5, Split4x5), (S4x8, Split4x8)];
      }
      AddEach(location, quantities, txDate);
    }

    /** `addCustom`: each SKU with a positive quantity is added and logged. */
    method AddCustom(location: int, qty4x5: Option<int>, qty4x8: Option<int>, transactionDate: Option<string>, today: string)
      requires Consistent()
      modifies this
      ensures Consistent() && seed == old(seed)
      ensures inventory == AddAll(old(inventory), location, CustomUpdates(qty4x5, qty4x8))
      ensures log == old(log) + AddRows(location, CustomUpdates(qty4x5, qty4x8), OrElse(transactionDate, today))
    {
      var txDate := OrElse(transactionDate, today);
      AddEach(location, [(S4x5, qty4x5.GetOr(0)), (S4x8, qty4x8.GetOr(0))], txDate);
    }

    /** `sell`: subtracts `quantity` with no stock check and logs one "sell" record
        carrying the same quantity. */
    method Sell(location: int, itemType: Option<string>, quantity: int, transactionDate: Option<string>, today: string)
      requires Consistent()
      modifies this
      ensures Consistent() && seed == old(seed)
      ensures inventory == if ResolveSku(itemType).Some?
                           then Bump(old(inventory), RowKey(location, ResolveSku(itemType).value), -quantity)
                           else old(inventory)
      ensures log == old(log) + [Tx(location, ResolveSku(itemType), quantity, Kind.Sell, OrElse(transactionDate, today))]
    {
      var txDate := OrElse(transactionDate, today);
      Post(location, ResolveSku(itemType), quantity, Kind.Sell, txDate);
    }
  }
}
