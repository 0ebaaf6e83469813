/** The snapshot read `getInventory` of backend/controllers/inventoryController.js,
    as a pure function of the four tables. The query's joins are taken
    literally: inventory and transactions are both joined to a location on the
    location id alone, so a location's grouped rows are every pairing of one of
    its inventory rows (or one all-NULL row when it has none) with one of its
    transactions (or one all-NULL row when it has none). The item a joined row
    carries is the item of its inventory row, never the item of its transaction.
    The last part of the module gives the per-location figures the query
    evidently means to compute and relates the two. */
module Snapshot {
  import opened Common
  import Sorting

  datatype Location = Location(id: int, name: string)

  /** A row of the items table; the table is a map from item id (its primary key). */
  datatype Item = Item(itemType: string, price: int, profit: int)

  datatype InventoryRow = InventoryRow(locationId: int, itemId: int, quantity: int)

  /** A row of the transactions table. `createdAt` is the insertion timestamp. */
  datatype TxRow = TxRow(id: int, locationId: int, itemId: Option<int>, quantity: int,
                         txType: string, date: Option<string>, createdAt: int)

  /** The inventory half of a joined row: an inventory row and its item, each
      possibly NULL. */
  type Stock = (Option<InventoryRow>, Option<Item>)

  /** One row produced by the three LEFT JOINs. */
  datatype Joined = Joined(inv: Option<InventoryRow>, item: Option<Item>, tx: Option<TxRow>)

  /** `json_build_object('sku', …, 'quantity', …, 'price', …, 'profit', …)`. */
  datatype ItemEntry = ItemEntry(sku: Option<string>, quantity: Option<int>, price: Option<int>, profit: Option<int>)

  /** `json_build_object('id', …, 'qty4x5', …, 'qty4x8', …, 'type', …, 'date', …, 'created_at', …)`. */
  datatype TxEntry = TxEntry(id: int, qty4x5: int, qty4x8: int, txType: string, date: Option<string>, createdAt: int)

  /** One row of the query's result. `transactions` is `None` (SQL NULL) when
      the FILTER keeps no row, since `json_agg` over nothing is NULL. */
  datatype LocationView = LocationView(id: int, name: string, items: seq<ItemEntry>,
                                       inventoryValueCents: int, profitCents: int,
                                       transactions: Option<seq<TxEntry>>)

  // ---------------------------------------------------------------------------
  // The joins

  function InventoryOf(location: Location, inventory: seq<InventoryRow>): (r: seq<InventoryRow>)
    ensures forall x :: x in r <==> x in inventory && x.locationId == location.id
  {
    if inventory == [] then []
    else (if inventory[0].locationId == location.id then [inventory[0]] else []) + InventoryOf(location, inventory[1..])
  }

  function TransactionsOf(location: Location, txs: seq<TxRow>): (r: seq<TxRow>)
    ensures forall t :: t in r <==> t in txs && t.locationId == location.id
  {
    if txs == [] then []
    else (if txs[0].locationId == location.id then [txs[0]] else []) + TransactionsOf(location, txs[1..])
  }

  /** The item an inventory row refers to, NULL when no item has that id. */
  function ItemOf(row: InventoryRow, items: map<int, Item>): Option<Item> {
    if row.itemId in items then Some(items[row.itemId]) else None
  }

  /** `LEFT JOIN items ON items.id = inventory.item_id` for rows that exist. */
  function Attach(rows: seq<InventoryRow>, items: map<int, Item>): (r: seq<Stock>)
    ensures |r| == |rows|
    ensures forall i :: 0 <= i < |r| ==> r[i] == (Some(rows[i]), ItemOf(rows[i], items))
  {
    if rows == [] then []
    else [(Some(rows[0]), ItemOf(rows[0], items))] + Attach(rows[1..], items)
  }

  /** The location's inventory rows with their items, or one all-NULL row. */
  function InventorySide(location: Location, inventory: seq<InventoryRow>, items: map<int, Item>): (r: seq<Stock>)
    ensures |r| >= 1
    ensures InventoryOf(location, inventory) == [] ==> r == [(None, None)]
    ensures var own := InventoryOf(location, inventory);
            own != [] ==> |r| == |own| && forall i :: 0 <= i < |r| ==> r[i] == (Some(own[i]), ItemOf(own[i], items))
  {
    var own := InventoryOf(location, inventory);
    if own == [] then [(None, None)] else Attach(own, items)
  }

  function Wrap(ts: seq<TxRow>): (r: seq<Option<TxRow>>)
    ensures |r| == |ts|
    ensures forall y :: y in r ==> y.Some? && y.value in ts
    ensures forall i :: 0 <= i < |r| ==> r[i] == Some(ts[i])
  {
    if ts == [] then [] else [Some(ts[0])] + Wrap(ts[1..])
  }

  /** The location's transactions, or one all-NULL row. */
  function TransactionSide(location: Location, txs: seq<TxRow>): (r: seq<Option<TxRow>>)
    ensures forall y :: y in r ==> y.None? || y.value in TransactionsOf(location, txs)
    ensures TransactionsOf(location, txs) == [] ==> r == [None]
    ensures var own := TransactionsOf(location, txs);
            own != [] ==> |r| == |own| && forall i :: 0 <= i < |r| ==> r[i] == Some(own[i])
  {
    var own := TransactionsOf(location, txs);
    if own == [] then [None] else Wrap(own)
  }

  /** One inventory-side row paired with each transaction-side row. */
  function Pairs(x: Stock, ys: seq<Option<TxRow>>): (r: seq<Joined>)
    ensures |r| == |ys|
    ensures forall j :: j in r ==> j.tx in ys && j.inv == x.0 && j.item == x.1
  {
    if ys == [] then [] else [Joined(x.0, x.1, ys[0])] + Pairs(x, ys[1..])
  }

  /** The two LEFT JOINs on the location: every inventory-side row paired with
      every transaction-side row, row by row of the inventory side. */
  function Cross(xs: seq<Stock>, ys: seq<Option<TxRow>>): (r: seq<Joined>)
  {
    if xs == [] then [] else Pairs(xs[0], ys) + Cross(xs[1..], ys)
  }

  /** The rows `GROUP BY locations.id` collects for one location. */
  function JoinedRows(location: Location, inventory: seq<InventoryRow>, items: map<int, Item>, txs: seq<TxRow>): seq<Joined> {
    Cross(InventorySide(location, inventory, items), TransactionSide(location, txs))
  }

  // ---------------------------------------------------------------------------
  // The aggregates

  /** `inventory.quantity * items.price`; NULL (skipped by SUM) counts as 0. */
  function RowValue(j: Joined): (r: int)
    ensures j.inv.None? || j.item.None? ==> r == 0
    ensures j.inv.Some? && j.item.Some? ==> r == j.inv.value.quantity * j.item.value.price
  {
    if j.inv.Some? && j.item.Some? then j.inv.value.quantity * j.item.value.price else 0
  }

  /** `CASE WHEN transactions.type = 'sell' THEN transactions.quantity * items.profit ELSE 0 END`. */
  function RowProfit(j: Joined): (r: int)
    ensures r != 0 ==> j.tx.Some? && j.tx.value.txType == "sell" && j.item.Some?
    ensures j.tx.Some? && j.tx.value.txType == "sell" && j.item.Some? ==> r == j.tx.value.quantity * j.item.value.profit
  {
    if j.tx.Some? && j.tx.value.txType == "sell" && j.item.Some? then j.tx.value.quantity * j.item.value.profit else 0
  }

  function RowItem(j: Joined): ItemEntry {
    ItemEntry(if j.item.Some? then Some(j.item.value.itemType) else None,
              if j.inv.Some? then Some(j.inv.value.quantity) else None,
              if j.item.Some? then Some(j.item.value.price) else None,
              if j.item.Some? then Some(j.item.value.profit) else None)
  }

  function ItemEntries(rows: seq<Joined>): (r: seq<ItemEntry>)
    ensures |r| == |rows|
    ensures forall i :: 0 <= i < |r| ==> r[i] == RowItem(rows[i])
  {
    if rows == [] then [] else [RowItem(rows[0])] + ItemEntries(rows[1..])
  }

  /** The transaction object of a joined row; the quantity goes under the column
      of the joined row's item type (that of the inventory row). */
  function RowTransaction(j: Joined): (e: TxEntry)
    requires j.tx.Some?
    ensures e.qty4x5 == 0 || e.qty4x8 == 0
    ensures e.qty4x5 + e.qty4x8 == 0 || e.qty4x5 + e.qty4x8 == j.tx.value.quantity
    ensures e.id == j.tx.value.id && e.txType == j.tx.value.txType
            && e.date == j.tx.value.date && e.createdAt == j.tx.value.createdAt
    ensures j.item.Some? && j.item.value.itemType == "4x5" ==> e.qty4x5 == j.tx.value.quantity && e.qty4x8 == 0
    ensures j.item.Some? && j.item.value.itemType == "4x8" ==> e.qty4x8 == j.tx.value.quantity && e.qty4x5 == 0
    ensures j.item.None? || j.item.value.itemType !in {"4x5", "4x8"} ==> e.qty4x5 == 0 && e.qty4x8 == 0
  {
    var t := j.tx.value;
    var sku := if j.item.Some? then Some(j.item.value.itemType) else None;
    TxEntry(t.id,
            if sku == Some("4x5") then t.quantity else 0,
            if sku == Some("4x8") then t.quantity else 0,
            t.txType, t.date, t.createdAt)
  }

  /** 1 for a joined row that carries a transaction. */
  function HasTx(j: Joined): int {
    if j.tx.Some? then 1 else 0
  }

  /** `FILTER (WHERE transactions.id IS NOT NULL)`, before ordering: one entry
      for each joined row that carries a transaction, and nothing else. */
  function TxEntries(rows: seq<Joined>): (r: seq<TxEntry>)
    ensures forall e :: e in r ==> exists j :: j in rows && j.tx.Some? && e == RowTransaction(j)
    ensures forall j :: j in rows && j.tx.Some? ==> RowTransaction(j) in r
    ensures |r| == SumOf(rows, HasTx)
  {
    if rows == [] then []
    else
      var rest := TxEntries(rows[1..]);
      assert forall j :: j in rows[1..] ==> j in rows;
      if rows[0].tx.Some? then [RowTransaction(rows[0])] + rest else rest
  }

  function CreatedAt(e: TxEntry): int {
    e.createdAt
  }

  /** The result row for one location: one item object per pairing of the two
      sides, and a transaction list that is newest first and holds the entries
      of the joined rows that carry a transaction. */
  function View(location: Location, inventory: seq<InventoryRow>, items: map<int, Item>, txs: seq<TxRow>): (v: LocationView)
    ensures v.id == location.id && v.name == location.name
    ensures |v.items| == |InventorySide(location, inventory, items)| * |TransactionSide(location, txs)|
    ensures v.transactions.Some? ==>
              && Sorting.SortedBy(v.transactions.value, CreatedAt, true)
              && multiset(v.transactions.value) == multiset(TxEntries(JoinedRows(location, inventory, items, txs)))
  {
    var rows := JoinedRows(location, inventory, items, txs);
    var listed := TxEntries(rows);
    CrossLength(InventorySide(location, inventory, items), TransactionSide(location, txs));
    LocationView(location.id, location.name, ItemEntries(rows),
                 SumOf(rows, RowValue), SumOf(rows, RowProfit),
                 if listed == [] then None else Some(Sorting.SortBy(listed, CreatedAt, true)))
  }

  /** `getInventory`: one view per location row. The location id
      is the table's primary key. */
  function GetInventory(locations: seq<Location>, inventory: seq<InventoryRow>, items: map<int, Item>, txs: seq<TxRow>): (r: seq<LocationView>)
    requires forall i, j :: 0 <= i < j < |locations| ==> locations[i].id != locations[j].id
    ensures |r| == |locations|
    ensures forall i :: 0 <= i < |r| ==> r[i].id == locations[i].id && r[i].name == locations[i].name
    ensures forall i, j :: 0 <= i < j < |r| ==> r[i].id != r[j].id
    ensures forall i :: 0 <= i < |r| ==> r[i] == View(locations[i], inventory, items, txs)
  {
    seq(|locations|, i requires 0 <= i < |locations| => View(locations[i], inventory, items, txs))
  }

  // ---------------------------------------------------------------------------
  // Properties of the literal join

  /** A location with no inventory and no transactions still appears, with zero
      aggregates, one all-NULL item object and a NULL transaction list. */
  lemma EmptyLocationView(location: Location, inventory: seq<InventoryRow>, items: map<int, Item>, txs: seq<TxRow>)
    requires InventoryOf(location, inventory) == [] && TransactionsOf(location, txs) == []
    ensures var v := View(location, inventory, items, txs);
            v.inventoryValueCents == 0 && v.profitCents == 0 && v.transactions == None
            && v.items == [ItemEntry(None, None, None, None)]
  {
    var rows := JoinedRows(location, inventory, items, txs);
    assert InventorySide(location, inventory, items) == [(None, None)];
    assert TransactionSide(location, txs) == [None];
    assert Pairs((None, None), [None]) == [Joined(None, None, None)];
    assert Cross([(None, None)], [None]) == Pairs((None, None), [None]) + Cross([], [None]);
    assert rows == [Joined(None, None, None)];
    assert rows[1..] == [];
    assert SumOf(rows, RowValue) == 0;
    assert SumOf(rows, RowProfit) == 0;
    assert TxEntries(rows) == [];
  }

  function StockValue(x: Stock): int {
    if x.0.Some? && x.1.Some? then x.0.value.quantity * x.1.value.price else 0
  }

  function StockProfit(x: Stock): int {
    if x.1.Some? then x.1.value.profit else 0
  }

  function SoldQuantity(y: Option<TxRow>): int {
    if y.Some? && y.value.txType == "sell" then y.value.quantity else 0
  }

  function Present(y: Option<TxRow>): int {
    if y.Some? then 1 else 0
  }

  lemma Distribute(c: int, x: int, y: int)
    ensures c * (x + y) == c * x + c * y
    ensures (x + y) * c == x * c + y * c
  {
  }

  lemma {:induction false} PairsValue(x: Stock, ys: seq<Option<TxRow>>)
    ensures SumOf(Pairs(x, ys), RowValue) == |ys| * StockValue(x)
  {
    if ys != [] {
      var p := Pairs(x, ys);
      assert p[1..] == Pairs(x, ys[1..]);
      PairsValue(x, ys[1..]);
      Distribute(StockValue(x), 1, |ys| - 1);
    }
  }

  lemma {:induction false} PairsProfit(x: Stock, ys: seq<Option<TxRow>>)
    ensures SumOf(Pairs(x, ys), RowProfit) == StockProfit(x) * SumOf(ys, SoldQuantity)
  {
    if ys != [] {
      var p := Pairs(x, ys);
      assert p[1..] == Pairs(x, ys[1..]);
      assert RowProfit(p[0]) == StockProfit(x) * SoldQuantity(ys[0]);
      PairsProfit(x, ys[1..]);
      Distribute(StockProfit(x), SoldQuantity(ys[0]), SumOf(ys[1..], SoldQuantity));
    }
  }

  lemma {:induction false} PairsCount(x: Stock, ys: seq<Option<TxRow>>)
    ensures |TxEntries(Pairs(x, ys))| == SumOf(ys, Present)
  {
    if ys != [] {
      var p := Pairs(x, ys);
      assert p[1..] == Pairs(x, ys[1..]);
      PairsCount(x, ys[1..]);
    }
  }

  lemma {:induction false} CrossLength(xs: seq<Stock>, ys: seq<Option<TxRow>>)
    ensures |Cross(xs, ys)| == |xs| * |ys|
  {
    if xs != [] {
      CrossLength(xs[1..], ys);
      Distribute(|ys|, 1, |xs| - 1);
    }
  }

  /** `a * m`, by repeated addition. */
  function Offset(a: nat, m: nat): nat {
    if a == 0 then 0 else m + Offset(a - 1, m)
  }

  lemma {:induction false} OffsetIsProduct(a: nat, m: nat)
    ensures Offset(a, m) == a * m
  {
    if a > 0 {
      OffsetIsProduct(a - 1, m);
      Distribute(m, a - 1, 1);
    }
  }

  lemma {:induction false} CrossAtOffset(xs: seq<Stock>, ys: seq<Option<TxRow>>, a: nat, b: nat)
    requires a < |xs| && b < |ys|
    ensures Offset(a, |ys|) + b < |Cross(xs, ys)|
    ensures Cross(xs, ys)[Offset(a, |ys|) + b] == Joined(xs[a].0, xs[a].1, ys[b])
    decreases |xs|, 1
  {
    if a == 0 {
      CrossAtHead(xs, ys, a, b);
    } else {
      CrossAtLater(xs, ys, a, b);
    }
  }

  lemma {:induction false} CrossAtLater(xs: seq<Stock>, ys: seq<Option<TxRow>>, a: nat, b: nat)
    requires 0 < a < |xs| && b < |ys|
    ensures Offset(a, |ys|) + b < |Cross(xs, ys)|
    ensures Cross(xs, ys)[Offset(a, |ys|) + b] == Joined(xs[a].0, xs[a].1, ys[b])
    decreases |xs|, 0
  {
    CrossAtOffset(xs[1..], ys, a - 1, b);
    CrossAtStep(xs, ys, a, b);
  }

  lemma CrossAtStep(xs: seq<Stock>, ys: seq<Option<TxRow>>, a: nat, b: nat)
    requires 0 < a < |xs| && b < |ys|
    requires Offset(a - 1, |ys|) + b < |Cross(xs[1..], ys)|
    requires Cross(xs[1..], ys)[Offset(a - 1, |ys|) + b] == Joined(xs[1..][a - 1].0, xs[1..][a - 1].1, ys[b])
    ensures Offset(a, |ys|) + b < |Cross(xs, ys)|
    ensures Cross(xs, ys)[Offset(a, |ys|) + b] == Joined(xs[a].0, xs[a].1, ys[b])
  {
    var k := Offset(a - 1, |ys|) + b;
    assert xs[1..][a - 1] == xs[a];
    CrossTail(xs, ys, k);
  }

  lemma CrossAtHead(xs: seq<Stock>, ys: seq<Option<TxRow>>, a: nat, b: nat)
    requires a == 0 && a < |xs| && b < |ys|
    ensures Offset(a, |ys|) + b < |Cross(xs, ys)|
    ensures Cross(xs, ys)[Offset(a, |ys|) + b] == Joined(xs[a].0, xs[a].1, ys[b])
  {
    CrossHead(xs, ys, b);
  }

  lemma CrossHead(xs: seq<Stock>, ys: seq<Option<TxRow>>, b: nat)
    requires xs != [] && b < |ys|
    ensures b < |Cross(xs, ys)| && Cross(xs, ys)[b] == Joined(xs[0].0, xs[0].1, ys[b])
  {
    var p := Pairs(xs[0], ys);
    PairsAt(xs[0], ys);
    assert Cross(xs, ys) == p + Cross(xs[1..], ys);
    assert (p + Cross(xs[1..], ys))[b] == p[b];
  }

  /** Row `b` of the pairing is inventory-side row `x` joined with transaction-side row `b`. */
  lemma {:induction false} PairsAt(x: Stock, ys: seq<Option<TxRow>>)
    ensures forall b :: 0 <= b < |ys| ==> Pairs(x, ys)[b] == Joined(x.0, x.1, ys[b])
  {
    if ys != [] {
      PairsAt(x, ys[1..]);
      assert forall b :: 1 <= b < |ys| ==> ys[1..][b - 1] == ys[b];
    }
  }

  lemma CrossTail(xs: seq<Stock>, ys: seq<Option<TxRow>>, k: nat)
    requires xs != [] && k < |Cross(xs[1..], ys)|
    ensures |ys| + k < |Cross(xs, ys)| && Cross(xs, ys)[|ys| + k] == Cross(xs[1..], ys)[k]
  {
    var p := Pairs(xs[0], ys);
    var rest := Cross(xs[1..], ys);
    assert Cross(xs, ys) == p + rest;
    assert (p + rest)[|p| + k] == rest[k];
  }

  /** The joined rows come row by row of the inventory side: row `a * |ys| + b`
      pairs inventory-side row `a` with transaction-side row `b`. */
  lemma CrossAt(xs: seq<Stock>, ys: seq<Option<TxRow>>, a: nat, b: nat)
    requires a < |xs| && b < |ys|
    ensures a * |ys| + b < |Cross(xs, ys)|
    ensures Cross(xs, ys)[a * |ys| + b] == Joined(xs[a].0, xs[a].1, ys[b])
  {
    CrossAtOffset(xs, ys, a, b);
    OffsetIsProduct(a, |ys|);
  }

  /** Every joined row pairs a row of the inventory side with a row of the transaction side. */
  lemma {:induction false} CrossMembers(xs: seq<Stock>, ys: seq<Option<TxRow>>)
    ensures forall j :: j in Cross(xs, ys) ==> j.tx in ys && (j.inv, j.item) in xs
  {
    if xs != [] {
      CrossMembers(xs[1..], ys);
      assert forall j :: j in Cross(xs, ys) ==> j in Pairs(xs[0], ys) || j in Cross(xs[1..], ys);
    }
  }

  /** Every pair of an inventory-side row and a transaction-side row is joined. */
  lemma CrossCovers(xs: seq<Stock>, ys: seq<Option<TxRow>>)
    ensures forall a, b :: 0 <= a < |xs| && 0 <= b < |ys| ==> Joined(xs[a].0, xs[a].1, ys[b]) in Cross(xs, ys)
  {
    forall a, b | 0 <= a < |xs| && 0 <= b < |ys|
      ensures Joined(xs[a].0, xs[a].1, ys[b]) in Cross(xs, ys)
    {
      CrossAtOffset(xs, ys, a, b);
    }
  }

  lemma {:induction false} TxEntriesConcat(a: seq<Joined>, b: seq<Joined>)
    ensures TxEntries(a + b) == TxEntries(a) + TxEntries(b)
  {
    if a == [] {
      assert a + b == b;
    } else {
      assert (a + b)[1..] == a[1..] + b;
      TxEntriesConcat(a[1..], b);
    }
  }

  /** The aggregates over all pairings, in closed form. */
  lemma {:induction false} CrossValue(xs: seq<Stock>, ys: seq<Option<TxRow>>)
    ensures SumOf(Cross(xs, ys), RowValue) == SumOf(xs, StockValue) * |ys|
  {
    if xs != [] {
      CrossValue(xs[1..], ys);
      PairsValue(xs[0], ys);
      SumOfConcat(Pairs(xs[0], ys), Cross(xs[1..], ys), RowValue);
      Distribute(|ys|, StockValue(xs[0]), SumOf(xs[1..], StockValue));
    }
  }

  lemma {:induction false} CrossProfit(xs: seq<Stock>, ys: seq<Option<TxRow>>)
    ensures SumOf(Cross(xs, ys), RowProfit) == SumOf(xs, StockProfit) * SumOf(ys, SoldQuantity)
  {
    if xs != [] {
      CrossProfit(xs[1..], ys);
      PairsProfit(xs[0], ys);
      SumOfConcat(Pairs(xs[0], ys), Cross(xs[1..], ys), RowProfit);
      Distribute(SumOf(ys, SoldQuantity), StockProfit(xs[0]), SumOf(xs[1..], StockProfit));
    }
  }

  lemma {:induction false} CrossCount(xs: seq<Stock>, ys: seq<Option<TxRow>>)
    ensures |TxEntries(Cross(xs, ys))| == |xs| * SumOf(ys, Present)
  {
    if xs != [] {
      CrossCount(xs[1..], ys);
      PairsCount(xs[0], ys);
      TxEntriesConcat(Pairs(xs[0], ys), Cross(xs[1..], ys));
      Distribute(SumOf(ys, Present), 1, |xs| - 1);
    }
  }

  /** Σ quantity × price over inventory rows whose item exists. */
  function StockWorth(rows: seq<InventoryRow>, items: map<int, Item>): int {
    if rows == [] then 0
    else (if rows[0].itemId in items then rows[0].quantity * items[rows[0].itemId].price else 0)
         + StockWorth(rows[1..], items)
  }

  /** Σ items.profit over inventory rows whose item exists. */
  function StockedProfits(rows: seq<InventoryRow>, items: map<int, Item>): int {
    if rows == [] then 0
    else (if rows[0].itemId in items then items[rows[0].itemId].profit else 0)
         + StockedProfits(rows[1..], items)
  }

  /** Σ quantity over the "sell" transactions. */
  function SellQuantity(ts: seq<TxRow>): int {
    if ts == [] then 0
    else (if ts[0].txType == "sell" then ts[0].quantity else 0) + SellQuantity(ts[1..])
  }

  lemma {:induction false} AttachSums(rows: seq<InventoryRow>, items: map<int, Item>)
    ensures SumOf(Attach(rows, items), StockValue) == StockWorth(rows, items)
    ensures SumOf(Attach(rows, items), StockProfit) == StockedProfits(rows, items)
  {
    if rows != [] {
      var a := Attach(rows, items);
      assert a[1..] == Attach(rows[1..], items);
      AttachSums(rows[1..], items);
    }
  }

  lemma {:induction false} WrapSums(ts: seq<TxRow>)
    ensures SumOf(Wrap(ts), SoldQuantity) == SellQuantity(ts)
    ensures SumOf(Wrap(ts), Present) == |ts|
  {
    if ts != [] {
      var w := Wrap(ts);
      assert w[1..] == Wrap(ts[1..]);
      WrapSums(ts[1..]);
    }
  }

  lemma SidesSums(location: Location, inventory: seq<InventoryRow>, items: map<int, Item>, txs: seq<TxRow>)
    ensures SumOf(InventorySide(location, inventory, items), StockValue) == StockWorth(InventoryOf(location, inventory), items)
    ensures SumOf(InventorySide(location, inventory, items), StockProfit) == StockedProfits(InventoryOf(location, inventory), items)
    ensures SumOf(TransactionSide(location, txs), SoldQuantity) == SellQuantity(TransactionsOf(location, txs))
    ensures SumOf(TransactionSide(location, txs), Present) == |TransactionsOf(location, txs)|
  {
    AttachSums(InventoryOf(location, inventory), items);
    WrapSums(TransactionsOf(location, txs));
  }

  /** The reported inventory value is the location's stock worth multiplied by
      the number of its transactions (by 1 when it has none). */
  lemma LiteralValue(location: Location, inventory: seq<InventoryRow>, items: map<int, Item>, txs: seq<TxRow>)
    ensures View(location, inventory, items, txs).inventoryValueCents
         == StockWorth(InventoryOf(location, inventory), items)
            * (if TransactionsOf(location, txs) == [] then 1 else |TransactionsOf(location, txs)|)
  {
    CrossValue(InventorySide(location, inventory, items), TransactionSide(location, txs));
    SidesSums(location, inventory, items, txs);
  }

  /** The reported profit counts only "sell" transactions, and each sold sheet
      counts the profit of every item the location stocks. */
  lemma LiteralProfit(location: Location, inventory: seq<InventoryRow>, items: map<int, Item>, txs: seq<TxRow>)
    ensures View(location, inventory, items, txs).profitCents
         == SellQuantity(TransactionsOf(location, txs)) * StockedProfits(InventoryOf(location, inventory), items)
  {
    CrossProfit(InventorySide(location, inventory, items), TransactionSide(location, txs));
    SidesSums(location, inventory, items, txs);
  }

  /** The transaction list is NULL exactly when the location has no
      transaction; otherwise it is newest first and holds one entry per
      (inventory row, transaction) pair. */
  lemma ListedTransactions(location: Location, inventory: seq<InventoryRow>, items: map<int, Item>, txs: seq<TxRow>)
    ensures var v := View(location, inventory, items, txs);
            var own := TransactionsOf(location, txs);
            && (v.transactions.None? <==> own == [])
            && (v.transactions.Some? ==>
                  && Sorting.SortedBy(v.transactions.value, CreatedAt, true)
                  && |v.transactions.value| == |InventorySide(location, inventory, items)| * |own|)
  {
    var xs := InventorySide(location, inventory, items);
    var ys := TransactionSide(location, txs);
    CrossCount(xs, ys);
    SidesSums(location, inventory, items, txs);
    var own := TransactionsOf(location, txs);
    assert |xs| * |own| == 0 <==> own == [];
  }

  /** Every listed entry is one of the location's own transactions, with its
      quantity under at most one of the two columns. */
  lemma ListedEntriesAreOwn(location: Location, inventory: seq<InventoryRow>, items: map<int, Item>, txs: seq<TxRow>, e: TxEntry)
    requires var v := View(location, inventory, items, txs);
             v.transactions.Some? && e in v.transactions.value
    ensures e.qty4x5 == 0 || e.qty4x8 == 0
    ensures exists t :: t in TransactionsOf(location, txs) && e.id == t.id && e.txType == t.txType && e.createdAt == t.createdAt
                        && (e.qty4x5 + e.qty4x8 == 0 || e.qty4x5 + e.qty4x8 == t.quantity)
  {
    var rows := JoinedRows(location, inventory, items, txs);
    assert e in multiset(TxEntries(rows));
    CrossMembers(InventorySide(location, inventory, items), TransactionSide(location, txs));
    EntryOfJoinedRow(TransactionSide(location, txs), rows, e);
  }

  lemma EntryOfJoinedRow(ys: seq<Option<TxRow>>, rows: seq<Joined>, e: TxEntry)
    requires forall j :: j in rows ==> j.tx in ys
    requires e in TxEntries(rows)
    ensures e.qty4x5 == 0 || e.qty4x8 == 0
    ensures exists y :: y in ys && y.Some? && e.id == y.value.id && e.txType == y.value.txType && e.createdAt == y.value.createdAt
                        && (e.qty4x5 + e.qty4x8 == 0 || e.qty4x5 + e.qty4x8 == y.value.quantity)
  {
    var j :| j in rows && j.tx.Some? && e == RowTransaction(j);
    assert j.tx in ys;
  }

  // ---------------------------------------------------------------------------
  // The figures the query evidently means to compute

  /** Σ quantity × profit over the "sell" transactions, each with its own item. */
  function SalesProfit(ts: seq<TxRow>, items: map<int, Item>): int {
    if ts == [] then 0
    else SaleProfit(ts[0], items) + SalesProfit(ts[1..], items)
  }

  function SaleProfit(t: TxRow, items: map<int, Item>): int {
    if t.txType == "sell" && t.itemId.Some? && t.itemId.value in items then t.quantity * items[t.itemId.value].profit else 0
  }

  /** A transaction with its quantity under the column of its own item. */
  function OwnEntry(t: TxRow, items: map<int, Item>): (e: TxEntry)
    ensures t.itemId.Some? && t.itemId.value in items && items[t.itemId.value].itemType in {"4x5", "4x8"}
            ==> e.qty4x5 + e.qty4x8 == t.quantity && (e.qty4x5 == 0 || e.qty4x8 == 0)
  {
    var sku := if t.itemId.Some? && t.itemId.value in items then Some(items[t.itemId.value].itemType) else None;
    TxEntry(t.id, if sku == Some("4x5") then t.quantity else 0, if sku == Some("4x8") then t.quantity else 0,
            t.txType, t.date, t.createdAt)
  }

  function OwnEntries(ts: seq<TxRow>, items: map<int, Item>): (r: seq<TxEntry>)
    ensures |r| == |ts|
    ensures forall i :: 0 <= i < |r| ==> r[i] == OwnEntry(ts[i], items)
  {
    if ts == [] then [] else [OwnEntry(ts[0], items)] + OwnEntries(ts[1..], items)
  }

  /** One item object per inventory row: its quantity, and the type, price and
      profit of its item (NULL when the item is missing). */
  function StockEntries(rows: seq<InventoryRow>, items: map<int, Item>): (r: seq<ItemEntry>)
    ensures |r| == |rows|
    ensures forall i :: 0 <= i < |r| ==> r[i].quantity == Some(rows[i].quantity)
    ensures forall i :: 0 <= i < |r| && rows[i].itemId in items ==>
              var item := items[rows[i].itemId];
              r[i].sku == Some(item.itemType) && r[i].price == Some(item.price) && r[i].profit == Some(item.profit)
    ensures forall i :: 0 <= i < |r| && rows[i].itemId !in items ==>
              r[i].sku == None && r[i].price == None && r[i].profit == None
  {
    if rows == [] then []
    else [RowItem(Joined(Some(rows[0]), ItemOf(rows[0], items), None))] + StockEntries(rows[1..], items)
  }

  /** The result row without the join fan-out: one item object per inventory
      row, the stock worth as value, each sale's profit taken from its own item,
      and one list entry per transaction. */
  function IntendedView(location: Location, inventory: seq<InventoryRow>, items: map<int, Item>, txs: seq<TxRow>): (v: LocationView)
    ensures |v.items| == |InventoryOf(location, inventory)|
    ensures v.transactions.None? <==> TransactionsOf(location, txs) == []
    ensures v.transactions.Some? ==>
              && |v.transactions.value| == |TransactionsOf(location, txs)|
              && Sorting.SortedBy(v.transactions.value, CreatedAt, true)
              && multiset(v.transactions.value) == multiset(OwnEntries(TransactionsOf(location, txs), items))
  {
    var stock := InventoryOf(location, inventory);
    var own := TransactionsOf(location, txs);
    LocationView(location.id, location.name, StockEntries(stock, items),
                 StockWorth(stock, items), SalesProfit(own, items),
                 if own == [] then None else Some(Sorting.SortBy(OwnEntries(own, items), CreatedAt, true)))
  }

  lemma {:induction false} SalesProfitAppend(ts: seq<TxRow>, t: TxRow, items: map<int, Item>)
    ensures SalesProfit(ts + [t], items) == SalesProfit(ts, items) + SaleProfit(t, items)
  {
    if ts != [] {
      assert (ts + [t])[1..] == ts[1..] + [t];
      SalesProfitAppend(ts[1..], t, items);
    }
  }

  /** Recording a transaction leaves the intended inventory value alone, leaves
      the intended profit alone unless it is a sale, adds exactly the sale's own
      profit when it is one, and lists exactly one more entry. */
  lemma {:induction false} IntendedViewRecord(location: Location, inventory: seq<InventoryRow>, items: map<int, Item>,
                                              txs: seq<TxRow>, t: TxRow)
    requires t.locationId == location.id
    ensures var before := IntendedView(location, inventory, items, txs);
            var after := IntendedView(location, inventory, items, txs + [t]);
            && after.inventoryValueCents == before.inventoryValueCents
            && after.profitCents == before.profitCents + SaleProfit(t, items)
            && (t.txType != "sell" ==> after.profitCents == before.profitCents)
            && after.transactions.Some?
            && |after.transactions.value| == |TransactionsOf(location, txs)| + 1
  {
    assert TransactionsOf(location, txs + [t]) == TransactionsOf(location, txs) + [t] by {
      TransactionsOfAppend(location, txs, t);
    }
    SalesProfitAppend(TransactionsOf(location, txs), t, items);
  }

  lemma {:induction false} TransactionsOfAppend(location: Location, txs: seq<TxRow>, t: TxRow)
    requires t.locationId == location.id
    ensures TransactionsOf(location, txs + [t]) == TransactionsOf(location, txs) + [t]
  {
    if txs == [] {
      assert [t][1..] == [];
    } else {
      assert (txs + [t])[1..] == txs[1..] + [t];
      TransactionsOfAppend(location, txs[1..], t);
    }
  }

  /** The literal value differs from the intended one as soon as a location with
      stock has two transactions: 10 sheets at 100 cents are reported as 2000. */
  lemma ValueFanOutExample()
    ensures var loc := Location(1, "Durham");
            var inventory := [InventoryRow(1, 1, 10)];
            var items := map[1 := Item("4x5", 100, 10)];
            var txs := [TxRow(1, 1, Some(1), 10, "add", None, 1), TxRow(2, 1, Some(1), 5, "add", None, 2)];
            View(loc, inventory, items, txs).inventoryValueCents == 2000
            && IntendedView(loc, inventory, items, txs).inventoryValueCents == 1000
  {
    var loc := Location(1, "Durham");
    var inventory := [InventoryRow(1, 1, 10)];
    var items := map[1 := Item("4x5", 100, 10)];
    var txs := [TxRow(1, 1, Some(1), 10, "add", None, 1), TxRow(2, 1, Some(1), 5, "add", None, 2)];
    LiteralStockValue(loc, inventory, items, txs);
    assert InventoryOf(loc, inventory) == inventory;
  }

  lemma LiteralStockValue(loc: Location, inventory: seq<InventoryRow>, items: map<int, Item>, txs: seq<TxRow>)
    requires loc == Location(1, "Durham")
    requires inventory == [InventoryRow(1, 1, 10)]
    requires items == map[1 := Item("4x5", 100, 10)]
    requires txs == [TxRow(1, 1, Some(1), 10, "add", None, 1), TxRow(2, 1, Some(1), 5, "add", None, 2)]
    ensures View(loc, inventory, items, txs).inventoryValueCents == 2000
  {
    LiteralValue(loc, inventory, items, txs);
    StockValueFigures(loc, inventory, items, txs);
  }

  lemma StockValueFigures(loc: Location, inventory: seq<InventoryRow>, items: map<int, Item>, txs: seq<TxRow>)
    requires loc == Location(1, "Durham")
    requires inventory == [InventoryRow(1, 1, 10)]
    requires items == map[1 := Item("4x5", 100, 10)]
    requires txs == [TxRow(1, 1, Some(1), 10, "add", None, 1), TxRow(2, 1, Some(1), 5, "add", None, 2)]
    ensures StockWorth(InventoryOf(loc, inventory), items) == 1000
    ensures TransactionsOf(loc, txs) != [] && |TransactionsOf(loc, txs)| == 2
  {
    assert InventoryOf(loc, inventory) == inventory;
    assert TransactionsOf(loc, txs[1..]) == txs[1..];
    assert TransactionsOf(loc, txs) == txs;
  }

  /** Selling 3 sheets of 4x5 (profit 10) at a location stocking 4x5 and 4x8
      (profit 20) is reported as 90 cents of profit instead of 30. */
  lemma ProfitFanOutExample()
    ensures var loc := Location(1, "Durham");
            var inventory := [InventoryRow(1, 1, 10), InventoryRow(1, 2, 10)];
            var items := map[1 := Item("4x5", 100, 10), 2 := Item("4x8", 200, 20)];
            var txs := [TxRow(1, 1, Some(1), 3, "sell", None, 1)];
            View(loc, inventory, items, txs).profitCents == 90
            && IntendedView(loc, inventory, items, txs).profitCents == 30
  {
    var loc := Location(1, "Durham");
    var inventory := [InventoryRow(1, 1, 10), InventoryRow(1, 2, 10)];
    var items := map[1 := Item("4x5", 100, 10), 2 := Item("4x8", 200, 20)];
    var txs := [TxRow(1, 1, Some(1), 3, "sell", None, 1)];
    LiteralSaleProfit(loc, inventory, items, txs);
    IntendedSaleProfit(loc, inventory, items, txs);
  }

  lemma LiteralSaleProfit(loc: Location, inventory: seq<InventoryRow>, items: map<int, Item>, txs: seq<TxRow>)
    requires loc == Location(1, "Durham")
    requires inventory == [InventoryRow(1, 1, 10), InventoryRow(1, 2, 10)]
    requires items == map[1 := Item("4x5", 100, 10), 2 := Item("4x8", 200, 20)]
    requires txs == [TxRow(1, 1, Some(1), 3, "sell", None, 1)]
    ensures View(loc, inventory, items, txs).profitCents == 90
  {
    LiteralProfit(loc, inventory, items, txs);
    SaleProfitFigures(loc, inventory, items, txs);
  }

  lemma SaleProfitFigures(loc: Location, inventory: seq<InventoryRow>, items: map<int, Item>, txs: seq<TxRow>)
    requires loc == Location(1, "Durham")
    requires inventory == [InventoryRow(1, 1, 10), InventoryRow(1, 2, 10)]
    requires items == map[1 := Item("4x5", 100, 10), 2 := Item("4x8", 200, 20)]
    requires txs == [TxRow(1, 1, Some(1), 3, "sell", None, 1)]
    ensures SellQuantity(TransactionsOf(loc, txs)) == 3
    ensures StockedProfits(InventoryOf(loc, inventory), items) == 30
  {
    assert InventoryOf(loc, inventory[1..]) == inventory[1..];
    assert InventoryOf(loc, inventory) == inventory;
    assert TransactionsOf(loc, txs) == txs;
    assert StockedProfits(inventory[1..], items) == 20;
  }

  lemma IntendedSaleProfit(loc: Location, inventory: seq<InventoryRow>, items: map<int, Item>, txs: seq<TxRow>)
    requires loc == Location(1, "Durham")
    requires items == map[1 := Item("4x5", 100, 10), 2 := Item("4x8", 200, 20)]
    requires txs == [TxRow(1, 1, Some(1), 3, "sell", None, 1)]
    ensures IntendedView(loc, inventory, items, txs).profitCents == 30
  {
    assert TransactionsOf(loc, txs) == txs;
    assert SalesProfit(txs[1..], items) == 0;
    assert SalesProfit(txs, items) == 30;
  }
}
