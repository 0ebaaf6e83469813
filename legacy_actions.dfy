/** The older `POST /actions` handler of backend/routes/actions.js. It has its own
    delta table, always updates both inventory rows of the location (item 1 is
    4x5 and item 2 is 4x8) and logs the two signed deltas. It writes the same two
    tables as the ledger engine, so it is modelled against the same store. */
module LegacyActions {
  import opened Common
  import opened Ledger

  /** `Math.abs`. */
  function Abs(x: int): int {
    if x < 0 then -x else x
  }

  /** The (add4x5, add4x8) pair the if/else chain settles on. Missing quantities
      default to 0 (the destructuring defaults). */
  function Deltas(action: string, qty4x5: Option<int>, qty4x8: Option<int>): (d: (int, int))
    ensures action in {"fullTruck", "splitTruck"} ==> d.0 > 0 && d.1 > 0
    ensures action == "sell" ==> d.0 <= 0 && d.1 <= 0
    ensures action == "custom" ==> d == (qty4x5.GetOr(0), qty4x8.GetOr(0))
    ensures action !in {"fullTruck", "splitTruck", "custom", "sell"} ==> d == (0, 0)
  {
    var q45 := qty4x5.GetOr(0);
    var q48 := qty4x8.GetOr(0);
    if action == "fullTruck" then (120, 80)
    else if action == "splitTruck" then (60, 40)
    else if action == "custom" then (q45, q48)
    else if action == "sell" then (-Abs(q45), -Abs(q48))
    else (0, 0)
  }

  /** The type written to both log rows. */
  function LoggedKind(action: string): (k: Kind)
    ensures k == Sell <==> action == "sell"
  {
    if action == "sell" then Sell else Add
  }

  /** The two rows of the multi-row INSERT, holding the signed deltas. */
  function LegacyRows(action: string, location: int, d4x5: int, d4x8: int, date: string): (r: seq<Tx>)
    ensures |r| == 2 && r[0].item == Some(S4x5) && r[1].item == Some(S4x8)
    ensures r[0].quantity == d4x5 && r[1].quantity == d4x8
    ensures forall t :: t in r ==> t.location == location && t.date == date && (t.kind == Sell <==> action == "sell")
  {
    [Tx(location, Some(S4x5), d4x5, LoggedKind(action), date),
     Tx(location, Some(S4x8), d4x8, LoggedKind(action), date)]
  }

  lemma TruckDeltas(qty4x5: Option<int>, qty4x8: Option<int>)
    ensures Deltas("fullTruck", qty4x5, qty4x8) == (120, 80)
    ensures Deltas("splitTruck", qty4x5, qty4x8) == (60, 40)
  {
  }

  /** Custom quantities are used as they are, with no positivity filter. */
  lemma CustomDeltasAsGiven(qty4x5: Option<int>, qty4x8: Option<int>)
    ensures Deltas("custom", qty4x5, qty4x8) == (qty4x5.GetOr(0), qty4x8.GetOr(0))
  {
  }

  /** A sale never adds stock: both deltas are minus the magnitude of the quantity. */
  lemma SellDeltasNeverPositive(qty4x5: Option<int>, qty4x8: Option<int>)
    ensures var (d45, d48) := Deltas("sell", qty4x5, qty4x8);
            d45 <= 0 && d48 <= 0 && Abs(d45) == Abs(qty4x5.GetOr(0)) && Abs(d48) == Abs(qty4x8.GetOr(0))
  {
  }

  /** An unknown action still runs both updates and both inserts, with deltas
      0: the inventory is unchanged and two zero "add" rows are logged. */
  lemma UnknownActionDeltasZero(inventory: map<RowKey, int>, action: string, location: int,
                                qty4x5: Option<int>, qty4x8: Option<int>, date: string)
    requires action !in {"fullTruck", "splitTruck", "custom", "sell"}
    ensures var (d45, d48) := Deltas(action, qty4x5, qty4x8);
            && Bump(Bump(inventory, RowKey(location, S4x5), d45), RowKey(location, S4x8), d48) == inventory
            && |LegacyRows(action, location, d45, d48, date)| == 2
            && forall t :: t in LegacyRows(action, location, d45, d48, date) ==>
                 t.location == location && t.date == date && t.kind == Add && t.quantity == 0
  {
    var once := Bump(inventory, RowKey(location, S4x5), 0);
    assert once == inventory;
    assert Bump(once, RowKey(location, S4x8), 0) == inventory;
  }

  /** The handler as written: two row updates, then the two-row insert. The log
      date is whatever the column default gives (`columnDefault`), since the
      insert names no date. */
  method PostAction(store: Store, action: string, location: int, qty4x5: Option<int>, qty4x8: Option<int>, columnDefault: string)
    modifies store
    ensures store.seed == old(store.seed)
    ensures var (d45, d48) := Deltas(action, qty4x5, qty4x8);
            store.inventory == Bump(Bump(old(store.inventory), RowKey(location, S4x5), d45), RowKey(location, S4x8), d48)
    ensures var (d45, d48) := Deltas(action, qty4x5, qty4x8);
            store.log == old(store.log) + LegacyRows(action, location, d45, d48, columnDefault)
  {
    var add4x5, add4x8 := 0, 0;
    if action == "fullTruck" {
      add4x5, add4x8 := 120, 80;
    } else if action == "splitTruck" {
      add4x5, add4x8 := 60, 40;
    } else if action == "custom" {
      add4x5, add4x8 := qty4x5.GetOr(0), qty4x8.GetOr(0);
    } else if action == "sell" {
      add4x5, add4x8 := -Abs(qty4x5.GetOr(0)), -Abs(qty4x8.GetOr(0));
    }
    store.inventory := Bump(store.inventory, RowKey(location, S4x5), add4x5);
    store.inventory := Bump(store.inventory, RowKey(location, S4x8), add4x8);
    var kind := if action == "sell" then Sell else Add;
    store.log := store.log + [Tx(location, Some(S4x5), add4x5, kind, columnDefault),
                              Tx(location, Some(S4x8), add4x8, kind, columnDefault)];
  }

  /** Only the two rows of the chosen location move, each by its delta (0 included). */
  lemma {:induction false} LegacyUpdateFrame(inventory: map<RowKey, int>, location: int, d4x5: int, d4x8: int, k: RowKey)
    requires k in inventory
    ensures var r := Bump(Bump(inventory, RowKey(location, S4x5), d4x5), RowKey(location, S4x8), d4x8);
            k in r && r[k] == inventory[k] + (if k.location != location then 0 else if k.sku == S4x5 then d4x5 else d4x8)
  {
  }

  /** As written, a legacy sale logs its negative delta under type "sell", so the
      log no longer explains the inventory: selling 3 sheets of 4x5 from a row
      of 10 leaves 7 while the log says 10 - (-3) = 13. */
  lemma LegacySellBreaksLedger()
    ensures var seed := map[RowKey(1, S4x5) := 10, RowKey(1, S4x8) := 10];
            var (d45, d48) := Deltas("sell", Some(3), None);
            var inventory := Bump(Bump(seed, RowKey(1, S4x5), d45), RowKey(1, S4x8), d48);
            var log := LegacyRows("sell", 1, d45, d48, "2025-03-01");
            Explains(seed, seed, []) && !Explains(seed, inventory, log)
  {
    var seed := map[RowKey(1, S4x5) := 10, RowKey(1, S4x8) := 10];
    var k := RowKey(1, S4x5);
    var log := LegacyRows("sell", 1, -3, 0, "2025-03-01");
    assert log[..1][..0] == [] && log[..|log| - 1] == log[..1];
    assert SoldTotal(log, k) == -3;
    assert AddedTotal(log, k) == 0;
  }

  /** The rows the handler evidently means to write: a sale is logged with the
      magnitude of its delta, so that the type carries the direction. */
  function CorrectedRows(action: string, location: int, d4x5: int, d4x8: int, date: string): seq<Tx> {
    var kind := LoggedKind(action);
    var q45 := if kind == Sell then -d4x5 else d4x5;
    var q48 := if kind == Sell then -d4x8 else d4x8;
    [Tx(location, Some(S4x5), q45, kind, date), Tx(location, Some(S4x8), q48, kind, date)]
  }

  /** With the corrected rows every action keeps the ledger invariant, and a
      sale's logged quantities are never negative. */
  lemma CorrectedRowsKeepLedger(seed: map<RowKey, int>, inventory: map<RowKey, int>, log: seq<Tx>,
                                action: string, location: int, qty4x5: Option<int>, qty4x8: Option<int>, date: string)
    requires Explains(seed, inventory, log)
    ensures var (d45, d48) := Deltas(action, qty4x5, qty4x8);
            Explains(seed, Bump(Bump(inventory, RowKey(location, S4x5), d45), RowKey(location, S4x8), d48),
                     log + CorrectedRows(action, location, d45, d48, date))
    ensures var (d45, d48) := Deltas(action, qty4x5, qty4x8);
            action == "sell" ==> forall t :: t in CorrectedRows(action, location, d45, d48, date) ==> t.quantity >= 0
  {
    var (d45, d48) := Deltas(action, qty4x5, qty4x8);
    var rows := CorrectedRows(action, location, d45, d48, date);
    var after := Bump(Bump(inventory, RowKey(location, S4x5), d45), RowKey(location, S4x8), d48);
    assert log + rows == (log + [rows[0]]) + [rows[1]];
    forall k | k in after
      ensures after[k] == seed[k] + AddedTotal(log + rows, k) - SoldTotal(log + rows, k)
    {
      AppendRecord(log, rows[0], k);
      AppendRecord(log + [rows[0]], rows[1], k);
    }
  }

  /** The corrected handler, built from the ledger's update-and-insert step. */
  method PostActionCorrected(store: Store, action: string, location: int, qty4x5: Option<int>, qty4x8: Option<int>, columnDefault: string)
    requires store.Consistent()
    modifies store
    ensures store.Consistent() && store.seed == old(store.seed)
    ensures var (d45, d48) := Deltas(action, qty4x5, qty4x8);
            store.inventory == Bump(Bump(old(store.inventory), RowKey(location, S4x5), d45), RowKey(location, S4x8), d48)
    ensures var (d45, d48) := Deltas(action, qty4x5, qty4x8);
            store.log == old(store.log) + CorrectedRows(action, location, d45, d48, columnDefault)
  {
    var (add4x5, add4x8) := Deltas(action, qty4x5, qty4x8);
    var rows := CorrectedRows(action, location, add4x5, add4x8, columnDefault);
    assert (if rows[0].kind == Add then rows[0].quantity else -rows[0].quantity) == add4x5;
    assert (if rows[1].kind == Add then rows[1].quantity else -rows[1].quantity) == add4x8;
    store.Post(location, Some(S4x5), rows[0].quantity, rows[0].kind, columnDefault);
    store.Post(location, Some(S4x8), rows[1].quantity, rows[1].kind, columnDefault);
    assert store.log == old(store.log) + rows;
  }
}
