/** The transaction history of frontend/src/components/TransactionsTable.jsx.
    `allTransactions` groups each location's transactions by date key (the part
    of the date before 'T'), one row per key in first-seen order, summing the
    two quantity columns; the filters then keep one location and an inclusive
    date range, and the rows are sorted by date. The grouping is modelled as
    the loops it is, proved against a specification by functions; the filters
    and the sort are functions. `new Date(…)` is an abstract `time` function. */
module TransactionsTable {
  import opened Common
  import opened ClientData
  import Sorting
  import Ledger

  /** One row of the table. `date`, `txType`, and the location come from the
      first transaction of the group. */
  datatype Group = Group(date: string, locationId: int, locationName: string,
                         qty4x5: int, qty4x8: int, txType: string)

  /** `transaction.date || transaction.created_at`. */
  function TxDate(t: ClientTx): string {
    OrElse(t.date, t.createdAt)
  }

  /** The grouping key: `txDate.split('T')[0]`. */
  function DateKey(t: ClientTx): string {
    BeforeT(TxDate(t))
  }

  /** `transaction.qty4x5 || 0`. */
  function Q45(t: ClientTx): int {
    t.qty4x5.GetOr(0)
  }

  /** `transaction.qty4x8 || 0`. */
  function Q48(t: ClientTx): int {
    t.qty4x8.GetOr(0)
  }

  // ---------------------------------------------------------------------------
  // Specification of the grouping

  /** The distinct date keys of `txs`, in the order they are first seen. */
  function Keys(txs: seq<ClientTx>): (r: seq<string>)
    ensures forall i, j :: 0 <= i < j < |r| ==> r[i] != r[j]
  {
    if txs == [] then []
    else
      var keys := Keys(txs[..|txs| - 1]);
      var last := DateKey(txs[|txs| - 1]);
      if last in keys then keys else keys + [last]
  }

  /** Every transaction's key is listed. */
  lemma {:induction false} KeyListed(txs: seq<ClientTx>, j: nat)
    requires j < |txs|
    ensures DateKey(txs[j]) in Keys(txs)
  {
    var p := txs[..|txs| - 1];
    if j < |p| {
      KeyListed(p, j);
      assert txs[j] == p[j];
    }
  }

  /** The keys are listed in the order of their first transaction. */
  lemma {:induction false} KeysFirstSeenOrder(txs: seq<ClientTx>)
    ensures forall m, n :: 0 <= m < n < |Keys(txs)| ==> FirstIndex(txs, Keys(txs)[m]) < FirstIndex(txs, Keys(txs)[n])
  {
    if txs != [] {
      var p := txs[..|txs| - 1];
      KeysFirstSeenOrder(p);
      var kp := Keys(p);
      var k := Keys(txs);
      forall m, n | 0 <= m < n < |k|
        ensures FirstIndex(txs, k[m]) < FirstIndex(txs, k[n])
      {
        assert k[m] == kp[m];
        assert FirstIndex(txs, k[m]) == FirstIndex(p, k[m]);
        if n < |kp| {
          assert k[n] == kp[n];
          assert FirstIndex(txs, k[n]) == FirstIndex(p, k[n]);
        } else {
          assert k[n] == DateKey(txs[|txs| - 1]) && k[n] !in kp;
          assert FirstIndex(txs, k[n]) == |txs| - 1;
        }
      }
    }
  }

  /** The position of the first transaction whose key is `k`. */
  function FirstIndex(txs: seq<ClientTx>, k: string): (i: nat)
    requires k in Keys(txs)
    ensures i < |txs| && DateKey(txs[i]) == k
    ensures forall j :: 0 <= j < i ==> DateKey(txs[j]) != k
  {
    var p := txs[..|txs| - 1];
    if k in Keys(p) then FirstIndex(p, k)
    else
      assert forall j :: 0 <= j < |p| ==> DateKey(txs[j]) != k by {
        forall j | 0 <= j < |p| ensures DateKey(txs[j]) != k {
          KeyListed(p, j);
          assert txs[j] == p[j];
        }
      }
      |txs| - 1
  }

  /** The sum of `q` over the transactions whose key is `k`. */
  function GroupSum(txs: seq<ClientTx>, k: string, q: ClientTx -> int): int {
    if txs == [] then 0
    else
      var last := txs[|txs| - 1];
      GroupSum(txs[..|txs| - 1], k, q) + (if DateKey(last) == k then q(last) else 0)
  }

  /** The row for key `k`: header fields from the first transaction with that
      key, quantities summed over all of them. */
  function GroupOf(l: ClientLocation, txs: seq<ClientTx>, k: string): (g: Group)
    requires k in Keys(txs)
    ensures BeforeT(g.date) == k && g.locationId == l.id && g.locationName == l.name
  {
    var first := txs[FirstIndex(txs, k)];
    Group(TxDate(first), l.id, l.name, GroupSum(txs, k, Q45), GroupSum(txs, k, Q48), first.txType)
  }

  function GroupsFor(l: ClientLocation, txs: seq<ClientTx>, keys: seq<string>): (r: seq<Group>)
    requires forall k :: k in keys ==> k in Keys(txs)
    ensures |r| == |keys|
    ensures forall m :: 0 <= m < |r| ==> r[m] == GroupOf(l, txs, keys[m])
  {
    if keys == [] then [] else [GroupOf(l, txs, keys[0])] + GroupsFor(l, txs, keys[1..])
  }

  /** The rows of one location: one per distinct date key, in first-seen order;
      none when its `transactions` is null. */
  function LocationGroups(l: ClientLocation): seq<Group> {
    if l.transactions.None? then []
    else GroupsFor(l, l.transactions.value, Keys(l.transactions.value))
  }

  function AllGroups(locations: seq<ClientLocation>): seq<Group> {
    if locations == [] then []
    else AllGroups(locations[..|locations| - 1]) + LocationGroups(locations[|locations| - 1])
  }

  /** `allTransactions`: no rows without data, otherwise each location's rows in
      location order. */
  function GroupedTransactions(data: Option<Data>): seq<Group> {
    if data.None? || data.value.locations.None? then [] else AllGroups(data.value.locations.value)
  }

  // ---------------------------------------------------------------------------
  // The grouping loops

  /** A key absent from `txs` has an empty group. */
  lemma {:induction false} GroupSumAbsent(txs: seq<ClientTx>, k: string, q: ClientTx -> int)
    requires k !in Keys(txs)
    ensures GroupSum(txs, k, q) == 0
  {
    if txs != [] {
      GroupSumAbsent(txs[..|txs| - 1], k, q);
    }
  }

  /** How one more transaction changes the row of key `k`. */
  lemma ExtendGroup(l: ClientLocation, s: seq<ClientTx>, t: ClientTx, k: string)
    requires k in Keys(s + [t])
    ensures k in Keys(s) ==>
              var g := GroupOf(l, s, k);
              GroupOf(l, s + [t], k)
              == g.(qty4x5 := g.qty4x5 + (if DateKey(t) == k then Q45(t) else 0),
                    qty4x8 := g.qty4x8 + (if DateKey(t) == k then Q48(t) else 0))
    ensures k !in Keys(s) ==>
              k == DateKey(t) && GroupOf(l, s + [t], k) == Group(TxDate(t), l.id, l.name, Q45(t), Q48(t), t.txType)
  {
    assert (s + [t])[..|s|] == s;
    assert s + [t] != [];
    if k !in Keys(s) {
      GroupSumAbsent(s, k, Q45);
      GroupSumAbsent(s, k, Q48);
    }
  }

  /** The key order after one more transaction: unchanged, or its key appended. */
  lemma KeysAppend(s: seq<ClientTx>, t: ClientTx)
    ensures Keys(s + [t]) == if DateKey(t) in Keys(s) then Keys(s) else Keys(s) + [DateKey(t)]
  {
    assert (s + [t])[..|s|] == s;
  }

  /** One pass of the `forEach` body keeps `byDate` equal to the rows of the
      transactions seen so far. */
  lemma GroupingStep(l: ClientLocation, s: seq<ClientTx>, t: ClientTx, byDate: map<string, Group>,
                     g: Group, after: map<string, Group>)
    requires forall k :: k in byDate <==> k in Keys(s)
    requires forall k :: k in byDate ==> byDate[k] == GroupOf(l, s, k)
    requires g == if DateKey(t) in byDate then byDate[DateKey(t)] else Group(TxDate(t), l.id, l.name, 0, 0, t.txType)
    requires after == byDate[DateKey(t) := g.(qty4x5 := g.qty4x5 + Q45(t), qty4x8 := g.qty4x8 + Q48(t))]
    ensures forall k :: k in after <==> k in Keys(s + [t])
    ensures forall k :: k in after ==> after[k] == GroupOf(l, s + [t], k)
  {
    KeysAppend(s, t);
    forall k | k in after
      ensures after[k] == GroupOf(l, s + [t], k)
    {
      GroupingStepAt(l, s, t, byDate, g, after, k);
    }
  }

  lemma GroupingStepAt(l: ClientLocation, s: seq<ClientTx>, t: ClientTx, byDate: map<string, Group>,
                       g: Group, after: map<string, Group>, k: string)
    requires forall k :: k in byDate <==> k in Keys(s)
    requires forall k :: k in byDate ==> byDate[k] == GroupOf(l, s, k)
    requires g == if DateKey(t) in byDate then byDate[DateKey(t)] else Group(TxDate(t), l.id, l.name, 0, 0, t.txType)
    requires after == byDate[DateKey(t) := g.(qty4x5 := g.qty4x5 + Q45(t), qty4x8 := g.qty4x8 + Q48(t))]
    requires k in Keys(s + [t])
    ensures k in after && after[k] == GroupOf(l, s + [t], k)
  {
    ExtendGroup(l, s, t, k);
  }

  /** The `forEach` over one location's transactions, filling `txByDate`
      (here `byDate`, with `order` the order in which its keys were created). */
  method IndexByDate(l: ClientLocation, txs: seq<ClientTx>) returns (byDate: map<string, Group>, order: seq<string>)
    ensures order == Keys(txs)
    ensures forall k :: k in byDate <==> k in order
    ensures forall k :: k in byDate ==> byDate[k] == GroupOf(l, txs, k)
  {
    byDate, order := map[], [];
    for i := 0 to |txs|
      invariant order == Keys(txs[..i])
      invariant forall k :: k in byDate <==> k in order
      invariant forall k :: k in byDate ==> byDate[k] == GroupOf(l, txs[..i], k)
    {
      var t := txs[i];
      assert txs[..i + 1] == txs[..i] + [t];
      var txDate := TxDate(t);
      var dateKey := BeforeT(txDate);
      KeysAppend(txs[..i], t);
      var g := if dateKey in byDate then byDate[dateKey] else Group(txDate, l.id, l.name, 0, 0, t.txType);
      if dateKey !in byDate {
        order := order + [dateKey];
      }
      var before := byDate;
      byDate := byDate[dateKey := g.(qty4x5 := g.qty4x5 + Q45(t), qty4x8 := g.qty4x8 + Q48(t))];
      GroupingStep(l, txs[..i], t, before, g, byDate);
    }
    assert txs[..|txs|] == txs;
  }

  /** One location's rows: the grouping, then the push of `txByDate`'s values
      in key order. */
  method GroupLocation(l: ClientLocation) returns (groups: seq<Group>)
    requires l.transactions.Some?
    ensures groups == LocationGroups(l)
  {
    var txs := l.transactions.value;
    var byDate, order := IndexByDate(l, txs);
    groups := [];
    for j := 0 to |order|
      invariant |groups| == j
      invariant forall m :: 0 <= m < j ==> groups[m] == GroupOf(l, txs, order[m])
    {
      groups := groups + [byDate[order[j]]];
    }
  }

  /** `allTransactions`: every location with a transaction array contributes
      its rows, in location order. */
  method AllTransactions(data: Option<Data>) returns (transactions: seq<Group>)
    ensures transactions == GroupedTransactions(data)
  {
    transactions := [];
    if data.None? || data.value.locations.None? {
      return;
    }
    var locations := data.value.locations.value;
    for i := 0 to |locations|
      invariant transactions == AllGroups(locations[..i])
    {
      var location := locations[i];
      assert locations[..i + 1][..i] == locations[..i];
      if location.transactions.Some? {
        var groups := GroupLocation(location);
        transactions := transactions + groups;
      }
    }
    assert locations[..|locations|] == locations;
  }

  // ---------------------------------------------------------------------------
  // Properties of the grouping

  /** One row per distinct date key, each row's date carrying its key. */
  lemma OneRowPerDateKey(l: ClientLocation)
    requires l.transactions.Some?
    ensures var rows := LocationGroups(l);
            var txs := l.transactions.value;
            && (forall i, j :: 0 <= i < j < |rows| ==> BeforeT(rows[i].date) != BeforeT(rows[j].date))
            && (forall t :: t in txs ==> exists g :: g in rows && BeforeT(g.date) == DateKey(t))
            && (forall g :: g in rows ==> exists t :: t in txs && BeforeT(g.date) == DateKey(t))
  {
    var rows := LocationGroups(l);
    var txs := l.transactions.value;
    var keys := Keys(txs);
    forall t | t in txs
      ensures exists g :: g in rows && BeforeT(g.date) == DateKey(t)
    {
      var n :| 0 <= n < |txs| && txs[n] == t;
      KeyListed(txs, n);
      var m :| 0 <= m < |keys| && keys[m] == DateKey(t);
      assert rows[m] in rows;
    }
  }

  /** The sum of `q` over the rows of the keys in `keys`. */
  function KeySums(keys: seq<string>, txs: seq<ClientTx>, q: ClientTx -> int): int {
    if keys == [] then 0 else GroupSum(txs, keys[0], q) + KeySums(keys[1..], txs, q)
  }

  lemma {:induction false} KeySumsConcat(a: seq<string>, b: seq<string>, txs: seq<ClientTx>, q: ClientTx -> int)
    ensures KeySums(a + b, txs, q) == KeySums(a, txs, q) + KeySums(b, txs, q)
  {
    if a == [] {
      assert a + b == b;
    } else {
      assert (a + b)[1..] == a[1..] + b;
      KeySumsConcat(a[1..], b, txs, q);
    }
  }

  /** One more transaction adds its quantity to exactly the row of its key. */
  lemma {:induction false} KeySumsAppend(keys: seq<string>, s: seq<ClientTx>, t: ClientTx, q: ClientTx -> int)
    requires forall i, j :: 0 <= i < j < |keys| ==> keys[i] != keys[j]
    ensures KeySums(keys, s + [t], q) == KeySums(keys, s, q) + (if DateKey(t) in keys then q(t) else 0)
  {
    assert (s + [t])[..|s|] == s;
    if keys != [] {
      KeySumsAppend(keys[1..], s, t, q);
      assert DateKey(t) in keys <==> DateKey(t) == keys[0] || DateKey(t) in keys[1..];
      assert keys[0] !in keys[1..];
    }
  }

  /** Grouping conserves quantities: the rows of the keys sum to the total. */
  lemma {:induction false} GroupSumsConserved(txs: seq<ClientTx>, q: ClientTx -> int)
    ensures KeySums(Keys(txs), txs, q) == SumOf(txs, q)
  {
    if txs != [] {
      var s := txs[..|txs| - 1];
      var t := txs[|txs| - 1];
      assert txs == s + [t];
      GroupSumsConserved(s, q);
      SumOfAppend(s, t, q);
      KeySumsAppend(Keys(s), s, t, q);
      if DateKey(t) !in Keys(s) {
        KeySumsConcat(Keys(s), [DateKey(t)], txs, q);
        assert (s + [t])[..|s|] == s;
        GroupSumAbsent(s, DateKey(t), q);
      }
    }
  }

  function Row45(g: Group): int {
    g.qty4x5
  }

  function Row48(g: Group): int {
    g.qty4x8
  }

  lemma {:induction false} GroupsForSums(l: ClientLocation, txs: seq<ClientTx>, keys: seq<string>)
    requires forall k :: k in keys ==> k in Keys(txs)
    ensures SumOf(GroupsFor(l, txs, keys), Row45) == KeySums(keys, txs, Q45)
    ensures SumOf(GroupsFor(l, txs, keys), Row48) == KeySums(keys, txs, Q48)
  {
    if keys != [] {
      var r := GroupsFor(l, txs, keys);
      assert r[1..] == GroupsFor(l, txs, keys[1..]);
      GroupsForSums(l, txs, keys[1..]);
    }
  }

  /** The rows of a location carry exactly the quantities of its transactions,
      missing quantities counting as 0. */
  lemma GroupingConservesQuantities(l: ClientLocation)
    requires l.transactions.Some?
    ensures SumOf(LocationGroups(l), Row45) == SumOf(l.transactions.value, Q45)
    ensures SumOf(LocationGroups(l), Row48) == SumOf(l.transactions.value, Q48)
  {
    var txs := l.transactions.value;
    GroupsForSums(l, txs, Keys(txs));
    GroupSumsConserved(txs, Q45);
    GroupSumsConserved(txs, Q48);
  }

  // ---------------------------------------------------------------------------
  // Filters, sort and labels

  /** `filter((t) => t.locationId === id)`; a `None` id (`NaN`) keeps nothing. */
  function AtLocation(rows: seq<Group>, id: Option<int>): (r: seq<Group>)
    ensures forall g :: g in r <==> g in rows && Some(g.locationId) == id
    ensures forall g :: multiset(r)[g] == if Some(g.locationId) == id then multiset(rows)[g] else 0
    ensures |r| <= |rows|
  {
    if rows == [] then []
    else
      assert rows == [rows[0]] + rows[1..];
      (if Some(rows[0].locationId) == id then [rows[0]] else []) + AtLocation(rows[1..], id)
  }

  /** The location filter: an explicit `filterLocation` wins over the selected
      location, and with both "all" every row stays. */
  function LocationFiltered(rows: seq<Group>, filterLocation: string, selected: string): (r: seq<Group>)
    ensures forall g :: g in r <==>
              g in rows
              && (filterLocation != "all" ==> Some(g.locationId) == ParseInt(filterLocation))
              && (filterLocation == "all" && selected != "all" ==> Some(g.locationId) == ParseInt(selected))
    ensures forall g :: multiset(r)[g] ==
              if (filterLocation != "all" ==> Some(g.locationId) == ParseInt(filterLocation))
                 && (filterLocation == "all" && selected != "all" ==> Some(g.locationId) == ParseInt(selected))
              then multiset(rows)[g] else 0
    ensures filterLocation == "all" && selected == "all" ==> r == rows
  {
    if filterLocation != "all" then AtLocation(rows, ParseInt(filterLocation))
    else if selected != "all" then AtLocation(rows, ParseInt(selected))
    else rows
  }

  /** `start <= key <= end` on strings. */
  predicate InRange(key: string, start: string, end: string) {
    LexLe(start, key) && LexLe(key, end)
  }

  /** The date filter: rows whose date key lies in [start, end], both ends included. */
  function InDateRange(rows: seq<Group>, start: string, end: string): (r: seq<Group>)
    ensures forall g :: g in r <==> g in rows && InRange(BeforeT(g.date), start, end)
    ensures forall g :: multiset(r)[g] == if InRange(BeforeT(g.date), start, end) then multiset(rows)[g] else 0
    ensures |r| <= |rows|
  {
    if rows == [] then []
    else
      assert rows == [rows[0]] + rows[1..];
      (if InRange(BeforeT(rows[0].date), start, end) then [rows[0]] else []) + InDateRange(rows[1..], start, end)
  }

  /** The sort key: the row's date as a point in time. */
  function ByTime(time: string -> int): Group -> int {
    (g: Group) => time(g.date)
  }

  /** "reverse" sorts newest first, any other order oldest first. */
  function SortRows(rows: seq<Group>, sortOrder: string, time: string -> int): (r: seq<Group>)
    ensures Sorting.SortedBy(r, ByTime(time), sortOrder == "reverse")
    ensures multiset(r) == multiset(rows)
  {
    Sorting.SortBy(rows, ByTime(time), sortOrder == "reverse")
  }

  /** `filteredTransactions`: the rows shown are exactly the rows of the chosen
      location within the date range, each as often as before, in the chosen
      date order. */
  function FilteredTransactions(rows: seq<Group>, filterLocation: string, selected: string,
                                start: string, end: string, sortOrder: string, time: string -> int): (r: seq<Group>)
    ensures Sorting.SortedBy(r, ByTime(time), sortOrder == "reverse")
    ensures multiset(r) == multiset(InDateRange(LocationFiltered(rows, filterLocation, selected), start, end))
    ensures forall g :: g in r <==>
              g in rows && InRange(BeforeT(g.date), start, end)
              && (filterLocation != "all" ==> Some(g.locationId) == ParseInt(filterLocation))
              && (filterLocation == "all" && selected != "all" ==> Some(g.locationId) == ParseInt(selected))
    ensures forall g :: multiset(r)[g] ==
              if InRange(BeforeT(g.date), start, end)
                 && (filterLocation != "all" ==> Some(g.locationId) == ParseInt(filterLocation))
                 && (filterLocation == "all" && selected != "all" ==> Some(g.locationId) == ParseInt(selected))
              then multiset(rows)[g] else 0
  {
    var kept := InDateRange(LocationFiltered(rows, filterLocation, selected), start, end);
    var r := SortRows(kept, sortOrder, time);
    assert forall g :: g in r <==> g in kept by {
      forall g
        ensures g in r <==> g in kept
      {
        assert g in r <==> g in multiset(r);
        assert g in kept <==> g in multiset(kept);
      }
    }
    r
  }

  /** `getTransactionTypeLabel`. */
  function TypeLabel(txType: string, truckType: Option<string>, mode: Option<string>): (r: string)
    ensures r == "Sale" <==> txType != "add"
    ensures r in {"Truck Delivery - Full 4x5", "Truck Delivery - Full 4x8", "Truck Delivery - 50/50", "Custom Add", "Sale"}
    ensures r == "Truck Delivery - Full 4x5" <==> txType == "add" && truckType == Some("4x5")
    ensures r == "Truck Delivery - Full 4x8" <==> txType == "add" && truckType == Some("4x8")
    ensures r == "Truck Delivery - 50/50"
            <==> txType == "add" && truckType != Some("4x5") && truckType != Some("4x8") && mode == Some("split")
    ensures r == "Custom Add"
            <==> txType == "add" && truckType != Some("4x5") && truckType != Some("4x8") && mode != Some("split")
  {
    if txType == "add" then
      if truckType == Some("4x5") then "Truck Delivery - Full 4x5"
      else if truckType == Some("4x8") then "Truck Delivery - Full 4x8"
      else if mode == Some("split") then "Truck Delivery - 50/50"
      else "Custom Add"
    else "Sale"
  }

  /** A "Full" label names the single SKU the server's full-truck branch adds,
      and the "50/50" label goes with the request the dialog sends for a split
      truck, which the server adds as its split quantities. */
  lemma TypeLabelMatchesDelivery(truckType: Option<string>, mode: Option<string>)
    ensures TypeLabel("add", truckType, mode) == "Truck Delivery - Full 4x5"
            <==> Ledger.TruckQuantities(truckType) == [(Ledger.S4x5, Ledger.FullTruck4x5)]
    ensures TypeLabel("add", truckType, mode) == "Truck Delivery - Full 4x8"
            <==> Ledger.TruckQuantities(truckType) == [(Ledger.S4x8, Ledger.FullTruck4x8)]
    ensures TypeLabel("add", None, Some("split")) == "Truck Delivery - 50/50"
            && Ledger.TruckQuantities(None) == [(Ledger.S4x5, Ledger.Split4x5), (Ledger.S4x8, Ledger.Split4x8)]
  {
  }

  /** The grouped rows carry neither `truckType` nor `mode`, so no row of the
      table is labelled a truck delivery: every addition reads "Custom Add",
      whatever kind of truck it was. */
  lemma GroupedRowsLabels(data: Option<Data>)
    ensures forall g :: g in GroupedTransactions(data) ==>
              TypeLabel(g.txType, None, None) == (if g.txType == "add" then "Custom Add" else "Sale")
    ensures forall g :: g in GroupedTransactions(data) ==>
              TypeLabel(g.txType, None, None) !in {"Truck Delivery - Full 4x5", "Truck Delivery - Full 4x8", "Truck Delivery - 50/50"}
  {
  }
}
