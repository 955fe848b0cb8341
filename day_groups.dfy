/** `groupBy { dayKey(it.date) }` followed by `toSortedMap`: the records of
    a list gathered into one group per day key, the groups ordered by key
    (ascending for the history screen, descending for the recent list),
    each group keeping its records in list order. */
module DayGroups {
  import opened Data
  import opened Strings
  import opened Dates

  datatype DayGroup = DayGroup(day: string, items: seq<TransactionData>)

  datatype Order = Ascending | Descending

  /** Key `a` comes before key `b` in the map's order. */
  predicate Before(order: Order, a: string, b: string) {
    match order
    case Ascending => LexLess(a, b)
    case Descending => LexLess(b, a)
  }

  lemma BeforeIrreflexive(order: Order, a: string)
    ensures !Before(order, a, a)
  {
    LexLessIrreflexive(a);
  }

  lemma BeforeTransitive(order: Order, a: string, b: string, c: string)
    requires Before(order, a, b) && Before(order, b, c)
    ensures Before(order, a, c)
  {
    if order == Ascending {
      LexLessTransitive(a, b, c);
    } else {
      LexLessTransitive(c, b, a);
    }
  }

  lemma BeforeTotal(order: Order, a: string, b: string)
    ensures a == b || Before(order, a, b) || Before(order, b, a)
  {
    LexLessTrichotomy(a, b);
  }

  /** The day keys that have a group. */
  function Days(gs: seq<DayGroup>): set<string> {
    if gs == [] then {} else {gs[0].day} + Days(gs[1..])
  }

  /** Every key comes before all the keys after it, so no key repeats. */
  predicate Sorted(gs: seq<DayGroup>, order: Order) {
    gs == [] ||
    ((forall d | d in Days(gs[1..]) :: Before(order, gs[0].day, d)) && Sorted(gs[1..], order))
  }

  predicate AllNonEmpty(gs: seq<DayGroup>) {
    gs == [] || (gs[0].items != [] && AllNonEmpty(gs[1..]))
  }

  /** The records of the group for day `d`; none when there is no group. */
  function ItemsAt(gs: seq<DayGroup>, d: string): seq<TransactionData> {
    if gs == [] then [] else if gs[0].day == d then gs[0].items else ItemsAt(gs[1..], d)
  }

  /** The number of records over all groups. */
  function TotalItems(gs: seq<DayGroup>): nat {
    if gs == [] then 0 else |gs[0].items| + TotalItems(gs[1..])
  }

  /** The records of `ts` on day `d`, in list order. */
  function OnDay(ts: seq<TransactionData>, d: string): (r: seq<TransactionData>)
    ensures |r| <= |ts|
    ensures forall i :: 0 <= i < |r| ==> DayKey(r[i].date) == d && r[i] in ts
  {
    if ts == [] then []
    else OnDay(ts[..|ts| - 1], d) + (if DayKey(ts[|ts| - 1].date) == d then [ts[|ts| - 1]] else [])
  }

  /** Add one record at the end of its day's group, opening the group at its
      place in the order when the day is new. */
  function Insert(gs: seq<DayGroup>, t: TransactionData, order: Order): seq<DayGroup> {
    var k := DayKey(t.date);
    if gs == [] then [DayGroup(k, [t])]
    else if gs[0].day == k then [gs[0].(items := gs[0].items + [t])] + gs[1..]
    else if Before(order, k, gs[0].day) then [DayGroup(k, [t])] + gs
    else [gs[0]] + Insert(gs[1..], t, order)
  }

  /** The grouping of a whole list, record by record in list order. */
  function GroupByDay(ts: seq<TransactionData>, order: Order): seq<DayGroup> {
    if ts == [] then [] else Insert(GroupByDay(ts[..|ts| - 1], order), ts[|ts| - 1], order)
  }

  lemma ItemsAtAbsent(gs: seq<DayGroup>, d: string)
    requires d !in Days(gs)
    ensures ItemsAt(gs, d) == []
  {
  }

  /** A key before the first key of a sorted list has no group in it. */
  lemma {:induction false} BeforeFirstIsAbsent(gs: seq<DayGroup>, order: Order, k: string)
    requires Sorted(gs, order) && gs != [] && Before(order, k, gs[0].day)
    ensures k !in Days(gs)
  {
    BeforeIrreflexive(order, k);
    if k in Days(gs[1..]) {
      BeforeTransitive(order, k, gs[0].day, k);
    }
  }

  lemma {:induction false} InsertDays(gs: seq<DayGroup>, t: TransactionData, order: Order)
    ensures Days(Insert(gs, t, order)) == Days(gs) + {DayKey(t.date)}
  {
    var k := DayKey(t.date);
    if gs != [] && gs[0].day != k && !Before(order, k, gs[0].day) {
      InsertDays(gs[1..], t, order);
      assert Insert(gs, t, order)[1..] == Insert(gs[1..], t, order);
    } else if gs != [] && gs[0].day == k {
      assert Insert(gs, t, order)[1..] == gs[1..];
    } else if gs != [] {
      assert Insert(gs, t, order)[1..] == gs;
    }
  }

  lemma {:induction false} InsertSorted(gs: seq<DayGroup>, t: TransactionData, order: Order)
    requires Sorted(gs, order)
    ensures Sorted(Insert(gs, t, order), order)
  {
    var k := DayKey(t.date);
    var r := Insert(gs, t, order);
    if gs == [] {
      assert r[1..] == [];
    } else if gs[0].day == k {
      assert r[1..] == gs[1..];
    } else if Before(order, k, gs[0].day) {
      assert r[1..] == gs;
      forall d | d in Days(gs)
        ensures Before(order, k, d)
      {
        if d != gs[0].day {
          BeforeTransitive(order, k, gs[0].day, d);
        }
      }
    } else {
      BeforeTotal(order, k, gs[0].day);
      InsertSorted(gs[1..], t, order);
      InsertDays(gs[1..], t, order);
      assert r[1..] == Insert(gs[1..], t, order);
    }
  }

  lemma {:induction false} InsertItems(gs: seq<DayGroup>, t: TransactionData, order: Order, d: string)
    requires Sorted(gs, order)
    ensures ItemsAt(Insert(gs, t, order), d) == ItemsAt(gs, d) + (if DayKey(t.date) == d then [t] else [])
  {
    var k := DayKey(t.date);
    var r := Insert(gs, t, order);
    if gs == [] {
    } else if gs[0].day == k {
      assert r[1..] == gs[1..];
    } else if Before(order, k, gs[0].day) {
      assert r[1..] == gs;
      if d == k {
        BeforeFirstIsAbsent(gs, order, k);
        ItemsAtAbsent(gs, k);
      }
    } else {
      assert r[1..] == Insert(gs[1..], t, order);
      InsertItems(gs[1..], t, order, d);
    }
  }

  lemma {:induction false} InsertNonEmpty(gs: seq<DayGroup>, t: TransactionData, order: Order)
    requires AllNonEmpty(gs)
    ensures AllNonEmpty(Insert(gs, t, order))
  {
    var k := DayKey(t.date);
    var r := Insert(gs, t, order);
    if gs == [] {
      assert r[1..] == [];
    } else if gs[0].day == k {
      assert r[1..] == gs[1..];
    } else if Before(order, k, gs[0].day) {
      assert r[1..] == gs;
    } else {
      assert r[1..] == Insert(gs[1..], t, order);
      InsertNonEmpty(gs[1..], t, order);
    }
  }

  lemma {:induction false} InsertTotal(gs: seq<DayGroup>, t: TransactionData, order: Order)
    ensures TotalItems(Insert(gs, t, order)) == TotalItems(gs) + 1
  {
    var k := DayKey(t.date);
    var r := Insert(gs, t, order);
    if gs == [] {
      assert r[1..] == [];
    } else if gs[0].day == k {
      assert r[1..] == gs[1..];
    } else if Before(order, k, gs[0].day) {
      assert r[1..] == gs;
    } else {
      assert r[1..] == Insert(gs[1..], t, order);
      InsertTotal(gs[1..], t, order);
    }
  }

  /** The groups come in the map's key order, each key once. */
  lemma {:induction false} GroupByDaySorted(ts: seq<TransactionData>, order: Order)
    ensures Sorted(GroupByDay(ts, order), order)
  {
    if ts != [] {
      GroupByDaySorted(ts[..|ts| - 1], order);
      InsertSorted(GroupByDay(ts[..|ts| - 1], order), ts[|ts| - 1], order);
    }
  }

  /** The group for day `d` holds exactly the records of that day, in list
      order: nothing is lost, duplicated or reordered. */
  lemma {:induction false} GroupByDayItems(ts: seq<TransactionData>, order: Order, d: string)
    ensures ItemsAt(GroupByDay(ts, order), d) == OnDay(ts, d)
  {
    if ts != [] {
      var init := ts[..|ts| - 1];
      GroupByDayItems(init, order, d);
      GroupByDaySorted(init, order);
      InsertItems(GroupByDay(init, order), ts[|ts| - 1], order, d);
    }
  }

  /** A day has a group exactly when some record falls on it. */
  lemma {:induction false} GroupByDayDays(ts: seq<TransactionData>, order: Order, d: string)
    ensures d in Days(GroupByDay(ts, order)) <==> OnDay(ts, d) != []
  {
    if ts != [] {
      var init := ts[..|ts| - 1];
      GroupByDayDays(init, order, d);
      InsertDays(GroupByDay(init, order), ts[|ts| - 1], order);
    }
  }

  /** No group is empty, and together the groups hold every record once. */
  lemma {:induction false} GroupByDayCounts(ts: seq<TransactionData>, order: Order)
    ensures AllNonEmpty(GroupByDay(ts, order))
    ensures TotalItems(GroupByDay(ts, order)) == |ts|
  {
    if ts != [] {
      var init := ts[..|ts| - 1];
      GroupByDayCounts(init, order);
      InsertNonEmpty(GroupByDay(init, order), ts[|ts| - 1], order);
      InsertTotal(GroupByDay(init, order), ts[|ts| - 1], order);
    }
  }

  /** The recursive Sorted is the pairwise order of the keys. */
  lemma {:induction false} SortedPairwise(gs: seq<DayGroup>, order: Order, i: nat, j: nat)
    requires Sorted(gs, order) && i < j < |gs|
    ensures Before(order, gs[i].day, gs[j].day)
  {
    if i == 0 {
      DayAtIndex(gs[1..], j - 1);
    } else {
      SortedPairwise(gs[1..], order, i - 1, j - 1);
    }
  }

  lemma {:induction false} DayAtIndex(gs: seq<DayGroup>, i: nat)
    requires i < |gs|
    ensures gs[i].day in Days(gs)
  {
    if i > 0 {
      DayAtIndex(gs[1..], i - 1);
    }
  }

  /** In a sorted list a group is found by its own day. */
  lemma {:induction false} ItemsAtOwnDay(gs: seq<DayGroup>, order: Order, i: nat)
    requires Sorted(gs, order) && i < |gs|
    ensures ItemsAt(gs, gs[i].day) == gs[i].items
  {
    if i > 0 {
      SortedPairwise(gs, order, 0, i);
      BeforeIrreflexive(order, gs[0].day);
      ItemsAtOwnDay(gs[1..], order, i - 1);
    }
  }
}
