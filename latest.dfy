/** The home screen's recent-transactions section: the records grouped by
    day, newest day first, at most three records under each day. */
module LatestTransactions {
  import opened Data
  import opened Strings
  import opened DayGroups

  /** `transactionsForDay.take(3)` for every group. */
  function CapItems(gs: seq<DayGroup>): (r: seq<DayGroup>)
    ensures |r| == |gs|
    ensures forall i :: 0 <= i < |r| ==> r[i].day == gs[i].day && r[i].items == Take(gs[i].items, 3)
  {
    if gs == [] then [] else [gs[0].(items := Take(gs[0].items, 3))] + CapItems(gs[1..])
  }

  /** What the section shows: the empty-list message, or the day groups. */
  datatype Section = NoRecentTransactions | DayList(groups: seq<DayGroup>)

  function LatestSection(ts: seq<TransactionData>): Section {
    if ts == [] then NoRecentTransactions
    else DayList(CapItems(GroupByDay(ts, Descending)))
  }

  lemma {:induction false} CapDays(gs: seq<DayGroup>)
    ensures Days(CapItems(gs)) == Days(gs)
  {
    if gs != [] {
      CapDays(gs[1..]);
    }
  }

  lemma {:induction false} CapItemsAt(gs: seq<DayGroup>, d: string)
    ensures ItemsAt(CapItems(gs), d) == Take(ItemsAt(gs, d), 3)
  {
    if gs != [] {
      CapItemsAt(gs[1..], d);
    }
  }

  lemma {:induction false} CapSorted(gs: seq<DayGroup>, order: Order)
    requires Sorted(gs, order)
    ensures Sorted(CapItems(gs), order)
  {
    if gs != [] {
      CapSorted(gs[1..], order);
      CapDays(gs[1..]);
    }
  }

  lemma {:induction false} CapNonEmpty(gs: seq<DayGroup>)
    requires AllNonEmpty(gs)
    ensures AllNonEmpty(CapItems(gs))
  {
    if gs != [] {
      CapNonEmpty(gs[1..]);
    }
  }

  lemma {:induction false} CapTotal(gs: seq<DayGroup>)
    ensures TotalItems(CapItems(gs)) <= TotalItems(gs)
    ensures TotalItems(CapItems(gs)) <= 3 * |gs|
    ensures (forall i :: 0 <= i < |gs| ==> |gs[i].items| <= 3) ==> CapItems(gs) == gs
  {
    if gs != [] {
      CapTotal(gs[1..]);
    }
  }

  /** The message is shown exactly for an empty list; otherwise there is at
      least one day and no day is empty. */
  lemma SectionShape(ts: seq<TransactionData>)
    ensures LatestSection(ts) == NoRecentTransactions <==> ts == []
    ensures LatestSection(ts).DayList? ==> LatestSection(ts).groups != [] && AllNonEmpty(LatestSection(ts).groups)
  {
    if ts != [] {
      var gs := GroupByDay(ts, Descending);
      GroupByDayCounts(ts, Descending);
      CapNonEmpty(gs);
      assert ts[|ts| - 1] in ts;
      GroupByDayDays(ts, Descending, Dates.DayKey(ts[|ts| - 1].date));
      assert OnDay(ts, Dates.DayKey(ts[|ts| - 1].date)) != [];
    }
  }

  /** Days are listed newest first, each once; a day is listed exactly when
      it has a record; under it are the first three of its records, in list
      order. */
  lemma LatestByDay(ts: seq<TransactionData>, d: string)
    requires ts != []
    ensures Sorted(LatestSection(ts).groups, Descending)
    ensures d in Days(LatestSection(ts).groups) <==> OnDay(ts, d) != []
    ensures ItemsAt(LatestSection(ts).groups, d) == Take(OnDay(ts, d), 3)
  {
    var gs := GroupByDay(ts, Descending);
    GroupByDaySorted(ts, Descending);
    CapSorted(gs, Descending);
    CapDays(gs);
    GroupByDayDays(ts, Descending, d);
    CapItemsAt(gs, d);
    GroupByDayItems(ts, Descending, d);
  }

  /** There is a cap per day and none across days: at most three records per
      listed day, never more than the list holds, and every record is shown
      when no day has more than three. */
  lemma LatestCounts(ts: seq<TransactionData>)
    requires ts != []
    ensures TotalItems(LatestSection(ts).groups) <= |ts|
    ensures TotalItems(LatestSection(ts).groups) <= 3 * |LatestSection(ts).groups|
    ensures (forall d :: |OnDay(ts, d)| <= 3) ==> TotalItems(LatestSection(ts).groups) == |ts|
  {
    var gs := GroupByDay(ts, Descending);
    GroupByDayCounts(ts, Descending);
    CapTotal(gs);
    if forall d :: |OnDay(ts, d)| <= 3 {
      forall i | 0 <= i < |gs|
        ensures |gs[i].items| <= 3
      {
        GroupByDaySorted(ts, Descending);
        ItemsAtOwnDay(gs, Descending, i);
        GroupByDayItems(ts, Descending, gs[i].day);
      }
    }
  }
}
