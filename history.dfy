/** The history screen: day groups in ascending key order narrowed by the
    search box, and the per-record presentation rules of `TransactionItem`. */
module History {
  import opened Data
  import opened Strings
  import opened Dates
  import opened DayGroups
  import Repository

  /** The search test: the lower-cased query occurs in the lower-cased
      category, account, target account (empty when unset) or date. Notes,
      type and amount are not searched. */
  predicate Matches(t: TransactionData, query: string) {
    var q := Lower(query);
    Contains(Lower(t.category), q) || Contains(Lower(t.account), q) ||
    Contains(Lower(t.targetAccount.GetOr("")), q) || Contains(Lower(t.date), q)
  }

  /** `transactionsForDay.any { … }`. */
  function AnyMatch(ts: seq<TransactionData>, query: string): bool {
    ts != [] && (Matches(ts[0], query) || AnyMatch(ts[1..], query))
  }

  /** `transactionsForDay.filter { … }`. */
  function KeepMatching(ts: seq<TransactionData>, query: string): (r: seq<TransactionData>)
    ensures |r| <= |ts|
    ensures forall i :: 0 <= i < |r| ==> r[i] in ts && Matches(r[i], query)
  {
    if ts == [] then []
    else if Matches(ts[0], query) then [ts[0]] + KeepMatching(ts[1..], query)
    else KeepMatching(ts[1..], query)
  }

  /** The first step of the chain: drop the days without any match. */
  function GroupsWithMatch(gs: seq<DayGroup>, query: string): seq<DayGroup> {
    if gs == [] then []
    else if AnyMatch(gs[0].items, query) then [gs[0]] + GroupsWithMatch(gs[1..], query)
    else GroupsWithMatch(gs[1..], query)
  }

  /** The second step, `mapValues`: keep the matching records of each day. */
  function NarrowItems(gs: seq<DayGroup>, query: string): seq<DayGroup> {
    if gs == [] then []
    else [gs[0].(items := KeepMatching(gs[0].items, query))] + NarrowItems(gs[1..], query)
  }

  /** What the screen lists for `transactions` and the search box text. */
  function HistoryView(ts: seq<TransactionData>, query: string): seq<DayGroup> {
    NarrowItems(GroupsWithMatch(GroupByDay(ts, Ascending), query), query)
  }

  lemma {:induction false} AnyMatchIff(ts: seq<TransactionData>, query: string)
    ensures AnyMatch(ts, query) <==> KeepMatching(ts, query) != []
  {
    if ts != [] {
      AnyMatchIff(ts[1..], query);
    }
  }

  /** No matching record is dropped by the per-day filter. */
  lemma {:induction false} KeepMatchingComplete(ts: seq<TransactionData>, query: string, t: TransactionData)
    requires t in ts && Matches(t, query)
    ensures t in KeepMatching(ts, query)
  {
    if ts[0] != t {
      assert t in ts[1..];
      KeepMatchingComplete(ts[1..], query, t);
    }
  }

  /** Every record contains the empty query. */
  lemma EmptyQueryMatches(t: TransactionData)
    ensures Matches(t, "")
  {
    ContainsEmpty(Lower(t.category));
  }

  lemma {:induction false} KeepMatchingEmptyQuery(ts: seq<TransactionData>)
    ensures KeepMatching(ts, "") == ts
  {
    if ts != [] {
      EmptyQueryMatches(ts[0]);
      KeepMatchingEmptyQuery(ts[1..]);
    }
  }

  lemma {:induction false} EmptyQueryKeepsGroups(gs: seq<DayGroup>)
    requires AllNonEmpty(gs)
    ensures NarrowItems(GroupsWithMatch(gs, ""), "") == gs
  {
    if gs != [] {
      EmptyQueryKeepsGroups(gs[1..]);
      AnyMatchIff(gs[0].items, "");
      KeepMatchingEmptyQuery(gs[0].items);
    }
  }

  /** An empty search box shows every record, grouped by day. */
  lemma EmptyQueryKeepsEverything(ts: seq<TransactionData>)
    ensures HistoryView(ts, "") == GroupByDay(ts, Ascending)
  {
    GroupByDayCounts(ts, Ascending);
    EmptyQueryKeepsGroups(GroupByDay(ts, Ascending));
  }

  lemma {:induction false} NarrowDays(gs: seq<DayGroup>, query: string)
    ensures Days(NarrowItems(gs, query)) == Days(gs)
  {
    if gs != [] {
      NarrowDays(gs[1..], query);
    }
  }

  lemma {:induction false} GroupsWithMatchDays(gs: seq<DayGroup>, query: string)
    ensures Days(GroupsWithMatch(gs, query)) <= Days(gs)
  {
    if gs != [] {
      GroupsWithMatchDays(gs[1..], query);
      if AnyMatch(gs[0].items, query) {
        assert ([gs[0]] + GroupsWithMatch(gs[1..], query))[1..] == GroupsWithMatch(gs[1..], query);
      }
    }
  }

  lemma {:induction false} NarrowItemsAt(gs: seq<DayGroup>, query: string, d: string)
    ensures ItemsAt(NarrowItems(gs, query), d) == KeepMatching(ItemsAt(gs, d), query)
  {
    if gs != [] {
      NarrowItemsAt(gs[1..], query, d);
    }
  }

  /** Dropping the days without a match leaves a day's records as they were
      when it has a match, and no group when it has none. */
  lemma {:induction false} GroupsWithMatchAt(gs: seq<DayGroup>, query: string, d: string)
    requires Sorted(gs, Ascending)
    ensures KeepMatching(ItemsAt(GroupsWithMatch(gs, query), d), query) == KeepMatching(ItemsAt(gs, d), query)
    ensures d in Days(GroupsWithMatch(gs, query)) <==> d in Days(gs) && AnyMatch(ItemsAt(gs, d), query)
  {
    if gs != [] {
      GroupsWithMatchAt(gs[1..], query, d);
      GroupsWithMatchDays(gs[1..], query);
      var rest := GroupsWithMatch(gs[1..], query);
      if AnyMatch(gs[0].items, query) {
        assert ([gs[0]] + rest)[1..] == rest;
      }
      if gs[0].day == d {
        assert d !in Days(gs[1..]) by {
          if d in Days(gs[1..]) {
            BeforeIrreflexive(Ascending, d);
          }
        }
        ItemsAtAbsent(GroupsWithMatch(gs[1..], query), d);
        AnyMatchIff(gs[0].items, query);
      }
    }
  }

  lemma {:induction false} GroupsWithMatchSorted(gs: seq<DayGroup>, query: string)
    requires Sorted(gs, Ascending)
    ensures Sorted(GroupsWithMatch(gs, query), Ascending)
  {
    if gs != [] {
      GroupsWithMatchSorted(gs[1..], query);
      GroupsWithMatchDays(gs[1..], query);
      if AnyMatch(gs[0].items, query) {
        assert ([gs[0]] + GroupsWithMatch(gs[1..], query))[1..] == GroupsWithMatch(gs[1..], query);
      }
    }
  }

  lemma {:induction false} NarrowSorted(gs: seq<DayGroup>, query: string)
    requires Sorted(gs, Ascending)
    ensures Sorted(NarrowItems(gs, query), Ascending)
  {
    if gs != [] {
      NarrowSorted(gs[1..], query);
      NarrowDays(gs[1..], query);
    }
  }

  /** Each shown day lists exactly the matching records of that day, in list
      order: every shown record matches and no match is dropped. */
  lemma HistoryViewItems(ts: seq<TransactionData>, query: string, d: string)
    ensures ItemsAt(HistoryView(ts, query), d) == KeepMatching(OnDay(ts, d), query)
  {
    var gs := GroupByDay(ts, Ascending);
    GroupByDaySorted(ts, Ascending);
    GroupByDayItems(ts, Ascending, d);
    NarrowItemsAt(GroupsWithMatch(gs, query), query, d);
    GroupsWithMatchAt(gs, query, d);
  }

  /** A day header is shown exactly when the day has a matching record. */
  lemma HistoryViewDays(ts: seq<TransactionData>, query: string, d: string)
    ensures d in Days(HistoryView(ts, query)) <==> KeepMatching(OnDay(ts, d), query) != []
  {
    var gs := GroupByDay(ts, Ascending);
    GroupByDaySorted(ts, Ascending);
    GroupByDayItems(ts, Ascending, d);
    GroupByDayDays(ts, Ascending, d);
    NarrowDays(GroupsWithMatch(gs, query), query);
    GroupsWithMatchAt(gs, query, d);
    AnyMatchIff(OnDay(ts, d), query);
  }

  /** Day headers are in ascending key order, each day once. */
  lemma HistoryViewSorted(ts: seq<TransactionData>, query: string)
    ensures Sorted(HistoryView(ts, query), Ascending)
  {
    GroupByDaySorted(ts, Ascending);
    GroupsWithMatchSorted(GroupByDay(ts, Ascending), query);
    NarrowSorted(GroupsWithMatch(GroupByDay(ts, Ascending), query), query);
  }

  /** Only the four searched fields decide a match. */
  lemma MatchIgnoresUnsearchedFields(t: TransactionData, query: string, kind: TransactionType,
                                     amount: int, notes: string)
    ensures Matches(t.(kind := kind, amount := amount, notes := notes), query) == Matches(t, query)
  {
  }

  // ---- TransactionItem ----

  /** The label under the icon. */
  function DisplayCategory(t: TransactionData): string {
    match t.kind
    case TransferOutgoing => t.category + " (to " + t.targetAccount.GetOr("unknown") + ")"
    case TransferIncoming => t.category + " (from " + t.account + ")"
    case _ => t.category
  }

  datatype Tint = Green | Red | Gray

  datatype Trend = TrendingUp | TrendingDown

  /** Whether the amount text carries a "-" before the amount. */
  function AmountNegated(t: TransactionData): (b: bool)
    ensures b <==> SignedAmount(t) == -t.amount && t.kind != Income && t.kind != TransferIncoming && t.kind != Transfer
  {
    t.kind == Expense || t.kind == TransferOutgoing
  }

  function AmountColor(t: TransactionData): Tint {
    match t.kind
    case Income => Green
    case TransferIncoming => Green
    case Expense => Red
    case TransferOutgoing => Red
    case Transfer => Gray
  }

  function TrendIcon(t: TransactionData): Trend {
    if t.kind == Income || t.kind == TransferIncoming then TrendingUp else TrendingDown
  }

  function IconColor(t: TransactionData): Tint {
    if t.kind == Income || t.kind == TransferIncoming then Green else Red
  }

  /** The presentation agrees with the record's effect on its account:
      credits are green with the up icon, debits red, negated and with the
      down icon, and only the never-stored TRANSFER request is gray. */
  lemma PresentationFollowsSign(t: TransactionData)
    requires t.amount > 0
    ensures AmountColor(t) == Green <==> SignedAmount(t) > 0
    ensures AmountColor(t) == Red <==> SignedAmount(t) < 0
    ensures AmountColor(t) == Gray <==> t.kind == Transfer
    ensures AmountNegated(t) <==> SignedAmount(t) < 0
    ensures TrendIcon(t) == TrendingUp <==> SignedAmount(t) > 0
    ensures IconColor(t) == Green <==> TrendIcon(t) == TrendingUp
  {
  }

  /** Colour and icon follow the record's kind, not the sign of its amount.
      Nothing upstream rejects a zero or negative amount, and for one the
      presentation no longer matches the effect: a zero amount moves
      nothing, and a negative income is shown green with the up icon while
      it lowers the balance (and a negative expense the reverse). */
  lemma PresentationWhenNotPositive(t: TransactionData)
    requires t.amount <= 0
    ensures t.amount == 0 ==> SignedAmount(t) == 0
    ensures t.amount < 0 ==>
      && (AmountColor(t) == Green <==> SignedAmount(t) < 0)
      && (AmountColor(t) == Red <==> SignedAmount(t) > 0)
      && (TrendIcon(t) == TrendingUp <==> SignedAmount(t) < 0)
  {
  }

  /** The legs a transfer stores never set `targetAccount`, and the incoming
      leg's `account` is the receiving account: the outgoing leg is labelled
      "to unknown" and the incoming one names its own account as the origin. */
  lemma TransferLegLabels(amount: int, source: Account, target: Account, outDate: string, inDate: string)
    ensures DisplayCategory(Repository.OutgoingLeg(amount, source, target, outDate)) == "Transfer (to unknown)"
    ensures DisplayCategory(Repository.IncomingLeg(amount, source, target, inDate))
            == "Transfer (from " + target.cardName + ")"
  {
  }
}
