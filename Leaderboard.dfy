// The monthly trading leaderboard: a history row per closed order, summary
// documents accumulating PnL, volume and copy counts per user and month, the
// top-10 listings per tab, and the achievements awarded to last month's top 10.

module Leaderboard {
  import opened Common

  /** The tabs a client asks for (the `LeaderboardTab` enum). */
  datatype Tab = Profit | Loss | Volume | CopyCounter

  /** The tabs in the order the monthly award visits them. */
  const AllTabs: seq<Tab> := [Profit, Loss, Volume, CopyCounter]

  /** What a summary document accumulates (the `LeaderboardType` enum). */
  datatype SummaryType = PnlType | VolumeType | CopyCounterType

  /** How many rows a listing returns. */
  const PageLimit: nat := 10

  /** The switch of `getLeaderboard` and `getLeaderboardByUserIds`: PROFIT
      and LOSS read PNL, VOLUME and COPY_COUNTER their own type, and a
      missing or unrecognised tab (`None`) reads nothing. */
  function TabType(tab: Option<Tab>): (t: Option<SummaryType>)
    ensures t.None? <==> tab.None?
    ensures t == Some(PnlType) <==> tab == Some(Profit) || tab == Some(Loss)
    ensures t == Some(VolumeType) <==> tab == Some(Volume)
    ensures t == Some(CopyCounterType) <==> tab == Some(CopyCounter)
  {
    match tab
    case None => None
    case Some(Profit) => Some(PnlType)
    case Some(Loss) => Some(PnlType)
    case Some(Volume) => Some(VolumeType)
    case Some(CopyCounter) => Some(CopyCounterType)
  }

  /** The type the monthly award reads a tab's list from: PNL unless the
      tab is COPY_COUNTER or VOLUME. */
  function AwardType(tab: Tab): SummaryType
  {
    if tab == CopyCounter then CopyCounterType
    else if tab == Volume then VolumeType
    else PnlType
  }

  /** The award's defaulting and the listing's switch agree on every tab. */
  lemma AwardTypeAgrees(tab: Tab)
    ensures TabType(Some(tab)) == Some(AwardType(tab))
  {
  }

  // ---------------------------------------------------------------------
  // Summary documents

  /** A summary document; `month` numbers the calendar month the document
      accumulates. */
  datatype Summary = Summary(userId: int, kind: SummaryType, month: int, value: real)

  /** The fields a summary is looked up and upserted by. */
  datatype SummaryKey = SummaryKey(userId: int, kind: SummaryType, month: int)

  function KeyOf(d: Summary): SummaryKey
  {
    SummaryKey(d.userId, d.kind, d.month)
  }

  /** At most one document per key. */
  ghost predicate SummaryKeysDistinct(docs: seq<Summary>)
  {
    forall i, j :: 0 <= i < j < |docs| ==> KeyOf(docs[i]) != KeyOf(docs[j])
  }

  /** The document a `findOne` by key returns. */
  function FindSummary(docs: seq<Summary>, k: SummaryKey): (r: Option<nat>)
    ensures r.Some? ==> r.value < |docs| && KeyOf(docs[r.value]) == k
    ensures r.None? <==> forall i :: 0 <= i < |docs| ==> KeyOf(docs[i]) != k
  {
    FirstWhere(docs, (d: Summary) => KeyOf(d) == k)
  }

  /** The accumulated value under `k`; a missing document counts 0. */
  function ValueOf(docs: seq<Summary>, k: SummaryKey): real
  {
    match FindSummary(docs, k)
    case Some(i) => docs[i].value
    case None => 0.0
  }

  /** With distinct keys, every document holds the value of its key. */
  lemma ValueAt(docs: seq<Summary>, i: nat)
    requires SummaryKeysDistinct(docs) && i < |docs|
    ensures ValueOf(docs, KeyOf(docs[i])) == docs[i].value
  {
  }

  /** `updateOne(key, { $inc: { value: delta } }, { upsert: true })`. */
  function Inc(docs: seq<Summary>, k: SummaryKey, delta: real): (r: seq<Summary>)
    ensures |r| == |docs| + (if FindSummary(docs, k).None? then 1 else 0)
  {
    match FindSummary(docs, k)
    case Some(i) => docs[i := docs[i].(value := docs[i].value + delta)]
    case None => docs + [Summary(k.userId, k.kind, k.month, delta)]
  }

  /** An increment adds `delta` under its key, creating the document when it
      is missing, keeps keys distinct and changes no other key's value. */
  lemma IncEffect(docs: seq<Summary>, k: SummaryKey, delta: real)
    requires SummaryKeysDistinct(docs)
    ensures SummaryKeysDistinct(Inc(docs, k, delta))
    ensures ValueOf(Inc(docs, k, delta), k) == ValueOf(docs, k) + delta
    ensures forall k' :: k' != k ==> ValueOf(Inc(docs, k, delta), k') == ValueOf(docs, k')
  {
    var r := Inc(docs, k, delta);
    assert forall j :: 0 <= j < |docs| ==> KeyOf(r[j]) == KeyOf(docs[j]);
    forall k' | k' != k
      ensures ValueOf(r, k') == ValueOf(docs, k')
    {
      match FindSummary(r, k')
      case Some(j) =>
        ValueAt(docs, j);
      case None =>
    }
    if FindSummary(docs, k).None? {
      ValueAt(r, |docs|);
    }
  }

  /** `increaseLeaderboardSummaries`: the user's PNL grows by the profit and
      VOLUME by the volume of `month`, and the caller's COPY_COUNTER by 1
      when there is a caller (a positive id). */
  function IncreaseSummaries(docs: seq<Summary>, userId: int, profit: real, volume: real,
                             callerUserId: int, month: int): seq<Summary>
  {
    var withPnl := Inc(docs, SummaryKey(userId, PnlType, month), profit);
    var withVolume := Inc(withPnl, SummaryKey(userId, VolumeType, month), volume);
    if callerUserId > 0 then Inc(withVolume, SummaryKey(callerUserId, CopyCounterType, month), 1.0)
    else withVolume
  }

  /** What one close adds under key `k`. */
  function Delta(k: SummaryKey, userId: int, profit: real, volume: real, callerUserId: int, month: int): real
  {
    (if k == SummaryKey(userId, PnlType, month) then profit else 0.0)
    + (if k == SummaryKey(userId, VolumeType, month) then volume else 0.0)
    + (if callerUserId > 0 && k == SummaryKey(callerUserId, CopyCounterType, month) then 1.0 else 0.0)
  }

  /** Every key's value grows by exactly what the close adds to it; nothing
      else changes and keys stay distinct. */
  lemma IncreaseSummariesEffect(docs: seq<Summary>, userId: int, profit: real, volume: real,
                                callerUserId: int, month: int)
    requires SummaryKeysDistinct(docs)
    ensures SummaryKeysDistinct(IncreaseSummaries(docs, userId, profit, volume, callerUserId, month))
    ensures forall k :: ValueOf(IncreaseSummaries(docs, userId, profit, volume, callerUserId, month), k)
                        == ValueOf(docs, k) + Delta(k, userId, profit, volume, callerUserId, month)
  {
    var withPnl := Inc(docs, SummaryKey(userId, PnlType, month), profit);
    IncEffect(docs, SummaryKey(userId, PnlType, month), profit);
    var withVolume := Inc(withPnl, SummaryKey(userId, VolumeType, month), volume);
    IncEffect(withPnl, SummaryKey(userId, VolumeType, month), volume);
    if callerUserId > 0 {
      IncEffect(withVolume, SummaryKey(callerUserId, CopyCounterType, month), 1.0);
    }
  }

  // ---------------------------------------------------------------------
  // History rows

  /** A `leaderboard_histories` row (the open and close instants are not
      modelled). */
  datatype HistoryRow = HistoryRow(userId: int, orderId: int, copyCounterOrderId: Option<int>,
                                   margin: real, leverage: real, profit: real, rawProfit: real,
                                   volume: real, closeVolume: real)

  /** Two rows describe the same order of the same user. */
  predicate SameOrder(a: HistoryRow, b: HistoryRow)
  {
    a.userId == b.userId && a.orderId == b.orderId
  }

  /** At most one row per (user, order). */
  ghost predicate HistoryKeysDistinct(rows: seq<HistoryRow>)
  {
    forall i, j :: 0 <= i < j < |rows| ==> !SameOrder(rows[i], rows[j])
  }

  /** `updateOne({ userId, orderId }, row, { upsert: true })`. */
  function UpsertHistory(rows: seq<HistoryRow>, row: HistoryRow): seq<HistoryRow>
  {
    match FirstWhere(rows, (x: HistoryRow) => SameOrder(x, row))
    case Some(i) => rows[i := row]
    case None => rows + [row]
  }

  /** The upsert keeps one row per order, and the rows of other orders are
      those there were. */
  lemma UpsertHistoryEffect(rows: seq<HistoryRow>, row: HistoryRow)
    requires HistoryKeysDistinct(rows)
    ensures HistoryKeysDistinct(UpsertHistory(rows, row))
    ensures row in UpsertHistory(rows, row)
    ensures forall x :: x in UpsertHistory(rows, row) && !SameOrder(x, row) <==> x in rows && !SameOrder(x, row)
  {
    var r := UpsertHistory(rows, row);
    match FirstWhere(rows, (x: HistoryRow) => SameOrder(x, row))
    case Some(i) =>
      assert r[i] == row;
      forall x | x in rows && !SameOrder(x, row)
        ensures x in r
      {
        var j :| 0 <= j < |rows| && rows[j] == x;
        assert r[j] == x;
      }
    case None =>
  }

  /** Replaying a close leaves the history as one close left it. */
  lemma UpsertHistoryIdempotent(rows: seq<HistoryRow>, row: HistoryRow)
    ensures UpsertHistory(UpsertHistory(rows, row), row) == UpsertHistory(rows, row)
  {
    var r := UpsertHistory(rows, row);
    match FirstWhere(rows, (x: HistoryRow) => SameOrder(x, row))
    case Some(i) =>
      assert r[i] == row;
    case None =>
      assert r[|rows|] == row;
  }

  // ---------------------------------------------------------------------
  // Closing an order

  /** The fields of an `ORDER_EVENTS.CLOSED` payload the leaderboard reads;
      `followOrderId` and `callerUserId` come from the optional metadata. */
  datatype ClosedOrder = ClosedOrder(userId: int, displayingId: int, orderType: string, openPrice: real,
                                     margin: real, leverage: real, profit: real, rawProfit: real,
                                     orderValue: real, closeOrderValue: real,
                                     followOrderId: Option<int>, callerUserId: Option<int>)

  /** A Limit or Stop order closed before it opened (a cancellation). */
  predicate CancelledPending(o: ClosedOrder)
  {
    (o.orderType == "Limit" || o.orderType == "Stop") && o.openPrice == 0.0
  }

  /** The history row a close writes. */
  function HistoryOf(o: ClosedOrder): (h: HistoryRow)
    ensures h.userId == o.userId && h.orderId == o.displayingId
  {
    HistoryRow(o.userId, o.displayingId, o.followOrderId, o.margin, o.leverage,
               o.profit, o.rawProfit, o.orderValue, o.closeOrderValue)
  }

  /** The caller id of a copied order, 0 when the metadata has none. */
  function CallerOf(o: ClosedOrder): int
  {
    match o.callerUserId
    case Some(c) => c
    case None => 0
  }

  /** The history and the summaries after `handleOrderClosed`. */
  function AfterClose(rows: seq<HistoryRow>, docs: seq<Summary>, o: ClosedOrder, month: int)
    : (r: (seq<HistoryRow>, seq<Summary>))
    ensures CancelledPending(o) ==> r == (rows, docs)
  {
    if CancelledPending(o) then (rows, docs)
    else (UpsertHistory(rows, HistoryOf(o)),
          IncreaseSummaries(docs, o.userId, o.profit, o.orderValue, CallerOf(o), month))
  }

  /** A close delivered twice writes its history row once but counts twice
      in the summaries: PNL and VOLUME grow by twice the order's amounts. */
  lemma ReplayedClose(rows: seq<HistoryRow>, docs: seq<Summary>, o: ClosedOrder, month: int)
    requires SummaryKeysDistinct(docs) && !CancelledPending(o)
    ensures var once := AfterClose(rows, docs, o, month);
            var twice := AfterClose(once.0, once.1, o, month);
            && twice.0 == once.0
            && ValueOf(twice.1, SummaryKey(o.userId, PnlType, month))
               == ValueOf(docs, SummaryKey(o.userId, PnlType, month)) + 2.0 * o.profit
            && ValueOf(twice.1, SummaryKey(o.userId, VolumeType, month))
               == ValueOf(docs, SummaryKey(o.userId, VolumeType, month)) + 2.0 * o.orderValue
  {
    UpsertHistoryIdempotent(rows, HistoryOf(o));
    var once := IncreaseSummaries(docs, o.userId, o.profit, o.orderValue, CallerOf(o), month);
    IncreaseSummariesEffect(docs, o.userId, o.profit, o.orderValue, CallerOf(o), month);
    IncreaseSummariesEffect(once, o.userId, o.profit, o.orderValue, CallerOf(o), month);
  }

  // ---------------------------------------------------------------------
  // Listings: `find({ type, time }).sort({ value }).limit(10)`

  /** `a` is listed no later than `b`: ascending for LOSS, descending
      otherwise. */
  predicate Ranks(a: Summary, b: Summary, ascending: bool)
  {
    if ascending then a.value <= b.value else a.value >= b.value
  }

  /** The documents of one type and month, in collection order. */
  function Matching(docs: seq<Summary>, kind: SummaryType, month: int): seq<Summary>
  {
    Filter(docs, (d: Summary) => d.kind == kind && d.month == month)
  }

  /** The documents of one type and month that belong to `userIds`. */
  function MatchingUsers(docs: seq<Summary>, userIds: seq<int>, kind: SummaryType, month: int): seq<Summary>
  {
    Filter(docs, (d: Summary) => d.userId in userIds && d.kind == kind && d.month == month)
  }

  /** Position of the first best-ranked document. */
  function BestIndex(s: seq<Summary>, ascending: bool): (i: nat)
    requires s != []
    ensures i < |s|
    ensures forall x :: x in s ==> Ranks(s[i], x, ascending)
  {
    if |s| == 1 then 0
    else
      var j := BestIndex(s[1..], ascending) + 1;
      assert forall x :: x in s ==> x == s[0] || x in s[1..];
      if Ranks(s[0], s[j], ascending) then 0 else j
  }

  /** `s` without its element at `i`. */
  function Remove(s: seq<Summary>, i: nat): (r: seq<Summary>)
    requires i < |s|
    ensures multiset(r) + multiset{s[i]} == multiset(s)
  {
    assert s == s[..i] + [s[i]] + s[i + 1..];
    s[..i] + s[i + 1..]
  }

  /** The documents in rank order (a selection sort); among equal values
      the one earlier in the collection comes first. */
  function SortByValue(s: seq<Summary>, ascending: bool): (r: seq<Summary>)
    ensures |r| == |s|
    ensures multiset(r) == multiset(s)
    decreases |s|
  {
    if s == [] then []
    else
      var b := BestIndex(s, ascending);
      [s[b]] + SortByValue(Remove(s, b), ascending)
  }

  /** The sort puts the documents in rank order. */
  lemma {:induction false} SortByValueSorted(s: seq<Summary>, ascending: bool)
    ensures forall i, j :: 0 <= i < j < |SortByValue(s, ascending)| ==>
              Ranks(SortByValue(s, ascending)[i], SortByValue(s, ascending)[j], ascending)
    decreases |s|
  {
    if s != [] {
      var b := BestIndex(s, ascending);
      var rest := SortByValue(Remove(s, b), ascending);
      SortByValueSorted(Remove(s, b), ascending);
      forall j | 0 <= j < |rest|
        ensures Ranks(s[b], rest[j], ascending)
      {
        assert rest[j] in multiset(rest);
      }
    }
  }

  /** The first `k` documents in rank order: the sort, then the limit. */
  function Top(s: seq<Summary>, k: nat, ascending: bool): (r: seq<Summary>)
    ensures |r| == if |s| < k then |s| else k
  {
    var all := SortByValue(s, ascending);
    if |all| <= k then all else all[..k]
  }

  /** The documents a listing of `s` leaves out, in rank order. */
  function Unlisted(s: seq<Summary>, ascending: bool): seq<Summary>
  {
    var all := SortByValue(s, ascending);
    if |all| <= PageLimit then [] else all[PageLimit..]
  }

  /** What a listing of `s` promises: at most `PageLimit` rows taken from
      `s` in rank order, which with the documents left out make up `s`,
      and which rank no later than any document left out. */
  ghost predicate IsListing(rows: seq<Summary>, s: seq<Summary>, ascending: bool)
  {
    && |rows| == (if |s| < PageLimit then |s| else PageLimit)
    && (forall d :: d in rows ==> d in s)
    && multiset(rows) + multiset(Unlisted(s, ascending)) == multiset(s)
    && (forall i, j :: 0 <= i < j < |rows| ==> Ranks(rows[i], rows[j], ascending))
    && (forall x, y :: x in Unlisted(s, ascending) && y in rows ==> Ranks(y, x, ascending))
  }

  /** The listing and the documents left out split the sort. */
  lemma TopSplitsSort(s: seq<Summary>, ascending: bool)
    ensures SortByValue(s, ascending) == Top(s, PageLimit, ascending) + Unlisted(s, ascending)
  {
  }

  /** Every listed document comes from `s`, and with the documents left
      out the listing makes up `s`. */
  lemma TopFromInput(s: seq<Summary>, ascending: bool)
    ensures multiset(Top(s, PageLimit, ascending)) + multiset(Unlisted(s, ascending)) == multiset(s)
    ensures forall d :: d in Top(s, PageLimit, ascending) ==> d in s
  {
    TopSplitsSort(s, ascending);
    forall d | d in Top(s, PageLimit, ascending)
      ensures d in s
    {
      assert d in multiset(SortByValue(s, ascending));
    }
  }

  /** Every document left out ranks no earlier than every listed one. */
  lemma TopAheadOfRest(s: seq<Summary>, ascending: bool)
    ensures forall x, y :: x in Unlisted(s, ascending) && y in Top(s, PageLimit, ascending) ==>
              Ranks(y, x, ascending)
  {
    var all := SortByValue(s, ascending);
    var rows := Top(s, PageLimit, ascending);
    var tail := Unlisted(s, ascending);
    SortByValueSorted(s, ascending);
    TopSplitsSort(s, ascending);
    forall x, y | x in tail && y in rows
      ensures Ranks(y, x, ascending)
    {
      var i :| 0 <= i < |rows| && rows[i] == y;
      var j :| 0 <= j < |tail| && tail[j] == x;
      assert all[i] == y && all[|rows| + j] == x;
    }
  }

  /** The top `PageLimit` of `s` is a listing of `s`. */
  lemma TopIsListing(s: seq<Summary>, ascending: bool)
    ensures IsListing(Top(s, PageLimit, ascending), s, ascending)
  {
    SortByValueSorted(s, ascending);
    TopFromInput(s, ascending);
    TopAheadOfRest(s, ascending);
  }

  /** The answer of `getLeaderboard`: the caller's own document and the
      listing. */
  datatype Board = Board(me: Option<Summary>, data: seq<Summary>)

  // ---------------------------------------------------------------------
  // Achievements

  /** A `leaderboard_archievements` document is keyed by user, tab and rank. */
  datatype AchievementKey = AchievementKey(userId: int, tab: Tab, rank: int)

  /** The counter under `k`; a missing document counts 0. */
  function Counter(ach: map<AchievementKey, int>, k: AchievementKey): int
  {
    if k in ach then ach[k] else 0
  }

  /** `updateOne(key, { $inc: { counter: 1 } }, { upsert: true })`. */
  function Bump(ach: map<AchievementKey, int>, k: AchievementKey): (r: map<AchievementKey, int>)
    ensures Counter(r, k) == Counter(ach, k) + 1
    ensures forall k' :: k' != k ==> Counter(r, k') == Counter(ach, k')
  {
    ach[k := Counter(ach, k) + 1]
  }

  /** The counters after awarding `top` on `tab`: the entry at index i
      earns rank i + 1. */
  function AwardRanks(ach: map<AchievementKey, int>, tab: Tab, top: seq<Summary>): map<AchievementKey, int>
  {
    if top == [] then ach
    else Bump(AwardRanks(ach, tab, top[..|top| - 1]), AchievementKey(top[|top| - 1].userId, tab, |top|))
  }

  /** `k`'s user is the k.rank-th entry of `top`. */
  predicate ListedAt(top: seq<Summary>, k: AchievementKey)
  {
    1 <= k.rank <= |top| && top[k.rank - 1].userId == k.userId
  }

  /** The k-th listed user's counter at rank k on the tab grows by one;
      every other counter stays. */
  lemma {:induction false} AwardRanksEffect(ach: map<AchievementKey, int>, tab: Tab, top: seq<Summary>, k: AchievementKey)
    ensures Counter(AwardRanks(ach, tab, top), k)
            == Counter(ach, k) + (if k.tab == tab && ListedAt(top, k) then 1 else 0)
  {
    if top != [] {
      var init := top[..|top| - 1];
      AwardRanksEffect(ach, tab, init, k);
      if 1 <= k.rank < |top| {
        assert init[k.rank - 1] == top[k.rank - 1];
      }
    }
  }

  /** Last month's listing of a tab, as the award reads it. */
  function TabTop(docs: seq<Summary>, tab: Tab, month: int): seq<Summary>
  {
    Top(Matching(docs, AwardType(tab), month), PageLimit, tab == Loss)
  }

  /** Every tab's listing for `month`. */
  function MonthListings(docs: seq<Summary>, month: int): Tab -> seq<Summary>
  {
    (tab: Tab) => TabTop(docs, tab, month)
  }

  /** The counters after awarding every tab of `tabs` in turn, each from
      its listing. */
  function AwardTabs(ach: map<AchievementKey, int>, tabs: seq<Tab>, listings: Tab -> seq<Summary>): map<AchievementKey, int>
  {
    if tabs == [] then ach
    else
      var last := tabs[|tabs| - 1];
      AwardRanks(AwardTabs(ach, tabs[..|tabs| - 1], listings), last, listings(last))
  }

  /** Awarding one more tab. */
  lemma AwardTabsStep(ach: map<AchievementKey, int>, tabs: seq<Tab>, listings: Tab -> seq<Summary>, t: nat)
    requires t < |tabs|
    ensures AwardTabs(ach, tabs[..t + 1], listings)
            == AwardRanks(AwardTabs(ach, tabs[..t], listings), tabs[t], listings(tabs[t]))
  {
    assert tabs[..t + 1][..t] == tabs[..t];
  }

  /** Over distinct tabs, each counter grows by one exactly when its user is
      listed at its rank on its tab. */
  lemma {:induction false} AwardTabsEffect(ach: map<AchievementKey, int>, tabs: seq<Tab>,
                                           listings: Tab -> seq<Summary>, k: AchievementKey)
    requires forall i, j :: 0 <= i < j < |tabs| ==> tabs[i] != tabs[j]
    ensures Counter(AwardTabs(ach, tabs, listings), k)
            == Counter(ach, k) + (if k.tab in tabs && ListedAt(listings(k.tab), k) then 1 else 0)
  {
    if tabs != [] {
      var n := |tabs| - 1;
      var init := tabs[..n];
      var last := tabs[n];
      AwardTabsEffect(ach, init, listings, k);
      AwardRanksEffect(AwardTabs(ach, init, listings), last, listings(last), k);
      assert tabs == init + [last];
      if k.tab == last {
        assert k.tab !in init;
      } else {
        assert (k.tab in tabs) == (k.tab in init);
      }
    }
  }

  /** The `forEach` of one tab: the entry at index i earns rank i + 1. */
  method AwardTab(ach: map<AchievementKey, int>, tab: Tab, top: seq<Summary>) returns (ach': map<AchievementKey, int>)
    ensures ach' == AwardRanks(ach, tab, top)
  {
    ach' := ach;
    for i := 0 to |top|
      invariant ach' == AwardRanks(ach, tab, top[..i])
    {
      assert top[..i + 1][..i] == top[..i];
      ach' := Bump(ach', AchievementKey(top[i].userId, tab, i + 1));
    }
    assert top[..|top|] == top;
  }

  /** The loop of `awardAchievements` over the tabs. */
  method AwardMonth(ach: map<AchievementKey, int>, docs: seq<Summary>, month: int, tabs: seq<Tab>)
    returns (ach': map<AchievementKey, int>)
    ensures ach' == AwardTabs(ach, tabs, MonthListings(docs, month))
  {
    ach' := ach;
    for t := 0 to |tabs|
      invariant ach' == AwardTabs(ach, tabs[..t], MonthListings(docs, month))
    {
      AwardTabsStep(ach, tabs, MonthListings(docs, month), t);
      var tab := tabs[t];
      var top := Top(Matching(docs, AwardType(tab), month), PageLimit, tab == Loss);
      assert top == MonthListings(docs, month)(tab);
      ach' := AwardTab(ach', tab, top);
    }
    assert tabs[..|tabs|] == tabs;
  }

  /** The tabs are listed once each. */
  lemma AllTabsFacts()
    ensures forall tab :: tab in AllTabs
    ensures forall i, j :: 0 <= i < j < |AllTabs| ==> AllTabs[i] != AllTabs[j]
  {
    var tabs := AllTabs;
    forall tab
      ensures tab in tabs
    {
      assert tab == tabs[0] || tab == tabs[1] || tab == tabs[2] || tab == tabs[3];
    }
  }

  /** A month's award: user u's counter at rank k on a tab grows by one
      exactly when u is k-th on that tab's listing. */
  lemma MonthAwardEffect(ach: map<AchievementKey, int>, docs: seq<Summary>, month: int, k: AchievementKey)
    ensures Counter(AwardTabs(ach, AllTabs, MonthListings(docs, month)), k)
            == Counter(ach, k) + (if ListedAt(TabTop(docs, k.tab, month), k) then 1 else 0)
  {
    AllTabsFacts();
    AwardTabsEffect(ach, AllTabs, MonthListings(docs, month), k);
  }

  // ---------------------------------------------------------------------
  // The service

  class LeaderboardStore {
    /** `leaderboard_histories`, in collection order. */
    var history: seq<HistoryRow>
    /** `leaderboard_summaries`, in collection order. */
    var summaries: seq<Summary>
    /** `leaderboard_archievements` counters. */
    var achievements: map<AchievementKey, int>

    ghost predicate Valid()
      reads this
    {
      HistoryKeysDistinct(history) && SummaryKeysDistinct(summaries)
    }

    constructor ()
      ensures Valid()
      ensures history == [] && summaries == [] && achievements == map[]
    {
      history, summaries, achievements := [], [], map[];
    }

    /** `getLeaderboard` for `month`: nothing for an unknown tab; otherwise
        the caller's own document of the tab's type and the tab's listing. */
    function GetLeaderboard(userId: int, tab: Option<Tab>, month: int): (b: Board)
      reads this
      ensures tab.None? ==> b == Board(None, [])
      ensures tab.Some? ==>
                var kind := AwardType(tab.value);
                && IsListing(b.data, Matching(summaries, kind, month), tab.value == Loss)
                && (forall d :: d in b.data ==> d in summaries && d.kind == kind && d.month == month)
                && (b.me.Some? ==> b.me.value in summaries && KeyOf(b.me.value) == SummaryKey(userId, kind, month))
                && (b.me.None? <==> forall d :: d in summaries ==> KeyOf(d) != SummaryKey(userId, kind, month))
    {
      match TabType(tab)
      case None => Board(None, [])
      case Some(kind) =>
        AwardTypeAgrees(tab.value);
        var s := Matching(summaries, kind, month);
        var ascending := tab == Some(Loss);
        TopIsListing(s, ascending);
        var data := Top(s, PageLimit, ascending);
        var me := FindSummary(summaries, SummaryKey(userId, kind, month));
        Board(if me.Some? then Some(summaries[me.value]) else None, data)
    }

    /** `getLeaderboardByUserIds`: the listing restricted to `userIds`. */
    function GetLeaderboardByUserIds(userIds: seq<int>, tab: Option<Tab>, month: int): (rows: seq<Summary>)
      reads this
      ensures tab.None? ==> rows == []
      ensures tab.Some? ==>
                var kind := AwardType(tab.value);
                && IsListing(rows, MatchingUsers(summaries, userIds, kind, month), tab.value == Loss)
                && (forall d :: d in rows ==> d in summaries && d.userId in userIds && d.kind == kind && d.month == month)
    {
      match TabType(tab)
      case None => []
      case Some(kind) =>
        AwardTypeAgrees(tab.value);
        var s := MatchingUsers(summaries, userIds, kind, month);
        var ascending := tab == Some(Loss);
        TopIsListing(s, ascending);
        var data := Top(s, PageLimit, ascending);
        data
    }

    /** `increaseLeaderboardSummaries` for `month`. */
    method IncreaseLeaderboardSummaries(userId: int, profit: real, volume: real, callerUserId: int, month: int)
      requires Valid()
      modifies this
      ensures Valid()
      ensures summaries == IncreaseSummaries(old(summaries), userId, profit, volume, callerUserId, month)
      ensures history == old(history) && achievements == old(achievements)
    {
      IncreaseSummariesEffect(summaries, userId, profit, volume, callerUserId, month);
      summaries := IncreaseSummaries(summaries, userId, profit, volume, callerUserId, month);
    }

    /** `handleOrderClosed` in `month`: a cancelled Limit or Stop order
        changes nothing; any other close upserts its history row and adds to
        the summaries. */
    method HandleOrderClosed(order: ClosedOrder, month: int)
      requires Valid()
      modifies this
      ensures Valid()
      ensures (history, summaries) == AfterClose(old(history), old(summaries), order, month)
      ensures achievements == old(achievements)
    {
      if CancelledPending(order) {
        return;
      }
      UpsertHistoryEffect(history, HistoryOf(order));
      history := UpsertHistory(history, HistoryOf(order));
      IncreaseLeaderboardSummaries(order.userId, order.profit, order.orderValue, CallerOf(order), month);
    }

    /** `awardAchievements` for `lastMonth`. */
    method AwardAchievements(lastMonth: int)
      modifies this
      ensures achievements == AwardTabs(old(achievements), AllTabs, MonthListings(summaries, lastMonth))
      ensures history == old(history) && summaries == old(summaries)
    {
      achievements := AwardMonth(achievements, summaries, lastMonth, AllTabs);
    }
  }
}
