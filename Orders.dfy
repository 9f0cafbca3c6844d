// Order statistics: copy and counter counts of a caller's followers over
// the 1d / 7d / 30d windows, the open positions with their liquidation
// price, the achievement figures per window with their cache, the earnings
// that merge the two, and the lookup of one futures order.

module Orders {
  import opened Common

  /** Milliseconds in a day. */
  const DayMs: int := 86400000

  /** `dayjs(t).utc().startOf('day')`. */
  function StartOfDay(t: int): (s: int)
    ensures s <= t < s + DayMs && s % DayMs == 0
  {
    t - t % DayMs
  }

  /** The three windows, reported in this order. */
  datatype Timeframe = Day1 | Day7 | Day30

  /** The number of days a window reaches back. */
  function Days(t: Timeframe): int
  {
    match t
    case Day1 => 1
    case Day7 => 7
    case Day30 => 30
  }

  /** The start of a window: the start of the day `Days(t)` days ago. */
  function WindowStart(t: Timeframe, now: int): (s: int)
    ensures s == StartOfDay(now) - Days(t) * DayMs
  {
    StartOfDay(now - Days(t) * DayMs)
  }

  /** A shorter window starts later. */
  lemma WindowsNest(now: int)
    ensures WindowStart(Day30, now) < WindowStart(Day7, now) < WindowStart(Day1, now)
  {
  }

  // ---------------------------------------------------------------------
  // Copy and counter statistics

  /** The side a follow order takes on its called order. */
  datatype PostSide = Copy | Counter

  /** The fields of a futures order the statistics read; `metaSide` is
      `None` when `metadata.side` is missing or neither side. */
  datatype FollowOrder = FollowOrder(callerUserId: Option<int>, status: string, openPrice: real,
                                     reasonClose: string, openedAt: int, orderValue: real,
                                     metaSide: Option<PostSide>)

  predicate IsCopy(o: FollowOrder)
  {
    o.metaSide == Some(Copy)
  }

  predicate IsCounter(o: FollowOrder)
  {
    o.metaSide == Some(Counter)
  }

  /** `sum + order.order_value` over the orders. */
  function SumValue(orders: seq<FollowOrder>): real
  {
    if orders == [] then 0.0 else SumValue(orders[..|orders| - 1]) + orders[|orders| - 1].orderValue
  }

  /** The figures of one window. */
  datatype CopyCounter = CopyCounter(copies: nat, counters: nat, totalVolume: real)

  /** `_calculateCopyCounterByOrders`. */
  function CopyCounterOf(orders: seq<FollowOrder>): (c: CopyCounter)
    ensures c.copies == CountIf(orders, IsCopy) && c.counters == CountIf(orders, IsCounter)
    ensures c.totalVolume == SumValue(orders)
  {
    CopyCounter(|Filter(orders, IsCopy)|, |Filter(orders, IsCounter)|, SumValue(orders))
  }

  /** No order is both a copy and a counter, so the two counts together
      never exceed the orders. */
  lemma {:induction false} CopiesAndCountersBounded(orders: seq<FollowOrder>)
    ensures CopyCounterOf(orders).copies + CopyCounterOf(orders).counters <= |orders|
  {
    if orders != [] {
      CopiesAndCountersBounded(orders[..|orders| - 1]);
    }
  }

  /** The Mongo query of `getCopyCounterOrders`: the caller's follow orders
      that are not pending, were opened (open price not 0), were not closed
      by DCA, and were opened after the start of the 30-day window. */
  predicate FollowsCaller(o: FollowOrder, callerId: int, now: int)
  {
    && o.callerUserId == Some(callerId)
    && o.status != "PENDING"
    && o.openPrice != 0.0
    && o.reasonClose != "DCA"
    && o.openedAt > WindowStart(Day30, now)
  }

  function FollowsOf(callerId: int, now: int): FollowOrder -> bool
  {
    (o: FollowOrder) => FollowsCaller(o, callerId, now)
  }

  /** The filter of one window over the queried orders. */
  function OpenedIn(t: Timeframe, now: int): FollowOrder -> bool
  {
    (o: FollowOrder) => o.openedAt > WindowStart(t, now)
  }

  /** One row of `getCopyCounterOrders`. */
  datatype TimeframeCounts = TimeframeCounts(timeframe: Timeframe, copies: nat, counters: nat, totalVolume: real)

  function Row(t: Timeframe, c: CopyCounter): TimeframeCounts
  {
    TimeframeCounts(t, c.copies, c.counters, c.totalVolume)
  }

  /** `getCopyCounterOrders` over the order collection at time `now`. */
  function CopyCounterOrders(all: seq<FollowOrder>, callerId: int, now: int): (rows: seq<TimeframeCounts>)
    ensures |rows| == 3 && rows[0].timeframe == Day1 && rows[1].timeframe == Day7 && rows[2].timeframe == Day30
  {
    var orders := Filter(all, FollowsOf(callerId, now));
    [Row(Day1, CopyCounterOf(Filter(orders, OpenedIn(Day1, now)))),
     Row(Day7, CopyCounterOf(Filter(orders, OpenedIn(Day7, now)))),
     Row(Day30, CopyCounterOf(orders))]
  }

  /** A filter counts no more than a weaker filter. */
  lemma {:induction false} FilterCountMonotone(s: seq<FollowOrder>, p: FollowOrder -> bool, q: FollowOrder -> bool,
                                               c: FollowOrder -> bool)
    requires forall o :: p(o) ==> q(o)
    ensures CountIf(Filter(s, p), c) <= CountIf(Filter(s, q), c)
  {
    if s != [] {
      var init, last := s[..|s| - 1], s[|s| - 1];
      FilterCountMonotone(init, p, q, c);
      var fp, fq := Filter(init, p), Filter(init, q);
      assert (fp + [last])[..|fp|] == fp;
      assert (fq + [last])[..|fq|] == fq;
    }
  }

  /** Over non-negative order values a filter sums no more than a weaker
      filter. */
  lemma {:induction false} FilterSumMonotone(s: seq<FollowOrder>, p: FollowOrder -> bool, q: FollowOrder -> bool)
    requires forall o :: p(o) ==> q(o)
    requires forall i :: 0 <= i < |s| ==> s[i].orderValue >= 0.0
    ensures SumValue(Filter(s, p)) <= SumValue(Filter(s, q))
  {
    if s != [] {
      var init, last := s[..|s| - 1], s[|s| - 1];
      FilterSumMonotone(init, p, q);
      var fp, fq := Filter(init, p), Filter(init, q);
      assert (fp + [last])[..|fp|] == fp;
      assert (fq + [last])[..|fq|] == fq;
    }
  }

  /** Every queried order passes the 30-day filter a second time. */
  lemma Within30Days(all: seq<FollowOrder>, callerId: int, now: int)
    ensures var orders := Filter(all, FollowsOf(callerId, now));
            Filter(orders, OpenedIn(Day30, now)) == orders
  {
    var orders := Filter(all, FollowsOf(callerId, now));
    assert forall i :: 0 <= i < |orders| ==> orders[i] in orders;
    FilterKeepsAll(orders, OpenedIn(Day30, now));
  }

  /** The windows nest, so copies and counters grow from 1d to 7d to
      30d. */
  lemma CountsGrowWithWindow(all: seq<FollowOrder>, callerId: int, now: int)
    ensures var rows := CopyCounterOrders(all, callerId, now);
            && rows[0].copies <= rows[1].copies <= rows[2].copies
            && rows[0].counters <= rows[1].counters <= rows[2].counters
  {
    var orders := Filter(all, FollowsOf(callerId, now));
    WindowsNest(now);
    FilterCountMonotone(orders, OpenedIn(Day1, now), OpenedIn(Day7, now), IsCopy);
    FilterCountMonotone(orders, OpenedIn(Day1, now), OpenedIn(Day7, now), IsCounter);
    FilterCountMonotone(orders, OpenedIn(Day7, now), OpenedIn(Day30, now), IsCopy);
    FilterCountMonotone(orders, OpenedIn(Day7, now), OpenedIn(Day30, now), IsCounter);
    Within30Days(all, callerId, now);
  }

  /** With non-negative order values, the volume grows from 1d to 7d to
      30d too. */
  lemma VolumeGrowsWithWindow(all: seq<FollowOrder>, callerId: int, now: int)
    requires forall i :: 0 <= i < |all| ==> all[i].orderValue >= 0.0
    ensures var rows := CopyCounterOrders(all, callerId, now);
            rows[0].totalVolume <= rows[1].totalVolume <= rows[2].totalVolume
  {
    var orders := Filter(all, FollowsOf(callerId, now));
    WindowsNest(now);
    assert forall i :: 0 <= i < |orders| ==> orders[i] in orders;
    FilterSumMonotone(orders, OpenedIn(Day1, now), OpenedIn(Day7, now));
    FilterSumMonotone(orders, OpenedIn(Day7, now), OpenedIn(Day30, now));
    Within30Days(all, callerId, now);
  }

  // ---------------------------------------------------------------------
  // Positions

  /** The fields of a position order; `sl`, `tp`, `closePrice` and the
      timestamps pass through unchanged and are not modelled. */
  datatype PositionOrder = PositionOrder(side: string, symbol: string, leverage: real, openPrice: real,
                                         orderValue: real, margin: real, maintenanceMargin: real,
                                         quantity: real, profit: real, rawProfit: real)

  /** The liquidation price of a position: 0 without a maintenance margin,
      else the open price moved against the position by the margin cushion
      per unit. `None` stands for the non-finite number a zero quantity
      gives. */
  function LiquidationPrice(o: PositionOrder): (p: Option<real>)
    ensures o.maintenanceMargin <= 0.0 ==> p == Some(0.0)
    ensures o.maintenanceMargin > 0.0 ==> (p.None? <==> o.quantity == 0.0)
    ensures o.maintenanceMargin > 0.0 && o.quantity != 0.0 ==>
              var gap := (o.margin - o.maintenanceMargin) / o.quantity;
              p == Some(if Lower(o.side) == "buy" then o.openPrice - gap else o.openPrice + gap)
  {
    if o.maintenanceMargin > 0.0 then
      if o.quantity == 0.0 then None
      else
        var gap := (o.margin - o.maintenanceMargin) / o.quantity;
        Some(if Lower(o.side) == "buy" then o.openPrice - gap else o.openPrice + gap)
    else Some(0.0)
  }

  /** With margin above the maintenance margin, a buy liquidates below its
      open price and a sell above it, whatever the case of the side. */
  lemma LiquidationAgainstPosition(o: PositionOrder)
    requires o.margin > o.maintenanceMargin > 0.0 && o.quantity > 0.0
    ensures Lower(o.side) == "buy" ==> LiquidationPrice(o).value < o.openPrice
    ensures Lower(o.side) != "buy" ==> LiquidationPrice(o).value > o.openPrice
    ensures LiquidationPrice(o.(side := Lower(o.side))) == LiquidationPrice(o)
  {
    LowerIdempotent(o.side);
  }

  /** One row of `getUserPosition`. */
  datatype Position = Position(order: PositionOrder, liquidatedPrice: Option<real>)

  /** The row for one order. */
  function PositionOf(o: PositionOrder): Position
  {
    Position(o, LiquidationPrice(o))
  }

  /** The loop of `getUserPosition` over the orders the query returned. */
  method GetUserPosition(orders: seq<PositionOrder>) returns (result: seq<Position>)
    ensures |result| == |orders|
    ensures forall i :: 0 <= i < |orders| ==>
              result[i].order == orders[i] && result[i].liquidatedPrice == LiquidationPrice(orders[i])
  {
    result := [];
    for i := 0 to |orders|
      invariant |result| == i
      invariant forall k :: 0 <= k < i ==> result[k] == PositionOf(orders[k])
    {
      var liquidated: Option<real> := Some(0.0);
      var o := orders[i];
      if o.maintenanceMargin > 0.0 {
        if o.quantity == 0.0 {
          liquidated := None;
        } else {
          var gap := (o.margin - o.maintenanceMargin) / o.quantity;
          liquidated := Some(if Lower(o.side) == "buy" then o.openPrice - gap else o.openPrice + gap);
        }
      }
      result := result + [Position(o, liquidated)];
    }
  }

  // ---------------------------------------------------------------------
  // Achievements

  /** The fields of a closed order the achievement search reads. */
  datatype ClosedDoc = ClosedDoc(userId: int, status: string, closedAt: int, reasonClose: string,
                                 openPrice: real, profit: real, margin: real, orderValue: real)

  /** The search of `getUserAchievement`: the user's CLOSED orders of the
      last 30 days that were opened and not closed by DCA. */
  predicate Searched(d: ClosedDoc, userId: int, now: int)
  {
    && d.userId == userId
    && d.status == "CLOSED"
    && d.closedAt > WindowStart(Day30, now)
    && d.reasonClose != "DCA"
    && d.openPrice != 0.0
  }

  function SearchedFor(userId: int, now: int): ClosedDoc -> bool
  {
    (d: ClosedDoc) => Searched(d, userId, now)
  }

  /** The filter of one window's sub-aggregation; the 30d one matches all. */
  predicate InWindow(d: ClosedDoc, t: Timeframe, now: int)
  {
    t == Day30 || d.closedAt >= WindowStart(t, now)
  }

  /** The figures of one window's aggregation. */
  datatype Aggs = Aggs(docCount: nat, profitOrders: nat, profit: real, margin: real, volume: real)

  /** The sums over the documents in a window. */
  function WindowAggs(docs: seq<ClosedDoc>, t: Timeframe, now: int): (a: Aggs)
    ensures a.profitOrders <= a.docCount
  {
    if docs == [] then Aggs(0, 0, 0.0, 0.0, 0.0)
    else
      var a := WindowAggs(docs[..|docs| - 1], t, now);
      var d := docs[|docs| - 1];
      if InWindow(d, t, now) then
        Aggs(a.docCount + 1, a.profitOrders + (if d.profit > 0.0 then 1 else 0), a.profit + d.profit,
             a.margin + d.margin, a.volume + d.orderValue * 2.0)
      else a
  }

  /** A window holds no more documents than a longer one. */
  lemma {:induction false} WindowAggsMonotone(docs: seq<ClosedDoc>, now: int)
    ensures WindowAggs(docs, Day1, now).docCount <= WindowAggs(docs, Day7, now).docCount
                                                 <= WindowAggs(docs, Day30, now).docCount
  {
    if docs != [] {
      WindowAggsMonotone(docs[..|docs| - 1], now);
      WindowsNest(now);
    }
  }

  /** One row of `getUserAchievement`. */
  datatype Achievement = Achievement(timeframe: Timeframe, winRate: real, profit: real, volume: real, roi: real)

  /** The shaping of one window: win rate and ROI in percent, 0 when there
      is nothing to divide by. */
  function Shape(t: Timeframe, a: Aggs): (r: Achievement)
    requires a.profitOrders <= a.docCount
    ensures r.timeframe == t && r.profit == a.profit && r.volume == a.volume
    ensures a.docCount == 0 ==> r.winRate == 0.0
    ensures a.docCount > 0 ==> r.winRate * (a.docCount as real) == (a.profitOrders as real) * 100.0
    ensures 0.0 <= r.winRate <= 100.0
    ensures a.margin > 0.0 ==> r.roi * a.margin == a.profit * 100.0
    ensures a.margin <= 0.0 ==> r.roi == 0.0
  {
    var winRate := if a.docCount > 0 then a.profitOrders as real / a.docCount as real * 100.0 else 0.0;
    var roi := if a.margin > 0.0 then a.profit / a.margin * 100.0 else 0.0;
    Achievement(t, winRate, a.profit, a.volume, roi)
  }

  /** The rows for the windows `ts` over the searched documents. */
  function Achievements(docs: seq<ClosedDoc>, ts: seq<Timeframe>, now: int): seq<Achievement>
  {
    if ts == [] then []
    else Achievements(docs, ts[..|ts| - 1], now) + [Shape(ts[|ts| - 1], WindowAggs(docs, ts[|ts| - 1], now))]
  }

  /** The windows `getUserAchievement` reports. */
  const AllTimeframes: seq<Timeframe> := [Day1, Day7, Day30]

  /** The loop of `getUserAchievement` over the windows. */
  method ShapeAchievements(docs: seq<ClosedDoc>, ts: seq<Timeframe>, now: int) returns (result: seq<Achievement>)
    ensures result == Achievements(docs, ts, now)
  {
    result := [];
    for i := 0 to |ts|
      invariant result == Achievements(docs, ts[..i], now)
    {
      assert ts[..i + 1][..i] == ts[..i];
      result := result + [Shape(ts[i], WindowAggs(docs, ts[i], now))];
    }
    assert ts[..|ts|] == ts;
  }

  /** Each row belongs to its window, in order, and its win rate is a
      percentage. */
  lemma {:induction false} AchievementRows(docs: seq<ClosedDoc>, ts: seq<Timeframe>, now: int)
    ensures |Achievements(docs, ts, now)| == |ts|
    ensures forall i :: 0 <= i < |ts| ==>
              && Achievements(docs, ts, now)[i].timeframe == ts[i]
              && 0.0 <= Achievements(docs, ts, now)[i].winRate <= 100.0
  {
    if ts != [] {
      var n := |ts| - 1;
      AchievementRows(docs, ts[..n], now);
      assert forall i :: 0 <= i < n ==> ts[..n][i] == ts[i];
    }
  }

  // ---------------------------------------------------------------------
  // Earnings

  /** One row of `getUserEarnings`. */
  datatype Earning = Earning(achievement: Achievement, copies: nat, counters: nat, totalVolume: real)

  /** The copy and counter figures of one window, found by timeframe; a
      missing window counts 0 (`|| 0` maps 0 to 0 as well). */
  function CountsFor(rows: seq<TimeframeCounts>, t: Timeframe): (r: (nat, nat, real))
    ensures (forall i :: 0 <= i < |rows| ==> rows[i].timeframe != t) ==> r == (0, 0, 0.0)
    ensures forall i :: (0 <= i < |rows| && rows[i].timeframe == t
                         && forall j :: 0 <= j < i ==> rows[j].timeframe != t) ==>
              r == (rows[i].copies, rows[i].counters, rows[i].totalVolume)
  {
    match FirstWhere(rows, (c: TimeframeCounts) => c.timeframe == t)
    case Some(i) => (rows[i].copies, rows[i].counters, rows[i].totalVolume)
    case None => (0, 0, 0.0)
  }

  /** `getUserEarnings`: each achievement row with the copy and counter
      figures of its window. */
  function Earnings(achievements: seq<Achievement>, rows: seq<TimeframeCounts>): (r: seq<Earning>)
    ensures |r| == |achievements|
    ensures forall i :: 0 <= i < |r| ==> r[i].achievement == achievements[i]
  {
    seq(|achievements|, i requires 0 <= i < |achievements| =>
      var c := CountsFor(rows, achievements[i].timeframe);
      Earning(achievements[i], c.0, c.1, c.2))
  }

  /** Earnings line up window by window with the copy/counter rows they
      merge. */
  lemma EarningsMatchWindows(docs: seq<ClosedDoc>, all: seq<FollowOrder>, userId: int, now: int)
    ensures var rows := CopyCounterOrders(all, userId, now);
            var e := Earnings(Achievements(docs, AllTimeframes, now), rows);
            |e| == 3 && forall i :: 0 <= i < 3 ==>
              e[i].achievement.timeframe == rows[i].timeframe
              && e[i].copies == rows[i].copies && e[i].counters == rows[i].counters
              && e[i].totalVolume == rows[i].totalVolume
  {
    var ts := AllTimeframes;
    AchievementRows(docs, ts, now);
    var rows := CopyCounterOrders(all, userId, now);
    var e := Earnings(Achievements(docs, ts, now), rows);
    assert ts[0] == Day1 && ts[1] == Day7 && ts[2] == Day30;
    assert CountsFor(rows, Day1) == (rows[0].copies, rows[0].counters, rows[0].totalVolume);
    assert CountsFor(rows, Day7) == (rows[1].copies, rows[1].counters, rows[1].totalVolume);
    assert CountsFor(rows, Day30) == (rows[2].copies, rows[2].counters, rows[2].totalVolume);
  }

  // ---------------------------------------------------------------------
  // One futures order

  /** The failure of `getUserFutureOrder`: when the futures service call
      fails, its caught error leaves no list to index. */
  datatype LookupError = NoOrderList

  /** `getUserFutureOrder` over the futures service's answer (`None` when
      the call failed): the first order listed, or null. */
  function UserFutureOrder<O>(response: Option<seq<O>>): (r: Result<Option<O>, LookupError>)
    ensures response.None? <==> r.Err?
    ensures response.Some? && response.value == [] ==> r == Ok(None)
    ensures response.Some? && response.value != [] ==> r == Ok(Some(response.value[0]))
  {
    match response
    case None => Err(NoOrderList)
    case Some(orders) => if orders == [] then Ok(None) else Ok(Some(orders[0]))
  }

  // ---------------------------------------------------------------------
  // The service

  class OrderService {
    /** `feedUserAchievement_<id>` entries of the cache (their 10-minute
        lifetime is not modelled). */
    var cache: map<int, seq<Achievement>>

    constructor ()
      ensures cache == map[]
    {
      cache := map[];
    }

    /** `getUserAchievement`: a cached answer when allowed, else the rows
        computed from the search over `all`, which are then cached. */
    method GetUserAchievement(userId: int, isCache: bool, all: seq<ClosedDoc>, now: int)
      returns (result: seq<Achievement>)
      modifies this
      ensures isCache && userId in old(cache) ==> result == old(cache)[userId] && cache == old(cache)
      ensures !(isCache && userId in old(cache)) ==>
                result == Achievements(Filter(all, SearchedFor(userId, now)), AllTimeframes, now)
                && cache == old(cache)[userId := result]
    {
      if isCache && userId in cache {
        return cache[userId];
      }
      var docs := Filter(all, SearchedFor(userId, now));
      result := ShapeAchievements(docs, AllTimeframes, now);
      cache := cache[userId := result];
    }
  }
}
