// Commissions: the record pushed to the commission index, the totals read
// back from it, the weekly-pool rank, and the HOPIUM commission credited
// when an order closes.

module Commission {
  import opened Common

  /** The `order_type` of a commission record. */
  datatype OrderType = Referral | Mission | Volume

  /** Ledger category of the order-close commission credit. */
  const CommissionCategory: int := 2000

  /** What a caller asks `pushCommission` to record. */
  datatype PushData = PushData(amount: real, fromUserId: int, toUserId: int, referralCode: string,
                               kind: OrderType, assetId: int)

  /** A document of the commission index (its `created_at` is not
      modelled). */
  datatype CommissionRecord = CommissionRecord(fromUserId: int, toUserId: int, refCode: string, refId: int,
                                               level: int, commission: real, commissionCurrency: int,
                                               orderType: OrderType, currency: int)

  /** The document `pushCommission` indexes: a level-1 commission whose
      referrer is its recipient, paid and counted in the same asset. */
  function PushRecord(d: PushData): (r: CommissionRecord)
    ensures r.level == 1 && r.refId == r.toUserId == d.toUserId && r.fromUserId == d.fromUserId
    ensures r.commissionCurrency == r.currency == d.assetId
    ensures r.commission == d.amount && r.orderType == d.kind && r.refCode == d.referralCode
  {
    CommissionRecord(d.fromUserId, d.toUserId, d.referralCode, d.toUserId, 1, d.amount, d.assetId, d.kind, d.assetId)
  }

  /** The query of `getTotalCommission`: to the user, in the asset, and of
      the given order type when one is given. */
  predicate Matches(r: CommissionRecord, userId: int, assetId: int, kind: Option<OrderType>)
  {
    r.toUserId == userId && r.commissionCurrency == assetId && (kind.None? || r.orderType == kind.value)
  }

  /** The `sum` aggregation over the matching records. */
  function Total(records: seq<CommissionRecord>, userId: int, assetId: int, kind: Option<OrderType>): real
  {
    if records == [] then 0.0
    else
      var last := records[|records| - 1];
      Total(records[..|records| - 1], userId, assetId, kind) + (if Matches(last, userId, assetId, kind) then last.commission else 0.0)
  }

  /** `getTotalCommission`: an empty `type` adds no order-type filter, and a
      failed search gives 0. */
  function TotalCommission(records: seq<CommissionRecord>, userId: int, assetId: int, kind: Option<OrderType>,
                           failed: bool): (total: real)
    ensures failed ==> total == 0.0
    ensures !failed && (forall i :: 0 <= i < |records| ==> !Matches(records[i], userId, assetId, kind)) ==> total == 0.0
  {
    if failed then 0.0
    else
      NoMatchTotal(records, userId, assetId, kind);
      Total(records, userId, assetId, kind)
  }

  /** With no matching record the sum is 0. */
  lemma {:induction false} NoMatchTotal(records: seq<CommissionRecord>, userId: int, assetId: int, kind: Option<OrderType>)
    ensures (forall i :: 0 <= i < |records| ==> !Matches(records[i], userId, assetId, kind)) ==>
              Total(records, userId, assetId, kind) == 0.0
  {
    if records != [] && forall i :: 0 <= i < |records| ==> !Matches(records[i], userId, assetId, kind) {
      var init := records[..|records| - 1];
      assert forall i :: 0 <= i < |init| ==> init[i] == records[i];
      NoMatchTotal(init, userId, assetId, kind);
    }
  }

  /** The unfiltered total is the sum of the totals of the three order
      types. */
  lemma {:induction false} TotalSplitsByType(records: seq<CommissionRecord>, userId: int, assetId: int)
    ensures Total(records, userId, assetId, None)
            == Total(records, userId, assetId, Some(Referral)) + Total(records, userId, assetId, Some(Mission))
               + Total(records, userId, assetId, Some(Volume))
  {
    if records != [] {
      TotalSplitsByType(records[..|records| - 1], userId, assetId);
    }
  }

  /** A pushed commission adds its amount to its recipient's total in its
      asset and order type, and leaves every other user's totals as they
      were. */
  lemma PushCounts(records: seq<CommissionRecord>, d: PushData, userId: int, assetId: int, kind: Option<OrderType>)
    ensures userId == d.toUserId && assetId == d.assetId && (kind.None? || kind.value == d.kind) ==>
              Total(records + [PushRecord(d)], userId, assetId, kind) == Total(records, userId, assetId, kind) + d.amount
    ensures userId != d.toUserId ==>
              Total(records + [PushRecord(d)], userId, assetId, kind) == Total(records, userId, assetId, kind)
  {
    assert (records + [PushRecord(d)])[..|records|] == records;
  }

  // ---------------------------------------------------------------------
  // HOPIUM commission by order type

  /** A `by_order_type` bucket. */
  datatype Bucket = Bucket(key: OrderType, total: real)

  /** `getHopiumCommission`'s answer: the three totals, or the empty list it
      returns when the search fails. */
  datatype HopiumAnswer = Totals(volume: real, mission: real, referral: real) | EmptyList

  /** `find(item.key === kind)?.total_commission?.value || 0`. */
  function BucketTotal(buckets: seq<Bucket>, kind: OrderType): (v: real)
    ensures (forall i :: 0 <= i < |buckets| ==> buckets[i].key != kind) ==> v == 0.0
    ensures forall i :: (0 <= i < |buckets| && buckets[i].key == kind
                         && forall j :: 0 <= j < i ==> buckets[j].key != kind) ==> v == buckets[i].total
  {
    match FirstWhere(buckets, (b: Bucket) => b.key == kind)
    case Some(i) => buckets[i].total
    case None => 0.0
  }

  /** `getHopiumCommission` over the buckets the search returned, `None`
      when it failed. */
  function HopiumCommission(buckets: Option<seq<Bucket>>): (a: HopiumAnswer)
    ensures buckets.None? <==> a == EmptyList
  {
    match buckets
    case None => EmptyList
    case Some(bs) => Totals(BucketTotal(bs, Volume), BucketTotal(bs, Mission), BucketTotal(bs, Referral))
  }

  /** The HOPIUM records to `userId` of order type `kind` exist. */
  predicate HasHopium(records: seq<CommissionRecord>, userId: int, kind: OrderType)
  {
    exists i :: 0 <= i < |records| && Matches(records[i], userId, HOPIUM, Some(kind))
  }

  /** The bucket of one order type, present when a record of it matches. */
  function BucketOf(records: seq<CommissionRecord>, userId: int, kind: OrderType): (r: seq<Bucket>)
    ensures |r| <= 1 && (|r| == 1 <==> HasHopium(records, userId, kind))
    ensures forall i :: 0 <= i < |r| ==> r[i] == Bucket(kind, Total(records, userId, HOPIUM, Some(kind)))
  {
    if HasHopium(records, userId, kind) then [Bucket(kind, Total(records, userId, HOPIUM, Some(kind)))] else []
  }

  /** The `terms` aggregation of the user's HOPIUM records by order type. */
  function Aggregate(records: seq<CommissionRecord>, userId: int): seq<Bucket>
  {
    BucketOf(records, userId, Referral) + BucketOf(records, userId, Mission) + BucketOf(records, userId, Volume)
  }

  /** In the aggregation, an order type's bucket total is its total, and
      an order type without records has none and totals 0. */
  lemma AggregateBucket(records: seq<CommissionRecord>, userId: int, kind: OrderType)
    ensures BucketTotal(Aggregate(records, userId), kind) == TotalCommission(records, userId, HOPIUM, Some(kind), false)
  {
    var a, b, c := BucketOf(records, userId, Referral), BucketOf(records, userId, Mission), BucketOf(records, userId, Volume);
    var bs := Aggregate(records, userId);
    var part := if kind == Referral then a else if kind == Mission then b else c;
    var at := if kind == Referral then 0 else if kind == Mission then |a| else |a| + |b|;
    assert forall j :: 0 <= j < |bs| && j != at ==> bs[j].key != kind;
    if HasHopium(records, userId, kind) {
      assert bs[at] == part[0];
    } else {
      assert forall j :: 0 <= j < |bs| ==> bs[j].key != kind;
    }
  }

  /** Over the aggregation of the index, each HOPIUM total is the total
      `getTotalCommission` reports for that order type. */
  lemma HopiumAgreesWithTotals(records: seq<CommissionRecord>, userId: int)
    ensures HopiumCommission(Some(Aggregate(records, userId)))
            == Totals(TotalCommission(records, userId, HOPIUM, Some(Volume), false),
                      TotalCommission(records, userId, HOPIUM, Some(Mission), false),
                      TotalCommission(records, userId, HOPIUM, Some(Referral), false))
  {
    AggregateBucket(records, userId, Volume);
    AggregateBucket(records, userId, Mission);
    AggregateBucket(records, userId, Referral);
  }

  // ---------------------------------------------------------------------
  // Weekly pool rank

  /** `getUserRankWeeklyPool` over the bucket keys (user ids, largest
      volume first) the search returned, `None` when it failed: 0 for a
      failure or no buckets, the 1-based position of the user, or -1. */
  function WeeklyRank(buckets: Option<seq<int>>, userId: int): (rank: int)
    ensures rank == 0 <==> buckets.None? || buckets.value == []
    ensures rank >= 1 ==> rank <= |buckets.value| && buckets.value[rank - 1] == userId
                          && forall j :: 0 <= j < rank - 1 ==> buckets.value[j] != userId
    ensures rank == -1 <==> buckets.Some? && buckets.value != [] && userId !in buckets.value
    ensures rank >= -1
  {
    match buckets
    case None => 0
    case Some(keys) =>
      if |keys| == 0 then 0
      else
        match FirstWhere(keys, (k: int) => k == userId)
        case Some(i) => i + 1
        case None => -1
  }

  /** Users rank 1, 2, ... in bucket order. */
  lemma RankIsPosition(keys: seq<int>, i: nat)
    requires i < |keys|
    requires forall j :: 0 <= j < i ==> keys[j] != keys[i]
    ensures WeeklyRank(Some(keys), keys[i]) == i + 1
  {
  }

  // ---------------------------------------------------------------------
  // Order close

  /** `_calculateCommissionOpenOrder`: the volume rounded down. */
  function OpenOrderCommission(volume: real): (c: int)
    ensures c as real <= volume < c as real + 1.0
  {
    Floor(volume)
  }

  /** A whole volume is paid in full, and a larger volume never pays
      less. */
  lemma OpenOrderCommissionFacts(n: int, v: real, w: real)
    ensures OpenOrderCommission(n as real) == n
    ensures v <= w ==> OpenOrderCommission(v) <= OpenOrderCommission(w)
  {
  }

  /** The fields of a closed order the handler reads. */
  datatype ClosedOrder = ClosedOrder(userId: int, displayingId: int, openPrice: real, orderValue: real)

  /** The HOPIUM credit for a closed order. */
  function CloseCredit(order: ClosedOrder): Credit
  {
    Credit(order.userId, HOPIUM, CommissionCategory, OpenOrderCommission(order.orderValue) as real)
  }

  /** The VOLUME commission pushed for a closed order: from and to its
      owner. */
  function ClosePush(order: ClosedOrder, referralCode: string): PushData
  {
    PushData(OpenOrderCommission(order.orderValue) as real, order.userId, order.userId, referralCode, Volume, HOPIUM)
  }

  /** The order-close commission and the index document, as a function of
      the outcomes: `referralCode` is `None` when the owner is not found,
      `creditOk` and `pushOk` say whether the wallet call and the index
      call succeed. */
  function CloseEffect(order: ClosedOrder, referralCode: Option<string>, creditOk: bool, pushOk: bool)
    : (r: (seq<Credit>, seq<CommissionRecord>))
    ensures order.openPrice == 0.0 || !creditOk ==> r == ([], [])
    ensures order.openPrice != 0.0 && creditOk ==> r.0 == [CloseCredit(order)]
    ensures r.1 == if order.openPrice != 0.0 && creditOk && referralCode.Some? && pushOk
                   then [PushRecord(ClosePush(order, referralCode.value))] else []
  {
    if order.openPrice == 0.0 || !creditOk then ([], [])
    else if referralCode.None? || !pushOk then ([CloseCredit(order)], [])
    else ([CloseCredit(order)], [PushRecord(ClosePush(order, referralCode.value))])
  }

  /** When the whole close goes through, the owner's VOLUME commission in
      HOPIUM grows by the credited amount, the floor of the order value. */
  lemma CloseCountsVolume(records: seq<CommissionRecord>, order: ClosedOrder, code: string)
    requires order.openPrice != 0.0
    ensures var r := CloseEffect(order, Some(code), true, true);
            && r.0 == [CloseCredit(order)]
            && Total(records + r.1, order.userId, HOPIUM, Some(Volume))
               == Total(records, order.userId, HOPIUM, Some(Volume)) + r.0[0].quantity
  {
    PushCounts(records, ClosePush(order, code), order.userId, HOPIUM, Some(Volume));
  }

  class CommissionService {
    /** Credits sent to the wallet, oldest first. */
    var ledger: seq<Credit>
    /** The commission index. */
    var records: seq<CommissionRecord>

    constructor ()
      ensures ledger == [] && records == []
    {
      ledger := [];
      records := [];
    }

    /** `pushCommission`: indexes the record unless the index call fails,
        which is swallowed. */
    method PushCommission(d: PushData, pushOk: bool)
      modifies this
      ensures records == old(records) + (if pushOk then [PushRecord(d)] else [])
      ensures ledger == old(ledger)
    {
      if pushOk {
        records := records + [PushRecord(d)];
      }
    }

    /** `handleNewOrderClosed`: a cancelled order (open price 0) earns
        nothing; otherwise the owner is credited the floor of the order
        value in HOPIUM, and then a VOLUME commission is pushed. A failed
        credit throws out of the handler before the push; a missing owner
        or a failed push is caught. */
    method HandleNewOrderClosed(order: ClosedOrder, referralCode: Option<string>, creditOk: bool, pushOk: bool)
      modifies this
      ensures ledger == old(ledger) + CloseEffect(order, referralCode, creditOk, pushOk).0
      ensures records == old(records) + CloseEffect(order, referralCode, creditOk, pushOk).1
    {
      if order.openPrice == 0.0 {
        return;
      }
      if !creditOk {
        return;
      }
      ledger := ledger + [CloseCredit(order)];
      if referralCode.None? {
        return;
      }
      PushCommission(ClosePush(order, referralCode.value), pushOk);
    }
  }
}
