// Trading campaigns: their status on the calendar, the score an order event
// earns in each ongoing campaign, the per-campaign leaderboard scores and
// participation records, and the ranking list of a leaderboard.

module Campaign {
  import opened Common

  datatype Status = Upcoming | Ongoing | Completed

  datatype Condition = TopVolumeTrade | TopHighestVolume | TopPnl | OtherCondition

  /** A campaign of the catalogue; dates are instants on one integer clock. */
  datatype CampaignDef = CampaignDef(id: int, startDate: int, endDate: int, condition: Condition, limit: nat)

  /** The order fields an order event carries. `closeOrderValue` is 0 when
      absent, and `profit` is absent on some close events. */
  datatype OrderInfo = OrderInfo(displayingId: int, userId: int, orderValue: real, closeOrderValue: real, profit: Option<real>)

  /** An order event: placed, or closed. */
  datatype OrderEvent = Placed(order: OrderInfo) | Closed(order: OrderInfo)

  /** What a participation record keeps of the order. */
  datatype Metadata =
    | VolumeMeta(orderId: int, volume: real)
    | HighestVolumeMeta(orderId: int, volume: real, volumeClosed: real)
    | PnlMeta(orderId: int, volume: real, volumeClosed: real, profit: real)
    | NoMeta

  /** The score an event earns and what is recorded with it. */
  datatype Scoring = Scoring(score: real, metadata: Metadata)

  /** One participation record. */
  datatype Record = Record(userId: int, campaignId: int, metadata: Metadata)

  /** A row of the leaderboard. */
  datatype RankEntry = RankEntry(rank: int, score: real, userId: int)

  datatype CampaignError = CampaignNotFound

  /** `getCampaignStatus`: before the start it is upcoming, after the end
      completed, and otherwise, both boundaries included, ongoing. */
  function CampaignStatus(startDate: int, endDate: int, now: int): (s: Status)
    ensures s == Upcoming <==> now < startDate
    ensures s == Completed <==> startDate <= now && now > endDate
    ensures s == Ongoing <==> startDate <= now <= endDate
  {
    if now < startDate then Upcoming
    else if now > endDate then Completed
    else Ongoing
  }

  /** `getOngoingCampaigns`. */
  function OngoingCampaigns(campaigns: seq<CampaignDef>, now: int): seq<CampaignDef>
  {
    Filter(campaigns, (c: CampaignDef) => c.startDate <= now && c.endDate >= now)
  }

  /** A campaign is listed as ongoing exactly when its status is ongoing. */
  lemma OngoingAgreesWithStatus(campaigns: seq<CampaignDef>, now: int)
    ensures forall c :: c in OngoingCampaigns(campaigns, now) <==>
              c in campaigns && CampaignStatus(c.startDate, c.endDate, now) == Ongoing
  {
    FilterMembers(campaigns, (c: CampaignDef) => c.startDate <= now && c.endDate >= now);
  }

  /** `findCampaignById`. */
  function FindCampaign(campaigns: seq<CampaignDef>, campaignId: int): (r: Result<CampaignDef, CampaignError>)
    ensures r.Ok? <==> exists i :: 0 <= i < |campaigns| && campaigns[i].id == campaignId
    ensures r.Ok? ==> r.value in campaigns && r.value.id == campaignId
  {
    match FirstWhere(campaigns, (c: CampaignDef) => c.id == campaignId)
    case Some(i) => Ok(campaigns[i])
    case None => Err(CampaignNotFound)
  }

  /** `getUserCampaignData`; `None` where the source reads a field of the
      missing order of the other event kind and throws. */
  function CampaignData(c: CampaignDef, event: OrderEvent): (r: Option<Scoring>)
    ensures c.condition == TopVolumeTrade ==>
              r == if event.Placed? then Some(Scoring(event.order.orderValue, VolumeMeta(event.order.displayingId, event.order.orderValue))) else None
    ensures c.condition == TopHighestVolume ==>
              r.Some? && r.value.score == (if event.Closed? then event.order.closeOrderValue else event.order.orderValue)
    ensures c.condition == TopPnl ==>
              (r.Some? <==> event.Closed?)
              && (r.Some? ==> r.value.score == (if event.order.profit.Some? then event.order.profit.value else 0.0))
    ensures c.condition == OtherCondition ==> r == Some(Scoring(0.0, NoMeta))
  {
    var o := event.order;
    match c.condition
    case TopVolumeTrade =>
      if event.Placed? then Some(Scoring(o.orderValue, VolumeMeta(o.displayingId, o.orderValue))) else None
    case TopHighestVolume =>
      var closedValue := if event.Closed? then o.closeOrderValue else 0.0;
      Some(Scoring(if event.Closed? then o.closeOrderValue else o.orderValue,
                   HighestVolumeMeta(o.displayingId, o.orderValue, closedValue)))
    case TopPnl =>
      if event.Closed? then
        var profit := if o.profit.Some? then o.profit.value else 0.0;
        Some(Scoring(profit, PnlMeta(o.displayingId, o.orderValue, o.closeOrderValue, profit)))
      else None
    case OtherCondition => Some(Scoring(0.0, NoMeta))
  }

  /** The (campaign, scoring) pairs an event records, in campaign order:
      campaigns that fail or score 0 are skipped. */
  function Entries(campaigns: seq<CampaignDef>, event: OrderEvent): (r: seq<(int, Scoring)>)
    ensures |r| <= |campaigns|
    ensures forall i :: 0 <= i < |r| ==> r[i].1.score != 0.0
  {
    if campaigns == [] then []
    else
      var rest := Entries(campaigns[..|campaigns| - 1], event);
      var c := campaigns[|campaigns| - 1];
      match CampaignData(c, event)
      case Some(s) => if s.score == 0.0 then rest else rest + [(c.id, s)]
      case None => rest
  }

  /** An event records a scoring for a campaign exactly when the campaign
      is in the list, its data does not fail and its score is not 0. */
  lemma {:induction false} EntriesMembers(campaigns: seq<CampaignDef>, event: OrderEvent, e: (int, Scoring))
    ensures e in Entries(campaigns, event) <==>
              exists c :: c in campaigns && e.0 == c.id && CampaignData(c, event) == Some(e.1) && e.1.score != 0.0
  {
    if campaigns != [] {
      var init := campaigns[..|campaigns| - 1];
      var last := campaigns[|campaigns| - 1];
      EntriesMembers(init, event, e);
      assert campaigns == init + [last];
      assert forall c :: c in campaigns <==> c in init || c == last;
    }
  }

  /** A user's score in a campaign; an absent member scores 0. */
  function Score(scores: map<(int, int), real>, campaignId: int, userId: int): real
  {
    if (campaignId, userId) in scores then scores[(campaignId, userId)] else 0.0
  }

  /** `processUserCampaignScore` on the score map: the user's score grows by
      exactly `score`. */
  function AddScore(scores: map<(int, int), real>, campaignId: int, userId: int, score: real): (r: map<(int, int), real>)
    ensures Score(r, campaignId, userId) == Score(scores, campaignId, userId) + score
    ensures forall c, u :: (c, u) != (campaignId, userId) ==> Score(r, c, u) == Score(scores, c, u)
  {
    scores[(campaignId, userId) := Score(scores, campaignId, userId) + score]
  }

  /** The scores after recording `entries` for `userId`. */
  function AddAll(scores: map<(int, int), real>, userId: int, entries: seq<(int, Scoring)>): map<(int, int), real>
  {
    if entries == [] then scores
    else
      var last := entries[|entries| - 1];
      AddScore(AddAll(scores, userId, entries[..|entries| - 1]), last.0, userId, last.1.score)
  }

  /** Total score `entries` give campaign `c`. */
  function SumFor(entries: seq<(int, Scoring)>, c: int): real
  {
    if entries == [] then 0.0
    else SumFor(entries[..|entries| - 1], c) + (if entries[|entries| - 1].0 == c then entries[|entries| - 1].1.score else 0.0)
  }

  /** Recording entries adds to each campaign exactly the sum of its
      entries, and changes no other user's score. */
  lemma {:induction false} AddAllEffect(scores: map<(int, int), real>, userId: int, entries: seq<(int, Scoring)>, c: int, u: int)
    ensures Score(AddAll(scores, userId, entries), c, u)
            == Score(scores, c, u) + (if u == userId then SumFor(entries, c) else 0.0)
  {
    if entries != [] {
      AddAllEffect(scores, userId, entries[..|entries| - 1], c, u);
    }
  }

  /** The participation records of `entries`. */
  function RecordsOf(userId: int, entries: seq<(int, Scoring)>): (r: seq<Record>)
    ensures |r| == |entries|
    ensures forall i :: 0 <= i < |r| ==> r[i] == Record(userId, entries[i].0, entries[i].1.metadata)
  {
    if entries == [] then []
    else RecordsOf(userId, entries[..|entries| - 1]) + [Record(userId, entries[|entries| - 1].0, entries[|entries| - 1].1.metadata)]
  }

  /** The loop of `handleNewOrderPlaced` / `handleNewOrderClosed` over the
      ongoing campaigns: a failing or zero-score campaign is skipped and does
      not stop the others. */
  method ScoreEvent(campaigns: seq<CampaignDef>, event: OrderEvent, scores: map<(int, int), real>, records: seq<Record>)
    returns (scores': map<(int, int), real>, records': seq<Record>)
    ensures scores' == AddAll(scores, event.order.userId, Entries(campaigns, event))
    ensures records' == records + RecordsOf(event.order.userId, Entries(campaigns, event))
  {
    var userId := event.order.userId;
    scores', records' := scores, records;
    for i := 0 to |campaigns|
      invariant scores' == AddAll(scores, userId, Entries(campaigns[..i], event))
      invariant records' == records + RecordsOf(userId, Entries(campaigns[..i], event))
    {
      EntriesStep(campaigns, i, event);
      var data := CampaignData(campaigns[i], event);
      if data.None? {
        continue;
      }
      if data.value.score == 0.0 {
        continue;
      }
      ghost var before := Entries(campaigns[..i], event);
      AppendEntry(scores, records, userId, before, (campaigns[i].id, data.value));
      scores' := AddScore(scores', campaigns[i].id, userId, data.value.score);
      records' := records' + [Record(userId, campaigns[i].id, data.value.metadata)];
    }
    assert campaigns[..|campaigns|] == campaigns;
  }

  /** One more campaign adds its scoring to the entries when it scores. */
  lemma EntriesStep(campaigns: seq<CampaignDef>, i: int, event: OrderEvent)
    requires 0 <= i < |campaigns|
    ensures Entries(campaigns[..i + 1], event)
            == match CampaignData(campaigns[i], event)
               case Some(s) => if s.score == 0.0 then Entries(campaigns[..i], event)
                               else Entries(campaigns[..i], event) + [(campaigns[i].id, s)]
               case None => Entries(campaigns[..i], event)
  {
    assert campaigns[..i + 1][..i] == campaigns[..i];
  }

  /** Recording one more entry. */
  lemma AppendEntry(scores: map<(int, int), real>, records: seq<Record>, userId: int,
                    entries: seq<(int, Scoring)>, e: (int, Scoring))
    ensures AddAll(scores, userId, entries + [e]) == AddScore(AddAll(scores, userId, entries), e.0, userId, e.1.score)
    ensures records + RecordsOf(userId, entries + [e]) == records + RecordsOf(userId, entries) + [Record(userId, e.0, e.1.metadata)]
  {
    assert (entries + [e])[..|entries|] == entries;
  }

  /** A campaign the event does not score in keeps every score. */
  lemma {:induction false} SumForAbsent(entries: seq<(int, Scoring)>, c: int)
    requires forall i :: 0 <= i < |entries| ==> entries[i].0 != c
    ensures SumFor(entries, c) == 0.0
  {
    if entries != [] {
      SumForAbsent(entries[..|entries| - 1], c);
    }
  }

  /** JavaScript `parseInt` of a score: the integer part, toward zero. */
  function TruncateScore(x: real): (r: int)
    ensures x >= 0.0 ==> r as real <= x < r as real + 1.0
    ensures x < 0.0 ==> r as real - 1.0 < x <= r as real
  {
    if x >= 0.0 then x.Floor else -((-x).Floor)
  }

  /** The score shown on the leaderboard: truncated except for PnL
      campaigns (whose 4-decimal rounding is not modelled). */
  function ShownScore(c: CampaignDef, raw: real): real
  {
    if c.condition != TopPnl then TruncateScore(raw) as real else raw
  }

  /** The ranking loop of `getLeaderboard`. `top` is the leaderboard's
      `zrevrange` answer (member and score, best first) and `me` the caller's
      own row; the rows are ranked 1, 2, ... in the given order, and `me` is
      dropped when the caller is on the list. */
  method Ranking(c: CampaignDef, top: seq<(int, real)>, userId: int, me: Option<RankEntry>)
    returns (ranking: seq<RankEntry>, me': Option<RankEntry>)
    ensures |ranking| == |top|
    ensures forall i :: 0 <= i < |ranking| ==>
              ranking[i] == RankEntry(i + 1, ShownScore(c, top[i].1), top[i].0)
    ensures me' == if exists i :: 0 <= i < |top| && top[i].0 == userId then None else me
  {
    ranking, me' := [], me;
    var rank := 1;
    for i := 0 to |top|
      invariant rank == i + 1
      invariant |ranking| == i
      invariant forall j :: 0 <= j < i ==> ranking[j] == RankEntry(j + 1, ShownScore(c, top[j].1), top[j].0)
      invariant me' == if exists j :: 0 <= j < i && top[j].0 == userId then None else me
    {
      if top[i].0 == userId {
        me' := None;
      }
      ranking := ranking + [RankEntry(rank, ShownScore(c, top[i].1), top[i].0)];
      rank := rank + 1;
    }
  }

  /** The caller's own row: `zrevrank` plus one, or none without a score. */
  function MyRow(c: CampaignDef, userId: int, rank: Option<nat>, score: Option<real>): (r: Option<RankEntry>)
    ensures r.None? <==> rank.None? || score.None?
    ensures r.Some? ==> r.value.rank == rank.value + 1 && r.value.rank >= 1
  {
    if rank.None? || score.None? then None else Some(RankEntry(rank.value + 1, ShownScore(c, score.value), userId))
  }

  // ---------------------------------------------------------------------
  // The store

  class CampaignStore {
    /** The campaign catalogue. */
    const campaigns: seq<CampaignDef>
    /** The leaderboard sorted sets, by (campaign id, user id). */
    var scores: map<(int, int), real>
    /** The user-campaign participation records, oldest first. */
    var records: seq<Record>

    constructor (campaigns: seq<CampaignDef>)
      ensures this.campaigns == campaigns && scores == map[] && records == []
    {
      this.campaigns := campaigns;
      scores := map[];
      records := [];
    }

    /** `processUserCampaignScore`. */
    method ProcessUserCampaignScore(userId: int, campaignId: int, score: real, metadata: Metadata)
      modifies this
      ensures scores == AddScore(old(scores), campaignId, userId, score)
      ensures records == old(records) + [Record(userId, campaignId, metadata)]
    {
      scores := AddScore(scores, campaignId, userId, score);
      records := records + [Record(userId, campaignId, metadata)];
    }

    /** `handleNewOrderPlaced`. */
    method HandleNewOrderPlaced(order: OrderInfo, now: int)
      modifies this
      ensures var entries := Entries(OngoingCampaigns(campaigns, now), Placed(order));
              && scores == AddAll(old(scores), order.userId, entries)
              && records == old(records) + RecordsOf(order.userId, entries)
    {
      scores, records := ScoreEvent(OngoingCampaigns(campaigns, now), Placed(order), scores, records);
    }

    /** `handleNewOrderClosed`: a close with no close value scores nothing. */
    method HandleNewOrderClosed(order: OrderInfo, now: int)
      modifies this
      ensures order.closeOrderValue == 0.0 ==> scores == old(scores) && records == old(records)
      ensures order.closeOrderValue != 0.0 ==>
                var entries := Entries(OngoingCampaigns(campaigns, now), Closed(order));
                && scores == AddAll(old(scores), order.userId, entries)
                && records == old(records) + RecordsOf(order.userId, entries)
    {
      if order.closeOrderValue == 0.0 {
        return;
      }
      scores, records := ScoreEvent(OngoingCampaigns(campaigns, now), Closed(order), scores, records);
    }

    /** `getLeaderboard`: an unknown campaign is rejected. */
    method GetLeaderboard(campaignId: int, userId: int, top: seq<(int, real)>, myRank: Option<nat>, myScore: Option<real>)
      returns (r: Result<(seq<RankEntry>, Option<RankEntry>), CampaignError>)
      ensures FindCampaign(campaigns, campaignId).Err? ==> r == Err(CampaignNotFound)
      ensures FindCampaign(campaigns, campaignId).Ok? ==>
                && r.Ok?
                && |r.value.0| == |top|
                && (forall i :: 0 <= i < |top| ==> r.value.0[i].rank == i + 1 && r.value.0[i].userId == top[i].0)
                && (r.value.1.None? <==> myRank.None? || myScore.None? || exists i :: 0 <= i < |top| && top[i].0 == userId)
    {
      var found := FindCampaign(campaigns, campaignId);
      if found.Err? {
        return Err(CampaignNotFound);
      }
      var c := found.value;
      var ranking, me := Ranking(c, top, userId, MyRow(c, userId, myRank, myScore));
      r := Ok((ranking, me));
    }
  }
}
