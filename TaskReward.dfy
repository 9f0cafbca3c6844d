/** The weighted reward spinner of the child-mission task
    (src/tasks/task-reward.service.ts). The per-tier award counters live in
    an external hash (tier id -> count); the uniform draw is a parameter. */
module TaskReward {
  import opened Common

  /** One tier of a reward catalogue. */
  datatype TaskReward = TaskReward(
    id: int, title: string, winningRate: real,
    rewardAsset: int, rewardQuantity: real, maxSpin: int)

  /** What a spin awards. */
  datatype Prize = Prize(rewardAsset: int, rewardQuantity: real)

  /** Why a spin fails: the fallback read the last tier of an empty catalogue. */
  datatype SpinError = EmptyCatalogue

  function PrizeOf(t: TaskReward): Prize
  {
    Prize(t.rewardAsset, t.rewardQuantity)
  }

  /** Total tracked spins at which the promotional catalogue is retired. */
  const InitSpins: int := 5000

  /** The promotional catalogue the service starts with. */
  function InitialRewards(): seq<TaskReward>
  {
    [ TaskReward(1, "5 TON", 0.002, TON, 5.0, 10),
      TaskReward(2, "1 TON", 0.01, TON, 1.0, 50),
      TaskReward(3, "0.5 TON", 0.02, TON, 0.5, 100),
      TaskReward(4, "5000 HOPIUM", 0.168, HOPIUM, 5000.0, 840),
      TaskReward(5, "1000 HOPIUM", 0.3, HOPIUM, 1000.0, 1500),
      TaskReward(6, "500 HOPIUM", 0.5, HOPIUM, 500.0, 2500) ]
  }

  /** The catalogue substituted once the promotional one is used up. */
  function StableRewards(): seq<TaskReward>
  {
    [ TaskReward(7, "5000 HOPIUM", 0.17355, HOPIUM, 5000.0, 17355),
      TaskReward(8, "1000 HOPIUM", 0.30992, HOPIUM, 1000.0, 30992),
      TaskReward(9, "500 HOPIUM", 0.51653, HOPIUM, 500.0, 51653) ]
  }

  // ---------------------------------------------------------------------
  // Catalogue arithmetic

  /** Sum of the winning rates of `s`. */
  function RateSum(s: seq<TaskReward>): real
  {
    if s == [] then 0.0 else RateSum(s[..|s| - 1]) + s[|s| - 1].winningRate
  }

  /** Sum of the spin caps of `s`. */
  function CapSum(s: seq<TaskReward>): int
  {
    if s == [] then 0 else CapSum(s[..|s| - 1]) + s[|s| - 1].maxSpin
  }

  /** Cumulative winning rate of the tiers up to and including `k`. */
  function Cumulative(s: seq<TaskReward>, k: int): real
    requires 0 <= k < |s|
  {
    RateSum(s[..k + 1])
  }

  ghost predicate DistinctIds(s: seq<TaskReward>)
  {
    forall i, j :: 0 <= i < j < |s| ==> s[i].id != s[j].id
  }

  /** The promotional rates add up to 1. */
  lemma InitialRatesSumToOne()
    ensures RateSum(InitialRewards()) == 1.0
  {
    var s := InitialRewards();
    var p0, p1, p2, p3, p4, p5 := s[..0], s[..1], s[..2], s[..3], s[..4], s[..5];
    assert p1[..0] == p0 && p2[..1] == p1 && p3[..2] == p2;
    assert p4[..3] == p3 && p5[..4] == p4 && s[..5] == p5;
    assert RateSum(p1) == 0.002;
    assert RateSum(p2) == 0.012;
    assert RateSum(p3) == 0.032;
    assert RateSum(p4) == 0.2;
    assert RateSum(p5) == 0.5;
  }

  /** The promotional caps add up to `InitSpins`. */
  lemma InitialCapsSumToInitSpins()
    ensures CapSum(InitialRewards()) == InitSpins
  {
    var s := InitialRewards();
    var p0, p1, p2, p3, p4, p5 := s[..0], s[..1], s[..2], s[..3], s[..4], s[..5];
    assert p1[..0] == p0 && p2[..1] == p1 && p3[..2] == p2;
    assert p4[..3] == p3 && p5[..4] == p4 && s[..5] == p5;
    assert CapSum(p1) == 10;
    assert CapSum(p2) == 60;
    assert CapSum(p3) == 160;
    assert CapSum(p4) == 1000;
    assert CapSum(p5) == 2500;
  }

  /** Each promotional cap is its tier's expected share of `InitSpins`
      spins. */
  lemma InitialCapsMatchRates()
    ensures forall t :: t in InitialRewards() ==> t.maxSpin as real == t.winningRate * InitSpins as real
  {
  }

  lemma InitialIdsDistinct()
    ensures DistinctIds(InitialRewards())
  {
  }

  /** The stable rates add up to 1 as well, and each stable cap is its
      tier's share of 100000 spins. */
  lemma StableCatalogueConstants()
    ensures RateSum(StableRewards()) == 1.0
    ensures DistinctIds(StableRewards())
    ensures forall t :: t in StableRewards() ==> t.maxSpin as real == t.winningRate * 100000.0
  {
    var s := StableRewards();
    var p0, p1, p2 := s[..0], s[..1], s[..2];
    assert p1[..0] == p0 && p2[..1] == p1 && s[..2] == p2;
    assert RateSum(p0) == 0.0;
    assert RateSum(p1) == 0.17355;
    assert RateSum(p2) == 0.48347;
  }

  // ---------------------------------------------------------------------
  // The counter hash

  /** A counter as the hash reports it; an absent field counts as 0. */
  function Count(counts: map<int, nat>, id: int): nat
  {
    if id in counts then counts[id] else 0
  }

  /** HINCRBY field 1: creates the field at 1 when it is absent. */
  function Increment(counts: map<int, nat>, id: int): (r: map<int, nat>)
    ensures r.Keys == counts.Keys + {id}
    ensures Count(r, id) == Count(counts, id) + 1
    ensures forall other :: other != id ==> Count(r, other) == Count(counts, other)
  {
    counts[id := Count(counts, id) + 1]
  }

  /** Sum of the counters whose fields are in `ks`. */
  ghost function SumOver(counts: map<int, nat>, ks: set<int>): nat
    requires ks <= counts.Keys
  {
    if ks == {} then 0
    else
      HasElement(ks);
      var k :| k in ks;
      counts[k] + SumOver(counts, ks - {k})
  }

  /** Sum of every tracked counter (the reduce over HGETALL). */
  ghost function Total(counts: map<int, nat>): nat
  {
    SumOver(counts, counts.Keys)
  }

  /** The sum does not depend on the order the fields are visited in. */
  lemma {:induction false} SumOverRemove(counts: map<int, nat>, ks: set<int>, k: int)
    requires ks <= counts.Keys && k in ks
    ensures SumOver(counts, ks) == counts[k] + SumOver(counts, ks - {k})
    decreases ks
  {
    var k0 :| k0 in ks && SumOver(counts, ks) == counts[k0] + SumOver(counts, ks - {k0});
    if k0 != k {
      SumOverRemove(counts, ks - {k0}, k);
      assert ks - {k0} - {k} == ks - {k} - {k0};
      SumOverRemove(counts, ks - {k}, k0);
    }
  }

  /** Only the summed fields matter. */
  lemma {:induction false} SumOverAgree(a: map<int, nat>, b: map<int, nat>, ks: set<int>)
    requires ks <= a.Keys && ks <= b.Keys
    requires forall k :: k in ks ==> a[k] == b[k]
    ensures SumOver(a, ks) == SumOver(b, ks)
    decreases ks
  {
    if ks != {} {
      HasElement(ks);
      var k :| k in ks && SumOver(a, ks) == a[k] + SumOver(a, ks - {k});
      SumOverAgree(a, b, ks - {k});
      SumOverRemove(b, ks, k);
    }
  }

  lemma TotalRemove(counts: map<int, nat>, k: int)
    requires k in counts
    ensures Total(counts) == counts[k] + Total(counts - {k})
  {
    SumOverRemove(counts, counts.Keys, k);
    assert (counts - {k}).Keys == counts.Keys - {k};
    SumOverAgree(counts, counts - {k}, counts.Keys - {k});
  }

  lemma TotalIncrement(counts: map<int, nat>, id: int)
    ensures Total(Increment(counts, id)) == Total(counts) + 1
  {
    var r := Increment(counts, id);
    TotalRemove(r, id);
    assert r - {id} == counts - {id};
    if id in counts {
      TotalRemove(counts, id);
    } else {
      assert counts - {id} == counts;
    }
  }

  /** Sum of the counters of the tiers of `s`. */
  function TrackedSum(s: seq<TaskReward>, counts: map<int, nat>): nat
  {
    if s == [] then 0 else TrackedSum(s[..|s| - 1], counts) + Count(counts, s[|s| - 1].id)
  }

  lemma {:induction false} TrackedSumIgnores(s: seq<TaskReward>, counts: map<int, nat>, id: int)
    requires forall t :: t in s ==> t.id != id
    ensures TrackedSum(s, counts - {id}) == TrackedSum(s, counts)
  {
    if s != [] {
      TrackedSumIgnores(s[..|s| - 1], counts, id);
    }
  }

  /** The tracked counters of distinct tiers never add up to more than the
      whole hash. */
  lemma {:induction false} TotalCoversTracked(s: seq<TaskReward>, counts: map<int, nat>)
    requires DistinctIds(s)
    ensures Total(counts) >= TrackedSum(s, counts)
    decreases |s|
  {
    if s != [] {
      var init, last := s[..|s| - 1], s[|s| - 1];
      assert forall t :: t in init ==> t.id != last.id;
      if last.id in counts {
        TotalRemove(counts, last.id);
        TotalCoversTracked(init, counts - {last.id});
        TrackedSumIgnores(init, counts, last.id);
      } else {
        TotalCoversTracked(init, counts);
      }
    }
  }

  // ---------------------------------------------------------------------
  // Filtering exhausted tiers

  /** A tier stays in rotation while its counter is absent or below its cap. */
  predicate Keeps(t: TaskReward, counts: map<int, nat>)
  {
    t.id !in counts || counts[t.id] < t.maxSpin
  }

  /** `filterValidRewards`: the catalogue without its exhausted tiers. */
  function FilterValid(s: seq<TaskReward>, counts: map<int, nat>): (r: seq<TaskReward>)
    ensures |r| <= |s|
  {
    if s == [] then []
    else
      var prev := FilterValid(s[..|s| - 1], counts);
      if Keeps(s[|s| - 1], counts) then prev + [s[|s| - 1]] else prev
  }

  /** A tier survives the filter exactly when it was in the catalogue and
      is not exhausted. */
  lemma {:induction false} FilterValidMembers(s: seq<TaskReward>, counts: map<int, nat>, t: TaskReward)
    ensures t in FilterValid(s, counts) <==> t in s && Keeps(t, counts)
  {
    if s != [] {
      FilterValidMembers(s[..|s| - 1], counts, t);
      assert s == s[..|s| - 1] + [s[|s| - 1]];
    }
  }

  lemma {:induction false} FilterValidSubsequence(s: seq<TaskReward>, counts: map<int, nat>)
    ensures IsSubsequence(FilterValid(s, counts), s)
  {
    FilterIsSubsequence(s, t => Keeps(t, counts));
    FilterValidIsFilter(s, counts);
  }

  lemma {:induction false} FilterValidIsFilter(s: seq<TaskReward>, counts: map<int, nat>)
    ensures FilterValid(s, counts) == Filter(s, t => Keeps(t, counts))
  {
    if s != [] {
      FilterValidIsFilter(s[..|s| - 1], counts);
    }
  }

  /** Counter maps that only grew from `before` to `after`. */
  ghost predicate Grown(before: map<int, nat>, after: map<int, nat>)
  {
    forall id :: id in before ==> id in after && before[id] <= after[id]
  }

  /** Filtering again with grown counters is the same as filtering the
      original catalogue once with the newer counters. */
  lemma {:induction false} FilterValidTwice(s: seq<TaskReward>, before: map<int, nat>, after: map<int, nat>)
    requires Grown(before, after)
    ensures FilterValid(FilterValid(s, before), after) == FilterValid(s, after)
  {
    if s != [] {
      var init, last := s[..|s| - 1], s[|s| - 1];
      FilterValidTwice(init, before, after);
      var once := FilterValid(s, before);
      if Keeps(last, before) {
        assert once == FilterValid(init, before) + [last];
        assert once[..|once| - 1] == FilterValid(init, before);
      }
    }
  }

  lemma {:induction false} FilterValidUntracked(s: seq<TaskReward>)
    ensures FilterValid(s, map[]) == s
  {
    if s != [] {
      FilterValidUntracked(s[..|s| - 1]);
      assert s == s[..|s| - 1] + [s[|s| - 1]];
    }
  }

  /** When a filtered catalogue is empty, every tier reached its cap. */
  lemma {:induction false} EmptyMeansCapsReached(s: seq<TaskReward>, counts: map<int, nat>)
    requires FilterValid(s, counts) == []
    ensures TrackedSum(s, counts) >= CapSum(s)
  {
    if s != [] {
      var init, last := s[..|s| - 1], s[|s| - 1];
      assert !Keeps(last, counts);
      assert FilterValid(init, counts) == [];
      EmptyMeansCapsReached(init, counts);
    }
  }

  /** While fewer than `InitSpins` spins are tracked, the promotional
      catalogue still has a tier to award, so a spin never falls back on an
      empty catalogue. */
  lemma PromotionalNeverEmpty(counts: map<int, nat>)
    requires Total(counts) < InitSpins
    ensures FilterValid(InitialRewards(), counts) != []
  {
    InitialCapsSumToInitSpins();
    InitialIdsDistinct();
    if FilterValid(InitialRewards(), counts) == [] {
      EmptyMeansCapsReached(InitialRewards(), counts);
      TotalCoversTracked(InitialRewards(), counts);
      assert false;
    }
  }

  // ---------------------------------------------------------------------
  // Selecting a tier

  /** Tier `k` is the first whose cumulative winning rate reaches the draw. */
  ghost predicate Covers(s: seq<TaskReward>, draw: real, k: int)
  {
    0 <= k < |s|
    && draw <= Cumulative(s, k)
    && forall j :: 0 <= j < k ==> draw > Cumulative(s, j)
  }

  /** No cumulative winning rate reaches the draw. */
  ghost predicate NoneCovers(s: seq<TaskReward>, draw: real)
  {
    forall j :: 0 <= j < |s| ==> draw > Cumulative(s, j)
  }

  /** The for-loop of `spin`: walk the tiers accumulating the winning rate
      until the running total reaches the draw. */
  method SelectTier(s: seq<TaskReward>, draw: real) returns (found: bool, k: nat)
    ensures found ==> Covers(s, draw, k)
    ensures !found ==> NoneCovers(s, draw)
  {
    var totalProbability := 0.0;
    var i := 0;
    while i < |s|
      invariant 0 <= i <= |s|
      invariant totalProbability == RateSum(s[..i])
      invariant forall j :: 0 <= j < i ==> draw > Cumulative(s, j)
    {
      assert s[..i + 1][..i] == s[..i];
      totalProbability := totalProbability + s[i].winningRate;
      if draw <= totalProbability {
        return true, i;
      }
      i := i + 1;
    }
    return false, 0;
  }

  /** A catalogue whose rates add up to at least 1 always covers a draw
      taken from [0, 1), so the fallback is never needed for it. */
  lemma FullCatalogueCovers(s: seq<TaskReward>, draw: real)
    requires s != [] && RateSum(s) >= 1.0 && draw < 1.0
    ensures !NoneCovers(s, draw)
  {
    assert s[..|s| - 1 + 1] == s;
    assert Cumulative(s, |s| - 1) == RateSum(s);
  }

  /** The tier a spin awards from the filtered catalogue `s`. */
  ghost predicate Awards(s: seq<TaskReward>, draw: real, k: int)
  {
    Covers(s, draw, k) || (NoneCovers(s, draw) && k == |s| - 1 && s != [])
  }

  /** A spin over the filtered catalogue `s` awarded `prize` for `draw` and
      counted it, taking the counters from `before` to `after`. */
  ghost predicate SpunAs(s: seq<TaskReward>, draw: real, before: map<int, nat>, after: map<int, nat>, prize: Prize)
  {
    exists k :: 0 <= k < |s| && Awards(s, draw, k) && prize == PrizeOf(s[k]) && after == Increment(before, s[k].id)
  }

  /** What a spin of `sp` did, given its counters `before` and its switch
      flag `wasSwitched` before the spin: the catalogue it filtered, and either
      the prize it awarded and counted or nothing, with the counters untouched. */
  ghost predicate SpinOutcome(sp: RewardSpinner, before: map<int, nat>, wasSwitched: bool, draw: real, prize: Option<Prize>)
    reads sp
  {
    && sp.switched == (wasSwitched || Total(before) >= InitSpins)
    && sp.currentRewards == FilterValid(Catalogue(sp.switched), before)
    && (prize.Some? <==> sp.currentRewards != [])
    && (prize.None? ==> sp.counts == before)
    && (prize.Some? ==> SpunAs(sp.currentRewards, draw, before, sp.counts, prize.value))
  }

  /** The selection part of `spin`: the first tier covering the draw, or
      else the last tier of the catalogue; nothing for an empty catalogue. */
  method PickTier(s: seq<TaskReward>, draw: real) returns (found: bool, k: nat)
    ensures found <==> s != []
    ensures found ==> Awards(s, draw, k)
  {
    var covered;
    covered, k := SelectTier(s, draw);
    found := s != [];
    if !covered && found {
      k := |s| - 1;
    }
  }

  /** `getTotalSpins`: adds up every field of the counter hash. */
  method GetTotalSpins(counts: map<int, nat>) returns (total: nat)
    ensures total == Total(counts)
  {
    var rest := counts;
    total := 0;
    while rest.Keys != {}
      invariant total + Total(rest) == Total(counts)
      decreases rest.Keys
    {
      HasElement(rest.Keys);
      var k :| k in rest.Keys;
      TotalRemove(rest, k);
      total := total + rest[k];
      assert (rest - {k}).Keys < rest.Keys;
      rest := rest - {k};
    }
    assert rest == map[];
  }

  /** The first two steps of `spin`: swap in the stable catalogue once
      `total` reaches the threshold, then drop the exhausted tiers. */
  function Refresh(total: nat, current: seq<TaskReward>, counts: map<int, nat>): seq<TaskReward>
  {
    FilterValid(if total >= InitSpins then StableRewards() else current, counts)
  }

  /** The catalogue in force: the stable one once switched. */
  function Catalogue(switched: bool): seq<TaskReward>
  {
    if switched then StableRewards() else InitialRewards()
  }

  /** The service instance: the active catalogue is process state that each
      spin reassigns; `counts` is the shared counter hash. */
  class RewardSpinner {
    var currentRewards: seq<TaskReward>
    var counts: map<int, nat>
    /** Whether a spin has replaced the promotional catalogue. */
    ghost var switched: bool
    /** The counters the active catalogue was last filtered with. */
    ghost var seen: map<int, nat>

    ghost predicate Valid()
      reads this
    {
      && currentRewards == FilterValid(Catalogue(switched), seen)
      && Grown(seen, counts)
      && (switched ==> Total(counts) >= InitSpins)
    }

    /** A fresh service over whatever the counter hash already holds. */
    constructor (tracked: map<int, nat>)
      ensures Valid()
      ensures currentRewards == InitialRewards() && counts == tracked && !switched
    {
      currentRewards := InitialRewards();
      counts := tracked;
      switched := false;
      seen := map[];
      FilterValidUntracked(InitialRewards());
    }

    /** `spin`: switch catalogues at the threshold, drop exhausted tiers,
        pick a tier for `draw` and count the award. */
    method Spin(draw: real) returns (r: Result<Prize, SpinError>, ghost awarded: nat)
      requires Valid()
      requires 0.0 <= draw < 1.0
      modifies this
      ensures Valid()
      ensures switched == (old(switched) || old(Total(counts)) >= InitSpins)
      ensures currentRewards == FilterValid(Catalogue(switched), old(counts))
      ensures r.Ok? <==> currentRewards != []
      ensures r.Err? ==> counts == old(counts)
      ensures r.Ok? ==> Awards(currentRewards, draw, awarded)
                          && r.value == PrizeOf(currentRewards[awarded])
                          && counts == Increment(old(counts), currentRewards[awarded].id)
      ensures old(Total(counts)) < InitSpins ==> r.Ok?
    {
      var total := GetTotalSpins(counts);
      var tracked := counts;
      ghost var nowSwitched := switched || total >= InitSpins;
      SwitchThenFilter(switched, seen, currentRewards, tracked, total);
      var catalogue := Refresh(total, currentRewards, tracked);
      var found, k := PickTier(catalogue, draw);
      if !found {
        currentRewards, switched, seen := catalogue, nowSwitched, tracked;
        return Err(EmptyCatalogue), 0;
      }
      awarded := k;
      CountStep(tracked, catalogue[k].id, nowSwitched);
      currentRewards, switched, seen, counts := catalogue, nowSwitched, tracked, Increment(tracked, catalogue[k].id);
      r := Ok(PrizeOf(catalogue[k]));
    }
  }

  /** Counting an award keeps the counters grown and the switch justified. */
  lemma CountStep(counts: map<int, nat>, id: int, switched: bool)
    requires switched ==> Total(counts) >= InitSpins
    ensures Grown(counts, Increment(counts, id))
    ensures switched ==> Total(Increment(counts, id)) >= InitSpins
  {
    TotalIncrement(counts, id);
  }

  /** The catalogue a spin draws from is the catalogue in force filtered by
      the current counters, and it is never empty before the threshold. */
  lemma SwitchThenFilter(switched: bool, seen: map<int, nat>, current: seq<TaskReward>,
                         counts: map<int, nat>, total: nat)
    requires current == FilterValid(Catalogue(switched), seen) && Grown(seen, counts)
    requires switched ==> total >= InitSpins
    requires total == Total(counts)
    ensures Refresh(total, current, counts) == FilterValid(Catalogue(switched || total >= InitSpins), counts)
    ensures total < InitSpins ==> Refresh(total, current, counts) != []
  {
    if total >= InitSpins {
      FilterValidUntracked(StableRewards());
      FilterValidTwice(StableRewards(), map[], counts);
    } else {
      FilterValidTwice(InitialRewards(), seen, counts);
      PromotionalNeverEmpty(counts);
    }
  }
}
