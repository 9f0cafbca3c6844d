// The user rules of the users service: id allocation and referral codes,
// the referral link, wallet binding, account tiers and their one-off
// rewards, and the user-id to telegram-id lookup. The user collection, the
// award log, the caches and the wallet ledger are fields of a `UserStore`.

module Users {
  import opened Common
  import Helper

  /** Account tiers (partner types) the code refers to by name. */
  const Newbie: int := 0
  const Ambassador: int := 1

  /** Ledger category and amount of the referral commission. */
  const ReferralCategory: int := 2000
  const ReferralCommission: real := 5.0
  /** Ledger category of tier rewards. */
  const TierCategory: int := 44

  /** A user record. `parentId` is 0 when the user has no referrer (the
      field is optional and both absence and 0 are falsy). */
  datatype User = User(
    id: int, telegramId: int, parentId: int, referralCode: string,
    tonAddress: Option<string>, partnerType: int, realPartnerType: Option<int>)

  datatype Reward = Reward(assetId: int, assetQuantity: real)

  /** An account tier with the 30-day volume it takes and its rewards. */
  datatype Partner = Partner(id: int, name: string, accumulatedVolume: real, rewards: seq<Reward>)

  datatype AwardKey = AwardKey(userId: int, tierId: int)

  datatype ReferralError = NoUserOrHasParent | InvalidReferralCode | SelfReferral

  datatype WalletError = WalletAlreadyConnected | WalletUserNotFound

  datatype TierError = TierUserMissing | NoTierReached

  datatype TierOutcome = NoPartners | RealTierSet(tierId: int) | TierSet(tierId: int, awarded: bool)

  // ---------------------------------------------------------------------
  // Referral codes

  /** `makeReferralCode`. */
  function ReferralCode(id: nat): (code: string)
    ensures |code| >= 4 && code[..3] == "HOP" && IsDigits(code[3..])
  {
    "HOP" + Decimal(id)
  }

  /** Different ids get different codes. */
  lemma ReferralCodeInjective(a: nat, b: nat)
    ensures ReferralCode(a) == ReferralCode(b) ==> a == b
  {
    if ReferralCode(a) == ReferralCode(b) {
      assert ReferralCode(a)[3..] == Decimal(a);
      assert ReferralCode(b)[3..] == Decimal(b);
      DecimalRoundTrip(a);
      DecimalRoundTrip(b);
    }
  }

  // ---------------------------------------------------------------------
  // Store invariants

  /** Each user is stored under its own id, ids start at 1, and its code
      is the one made from its id. */
  ghost predicate WellKeyed(users: map<int, User>)
  {
    && (forall id :: id in users ==> id >= 1 && users[id].id == id)
    && (forall id :: id in users && id >= 1 ==> users[id].referralCode == ReferralCode(id))
  }

  /** No wallet address is bound to two users. */
  ghost predicate AddressesDistinct(users: map<int, User>)
  {
    forall a, b :: a in users && b in users && a != b && users[a].tonAddress.Some?
                   ==> users[a].tonAddress != users[b].tonAddress
  }

  /** No telegram id belongs to two users (a unique index). */
  ghost predicate TelegramIdsDistinct(users: map<int, User>)
  {
    forall a, b :: a in users && b in users && a != b ==> users[a].telegramId != users[b].telegramId
  }

  /** Nobody is their own referrer, and no two users refer each other. */
  ghost predicate NoShortCycles(users: map<int, User>)
  {
    forall id :: id in users && users[id].parentId != 0 ==>
      users[id].parentId != id
      && (users[id].parentId in users ==> users[users[id].parentId].parentId != id)
  }

  /** The invariant of the user collection. */
  ghost predicate UsersValid(users: map<int, User>)
  {
    WellKeyed(users) && TelegramIdsDistinct(users) && AddressesDistinct(users) && NoShortCycles(users)
  }

  /** Changing a user's tier fields keeps the invariant. */
  lemma RetierKeepsValid(users: map<int, User>, id: int, u: User)
    requires UsersValid(users) && id in users
    requires u == users[id].(partnerType := u.partnerType, realPartnerType := u.realPartnerType)
    ensures UsersValid(users[id := u])
  {
  }

  /** A user the code belongs to, if any. */
  ghost function CodeOwner(users: map<int, User>, code: string): (r: Option<int>)
    ensures r.Some? ==> r.value in users && users[r.value].referralCode == code
    ensures r.None? ==> forall p :: p in users ==> users[p].referralCode != code
  {
    if exists p :: p in users && users[p].referralCode == code then
      var p :| p in users && users[p].referralCode == code; Some(p)
    else None
  }

  /** Codes identify users. */
  lemma CodeOwnerUnique(users: map<int, User>, code: string, p: int)
    requires WellKeyed(users)
    requires p in users && users[p].referralCode == code
    ensures CodeOwner(users, code) == Some(p)
  {
    var q := CodeOwner(users, code).value;
    assert users[p].id == p && users[q].id == q;
    ReferralCodeInjective(p, q);
  }

  // ---------------------------------------------------------------------
  // Referral

  /** The self-referral guard as written: `id === parent.id` compares the
      numeric id with the string-valued `id` of the parent document, which
      never holds, so only the two-cycle test is left. */
  function SelfReferralGuardAsWritten(id: int, parent: User): bool
  {
    parent.parentId == id
  }

  /** The guard as intended: the parent is not the user, and the parent's
      referrer is not the user. */
  function SelfReferralGuard(id: int, parent: User): bool
  {
    id == parent.id || parent.parentId == id
  }

  /** A user without a referrer who enters their own code passes the guard
      as written, and linking them breaks the no-short-cycle invariant. */
  lemma SelfReferralAsWrittenAdmitsSelf()
    ensures var u := User(5, 100, 0, ReferralCode(5), None, Newbie, None);
            var users := map[5 := u];
            && WellKeyed(users) && NoShortCycles(users)
            && CodeOwner(users, ReferralCode(5)) == Some(5)
            && !SelfReferralGuardAsWritten(5, u)
            && SelfReferralGuard(5, u)
            && !NoShortCycles(users[5 := u.(parentId := 5)])
  {
    var u := User(5, 100, 0, ReferralCode(5), None, Newbie, None);
    var users := map[5 := u];
    CodeOwnerUnique(users, ReferralCode(5), 5);
    var linked := users[5 := u.(parentId := 5)];
    assert linked[5].parentId == 5;
  }

  /** The checks of `addReferral`, in order; `Ok(p)` names the referrer. */
  ghost function ReferralCheck(users: map<int, User>, id: int, code: string): Result<int, ReferralError>
  {
    if id !in users || users[id].parentId != 0 then Err(NoUserOrHasParent)
    else match CodeOwner(users, code)
      case None => Err(InvalidReferralCode)
      case Some(p) => if SelfReferralGuard(id, users[p]) then Err(SelfReferral) else Ok(p)
  }

  /** Linking a user to a referrer that passes the corrected guard keeps the
      invariant; the guard is what keeps out self- and two-cycles. */
  lemma LinkKeepsValid(users: map<int, User>, id: int, p: int)
    requires UsersValid(users)
    requires id in users && users[id].parentId == 0
    requires p in users && !SelfReferralGuard(id, users[p])
    ensures UsersValid(users[id := users[id].(parentId := p)])
  {
    var linked := users[id := users[id].(parentId := p)];
    assert users[p].id == p;
    forall x | x in linked && linked[x].parentId != 0
      ensures linked[x].parentId != x
      ensures linked[x].parentId in linked ==> linked[linked[x].parentId].parentId != x
    {
      if x != id {
        var q := users[x].parentId;
        assert linked[x].parentId == q;
        if q == id {
          assert linked[q].parentId == p;
        }
      }
    }
  }

  /** The referral commission credit. */
  function CommissionCredit(parentId: int): Credit
  {
    Credit(parentId, HOPIUM, ReferralCategory, ReferralCommission)
  }

  // ---------------------------------------------------------------------
  // Account tiers

  predicate Reaches(volume: Option<real>, p: Partner)
  {
    volume.Some? && volume.value >= p.accumulatedVolume
  }

  /** How many leading tiers the volume reaches: the selection loop stops at
      the first tier it does not reach. */
  function Reached(partners: seq<Partner>, volume: Option<real>): (n: nat)
    ensures n <= |partners|
    ensures forall j :: 0 <= j < n ==> Reaches(volume, partners[j])
    ensures n < |partners| ==> !Reaches(volume, partners[n])
  {
    if partners == [] || !Reaches(volume, partners[0]) then 0
    else 1 + Reached(partners[1..], volume)
  }

  /** The selection loop of `processUpgradeTier`: the last tier before the
      first one the volume does not reach. */
  method ChooseTier(partners: seq<Partner>, volume: Option<real>) returns (next: Option<Partner>)
    ensures var n := Reached(partners, volume);
            next == if n == 0 then None else Some(partners[n - 1])
  {
    next := None;
    var i := 0;
    while i < |partners|
      invariant 0 <= i <= |partners|
      invariant forall j :: 0 <= j < i ==> Reaches(volume, partners[j])
      invariant next == if i == 0 then None else Some(partners[i - 1])
    {
      if Reaches(volume, partners[i]) {
        next := Some(partners[i]);
        i := i + 1;
      } else {
        break;
      }
    }
  }

  predicate Ascending(partners: seq<Partner>)
  {
    forall i, j :: 0 <= i < j < |partners| ==> partners[i].accumulatedVolume <= partners[j].accumulatedVolume
  }

  /** On a ladder whose thresholds go up, the chosen tier is the highest tier
      the volume reaches. */
  lemma ChosenTierIsHighestReached(partners: seq<Partner>, volume: Option<real>, j: int)
    requires Ascending(partners)
    requires 0 <= j < |partners| && Reaches(volume, partners[j])
    ensures j < Reached(partners, volume)
  {
    var n := Reached(partners, volume);
  }

  /** The tier shown for a user: an AMBASSADOR's tier reached by volume
      when one is recorded, else the stored tier. */
  function DisplayedTier(u: User): int
  {
    if u.partnerType == Ambassador && u.realPartnerType.Some? then u.realPartnerType.value else u.partnerType
  }

  /** The tier update of `processUpgradeTier`: an AMBASSADOR keeps the
      title and records the reached tier beside it; anyone else moves to it. */
  function Retier(u: User, tierId: int): (r: User)
    ensures r.id == u.id && r.parentId == u.parentId && r.tonAddress == u.tonAddress
    ensures r.referralCode == u.referralCode && r.telegramId == u.telegramId
  {
    if u.partnerType == Ambassador then u.(realPartnerType := Some(tierId)) else u.(partnerType := tierId)
  }

  /** After an upgrade to a volume tier (never AMBASSADOR, which the tier
      query excludes) the displayed tier is the chosen tier, and a user is an
      AMBASSADOR afterwards exactly when they were before. */
  lemma RetierShowsChosenTier(u: User, tierId: int)
    requires tierId != Ambassador
    ensures DisplayedTier(Retier(u, tierId)) == tierId
    ensures (Retier(u, tierId).partnerType == Ambassador) <==> (u.partnerType == Ambassador)
  {
  }

  /** Reward `i` was credited (a missing outcome counts as a failure). */
  predicate Credited(creditOk: seq<bool>, i: int)
  {
    0 <= i < |creditOk| && creditOk[i]
  }

  /** The rewards whose credit succeeded, in order. */
  function Awarded(rewards: seq<Reward>, creditOk: seq<bool>): (r: seq<Reward>)
    ensures |r| <= |rewards|
  {
    if rewards == [] then []
    else
      var init := Awarded(rewards[..|rewards| - 1], creditOk);
      if Credited(creditOk, |rewards| - 1) then init + [rewards[|rewards| - 1]] else init
  }

  /** The logged rewards are an in-order sublist of the tier's rewards. */
  lemma {:induction false} AwardedIsSubsequence(rewards: seq<Reward>, creditOk: seq<bool>)
    ensures IsSubsequence(Awarded(rewards, creditOk), rewards)
  {
    if rewards == [] {
      assert Embeds([], rewards, []);
    } else {
      var init := rewards[..|rewards| - 1];
      AwardedIsSubsequence(init, creditOk);
      var idx: seq<nat> :| Embeds(Awarded(init, creditOk), init, idx);
      EmbedsExtend(Awarded(init, creditOk), init, idx, rewards[|rewards| - 1]);
      assert rewards == init + [rewards[|rewards| - 1]];
      if Credited(creditOk, |rewards| - 1) {
        var idx' := idx + [|init|];
        assert Embeds(Awarded(rewards, creditOk), rewards, idx');
      } else {
        assert Embeds(Awarded(rewards, creditOk), rewards, idx);
      }
    }
  }

  /** Every reward is logged when every credit succeeds. */
  lemma {:induction false} AllCreditedAwardsAll(rewards: seq<Reward>, creditOk: seq<bool>)
    requires |creditOk| >= |rewards|
    requires forall i :: 0 <= i < |rewards| ==> creditOk[i]
    ensures Awarded(rewards, creditOk) == rewards
  {
    if rewards != [] {
      AllCreditedAwardsAll(rewards[..|rewards| - 1], creditOk);
      assert rewards[..|rewards| - 1] + [rewards[|rewards| - 1]] == rewards;
    }
  }

  /** The ledger credits for a list of tier rewards. */
  function TierCredits(userId: int, rewards: seq<Reward>): (r: seq<Credit>)
    ensures |r| == |rewards|
    ensures forall i :: 0 <= i < |r| ==>
              r[i] == Credit(userId, rewards[i].assetId, TierCategory, rewards[i].assetQuantity)
  {
    if rewards == [] then []
    else TierCredits(userId, rewards[..|rewards| - 1])
         + [Credit(userId, rewards[|rewards| - 1].assetId, TierCategory, rewards[|rewards| - 1].assetQuantity)]
  }

  /** The credit loop of `awardTierReward`. */
  method CreditRewards(userId: int, rewards: seq<Reward>, creditOk: seq<bool>)
    returns (credits: seq<Credit>, awarded: seq<Reward>)
    ensures awarded == Awarded(rewards, creditOk)
    ensures credits == TierCredits(userId, awarded)
  {
    credits, awarded := [], [];
    for i := 0 to |rewards|
      invariant awarded == Awarded(rewards[..i], creditOk)
      invariant credits == TierCredits(userId, awarded)
    {
      assert rewards[..i + 1][..i] == rewards[..i];
      if Credited(creditOk, i) {
        credits := credits + [Credit(userId, rewards[i].assetId, TierCategory, rewards[i].assetQuantity)];
        awarded := awarded + [rewards[i]];
        assert awarded[..|awarded| - 1] == Awarded(rewards[..i], creditOk);
      }
    }
    assert rewards[..|rewards|] == rewards;
  }

  // ---------------------------------------------------------------------
  // User-id to telegram-id lookup

  /** A cache entry the code uses (a cached 0 is falsy and counts as a miss). */
  predicate Cached(cache: map<int, int>, id: int)
  {
    id in cache && cache[id] != 0
  }

  /** The requested ids with a usable cache entry, and their cached values. */
  method CacheHits(ids: seq<int>, cache: map<int, int>) returns (hits: map<int, int>)
    ensures forall x :: x in hits <==> x in ids && Cached(cache, x)
    ensures forall x :: x in hits ==> Cached(cache, x) && hits[x] == cache[x]
  {
    hits := map[];
    for i := 0 to |ids|
      invariant forall x :: x in hits <==> x in ids[..i] && Cached(cache, x)
      invariant forall x :: x in hits ==> hits[x] == cache[x]
    {
      assert ids[..i + 1] == ids[..i] + [ids[i]];
      if Cached(cache, ids[i]) {
        hits := hits[ids[i] := cache[ids[i]]];
      }
    }
    assert ids[..|ids|] == ids;
  }

  /** The requested ids the cache did not answer, in request order. */
  method CacheMisses(ids: seq<int>, hits: map<int, int>) returns (misses: seq<int>)
    ensures forall x :: x in misses <==> x in ids && x !in hits
  {
    misses := [];
    for i := 0 to |ids|
      invariant forall x :: x in misses <==> x in ids[..i] && x !in hits
    {
      assert ids[..i + 1] == ids[..i] + [ids[i]];
      if ids[i] !in hits {
        misses := misses + [ids[i]];
      }
    }
    assert ids[..|ids|] == ids;
  }

  /** Reads the telegram id of each stored user among `misses` into both the
      answer and the cache. */
  method FetchFromStore(misses: seq<int>, users: map<int, User>, results: map<int, int>, cache: map<int, int>)
    returns (results': map<int, int>, cache': map<int, int>)
    ensures forall x :: x in results' <==> x in results || (x in misses && x in users)
    ensures forall x :: x in results' ==>
              results'[x] == if x in misses && x in users then users[x].telegramId else results[x]
    ensures forall x :: x in cache' <==> x in cache || (x in misses && x in users)
    ensures forall x :: x in cache' ==>
              cache'[x] == if x in misses && x in users then users[x].telegramId else cache[x]
  {
    results', cache' := results, cache;
    for i := 0 to |misses|
      invariant forall x :: x in results' <==> x in results || (x in misses[..i] && x in users)
      invariant forall x :: x in results' ==>
                  results'[x] == if x in misses[..i] && x in users then users[x].telegramId else results[x]
      invariant forall x :: x in cache' <==> x in cache || (x in misses[..i] && x in users)
      invariant forall x :: x in cache' ==>
                  cache'[x] == if x in misses[..i] && x in users then users[x].telegramId else cache[x]
    {
      assert misses[..i + 1] == misses[..i] + [misses[i]];
      var x := misses[i];
      if x in users {
        results' := results'[x := users[x].telegramId];
        cache' := cache'[x := users[x].telegramId];
      }
    }
    assert misses[..|misses|] == misses;
  }

  /** The lookup of `mapUserTelegramIds` on the cache and the user store:
      the answer holds exactly the requested ids that are cached or stored,
      a cache hit wins over the store, and each id read from the store is
      cached. */
  method ResolveTelegramIds(ids: seq<int>, cache: map<int, int>, users: map<int, User>)
    returns (results: map<int, int>, newCache: map<int, int>)
    ensures forall x :: x in results <==> x in ids && (Cached(cache, x) || x in users)
    ensures forall x :: x in results ==>
              results[x] == if Cached(cache, x) then cache[x] else users[x].telegramId
    ensures forall x :: x in newCache <==> x in cache || (x in ids && !Cached(cache, x) && x in users)
    ensures forall x :: x in newCache ==>
              newCache[x] == if x in ids && !Cached(cache, x) && x in users then users[x].telegramId else cache[x]
  {
    var unique := Helper.Uniq(ids);
    results := CacheHits(unique, cache);
    var misses := CacheMisses(unique, results);
    newCache := cache;
    if |misses| == 0 {
      return;
    }
    results, newCache := FetchFromStore(misses, users, results, cache);
  }

  // ---------------------------------------------------------------------
  // Loops over the user collection

  /** `findOne` with a filter: some user satisfying `p`, or none. */
  method FindUser(users: map<int, User>, p: User -> bool) returns (r: Option<int>)
    ensures r.Some? ==> r.value in users && p(users[r.value])
    ensures r.None? ==> forall id :: id in users ==> !p(users[id])
  {
    var rest := users.Keys;
    while rest != {}
      invariant rest <= users.Keys
      invariant forall id :: id in users && id !in rest ==> !p(users[id])
      decreases rest
    {
      HasElement(rest);
      var id :| id in rest;
      if p(users[id]) {
        return Some(id);
      }
      rest := rest - {id};
    }
    return None;
  }

  /** `getLastestId`: the largest stored id, or 0 for an empty collection. */
  method LatestId(users: map<int, User>) returns (m: int)
    ensures users == map[] ==> m == 0
    ensures users != map[] ==> m in users && forall id :: id in users ==> id <= m
  {
    m := 0;
    var rest := users.Keys;
    ghost var seen: set<int> := {};
    var first := true;
    while rest != {}
      invariant rest + seen == users.Keys && rest !! seen
      invariant first <==> seen == {}
      invariant seen == {} ==> m == 0
      invariant seen != {} ==> m in seen && forall id :: id in seen ==> id <= m
      decreases rest
    {
      HasElement(rest);
      var id :| id in rest;
      if first || id > m {
        m := id;
      }
      rest := rest - {id};
      seen := seen + {id};
      first := false;
    }
    if users != map[] {
      assert users.Keys != {} by {
        var k :| k in users;
      }
    }
  }

  // ---------------------------------------------------------------------
  // The store

  class UserStore {
    var users: map<int, User>
    /** The `last_user_id` cache entry; 0 when absent. */
    var lastIdCache: int
    /** The `user:map_id:<id>` cache entries. */
    var idCache: map<int, int>
    /** The AWARD entries of the user-partner log. */
    var awardLog: map<AwardKey, seq<Reward>>
    /** Credits sent to the wallet ledger, oldest first. */
    var ledger: seq<Credit>

    ghost predicate Valid()
      reads this
    {
      && UsersValid(users)
      && lastIdCache >= 0
      && (lastIdCache != 0 ==> forall id :: id in users ==> id <= lastIdCache)
    }

    constructor ()
      ensures Valid()
      ensures users == map[] && lastIdCache == 0 && idCache == map[] && awardLog == map[] && ledger == []
    {
      users := map[];
      lastIdCache := 0;
      idCache := map[];
      awardLog := map[];
      ledger := [];
    }

    /** `getIncrementedId`: one more than the cached last id, or than the
        largest stored id when nothing is cached; the new id is cached. */
    method GetIncrementedId() returns (newId: int)
      requires Valid()
      modifies this
      ensures Valid()
      ensures newId >= 1 && newId !in users
      ensures forall id :: id in users ==> id < newId
      ensures old(lastIdCache) != 0 ==> newId == old(lastIdCache) + 1
      ensures old(lastIdCache) == 0 ==> (users == map[] && newId == 1) || (newId - 1 in users)
      ensures lastIdCache == newId
      ensures users == old(users) && idCache == old(idCache) && awardLog == old(awardLog) && ledger == old(ledger)
    {
      var lastId := lastIdCache;
      if lastId == 0 {
        lastId := LatestId(users);
        if users != map[] {
          assert users[lastId].id == lastId;
        }
      }
      newId := lastId + 1;
      lastIdCache := newId;
    }

    /** The new-user branch of `updateOrCreateUser`: a fresh id, the code
        made from it, no referrer, no wallet, tier NEWBIE. */
    method CreateUser(telegramId: int) returns (id: int)
      requires Valid()
      requires forall o :: o in users ==> users[o].telegramId != telegramId
      modifies this
      ensures Valid()
      ensures id >= 1 && id !in old(users)
      ensures users == old(users)[id := User(id, telegramId, 0, ReferralCode(id), None, Newbie, None)]
      ensures idCache == old(idCache) && awardLog == old(awardLog) && ledger == old(ledger)
      ensures lastIdCache == id
    {
      id := GetIncrementedId();
      users := users[id := User(id, telegramId, 0, ReferralCode(id), None, Newbie, None)];
    }

    /** `updateOrCreateUser`: a known telegram id returns its user (the
        profile fields it refreshes are not modelled); an unknown one creates
        the user and awards the NEWBIE tier when that tier exists
        (`newbieRewards` is its reward list). */
    method UpdateOrCreateUser(telegramId: int, newbieRewards: Option<seq<Reward>>, creditOk: seq<bool>)
      returns (id: int, isNew: bool)
      requires Valid()
      modifies this
      ensures Valid()
      ensures (exists o :: o in old(users) && old(users)[o].telegramId == telegramId) <==> !isNew
      ensures !isNew ==> id in users && users[id].telegramId == telegramId
                         && users == old(users) && lastIdCache == old(lastIdCache)
                         && awardLog == old(awardLog) && ledger == old(ledger)
      ensures isNew ==>
                && id >= 1 && id !in old(users)
                && users == old(users)[id := User(id, telegramId, 0, ReferralCode(id), None, Newbie, None)]
                && (newbieRewards.None? ==> awardLog == old(awardLog) && ledger == old(ledger))
                && (newbieRewards.Some? && AwardKey(id, Newbie) !in old(awardLog) ==>
                      && awardLog == old(awardLog)[AwardKey(id, Newbie) := Awarded(newbieRewards.value, creditOk)]
                      && ledger == old(ledger) + TierCredits(id, Awarded(newbieRewards.value, creditOk)))
      ensures idCache == old(idCache)
    {
      var found := FindUser(users, (u: User) => u.telegramId == telegramId);
      if found.Some? {
        return found.value, false;
      }
      id := CreateUser(telegramId);
      isNew := true;
      if newbieRewards.Some? {
        var _ := AwardTierReward(id, Newbie, newbieRewards.value, creditOk);
      }
    }

    /** `addReferral`, with the corrected self-referral guard. `creditOk` is
        the outcome of the commission credit, whose failure is logged and
        does not stop the link. */
    method AddReferral(id: int, code: string, creditOk: bool) returns (r: Result<User, ReferralError>)
      requires Valid()
      modifies this
      ensures Valid()
      ensures var check := ReferralCheck(old(users), id, code);
              && (check.Err? ==> r == Err(check.error) && users == old(users) && ledger == old(ledger))
              && (check.Ok? ==>
                    && users == old(users)[id := old(users)[id].(parentId := check.value)]
                    && r == Ok(users[id])
                    && ledger == old(ledger) + (if creditOk then [CommissionCredit(check.value)] else []))
      ensures lastIdCache == old(lastIdCache) && idCache == old(idCache) && awardLog == old(awardLog)
    {
      if id !in users || users[id].parentId != 0 {
        return Err(NoUserOrHasParent);
      }
      var found := FindUser(users, (u: User) => u.referralCode == code);
      if found.None? {
        return Err(InvalidReferralCode);
      }
      var p := found.value;
      CodeOwnerUnique(users, code, p);
      if SelfReferralGuard(id, users[p]) {
        return Err(SelfReferral);
      }
      if creditOk {
        ledger := ledger + [CommissionCredit(p)];
      }
      LinkKeepsValid(users, id, p);
      users := users[id := users[id].(parentId := p)];
      r := Ok(users[id]);
    }

    /** `connectTonWallet`. */
    method ConnectTonWallet(userId: int, address: string) returns (r: Result<User, WalletError>)
      requires Valid()
      modifies this
      ensures Valid()
      ensures var holderElsewhere := exists o :: o in old(users) && o != userId && old(users)[o].tonAddress == Some(address);
              && (holderElsewhere ==> r == Err(WalletAlreadyConnected) && users == old(users))
              && (!holderElsewhere && userId !in old(users) ==> r == Err(WalletUserNotFound) && users == old(users))
              && (!holderElsewhere && userId in old(users) ==>
                    var current := old(users)[userId].tonAddress;
                    && (Truthy(current) && current != Some(address) ==>
                          r == Err(WalletAlreadyConnected) && users == old(users))
                    && (!Truthy(current) ==>
                          users == old(users)[userId := old(users)[userId].(tonAddress := Some(address))]
                          && r == Ok(users[userId]))
                    && (current == Some(address) ==> users == old(users) && r == Ok(users[userId])))
      ensures lastIdCache == old(lastIdCache) && idCache == old(idCache)
      ensures awardLog == old(awardLog) && ledger == old(ledger)
    {
      var holder := FindUser(users, (u: User) => u.tonAddress == Some(address));
      if holder.Some? && holder.value != userId {
        return Err(WalletAlreadyConnected);
      }
      if userId !in users {
        return Err(WalletUserNotFound);
      }
      var user := users[userId];
      if Truthy(user.tonAddress) && user.tonAddress != Some(address) {
        return Err(WalletAlreadyConnected);
      } else if !Truthy(user.tonAddress) {
        users := users[userId := user.(tonAddress := Some(address))];
      }
      r := Ok(users[userId]);
    }

    /** `awardTierReward`: at most once per user and tier; the log entry keeps
        the rewards whose credit succeeded. */
    method AwardTierReward(userId: int, tierId: int, rewards: seq<Reward>, creditOk: seq<bool>) returns (ok: bool)
      modifies this
      ensures AwardKey(userId, tierId) in old(awardLog) ==>
                !ok && awardLog == old(awardLog) && ledger == old(ledger)
      ensures AwardKey(userId, tierId) !in old(awardLog) ==>
                && ok
                && awardLog == old(awardLog)[AwardKey(userId, tierId) := Awarded(rewards, creditOk)]
                && ledger == old(ledger) + TierCredits(userId, Awarded(rewards, creditOk))
      ensures users == old(users) && lastIdCache == old(lastIdCache) && idCache == old(idCache)
    {
      var key := AwardKey(userId, tierId);
      if key in awardLog {
        return false;
      }
      var credits, awarded := CreditRewards(userId, rewards, creditOk);
      ledger := ledger + credits;
      awardLog := awardLog[key := awarded];
      ok := true;
    }

    /** `processUpgradeTier`, given the tiers other than AMBASSADOR in
        ascending id order, the user's 30-day volume (absent when there is
        no profile entry) and the outcomes of the reward credits. A missing
        user, and a volume below the first tier, make the source fail on a
        missing field; both are errors here. */
    method ProcessUpgradeTier(userId: int, partners: seq<Partner>, volume: Option<real>, creditOk: seq<bool>)
      returns (r: Result<TierOutcome, TierError>)
      requires Valid()
      modifies this
      ensures Valid()
      ensures userId !in old(users) ==> r == Err(TierUserMissing) && users == old(users)
      ensures userId in old(users) && partners == [] ==> r == Ok(NoPartners) && users == old(users)
      ensures userId in old(users) && partners != [] && Reached(partners, volume) == 0 ==>
                r == Err(NoTierReached) && users == old(users)
      ensures userId in old(users) && Reached(partners, volume) > 0 ==>
                var next := partners[Reached(partners, volume) - 1];
                var u := old(users)[userId];
                && users == old(users)[userId := Retier(u, next.id)]
                && (u.partnerType == Ambassador ==>
                      r == Ok(RealTierSet(next.id)) && ledger == old(ledger) && awardLog == old(awardLog))
                && (u.partnerType != Ambassador ==>
                      r.Ok? && r.value.TierSet? && r.value.tierId == next.id
                      && (r.value.awarded <==> AwardKey(userId, next.id) !in old(awardLog))
                      && (r.value.awarded ==>
                            && awardLog == old(awardLog)[AwardKey(userId, next.id) := Awarded(next.rewards, creditOk)]
                            && ledger == old(ledger) + TierCredits(userId, Awarded(next.rewards, creditOk)))
                      && (!r.value.awarded ==> awardLog == old(awardLog) && ledger == old(ledger)))
      ensures r.Err? ==> ledger == old(ledger) && awardLog == old(awardLog)
      ensures lastIdCache == old(lastIdCache) && idCache == old(idCache)
    {
      if userId !in users {
        return Err(TierUserMissing);
      }
      var user := users[userId];
      var currentTier := user.partnerType;
      if |partners| == 0 {
        return Ok(NoPartners);
      }
      var next := ChooseTier(partners, volume);
      if next.None? {
        return Err(NoTierReached);
      }
      var tier := next.value;
      if currentTier == Ambassador {
        RetierKeepsValid(users, userId, user.(realPartnerType := Some(tier.id)));
        users := users[userId := user.(realPartnerType := Some(tier.id))];
        return Ok(RealTierSet(tier.id));
      }
      RetierKeepsValid(users, userId, user.(partnerType := tier.id));
      users := users[userId := user.(partnerType := tier.id)];
      var success := AwardTierReward(userId, tier.id, tier.rewards, creditOk);
      r := Ok(TierSet(tier.id, success));
    }

    /** `mapUserTelegramIds`. */
    method MapUserTelegramIds(ids: seq<int>) returns (results: map<int, int>)
      modifies this
      ensures forall x :: x in results <==> x in ids && (Cached(old(idCache), x) || x in users)
      ensures forall x :: x in results ==>
                results[x] == if Cached(old(idCache), x) then old(idCache)[x] else users[x].telegramId
      ensures forall x :: x in idCache <==> x in old(idCache) || (x in ids && !Cached(old(idCache), x) && x in users)
      ensures forall x :: x in idCache ==>
                idCache[x] == if x in ids && !Cached(old(idCache), x) && x in users then users[x].telegramId
                              else old(idCache)[x]
      ensures users == old(users) && lastIdCache == old(lastIdCache)
      ensures awardLog == old(awardLog) && ledger == old(ledger)
    {
      results, idCache := ResolveTelegramIds(ids, idCache, users);
    }
  }

  /** JavaScript truthiness of an optional string. */
  predicate Truthy(s: Option<string>)
  {
    s.Some? && s.value != ""
  }
}
