// Chat-bot notifications: the follower and referral digests with their
// one / many templates, the grouping of recent referrals by referrer, the
// SL/TP edit notice, the notices to the copiers of a called order, and the
// tier-reward notice.

module Notification {
  import opened Common
  import Helper
  import Users

  /** The notification templates (`NOTIFICATION_NAME`). */
  datatype Template =
    | NewFollower | NewFollowers
    | NewReferral | NewReferrals
    | FuturesEditTpSl
    | FutureOpenedToCopier | FutureLiquidateToCopier | FutureHitSlToCopier
    | FutureHitTpToCopier | FutureCloseToCopier
    | RankChanged

  /** One photo URL, or the list of them a digest carries. */
  datatype Photo = OnePhoto(url: Option<string>) | PhotoList(urls: seq<Option<string>>)

  /** The context a template is rendered with (timestamps and the copier's
      own order are not modelled). A missing caller name is `None`. */
  datatype Context =
    | FollowerCtx(userId: int, username: string, total: int, photo: Photo)
    | ReferralCtx(username: string, total: int, photo: Photo)
    | EditCtx(callerName: Option<string>, sidePostOrder: string)
    | CopierCtx(callerName: Option<string>, side: string, sidePostOrder: string, symbol: string,
                leverage: real, volume: real, pnl: real, description: string, postId: int, callerId: int)
    | RankCtx(tierName: string, amountCUsdt: real, amountLUsdt: real, userType: int)

  /** One `sendChatBotNotify` call. */
  datatype Notice = Notice(userId: int, template: Template, context: Context)

  /** The user fields a notice reads; `username`, `lastName` and `photoUrl`
      may be missing. */
  datatype Profile = Profile(id: int, username: Option<string>, firstName: string,
                             lastName: Option<string>, photoUrl: Option<string>)

  /** `${x}` of an optional string. */
  function Text(s: Option<string>): string
  {
    match s
    case Some(t) => t
    case None => "undefined"
  }

  /** `truncateName` of an optional string: missing gives "". */
  function TruncateOptional(s: Option<string>): string
  {
    match s
    case Some(t) => Helper.TruncateName(t, Helper.DefaultNameLength)
    case None => ""
  }

  /** The name a follower or referral digest shows: the truncated username
      unless it is "", then the truncated "first last"; a missing username
      is not "" and truncates to "". */
  function DisplayName(p: Profile): (name: string)
    ensures |name| <= Helper.DefaultNameLength
    ensures p.username == Some("") ==>
              name == Helper.TruncateName(p.firstName + " " + Text(p.lastName), Helper.DefaultNameLength)
    ensures p.username.Some? && p.username.value != "" ==>
              name == Helper.TruncateName(p.username.value, Helper.DefaultNameLength)
    ensures p.username.None? ==> name == ""
  {
    if p.username != Some("") then TruncateOptional(p.username)
    else Helper.TruncateName(p.firstName + " " + Text(p.lastName), Helper.DefaultNameLength)
  }

  /** The caller name of the order notices: the username as it is unless it
      is "", then the truncated first and last names. */
  function CallerName(p: Profile): (name: Option<string>)
    ensures p.username != Some("") ==> name == p.username
    ensures p.username == Some("") ==>
              name == Some(Helper.TruncateName(p.firstName, Helper.DefaultNameLength) + " " + TruncateOptional(p.lastName))
  {
    if p.username != Some("") then p.username
    else Some(Helper.TruncateName(p.firstName, Helper.DefaultNameLength) + " " + TruncateOptional(p.lastName))
  }

  // ---------------------------------------------------------------------
  // Follower and referral digests

  /** A follower or referrer as a digest lists it. */
  datatype Info = Info(id: int, username: string, photoUrl: Option<string>)

  function InfoOf(p: Profile): Info
  {
    Info(p.id, DisplayName(p), p.photoUrl)
  }

  /** The photos of a digest's people, in order. */
  function Photos(infos: seq<Info>): (urls: seq<Option<string>>)
    ensures |urls| == |infos|
    ensures forall i :: 0 <= i < |infos| ==> urls[i] == infos[i].photoUrl
  {
    if infos == [] then [] else Photos(infos[..|infos| - 1]) + [infos[|infos| - 1].photoUrl]
  }

  /** `sendFollowerNotification`: nothing for nobody; NEW_FOLLOWER with total
      1 for one follower; NEW_FOLLOWERS naming the first follower, with
      total one less than the followers and all their photos, for several. */
  function FollowerNotice(userId: int, infos: seq<Info>): (r: Option<Notice>)
    ensures r.None? <==> infos == []
    ensures |infos| == 1 ==>
              r == Some(Notice(userId, NewFollower, FollowerCtx(infos[0].id, infos[0].username, 1, OnePhoto(infos[0].photoUrl))))
    ensures |infos| > 1 ==>
              r == Some(Notice(userId, NewFollowers, FollowerCtx(infos[0].id, infos[0].username, |infos| - 1, PhotoList(Photos(infos)))))
  {
    if infos == [] then None
    else if |infos| == 1 then
      Some(Notice(userId, NewFollower, FollowerCtx(infos[0].id, infos[0].username, 1, OnePhoto(infos[0].photoUrl))))
    else
      Some(Notice(userId, NewFollowers, FollowerCtx(infos[0].id, infos[0].username, |infos| - 1, PhotoList(Photos(infos)))))
  }

  /** `sendReferralNotification`: the same rule with NEW_REFFERAL and
      NEW_REFFERALS. */
  function ReferralNotice(userId: int, infos: seq<Info>): (r: Option<Notice>)
    ensures r.None? <==> infos == []
    ensures |infos| == 1 ==>
              r == Some(Notice(userId, NewReferral, ReferralCtx(infos[0].username, 1, OnePhoto(infos[0].photoUrl))))
    ensures |infos| > 1 ==>
              r == Some(Notice(userId, NewReferrals, ReferralCtx(infos[0].username, |infos| - 1, PhotoList(Photos(infos)))))
  {
    if infos == [] then None
    else if |infos| == 1 then
      Some(Notice(userId, NewReferral, ReferralCtx(infos[0].username, 1, OnePhoto(infos[0].photoUrl))))
    else
      Some(Notice(userId, NewReferrals, ReferralCtx(infos[0].username, |infos| - 1, PhotoList(Photos(infos)))))
  }

  /** A digest's total and its photos account for everyone in it: the
      photo list of a many-digest has one entry per person. */
  lemma DigestAccountsForEveryone(userId: int, infos: seq<Info>)
    requires |infos| > 1
    ensures var n := FollowerNotice(userId, infos).value.context;
            n.photo.PhotoList? && |n.photo.urls| == n.total + 1 == |infos|
    ensures var n := ReferralNotice(userId, infos).value.context;
            n.photo.PhotoList? && |n.photo.urls| == n.total + 1 == |infos|
  {
  }

  /** A follower digest and a referral digest over the same people differ
      only in template and in the follower id. */
  lemma DigestsAgree(userId: int, infos: seq<Info>)
    ensures FollowerNotice(userId, infos).None? <==> ReferralNotice(userId, infos).None?
    ensures FollowerNotice(userId, infos).Some? ==>
              var f := FollowerNotice(userId, infos).value;
              var r := ReferralNotice(userId, infos).value;
              && f.userId == r.userId
              && f.context.username == r.context.username
              && f.context.total == r.context.total
              && f.context.photo == r.context.photo
  {
  }

  /** A notice as a list of the calls it makes. */
  function Calls(n: Option<Notice>): seq<Notice>
  {
    match n
    case Some(x) => [x]
    case None => []
  }

  /** The digest entries of the followers that still exist, in follow
      order. */
  function FollowerInfos(followerIds: seq<int>, profiles: map<int, Profile>): (infos: seq<Info>)
    ensures |infos| <= |followerIds|
    ensures forall x :: x in infos ==> x.id in followerIds
  {
    if followerIds == [] then []
    else
      var rest := FollowerInfos(followerIds[..|followerIds| - 1], profiles);
      var id := followerIds[|followerIds| - 1];
      if id in profiles && profiles[id].id == id then rest + [InfoOf(profiles[id])] else rest
  }

  /** A follower that no longer exists is left out; the others are all
      listed. */
  lemma {:induction false} FollowerInfosCount(followerIds: seq<int>, profiles: map<int, Profile>)
    requires forall id :: id in profiles ==> profiles[id].id == id
    ensures |FollowerInfos(followerIds, profiles)| == CountIf(followerIds, (id: int) => id in profiles)
  {
    if followerIds != [] {
      FollowerInfosCount(followerIds[..|followerIds| - 1], profiles);
    }
  }

  /** The follows of one followed user in the recent window. */
  datatype FollowGroup = FollowGroup(followingId: int, followerIds: seq<int>)

  /** The calls `processFollowerNotifications` makes. */
  function FollowerNotices(groups: seq<FollowGroup>, profiles: map<int, Profile>): seq<Notice>
  {
    Flatten(FollowerDigests(groups, profiles))
  }

  /** The outer loop of `processFollowerNotifications`: the digest of each
      followed user that still has followers, in order. */
  method CollectFollowerNotices(groups: seq<FollowGroup>, profiles: map<int, Profile>) returns (notices: seq<Notice>)
    ensures notices == FollowerNotices(groups, profiles)
  {
    var digests := FollowerDigests(groups, profiles);
    notices := [];
    for k := 0 to |groups|
      invariant notices == Flatten(digests[..k])
    {
      FlattenStep(digests, k);
      var infos := CollectFollowers(groups[k].followerIds, profiles);
      if |infos| > 0 {
        notices := notices + Calls(FollowerNotice(groups[k].followingId, infos));
      }
    }
    assert digests[..|groups|] == digests;
  }

  /** The digest, if any, of each followed user. */
  function FollowerDigests(groups: seq<FollowGroup>, profiles: map<int, Profile>): (r: seq<Option<Notice>>)
    ensures |r| == |groups|
    ensures forall i :: 0 <= i < |groups| ==>
              r[i] == FollowerNotice(groups[i].followingId, FollowerInfos(groups[i].followerIds, profiles))
  {
    seq(|groups|, i requires 0 <= i < |groups| => FollowerNotice(groups[i].followingId, FollowerInfos(groups[i].followerIds, profiles)))
  }

  /** The inner loop of `processFollowerNotifications`. */
  method CollectFollowers(followerIds: seq<int>, profiles: map<int, Profile>) returns (infos: seq<Info>)
    ensures infos == FollowerInfos(followerIds, profiles)
  {
    infos := [];
    for i := 0 to |followerIds|
      invariant infos == FollowerInfos(followerIds[..i], profiles)
    {
      assert followerIds[..i + 1][..i] == followerIds[..i];
      var id := followerIds[i];
      if id in profiles && profiles[id].id == id {
        infos := infos + [InfoOf(profiles[id])];
      }
    }
    assert followerIds[..|followerIds|] == followerIds;
  }

  /** A recently referred user and the id of the user who referred them. */
  datatype Referral = Referral(profile: Profile, parentId: int)

  /** The referrals of one referrer, in their original order. */
  function OfParent(recent: seq<Referral>, parentId: int): (r: seq<Referral>)
    ensures forall x :: x in r <==> x in recent && x.parentId == parentId
  {
    if recent == [] then []
    else
      var rest := OfParent(recent[..|recent| - 1], parentId);
      var last := recent[|recent| - 1];
      assert recent == recent[..|recent| - 1] + [last];
      if last.parentId == parentId then rest + [last] else rest
  }

  /** A referrer with no referral in `recent` has an empty group. */
  lemma {:induction false} OfParentNone(recent: seq<Referral>, parentId: int)
    requires forall x :: x in recent ==> x.parentId != parentId
    ensures OfParent(recent, parentId) == []
  {
    if recent != [] {
      assert forall x :: x in recent[..|recent| - 1] ==> x in recent;
      OfParentNone(recent[..|recent| - 1], parentId);
      assert recent[|recent| - 1] in recent;
    }
  }

  /** The loop that builds `referralsByParent`: one group per referrer,
      each keeping the order the referrals came in. */
  method GroupByParent(recent: seq<Referral>) returns (groups: map<int, seq<Referral>>)
    ensures forall p :: p in groups <==> exists x :: x in recent && x.parentId == p
    ensures forall p :: p in groups ==> groups[p] == OfParent(recent, p)
  {
    groups := map[];
    for i := 0 to |recent|
      invariant forall p :: p in groups <==> exists x :: x in recent[..i] && x.parentId == p
      invariant forall p :: p in groups ==> groups[p] == OfParent(recent[..i], p)
    {
      var r := recent[i];
      assert recent[..i + 1][..i] == recent[..i];
      assert recent[..i + 1] == recent[..i] + [r];
      if r.parentId !in groups {
        OfParentNone(recent[..i], r.parentId);
        groups := groups[r.parentId := []];
      }
      groups := groups[r.parentId := groups[r.parentId] + [r]];
    }
    assert recent[..|recent|] == recent;
  }

  /** Strictly ascending ids. */
  predicate Ascending(s: seq<int>)
  {
    forall i, j :: 0 <= i < j < |s| ==> s[i] < s[j]
  }

  /** Inserts `x` into ascending ids. */
  function InsertAscending(s: seq<int>, x: int): (r: seq<int>)
    requires Ascending(s)
    ensures Ascending(r)
    ensures forall y :: y in r <==> y in s || y == x
  {
    if s == [] then [x]
    else if x < s[0] then [x] + s
    else if x == s[0] then s
    else
      var rest := InsertAscending(s[1..], x);
      assert forall y :: y in s[1..] ==> s[0] < y;
      assert forall j :: 0 <= j < |rest| ==> s[0] < rest[j] by {
        forall j | 0 <= j < |rest| ensures s[0] < rest[j] {
          assert rest[j] in rest;
        }
      }
      [s[0]] + rest
  }

  /** The referrers, in the ascending order `Object.entries` visits the
      integer keys of `referralsByParent`. */
  function Parents(recent: seq<Referral>): (ps: seq<int>)
    ensures Ascending(ps)
    ensures forall p :: p in ps <==> exists x :: x in recent && x.parentId == p
  {
    if recent == [] then []
    else
      var last := recent[|recent| - 1];
      assert recent == recent[..|recent| - 1] + [last];
      InsertAscending(Parents(recent[..|recent| - 1]), last.parentId)
  }

  /** The digest entries of one referrer's group. */
  function ReferrerInfos(group: seq<Referral>): (infos: seq<Info>)
    ensures |infos| == |group|
    ensures forall i :: 0 <= i < |group| ==> infos[i] == InfoOf(group[i].profile)
  {
    if group == [] then [] else ReferrerInfos(group[..|group| - 1]) + [InfoOf(group[|group| - 1].profile)]
  }

  /** The digest of referrer `p`, if it has referrals in `recent`. */
  function Digest(p: int, recent: seq<Referral>): Option<Notice>
  {
    ReferralNotice(p, ReferrerInfos(OfParent(recent, p)))
  }

  /** The calls a list of optional notices makes, in order. */
  function Flatten(opts: seq<Option<Notice>>): seq<Notice>
  {
    if opts == [] then [] else Flatten(opts[..|opts| - 1]) + Calls(opts[|opts| - 1])
  }

  /** Flattening one more optional notice appends its call. */
  lemma FlattenStep(opts: seq<Option<Notice>>, k: nat)
    requires k < |opts|
    ensures Flatten(opts[..k + 1]) == Flatten(opts[..k]) + Calls(opts[k])
  {
    assert opts[..k + 1][..k] == opts[..k];
  }

  /** When every notice is present, they are all sent, in order. */
  lemma {:induction false} FlattenAllPresent(opts: seq<Option<Notice>>)
    requires forall i :: 0 <= i < |opts| ==> opts[i].Some?
    ensures |Flatten(opts)| == |opts|
    ensures forall i :: 0 <= i < |opts| ==> Flatten(opts)[i] == opts[i].value
  {
    if opts != [] {
      var n := |opts| - 1;
      assert forall i :: 0 <= i < n ==> opts[..n][i] == opts[i];
      FlattenAllPresent(opts[..n]);
    }
  }

  /** The digests of the referrers `ps`, in order. */
  function Digests(ps: seq<int>, recent: seq<Referral>): (r: seq<Option<Notice>>)
    ensures |r| == |ps|
    ensures forall i :: 0 <= i < |ps| ==> r[i] == Digest(ps[i], recent)
  {
    seq(|ps|, i requires 0 <= i < |ps| => Digest(ps[i], recent))
  }

  /** The calls for the referrers `ps`. */
  function ReferralNotices(ps: seq<int>, recent: seq<Referral>): seq<Notice>
  {
    Flatten(Digests(ps, recent))
  }

  /** The total a digest of `n` people shows. */
  function DigestTotal(n: nat): int
  {
    if n == 1 then 1 else n - 1
  }

  /** The digest of a non-empty group goes to its referrer and counts it. */
  lemma ReferralDigestOf(p: int, recent: seq<Referral>)
    requires OfParent(recent, p) != []
    ensures Digest(p, recent).Some?
    ensures var n := Digest(p, recent).value;
            n.userId == p && n.context.ReferralCtx? && n.context.total == DigestTotal(|OfParent(recent, p)|)
  {
  }

  /** Every referrer gets exactly one digest, in ascending order of id, and
      its total counts the group. */
  lemma OneDigestPerReferrer(ps: seq<int>, recent: seq<Referral>)
    requires forall p :: p in ps ==> OfParent(recent, p) != []
    ensures |ReferralNotices(ps, recent)| == |ps|
    ensures forall i :: 0 <= i < |ps| ==>
              && ReferralNotices(ps, recent)[i].userId == ps[i]
              && ReferralNotices(ps, recent)[i].context.ReferralCtx?
              && ReferralNotices(ps, recent)[i].context.total == DigestTotal(|OfParent(recent, ps[i])|)
  {
    forall i | 0 <= i < |ps|
      ensures Digest(ps[i], recent).Some?
      ensures var n := Digest(ps[i], recent).value;
              n.userId == ps[i] && n.context.ReferralCtx? && n.context.total == DigestTotal(|OfParent(recent, ps[i])|)
    {
      assert ps[i] in ps;
      ReferralDigestOf(ps[i], recent);
    }
    FlattenAllPresent(Digests(ps, recent));
  }

  /** Every referrer has a non-empty group, so each gets its digest. */
  lemma ParentsHaveReferrals(recent: seq<Referral>)
    ensures forall p :: p in Parents(recent) ==> OfParent(recent, p) != []
  {
    forall p | p in Parents(recent)
      ensures OfParent(recent, p) != []
    {
      var x :| x in recent && x.parentId == p;
      assert x in OfParent(recent, p);
    }
  }

  /** The outer loop of `processReferralNotifications` over the groups. */
  method ReferralDigests(ps: seq<int>, groups: map<int, seq<Referral>>, recent: seq<Referral>) returns (calls: seq<Notice>)
    requires forall i :: 0 <= i < |ps| ==> ps[i] in groups
    requires forall i :: 0 <= i < |ps| ==> groups[ps[i]] == OfParent(recent, ps[i])
    ensures calls == ReferralNotices(ps, recent)
  {
    var digests := Digests(ps, recent);
    calls := [];
    for k := 0 to |ps|
      invariant calls == Flatten(digests[..k])
    {
      FlattenStep(digests, k);
      var infos := CollectReferrers(groups[ps[k]]);
      calls := calls + Calls(ReferralNotice(ps[k], infos));
    }
    assert digests[..|ps|] == digests;
  }

  /** The inner loop that pushes one entry per referral. */
  method CollectReferrers(group: seq<Referral>) returns (infos: seq<Info>)
    ensures infos == ReferrerInfos(group)
  {
    infos := [];
    for i := 0 to |group|
      invariant infos == ReferrerInfos(group[..i])
    {
      assert group[..i + 1][..i] == group[..i];
      infos := infos + [InfoOf(group[i].profile)];
    }
    assert group[..|group|] == group;
  }

  // ---------------------------------------------------------------------
  // Order notices

  /** An SL or TP price as the message carries it: absent (`undefined`),
      `null`, or a number. */
  datatype PriceField = Undefined | Null | Given(price: real)

  /** `sendSlTpUpdateNotification`'s test: some of SL and TP has an old and
      a new value that are not `undefined`, and they differ (`!==`, under
      which `null` differs from every number). A `null` counts as given. */
  predicate SlTpChanged(oldSl: PriceField, oldTp: PriceField, newSl: PriceField, newTp: PriceField)
  {
    || (newSl != Undefined && oldSl != Undefined && newSl != oldSl)
    || (newTp != Undefined && oldTp != Undefined && newTp != oldTp)
  }

  /** A value given without its old counterpart, or equal to it, is no
      change; a `null` old value next to a price is one. */
  lemma SlTpUnchanged(old_: PriceField, new_: PriceField, p: real)
    ensures !SlTpChanged(old_, old_, old_, old_)
    ensures !SlTpChanged(Undefined, Undefined, new_, new_)
    ensures SlTpChanged(Undefined, Null, new_, Given(p))
  {
  }

  /** `modify?.before || null`, the old value the order-update handler
      passes: a missing modify entry, a missing or `null` value and a price
      of 0 all become `null`. */
  function OldOrNull(before: Option<PriceField>): (r: PriceField)
    ensures r != Undefined
    ensures before.Some? && before.value.Given? && before.value.price != 0.0 ==> r == before.value
  {
    match before
    case Some(Given(p)) => if p == 0.0 then Null else Given(p)
    case _ => Null
  }

  /** Since the handler never passes `undefined`, a modify of the SL alone on
      an order that has a TP always counts as a change, whatever the SL did:
      the TP's `null` old value differs from its price. */
  lemma {:induction false} SlOnlyModifySendsNotices(slBefore: Option<PriceField>, newSl: PriceField, tp: real)
    ensures SlTpChanged(OldOrNull(slBefore), OldOrNull(None), newSl, Given(tp))
  {
    assert OldOrNull(None) == Null;
  }

  /** ASCII `toUpperCase` of one character. */
  function UpperChar(c: char): char
  {
    if 'a' <= c <= 'z' then (c as int - 32) as char else c
  }

  /** lodash `capitalize`: the first letter upper case, the rest lower. */
  function Capitalize(s: string): (r: string)
    ensures |r| == |s|
    ensures s != [] ==> r[0] == UpperChar(s[0]) && r[1..] == Lower(s[1..])
  {
    if s == [] then [] else [UpperChar(s[0])] + Lower(s[1..])
  }

  /** Capitalising ignores the case the side came in. */
  lemma CapitalizeIgnoresCase(s: string)
    ensures Capitalize(Lower(s)) == Capitalize(s)
  {
    if s != [] {
      assert Lower(s)[1..] == Lower(s[1..]);
      LowerIdempotent(s[1..]);
    }
  }

  /** A `post_orders` row: a copy or counter of a called order. */
  datatype PostOrder = PostOrder(userId: int, side: string, orderId: int)

  /** The post orders of other users than the caller. */
  function NotCaller(orders: seq<PostOrder>, callerId: int): (r: seq<PostOrder>)
    ensures forall x :: x in r <==> x in orders && x.userId != callerId
  {
    FilterMembers(orders, (o: PostOrder) => o.userId != callerId);
    Filter(orders, (o: PostOrder) => o.userId != callerId)
  }

  /** The SL/TP edit notices: none without a change, else one per post
      order of another user. */
  function EditNotices(caller: Profile, changed: bool, orders: seq<PostOrder>): (r: seq<Notice>)
    ensures !changed ==> r == []
    ensures changed ==> |r| == |NotCaller(orders, caller.id)|
    ensures changed ==> forall i :: 0 <= i < |r| ==>
              r[i] == Notice(NotCaller(orders, caller.id)[i].userId, FuturesEditTpSl,
                             EditCtx(CallerName(caller), Capitalize(NotCaller(orders, caller.id)[i].side)))
  {
    if !changed then [] else EditNoticesFor(caller, NotCaller(orders, caller.id))
  }

  function EditNoticesFor(caller: Profile, targets: seq<PostOrder>): (r: seq<Notice>)
    ensures |r| == |targets|
    ensures forall i :: 0 <= i < |r| ==>
              r[i] == Notice(targets[i].userId, FuturesEditTpSl, EditCtx(CallerName(caller), Capitalize(targets[i].side)))
  {
    if targets == [] then []
    else
      var t := targets[|targets| - 1];
      EditNoticesFor(caller, targets[..|targets| - 1]) + [Notice(t.userId, FuturesEditTpSl, EditCtx(CallerName(caller), Capitalize(t.side)))]
  }

  /** The template for a copier notice; an empty status counts as OPENED
      and an unknown one too. */
  function CopierTemplate(status: string): (t: Template)
    ensures status == "LIQUIDATED" <==> t == FutureLiquidateToCopier
    ensures status == "SL_HIT" <==> t == FutureHitSlToCopier
    ensures status == "TP_HIT" <==> t == FutureHitTpToCopier
    ensures status == "CLOSE" <==> t == FutureCloseToCopier
    ensures t in {FutureOpenedToCopier, FutureLiquidateToCopier, FutureHitSlToCopier, FutureHitTpToCopier, FutureCloseToCopier}
  {
    var s := if status == "" then "OPENED" else status;
    if s == "OPENED" then FutureOpenedToCopier
    else if s == "LIQUIDATED" then FutureLiquidateToCopier
    else if s == "SL_HIT" then FutureHitSlToCopier
    else if s == "TP_HIT" then FutureHitTpToCopier
    else if s == "CLOSE" then FutureCloseToCopier
    else FutureOpenedToCopier
  }

  /** The users holding some of `orders`. */
  function Holders(orders: seq<PostOrder>): (us: set<int>)
    ensures forall x :: x in orders ==> x.userId in us
  {
    if orders == [] then {}
    else
      var init := orders[..|orders| - 1];
      assert orders == init + [orders[|orders| - 1]];
      Holders(init) + {orders[|orders| - 1].userId}
  }

  /** The first post order of each user, in order (the `$group` by user with
      `$first`). */
  function FirstPerUser(orders: seq<PostOrder>): (r: seq<PostOrder>)
    ensures forall x :: x in r ==> x in orders
    ensures forall i, j :: 0 <= i < j < |r| ==> r[i].userId != r[j].userId
    ensures Holders(r) == Holders(orders)
  {
    if orders == [] then []
    else
      var init := orders[..|orders| - 1];
      var rest := FirstPerUser(init);
      var last := orders[|orders| - 1];
      assert orders == init + [last];
      if last.userId in Holders(rest) then rest
      else
        assert (rest + [last])[..|rest|] == rest;
        rest + [last]
  }

  /** The called order a copier notice describes. `0` stands for a missing
      displaying id and "" for a missing symbol or side. */
  datatype CalledOrder = CalledOrder(symbol: string, side: string, displayingId: int,
                                     leverage: Option<real>, orderValue: Option<real>, rawProfit: Option<real>)

  /** The post a call was made in. */
  datatype PostData = PostData(id: int, status: string, callerDescription: Option<string>)

  /** `x || 0` of an optional number. */
  function OrZero(x: Option<real>): real
  {
    match x
    case Some(v) => v
    case None => 0.0
  }

  /** The `$group` stage keeps only the user and the order id: the side of
      a grouped row is missing, and `capitalize` of it is "". */
  function WithoutSide(orders: seq<PostOrder>): (r: seq<PostOrder>)
    ensures |r| == |orders|
    ensures forall i :: 0 <= i < |r| ==> r[i] == PostOrder(orders[i].userId, "", orders[i].orderId)
  {
    if orders == [] then []
    else WithoutSide(orders[..|orders| - 1]) + [PostOrder(orders[|orders| - 1].userId, "", orders[|orders| - 1].orderId)]
  }

  /** The copiers and counters a called order notifies: every post order of
      another user for a CLOSE, else the first of each other user, without
      its side. */
  function CopierTargets(status: string, orders: seq<PostOrder>, callerId: int): seq<PostOrder>
  {
    if status == "CLOSE" then NotCaller(orders, callerId) else WithoutSide(FirstPerUser(NotCaller(orders, callerId)))
  }

  /** The notice to one copier or counter. */
  function CopierNotice(caller: Profile, post: PostData, order: CalledOrder, target: PostOrder): Notice
  {
    Notice(target.userId, CopierTemplate(post.status),
           CopierCtx(CallerName(caller), order.side, Capitalize(target.side), order.symbol,
                     OrZero(order.leverage), OrZero(order.orderValue), OrZero(order.rawProfit),
                     match post.callerDescription case Some(d) => d case None => "",
                     post.id, caller.id))
  }

  function CopierNoticesFor(caller: Profile, post: PostData, order: CalledOrder, targets: seq<PostOrder>): (r: seq<Notice>)
    ensures |r| == |targets|
    ensures forall i :: 0 <= i < |r| ==> r[i] == CopierNotice(caller, post, order, targets[i])
  {
    if targets == [] then []
    else CopierNoticesFor(caller, post, order, targets[..|targets| - 1]) + [CopierNotice(caller, post, order, targets[|targets| - 1])]
  }

  /** A called order the notice can describe: it has a symbol, a side and a
      displaying id. */
  predicate Describable(order: Option<CalledOrder>)
  {
    order.Some? && order.value.symbol != "" && order.value.side != "" && order.value.displayingId != 0
  }

  /** The users a list of notices goes to. */
  function Recipients(r: seq<Notice>): (us: set<int>)
    ensures forall n :: n in r ==> n.userId in us
  {
    if r == [] then {}
    else
      var init := r[..|r| - 1];
      assert r == init + [r[|r| - 1]];
      Recipients(init) + {r[|r| - 1].userId}
  }

  /** Every holder holds one of the orders. */
  lemma {:induction false} HoldersExact(orders: seq<PostOrder>, u: int)
    requires u in Holders(orders)
    ensures exists x :: x in orders && x.userId == u
  {
    var last := orders[|orders| - 1];
    if u != last.userId {
      HoldersExact(orders[..|orders| - 1], u);
      var x :| x in orders[..|orders| - 1] && x.userId == u;
      assert x in orders;
    }
  }

  /** Dropping the caller's post orders drops exactly the caller from the
      holders. */
  lemma HoldersNotCaller(orders: seq<PostOrder>, callerId: int)
    ensures Holders(NotCaller(orders, callerId)) == Holders(orders) - {callerId}
  {
    var nc := NotCaller(orders, callerId);
    forall u | u in Holders(nc)
      ensures u in Holders(orders) - {callerId}
    {
      HoldersExact(nc, u);
    }
    forall u | u in Holders(orders) - {callerId}
      ensures u in Holders(nc)
    {
      HoldersExact(orders, u);
      var x :| x in orders && x.userId == u;
      assert x in nc;
    }
  }

  /** Forgetting the side keeps the holders. */
  lemma HoldersWithoutSide(orders: seq<PostOrder>)
    ensures Holders(WithoutSide(orders)) == Holders(orders)
  {
    var ws := WithoutSide(orders);
    forall u | u in Holders(ws)
      ensures u in Holders(orders)
    {
      HoldersExact(ws, u);
      var x :| x in ws && x.userId == u;
      var i :| 0 <= i < |ws| && ws[i] == x;
      assert orders[i] in orders;
    }
    forall u | u in Holders(orders)
      ensures u in Holders(ws)
    {
      HoldersExact(orders, u);
      var x :| x in orders && x.userId == u;
      var i :| 0 <= i < |orders| && orders[i] == x;
      assert ws[i] in ws;
    }
  }

  /** Notices made one per target go to exactly the targets' holders. */
  lemma {:induction false} RecipientsOfTargets(r: seq<Notice>, targets: seq<PostOrder>)
    requires |r| == |targets|
    requires forall i :: 0 <= i < |r| ==> r[i].userId == targets[i].userId
    ensures Recipients(r) == Holders(targets)
  {
    if r != [] {
      var k := |r| - 1;
      RecipientsOfTargets(r[..k], targets[..k]);
      assert r == r[..k] + [r[k]];
      assert targets == targets[..k] + [targets[k]];
    }
  }

  /** The calls `sendFuturesCallingToCopierNotification` makes: for a
      describable order, one notice to every other user holding a copy or
      counter of it (one per post order for a CLOSE, in order). */
  function CopierNotices(caller: Profile, post: PostData, order: Option<CalledOrder>, orders: seq<PostOrder>): (r: seq<Notice>)
    ensures !Describable(order) ==> r == []
    ensures forall n :: n in r ==> n.userId != caller.id && n.template == CopierTemplate(post.status)
    ensures Describable(order) ==> Recipients(r) == Holders(orders) - {caller.id}
    ensures Describable(order) && post.status == "CLOSE" ==>
              && |r| == |NotCaller(orders, caller.id)|
              && forall i :: 0 <= i < |r| ==> r[i].userId == NotCaller(orders, caller.id)[i].userId
  {
    if !Describable(order) then []
    else
      var targets := CopierTargets(post.status, orders, caller.id);
      var r := CopierNoticesFor(caller, post, order.value, targets);
      assert forall n :: n in r ==> exists i :: 0 <= i < |targets| && n == CopierNotice(caller, post, order.value, targets[i]);
      RecipientsOfTargets(r, targets);
      HoldersNotCaller(orders, caller.id);
      HoldersWithoutSide(FirstPerUser(NotCaller(orders, caller.id)));
      r
  }

  /** Outside a CLOSE, a copier hears once however many copies they hold,
      and the notice carries no side of theirs. */
  lemma OneCopierNoticePerUser(caller: Profile, post: PostData, order: Option<CalledOrder>, orders: seq<PostOrder>)
    requires post.status != "CLOSE"
    ensures forall i, j :: 0 <= i < j < |CopierNotices(caller, post, order, orders)| ==>
              CopierNotices(caller, post, order, orders)[i].userId != CopierNotices(caller, post, order, orders)[j].userId
    ensures forall n :: n in CopierNotices(caller, post, order, orders) ==> n.context.CopierCtx? && n.context.sidePostOrder == ""
  {
  }

  // ---------------------------------------------------------------------
  // Tier rewards

  /** Position of the last reward of `assetId`. */
  function LastOfAsset(rewards: seq<Users.Reward>, assetId: int): (r: Option<nat>)
    ensures r.Some? ==> r.value < |rewards| && rewards[r.value].assetId == assetId
                        && forall j :: r.value < j < |rewards| ==> rewards[j].assetId != assetId
    ensures r.None? ==> forall j :: 0 <= j < |rewards| ==> rewards[j].assetId != assetId
  {
    if rewards == [] then None
    else if rewards[|rewards| - 1].assetId == assetId then Some(|rewards| - 1)
    else LastOfAsset(rewards[..|rewards| - 1], assetId)
  }

  /** The quantity of the last reward of `assetId`, 0 without one. */
  function LastQuantity(rewards: seq<Users.Reward>, assetId: int): real
  {
    match LastOfAsset(rewards, assetId)
    case Some(i) => rewards[i].assetQuantity
    case None => 0.0
  }

  /** The `reduce` of `sendAccountTierRewardNotification`: a CUSDT reward
      sets the CUSDT amount, an LUSDT one the LUSDT amount. */
  function Amounts(rewards: seq<Users.Reward>): (real, real)
  {
    if rewards == [] then (0.0, 0.0)
    else
      var acc := Amounts(rewards[..|rewards| - 1]);
      var r := rewards[|rewards| - 1];
      if r.assetId == CUSDT then (r.assetQuantity, acc.1)
      else if r.assetId == LUSDT then (acc.0, r.assetQuantity)
      else acc
  }

  /** Each amount is the quantity of the last reward of its asset. */
  lemma {:induction false} AmountsAreLastQuantities(rewards: seq<Users.Reward>)
    ensures Amounts(rewards) == (LastQuantity(rewards, CUSDT), LastQuantity(rewards, LUSDT))
  {
    if rewards != [] {
      AmountsAreLastQuantities(rewards[..|rewards| - 1]);
    }
  }

  /** The tier-reward notice: empty rewards count as one USDT reward of 0. */
  function TierRewardNotice(userId: int, tierName: string, rewards: seq<Users.Reward>, tierId: int): (n: Notice)
    ensures n.template == RankChanged && n.userId == userId
    ensures n.context.RankCtx? && n.context.amountCUsdt == LastQuantity(rewards, CUSDT)
    ensures n.context.amountLUsdt == LastQuantity(rewards, LUSDT)
  {
    var effective := if rewards == [] then [Users.Reward(USDT, 0.0)] else rewards;
    AmountsAreLastQuantities(effective);
    var amounts := Amounts(effective);
    Notice(userId, RankChanged, RankCtx(tierName, amounts.0, amounts.1, tierId))
  }

  // ---------------------------------------------------------------------
  // The service

  class Notifier {
    /** The `sendChatBotNotify` calls made, in order. */
    var calls: seq<Notice>

    constructor ()
      ensures calls == []
    {
      calls := [];
    }

    /** `sendNoti`: the call is made; it reports success unless delivery to
        the user throws (`failing` is the set of users whose delivery
        throws). */
    method SendNoti(notice: Notice, failing: set<int>) returns (ok: bool)
      modifies this
      ensures calls == old(calls) + [notice]
      ensures ok <==> notice.userId !in failing
    {
      calls := calls + [notice];
      ok := notice.userId !in failing;
    }

    /** Sends `notices` one after the other; a failed delivery does not stop
        the rest. */
    method SendAll(notices: seq<Notice>, failing: set<int>)
      modifies this
      ensures calls == old(calls) + notices
    {
      for k := 0 to |notices|
        invariant calls == old(calls) + notices[..k]
      {
        assert notices[..k + 1] == notices[..k] + [notices[k]];
        var _ := SendNoti(notices[k], failing);
      }
      assert notices[..|notices|] == notices;
    }

    /** `sendFollowerNotification`. */
    method SendFollowerNotification(userId: int, infos: seq<Info>, failing: set<int>)
      modifies this
      ensures calls == old(calls) + Calls(FollowerNotice(userId, infos))
    {
      var notice := FollowerNotice(userId, infos);
      if notice.Some? {
        var _ := SendNoti(notice.value, failing);
      }
    }

    /** `sendReferralNotification`. */
    method SendReferralNotification(userId: int, infos: seq<Info>, failing: set<int>)
      modifies this
      ensures calls == old(calls) + Calls(ReferralNotice(userId, infos))
    {
      var notice := ReferralNotice(userId, infos);
      if notice.Some? {
        var _ := SendNoti(notice.value, failing);
      }
    }

    /** `processFollowerNotifications` over the recent follows grouped by the
        followed user; `profiles` are the followers found by id. */
    method ProcessFollowerNotifications(groups: seq<FollowGroup>, profiles: map<int, Profile>, failing: set<int>)
      modifies this
      ensures calls == old(calls) + FollowerNotices(groups, profiles)
    {
      var notices := CollectFollowerNotices(groups, profiles);
      SendAll(notices, failing);
    }

    /** `processReferralNotifications` over the recent referrals: one digest
        per referrer, in ascending referrer id. */
    method ProcessReferralNotifications(recent: seq<Referral>, failing: set<int>)
      modifies this
      ensures calls == old(calls) + ReferralNotices(Parents(recent), recent)
    {
      var groups := GroupByParent(recent);
      var ps := Parents(recent);
      assert forall i :: 0 <= i < |ps| ==> ps[i] in ps;
      var digests := ReferralDigests(ps, groups, recent);
      SendAll(digests, failing);
    }

    /** `sendSlTpUpdateNotification`: `orders` are the post orders copying
        the edited order. */
    method SendSlTpUpdateNotification(caller: Profile, oldSl: PriceField, oldTp: PriceField,
                                      newSl: PriceField, newTp: PriceField,
                                      orders: seq<PostOrder>, failing: set<int>)
      modifies this
      ensures calls == old(calls) + EditNotices(caller, SlTpChanged(oldSl, oldTp, newSl, newTp), orders)
    {
      var notices := EditNotices(caller, SlTpChanged(oldSl, oldTp, newSl, newTp), orders);
      SendAll(notices, failing);
    }

    /** `sendFuturesCallingToCopierNotification`: `orders` are the post
        orders following the called order. */
    method SendFuturesCallingToCopierNotification(caller: Profile, post: PostData, order: Option<CalledOrder>,
                                                  orders: seq<PostOrder>, failing: set<int>)
      modifies this
      ensures calls == old(calls) + CopierNotices(caller, post, order, orders)
    {
      var notices := CopierNotices(caller, post, order, orders);
      SendAll(notices, failing);
    }

    /** `sendAccountTierRewardNotification`: nothing for an unknown user. */
    method SendAccountTierRewardNotification(userId: int, userExists: bool, tierName: string,
                                             rewards: seq<Users.Reward>, tierId: int, failing: set<int>)
      modifies this
      ensures !userExists ==> calls == old(calls)
      ensures userExists ==> calls == old(calls) + [TierRewardNotice(userId, tierName, rewards, tierId)]
    {
      if !userExists {
        return;
      }
      var _ := SendNoti(TierRewardNotice(userId, tierName, rewards, tierId), failing);
    }
  }
}
