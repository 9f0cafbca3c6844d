// The social feed: posts that share a futures order, reactions with their
// per-post counters, the post status rules driven by order events, the
// star-invoice links kept on a post, feed paging, and the achievement
// summary of a profile.

module Feed {
  import opened Common

  /** Post statuses, with the numeric codes stored on a post. */
  datatype PostStatus = Closed | Active | Cancelled | Pending

  function StatusCode(s: PostStatus): (code: int)
    ensures 0 <= code <= 3
  {
    match s
    case Closed => 0
    case Active => 1
    case Cancelled => 2
    case Pending => 3
  }

  /** Different statuses are stored as different codes. */
  lemma StatusCodeInjective(a: PostStatus, b: PostStatus)
    ensures StatusCode(a) == StatusCode(b) ==> a == b
  {
  }

  /** The order statuses the feed rules look at; every other status of the
      futures service is `OtherStatus`. */
  datatype OrderStatus = OrderPending | OrderActive | OrderClosing | OrderClosed | OtherStatus

  /** The fields of a futures order the feed reads. */
  datatype FutureOrder = FutureOrder(
    displayingId: int, status: OrderStatus, orderType: string, openPrice: real,
    profit: real, reasonClose: string)

  datatype Post = Post(
    id: int, userId: int, orderId: int, caption: string, status: PostStatus, profit: real,
    reactions: map<string, int>, invoiceLinks: map<int, string>)

  /** One reaction document; the triple is unique. */
  datatype ReactionKey = ReactionKey(postId: int, userId: int, reaction: string)

  datatype PostError = FutureOrderNotFound | PostAlreadyExists | PostNotFound

  /** The status a new post takes from its order. */
  function InitialStatus(order: FutureOrder): (s: PostStatus)
    ensures s == Pending <==> order.status == OrderPending
    ensures s == Active <==> order.status != OrderPending
  {
    if order.status == OrderPending then Pending else Active
  }

  /** An order a post may be created for: present and not closed or
      closing. */
  predicate Postable(order: Option<FutureOrder>)
  {
    order.Some? && order.value.status != OrderClosed && order.value.status != OrderClosing
  }

  /** A reaction counter; a reaction never counted reads as 0. */
  function Tally(reactions: map<string, int>, reaction: string): int
  {
    if reaction in reactions then reactions[reaction] else 0
  }

  /** Number of stored reactions of kind `reaction` on post `p`. */
  ghost function ReactionCount(log: set<ReactionKey>, p: int, reaction: string): nat
  {
    |set k | k in log && k.postId == p && k.reaction == reaction|
  }

  /** Inserting a new reaction adds one to its own counter only. */
  lemma InsertReactionCount(log: set<ReactionKey>, k: ReactionKey, p: int, reaction: string)
    requires k !in log
    ensures ReactionCount(log + {k}, p, reaction)
            == ReactionCount(log, p, reaction) + (if k.postId == p && k.reaction == reaction then 1 else 0)
  {
    var before := set x | x in log && x.postId == p && x.reaction == reaction;
    if k.postId == p && k.reaction == reaction {
      assert (set x | x in log + {k} && x.postId == p && x.reaction == reaction) == before + {k};
    } else {
      assert (set x | x in log + {k} && x.postId == p && x.reaction == reaction) == before;
    }
  }

  /** A post nobody has reacted to has all counters at 0. */
  lemma NoReactionsYet(log: set<ReactionKey>, p: int, reaction: string)
    requires forall k :: k in log ==> k.postId != p
    ensures ReactionCount(log, p, reaction) == 0
  {
    assert (set x | x in log && x.postId == p && x.reaction == reaction) == {};
  }

  /** The status shown to copiers when an order closes. */
  function CloseNoticeStatus(reasonClose: string): (s: string)
    ensures reasonClose == "Liquidate" ==> s == "LIQUIDATED"
    ensures reasonClose == "Hit SL" ==> s == "SL_HIT"
    ensures reasonClose == "Hit TP" ==> s == "TP_HIT"
    ensures s == "CLOSE" <==> reasonClose !in {"Liquidate", "Hit SL", "Hit TP"}
  {
    if reasonClose == "Liquidate" then "LIQUIDATED"
    else if reasonClose == "Hit SL" then "SL_HIT"
    else if reasonClose == "Hit TP" then "TP_HIT"
    else "CLOSE"
  }

  /** A close that cancels the post: a Limit or Stop order that never
      opened. */
  predicate CancelsPost(order: FutureOrder)
  {
    (order.orderType == "Limit" || order.orderType == "Stop") && order.openPrice == 0.0
  }

  /** The post after its order closed. */
  function ClosedPost(post: Post, order: FutureOrder): (r: Post)
    ensures CancelsPost(order) ==> r == post.(status := Cancelled)
    ensures !CancelsPost(order) ==> r.status == Closed && r.profit == order.profit
    ensures r.(status := post.status, profit := post.profit) == post
  {
    if CancelsPost(order) then post.(status := Cancelled) else post.(status := Closed, profit := order.profit)
  }

  /** The link `getInvoiceLink` returns without asking for a new one: the
      stored link for the amount unless a reset is asked for or none (or an
      empty one) is stored. */
  function StoredInvoiceLink(links: map<int, string>, amount: int, resetLink: bool): (r: Option<string>)
    ensures r.Some? <==> !resetLink && amount in links && links[amount] != ""
    ensures r.Some? ==> r.value == links[amount]
  {
    if !resetLink && amount in links && links[amount] != "" then Some(links[amount]) else None
  }

  /** Once a link is stored for an amount, a later call without reset gets
      it back, and links stored for other amounts stay reachable. */
  lemma StoredLinkIsReused(links: map<int, string>, amount: int, link: string, other: int)
    requires link != ""
    ensures StoredInvoiceLink(links[amount := link], amount, false) == Some(link)
    ensures other != amount ==>
              StoredInvoiceLink(links[amount := link], other, false) == StoredInvoiceLink(links, other, false)
  {
  }

  // ---------------------------------------------------------------------
  // Paging and summaries

  /** One page of a feed: the first `limit` entries, and whether there are
      more. */
  function Page<T>(result: seq<T>, limit: nat): (r: (seq<T>, bool))
    ensures |r.0| == if |result| < limit then |result| else limit
    ensures r.0 == result[..|r.0|]
    ensures r.1 <==> |result| > limit
  {
    (result[..if |result| < limit then |result| else limit], |result| > limit)
  }

  /** The page of a user's posts: posts whose order the futures service no
      longer returns are dropped before paging. */
  function UserFeedPage(posts: seq<Post>, orders: set<int>, limit: nat): (r: (seq<Post>, bool))
  {
    Page(Filter(posts, (p: Post) => p.orderId in orders), limit)
  }

  /** Every post on a user's page has its order, the page keeps the posts'
      order, and there are more exactly when more than `limit` posts have
      their order. */
  lemma UserFeedPageFacts(posts: seq<Post>, orders: set<int>, limit: nat)
    ensures var r := UserFeedPage(posts, orders, limit);
            && |r.0| <= limit
            && (forall p :: p in r.0 ==> p in posts && p.orderId in orders)
            && IsSubsequence(r.0, posts)
            && (r.1 <==> CountIf(posts, (p: Post) => p.orderId in orders) > limit)
  {
    var kept := Filter(posts, (p: Post) => p.orderId in orders);
    FilterIsSubsequence(posts, (p: Post) => p.orderId in orders);
    var idx: seq<nat> :| Embeds(kept, posts, idx);
    var page := UserFeedPage(posts, orders, limit).0;
    assert Embeds(page, posts, idx[..|page|]);
    forall p | p in page
      ensures p in posts && p.orderId in orders
    {
      assert p in kept;
    }
  }

  /** A stored achievement: the tab it was won on, the rank and how many
      times. */
  datatype Achievement = Achievement(achType: string, rank: int, counter: int)

  datatype Badge = Badge(rank: int, counter: int)

  /** The `reduce` of `getUserAchievements`: per type, the qualifying entry
      with the smallest rank (the earliest one among equal ranks). */
  function BestRanks(achievements: seq<Achievement>, trophy: bool): map<string, Badge>
  {
    if achievements == [] then map[]
    else
      var acc := BestRanks(achievements[..|achievements| - 1], trophy);
      var a := achievements[|achievements| - 1];
      if Qualifies(a, trophy) && (a.achType !in acc || acc[a.achType].rank > a.rank)
      then acc[a.achType := Badge(a.rank, a.counter)]
      else acc
  }

  /** Each kept badge is the rank and counter of a qualifying entry of its
      type. */
  lemma {:induction false} BestRanksSound(achievements: seq<Achievement>, trophy: bool, t: string)
    requires t in BestRanks(achievements, trophy)
    ensures exists i :: 0 <= i < |achievements| && achievements[i].achType == t
                        && Qualifies(achievements[i], trophy)
                        && BestRanks(achievements, trophy)[t] == Badge(achievements[i].rank, achievements[i].counter)
  {
    var init := achievements[..|achievements| - 1];
    var a := achievements[|achievements| - 1];
    var acc := BestRanks(init, trophy);
    if Qualifies(a, trophy) && (a.achType !in acc || acc[a.achType].rank > a.rank) && t == a.achType {
      assert achievements[|achievements| - 1] == a;
    } else {
      BestRanksSound(init, trophy, t);
      var i :| 0 <= i < |init| && init[i].achType == t && Qualifies(init[i], trophy)
                && acc[t] == Badge(init[i].rank, init[i].counter);
      assert achievements[i] == init[i];
    }
  }

  /** Every qualifying entry has a badge of its type, of a rank no larger
      than its own. */
  lemma {:induction false} BestRanksMinimal(achievements: seq<Achievement>, trophy: bool, i: int)
    requires 0 <= i < |achievements| && Qualifies(achievements[i], trophy)
    ensures achievements[i].achType in BestRanks(achievements, trophy)
    ensures BestRanks(achievements, trophy)[achievements[i].achType].rank <= achievements[i].rank
  {
    var init := achievements[..|achievements| - 1];
    var a := achievements[|achievements| - 1];
    if i < |init| {
      assert achievements[i] == init[i];
      BestRanksMinimal(init, trophy, i);
    }
  }

  /** Trophies are ranks 1 to 3, medals the ranks below. */
  predicate Qualifies(a: Achievement, trophy: bool)
  {
    if trophy then a.rank <= 3 else a.rank > 3
  }

  /** Trophies and medals split the achievements: a type's trophy has rank
      at most 3 and its medal a rank above 3. */
  lemma TrophyAndMedalRanks(achievements: seq<Achievement>, t: string)
    ensures t in BestRanks(achievements, true) ==> BestRanks(achievements, true)[t].rank <= 3
    ensures t in BestRanks(achievements, false) ==> BestRanks(achievements, false)[t].rank > 3
  {
    if t in BestRanks(achievements, true) {
      BestRanksSound(achievements, true, t);
    }
    if t in BestRanks(achievements, false) {
      BestRanksSound(achievements, false, t);
    }
  }

  // ---------------------------------------------------------------------
  // The store

  /** The post a `findOne({ orderId })` finds, if any. */
  ghost function PostOf(posts: map<int, Post>, orderId: int): (r: Option<int>)
    ensures r.Some? ==> r.value in posts && posts[r.value].orderId == orderId
    ensures r.None? ==> forall p :: p in posts ==> posts[p].orderId != orderId
  {
    if exists p :: p in posts && posts[p].orderId == orderId then
      var p :| p in posts && posts[p].orderId == orderId; Some(p)
    else None
  }

  /** `findOne({ orderId })` over the posts. */
  method FindPostForOrder(posts: map<int, Post>, orderId: int) returns (r: Option<int>)
    ensures r.Some? ==> r.value in posts && posts[r.value].orderId == orderId
    ensures r.None? ==> forall p :: p in posts ==> posts[p].orderId != orderId
  {
    var rest := posts.Keys;
    while rest != {}
      invariant rest <= posts.Keys
      invariant forall p :: p in posts && p !in rest ==> posts[p].orderId != orderId
      decreases rest
    {
      HasElement(rest);
      var p :| p in rest;
      if posts[p].orderId == orderId {
        return Some(p);
      }
      rest := rest - {p};
    }
    return None;
  }

  class FeedStore {
    var posts: map<int, Post>
    var reactionLog: set<ReactionKey>
    /** The next post id the store hands out. */
    var nextPostId: int

    /** Posts are stored under their ids, one per order, reactions refer to
        stored posts, and each counter equals the number of its reactions. */
    ghost predicate Valid()
      reads this
    {
      && (forall p :: p in posts ==> posts[p].id == p && p < nextPostId)
      && (forall a, b :: a in posts && b in posts && a != b ==> posts[a].orderId != posts[b].orderId)
      && (forall k :: k in reactionLog ==> k.postId in posts)
      && (forall p, r :: p in posts ==> Tally(posts[p].reactions, r) == ReactionCount(reactionLog, p, r))
    }

    constructor ()
      ensures Valid()
      ensures posts == map[] && reactionLog == {}
    {
      posts := map[];
      reactionLog := {};
      nextPostId := 0;
    }

    /** `createPost`. `order` is what the futures service returns for the
        order id. */
    method CreatePost(userId: int, orderId: int, caption: string, order: Option<FutureOrder>)
      returns (r: Result<int, PostError>)
      requires Valid()
      modifies this
      ensures Valid()
      ensures !Postable(order) ==> r == Err(FutureOrderNotFound)
      ensures Postable(order) && PostOf(old(posts), orderId).Some? ==> r == Err(PostAlreadyExists)
      ensures r.Err? ==> posts == old(posts)
      ensures Postable(order) && PostOf(old(posts), orderId).None? ==>
                && r.Ok? && r.value !in old(posts)
                && posts == old(posts)[r.value := Post(r.value, userId, orderId, caption,
                                                       InitialStatus(order.value), 0.0, map[], map[])]
      ensures reactionLog == old(reactionLog)
    {
      if !Postable(order) {
        return Err(FutureOrderNotFound);
      }
      var existing := FindPostForOrder(posts, orderId);
      if existing.Some? {
        return Err(PostAlreadyExists);
      }
      var id := nextPostId;
      forall k | k in reactionLog
        ensures k.postId != id
      {
      }
      forall rc: string
        ensures ReactionCount(reactionLog, id, rc) == 0
      {
        NoReactionsYet(reactionLog, id, rc);
      }
      posts := posts[id := Post(id, userId, orderId, caption, InitialStatus(order.value), 0.0, map[], map[])];
      nextPostId := nextPostId + 1;
      r := Ok(id);
    }

    /** `createReaction`: the reaction is upserted and its counter moves
        only when it is new. */
    method CreateReaction(userId: int, postId: int, reaction: string) returns (r: Result<bool, PostError>)
      requires Valid()
      modifies this
      ensures Valid()
      ensures postId !in old(posts) ==> r == Err(PostNotFound)
      ensures postId in old(posts) ==>
                r == Ok(ReactionKey(postId, userId, reaction) !in old(reactionLog))
      ensures reactionLog == if postId in old(posts) then old(reactionLog) + {ReactionKey(postId, userId, reaction)}
                             else old(reactionLog)
      ensures r == Ok(true) ==>
                var post := old(posts)[postId];
                posts == old(posts)[postId := post.(reactions := post.reactions[reaction := Tally(post.reactions, reaction) + 1])]
      ensures r != Ok(true) ==> posts == old(posts)
      ensures nextPostId == old(nextPostId)
    {
      if postId !in posts {
        return Err(PostNotFound);
      }
      var key := ReactionKey(postId, userId, reaction);
      if key in reactionLog {
        return Ok(false);
      }
      var post := posts[postId];
      ghost var before := reactionLog;
      forall p, rc | p in posts
        ensures ReactionCount(before + {key}, p, rc)
                == ReactionCount(before, p, rc) + (if postId == p && reaction == rc then 1 else 0)
      {
        InsertReactionCount(before, key, p, rc);
      }
      reactionLog := reactionLog + {key};
      posts := posts[postId := post.(reactions := post.reactions[reaction := Tally(post.reactions, reaction) + 1])];
      r := Ok(true);
    }

    /** The post update of `handleOrderUpdated`: a post whose order became
        active is active; otherwise nothing changes. `userKnown` says whether
        the post's author has a user record. */
    method HandleOrderUpdated(order: FutureOrder, userKnown: bool)
      requires Valid()
      modifies this
      ensures Valid()
      ensures var p := PostOf(old(posts), order.displayingId);
              posts == if p.Some? && userKnown && order.status == OrderActive
                       then old(posts)[p.value := old(posts)[p.value].(status := Active)]
                       else old(posts)
      ensures reactionLog == old(reactionLog) && nextPostId == old(nextPostId)
    {
      var found := FindPostForOrder(posts, order.displayingId);
      if found.None? {
        return;
      }
      if !userKnown {
        return;
      }
      var p := found.value;
      if order.status == OrderActive {
        posts := posts[p := posts[p].(status := Active)];
      }
    }

    /** The post update of `handleOrderClosed`. */
    method HandleOrderClosed(order: FutureOrder, userKnown: bool)
      requires Valid()
      modifies this
      ensures Valid()
      ensures var p := PostOf(old(posts), order.displayingId);
              posts == if p.Some? && userKnown
                       then old(posts)[p.value := ClosedPost(old(posts)[p.value], order)]
                       else old(posts)
      ensures reactionLog == old(reactionLog) && nextPostId == old(nextPostId)
    {
      var found := FindPostForOrder(posts, order.displayingId);
      if found.None? {
        return;
      }
      if !userKnown {
        return;
      }
      var p := found.value;
      posts := posts[p := ClosedPost(posts[p], order)];
    }

    /** `getInvoiceLink`. `freshLink` is the link the payment service
        issues when a new one is needed. */
    method GetInvoiceLink(postId: int, amount: int, resetLink: bool, freshLink: string)
      returns (r: Result<string, PostError>)
      requires Valid()
      modifies this
      ensures Valid()
      ensures postId !in old(posts) ==> r == Err(PostNotFound) && posts == old(posts)
      ensures postId in old(posts) ==>
                var post := old(posts)[postId];
                match StoredInvoiceLink(post.invoiceLinks, amount, resetLink)
                case Some(link) => r == Ok(link) && posts == old(posts)
                case None =>
                  r == Ok(freshLink)
                  && posts == old(posts)[postId := post.(invoiceLinks := post.invoiceLinks[amount := freshLink])]
      ensures reactionLog == old(reactionLog) && nextPostId == old(nextPostId)
    {
      if postId !in posts {
        return Err(PostNotFound);
      }
      var post := posts[postId];
      var stored := StoredInvoiceLink(post.invoiceLinks, amount, resetLink);
      if stored.Some? {
        return Ok(stored.value);
      }
      posts := posts[postId := post.(invoiceLinks := post.invoiceLinks[amount := freshLink])];
      r := Ok(freshLink);
    }
  }

  /** With one post per order, `findOne` finds the post of the order. */
  lemma PostOfUnique(posts: map<int, Post>, orderId: int, p: int)
    requires forall a, b :: a in posts && b in posts && a != b ==> posts[a].orderId != posts[b].orderId
    requires p in posts && posts[p].orderId == orderId
    ensures PostOf(posts, orderId) == Some(p)
  {
  }
}
