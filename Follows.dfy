// The follow graph of the follows service: follow and unfollow with the
// follower/following counters kept on user records, the paged follow lists,
// and the user search with its keyword sanitising.

module Follows {
  import opened Common
  import Helper

  /** One follow document: `followerId` follows `followingId`. */
  datatype Edge = Edge(followerId: int, followingId: int)

  datatype FollowError = CannotFollowSelf | FollowingUserNotFound

  /** A listed user and whether the caller follows them. */
  datatype Entry = Entry(userId: int, isFollowing: bool)

  /** Number of edges into `u`. */
  ghost function InDegree(edges: set<Edge>, u: int): nat
  {
    |set e | e in edges && e.followingId == u|
  }

  /** Number of edges out of `u`. */
  ghost function OutDegree(edges: set<Edge>, u: int): nat
  {
    |set e | e in edges && e.followerId == u|
  }

  /** Inserting a new edge adds one to the in-degree of its target and to
      the out-degree of its source, and nothing else. */
  lemma InsertEdgeDegrees(edges: set<Edge>, e: Edge, u: int)
    requires e !in edges
    ensures InDegree(edges + {e}, u) == InDegree(edges, u) + (if e.followingId == u then 1 else 0)
    ensures OutDegree(edges + {e}, u) == OutDegree(edges, u) + (if e.followerId == u then 1 else 0)
  {
    var into := set x | x in edges && x.followingId == u;
    var outOf := set x | x in edges && x.followerId == u;
    if e.followingId == u {
      assert (set x | x in edges + {e} && x.followingId == u) == into + {e};
    } else {
      assert (set x | x in edges + {e} && x.followingId == u) == into;
    }
    if e.followerId == u {
      assert (set x | x in edges + {e} && x.followerId == u) == outOf + {e};
    } else {
      assert (set x | x in edges + {e} && x.followerId == u) == outOf;
    }
  }

  /** Deleting an edge takes one from the in-degree of its target and from
      the out-degree of its source, and nothing else. */
  lemma RemoveEdgeDegrees(edges: set<Edge>, e: Edge, u: int)
    requires e in edges
    ensures InDegree(edges - {e}, u) == InDegree(edges, u) - (if e.followingId == u then 1 else 0)
    ensures OutDegree(edges - {e}, u) == OutDegree(edges, u) - (if e.followerId == u then 1 else 0)
  {
    var into := set x | x in edges - {e} && x.followingId == u;
    var outOf := set x | x in edges - {e} && x.followerId == u;
    if e.followingId == u {
      assert (set x | x in edges && x.followingId == u) == into + {e};
    } else {
      assert (set x | x in edges && x.followingId == u) == into;
    }
    if e.followerId == u {
      assert (set x | x in edges && x.followerId == u) == outOf + {e};
    } else {
      assert (set x | x in edges && x.followerId == u) == outOf;
    }
  }

  // ---------------------------------------------------------------------
  // Keyword sanitising

  /** The characters JavaScript's `\s` and `trim` treat as white space. */
  predicate IsSpace(c: char)
  {
    || c == ' ' || c == '\t' || c == '\n' || c == '\U{000B}' || c == '\U{000C}' || c == '\r'
    || c == '\U{00A0}' || c == '\U{1680}' || ('\U{2000}' <= c <= '\U{200A}')
    || c == '\U{2028}' || c == '\U{2029}' || c == '\U{202F}' || c == '\U{205F}'
    || c == '\U{3000}' || c == '\U{FEFF}'
  }

  /** The characters a search keyword keeps: ASCII letters and digits,
      white space and '_'. */
  predicate Allowed(c: char)
  {
    ('a' <= c <= 'z') || ('A' <= c <= 'Z') || ('0' <= c <= '9') || IsSpace(c) || c == '_'
  }

  /** Drops leading white space. */
  function TrimStart(s: string): (r: string)
    ensures |r| <= |s| && r == s[|s| - |r|..]
    ensures r == [] || !IsSpace(r[0])
    ensures forall i :: 0 <= i < |s| - |r| ==> IsSpace(s[i])
  {
    if s != [] && IsSpace(s[0]) then TrimStart(s[1..]) else s
  }

  /** Drops trailing white space. */
  function TrimEnd(s: string): (r: string)
    ensures |r| <= |s| && r == s[..|r|]
    ensures r == [] || !IsSpace(r[|r| - 1])
    ensures forall i :: |r| <= i < |s| ==> IsSpace(s[i])
  {
    if s != [] && IsSpace(s[|s| - 1]) then TrimEnd(s[..|s| - 1]) else s
  }

  /** JavaScript's `String.prototype.trim`. */
  function Trim(s: string): string
  {
    TrimEnd(TrimStart(s))
  }

  /** The keyword cleaning of `searchUser`: remove every character that is
      not allowed, then trim. */
  function SanitizeKeyword(keyword: string): (r: string)
    ensures forall i :: 0 <= i < |r| ==> Allowed(r[i])
    ensures r == [] || (!IsSpace(r[0]) && !IsSpace(r[|r| - 1]))
  {
    var stripped := Filter(keyword, Allowed);
    var r := Trim(stripped);
    assert forall i :: 0 <= i < |r| ==> r[i] in stripped by {
      forall i | 0 <= i < |r|
        ensures r[i] in stripped
      {
        var t := TrimStart(stripped);
        assert r[i] == t[i];
        assert t[i] == stripped[|stripped| - |t| + i];
      }
    }
    r
  }

  /** Cleaning a cleaned keyword changes nothing. */
  lemma SanitizeIdempotent(keyword: string)
    ensures SanitizeKeyword(SanitizeKeyword(keyword)) == SanitizeKeyword(keyword)
  {
    var k := SanitizeKeyword(keyword);
    FilterKeepsAll(k, Allowed);
  }

  /** Every allowed character of the keyword except the surrounding white
      space survives cleaning: a keyword of allowed characters with no
      surrounding white space is kept as is. */
  lemma SanitizeKeepsCleanKeyword(keyword: string)
    requires forall i :: 0 <= i < |keyword| ==> Allowed(keyword[i])
    requires keyword == [] || (!IsSpace(keyword[0]) && !IsSpace(keyword[|keyword| - 1]))
    ensures SanitizeKeyword(keyword) == keyword
  {
    FilterKeepsAll(keyword, Allowed);
  }

  // ---------------------------------------------------------------------
  // Paged lists

  /** The page assembly of the follow lists: `fetched` holds the ids of the
      `limit + 1` follow documents read from the store; the first `limit`
      of them are listed, skipping ids with no user record, in order, and
      there are more exactly when more than `limit` were fetched. */
  method PageIds(fetched: seq<int>, limit: nat, known: set<int>) returns (ids: seq<int>, hasMore: bool)
    ensures hasMore <==> |fetched| > limit
    ensures ids == KnownOnly(fetched[..if |fetched| < limit then |fetched| else limit], known)
  {
    var listIds := fetched[..if |fetched| < limit then |fetched| else limit];
    ids := [];
    for i := 0 to |listIds|
      invariant ids == KnownOnly(listIds[..i], known)
    {
      assert listIds[..i + 1][..i] == listIds[..i];
      if listIds[i] !in known {
        continue;
      }
      ids := ids + [listIds[i]];
    }
    assert listIds[..|listIds|] == listIds;
    hasMore := |fetched| > limit;
  }

  /** A page lists at most `limit` users, each with a user record and each
      among the fetched ids. */
  lemma PageBounds(fetched: seq<int>, limit: nat, known: set<int>)
    ensures var ids := KnownOnly(fetched[..if |fetched| < limit then |fetched| else limit], known);
            && |ids| <= limit
            && (forall x :: x in ids <==> x in fetched[..if |fetched| < limit then |fetched| else limit] && x in known)
  {
    FilterMembers(fetched[..if |fetched| < limit then |fetched| else limit], (x: int) => x in known);
  }

  /** Marks each listed id with whether it is in `followed`. */
  function Flag(ids: seq<int>, followed: set<int>): (r: seq<Entry>)
    ensures |r| == |ids|
    ensures forall i :: 0 <= i < |r| ==> r[i].userId == ids[i] && (r[i].isFollowing <==> ids[i] in followed)
  {
    if ids == [] then [] else [Entry(ids[0], ids[0] in followed)] + Flag(ids[1..], followed)
  }

  // ---------------------------------------------------------------------
  // The store

  class FollowGraph {
    /** Ids of the stored users. */
    const users: set<int>
    var edges: set<Edge>
    /** The `followers` and `following` counters of the user records. */
    var followers: map<int, int>
    var following: map<int, int>

    /** Each stored user's counters equal their in- and out-degree. */
    ghost predicate Valid()
      reads this
    {
      && followers.Keys == users && following.Keys == users
      && (forall u :: u in users ==> followers[u] == InDegree(edges, u))
      && (forall u :: u in users ==> following[u] == OutDegree(edges, u))
    }

    constructor (users: set<int>)
      ensures Valid()
      ensures this.users == users && edges == {}
      ensures followers == (map u | u in users :: 0) && following == (map u | u in users :: 0)
    {
      this.users := users;
      edges := {};
      followers := map u | u in users :: 0;
      following := map u | u in users :: 0;
      new;
      forall u | u in users
        ensures InDegree({}, u) == 0 && OutDegree({}, u) == 0
      {
        assert (set e: Edge | e in {} && e.followingId == u) == {};
        assert (set e: Edge | e in {} && e.followerId == u) == {};
      }
    }

    /** `follow`: the edge is upserted; the counters move only when it is
        new, and a counter of a user with no record is not there to move. */
    method Follow(followerId: int, followingId: int) returns (r: Result<bool, FollowError>)
      requires Valid()
      modifies this
      ensures Valid()
      ensures followerId == followingId ==> r == Err(CannotFollowSelf)
      ensures followerId != followingId && followingId !in users ==> r == Err(FollowingUserNotFound)
      ensures r.Err? || (r.Ok? && !r.value) ==>
                edges == old(edges) && followers == old(followers) && following == old(following)
      ensures followerId != followingId && followingId in users ==>
                && r == Ok(Edge(followerId, followingId) !in old(edges))
                && edges == old(edges) + {Edge(followerId, followingId)}
      ensures r == Ok(true) ==>
                && followers == old(followers)[followingId := old(followers)[followingId] + 1]
                && following == if followerId in users
                                then old(following)[followerId := old(following)[followerId] + 1]
                                else old(following)
    {
      if followerId == followingId {
        return Err(CannotFollowSelf);
      }
      if followingId !in users {
        return Err(FollowingUserNotFound);
      }
      var e := Edge(followerId, followingId);
      if e in edges {
        return Ok(false);
      }
      ghost var before := edges;
      forall u | u in users
        ensures InDegree(before + {e}, u) == InDegree(before, u) + (if followingId == u then 1 else 0)
        ensures OutDegree(before + {e}, u) == OutDegree(before, u) + (if followerId == u then 1 else 0)
      {
        InsertEdgeDegrees(before, e, u);
      }
      edges := edges + {e};
      followers := followers[followingId := followers[followingId] + 1];
      if followerId in users {
        following := following[followerId := following[followerId] + 1];
      }
      r := Ok(true);
    }

    /** `unfollow`: the counters move only when an edge was deleted. */
    method Unfollow(followerId: int, followingId: int) returns (deleted: bool)
      requires Valid()
      modifies this
      ensures Valid()
      ensures deleted <==> Edge(followerId, followingId) in old(edges)
      ensures edges == old(edges) - {Edge(followerId, followingId)}
      ensures !deleted ==> followers == old(followers) && following == old(following)
      ensures deleted ==>
                && followers == (if followingId in users
                                 then old(followers)[followingId := old(followers)[followingId] - 1]
                                 else old(followers))
                && following == (if followerId in users
                                 then old(following)[followerId := old(following)[followerId] - 1]
                                 else old(following))
    {
      var e := Edge(followerId, followingId);
      if e !in edges {
        return false;
      }
      ghost var before := edges;
      forall u | u in users
        ensures InDegree(before - {e}, u) == InDegree(before, u) - (if followingId == u then 1 else 0)
        ensures OutDegree(before - {e}, u) == OutDegree(before, u) - (if followerId == u then 1 else 0)
      {
        RemoveEdgeDegrees(before, e, u);
      }
      edges := edges - {e};
      if followingId in users {
        followers := followers[followingId := followers[followingId] - 1];
      }
      if followerId in users {
        following := following[followerId := following[followerId] - 1];
      }
      deleted := true;
    }

    /** The ids `callerId` follows. */
    function FollowedBy(callerId: int): (r: set<int>)
      reads this
      ensures forall x :: x in r <==> Edge(callerId, x) in edges
    {
      set e | e in edges && e.followerId == callerId :: e.followingId
    }

    /** `getListUserFollowing` / `getListUserFollower`: one page of ids
        (the followings or followers read from the store), each marked with
        whether the caller follows it. */
    method ListPage(callerId: int, fetched: seq<int>, limit: nat) returns (data: seq<Entry>, hasMore: bool)
      ensures hasMore <==> |fetched| > limit
      ensures |data| <= limit
      ensures forall i :: 0 <= i < |data| ==>
                && data[i].userId in users && data[i].userId in fetched
                && (data[i].isFollowing <==> Edge(callerId, data[i].userId) in edges)
      ensures forall i :: 0 <= i < |fetched| && i < limit && fetched[i] in users ==>
                exists j :: 0 <= j < |data| && data[j].userId == fetched[i]
      ensures data == Flag(KnownOnly(fetched[..if |fetched| < limit then |fetched| else limit], users),
                           FollowedBy(callerId))
    {
      var ids;
      ids, hasMore := PageIds(fetched, limit, users);
      PageBounds(fetched, limit, users);
      data := Flag(ids, FollowedBy(callerId));
      forall i | 0 <= i < |fetched| && i < limit && fetched[i] in users
        ensures exists j :: 0 <= j < |data| && data[j].userId == fetched[i]
      {
        var page := fetched[..if |fetched| < limit then |fetched| else limit];
        assert fetched[i] == page[i];
        var j :| 0 <= j < |ids| && ids[j] == fetched[i];
        assert data[j].userId == fetched[i];
      }
    }

    /** `searchUser`: `hits` are the ids the search index returned for the
        cleaned keyword. An empty keyword searches nothing. Each hit with a
        user record is listed once, marked as followed when the caller
        follows it or it is the caller. */
    method SearchUser(userId: int, keyword: string, hits: seq<int>) returns (data: seq<Entry>)
      ensures SanitizeKeyword(keyword) == [] ==> data == []
      ensures SanitizeKeyword(keyword) != [] ==>
                && (forall x :: (exists i :: 0 <= i < |data| && data[i].userId == x) <==> x in hits && x in users)
                && (forall i, j :: 0 <= i < j < |data| ==> data[i].userId != data[j].userId)
                && (forall i :: 0 <= i < |data| ==>
                      (data[i].isFollowing <==> Edge(userId, data[i].userId) in edges || data[i].userId == userId))
    {
      data := [];
      var cleaned := SanitizeKeyword(keyword);
      if cleaned == [] {
        return;
      }
      data := SearchListing(hits, users, FollowedBy(userId) + {userId});
    }
  }

  /** The ids of `s` that have a user record, in order. */
  function KnownOnly(s: seq<int>, known: set<int>): (r: seq<int>)
    ensures |r| <= |s|
  {
    Filter(s, (x: int) => x in known)
  }

  /** The stored users among the search hits: each once, and exactly the
      hits that have a user record. */
  lemma SearchHitsFacts(hits: seq<int>, known: set<int>)
    ensures var found := KnownOnly(Helper.Uniq(hits), known);
            && Helper.NoDuplicates(found)
            && forall x :: x in found <==> x in hits && x in known
  {
    var unique := Helper.Uniq(hits);
    FilterMembers(unique, (x: int) => x in known);
    FilterIsSubsequence(unique, (x: int) => x in known);
    SubsequenceKeepsDistinct(KnownOnly(unique, known), unique);
  }

  /** The search result list: each hit with a user record once, in hit
      order, marked with whether it is in `followed`. */
  function SearchListing(hits: seq<int>, known: set<int>, followed: set<int>): (data: seq<Entry>)
    ensures forall x :: (exists i :: 0 <= i < |data| && data[i].userId == x) <==> x in hits && x in known
    ensures forall i, j :: 0 <= i < j < |data| ==> data[i].userId != data[j].userId
    ensures forall i :: 0 <= i < |data| ==> (data[i].isFollowing <==> data[i].userId in followed)
  {
    var found := KnownOnly(Helper.Uniq(hits), known);
    SearchHitsFacts(hits, known);
    FlagListsEachOnce(found, followed);
    Flag(found, followed)
  }

  /** `data` lists exactly the ids `ids`, each once. */
  ghost predicate ListsEachOnce(data: seq<Entry>, ids: seq<int>)
  {
    && (forall x :: (exists i :: 0 <= i < |data| && data[i].userId == x) <==> x in ids)
    && (forall i, j :: 0 <= i < j < |data| ==> data[i].userId != data[j].userId)
  }

  /** Flagging a list without repeats lists each of its ids exactly once. */
  lemma FlagListsEachOnce(ids: seq<int>, followed: set<int>)
    requires Helper.NoDuplicates(ids)
    ensures ListsEachOnce(Flag(ids, followed), ids)
  {
    var data := Flag(ids, followed);
    forall x | x in ids
      ensures exists i :: 0 <= i < |data| && data[i].userId == x
    {
      var i :| 0 <= i < |ids| && ids[i] == x;
      assert data[i].userId == x;
    }
  }

  /** An in-order sublist of a list without repeats has no repeats. */
  lemma SubsequenceKeepsDistinct(sub: seq<int>, s: seq<int>)
    requires IsSubsequence(sub, s)
    requires Helper.NoDuplicates(s)
    ensures Helper.NoDuplicates(sub)
  {
    var idx: seq<nat> :| Embeds(sub, s, idx);
    forall i, j | 0 <= i < j < |sub|
      ensures sub[i] != sub[j]
    {
      assert idx[i] < idx[j];
    }
  }
}
