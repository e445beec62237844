/**
 * The storage collaborator of the ingestion step: the three queries the step
 * issues (GetNextFeedToFetch, MarkFeedFetched, CreatePost) over a feeds table
 * and a posts table.
 *
 * The SQL behind the queries is not part of this model. What is stated here is
 * the contract the ingestion step relies on: posts are unique per (feed, link)
 * and a second insert of the same pair fails with `Duplicate`; the next feed is
 * the one fetched longest ago, never-fetched feeds first, ties broken by the
 * smaller id. Whether a query fails for another reason (a lost connection, a
 * cancelled context) is not decided by the tables, so each query takes that as
 * a parameter.
 */
module Database {
  import opened Wrappers

  /** Instants, as a count of some fixed unit since an epoch. */
  type Time = int

  /** Feed and post identities (UUIDs in the program). */
  type FeedId = nat
  type PostId = nat

  /** A row of the feeds table, without the columns the ingestion step does not touch. */
  datatype FeedRow = FeedRow(url: string, lastFetchedAt: Option<Time>, updatedAt: Time)

  /** The fields of the feed record GetNextFeedToFetch returns that the step reads. */
  datatype FeedRecord = FeedRecord(id: FeedId, url: string)

  /** The arguments of MarkFeedFetched; `lastFetchedAt` is a nullable timestamp. */
  datatype MarkFeedFetchedParams = MarkFeedFetchedParams(id: FeedId, lastFetchedAt: Option<Time>, updatedAt: Time)

  /** A row of the posts table, which is also the argument of CreatePost. */
  datatype Post = Post(
    id: PostId,
    createdAt: Time,
    updatedAt: Time,
    title: string,
    url: string,
    description: string,
    feedId: FeedId,
    publishedAt: Time)

  /** The pair the posts table keeps unique. */
  type PostKey = (FeedId, string)

  function Key(p: Post): PostKey
  {
    (p.feedId, p.url)
  }

  /** Why a query failed: no row to return, the unique constraint, or anything else. */
  datatype DbError = NoRows | Duplicate | Other

  /** A write the ingestion step issued, in the order issued. */
  datatype Call =
    | MarkFeedFetchedCall(params: MarkFeedFetchedParams)
    | CreatePostCall(post: Post)

  /** The contents of the store: both tables and the writes issued so far. */
  datatype Db = Db(feeds: map<FeedId, FeedRow>, posts: map<PostKey, Post>, calls: seq<Call>)

  /** Every post is filed under its own (feed, link) pair. */
  ghost predicate Keyed(posts: map<PostKey, Post>)
  {
    forall k :: k in posts ==> Key(posts[k]) == k
  }

  /** `x` is a strictly older last-fetched value than `y`; a never-fetched feed is older than any. */
  predicate FetchedEarlier(x: Option<Time>, y: Option<Time>)
  {
    (x.None? && y.Some?) || (x.Some? && y.Some? && x.value < y.value)
  }

  /** Feed `a` comes before feed `b` in the selection order. */
  predicate Precedes(feeds: map<FeedId, FeedRow>, a: FeedId, b: FeedId)
    requires a in feeds && b in feeds
  {
    var x, y := feeds[a].lastFetchedAt, feeds[b].lastFetchedAt;
    FetchedEarlier(x, y) || (x == y && a < b)
  }

  /** `id` is the feed GetNextFeedToFetch returns: it comes before every other feed. */
  ghost predicate IsNext(feeds: map<FeedId, FeedRow>, id: FeedId)
  {
    id in feeds && forall j :: j in feeds && j != id ==> Precedes(feeds, id, j)
  }

  /** The selection order is total and transitive on distinct feeds. */
  lemma PrecedesIsStrictTotal(feeds: map<FeedId, FeedRow>, a: FeedId, b: FeedId, c: FeedId)
    requires a in feeds && b in feeds && c in feeds
    ensures a != b ==> Precedes(feeds, a, b) || Precedes(feeds, b, a)
    ensures !(Precedes(feeds, a, b) && Precedes(feeds, b, a))
    ensures Precedes(feeds, a, b) && Precedes(feeds, b, c) ==> Precedes(feeds, a, c)
  {
  }

  /** A non-empty feeds table has a next feed. */
  lemma {:induction false} NextExists(feeds: map<FeedId, FeedRow>)
    requires feeds != map[]
    ensures exists id :: IsNext(feeds, id)
    decreases |feeds|
  {
    var k :| k in feeds;
    var rest := feeds - {k};
    assert rest.Keys == feeds.Keys - {k};
    if rest == map[] {
      forall j | j in feeds
        ensures j == k
      {
        assert j !in rest.Keys;
      }
      assert IsNext(feeds, k);
    } else {
      assert |rest.Keys| < |feeds.Keys|;
      NextExists(rest);
      var m :| IsNext(rest, m);
      // The order on `rest` is the order on `feeds`.
      forall j | j in rest && j != m
        ensures Precedes(feeds, m, j)
      {
        assert Precedes(rest, m, j);
      }
      if Precedes(feeds, k, m) {
        forall j | j in feeds && j != k
          ensures Precedes(feeds, k, j)
        {
          if j != m {
            PrecedesIsStrictTotal(feeds, k, m, j);
          }
        }
        assert IsNext(feeds, k);
      } else {
        PrecedesIsStrictTotal(feeds, k, m, m);
        assert IsNext(feeds, m);
      }
    }
  }

  /** There is only one next feed. */
  lemma NextIsUnique(feeds: map<FeedId, FeedRow>, a: FeedId, b: FeedId)
    requires IsNext(feeds, a) && IsNext(feeds, b)
    ensures a == b
  {
    if a != b {
      PrecedesIsStrictTotal(feeds, a, b, b);
    }
  }

  /** The next feed of a non-empty feeds table. */
  ghost function Oldest(feeds: map<FeedId, FeedRow>): (id: FeedId)
    requires feeds != map[]
    ensures IsNext(feeds, id)
  {
    NextExists(feeds);
    var id :| IsNext(feeds, id); id
  }

  /**
   * What GetNextFeedToFetch returns: an error when the query fails or there is
   * no feed, otherwise the next feed and its URL.
   */
  ghost function Selection(feeds: map<FeedId, FeedRow>, fails: bool): (r: Result<FeedRecord, DbError>)
    ensures r.Failure? <==> fails || feeds == map[]
    ensures r.Failure? && !fails ==> r.error == NoRows
    ensures r.Success? ==> IsNext(feeds, r.value.id) && r.value.url == feeds[r.value.id].url
  {
    if fails then Failure(Other)
    else if feeds == map[] then Failure(NoRows)
    else var id := Oldest(feeds); Success(FeedRecord(id, feeds[id].url))
  }

  /** The feeds table after a successful MarkFeedFetched. */
  function Marked(feeds: map<FeedId, FeedRow>, params: MarkFeedFetchedParams): (r: map<FeedId, FeedRow>)
    ensures r.Keys == feeds.Keys
    ensures forall j :: j in feeds && j != params.id ==> r[j] == feeds[j]
    ensures params.id in feeds ==>
      r[params.id] == FeedRow(feeds[params.id].url, params.lastFetchedAt, params.updatedAt)
  {
    if params.id in feeds then
      feeds[params.id := feeds[params.id].(lastFetchedAt := params.lastFetchedAt, updatedAt := params.updatedAt)]
    else feeds
  }

  /** The error CreatePost reports, if any. */
  function InsertError(posts: map<PostKey, Post>, p: Post, fails: bool): Option<DbError>
  {
    if fails then Some(Other)
    else if Key(p) in posts then Some(Duplicate)
    else None
  }

  /**
   * The posts table after CreatePost: the post is added under its (feed, link)
   * pair unless the insert failed, and an existing post is never replaced.
   */
  function Inserted(posts: map<PostKey, Post>, p: Post, fails: bool): (r: map<PostKey, Post>)
    ensures r.Keys == posts.Keys + (if fails then {} else {Key(p)})
    ensures forall k :: k in posts ==> r[k] == posts[k]
    ensures !fails && Key(p) !in posts ==> r[Key(p)] == p
    ensures Keyed(posts) ==> Keyed(r)
  {
    if InsertError(posts, p, fails).None? then posts[Key(p) := p] else posts
  }

  /** The two tables, as the queries of the ingestion step see and change them. */
  class Queries {
    var feeds: map<FeedId, FeedRow>
    var posts: map<PostKey, Post>
    /** The writes issued so far, oldest first. */
    ghost var calls: seq<Call>

    ghost predicate Valid()
      reads this
    {
      Keyed(posts)
    }

    ghost function State(): Db
      reads this
    {
      Db(feeds, posts, calls)
    }

    constructor (feeds: map<FeedId, FeedRow>)
      ensures Valid()
      ensures State() == Db(feeds, map[], [])
    {
      this.feeds := feeds;
      posts := map[];
      calls := [];
    }

    /** Returns the feed fetched longest ago (never-fetched first), or an error. */
    method GetNextFeedToFetch(fails: bool) returns (r: Result<FeedRecord, DbError>)
      ensures r == Selection(feeds, fails)
    {
      if fails {
        return Failure(Other);
      }
      if |feeds| == 0 {
        return Failure(NoRows);
      }
      var rest := feeds.Keys;
      var best :| best in rest;
      rest := rest - {best};
      while rest != {}
        invariant rest <= feeds.Keys && best in feeds && best !in rest
        invariant forall j :: j in feeds && j !in rest && j != best ==> Precedes(feeds, best, j)
        decreases rest
      {
        var k :| k in rest;
        if Precedes(feeds, k, best) {
          forall j | j in feeds && j !in rest && j != best
            ensures Precedes(feeds, k, j)
          {
            PrecedesIsStrictTotal(feeds, k, best, j);
          }
          best := k;
        } else {
          PrecedesIsStrictTotal(feeds, k, best, best);
        }
        rest := rest - {k};
      }
      NextIsUnique(feeds, best, Oldest(feeds));
      return Success(FeedRecord(best, feeds[best].url));
    }

    /** Records the fetch time of a feed; a failing query changes no row. */
    method MarkFeedFetched(params: MarkFeedFetchedParams, fails: bool) returns (err: Option<DbError>)
      requires Valid()
      modifies this
      ensures Valid()
      ensures err == (if fails then Some(Other) else None)
      ensures feeds == (if fails then old(feeds) else Marked(old(feeds), params))
      ensures posts == old(posts)
      ensures calls == old(calls) + [MarkFeedFetchedCall(params)]
    {
      calls := calls + [MarkFeedFetchedCall(params)];
      if fails {
        return Some(Other);
      }
      feeds := Marked(feeds, params);
      return None;
    }

    /** Inserts a post; a second post for the same (feed, link) is rejected with Duplicate. */
    method CreatePost(p: Post, fails: bool) returns (err: Option<DbError>)
      requires Valid()
      modifies this
      ensures Valid()
      ensures err == InsertError(old(posts), p, fails)
      ensures posts == Inserted(old(posts), p, fails)
      ensures feeds == old(feeds)
      ensures calls == old(calls) + [CreatePostCall(p)]
    {
      calls := calls + [CreatePostCall(p)];
      err := InsertError(posts, p, fails);
      if err.None? {
        posts := posts[Key(p) := p];
      }
    }
  }
}
