/**
 * The feed-polling loop and the ingestion step of internal/executors/aggregate.go.
 *
 * One step takes the next feed from storage, fetches it, marks it fetched, and
 * then, item by item in document order, normalises the publication date and
 * inserts a post. The poll loop runs one step per tick and only reports a
 * step's error.
 *
 * Everything the step cannot see is a field of `Env`, one per step: the
 * network exchange, the XML decoder, the HTML unescaper, the date parser of
 * the Go runtime (`time.Parse`), the clock, the UUID source, and whether each
 * storage query fails for a reason the tables do not decide.
 */
module Aggregate {
  import opened Wrappers
  import Rss
  import opened Database

  /** The layouts of RFC 1123 dates with a numeric and with a named zone, in Go's layout syntax. */
  const RFC1123Z: string := "Mon, 02 Jan 2006 15:04:05 -0700"
  const RFC1123: string := "Mon, 02 Jan 2006 15:04:05 MST"

  /** The layouts tried on a `pubDate`, in this order. */
  const TimeParsingFormats: seq<string> := [RFC1123Z, RFC1123]

  /** What one ingestion step depends on besides the store. */
  datatype Env = Env(
    transport: Rss.Request -> Rss.Exchange,
    decode: seq<Rss.byte> -> Option<Rss.Feed>,
    unescape: string -> string,
    /** `time.Parse(layout, value)`; `None` when the value does not match the layout. */
    parse: (string, string) -> Option<Time>,
    /** The time read just after the fetch. */
    now: Time,
    /** The time read for the item at a given index. */
    clock: nat -> Time,
    /** The post id generated for the item at a given index. */
    newId: nat -> PostId,
    selectFails: bool,
    markFails: bool,
    insertFails: nat -> bool)

  /** Why a step stopped early. */
  datatype ScrapeError =
    | NoNextFeed(dbError: DbError)
    | FetchFailed(fetchError: Rss.FetchError)
    | MarkFailed(markError: DbError)

  /** Why the poll loop refused to start. */
  datatype AggregateError = WrongArgCount(got: nat) | BadInterval(arg: string)

  // ---------------------------------------------------------------------------
  // Publication dates
  // ---------------------------------------------------------------------------

  /** The time `parse` gives `s` under the first layout of `layouts` that accepts it. */
  function FirstParse(layouts: seq<string>, s: string, parse: (string, string) -> Option<Time>): Option<Time>
  {
    if layouts == [] then None
    else match parse(layouts[0], s)
      case Some(t) => Some(t)
      case None => FirstParse(layouts[1..], s, parse)
  }

  /**
   * A date is normalised exactly when some layout accepts it, and then the
   * result is what the earliest accepting layout gives.
   */
  lemma {:induction false} FirstParseIsFirstMatch(layouts: seq<string>, s: string, parse: (string, string) -> Option<Time>)
    ensures FirstParse(layouts, s, parse).None? <==> forall i :: 0 <= i < |layouts| ==> parse(layouts[i], s).None?
    ensures FirstParse(layouts, s, parse).Some? ==>
      exists i :: 0 <= i < |layouts| && FirstParse(layouts, s, parse) == parse(layouts[i], s)
        && forall j :: 0 <= j < i ==> parse(layouts[j], s).None?
  {
    if layouts != [] && parse(layouts[0], s).None? {
      FirstParseIsFirstMatch(layouts[1..], s, parse);
      if FirstParse(layouts, s, parse).Some? {
        var i :| 0 <= i < |layouts| - 1 && FirstParse(layouts[1..], s, parse) == parse(layouts[1..][i], s)
          && forall j :: 0 <= j < i ==> parse(layouts[1..][j], s).None?;
        assert forall j :: 0 <= j < i + 1 ==> parse(layouts[j], s).None? by {
          forall j | 0 <= j < i + 1
            ensures parse(layouts[j], s).None?
          {
            if j > 0 {
              assert layouts[j] == layouts[1..][j - 1];
            }
          }
        }
      }
      assert forall i :: 1 <= i < |layouts| ==> layouts[i] == layouts[1..][i - 1];
    }
  }

  /** RFC1123Z is tried first; RFC1123 decides only when RFC1123Z rejects the date. */
  lemma PubDateLayoutOrder(s: string, parse: (string, string) -> Option<Time>)
    ensures FirstParse(TimeParsingFormats, s, parse)
         == if parse(RFC1123Z, s).Some? then parse(RFC1123Z, s) else parse(RFC1123, s)
  {
    assert TimeParsingFormats[1..] == [RFC1123];
    assert FirstParse([RFC1123], s, parse) == parse(RFC1123, s) by {
      assert [RFC1123][1..] == [];
    }
  }

  /** Tries each layout in turn and stops at the first that parses the date. */
  method NormalizeDate(pubDate: string, parse: (string, string) -> Option<Time>) returns (r: Option<Time>)
    ensures r == FirstParse(TimeParsingFormats, pubDate, parse)
  {
    var formats := TimeParsingFormats;
    r := None;
    var pubDateFormatted := false;
    for i := 0 to |formats|
      invariant !pubDateFormatted && r.None?
      invariant FirstParse(formats, pubDate, parse) == FirstParse(formats[i..], pubDate, parse)
    {
      var t := parse(formats[i], pubDate);
      if t.Some? {
        r := t;
        pubDateFormatted := true;
        break;
      }
      assert formats[i..][1..] == formats[i + 1..];
    }
    if !pubDateFormatted {
      assert formats[|formats|..] == [];
    }
  }

  // ---------------------------------------------------------------------------
  // The item loop
  // ---------------------------------------------------------------------------

  /** The post the step attempts for item `k`, or `None` when its date parses under no layout. */
  function Candidate(id: FeedId, items: seq<Rss.Item>, env: Env, k: nat): Option<Post>
    requires k < |items|
  {
    match FirstParse(TimeParsingFormats, items[k].pubDate, env.parse)
    case None => None
    case Some(publishedAt) =>
      Some(Post(env.newId(k), env.clock(k), env.clock(k),
                items[k].title, items[k].link, items[k].description, id, publishedAt))
  }

  /** The posts table after the item loop has handled `items[k..]`. */
  function IngestFrom(posts: map<PostKey, Post>, id: FeedId, items: seq<Rss.Item>, env: Env, k: nat): map<PostKey, Post>
    requires k <= |items|
    decreases |items| - k
  {
    if k == |items| then posts
    else
      var next := match Candidate(id, items, env, k)
        case None => posts
        case Some(p) => Inserted(posts, p, env.insertFails(k));
      IngestFrom(next, id, items, env, k + 1)
  }

  /** The CreatePost calls the item loop issues for `items[k..]`, in order. */
  function Attempted(id: FeedId, items: seq<Rss.Item>, env: Env, k: nat): seq<Call>
    requires k <= |items|
    decreases |items| - k
  {
    if k == |items| then []
    else
      var here := match Candidate(id, items, env, k)
        case None => []
        case Some(p) => [CreatePostCall(p)];
      here + Attempted(id, items, env, k + 1)
  }

  /** The indices of `items[k..]` whose publication date parses, in increasing order. */
  function Parsed(items: seq<Rss.Item>, parse: (string, string) -> Option<Time>, k: nat): (ix: seq<nat>)
    requires k <= |items|
    ensures forall m :: 0 <= m < |ix| ==> k <= ix[m] < |items|
    ensures forall m, n :: 0 <= m < n < |ix| ==> ix[m] < ix[n]
    ensures forall j :: k <= j < |items| ==>
      (j in ix <==> FirstParse(TimeParsingFormats, items[j].pubDate, parse).Some?)
    decreases |items| - k
  {
    if k == |items| then []
    else
      var here := if FirstParse(TimeParsingFormats, items[k].pubDate, parse).Some? then [k] else [];
      here + Parsed(items, parse, k + 1)
  }

  /**
   * `call` is the CreatePost the step issues for `item` of feed `id`: it carries
   * the feed's id, the item's link, title and description, and the normalised date.
   */
  ghost predicate PostFor(call: Call, id: FeedId, item: Rss.Item, parse: (string, string) -> Option<Time>)
  {
    && call.CreatePostCall?
    && call.post.feedId == id
    && call.post.url == item.link
    && call.post.title == item.title
    && call.post.description == item.description
    && Some(call.post.publishedAt) == FirstParse(TimeParsingFormats, item.pubDate, parse)
  }

  /**
   * The item loop attempts one post per item whose date parses, in document
   * order, skipping exactly the items whose date parses under no layout.
   */
  lemma {:induction false} AttemptedInDocumentOrder(id: FeedId, items: seq<Rss.Item>, env: Env, k: nat)
    requires k <= |items|
    ensures var calls, ix := Attempted(id, items, env, k), Parsed(items, env.parse, k);
      && |calls| == |ix|
      && forall m :: 0 <= m < |calls| ==> PostFor(calls[m], id, items[ix[m]], env.parse)
    decreases |items| - k
  {
    if k < |items| {
      AttemptedInDocumentOrder(id, items, env, k + 1);
      var calls', ix' := Attempted(id, items, env, k + 1), Parsed(items, env.parse, k + 1);
      match Candidate(id, items, env, k)
      case None =>
        UnfoldUnparsed(id, items, env, k);
      case Some(p) =>
        UnfoldParsed(id, items, env, k);
        PrependPostFor(CreatePostCall(p), k, calls', ix', id, items, env.parse);
    }
  }

  /** Attempted and Parsed at an item whose date does not parse. */
  lemma UnfoldUnparsed(id: FeedId, items: seq<Rss.Item>, env: Env, k: nat)
    requires k < |items| && Candidate(id, items, env, k).None?
    ensures Attempted(id, items, env, k) == Attempted(id, items, env, k + 1)
    ensures Parsed(items, env.parse, k) == Parsed(items, env.parse, k + 1)
  {
  }

  /** Attempted and Parsed at an item whose date parses. */
  lemma UnfoldParsed(id: FeedId, items: seq<Rss.Item>, env: Env, k: nat)
    requires k < |items| && Candidate(id, items, env, k).Some?
    ensures Attempted(id, items, env, k) == [CreatePostCall(Candidate(id, items, env, k).value)] + Attempted(id, items, env, k + 1)
    ensures Parsed(items, env.parse, k) == [k] + Parsed(items, env.parse, k + 1)
    ensures PostFor(CreatePostCall(Candidate(id, items, env, k).value), id, items[k], env.parse)
  {
  }

  /** Prepending a matching call and index keeps calls and indices paired. */
  lemma PrependPostFor(c: Call, k: nat, calls: seq<Call>, ix: seq<nat>, id: FeedId, items: seq<Rss.Item>, parse: (string, string) -> Option<Time>)
    requires k < |items| && PostFor(c, id, items[k], parse)
    requires |calls| == |ix| && forall m :: 0 <= m < |ix| ==> ix[m] < |items|
    requires forall m :: 0 <= m < |calls| ==> PostFor(calls[m], id, items[ix[m]], parse)
    ensures var calls2, ix2 := [c] + calls, [k] + ix;
      forall m :: 0 <= m < |calls2| ==> PostFor(calls2[m], id, items[ix2[m]], parse)
  {
    var calls2, ix2 := [c] + calls, [k] + ix;
    forall m | 0 <= m < |calls2|
      ensures PostFor(calls2[m], id, items[ix2[m]], parse)
    {
      if m > 0 {
        assert calls2[m] == calls[m - 1] && ix2[m] == ix[m - 1];
      }
    }
  }

  /** The keys the item loop adds for `items[k..]`: one per item whose date parses and whose insert did not fail. */
  ghost function NewKeys(id: FeedId, items: seq<Rss.Item>, env: Env, k: nat): set<PostKey>
    requires k <= |items|
  {
    set j | k <= j < |items| && Candidate(id, items, env, j).Some? && !env.insertFails(j) :: (id, items[j].link)
  }

  /** The keys after the item loop, and the posts it keeps. */
  lemma {:induction false} IngestKeys(posts: map<PostKey, Post>, id: FeedId, items: seq<Rss.Item>, env: Env, k: nat)
    requires k <= |items|
    ensures var r := IngestFrom(posts, id, items, env, k);
      && r.Keys == posts.Keys + NewKeys(id, items, env, k)
      && (forall key :: key in posts ==> r[key] == posts[key])
      && (Keyed(posts) ==> Keyed(r))
    decreases |items| - k
  {
    if k < |items| {
      var next := match Candidate(id, items, env, k)
        case None => posts
        case Some(p) => Inserted(posts, p, env.insertFails(k));
      IngestKeys(next, id, items, env, k + 1);
      var here := if Candidate(id, items, env, k).Some? && !env.insertFails(k) then {(id, items[k].link)} else {};
      assert next.Keys == posts.Keys + here;
      assert NewKeys(id, items, env, k) == here + NewKeys(id, items, env, k + 1);
    }
  }

  /** The item loop keeps every post already stored. */
  lemma {:induction false} IngestKeeps(posts: map<PostKey, Post>, id: FeedId, items: seq<Rss.Item>, env: Env, k: nat)
    requires k <= |items|
    ensures var r := IngestFrom(posts, id, items, env, k);
      forall key :: key in posts ==> key in r && r[key] == posts[key]
    decreases |items| - k
  {
    if k < |items| {
      var next := match Candidate(id, items, env, k)
        case None => posts
        case Some(p) => Inserted(posts, p, env.insertFails(k));
      IngestKeeps(next, id, items, env, k + 1);
    }
  }

  /**
   * Item `j` of `items[k..]` is the first whose post was inserted under `key`:
   * its date parses, its insert did not fail, `key` is the feed's id and the
   * item's link, and no earlier item with the same link was inserted.
   */
  ghost predicate FirstInsert(id: FeedId, items: seq<Rss.Item>, env: Env, k: nat, j: nat, key: PostKey, p: Post)
  {
    && k <= j < |items|
    && !env.insertFails(j)
    && Candidate(id, items, env, j) == Some(p)
    && key == (id, items[j].link)
    && forall i :: k <= i < j && Candidate(id, items, env, i).Some? && !env.insertFails(i) ==>
         items[i].link != items[j].link
  }

  /** A post the item loop adds is the post built from the first inserted item with that link. */
  lemma {:induction false} IngestStoresFirstInsert(posts: map<PostKey, Post>, id: FeedId, items: seq<Rss.Item>, env: Env, k: nat)
    requires k <= |items|
    ensures var r := IngestFrom(posts, id, items, env, k);
      forall key :: key in r && key !in posts ==> exists j :: FirstInsert(id, items, env, k, j, key, r[key])
    decreases |items| - k
  {
    if k < |items| {
      var r := IngestFrom(posts, id, items, env, k);
      var next := match Candidate(id, items, env, k)
        case None => posts
        case Some(p) => Inserted(posts, p, env.insertFails(k));
      assert r == IngestFrom(next, id, items, env, k + 1);
      IngestStoresFirstInsert(next, id, items, env, k + 1);
      IngestKeeps(next, id, items, env, k + 1);
      forall key | key in r && key !in posts
        ensures exists j :: FirstInsert(id, items, env, k, j, key, r[key])
      {
        if key in next {
          // Added at item k: its insert went through under its own key.
          var p := Candidate(id, items, env, k).value;
          assert key == Key(p) && next[key] == p;
          assert FirstInsert(id, items, env, k, k, key, r[key]);
        } else {
          var j :| FirstInsert(id, items, env, k + 1, j, key, r[key]);
          if Candidate(id, items, env, k).Some? && !env.insertFails(k) {
            assert (id, items[k].link) in next;
          }
          assert FirstInsert(id, items, env, k, j, key, r[key]);
        }
      }
    }
  }

  /**
   * The item loop only adds posts: the keys afterwards are the keys before plus
   * one per item whose date parses and whose insert did not fail; each added
   * post is the one built from the first such item with that link (its title,
   * description and normalised date); a post that was already there (a
   * duplicate) is never replaced; and posts stay filed under their own
   * (feed, link) pair.
   */
  lemma IngestOnlyAdds(posts: map<PostKey, Post>, id: FeedId, items: seq<Rss.Item>, env: Env, k: nat)
    requires k <= |items|
    ensures var r := IngestFrom(posts, id, items, env, k);
      && r.Keys == posts.Keys + NewKeys(id, items, env, k)
      && (forall key :: key in r && key !in posts ==> exists j :: FirstInsert(id, items, env, k, j, key, r[key]))
      && (forall key :: key in posts ==> r[key] == posts[key])
      && (Keyed(posts) ==> Keyed(r))
  {
    IngestKeys(posts, id, items, env, k);
    IngestStoresFirstInsert(posts, id, items, env, k);
  }

  /** When every post the loop would attempt is already stored, the loop changes nothing. */
  lemma {:induction false} IngestOfStoredItemsIsNoOp(posts: map<PostKey, Post>, id: FeedId, items: seq<Rss.Item>, env: Env, k: nat)
    requires k <= |items|
    requires forall j :: k <= j < |items| && Candidate(id, items, env, j).Some? ==> (id, items[j].link) in posts
    ensures IngestFrom(posts, id, items, env, k) == posts
    decreases |items| - k
  {
    if k < |items| {
      if Candidate(id, items, env, k).Some? {
        var p := Candidate(id, items, env, k).value;
        assert Inserted(posts, p, env.insertFails(k)) == posts;
      }
      IngestOfStoredItemsIsNoOp(posts, id, items, env, k + 1);
    }
  }

  /**
   * Re-ingesting an unchanged document adds no posts: after a pass in which no
   * insert failed, a second pass over the same items, with the same date
   * parser, leaves the posts table as it is.
   */
  lemma ReingestAddsNothing(posts: map<PostKey, Post>, id: FeedId, items: seq<Rss.Item>, first: Env, second: Env)
    requires forall j :: 0 <= j < |items| ==> !first.insertFails(j)
    requires forall layout, s :: second.parse(layout, s) == first.parse(layout, s)
    ensures var once := IngestFrom(posts, id, items, first, 0);
      IngestFrom(once, id, items, second, 0) == once
  {
    var once := IngestFrom(posts, id, items, first, 0);
    IngestKeys(posts, id, items, first, 0);
    forall j | 0 <= j < |items| && Candidate(id, items, second, j).Some?
      ensures (id, items[j].link) in once
    {
      assert FirstParse(TimeParsingFormats, items[j].pubDate, second.parse)
          == FirstParse(TimeParsingFormats, items[j].pubDate, first.parse) by {
        PubDateLayoutOrder(items[j].pubDate, second.parse);
        PubDateLayoutOrder(items[j].pubDate, first.parse);
      }
      assert (id, items[j].link) in NewKeys(id, items, first, 0);
    }
    IngestOfStoredItemsIsNoOp(once, id, items, second, 0);
  }

  // ---------------------------------------------------------------------------
  // One ingestion step
  // ---------------------------------------------------------------------------

  /** The outcome and the new store of one ingestion step. */
  ghost function Scrape(db: Db, env: Env): (Outcome<ScrapeError>, Db)
  {
    match Selection(db.feeds, env.selectFails)
    case Failure(e) => (Fail(NoNextFeed(e)), db)
    case Success(feed) =>
      match Rss.FetchOutcome(feed.url, env.transport, env.decode, env.unescape)
      case Failure(e) => (Fail(FetchFailed(e)), db)
      case Success(doc) =>
        var params := MarkFeedFetchedParams(feed.id, Some(env.now), env.now);
        var calls := db.calls + [MarkFeedFetchedCall(params)];
        if env.markFails then (Fail(MarkFailed(Other)), db.(calls := calls))
        else
          var items := doc.channel.items;
          (Pass, Db(Marked(db.feeds, params),
                    IngestFrom(db.posts, feed.id, items, env, 0),
                    calls + Attempted(feed.id, items, env, 0)))
  }

  /** One turn of the item loop, as IngestFrom and Attempted describe it. */
  lemma LoopStep(posts: map<PostKey, Post>, id: FeedId, items: seq<Rss.Item>, env: Env, k: nat)
    requires k < |items|
    ensures Candidate(id, items, env, k).None? ==>
      && IngestFrom(posts, id, items, env, k) == IngestFrom(posts, id, items, env, k + 1)
      && Attempted(id, items, env, k) == Attempted(id, items, env, k + 1)
    ensures Candidate(id, items, env, k).Some? ==>
      var p := Candidate(id, items, env, k).value;
      && IngestFrom(posts, id, items, env, k) == IngestFrom(Inserted(posts, p, env.insertFails(k)), id, items, env, k + 1)
      && Attempted(id, items, env, k) == [CreatePostCall(p)] + Attempted(id, items, env, k + 1)
  {
  }

  /**
   * One turn of the item loop: normalise the date of item `k`; if it parses,
   * insert the item's post, whatever the insert then reports; if not, the item
   * is reported and skipped.
   */
  method InsertItem(q: Queries, id: FeedId, items: seq<Rss.Item>, env: Env, k: nat)
    requires k < |items|
    requires q.Valid()
    modifies q
    ensures q.Valid()
    ensures q.feeds == old(q.feeds)
    ensures Candidate(id, items, env, k).None? ==> q.posts == old(q.posts) && q.calls == old(q.calls)
    ensures Candidate(id, items, env, k).Some? ==>
      var p := Candidate(id, items, env, k).value;
      q.posts == Inserted(old(q.posts), p, env.insertFails(k)) && q.calls == old(q.calls) + [CreatePostCall(p)]
  {
    var item := items[k];
    var pubDate := NormalizeDate(item.pubDate, env.parse);
    if pubDate.None? {
      return;
    }
    var stamp := env.clock(k);
    var post := Post(env.newId(k), stamp, stamp, item.title, item.link, item.description, id, pubDate.value);
    // A Duplicate is the expected outcome for an item seen before; any other
    // error is only reported. Neither stops the loop.
    var _ := q.CreatePost(post, env.insertFails(k));
  }

  /**
   * The item loop of the step: handles the items in document order, skipping
   * items whose date does not parse and carrying on whatever an insert reports.
   */
  method InsertPosts(q: Queries, id: FeedId, items: seq<Rss.Item>, env: Env)
    requires q.Valid()
    modifies q
    ensures q.Valid()
    ensures q.feeds == old(q.feeds)
    ensures q.posts == IngestFrom(old(q.posts), id, items, env, 0)
    ensures q.calls == old(q.calls) + Attempted(id, items, env, 0)
  {
    for k := 0 to |items|
      invariant q.Valid()
      invariant q.feeds == old(q.feeds)
      invariant IngestFrom(q.posts, id, items, env, k) == IngestFrom(old(q.posts), id, items, env, 0)
      invariant q.calls + Attempted(id, items, env, k) == old(q.calls) + Attempted(id, items, env, 0)
    {
      LoopStep(q.posts, id, items, env, k);
      ghost var calls := q.calls;
      InsertItem(q, id, items, env, k);
      assert q.calls + Attempted(id, items, env, k + 1) == calls + Attempted(id, items, env, k);
    }
  }

  /** Runs one ingestion step against the store. */
  method ScrapeFeeds(q: Queries, env: Env) returns (r: Outcome<ScrapeError>)
    requires q.Valid()
    modifies q
    ensures q.Valid()
    ensures (r, q.State()) == Scrape(old(q.State()), env)
  {
    var next := q.GetNextFeedToFetch(env.selectFails);
    if next.Failure? {
      return Fail(NoNextFeed(next.error));
    }
    var feed := next.value;
    var feedDetails := Rss.FetchFeed(feed.url, env.transport, env.decode, env.unescape);
    if feedDetails.Failure? {
      return Fail(FetchFailed(feedDetails.error));
    }
    var timestamp := env.now;
    var params := MarkFeedFetchedParams(feed.id, Some(timestamp), timestamp);
    var markError := q.MarkFeedFetched(params, env.markFails);
    if markError.Some? {
      return Fail(MarkFailed(markError.value));
    }
    InsertPosts(q, feed.id, feedDetails.value.channel.items, env);
    return Pass;
  }

  /** When no feed can be selected, the step fails and the store is unchanged. */
  lemma SelectionFailureChangesNothing(db: Db, env: Env)
    requires Selection(db.feeds, env.selectFails).Failure?
    ensures Scrape(db, env) == (Fail(NoNextFeed(Selection(db.feeds, env.selectFails).error)), db)
  {
  }

  /**
   * When the fetch fails, the step fails with the fetch error and the store is
   * unchanged: the feed keeps its last-fetched value and no post is written.
   */
  lemma FetchFailureChangesNothing(db: Db, env: Env)
    requires Selection(db.feeds, env.selectFails).Success?
    requires var url := Selection(db.feeds, env.selectFails).value.url;
      Rss.FetchOutcome(url, env.transport, env.decode, env.unescape).Failure?
    ensures var url := Selection(db.feeds, env.selectFails).value.url;
      Scrape(db, env) == (Fail(FetchFailed(Rss.FetchOutcome(url, env.transport, env.decode, env.unescape).error)), db)
  {
  }

  /** When marking the feed fails, the step fails and writes no post; only the mark was issued. */
  lemma MarkFailureAddsNoPosts(db: Db, env: Env)
    requires Selection(db.feeds, env.selectFails).Success?
    requires var url := Selection(db.feeds, env.selectFails).value.url;
      Rss.FetchOutcome(url, env.transport, env.decode, env.unescape).Success?
    requires env.markFails
    ensures var id := Selection(db.feeds, env.selectFails).value.id;
      var (r, after) := Scrape(db, env);
      && r == Fail(MarkFailed(Other))
      && after.feeds == db.feeds
      && after.posts == db.posts
      && after.calls == db.calls + [MarkFeedFetchedCall(MarkFeedFetchedParams(id, Some(env.now), env.now))]
  {
  }

  /**
   * Every step only appends to the call history, and what it appends is either
   * nothing or a MarkFeedFetched of the selected feed, valid and set to `now`,
   * followed only by CreatePost calls for that same feed.
   */
  lemma MarkPrecedesEveryPost(db: Db, env: Env)
    ensures var after := Scrape(db, env).1;
      && |db.calls| <= |after.calls|
      && after.calls[..|db.calls|] == db.calls
      && var added := after.calls[|db.calls|..];
      && (added != [] ==>
        && Selection(db.feeds, env.selectFails).Success?
        && added[0] == MarkFeedFetchedCall(MarkFeedFetchedParams(
             Selection(db.feeds, env.selectFails).value.id, Some(env.now), env.now))
        && forall m :: 1 <= m < |added| ==>
             added[m].CreatePostCall? && added[m].post.feedId == added[0].params.id)
  {
    var after := Scrape(db, env).1;
    var next := Selection(db.feeds, env.selectFails);
    if next.Success? {
      var url := next.value.url;
      var fetched := Rss.FetchOutcome(url, env.transport, env.decode, env.unescape);
      if fetched.Success? && !env.markFails {
        var id := next.value.id;
        var items := fetched.value.channel.items;
        var mark := MarkFeedFetchedCall(MarkFeedFetchedParams(id, Some(env.now), env.now));
        AttemptedInDocumentOrder(id, items, env, 0);
        assert after.calls == db.calls + [mark] + Attempted(id, items, env, 0);
        assert after.calls[|db.calls|..] == [mark] + Attempted(id, items, env, 0);
      }
    }
  }

  /**
   * When the selection, the fetch and the mark succeed, the step succeeds
   * whatever the inserts report: the selected feed's last-fetched value is
   * `now` (other feeds are unchanged), and the posts are the old ones, never
   * replaced, plus one per item whose date parses and whose insert did not fail,
   * each built from the first such item with its link.
   */
  lemma SuccessfulStep(db: Db, env: Env)
    requires Selection(db.feeds, env.selectFails).Success?
    requires var url := Selection(db.feeds, env.selectFails).value.url;
      Rss.FetchOutcome(url, env.transport, env.decode, env.unescape).Success?
    requires !env.markFails
    ensures var feed := Selection(db.feeds, env.selectFails).value;
      var items := Rss.FetchOutcome(feed.url, env.transport, env.decode, env.unescape).value.channel.items;
      var (r, after) := Scrape(db, env);
      && r == Pass
      && after.feeds[feed.id].lastFetchedAt == Some(env.now)
      && (forall j :: j in db.feeds && j != feed.id ==> after.feeds[j] == db.feeds[j])
      && after.posts.Keys == db.posts.Keys + NewKeys(feed.id, items, env, 0)
      && (forall key :: key in after.posts && key !in db.posts ==>
            exists j :: FirstInsert(feed.id, items, env, 0, j, key, after.posts[key]))
      && (forall key :: key in db.posts ==> after.posts[key] == db.posts[key])
  {
    var feed := Selection(db.feeds, env.selectFails).value;
    var items := Rss.FetchOutcome(feed.url, env.transport, env.decode, env.unescape).value.channel.items;
    IngestOnlyAdds(db.posts, feed.id, items, env, 0);
  }

  /** A step never removes or replaces a post and keeps every post under its own key. */
  lemma StepOnlyAddsPosts(db: Db, env: Env)
    requires Keyed(db.posts)
    ensures var after := Scrape(db, env).1;
      && Keyed(after.posts)
      && db.posts.Keys <= after.posts.Keys
      && forall key :: key in db.posts ==> after.posts[key] == db.posts[key]
  {
    var next := Selection(db.feeds, env.selectFails);
    if next.Success? {
      var fetched := Rss.FetchOutcome(next.value.url, env.transport, env.decode, env.unescape);
      if fetched.Success? {
        IngestKeys(db.posts, next.value.id, fetched.value.channel.items, env, 0);
      }
    }
  }

  /**
   * After a successful step at a time later than every recorded fetch, the
   * fetched feed is selected after every other feed.
   */
  lemma FetchedFeedGoesLast(db: Db, env: Env)
    requires Selection(db.feeds, env.selectFails).Success?
    requires var url := Selection(db.feeds, env.selectFails).value.url;
      Rss.FetchOutcome(url, env.transport, env.decode, env.unescape).Success?
    requires !env.markFails
    requires forall j :: j in db.feeds && db.feeds[j].lastFetchedAt.Some? ==> db.feeds[j].lastFetchedAt.value < env.now
    ensures var id := Selection(db.feeds, env.selectFails).value.id;
      var feeds := Scrape(db, env).1.feeds;
      forall j :: j in feeds && j != id ==> Precedes(feeds, j, id)
  {
  }

  // ---------------------------------------------------------------------------
  // The poll loop
  // ---------------------------------------------------------------------------

  /** The errors reported and the store reached by one step per tick. */
  ghost function RunTicks(db: Db, ticks: seq<Env>): (r: (seq<Outcome<ScrapeError>>, Db))
    ensures |r.0| == |ticks|
    decreases |ticks|
  {
    if ticks == [] then ([], db)
    else
      var (first, db1) := Scrape(db, ticks[0]);
      var (rest, db2) := RunTicks(db1, ticks[1..]);
      ([first] + rest, db2)
  }

  /**
   * Tick `k` reports exactly the outcome of one step on the store the earlier
   * ticks left; an error at one tick does not stop the later ones.
   */
  lemma {:induction false} EveryTickRunsOneStep(db: Db, ticks: seq<Env>, k: nat)
    requires k < |ticks|
    ensures RunTicks(db, ticks).0[k] == Scrape(RunTicks(db, ticks[..k]).1, ticks[k]).0
    decreases |ticks|
  {
    if k > 0 {
      var db1 := Scrape(db, ticks[0]).1;
      EveryTickRunsOneStep(db1, ticks[1..], k - 1);
      assert ticks[1..][..k - 1] == ticks[..k][1..];
      assert ticks[1..][k - 1] == ticks[k];
    }
  }

  /** Across any number of ticks, posts are only ever added. */
  lemma {:induction false} TicksOnlyAddPosts(db: Db, ticks: seq<Env>)
    requires Keyed(db.posts)
    ensures var after := RunTicks(db, ticks).1;
      && Keyed(after.posts)
      && db.posts.Keys <= after.posts.Keys
      && forall key :: key in db.posts ==> after.posts[key] == db.posts[key]
    decreases |ticks|
  {
    if ticks != [] {
      StepOnlyAddsPosts(db, ticks[0]);
      TicksOnlyAddPosts(Scrape(db, ticks[0]).1, ticks[1..]);
    }
  }

  /**
   * Starts the poll loop: exactly one argument, a duration, is required. With a
   * positive interval, each tick runs one step whose error is only reported;
   * the result lists those reports. With an interval of zero or less the tick
   * source is nil and no step ever runs.
   */
  method Aggregate(q: Queries, args: seq<string>, parseDuration: string -> Option<int>, ticks: seq<Env>)
    returns (r: Result<seq<Outcome<ScrapeError>>, AggregateError>)
    requires q.Valid()
    modifies q
    ensures q.Valid()
    ensures |args| != 1 ==> r == Failure(WrongArgCount(|args|)) && q.State() == old(q.State())
    ensures |args| == 1 && parseDuration(args[0]).None? ==>
      r == Failure(BadInterval(args[0])) && q.State() == old(q.State())
    ensures |args| == 1 && parseDuration(args[0]).Some? && parseDuration(args[0]).value <= 0 ==>
      r == Success([]) && q.State() == old(q.State())
    ensures |args| == 1 && parseDuration(args[0]).Some? && parseDuration(args[0]).value > 0 ==>
      r.Success? && (r.value, q.State()) == RunTicks(old(q.State()), ticks)
  {
    if |args| != 1 {
      return Failure(WrongArgCount(|args|));
    }
    var intervalArg := args[0];
    var interval := parseDuration(intervalArg);
    if interval.None? {
      return Failure(BadInterval(intervalArg));
    }
    if interval.value <= 0 {
      // The tick channel is nil: the loop waits forever and never scrapes.
      return Success([]);
    }
    var reports: seq<Outcome<ScrapeError>> := [];
    for i := 0 to |ticks|
      invariant q.Valid()
      invariant reports + RunTicks(q.State(), ticks[i..]).0 == RunTicks(old(q.State()), ticks).0
      invariant RunTicks(q.State(), ticks[i..]).1 == RunTicks(old(q.State()), ticks).1
    {
      assert ticks[i..][1..] == ticks[i + 1..];
      var err := ScrapeFeeds(q, ticks[i]);
      // A failed step is reported and the loop goes on.
      reports := reports + [err];
    }
    assert ticks[|ticks|..] == [];
    assert reports + [] == reports;
    return Success(reports);
  }
}
