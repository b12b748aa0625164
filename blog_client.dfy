/**
 * The client's view counting (js/blog.js, class `Blog`): the post list, the `globalStats`
 * map from post id to count, and which posts' content is shown.
 *
 * Network answers are inputs: the reply to the increment request (`IncrementReply`), the
 * per-post replies of the count service (`CountReply`) and the fetched table (`Option<seq<Row>>`).
 * The page's protocol is an input too; "file:" selects the offline path. Each operation is a
 * pure transition on the `Client` value, and each method of `Blog` is proved to perform it.
 */
module BlogClient {
  import opened Wrappers
  import opened BlogPosts

  const FileProtocol: string := "file:"

  /** What the online increment request yields, as `incrementViews` sees it. */
  datatype IncrementReply =
    | Counted(views: int)  // `response.ok`, with the body's `views`
    | NotOk                // a non-2xx response with a JSON body
    | Threw                // `fetch` or `response.json()` threw

  /** What one per-post request of `loadGlobalStatsAsync` yields. */
  datatype CountReply =
    | CountValue(value: Option<int>)  // the body's `value` property, if any
    | CountFailed                     // the request, its timeout or its JSON threw

  /** One entry of the `results` list of `loadGlobalStatsAsync`. */
  datatype CountResult = CountResult(id: string, count: int)

  /** The state of a `Blog`: its posts, `globalStats`, and the ids whose content is not hidden. */
  datatype Client = Client(posts: seq<Post>, globalStats: map<string, int>, revealed: set<string>)

  /** What `incrementViews` returns, the `globalStats` it leaves, and the title it sent (None: no request). */
  datatype Incremented = Incremented(views: int, globalStats: map<string, int>, sentTitle: Option<string>)

  /** `posts.find(p => p.id === id)`, as the index of the first post with that id. */
  function FindPost(posts: seq<Post>, id: string): (r: Option<nat>)
    ensures r.Some? ==> r.value < |posts| && posts[r.value].id == id
    ensures r.Some? ==> forall j :: 0 <= j < r.value ==> posts[j].id != id
    ensures r.None? ==> forall j :: 0 <= j < |posts| ==> posts[j].id != id
  {
    if posts == [] then None
    else if posts[0].id == id then Some(0)
    else
      match FindPost(posts[1..], id)
      case None => None
      case Some(k) => Some(k + 1)
  }

  /** `post ? post.views : 0` for the post with that id. */
  function CurrentViews(posts: seq<Post>, id: string): int
  {
    match FindPost(posts, id)
    case Some(k) => posts[k].views
    case None => 0
  }

  /** `post ? post.title : ''` for the post with that id. */
  function TitleFor(posts: seq<Post>, id: string): string
  {
    match FindPost(posts, id)
    case Some(k) => posts[k].title
    case None => ""
  }

  /** `globalStats[id] || 0`. */
  function StatOrZero(stats: map<string, int>, id: string): int
  {
    NumberOr(if id in stats then Some(stats[id]) else None, 0)
  }

  /** Two post lists with the same ids in the same places. */
  ghost predicate SameIds(a: seq<Post>, b: seq<Post>)
  {
    |a| == |b| && forall i :: 0 <= i < |a| ==> a[i].id == b[i].id
  }

  /** Every post differs from its counterpart at most in its views. */
  ghost predicate SameButViews(a: seq<Post>, b: seq<Post>)
  {
    |a| == |b| && forall i :: 0 <= i < |a| ==> a[i] == b[i].(views := a[i].views)
  }

  /** `post.views = v` on the post `find` returns; the list as it is when none has that id. */
  function WithViews(posts: seq<Post>, id: string, v: int): (r: seq<Post>)
    ensures SameButViews(r, posts)
    ensures forall i :: 0 <= i < |posts| && FindPost(posts, id) != Some(i) ==> r[i] == posts[i]
    ensures FindPost(posts, id).Some? ==> r[FindPost(posts, id).value].views == v
  {
    match FindPost(posts, id)
    case Some(k) => posts[k := posts[k].(views := v)]
    case None => posts
  }

  /** `find` gives the same answer on lists with the same ids. */
  lemma FindPostSameIds(a: seq<Post>, b: seq<Post>, id: string)
    requires SameIds(a, b)
    ensures FindPost(a, id) == FindPost(b, id)
  {
  }

  /**
   * `incrementViews(postId)`. Offline (protocol "file:"): `globalStats[postId]` becomes its
   * old value (or 0) plus one and that is returned, every other entry stays, and no request is
   * sent. Online: the request names the post's title (or "" for an unknown id), `globalStats`
   * is untouched, and the result is the server's number, or on failure the post's current
   * views (0 for an unknown id).
   */
  function Increment(c: Client, postId: string, protocol: string, reply: IncrementReply): (r: Incremented)
    ensures protocol == FileProtocol ==>
      && r.sentTitle == None
      && r.views == StatOrZero(c.globalStats, postId) + 1
      && r.globalStats.Keys == c.globalStats.Keys + {postId}
      && r.globalStats[postId] == r.views
      && forall k :: k in c.globalStats && k != postId ==> r.globalStats[k] == c.globalStats[k]
    ensures protocol != FileProtocol ==>
      && r.globalStats == c.globalStats
      && r.sentTitle == Some(TitleFor(c.posts, postId))
      && (reply.Counted? ==> r.views == reply.views)
      && (!reply.Counted? ==> r.views == CurrentViews(c.posts, postId))
  {
    if protocol == FileProtocol then
      var n := StatOrZero(c.globalStats, postId) + 1;
      Incremented(n, c.globalStats[postId := n], None)
    else
      var title := TitleFor(c.posts, postId);
      match reply
      case Counted(v) => Incremented(v, c.globalStats, Some(title))
      case _ => Incremented(CurrentViews(c.posts, postId), c.globalStats, Some(title))
  }

  /**
   * `togglePost(postId)`: a hidden post is revealed and counted once, and the post `find`
   * returns takes the count; a shown post is only hidden.
   */
  function Toggle(c: Client, postId: string, protocol: string, reply: IncrementReply): (r: Client)
    ensures r.revealed == if postId in c.revealed then c.revealed - {postId} else c.revealed + {postId}
    ensures SameButViews(r.posts, c.posts)
  {
    if postId !in c.revealed then
      var inc := Increment(c, postId, protocol, reply);
      Client(WithViews(c.posts, postId, inc.views), inc.globalStats, c.revealed + {postId})
    else
      c.(revealed := c.revealed - {postId})
  }

  /** Hiding a shown post changes neither the posts nor `globalStats`, and counts nothing. */
  lemma HideCountsNothing(c: Client, postId: string, protocol: string, reply: IncrementReply)
    requires postId in c.revealed
    ensures Toggle(c, postId, protocol, reply) == c.(revealed := c.revealed - {postId})
  {
  }

  /**
   * Revealing a hidden post offline counts exactly one view in `globalStats`, shows that
   * count on the post, and leaves every other post and every other count as it was.
   */
  lemma RevealOfflineCountsOnce(c: Client, postId: string, reply: IncrementReply)
    requires postId !in c.revealed
    ensures var r := Toggle(c, postId, FileProtocol, reply);
      && postId in r.revealed
      && r.globalStats[postId] == StatOrZero(c.globalStats, postId) + 1
      && r.globalStats.Keys == c.globalStats.Keys + {postId}
      && (forall k :: k in c.globalStats && k != postId ==> k in r.globalStats && r.globalStats[k] == c.globalStats[k])
      && (forall i :: 0 <= i < |c.posts| && c.posts[i].id != postId ==> r.posts[i] == c.posts[i])
      && (FindPost(c.posts, postId).Some? ==> r.posts[FindPost(c.posts, postId).value].views == r.globalStats[postId])
  {
  }

  /** Revealing a hidden post online with a successful reply shows the server's number on it. */
  lemma RevealOnlineTakesServerCount(c: Client, postId: string, protocol: string, v: int)
    requires postId !in c.revealed && protocol != FileProtocol
    ensures var r := Toggle(c, postId, protocol, Counted(v));
      && r.globalStats == c.globalStats
      && (FindPost(c.posts, postId).Some? ==> r.posts[FindPost(c.posts, postId).value].views == v)
      && (forall i :: 0 <= i < |c.posts| && c.posts[i].id != postId ==> r.posts[i] == c.posts[i])
  {
  }

  /** On a failed online increment the displayed count does not change: the posts stay as they were. */
  lemma RevealOnlineFailureKeepsDisplay(c: Client, postId: string, protocol: string, reply: IncrementReply)
    requires postId !in c.revealed && protocol != FileProtocol && !reply.Counted?
    ensures Toggle(c, postId, protocol, reply) == c.(revealed := c.revealed + {postId})
  {
  }

  /**
   * Every hidden-to-shown transition counts again: offline, reveal, hide and reveal again
   * leaves the post shown and its count two above where it started.
   */
  lemma RevealHideRevealCountsTwice(c: Client, postId: string, reply: IncrementReply)
    requires postId !in c.revealed
    ensures var r := Toggle(Toggle(Toggle(c, postId, FileProtocol, reply), postId, FileProtocol, reply), postId, FileProtocol, reply);
      && postId in r.revealed
      && r.globalStats[postId] == StatOrZero(c.globalStats, postId) + 2
  {
  }

  /** `data.value || 0` for a reply, and 0 when the request failed. */
  function CountOf(reply: CountReply): (n: int)
    ensures reply.CountFailed? || reply.value.None? ==> n == 0
    ensures reply.CountValue? && reply.value.Some? ==> n == reply.value.value
  {
    match reply
    case CountFailed => 0
    case CountValue(v) => NumberOr(v, 0)
  }

  /** `this.posts.map(...)` of `loadGlobalStatsAsync`: one result per post, in order. */
  function CountResults(posts: seq<Post>, replies: seq<CountReply>): (rs: seq<CountResult>)
    requires |replies| == |posts|
    ensures |rs| == |posts|
    ensures forall i :: 0 <= i < |posts| ==> rs[i] == CountResult(posts[i].id, CountOf(replies[i]))
  {
    seq(|posts|, i requires 0 <= i < |posts| => CountResult(posts[i].id, CountOf(replies[i])))
  }

  /** One step of `results.forEach`: record the count, and give it to the post `find` returns. */
  function MergeOne(c: Client, result: CountResult): Client
  {
    Client(WithViews(c.posts, result.id, result.count), c.globalStats[result.id := result.count], c.revealed)
  }

  /** `results.forEach(...)`: the results applied in order. */
  function MergeAll(c: Client, results: seq<CountResult>): (r: Client)
    ensures r.revealed == c.revealed
    ensures SameButViews(r.posts, c.posts)
    ensures r.globalStats.Keys == c.globalStats.Keys + set res | res in results :: res.id
  {
    if results == [] then c
    else
      var last := results[|results| - 1];
      var before := MergeAll(c, results[..|results| - 1]);
      assert results == results[..|results| - 1] + [last];
      MergeOne(before, last)
  }

  /** No two posts share an id. */
  ghost predicate DistinctIds(posts: seq<Post>)
  {
    forall i, j :: 0 <= i < j < |posts| ==> posts[i].id != posts[j].id
  }

  /** With distinct ids, `find` returns the one post that has the id. */
  lemma FindDistinct(posts: seq<Post>, i: nat)
    requires DistinctIds(posts) && i < |posts|
    ensures FindPost(posts, posts[i].id) == Some(i)
  {
  }

  /** The state after merging the first `n` results, when no two posts share an id. */
  lemma {:induction false} MergePrefix(c: Client, results: seq<CountResult>, n: nat)
    requires |results| == |c.posts| && n <= |results| && DistinctIds(c.posts)
    requires forall i :: 0 <= i < |results| ==> results[i].id == c.posts[i].id
    ensures var r := MergeAll(c, results[..n]);
      && (forall i :: 0 <= i < n ==> r.posts[i] == c.posts[i].(views := results[i].count))
      && (forall i :: n <= i < |c.posts| ==> r.posts[i] == c.posts[i])
      && (forall i :: 0 <= i < n ==> r.globalStats[c.posts[i].id] == results[i].count)
      && (forall k :: k in c.globalStats && (forall i :: 0 <= i < n ==> c.posts[i].id != k) ==> r.globalStats[k] == c.globalStats[k])
  {
    if n > 0 {
      MergePrefix(c, results, n - 1);
      var before := MergeAll(c, results[..n - 1]);
      assert results[..n][..n - 1] == results[..n - 1];
      assert results[..n][n - 1] == results[n - 1];
      assert SameIds(before.posts, c.posts);
      FindPostSameIds(before.posts, c.posts, results[n - 1].id);
      FindDistinct(c.posts, n - 1);
    }
  }

  /**
   * `loadGlobalStatsAsync` when no two posts share an id: each post's views and its
   * `globalStats` entry become its own result (0 for a failed or empty reply), and the
   * counts of ids that are not posts stay as they were.
   */
  lemma MergeCountsDistinct(c: Client, replies: seq<CountReply>)
    requires |replies| == |c.posts| && DistinctIds(c.posts)
    ensures var r := MergeAll(c, CountResults(c.posts, replies));
      && |r.posts| == |c.posts|
      && (forall i :: 0 <= i < |c.posts| ==> r.posts[i] == c.posts[i].(views := CountOf(replies[i])))
      && (forall i :: 0 <= i < |c.posts| ==> r.globalStats[c.posts[i].id] == CountOf(replies[i]))
      && (forall k :: k in c.globalStats && FindPost(c.posts, k).None? ==> r.globalStats[k] == c.globalStats[k])
  {
    var results := CountResults(c.posts, replies);
    MergePrefix(c, results, |results|);
    assert results[..|results|] == results;
  }

  /** A blog page's client state. Post objects are only referenced from `posts`, so they are values here. */
  class Blog {
    var posts: seq<Post>
    var globalStats: map<string, int>
    var revealed: set<string>

    function State(): Client
      reads this
    {
      Client(posts, globalStats, revealed)
    }

    /** No posts, no counts, nothing shown. */
    constructor ()
      ensures State() == Client([], map[], {})
    {
      posts := [];
      globalStats := map[];
      revealed := {};
    }

    /** `loadNotionPosts`: a fetched table replaces the posts; a failed fetch leaves them. */
    method LoadNotionPosts(table: Option<seq<Row>>)
      modifies this`posts
      ensures posts == if table.Some? then LoadPosts(table.value) else old(posts)
    {
      if table.Some? {
        posts := LoadPosts(table.value);
      }
    }

    /** `incrementViews(postId)`: returns the new count; `sentTitle` records the title the request carries, if one is sent. */
    method IncrementViews(postId: string, protocol: string, reply: IncrementReply) returns (views: int, ghost sentTitle: Option<string>)
      modifies this`globalStats
      ensures Incremented(views, globalStats, sentTitle) == Increment(old(State()), postId, protocol, reply)
    {
      if protocol == FileProtocol {
        globalStats := globalStats[postId := StatOrZero(globalStats, postId) + 1];
        return globalStats[postId], None;
      }
      var k := FindPost(posts, postId);
      var postTitle := if k.Some? then posts[k.value].title else "";
      sentTitle := Some(postTitle);
      match reply
      case Counted(v) =>
        views := v;
      case _ =>
        views := if k.Some? then posts[k.value].views else 0;
    }

    /** `togglePost(postId)`. */
    method TogglePost(postId: string, protocol: string, reply: IncrementReply)
      modifies this
      ensures State() == Toggle(old(State()), postId, protocol, reply)
    {
      if postId !in revealed {
        revealed := revealed + {postId};
        var newViews, _ := IncrementViews(postId, protocol, reply);
        var k := FindPost(posts, postId);
        if k.Some? {
          posts := posts[k.value := posts[k.value].(views := newViews)];
        }
      } else {
        revealed := revealed - {postId};
      }
    }

    /** `loadGlobalStatsAsync`, given one reply per post. */
    method LoadGlobalStatsAsync(replies: seq<CountReply>)
      requires |replies| == |posts|
      modifies this
      ensures State() == MergeAll(old(State()), CountResults(old(posts), replies))
    {
      var results := CountResults(posts, replies);
      var i := 0;
      while i < |results|
        invariant 0 <= i <= |results|
        invariant State() == MergeAll(old(State()), results[..i])
      {
        var result := results[i];
        assert results[..i + 1][..i] == results[..i];
        assert MergeAll(old(State()), results[..i + 1]) == MergeOne(State(), result);
        globalStats := globalStats[result.id := result.count];
        var k := FindPost(posts, result.id);
        if k.Some? {
          posts := posts[k.value := posts[k.value].(views := result.count)];
        }
        i := i + 1;
      }
      assert results[..i] == results;
    }
  }
}
