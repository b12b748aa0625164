/**
 * The client and the server together. Online, `incrementViews` (js/blog.js) sends
 * `action=increment&postTitle=<title>`, while the handler (api/views.js) addresses pages by
 * `postId` only. Both sides are kept as written, so the handler never finds a page for the
 * client's request: it answers 500, nothing is written, and the client falls back to the
 * count it already shows.
 */
module Protocol {
  import opened Wrappers
  import opened ViewsApi
  import opened BlogClient

  /** The query of the online increment request for a post title. */
  function ClientIncrementRequest(title: string): (req: Request)
    ensures RouteOf(req) == IncrementRoute(None)
  {
    var req := Request("GET", map["action" := "increment", "postTitle" := title]);
    assert "postId" !in req.query;
    req
  }

  /**
   * How `incrementViews` reads a response: a 2xx with a views number is a count; a non-2xx
   * with a JSON body is "not ok"; a response without a body makes `response.json()` throw.
   */
  function AsReply(resp: Response): (r: IncrementReply)
    ensures 200 <= resp.status < 300 && resp.body.ViewsBody? ==> r == Counted(resp.body.views)
    ensures !(200 <= resp.status < 300) && !resp.body.NoBody? ==> r == NotOk
    ensures resp.body.NoBody? ==> r == Threw
  {
    if 200 <= resp.status < 300 then
      if resp.body.ViewsBody? then Counted(resp.body.views) else Threw
    else if resp.body.NoBody? then Threw
    else NotOk
  }

  /** The handler answers the client's increment request with 500 and writes nothing, whatever the store holds. */
  method ServeClientIncrement(store: PageStore, title: string, faults: StoreFaults) returns (resp: Response)
    modifies store
    ensures resp == ServerError && AsReply(resp) == NotOk
    ensures store.pages == old(store.pages)
  {
    resp := Handler(store, ClientIncrementRequest(title), faults);
  }

  /**
   * An online reveal served by the handler: the client sends the request for the post's
   * title, the handler answers it, and the client reads the answer. The store is unchanged
   * and so is every post's displayed count; only the post's visibility changes.
   */
  method OnlineReveal(blog: Blog, store: PageStore, postId: string, protocol: string, faults: StoreFaults)
    requires protocol != FileProtocol && postId !in blog.revealed
    modifies blog, store
    ensures store.pages == old(store.pages)
    ensures blog.State() == old(blog.State()).(revealed := old(blog.revealed) + {postId})
  {
    var resp := ServeClientIncrement(store, TitleFor(blog.posts, postId), faults);
    var reply := AsReply(resp);
    RevealOnlineFailureKeepsDisplay(blog.State(), postId, protocol, reply);
    blog.TogglePost(postId, protocol, reply);
  }
}
