/**
 * The serverless view counter (api/views.js): one request handler over a document store
 * that keeps, for each page, an optional `views` number property.
 *
 * The store is a class whose `Retrieve` and `Update` are separate steps, as the two awaited
 * calls of the handler are; how each call fails is an input (`StoreFaults`). Response
 * selection (`RouteOf`) is pure.
 */
module ViewsApi {
  import opened Wrappers

  /** A request as the handler sees it: its HTTP method and its parsed query string. */
  datatype Request = Request(httpMethod: string, query: map<string, string>)

  datatype Body = NoBody | ViewsBody(views: int) | ErrorBody(error: string)

  datatype Response = Response(status: int, body: Body)

  /**
   * How the store's update call ends. `Refused` stands for any refusal by the store before it
   * writes: a transport or authorisation failure, or a database whose pages have no `views`
   * number property. `ReplyLost` is a throw after the store has applied the write, as when the
   * reply times out or never arrives.
   */
  datatype UpdateOutcome = Acknowledged | Refused | ReplyLost

  /** Whether the retrieve call fails for reasons other than the page id, and how the update call ends. */
  datatype StoreFaults = StoreFaults(retrieveFails: bool, update: UpdateOutcome)

  const NoFaults := StoreFaults(false, Acknowledged)

  const InvalidActionMessage: string := "Invalid action. Use \"get\" or \"increment\""
  const InternalErrorMessage: string := "Internal server error"

  const ServerError := Response(500, ErrorBody(InternalErrorMessage))

  /** What the handler does with a request, decided before the store is touched. */
  datatype Route =
    | Preflight
    | GetRoute(pageId: Option<string>)
    | IncrementRoute(pageId: Option<string>)
    | BadAction

  /** A query parameter, or None when the query string does not carry it. */
  function Param(req: Request, name: string): Option<string>
  {
    if name in req.query then Some(req.query[name]) else None
  }

  /**
   * Dispatch on the request: an OPTIONS preflight first, whatever the query; then the
   * `action` parameter compared exactly with "get" and "increment"; anything else, a missing
   * action included, is a bad action. Only `postId` addresses a page.
   */
  function RouteOf(req: Request): (r: Route)
    ensures r.Preflight? <==> req.httpMethod == "OPTIONS"
    ensures r.GetRoute? <==> req.httpMethod != "OPTIONS" && "action" in req.query && req.query["action"] == "get"
    ensures r.IncrementRoute? <==> req.httpMethod != "OPTIONS" && "action" in req.query && req.query["action"] == "increment"
    ensures (r.GetRoute? || r.IncrementRoute?) ==> (r.pageId.Some? <==> "postId" in req.query)
    ensures (r.GetRoute? || r.IncrementRoute?) && r.pageId.Some? ==> r.pageId.value == req.query["postId"]
  {
    if req.httpMethod == "OPTIONS" then Preflight
    else
      var action, postId := Param(req, "action"), Param(req, "postId");
      if action == Some("get") then GetRoute(postId)
      else if action == Some("increment") then IncrementRoute(postId)
      else BadAction
  }

  /** Only `action` and `postId` are read from the query: any other parameter, `postTitle` included, changes nothing. */
  lemma OtherParamsIgnored(req: Request, name: string, value: string)
    requires name != "action" && name != "postId"
    ensures RouteOf(Request(req.httpMethod, req.query[name := value])) == RouteOf(req)
  {
  }

  /**
   * `page.properties.views?.number || 0`: the stored number, or 0 when the property is unset
   * or falsy. On integers the `|| 0` only maps 0 to 0, so a set number is returned as it is.
   */
  function StoredViews(number: Option<int>): (n: int)
    ensures number.None? ==> n == 0
    ensures number.Some? ==> n == number.value
  {
    match number
    case None => 0
    case Some(v) => if v != 0 then v else 0
  }

  /** The views a retrieve of `pageId` reads, or None when the retrieve throws. */
  function ReadViews(pages: map<string, Option<int>>, pageId: Option<string>, fails: bool): Option<int>
  {
    if !fails && pageId.Some? && pageId.value in pages then Some(StoredViews(pages[pageId.value])) else None
  }

  /** The document store: page id to the page's `views` number property (None when unset). */
  class PageStore {
    var pages: map<string, Option<int>>

    constructor (initial: map<string, Option<int>>)
      ensures pages == initial
    {
      pages := initial;
    }

    /**
     * `pages.retrieve`: the page's views property. It throws (None) when no id is given,
     * when no page has that id, or on a transport failure.
     */
    method Retrieve(pageId: Option<string>, fails: bool) returns (r: Option<Option<int>>)
      ensures r.Some? <==> !fails && pageId.Some? && pageId.value in pages
      ensures r.Some? ==> r.value == pages[pageId.value]
    {
      if fails || pageId.None? || pageId.value !in pages {
        return None;
      }
      return Some(pages[pageId.value]);
    }

    /**
     * `pages.update`: sets the page's views number. An unknown page or a refusal writes
     * nothing; a lost reply throws although the write has landed. It returns without
     * throwing only when the write is acknowledged.
     */
    method Update(pageId: string, number: int, outcome: UpdateOutcome) returns (ok: bool)
      modifies this
      ensures ok <==> outcome == Acknowledged && pageId in old(pages)
      ensures pages == if outcome != Refused && pageId in old(pages) then old(pages)[pageId := Some(number)] else old(pages)
    {
      if outcome == Refused || pageId !in pages {
        return false;
      }
      pages := pages[pageId := Some(number)];
      return outcome == Acknowledged;
    }
  }

  /**
   * The increment path up to its first await: retrieve the page and compute `current + 1`,
   * `current` defaulting to 0. None when the retrieve throws; nothing is written.
   */
  method IncrementRead(store: PageStore, pageId: Option<string>, fails: bool) returns (newViews: Option<int>)
    ensures newViews.Some? <==> !fails && pageId.Some? && pageId.value in store.pages
    ensures newViews.Some? ==> newViews.value == StoredViews(store.pages[pageId.value]) + 1
  {
    var page := store.Retrieve(pageId, fails);
    if page.None? {
      return None;
    }
    var currentViews := StoredViews(page.value);
    return Some(currentViews + 1);
  }

  /**
   * The increment path after the retrieve: write `newViews` back and answer with exactly that
   * value. Any throw of the update is a 500, including one after the write has landed.
   */
  method IncrementWrite(store: PageStore, pageId: string, newViews: int, outcome: UpdateOutcome) returns (resp: Response)
    modifies store
    ensures resp == if outcome == Acknowledged && pageId in old(store.pages) then Response(200, ViewsBody(newViews)) else ServerError
    ensures store.pages == if outcome != Refused && pageId in old(store.pages) then old(store.pages)[pageId := Some(newViews)] else old(store.pages)
  {
    var ok := store.Update(pageId, newViews, outcome);
    if !ok {
      return ServerError;
    }
    return Response(200, ViewsBody(newViews));
  }

  /**
   * The request handler. Preflight: 200 with no body. `get`: 200 with the stored views (0 when
   * unset). `increment`: read, add one, write back to the same page, answer with the written
   * value. Other actions: 400. Any store failure: 500, with the increment's write in place
   * when only the update's reply was lost. Only `increment` writes, and only to the addressed
   * page.
   */
  method Handler(store: PageStore, req: Request, faults: StoreFaults) returns (resp: Response)
    modifies store
    ensures RouteOf(req).Preflight? ==> resp == Response(200, NoBody) && store.pages == old(store.pages)
    ensures RouteOf(req).BadAction? ==> resp == Response(400, ErrorBody(InvalidActionMessage)) && store.pages == old(store.pages)
    ensures RouteOf(req).GetRoute? ==>
      store.pages == old(store.pages) &&
      match ReadViews(old(store.pages), RouteOf(req).pageId, faults.retrieveFails)
      case None => resp == ServerError
      case Some(v) => resp == Response(200, ViewsBody(v))
    ensures RouteOf(req).IncrementRoute? ==>
      match ReadViews(old(store.pages), RouteOf(req).pageId, faults.retrieveFails)
      case None => resp == ServerError && store.pages == old(store.pages)
      case Some(v) =>
        match faults.update
        case Acknowledged =>
          resp == Response(200, ViewsBody(v + 1)) &&
          store.pages == old(store.pages)[RouteOf(req).pageId.value := Some(v + 1)]
        case Refused => resp == ServerError && store.pages == old(store.pages)
        case ReplyLost =>
          resp == ServerError &&
          store.pages == old(store.pages)[RouteOf(req).pageId.value := Some(v + 1)]
  {
    match RouteOf(req)
    case Preflight =>
      return Response(200, NoBody);
    case GetRoute(postId) =>
      var page := store.Retrieve(postId, faults.retrieveFails);
      if page.None? {
        return ServerError;
      }
      var views := StoredViews(page.value);
      return Response(200, ViewsBody(views));
    case IncrementRoute(postId) =>
      var newViews := IncrementRead(store, postId, faults.retrieveFails);
      if newViews.None? {
        return ServerError;
      }
      resp := IncrementWrite(store, postId.value, newViews.value, faults.update);
    case BadAction =>
      return Response(400, ErrorBody(InvalidActionMessage));
  }

  /** An `increment` request for one page, as a client addressing the page by id sends it. */
  function IncrementById(pageId: string): (req: Request)
    ensures RouteOf(req) == IncrementRoute(Some(pageId))
  {
    Request("GET", map["action" := "increment", "postId" := pageId])
  }

  /**
   * Two increments of one page run one after the other: the second reads what the first
   * wrote, so no update is lost and the page ends two above where it started.
   */
  method SequentialIncrements(store: PageStore, pageId: string) returns (first: Response, second: Response)
    requires pageId in store.pages
    modifies store
    ensures first == Response(200, ViewsBody(StoredViews(old(store.pages[pageId])) + 1))
    ensures second == Response(200, ViewsBody(StoredViews(old(store.pages[pageId])) + 2))
    ensures store.pages == old(store.pages)[pageId := Some(StoredViews(old(store.pages[pageId])) + 2)]
  {
    first := Handler(store, IncrementById(pageId), NoFaults);
    second := Handler(store, IncrementById(pageId), NoFaults);
  }

  /**
   * Two increments of one page interleaved at their await points: both retrieves happen
   * before either update. Both read the same value, both write and answer its successor,
   * and one of the two views is lost.
   */
  method InterleavedIncrements(store: PageStore, pageId: string) returns (first: Response, second: Response)
    requires pageId in store.pages
    modifies store
    ensures first == second == Response(200, ViewsBody(StoredViews(old(store.pages[pageId])) + 1))
    ensures store.pages == old(store.pages)[pageId := Some(StoredViews(old(store.pages[pageId])) + 1)]
  {
    var readFirst := IncrementRead(store, Some(pageId), false);
    var readSecond := IncrementRead(store, Some(pageId), false);
    first := IncrementWrite(store, pageId, readFirst.value, Acknowledged);
    second := IncrementWrite(store, pageId, readSecond.value, Acknowledged);
  }

  /**
   * An increment whose update reply is lost: the caller is told 500, yet the page has
   * already been counted.
   */
  method LostReplyIncrement(store: PageStore, pageId: string) returns (resp: Response)
    requires pageId in store.pages
    modifies store
    ensures resp == ServerError
    ensures store.pages == old(store.pages)[pageId := Some(StoredViews(old(store.pages[pageId])) + 1)]
  {
    resp := Handler(store, IncrementById(pageId), StoreFaults(false, ReplyLost));
  }
}
