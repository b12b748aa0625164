# View counter of the-lore-society blog, in Dafny

This project models the view-counting logic of a small static blog. There are two parts:

- **The serverless handler** (`api/views.js`). It answers `OPTIONS` preflights and `get`/`increment` actions against a document store. Each page in the store may carry a `views` number. An increment is a read followed by a separate write, not an atomic add.
- **The browser-side `Blog` class** (`js/blog.js`). It holds the post list, a `globalStats` map from post id to count, and which posts are expanded. It loads and sorts posts, counts a view when a post is expanded, and merges per-post counts fetched from a count service.

Modules:

- `Wrappers` (`wrappers.dfy`): `Option`.
- `ViewsApi` (`views_api.dfy`): the request routing (`RouteOf`) and the `PageStore` class with separate `Retrieve` and `Update` steps. It also holds the `Handler` method, proved against a per-route specification, and three scenarios. In the first, two increments run one after the other, and no update is lost. In the second, the two increments interleave at their await points, and one update is lost. In the third, the update's reply is lost: the caller gets 500 although the page already holds the new count.
- `BlogPosts` (`blog_posts.dfy`): `loadNotionPosts`'s row-to-post mapping and its newest-first sort. JavaScript's sort is stable, so the sort is modelled as a stable insertion sort. `StableSortIsUnique` proves that "newest first and stable" determines the result.
- `BlogClient` (`blog_client.dfy`): the client state as a value (`Client`) with pure transitions (`Increment`, `Toggle`, `MergeAll`) and lemmas about them. The `Blog` class has one method per modelled source method (the constructor, `loadNotionPosts`, `incrementViews`, `togglePost`, `loadGlobalStatsAsync`), each proved to perform its transition.
- `Protocol` (`protocol.dfy`): the client's increment request fed to the handler.

The network is not performed. The fetched table, the reply to the increment request and the per-post count replies are inputs. So are the page's protocol (`"file:"` selects the offline path) and the store's transport failures. Dates are integer timestamps.

The client sends `postTitle` (`js/blog.js:145`), but the handler reads only `postId` (`api/views.js:21`). Both are kept as written. `Protocol.ServeClientIncrement` proves the consequence: the handler answers every client increment with 500 and writes nothing, whatever the store holds. `Protocol.OnlineReveal` proves that an online expansion served by this handler leaves both the store and every displayed count unchanged.

On the server every store failure is a 500. An update can fail in two ways. The store can refuse it, and then nothing is written. Or its reply can be lost after the write has landed, and then the page holds the new count although the caller is told 500.

## Model

| member | source | states |
|---|---|---|
| ViewsApi.RouteOf | api/views.js:16-50 | Preflight exactly for method OPTIONS, before any action check; otherwise get/increment exactly when `action` equals "get"/"increment"; the page addressed is `postId` when present, and none otherwise |
| ViewsApi.OtherParamsIgnored | api/views.js:21 | setting any query parameter other than `action` and `postId` (for example `postTitle`) does not change the route or the page addressed |
| ViewsApi.StoredViews | api/views.js:27 | the stored views: 0 when the property is unset; the number itself when set, since the default only replaces 0 with 0 |
| ViewsApi.PageStore.Retrieve | api/views.js:26 | a retrieve succeeds exactly when an id is given, a page has it and the transport works, and it then returns that page's property |
| ViewsApi.PageStore.Update | api/views.js:38-45 | an update writes exactly when the page exists and the store does not refuse it, and then sets only that page's number; it returns without throwing only when the write is also acknowledged, so a lost reply throws after the write has landed |
| ViewsApi.IncrementRead | api/views.js:32-35 | the increment's read step fails exactly when the retrieve fails; otherwise it yields the stored views (default 0) plus one |
| ViewsApi.IncrementWrite | api/views.js:37-55 | the write step answers 200 with exactly the value written when the update is acknowledged, and changes only that page; any other outcome answers 500, with the value written if only the reply was lost and nothing written if the store refused |
| ViewsApi.Handler | api/views.js:9-57 | preflight gives 200 with no body and leaves the store alone; get gives 200 with the stored views (default 0) or 500, and leaves the store alone; increment writes current+1 to the addressed page alone and returns it; it gives 500 with nothing written when the retrieve fails or the store refuses the update, and 500 with current+1 written when the update's reply is lost; any other action gives 400 "Invalid action" and leaves the store alone |
| ViewsApi.SequentialIncrements | api/views.js:31-47 | two increments run in turn return n+1 and n+2, and the page ends at n+2 |
| ViewsApi.InterleavedIncrements | api/views.js:31-47 | two increments whose retrieves both happen before either update both return n+1, and the page ends at n+1 (a lost update) |
| ViewsApi.LostReplyIncrement | api/views.js:31-55 | an increment whose update reply is lost answers 500, yet the page already holds n+1 |
| BlogPosts.ToPost | js/blog.js:26-32 | id and title are copied, the date is `created`, and the content is the row's content or "(Content not loaded)" when it is absent or empty, so it is never empty; views are the row's number, or 0 when absent |
| BlogPosts.ToPosts | js/blog.js:26-32 | one post per row, in row order |
| BlogPosts.Insert | js/blog.js:33 | inserting into a newest-first list keeps it newest first and adds exactly that post |
| BlogPosts.InsertDated | js/blog.js:33 | the inserted post comes first among the posts of its date; the posts of every other date are unchanged |
| BlogPosts.SortNewestFirst | js/blog.js:33 | the result is newest first, a permutation of the input, and stable: posts with the same date keep their input order |
| BlogPosts.StableSortIsUnique | js/blog.js:33 | two lists that are both newest first and agree on the posts of every date are equal, so the stable sort's result is fully determined |
| BlogPosts.LoadPosts | js/blog.js:24-33 | the loaded posts are the converted rows, one per row, newest first, a permutation of the conversions, stable on equal dates |
| BlogPosts.LoadedPostsComeFromRows | js/blog.js:24-33 | every loaded post is the conversion of some row |
| BlogClient.FindPost | js/blog.js:63 | `find` gives the first index whose post has the id, or none when no post has it |
| BlogClient.WithViews | js/blog.js:122-124 | assigning `post.views` changes only the views of the first post with the id; a missing id changes nothing |
| BlogClient.FindPostSameIds | js/blog.js:63 | `find` gives the same answer on two lists with the same ids in the same places |
| BlogClient.Increment | js/blog.js:135-159 | offline: `globalStats[id]` becomes (old or 0)+1 and is returned, no other key changes, and no request is sent; online: `globalStats` is unchanged, the request carries the post's title or "" for an unknown id, and the result is the server's number on success, or else the post's current views (0 for an unknown id) |
| BlogClient.Toggle | js/blog.js:112-133 | toggling flips only that post's visibility, and no post changes in anything but its views |
| BlogClient.HideCountsNothing | js/blog.js:130-132 | hiding a shown post changes neither the posts nor `globalStats` |
| BlogClient.RevealOfflineCountsOnce | js/blog.js:116-124 | revealing a hidden post offline counts exactly one view, adds no key but that post's, shows that count on the post, and leaves other posts and other counts unchanged |
| BlogClient.RevealOnlineTakesServerCount | js/blog.js:120-124 | revealing online with a successful reply shows the server's number on the post, leaves other posts unchanged, and does not touch `globalStats` |
| BlogClient.RevealOnlineFailureKeepsDisplay | js/blog.js:148-157 | revealing online with a non-ok reply or a thrown error leaves every post, its displayed count included, and `globalStats` unchanged |
| BlogClient.RevealHideRevealCountsTwice | js/blog.js:112-133 | offline, each hidden-to-shown transition counts again: reveal, hide, reveal leaves the count two higher |
| BlogClient.CountOf | js/blog.js:50-54 | a failed per-post request or a reply without a value counts 0; otherwise the reply's value |
| BlogClient.CountResults | js/blog.js:40-56 | one result per post, in post order, carrying that post's id and count |
| BlogClient.MergeAll | js/blog.js:61-72 | merging results changes only views among the posts and not visibility; the keys of `globalStats` become the old keys plus the results' ids |
| BlogClient.MergePrefix | js/blog.js:61-65 | with distinct ids, after the first n results the first n posts and their counts carry their results, and the rest are untouched |
| BlogClient.MergeCountsDistinct | js/blog.js:39-72 | with distinct ids, each post's views and its `globalStats` entry become its own result, and counts for ids that are not posts are unchanged |
| BlogClient.Blog.constructor | js/blog.js:6-11 | a new blog has no posts, no counts and nothing shown |
| BlogClient.Blog.LoadNotionPosts | js/blog.js:19-37 | a fetched table replaces the posts with the loaded, sorted list; a failed fetch leaves them as they were |
| BlogClient.Blog.IncrementViews | js/blog.js:135-159 | performs `Increment`: it returns its count, records the title sent, and leaves its `globalStats` |
| BlogClient.Blog.TogglePost | js/blog.js:112-133 | performs `Toggle` on the blog's state |
| BlogClient.Blog.LoadGlobalStatsAsync | js/blog.js:39-76 | performs `MergeAll` over one result per post, in order |
| Protocol.ClientIncrementRequest | js/blog.js:145 | the client's online increment request is routed as an increment that addresses no page |
| Protocol.AsReply | js/blog.js:146-153 | a 2xx with a number is a count; a non-2xx with a JSON body is not ok; a response without a body throws |
| Protocol.ServeClientIncrement | api/views.js:21-35 | the handler answers the client's request with 500 (not ok to the client) and writes nothing |
| Protocol.OnlineReveal | js/blog.js:116-157 | an online reveal served by the handler leaves the store and every displayed count unchanged, and only shows the post |

## Left out

- CORS headers, the document-store client's construction and authentication, and `console` logging: transport configuration, a foreign library and I/O.
- `renderPosts`, `formatDate` and the DOM updates (`textContent`, `classList`): rendering only. Visibility is the `revealed` set, and every post starts hidden.
- `fetch`, the 5-second `AbortController` timeout and the `Promise.all` fan-out: network and concurrency mechanics. Each outcome is an input.
- Concurrency on the client: a click during an awaited request, or `loadGlobalStatsAsync` running during `togglePost`. Each method runs to completion.
- Concurrency on the server: only the two-request interleaving is modelled, not arbitrary schedules.
- `togglePost` on an id with no rendered content element throws in the source. The model treats every id as having one.
- `init` calls `loadNotionPosts` and then `renderPosts`, and its call to `loadGlobalStatsAsync` is commented out. The methods are modelled one by one, not this start-up sequence.
- Date parsing: dates are integer timestamps, so an unparsable date (NaN in the comparator) is not modelled.
- JavaScript numbers are unbounded integers here. Fractional, NaN or huge values are not modelled.
- Repeated query parameters, which arrive as arrays, are not modelled. The query is a map from name to one string.
- Protocol.AsReply: a 2xx response without a views number would make `incrementViews` return `undefined`. It is read as a thrown error instead. The handler never sends such a response to a GET request.
- MergeCountsDistinct: states the per-post outcome only when post ids are distinct. With a repeated id, `MergeAll` still defines the result: the first post with that id takes the last result for it. No lemma spells that case out.
