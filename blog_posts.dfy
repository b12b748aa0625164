/**
 * Loading the post list (js/blog.js, `loadNotionPosts`): each raw database row becomes a
 * post with defaults for missing fields, and the list is sorted newest first.
 *
 * Dates are integer timestamps. JavaScript's `Array.prototype.sort` is stable, so the sort
 * is modelled as a stable insertion sort and specified by "newest first" plus "posts with
 * the same date keep their order"; `StableSortIsUnique` shows that this pins the result down.
 */
module BlogPosts {
  import opened Wrappers

  /** A row of the content database, as the table API returns it. */
  datatype Row = Row(id: string, title: string, created: int, content: Option<string>, views: Option<int>)

  /** A post of the blog's state. */
  datatype Post = Post(id: string, title: string, date: int, content: string, views: int)

  const ContentNotLoaded: string := "(Content not loaded)"

  /** JavaScript's `s || fallback` on an optional string: absent and empty are falsy. */
  function StringOr(s: Option<string>, fallback: string): string
  {
    match s
    case Some(v) => if v != "" then v else fallback
    case None => fallback
  }

  /** JavaScript's `n || fallback` on an optional integer: absent and 0 are falsy. */
  function NumberOr(n: Option<int>, fallback: int): int
  {
    match n
    case Some(v) => if v != 0 then v else fallback
    case None => fallback
  }

  /**
   * One row as a post: id and title copied, `created` as the date, content defaulting to the
   * placeholder (so it is never empty), views defaulting to 0.
   */
  function ToPost(row: Row): (p: Post)
    ensures p.id == row.id && p.title == row.title && p.date == row.created
    ensures p.content != ""
    ensures row.content.Some? && row.content.value != "" ==> p.content == row.content.value
    ensures row.content.None? || row.content.value == "" ==> p.content == ContentNotLoaded
    ensures row.views.Some? ==> p.views == row.views.value
    ensures row.views.None? ==> p.views == 0
  {
    Post(row.id, row.title, row.created, StringOr(row.content, ContentNotLoaded), NumberOr(row.views, 0))
  }

  /** `rows.map(...)`: every row converted, in order. */
  function ToPosts(rows: seq<Row>): (ps: seq<Post>)
    ensures |ps| == |rows|
    ensures forall i :: 0 <= i < |rows| ==> ps[i] == ToPost(rows[i])
  {
    seq(|rows|, i requires 0 <= i < |rows| => ToPost(rows[i]))
  }

  /** Dates never increase along the list. */
  ghost predicate NewestFirst(s: seq<Post>)
  {
    forall i, j :: 0 <= i < j < |s| ==> s[i].date >= s[j].date
  }

  /** The posts dated `d`, in the order they appear. */
  function Dated(s: seq<Post>, d: int): seq<Post>
  {
    if s == [] then [] else (if s[0].date == d then [s[0]] else []) + Dated(s[1..], d)
  }

  lemma {:induction false} DatedMembers(s: seq<Post>, d: int)
    ensures forall p :: p in Dated(s, d) ==> p in s && p.date == d
  {
    if s != [] {
      DatedMembers(s[1..], d);
    }
  }

  /** A non-empty list has a post dated as its first one. */
  lemma DatedHead(s: seq<Post>)
    ensures s != [] ==> Dated(s, s[0].date) != []
  {
  }

  /** Inserting `p` into a newest-first list ahead of every post that is not newer than it. */
  function Insert(p: Post, s: seq<Post>): (r: seq<Post>)
    requires NewestFirst(s)
    ensures NewestFirst(r)
    ensures |r| == |s| + 1
    ensures multiset(r) == multiset(s) + multiset{p}
    ensures r[0] == p || (s != [] && r[0] == s[0])
  {
    if s == [] || s[0].date <= p.date then
      [p] + s
    else
      var rest := Insert(p, s[1..]);
      assert s == [s[0]] + s[1..];
      assert forall j :: 0 <= j < |rest| ==> rest[0].date >= rest[j].date;
      [s[0]] + rest
  }

  /** Inserting `p` puts it first among the posts of its date and leaves every other date alone. */
  lemma {:induction false} InsertDated(p: Post, s: seq<Post>, d: int)
    requires NewestFirst(s)
    ensures Dated(Insert(p, s), d) == if d == p.date then [p] + Dated(s, d) else Dated(s, d)
  {
    if s == [] || s[0].date <= p.date {
      assert ([p] + s)[1..] == s;
    } else {
      var rest := Insert(p, s[1..]);
      assert ([s[0]] + rest)[1..] == rest;
      InsertDated(p, s[1..], d);
    }
  }

  /**
   * `.sort((a, b) => new Date(b.date) - new Date(a.date))`: newest first, a permutation of
   * the input, and posts with the same date in their input order (a stable sort).
   */
  function SortNewestFirst(s: seq<Post>): (r: seq<Post>)
    ensures |r| == |s|
    ensures NewestFirst(r)
    ensures multiset(r) == multiset(s)
    ensures forall d :: Dated(r, d) == Dated(s, d)
  {
    if s == [] then []
    else
      var rest := SortNewestFirst(s[1..]);
      assert s == [s[0]] + s[1..];
      forall d
        ensures Dated(Insert(s[0], rest), d) == Dated(s, d)
      {
        InsertDated(s[0], rest, d);
      }
      Insert(s[0], rest)
  }

  /**
   * A stable newest-first sort has only one possible result: two lists that are both newest
   * first and agree on the posts of every date are equal. So `SortNewestFirst` gives what any
   * stable sort with the source's comparator gives.
   */
  lemma {:induction false} StableSortIsUnique(a: seq<Post>, b: seq<Post>)
    requires NewestFirst(a) && NewestFirst(b)
    requires forall d :: Dated(a, d) == Dated(b, d)
    ensures a == b
  {
    DatedHead(a);
    DatedHead(b);
    if a == [] || b == [] {
    } else {
      DatedMembers(a, b[0].date);
      DatedMembers(b, a[0].date);
      assert Dated(a, a[0].date)[0] == a[0];
      assert Dated(b, b[0].date)[0] == b[0];
      var x := Dated(b, a[0].date)[0];
      assert x in b && x.date == a[0].date;
      var y := Dated(a, b[0].date)[0];
      assert y in a && y.date == b[0].date;
      assert a[0].date == b[0].date;
      assert a[0] == b[0];
      forall d
        ensures Dated(a[1..], d) == Dated(b[1..], d)
      {
        var head := if a[0].date == d then [a[0]] else [];
        assert head + Dated(a[1..], d) == head + Dated(b[1..], d) by {
          assert Dated(a, d) == Dated(b, d);
        }
        assert Dated(a[1..], d) == (head + Dated(a[1..], d))[|head|..];
        assert Dated(b[1..], d) == (head + Dated(b[1..], d))[|head|..];
      }
      StableSortIsUnique(a[1..], b[1..]);
      assert a == [a[0]] + a[1..];
      assert b == [b[0]] + b[1..];
    }
  }

  /**
   * `loadNotionPosts` on a fetched table: the converted rows, newest first. Every row gives
   * exactly one post, and rows with the same date keep their order.
   */
  function LoadPosts(rows: seq<Row>): (r: seq<Post>)
    ensures |r| == |rows|
    ensures NewestFirst(r)
    ensures multiset(r) == multiset(ToPosts(rows))
    ensures forall d :: Dated(r, d) == Dated(ToPosts(rows), d)
  {
    SortNewestFirst(ToPosts(rows))
  }

  /** Each loaded post is the conversion of some row. */
  lemma LoadedPostsComeFromRows(rows: seq<Row>, p: Post)
    requires p in LoadPosts(rows)
    ensures exists i :: 0 <= i < |rows| && p == ToPost(rows[i])
  {
    assert p in multiset(LoadPosts(rows));
    assert p in ToPosts(rows);
  }
}
