/**
 * The site's route table and the navigation links derived from it: the home
 * route first, then every other route that is not hidden, ordered by label.
 */
module Routes {
  import opened Wrappers
  import opened Seqs

  /**
   * A route; `caption` is its `label` (`label` is a Dafny keyword). The page
   * component it renders is not modelled; `hidden` absent is `false`.
   */
  datatype Route = Route(path: string, caption: string, hidden: bool)

  const HomeRoute := Route("/", "Home", false)
  const BlogRoute := Route("/blog", "Blog", false)
  const BlogPostRoute := Route("/blog/:slug", "Blog Post", true)

  const RouteTable: seq<Route> := [HomeRoute, BlogRoute, BlogPostRoute]

  predicate IsHome(r: Route) {
    r.path == "/"
  }

  /** A route listed after home: not home itself, and not hidden. */
  predicate IsListed(r: Route) {
    r.path != "/" && !r.hidden
  }

  /**
   * The label comparison `le(a, b)`, "a sorts no later than b", is a total
   * preorder, as a comparator derived from `localeCompare` is.
   */
  ghost predicate TotalPreorder(le: (string, string) -> bool) {
    && (forall a, b :: le(a, b) || le(b, a))
    && (forall a, b, c :: le(a, b) && le(b, c) ==> le(a, c))
  }

  ghost predicate SortedByLabel(s: seq<Route>, le: (string, string) -> bool) {
    forall i, j :: 0 <= i < j < |s| ==> le(s[i].caption, s[j].caption)
  }

  /** `r` placed before the first route of `s` whose label it sorts no later than. */
  function Insert(r: Route, s: seq<Route>, le: (string, string) -> bool): (res: seq<Route>)
    ensures multiset(res) == multiset(s) + multiset{r}
  {
    if s == [] then [r]
    else if le(r.caption, s[0].caption) then [r] + s
    else
      assert s == [s[0]] + s[1..];
      [s[0]] + Insert(r, s[1..], le)
  }

  /** The `sort` by label, as an insertion sort. */
  function SortByLabel(s: seq<Route>, le: (string, string) -> bool): (res: seq<Route>)
    ensures multiset(res) == multiset(s)
  {
    if s == [] then []
    else
      assert s == [s[0]] + s[1..];
      Insert(s[0], SortByLabel(s[1..], le), le)
  }

  /** A route that sorts no later than every route of a sorted list can head it. */
  lemma ConsSorted(x: Route, s: seq<Route>, le: (string, string) -> bool)
    requires SortedByLabel(s, le)
    requires forall y :: y in s ==> le(x.caption, y.caption)
    ensures SortedByLabel([x] + s, le)
  {
    var res := [x] + s;
    forall i, j | 0 <= i < j < |res|
      ensures le(res[i].caption, res[j].caption)
    {
      assert res[j] == s[j - 1];
      if i > 0 {
        assert res[i] == s[i - 1];
      }
    }
  }

  lemma {:induction false} InsertSorted(r: Route, s: seq<Route>, le: (string, string) -> bool)
    requires TotalPreorder(le) && SortedByLabel(s, le)
    ensures SortedByLabel(Insert(r, s, le), le)
  {
    if s == [] {
    } else if le(r.caption, s[0].caption) {
      forall y | y in s
        ensures le(r.caption, y.caption)
      {
        var k :| 0 <= k < |s| && s[k] == y;
        if k > 0 {
          assert le(s[0].caption, s[k].caption);
        }
      }
      ConsSorted(r, s, le);
    } else {
      assert le(s[0].caption, r.caption);
      InsertSorted(r, s[1..], le);
      var tail := Insert(r, s[1..], le);
      forall y | y in tail
        ensures le(s[0].caption, y.caption)
      {
        assert y in multiset(tail);
        if y != r {
          assert y in multiset(s[1..]);
          var k :| 0 <= k < |s[1..]| && s[1..][k] == y;
          assert s[k + 1] == y;
        }
      }
      assert SortedByLabel(s[1..], le) by {
        forall i, j | 0 <= i < j < |s[1..]|
          ensures le(s[1..][i].caption, s[1..][j].caption)
        {
          assert s[1..][i] == s[i + 1] && s[1..][j] == s[j + 1];
        }
      }
      ConsSorted(s[0], tail, le);
    }
  }

  lemma {:induction false} SortSorted(s: seq<Route>, le: (string, string) -> bool)
    requires TotalPreorder(le)
    ensures SortedByLabel(SortByLabel(s, le), le)
  {
    if s != [] {
      SortSorted(s[1..], le);
      InsertSorted(s[0], SortByLabel(s[1..], le), le);
    }
  }

  /**
   * `getNavLinks` over a route table and a label comparison: the first home
   * route, if any, and the listed routes, each as often as in the table.
   */
  function NavLinks(routes: seq<Route>, le: (string, string) -> bool): (links: seq<Route>)
    ensures multiset(links) == (match Find(routes, IsHome) case Some(home) => multiset{home} case None => multiset{})
                               + multiset(Filter(routes, IsListed))
  {
    var home := Find(routes, IsHome);
    var others := SortByLabel(Filter(routes, IsListed), le);
    if home.Some? then [home.value] + others else others
  }

  /**
   * The links open with a home route exactly when the table has one, and
   * then with the first; the others are the listed routes, each as often as
   * in the table, so the link count is one for home plus the listed routes.
   */
  lemma NavLinksShape(routes: seq<Route>, le: (string, string) -> bool)
    ensures var links := NavLinks(routes, le);
      && ((|links| > 0 && IsHome(links[0])) <==> exists i :: 0 <= i < |routes| && IsHome(routes[i]))
      && (|links| > 0 && IsHome(links[0]) ==>
            exists i :: 0 <= i < |routes| && routes[i] == links[0] && forall k :: 0 <= k < i ==> !IsHome(routes[k]))
      && |links| == (if Find(routes, IsHome).Some? then 1 else 0) + |Filter(routes, IsListed)|
  {
    var home := Find(routes, IsHome);
    var others := SortByLabel(Filter(routes, IsListed), le);
    if others != [] {
      assert others[0] in multiset(Filter(routes, IsListed));
    }
  }

  /** Every link after home is a listed route. */
  lemma NavLinksListed(routes: seq<Route>, le: (string, string) -> bool)
    ensures var links := NavLinks(routes, le);
      var start := if Find(routes, IsHome).Some? then 1 else 0;
      forall i :: start <= i < |links| ==> IsListed(links[i])
  {
    var links := NavLinks(routes, le);
    var start := if Find(routes, IsHome).Some? then 1 else 0;
    var listed := Filter(routes, IsListed);
    var others := SortByLabel(listed, le);
    assert links[start..] == others;
    forall i | start <= i < |links|
      ensures IsListed(links[i])
    {
      assert links[i] == others[i - start];
      assert links[i] in multiset(listed);
      var k :| 0 <= k < |listed| && listed[k] == links[i];
    }
  }

  /** The links after home hold each route as often as the table lists it, and no unlisted route. */
  lemma NavLinksCount(routes: seq<Route>, le: (string, string) -> bool, r: Route)
    ensures var links := NavLinks(routes, le);
      var start := if Find(routes, IsHome).Some? then 1 else 0;
      multiset(links[start..])[r] == if IsListed(r) then multiset(routes)[r] else 0
  {
    var links := NavLinks(routes, le);
    var start := if Find(routes, IsHome).Some? then 1 else 0;
    assert links[start..] == SortByLabel(Filter(routes, IsListed), le);
    FilterCount(routes, IsListed, r);
  }

  /** Under a total preorder, the links after home are in label order. */
  lemma NavLinksSorted(routes: seq<Route>, le: (string, string) -> bool)
    requires TotalPreorder(le)
    ensures var links := NavLinks(routes, le);
      var start := if Find(routes, IsHome).Some? then 1 else 0;
      SortedByLabel(links[start..], le)
  {
    var links := NavLinks(routes, le);
    var start := if Find(routes, IsHome).Some? then 1 else 0;
    assert links[start..] == SortByLabel(Filter(routes, IsListed), le);
    SortSorted(Filter(routes, IsListed), le);
  }

  /** With the site's table the links are Home then Blog, whatever the comparison. */
  lemma RouteTableLinks(le: (string, string) -> bool)
    ensures NavLinks(RouteTable, le) == [HomeRoute, BlogRoute]
  {
    assert Find(RouteTable, IsHome) == Some(HomeRoute);
    assert Filter(RouteTable[2..], IsListed) == [];
    assert RouteTable[1..][1..] == RouteTable[2..];
    assert Filter(RouteTable[1..], IsListed) == [BlogRoute];
    assert Filter(RouteTable, IsListed) == [BlogRoute];
    assert SortByLabel([BlogRoute], le) == [BlogRoute];
  }
}
