/** Listing the routes of an app page by page: the store keeps (app, path) unique, and following
    the cursors from one page to the next visits every route once. */
module RouteList {
  import opened ByteOrder
  import Base64Url
  import GoSort
  import opened Lists

  datatype Route = Route(app: Bytes, path: Bytes, image: Bytes, body: Bytes)

  datatype Error = Done | AppsNotFound | RoutesAlreadyExists | RoutesNotFound

  /** The routes asked for; an empty image does not filter. */
  datatype Query = Query(app: Bytes, image: Bytes)

  predicate Matches(r: Route, q: Query) { r.app == q.app && (q.image == [] || q.image == r.image) }

  predicate UniqueRoutes(routes: seq<Route>) {
    forall i, j :: 0 <= i < j < |routes| ==> routes[i].app != routes[j].app || routes[i].path != routes[j].path
  }

  // ----------------------------------------------------------------------------- pages

  predicate Ascending(page: seq<Route>) {
    forall i, j :: 0 <= i < j < |page| ==> Less(page[i].path, page[j].path)
  }

  /** The next `perPage` matching routes behind the cursor, by path. */
  ghost predicate IsPage(routes: seq<Route>, q: Query, cursor: Bytes, perPage: nat, page: seq<Route>) {
    && Ascending(page) && |page| <= perPage
    && (forall i :: 0 <= i < |page| ==> page[i] in routes && Matches(page[i], q) && Less(cursor, page[i].path))
    && (forall r :: r in routes && Matches(r, q) && Less(cursor, r.path) && r !in page ==>
          |page| == perPage && forall i :: 0 <= i < |page| ==> Less(page[i].path, r.path))
  }

  /** `pageParams`: between 1 and 100, 30 by default. */
  function PerPage(requested: int): (n: nat)
    ensures 1 <= n <= 100 && (1 <= requested <= 100 ==> n == requested)
  {
    if requested > 100 then 100 else if requested <= 0 then 30 else requested
  }

  /** The cursor text that comes with a page: empty unless the page is full. */
  function NextCursor(page: seq<Route>, perPage: nat): Bytes {
    if |page| > 0 && |page| == perPage then Base64Url.Encode(page[|page| - 1].path) else []
  }

  /** A client that asks for the first page and then follows the cursors. */
  ghost predicate IsWalk(routes: seq<Route>, q: Query, requested: int, texts: seq<Bytes>, pages: seq<seq<Route>>) {
    && |texts| == |pages| + 1 && texts[0] == []
    && (forall i :: 0 <= i < |pages| ==>
          && IsPage(routes, q, Base64Url.Decode(texts[i]), PerPage(requested), pages[i])
          && texts[i + 1] == NextCursor(pages[i], PerPage(requested)))
    && (forall i :: 0 < i < |pages| ==> texts[i] != [])
  }

  lemma EncodeNonEmpty(s: Bytes)
    ensures Base64Url.Encode(s) == [] <==> s == []
  {
    Base64Url.Injective(s, []);
  }

  /** The walk so far: everything matching up to the cursor, in order. */
  ghost predicate Covered(routes: seq<Route>, q: Query, seen: seq<Route>, cursor: Bytes) {
    && Ascending(seen)
    && (forall i :: 0 <= i < |seen| ==>
          seen[i] in routes && Matches(seen[i], q) && seen[i].path != [] && !Less(cursor, seen[i].path))
    && (forall r :: r in routes && Matches(r, q) && r.path != [] && r !in seen ==> Less(cursor, r.path))
  }

  /** All routes of the app with the image, or with any if none is asked for, that have a path; by path. */
  ghost predicate IsListing(routes: seq<Route>, q: Query, all: seq<Route>) {
    && Ascending(all)
    && forall r :: r in all <==>
         r in routes && r.app == q.app && (q.image != [] ==> r.image == q.image) && r.path != []
  }

  /** One more page carries on from the cursor. */
  lemma PageAdds(routes: seq<Route>, q: Query, seen: seq<Route>, cursor: Bytes, perPage: nat, page: seq<Route>)
    requires Covered(routes, q, seen, cursor) && IsPage(routes, q, cursor, perPage, page) && perPage > 0
    ensures Ascending(seen + page)
    ensures |page| == perPage ==> Covered(routes, q, seen + page, page[|page| - 1].path)
    ensures |page| < perPage ==> IsListing(routes, q, seen + page)
  {
    var all := seen + page;
    forall i, j | 0 <= i < |seen| && 0 <= j < |page| ensures Less(seen[i].path, page[j].path) {
      BelowAbove(seen[i].path, cursor, page[j].path);
    }
    forall j | 0 <= j < |page| ensures page[j].path != [] {}
    if |page| == perPage {
      var last := page[|page| - 1].path;
      LessIrreflexive(last);
      forall i | 0 <= i < |all| ensures !Less(last, all[i].path) {
        if all[i].path != last { LessAsymmetric(all[i].path, last); }
      }
    }
  }

  lemma BelowAbove(p: Bytes, cursor: Bytes, r: Bytes)
    requires !Less(cursor, p) && Less(cursor, r)
    ensures Less(p, r)
  {
    LessTotal(cursor, p);
    if Less(p, cursor) { LessTransitive(p, cursor, r); }
  }

  lemma NothingSeen(routes: seq<Route>, q: Query, perPage: nat)
    ensures Covered(routes, q, [], Base64Url.Decode([])) && Entries(0, perPage) == 0
  {
  }

  lemma WalkWithoutLast(routes: seq<Route>, q: Query, requested: int, texts: seq<Bytes>, pages: seq<seq<Route>>)
    requires IsWalk(routes, q, requested, texts, pages) && pages != []
    ensures var n := |pages| - 1;
      && IsWalk(routes, q, requested, texts[..n + 1], pages[..n])
      && IsPage(routes, q, Base64Url.Decode(texts[n]), PerPage(requested), pages[n])
      && texts[n + 1] == NextCursor(pages[n], PerPage(requested))
      && (n > 0 ==> texts[n] != [])
  {
    hide IsPage, NextCursor, PerPage, Base64Url.Decode;
  }

  /** There is a next cursor exactly after a full page, and it stands for the last path. */
  lemma CursorAfterPage(routes: seq<Route>, q: Query, cursor: Bytes, perPage: nat, page: seq<Route>)
    requires IsPage(routes, q, cursor, perPage, page) && perPage > 0
    ensures NextCursor(page, perPage) != [] <==> |page| == perPage
    ensures |page| == perPage ==> Base64Url.Decode(NextCursor(page, perPage)) == page[|page| - 1].path
  {
    hide Base64Url.Encode, Base64Url.Decode;
    if |page| == perPage {
      var last := page[|page| - 1].path;
      Base64Url.RoundTrip(last);
      EncodeNonEmpty(last);
      AboveIsNotEmpty(cursor, last);
    }
  }

  lemma AboveIsNotEmpty(a: Bytes, b: Bytes)
    requires Less(a, b)
    ensures b != []
  {
  }

  function Entries(pages: nat, perPage: nat): nat { pages * perPage }

  /** Where a walk stands after `pages` pages, when `text` is the cursor it got last. */
  ghost predicate Standing(routes: seq<Route>, q: Query, perPage: nat, pages: nat, text: Bytes, seen: seq<Route>) {
    && (text != [] || pages == 0 ==>
          Covered(routes, q, seen, Base64Url.Decode(text)) && |seen| == Entries(pages, perPage))
    && (text == [] && pages > 0 ==> IsListing(routes, q, seen))
  }

  lemma OnePageOn(routes: seq<Route>, q: Query, perPage: nat, n: nat, text: Bytes, seen: seq<Route>, page: seq<Route>)
    requires perPage > 0 && Standing(routes, q, perPage, n, text, seen) && (n > 0 ==> text != [])
    requires IsPage(routes, q, Base64Url.Decode(text), perPage, page)
    ensures Standing(routes, q, perPage, n + 1, NextCursor(page, perPage), seen + page)
  {
    AtMostPerPage(routes, q, Base64Url.Decode(text), perPage, page);
    hide IsPage, NextCursor, Covered, IsListing, Base64Url.Encode, Base64Url.Decode;
    PageAdds(routes, q, seen, Base64Url.Decode(text), perPage, page);
    CursorAfterPage(routes, q, Base64Url.Decode(text), perPage, page);
    OneMorePage(n, perPage);
    hide Entries;
  }

  lemma OneMorePage(n: nat, perPage: nat)
    ensures Entries(n + 1, perPage) == Entries(n, perPage) + perPage
  {
  }

  lemma AtMostPerPage(routes: seq<Route>, q: Query, cursor: Bytes, perPage: nat, page: seq<Route>)
    requires IsPage(routes, q, cursor, perPage, page)
    ensures |page| <= perPage
  {
  }

  lemma {:induction false} WalkStands(
    routes: seq<Route>, q: Query, requested: int, texts: seq<Bytes>, pages: seq<seq<Route>>)
    requires IsWalk(routes, q, requested, texts, pages)
    ensures Standing(routes, q, PerPage(requested), |pages|, texts[|pages|], Flat(pages))
  {
    if pages == [] {
      hide IsWalk;
      NothingSeen(routes, q, PerPage(requested));
      FirstText(routes, q, requested, texts, pages);
    } else {
      var n := |pages| - 1;
      WalkWithoutLast(routes, q, requested, texts, pages);
      hide IsWalk, IsPage, NextCursor, Standing, PerPage, Base64Url.Encode, Base64Url.Decode;
      WalkStands(routes, q, requested, texts[..n + 1], pages[..n]);
      OnePageOn(routes, q, PerPage(requested), n, texts[n], Flat(pages[..n]), pages[n]);
    }
  }

  lemma FirstText(routes: seq<Route>, q: Query, requested: int, texts: seq<Bytes>, pages: seq<seq<Route>>)
    requires IsWalk(routes, q, requested, texts, pages)
    ensures texts[0] == []
  {
  }

  /** Following the cursors until there is none lists every route of the app exactly once, by path. */
  lemma WalkListsEverything(routes: seq<Route>, q: Query, requested: int, texts: seq<Bytes>, pages: seq<seq<Route>>)
    requires IsWalk(routes, q, requested, texts, pages) && pages != [] && texts[|pages|] == []
    ensures IsListing(routes, q, Flat(pages))
  {
    WalkStands(routes, q, requested, texts, pages);
  }

  lemma {:induction false} DistinctMembers(all: seq<Route>, routes: seq<Route>)
    requires Ascending(all) && forall r :: r in all ==> r in routes
    ensures |all| <= |routes|
  {
    if all != [] {
      var n := |all| - 1;
      var r := all[n];
      assert r in routes;
      var k :| 0 <= k < |routes| && routes[k] == r;
      var rest := routes[..k] + routes[k + 1..];
      forall x | x in all[..n] ensures x in rest {
        var i :| 0 <= i < n && all[i] == x;
        LessAsymmetric(all[i].path, r.path);
        assert x in routes;
        var m :| 0 <= m < |routes| && routes[m] == x;
        assert x == if m < k then rest[m] else rest[m - 1];
      }
      DistinctMembers(all[..n], rest);
    }
  }

  /** A walk comes to an end: pages with a next cursor are full, and they are all different. */
  lemma WalkEnds(routes: seq<Route>, q: Query, requested: int, texts: seq<Bytes>, pages: seq<seq<Route>>)
    requires IsWalk(routes, q, requested, texts, pages) && texts[|pages|] != []
    ensures |pages| * PerPage(requested) <= |routes|
  {
    hide PerPage;
    WalkStands(routes, q, requested, texts, pages);
    DistinctMembers(Flat(pages), routes);
  }

  // ------------------------------------------------------------------------------ store

  function ByPath(): (Route, Route) -> bool { (r: Route, s: Route) => Less(r.path, s.path) }

  lemma ByPathIsOrder()
    ensures GoSort.WeakOrder(ByPath())
  {
    forall r: Route, s: Route | Less(r.path, s.path) ensures !Less(s.path, r.path) { LessAsymmetric(r.path, s.path); }
    forall r: Route, s: Route, t: Route | !Less(r.path, s.path) && !Less(s.path, t.path) ensures !Less(r.path, t.path) {
      NotLessTransitive(r.path, s.path, t.path);
    }
  }

  function Wanted(q: Query, cursor: Bytes): Route -> bool { (r: Route) => Matches(r, q) && Less(cursor, r.path) }

  lemma {:induction false} FilteredInOrder(s: seq<Route>, q: Query, cursor: Bytes)
    requires UniqueRoutes(s) && GoSort.InOrder(s, ByPath())
    ensures Ascending(Filtered(s, Wanted(q, cursor)))
  {
    if s != [] {
      var n := |s| - 1;
      FilteredInOrder(s[..n], q, cursor);
      var p := Filtered(s[..n], Wanted(q, cursor));
      if Matches(s[n], q) {
        forall i | 0 <= i < |p| ensures Less(p[i].path, s[n].path) {
          FilteredMembers(s[..n], Wanted(q, cursor), p[i]);
          var k :| 0 <= k < n && s[..n][k] == p[i];
          assert !ByPath()(s[n], s[k]);
          LessTotal(s[k].path, s[n].path);
        }
      }
    }
  }

  /** Filtering a sorted store up to a full page gives the page. */
  lemma SortedPage(was: seq<Route>, s: seq<Route>, q: Query, cursor: Bytes, perPage: nat, i: nat)
    requires UniqueRoutes(s) && GoSort.InOrder(s, ByPath()) && multiset(was) == multiset(s) && i <= |s|
    requires var n := |Filtered(s[..i], Wanted(q, cursor))|; n <= perPage && (i == |s| || n == perPage)
    ensures IsPage(was, q, cursor, perPage, Filtered(s[..i], Wanted(q, cursor)))
  {
    hide Matches;
    var page := Filtered(s[..i], Wanted(q, cursor));
    FilteredInOrder(s[..i], q, cursor);
    forall k | 0 <= k < |page|
      ensures page[k] in was && page[k] in s[..i] && Matches(page[k], q) && Less(cursor, page[k].path)
    {
      FilteredMembers(s[..i], Wanted(q, cursor), page[k]);
      assert page[k] in multiset(s);
    }
    forall r | r in was && Matches(r, q) && Less(cursor, r.path) && r !in page
      ensures |page| == perPage && forall k :: 0 <= k < |page| ==> Less(page[k].path, r.path)
    {
      BehindPage(was, s, q, cursor, i, r);
    }
  }

  lemma BehindPage(was: seq<Route>, s: seq<Route>, q: Query, cursor: Bytes, i: nat, r: Route)
    requires UniqueRoutes(s) && GoSort.InOrder(s, ByPath()) && multiset(was) == multiset(s) && i <= |s|
    requires r in was && Matches(r, q) && Less(cursor, r.path) && r !in Filtered(s[..i], Wanted(q, cursor))
    ensures i < |s|
    ensures forall p :: p in Filtered(s[..i], Wanted(q, cursor)) ==> Less(p.path, r.path)
  {
    FilteredMembers(s[..i], Wanted(q, cursor), r);
    assert r in multiset(s);
    var j :| 0 <= j < |s| && s[j] == r;
    GoSort.InPrefix(s, i, j);
    forall p | p in Filtered(s[..i], Wanted(q, cursor)) ensures Less(p.path, r.path) {
      FilteredMembers(s[..i], Wanted(q, cursor), p);
      var k :| 0 <= k < i && s[..i][k] == p;
      assert !ByPath()(s[j], s[k]);
      LessTotal(s[k].path, s[j].path);
    }
  }

  /** Sorting keeps the routes unique. */
  lemma PermutedUnique(was: seq<Route>, s: seq<Route>)
    requires UniqueRoutes(was) && multiset(was) == multiset(s)
    ensures UniqueRoutes(s)
  {
    forall i, j | 0 <= i < j < |s| ensures s[i].app != s[j].app || s[i].path != s[j].path {
      assert s[i] in multiset(was) && s[j] in multiset(was);
      var k :| 0 <= k < |was| && was[k] == s[i];
      var m :| 0 <= m < |was| && was[m] == s[j];
      if s[i] == s[j] {
        GoSort.OnceEach(was, s[i]);
        GoSort.TwiceIn(s, i, j);
      }
    }
  }

  /** The in-memory store. */
  class Store {
    var apps: seq<Bytes>
    var routes: seq<Route>

    ghost predicate Valid()
      reads this
    {
      UniqueRoutes(routes)
    }

    /** `NewMockInit` takes the routes it is given as they are. */
    constructor (apps: seq<Bytes>, routes: seq<Route>)
      ensures this.apps == apps && this.routes == routes && (Valid() <==> UniqueRoutes(routes))
    {
      this.apps := apps;
      this.routes := routes;
    }

    /** `GetRoute`: the position of the route, or the length. */
    method Find(app: Bytes, path: Bytes) returns (i: nat)
      ensures i <= |routes|
      ensures i < |routes| ==> routes[i].app == app && routes[i].path == path
      ensures i == |routes| ==> forall r :: r in routes ==> r.app != app || r.path != path
    {
      i := 0;
      while i < |routes|
        invariant 0 <= i <= |routes|
        invariant forall j :: 0 <= j < i ==> routes[j].app != app || routes[j].path != path
      {
        if routes[i].app == app && routes[i].path == path {
          return;
        }
        i := i + 1;
      }
    }

    method InsertRoute(route: Route) returns (e: Error)
      requires Valid()
      modifies this
      ensures Valid() && apps == old(apps)
      ensures e == if route.app !in apps then AppsNotFound
                   else if exists r :: r in old(routes) && r.app == route.app && r.path == route.path
                   then RoutesAlreadyExists
                   else Done
      ensures routes == if e.Done? then old(routes) + [route] else old(routes)
    {
      if route.app !in apps {
        return AppsNotFound;
      }
      var i := Find(route.app, route.path);
      if i < |routes| {
        assert routes[i] in routes;
        return RoutesAlreadyExists;
      }
      routes := routes + [route];
      return Done;
    }

    method RemoveRoute(app: Bytes, path: Bytes) returns (e: Error)
      requires Valid()
      modifies this
      ensures Valid() && apps == old(apps)
      ensures e.Done? <==> exists r :: r in old(routes) && r.app == app && r.path == path
      ensures e.Done? || (e.RoutesNotFound? && routes == old(routes))
      ensures e.Done? ==> forall r :: r in routes <==> r in old(routes) && !(r.app == app && r.path == path)
      ensures e.Done? ==> |routes| == |old(routes)| - 1
    {
      var i := Find(app, path);
      if i == |routes| {
        return RoutesNotFound;
      }
      assert routes[i] in routes;
      RemovedAt(routes, i);
      routes := routes[..i] + routes[i + 1..];
      return Done;
    }

    method GetRoutesByApp(q: Query, cursor: Bytes, perPage: nat) returns (page: seq<Route>)
      requires Valid()
      modifies this
      ensures Valid() && apps == old(apps) && multiset(routes) == multiset(old(routes))
      ensures IsPage(old(routes), q, cursor, perPage, page)
    {
      ByPathIsOrder();
      routes := GoSort.Sort(routes, ByPath());
      PermutedUnique(old(routes), routes);
      page := [];
      var i := 0;
      while i < |routes|
        invariant 0 <= i <= |routes|
        invariant page == Filtered(routes[..i], Wanted(q, cursor)) && |page| <= perPage
      {
        if |page| == perPage {
          break;
        }
        assert routes[..i + 1][..i] == routes[..i];
        if Matches(routes[i], q) && Less(cursor, routes[i].path) {
          page := page + [routes[i]];
        }
        i := i + 1;
      }
      SortedPage(old(routes), routes, q, cursor, perPage, i);
    }

    /** `handleRouteList`: one request, with the cursor text it answers. */
    method List(q: Query, text: Bytes, requested: int) returns (page: seq<Route>, next: Bytes)
      requires Valid()
      modifies this
      ensures Valid() && apps == old(apps) && multiset(routes) == multiset(old(routes))
      ensures IsPage(old(routes), q, Base64Url.Decode(text), PerPage(requested), page)
      ensures next == NextCursor(page, PerPage(requested))
    {
      var perPage := PerPage(requested);
      page := GetRoutesByApp(q, Base64Url.Decode(text), perPage);
      next := [];
      if |page| > 0 && |page| == perPage {
        next := Base64Url.Encode(page[|page| - 1].path);
      }
    }
  }

  lemma RemovedAt(s: seq<Route>, i: nat)
    requires UniqueRoutes(s) && i < |s|
    ensures var t := s[..i] + s[i + 1..];
      && UniqueRoutes(t)
      && forall r :: r in t <==> r in s && !(r.app == s[i].app && r.path == s[i].path)
  {
    var t := s[..i] + s[i + 1..];
    forall j | 0 <= j < |t| ensures t[j] == s[if j < i then j else j + 1] {}
    forall r | r in s && !(r.app == s[i].app && r.path == s[i].path) ensures r in t {
      var k :| 0 <= k < |s| && s[k] == r;
      assert t[if k < i then k else k - 1] == r;
    }
  }

  // ----------------------------------------------------------------------------- client

  lemma PageOfPermuted(routes: seq<Route>, was: seq<Route>, q: Query, cursor: Bytes, perPage: nat, page: seq<Route>)
    requires multiset(routes) == multiset(was) && IsPage(routes, q, cursor, perPage, page)
    ensures IsPage(was, q, cursor, perPage, page)
  {
    forall r ensures r in routes <==> r in was { assert r in multiset(routes) <==> r in multiset(was); }
  }

  lemma SeenIsBounded(routes: seq<Route>, q: Query, perPage: nat, n: nat, text: Bytes, seen: seq<Route>)
    requires Standing(routes, q, perPage, n, text, seen)
    ensures |seen| <= |routes|
  {
    DistinctMembers(seen, routes);
  }

  lemma MoreThanBefore(routes: seq<Route>, q: Query, cursor: Bytes, perPage: nat, page: seq<Route>)
    requires IsPage(routes, q, cursor, perPage, page) && perPage > 0 && NextCursor(page, perPage) != []
    ensures |page| > 0
  {
  }

  /** A client that starts without a cursor and follows `next_cursor` until there is none: it
      comes to an end, and it has seen every matching route with a path once, in order. */
  method FollowCursors(store: Store, q: Query, requested: int) returns (all: seq<Route>)
    requires store.Valid()
    modifies store
    ensures store.Valid() && multiset(store.routes) == multiset(old(store.routes))
    ensures IsListing(old(store.routes), q, all)
  {
    hide IsPage, Standing, NextCursor, Covered, IsListing, UniqueRoutes, Base64Url.Decode, Base64Url.Encode, PerPage;
    ghost var routes, per := store.routes, PerPage(requested);
    ghost var n := 0;
    var text: Bytes, more := [], true;
    all := [];
    WalkBegins(routes, q, per);
    while more
      invariant store.Valid() && multiset(store.routes) == multiset(routes)
      invariant Standing(routes, q, per, n, text, all)
      invariant more <==> n == 0 || text != []
      decreases if more then |routes| + 1 - |all| else 0
    {
      SeenIsBounded(routes, q, per, n, text, all);
      ghost var before := store.routes;
      var page, next := store.List(q, text, requested);
      PageOfPermuted(before, routes, q, Base64Url.Decode(text), per, page);
      OnePageOn(routes, q, per, n, text, all, page);
      if next != [] { MoreThanBefore(routes, q, Base64Url.Decode(text), per, page); }
      all := all + page;
      SeenIsBounded(routes, q, per, n + 1, next, all);
      text, n := next, n + 1;
      more := next != [];
    }
    ListedAtTheEnd(routes, q, per, n, all);
  }

  lemma WalkBegins(routes: seq<Route>, q: Query, perPage: nat)
    ensures Standing(routes, q, perPage, 0, [], [])
  {
    NothingSeen(routes, q, perPage);
  }

  lemma ListedAtTheEnd(routes: seq<Route>, q: Query, perPage: nat, n: nat, all: seq<Route>)
    requires Standing(routes, q, perPage, n, [], all) && n > 0
    ensures IsListing(routes, q, all)
  {
  }
}
