/** The dashboard side menu's navigation search (app/dashboard/components/Menu.tsx):
    the visible sections, the flat list of routes, the case-insensitive search
    over route labels, and the two handlers that change the search box and
    navigate. */
module Menu {
  import opened Web
  import Text
  import Uri

  datatype NavItem = NavItem(labelText: string, href: string)
  datatype Section = Section(title: string, items: seq<NavItem>)
  datatype Route = Route(labelText: string, href: string)

  /** How the search was submitted: a key press in the search input, or the
      mobile Search button (a plain `submit` event, which carries no key). */
  datatype SubmitEvent = KeyPress(key: string) | ButtonSubmit

  const MaxResults: nat := 5

  function ProjectBase(projectId: string): string {
    "/dashboard/projects/" + projectId
  }

  /** The menu definition: four sections, each with its items. */
  function AllSections(projectId: string): (sections: seq<Section>)
    ensures |sections| == 4
    ensures forall k :: 0 <= k < |sections| ==> sections[k].items != []
  {
    var base := ProjectBase(projectId);
    [ Section("Navigation", [NavItem("Dashboard", base), NavItem("Market Overview", base + "/market")]),
      Section("Development", [NavItem("Tasks", base + "/development/tasks")]),
      Section("Artificial Intelligence", [NavItem("AI Assistant", base + "/ai/ai-assistant")]),
      Section("Configure", [NavItem("Settings", base + "/settings/project-settings")]) ]
  }

  /** Drops the sections with no items and keeps the others, in order. (The
      per-item filter in the source returns true on both of its branches, so
      every item of a kept section is kept.) */
  function DropEmpty(sections: seq<Section>): (r: seq<Section>)
    ensures |r| <= |sections|
    ensures forall k :: 0 <= k < |r| ==> r[k].items != [] && r[k] in sections
    ensures forall x :: x in sections && x.items != [] ==> x in r
  {
    if sections == [] then []
    else if sections[0].items == [] then DropEmpty(sections[1..])
    else [sections[0]] + DropEmpty(sections[1..])
  }

  /** `DropEmpty` works section by section: it distributes over
      concatenation, so the kept sections stay in their original order. */
  lemma {:induction false} DropEmptyAppend(a: seq<Section>, b: seq<Section>)
    ensures DropEmpty(a + b) == DropEmpty(a) + DropEmpty(b)
  {
    if a == [] {
      assert a + b == b;
    } else {
      assert (a + b)[0] == a[0];
      assert (a + b)[1..] == a[1..] + b;
      DropEmptyAppend(a[1..], b);
    }
  }

  /** One section is kept exactly when it has items. */
  lemma DropEmptySingle(x: Section)
    ensures DropEmpty([x]) == if x.items == [] then [] else [x]
  {
    assert [x][1..] == [];
  }

  /** `filteredSections`: nothing while the menu is loading. */
  function FilteredSections(loading: bool, sections: seq<Section>): (r: seq<Section>)
    ensures loading ==> r == []
    ensures !loading ==> r == DropEmpty(sections)
  {
    if loading then [] else DropEmpty(sections)
  }

  function ToRoutes(items: seq<NavItem>): (r: seq<Route>)
    ensures |r| == |items|
    ensures forall k :: 0 <= k < |items| ==> r[k] == Route(items[k].labelText, items[k].href)
  {
    if items == [] then [] else [Route(items[0].labelText, items[0].href)] + ToRoutes(items[1..])
  }

  /** `availableRoutes`: every item of every section, in order, as `{label, href}`. */
  function AvailableRoutes(sections: seq<Section>): seq<Route> {
    if sections == [] then [] else ToRoutes(sections[0].items) + AvailableRoutes(sections[1..])
  }

  /** Flattening distributes over concatenation of section lists. */
  lemma {:induction false} AvailableRoutesAppend(a: seq<Section>, b: seq<Section>)
    ensures AvailableRoutes(a + b) == AvailableRoutes(a) + AvailableRoutes(b)
  {
    if a == [] {
      assert a + b == b;
    } else {
      assert (a + b)[0] == a[0];
      assert (a + b)[1..] == a[1..] + b;
      AvailableRoutesAppend(a[1..], b);
    }
  }

  /** Dropping empty sections never changes the routes offered. */
  lemma {:induction false} DropEmptyKeepsRoutes(sections: seq<Section>)
    ensures AvailableRoutes(DropEmpty(sections)) == AvailableRoutes(sections)
  {
    if sections != [] {
      var rest := DropEmpty(sections[1..]);
      DropEmptyKeepsRoutes(sections[1..]);
      if sections[0].items == [] {
        assert DropEmpty(sections) == rest;
        assert ToRoutes(sections[0].items) == [];
      } else {
        var r := [sections[0]] + rest;
        assert DropEmpty(sections) == r;
        assert r[0] == sections[0] && r[1..] == rest;
      }
    }
  }

  /** Some section holds an item with the route's label and href. */
  ghost predicate Offers(sections: seq<Section>, r: Route) {
    exists k, j :: 0 <= k < |sections| && 0 <= j < |sections[k].items| && sections[k].items[j] == NavItem(r.labelText, r.href)
  }

  /** A route is offered exactly when some section holds an item with its
      label and href. */
  lemma {:induction false} AvailableRoutesMembership(sections: seq<Section>, r: Route)
    ensures r in AvailableRoutes(sections) <==> Offers(sections, r)
  {
    if sections != [] {
      AvailableRoutesMembership(sections[1..], r);
      var head := ToRoutes(sections[0].items);
      if r in head {
        var j :| 0 <= j < |head| && head[j] == r;
        assert sections[0].items[j] == NavItem(r.labelText, r.href);
      }
      if Offers(sections, r) {
        var k, j :| 0 <= k < |sections| && 0 <= j < |sections[k].items|
          && sections[k].items[j] == NavItem(r.labelText, r.href);
        if k == 0 {
          assert head[j] == r;
        } else {
          assert sections[1..][k - 1] == sections[k];
        }
      }
    }
  }

  /** The menu definition offers its five routes, in menu order. */
  lemma MenuRoutes(projectId: string)
    ensures var base := ProjectBase(projectId);
      AvailableRoutes(FilteredSections(false, AllSections(projectId))) ==
        [ Route("Dashboard", base), Route("Market Overview", base + "/market"),
          Route("Tasks", base + "/development/tasks"),
          Route("AI Assistant", base + "/ai/ai-assistant"),
          Route("Settings", base + "/settings/project-settings") ]
  {
    var s := AllSections(projectId);
    DropEmptyKeepsRoutes(s);
    ShapeRoutes(s[0].title, s[1].title, s[2].title, s[3].title,
      s[0].items[0], s[0].items[1], s[1].items[0], s[2].items[0], s[3].items[0]);
  }

  /** Routes of a menu shaped like the definition: two items in the first
      section and one in each of the other three. */
  lemma ShapeRoutes(t0: string, t1: string, t2: string, t3: string,
                    a: NavItem, b: NavItem, c: NavItem, d: NavItem, e: NavItem)
    ensures AvailableRoutes([Section(t0, [a, b]), Section(t1, [c]), Section(t2, [d]), Section(t3, [e])]) ==
      [ Route(a.labelText, a.href), Route(b.labelText, b.href), Route(c.labelText, c.href),
        Route(d.labelText, d.href), Route(e.labelText, e.href) ]
  {
    var s3 := [Section(t3, [e])];
    var s2 := [Section(t2, [d])] + s3;
    var s1 := [Section(t1, [c])] + s2;
    var s0 := [Section(t0, [a, b])] + s1;
    assert s3[1..] == [] && s2[1..] == s3 && s1[1..] == s2 && s0[1..] == s1;
    assert [a, b][1..] == [b];
    assert AvailableRoutes(s3) == [Route(e.labelText, e.href)];
    assert AvailableRoutes(s2) == [Route(d.labelText, d.href), Route(e.labelText, e.href)];
    assert s0 == [Section(t0, [a, b]), Section(t1, [c]), Section(t2, [d]), Section(t3, [e])];
  }

  // ---------------------------------------------------------------------
  // Search

  /** The route's lower-cased label contains the lower-cased query. */
  predicate Matches(r: Route, query: string) {
    Text.Contains(Text.Lower(r.labelText), Text.Lower(query))
  }

  /** The routes matching the query, in their original order. */
  function MatchingRoutes(routes: seq<Route>, query: string): (r: seq<Route>)
    ensures |r| <= |routes|
    ensures forall x :: x in r <==> x in routes && Matches(x, query)
  {
    if routes == [] then []
    else if Matches(routes[0], query) then [routes[0]] + MatchingRoutes(routes[1..], query)
    else MatchingRoutes(routes[1..], query)
  }

  /** The search works route by route: it distributes over concatenation,
      so matching routes keep their original order and multiplicity. */
  lemma {:induction false} MatchingAppend(a: seq<Route>, b: seq<Route>, query: string)
    ensures MatchingRoutes(a + b, query) == MatchingRoutes(a, query) + MatchingRoutes(b, query)
  {
    if a == [] {
      assert a + b == b;
    } else {
      assert (a + b)[0] == a[0];
      assert (a + b)[1..] == a[1..] + b;
      MatchingAppend(a[1..], b, query);
    }
  }

  /** One route is kept exactly when it matches. */
  lemma MatchingSingle(x: Route, query: string)
    ensures MatchingRoutes([x], query) == if Matches(x, query) then [x] else []
  {
    assert [x][1..] == [];
  }

  /** `filteredResults`: the first five matching routes. */
  function FilteredResults(routes: seq<Route>, query: string): (r: seq<Route>)
    ensures |r| == if |MatchingRoutes(routes, query)| <= MaxResults then |MatchingRoutes(routes, query)| else MaxResults
    ensures r <= MatchingRoutes(routes, query)
    ensures |MatchingRoutes(routes, query)| <= MaxResults ==> r == MatchingRoutes(routes, query)
    ensures forall x :: x in r ==> x in routes && Matches(x, query)
  {
    var m := MatchingRoutes(routes, query);
    if |m| <= MaxResults then m else m[..MaxResults]
  }

  /** The first result, the route Enter opens, is the earliest matching
      route; there is one exactly when some route matches. */
  lemma {:induction false} FirstResultIsFirstMatch(routes: seq<Route>, query: string)
    ensures FilteredResults(routes, query) != [] <==> exists i :: 0 <= i < |routes| && Matches(routes[i], query)
    ensures FilteredResults(routes, query) != [] ==>
      exists i :: 0 <= i < |routes| && routes[i] == FilteredResults(routes, query)[0] && Matches(routes[i], query)
        && forall j :: 0 <= j < i ==> !Matches(routes[j], query)
  {
    var m := MatchingRoutes(routes, query);
    if routes != [] {
      FirstResultIsFirstMatch(routes[1..], query);
      if Matches(routes[0], query) {
        assert FilteredResults(routes, query)[0] == m[0] == routes[0];
      } else {
        assert m == MatchingRoutes(routes[1..], query);
        if m != [] {
          var i :| 0 <= i < |routes[1..]| && routes[1..][i] == m[0] && Matches(routes[1..][i], query)
            && forall j :: 0 <= j < i ==> !Matches(routes[1..][j], query);
          assert routes[i + 1] == m[0];
          forall j | 0 <= j < i + 1
            ensures !Matches(routes[j], query)
          {
            if j > 0 {
              assert routes[j] == routes[1..][j - 1];
            }
          }
        }
        if exists i :: 0 <= i < |routes| && Matches(routes[i], query) {
          var i :| 0 <= i < |routes| && Matches(routes[i], query);
          assert routes[1..][i - 1] == routes[i];
        }
      }
    }
  }

  /** The empty query matches every label, so it offers the first five routes. */
  lemma {:induction false} EmptyQueryMatchesAll(routes: seq<Route>)
    ensures MatchingRoutes(routes, "") == routes
  {
    if routes != [] {
      assert Text.Lower("") == "";
      assert Text.Contains(Text.Lower(routes[0].labelText), "") by {
        assert "" <= Text.Lower(routes[0].labelText);
      }
      EmptyQueryMatchesAll(routes[1..]);
      assert [routes[0]] + routes[1..] == routes;
    }
  }

  /** The search does not depend on the case of ASCII letters in the query. */
  lemma CaseInsensitive(routes: seq<Route>, q1: string, q2: string)
    requires Text.Lower(q1) == Text.Lower(q2)
    ensures FilteredResults(routes, q1) == FilteredResults(routes, q2)
  {
    assert forall r :: Matches(r, q1) == Matches(r, q2);
    MatchingSameQuery(routes, q1, q2);
  }

  lemma {:induction false} MatchingSameQuery(routes: seq<Route>, q1: string, q2: string)
    requires forall r :: Matches(r, q1) == Matches(r, q2)
    ensures MatchingRoutes(routes, q1) == MatchingRoutes(routes, q2)
  {
    if routes != [] {
      MatchingSameQuery(routes[1..], q1, q2);
    }
  }

  /** The results drop-down is open while the search box holds any text. */
  predicate DropdownOpen(searchQuery: string) {
    |searchQuery| > 0
  }

  /** `isActive(href)`: the current pathname is exactly `href`. */
  predicate IsActive(pathname: string, href: string) {
    pathname == href
  }

  /** The search page URL for a query: the query component percent-encoded. */
  function SearchUrl(projectId: string, query: string): string {
    ProjectBase(projectId) + "/search?q=" + Uri.Encode(query)
  }

  /** Reads the query back out of a search page URL. */
  function QueryOf(projectId: string, url: string): Option<string> {
    var prefix := ProjectBase(projectId) + "/search?q=";
    if prefix <= url then Uri.Decode(url[|prefix|..]) else None
  }

  /** Where a search submission navigates, if anywhere: Enter with at least
      one result opens the first result; otherwise a query that is not blank
      after trimming opens the search page. */
  function SubmitTarget(event: SubmitEvent, searchQuery: string, routes: seq<Route>, projectId: string): (target: Option<string>)
    ensures var results := FilteredResults(routes, searchQuery);
      target.Some? <==> (event == KeyPress("Enter") && results != []) || Text.Trim(searchQuery) != ""
    ensures var results := FilteredResults(routes, searchQuery);
      event == KeyPress("Enter") && results != [] ==> target == Some(results[0].href)
    ensures target.Some? && !(event == KeyPress("Enter") && FilteredResults(routes, searchQuery) != []) ==>
      target == Some(SearchUrl(projectId, Text.Trim(searchQuery)))
    ensures target.Some? && !(event == KeyPress("Enter") && FilteredResults(routes, searchQuery) != []) ==>
      QueryOf(projectId, target.value) == Some(Text.Trim(searchQuery))
  {
    var results := FilteredResults(routes, searchQuery);
    var query := Text.Trim(searchQuery);
    if event == KeyPress("Enter") && |results| > 0 then Some(results[0].href)
    else if query != "" then
      Uri.EncodeRoundTrip(query);
      assert (ProjectBase(projectId) + "/search?q=" + Uri.Encode(query))[|ProjectBase(projectId) + "/search?q="|..] == Uri.Encode(query);
      Some(SearchUrl(projectId, query))
    else None
  }

  /** Every navigation the search makes goes to an offered route or to the
      search page of the current project. */
  lemma SubmitTargetIsKnown(event: SubmitEvent, searchQuery: string, routes: seq<Route>, projectId: string)
    ensures var target := SubmitTarget(event, searchQuery, routes, projectId);
      target.Some? ==>
        (exists r :: r in routes && r.href == target.value)
        || (target.value == SearchUrl(projectId, Text.Trim(searchQuery))
            && QueryOf(projectId, target.value) == Some(Text.Trim(searchQuery)))
  {
    var results := FilteredResults(routes, searchQuery);
    if event == KeyPress("Enter") && results != [] {
      assert results[0] in results;
    }
  }

  /** The search box and the router calls it makes. */
  class SearchBox {
    var searchQuery: string
    ghost var pushes: seq<string>

    constructor ()
      ensures searchQuery == "" && pushes == []
    {
      searchQuery := "";
      pushes := [];
    }

    /** Typing into the search input. */
    method SetQuery(text: string)
      modifies this
      ensures searchQuery == text && pushes == old(pushes)
    {
      searchQuery := text;
    }

    /** `handleResultClick`: clears the box and opens the result. */
    method HandleResultClick(href: string)
      modifies this
      ensures searchQuery == "" && pushes == old(pushes) + [href]
    {
      searchQuery := "";
      pushes := pushes + [href];
    }

    /** `handleSearchSubmit` over the routes the menu currently offers. */
    method HandleSearchSubmit(event: SubmitEvent, routes: seq<Route>, projectId: string)
      modifies this
      ensures var target := SubmitTarget(event, old(searchQuery), routes, projectId);
        && (target.Some? ==> searchQuery == "" && pushes == old(pushes) + [target.value])
        && (target.None? ==> searchQuery == old(searchQuery) && pushes == old(pushes))
    {
      var query := Text.Trim(searchQuery);
      var results := FilteredResults(routes, searchQuery);
      if event.KeyPress? && event.key == "Enter" && |results| > 0 {
        HandleResultClick(results[0].href);
        return;
      }
      if query != "" {
        pushes := pushes + [SearchUrl(projectId, query)];
        searchQuery := "";
      }
    }
  }
}
