/**
 * The route metadata cache of package metadata: the published list of
 * routes, the page handler that builds a new list, the loader that passes
 * the fetch's error on, and the load that publishes only on success.
 */
module RouteMetadata {
  import opened Wrappers
  import opened Paging

  /** Route: the entity of a /v2/routes resource. */
  datatype Route = Route(
    guid: string,
    host: string,
    path: string,
    domainGuid: string,
    spaceGuid: string,
    serviceInstanceGuid: string,
    port: int)

  function GuidOf(route: Route): string {
    route.guid
  }

  /** The handler's reconciliation: the envelope's guid replaces the entity's, nothing else changes. */
  function WithGuid(route: Route, guid: string): (r: Route)
    ensures r.guid == guid
    ensures r.(guid := route.guid) == route
  {
    route.(guid := guid)
  }

  /**
   * FindRouteMetadata's answer: the first route whose guid is `id`, or, when
   * there is none, a new route carrying `id` with every other field empty.
   */
  function Lookup(routes: seq<Route>, id: string): (r: Route)
    ensures (forall i | 0 <= i < |routes| :: routes[i].guid != id) ==> r == Route(id, "", "", "", "", "", 0)
    ensures (exists i | 0 <= i < |routes| :: routes[i].guid == id) ==>
              exists k | 0 <= k < |routes| ::
                && routes[k] == r
                && r.guid == id
                && forall j | 0 <= j < k :: routes[j].guid != id
  {
    var i := IndexOf(routes, GuidOf, id);
    if i < |routes| then routes[i] else Route(id, "", "", "", "", "", 0)
  }

  /** Whether the route is found or made up, it carries the guid asked for. */
  lemma LookupCarriesId(routes: seq<Route>, id: string)
    ensures Lookup(routes, id).guid == id
  {
    var i := IndexOf(routes, GuidOf, id);
    if i < |routes| {
      assert GuidOf(routes[i]) == id;
    }
  }

  /**
   * handleRequest: on a page that decodes, append every resource's entity,
   * with the envelope's guid, after what is already accumulated; on a page
   * that does not, return the decoder's error and add nothing.
   */
  method HandleRequest(acc: seq<Route>, page: Page<Route>) returns (next: seq<Route>, err: Option<string>)
    ensures next == acc + PageEntities(page, WithGuid)
    ensures page.Decoded? ==> |next| == |acc| + |page.resources|
    ensures err == if page.Undecodable? then Some(page.reason) else None
  {
    match page {
      case Undecodable(reason) =>
        next := acc;
        err := Some(reason);
        assert acc + [] == acc;
      case Decoded(rs) =>
        next := acc;
        var index := 0;
        while index < |rs|
          invariant 0 <= index <= |rs|
          invariant next == acc + Reconciled(rs[..index], WithGuid)
        {
          var entity := rs[index].entity.(guid := rs[index].meta.guid);
          ReconciledStep(rs, index, WithGuid);
          next := next + [entity];
          index := index + 1;
        }
        assert rs[..index] == rs;
        err := None;
    }
  }

  /**
   * getRouteMetadata: hand every fetched page to the handler and return the
   * accumulated list together with whatever error the fetch reports.
   */
  method GetRouteMetadata(run: Run<Route>) returns (routes: seq<Route>, err: Option<string>)
    ensures routes == Accumulated(run.pages, WithGuid)
    ensures |routes| == DecodedCount(run.pages)
    ensures err == run.error
  {
    routes := [];
    var index := 0;
    while index < |run.pages|
      invariant 0 <= index <= |run.pages|
      invariant routes == Accumulated(run.pages[..index], WithGuid)
    {
      AccumulatedStep(run.pages, index, WithGuid);
      var next, pageErr := HandleRequest(routes, run.pages[index]);
      routes := next;
      index := index + 1;
    }
    assert run.pages[..index] == run.pages;
    err := run.error;
  }

  /** The package state: routesMetadataCache. */
  class RouteCache {
    var routes: seq<Route>

    constructor ()
      ensures routes == []
    {
      routes := [];
    }

    /** AllRoutes: the published list itself. */
    function AllRoutes(): seq<Route>
      reads this
    {
      routes
    }

    /** FindRouteMetadata: a front-to-back scan; the cache is only read. */
    method FindRouteMetadata(id: string) returns (route: Route)
      ensures route == Lookup(routes, id)
      ensures route.guid == id
    {
      LookupCarriesId(routes, id);
      var index := 0;
      while index < |routes|
        invariant 0 <= index <= |routes|
        invariant forall j | 0 <= j < index :: routes[j].guid != id
      {
        if routes[index].guid == id {
          assert IndexOf(routes, GuidOf, id) == index;
          return routes[index];
        }
        index := index + 1;
      }
      assert IndexOf(routes, GuidOf, id) == |routes|;
      return Route(id, "", "", "", "", "", 0);
    }

    /**
     * LoadRouteCache: publish the loaded list only when the fetch reported no
     * error; on an error the partial list is dropped and the cache kept.
     */
    method LoadRouteCache(run: Run<Route>)
      modifies this`routes
      ensures run.error.Some? ==> routes == old(routes)
      ensures run.error.None? ==> routes == Accumulated(run.pages, WithGuid)
    {
      var data, err := GetRouteMetadata(run);
      if err.Some? {
        return;
      }
      routes := data;
    }
  }
}
