/**
  The virtual router: a table from route key (the path of a desired URL) to
  a handler and its bound arguments, a URL minted for each route through
  one fixed endpoint, and dispatch of an incoming request by its trigger
  parameter. `AdminAjax` is the endpoint of the current router
  (`admin-ajax.php?action=wpswmgr_serve&_wpswmanager=…`), `HomeQuery` that of
  the older one (`home_url('/')?_wpswmanager=…`).
 */
module Router {
  import opened Common
  import opened UrlCoding

  const TRIGGER := "_wpswmanager"
  const ACTION := "wpswmgr_serve"

  datatype Endpoint = AdminAjax | HomeQuery

  /** The handlers the manager registers. */
  datatype Handler = WriteSw | SwRegistrar

  datatype Route = Route(handler: Handler, args: seq<string>)

  /**
    What a request leads to: nothing (no truthy trigger), a trigger naming
    no route, or one call of a handler with its bound arguments.
   */
  datatype Dispatch = NotTriggered | UnknownRoute(key: string) | Invoke(handler: Handler, args: seq<string>)

  /**
    The path component of a URL: everything before the query (`?`) or the
    fragment (`#`); empty when there is no path.
   */
  function Path(url: string): (p: string)
    ensures p <= url
    ensures '?' !in p && '#' !in p
    ensures |p| < |url| ==> url[|p|] == '?' || url[|p|] == '#'
  {
    if url == [] || url[0] == '?' || url[0] == '#' then [] else [url[0]] + Path(url[1..])
  }

  /** A route key is its own path, so `route_url(route(u))` and `route_url(u)` agree. */
  lemma PathIdempotent(url: string)
    ensures Path(Path(url)) == Path(url)
  {
  }

  /** Everything of the route URL before the encoded route. */
  function RouteUrlPrefix(endpoint: Endpoint, site: Site): string {
    match endpoint
    case AdminAjax => AdminUrl(site, "admin-ajax.php") + "?action=" + ACTION + "&" + TRIGGER + "="
    case HomeQuery => HomeUrl(site, "/") + "?" + TRIGGER + "="
  }

  /**
    `route_url`: the endpoint, then the trigger carrying the url-encoded
    route; what follows the endpoint decodes back to the route key.
   */
  function RouteUrl(endpoint: Endpoint, site: Site, routeOrUrl: string): (r: string)
    ensures RouteUrlPrefix(endpoint, site) <= r
    ensures UrlDecode(r[|RouteUrlPrefix(endpoint, site)|..]) == Path(routeOrUrl)
  {
    var prefix := RouteUrlPrefix(endpoint, site);
    var enc := UrlEncode(Path(routeOrUrl));
    UrlDecodeEncode(Path(routeOrUrl));
    assert (prefix + enc)[|prefix|..] == enc;
    prefix + enc
  }

  /** The older endpoint's URL: the home path, a `/`, then the query from its `?` on. */
  lemma HomeRouteUrlShape(site: Site, routeOrUrl: string)
    ensures var url := RouteUrl(HomeQuery, site, routeOrUrl);
            var n := |site.homePath| + 1;
            && n < |url| && url[..n] == site.homePath + "/" && url[n] == '?'
  {
    var h := site.homePath + "/";
    var q := "?" + TRIGGER + "=";
    var enc := UrlEncode(Path(routeOrUrl));
    assert RouteUrlPrefix(HomeQuery, site) == h + q;
    var url := RouteUrl(HomeQuery, site, routeOrUrl);
    assert url == h + (q + enc);
    assert (q + enc)[0] == '?';
  }

  /**
    A route URL ends with the trigger parameter, whose value runs to the
    end of the URL and decodes to the route key.
   */
  lemma RouteUrlCarriesRoute(endpoint: Endpoint, site: Site, routeOrUrl: string)
    ensures var url := RouteUrl(endpoint, site, routeOrUrl);
            var prefix := RouteUrlPrefix(endpoint, site);
            && prefix <= url
            && prefix[|prefix| - |TRIGGER| - 1..] == TRIGGER + "="
            && '&' !in url[|prefix|..] && '#' !in url[|prefix|..]
            && UrlDecode(url[|prefix|..]) == Path(routeOrUrl)
  {
    var url := RouteUrl(endpoint, site, routeOrUrl);
    var prefix := RouteUrlPrefix(endpoint, site);
    assert url[|prefix|..] == UrlEncode(Path(routeOrUrl));
    UrlEncodeNoDelimiters(Path(routeOrUrl));
  }

  /** `identify_trigger`: the trigger parameter's value when the key is present. */
  function IdentifyTrigger(query: map<string, string>): (r: Option<string>)
    ensures r.Some? <==> TRIGGER in query
    ensures r.Some? ==> r.value == query[TRIGGER]
  {
    if TRIGGER in query then Some(query[TRIGGER]) else None
  }

  /** `parse_request` as a function of the table and the request's query. */
  function DispatchOf(routes: map<string, Route>, query: map<string, string>): Dispatch {
    match IdentifyTrigger(query)
    case None => NotTriggered
    case Some(key) =>
      if !Truthy(key) then NotTriggered
      else if key in routes then Invoke(routes[key].handler, routes[key].args)
      else UnknownRoute(key)
  }

  /** A handler is called iff the trigger is truthy and names a route; it gets that route's arguments. */
  lemma DispatchInvokesIff(routes: map<string, Route>, query: map<string, string>)
    ensures DispatchOf(routes, query).Invoke? <==>
            TRIGGER in query && Truthy(query[TRIGGER]) && query[TRIGGER] in routes
    ensures DispatchOf(routes, query).Invoke? ==>
            var r := routes[query[TRIGGER]];
            DispatchOf(routes, query) == Invoke(r.handler, r.args)
    ensures DispatchOf(routes, query).NotTriggered? <==> TRIGGER !in query || !Truthy(query[TRIGGER])
  {
  }

  /**
    Registering a route and requesting its URL reaches the registered
    handler with the bound arguments, for a truthy route key.
   */
  lemma AddRouteThenDispatch(routes: map<string, Route>, endpoint: Endpoint, site: Site,
                             desiredUrl: string, handler: Handler, args: seq<string>)
    requires Truthy(Path(desiredUrl))
    ensures var url := RouteUrl(endpoint, site, Path(desiredUrl));
            var value := url[|RouteUrlPrefix(endpoint, site)|..];
            DispatchOf(routes[Path(desiredUrl) := Route(handler, args)], map[TRIGGER := UrlDecode(value)])
              == Invoke(handler, args)
  {
    PathIdempotent(desiredUrl);
    RouteUrlCarriesRoute(endpoint, site, Path(desiredUrl));
  }

  /** Adding a route changes the dispatch of no other key. */
  lemma AddRouteKeepsOthers(routes: map<string, Route>, key: string, route: Route, query: map<string, string>)
    requires TRIGGER in query ==> query[TRIGGER] != key
    ensures DispatchOf(routes[key := route], query) == DispatchOf(routes, query)
  {
  }

  class Router {
    const endpoint: Endpoint
    const site: Site
    var routes: map<string, Route>

    constructor (endpoint: Endpoint, site: Site)
      ensures this.endpoint == endpoint && this.site == site
      ensures routes == map[]
    {
      this.endpoint := endpoint;
      this.site := site;
      routes := map[];
    }

    /**
      `add_route`: store the handler and the bound arguments under the
      desired URL's path, replacing any route with that key, and return the
      route's URL.
     */
    method AddRoute(desiredUrl: string, handler: Handler, args: seq<string>) returns (realUrl: string)
      modifies this
      ensures routes == old(routes)[Path(desiredUrl) := Route(handler, args)]
      ensures realUrl == RouteUrl(endpoint, site, Path(desiredUrl))
    {
      var route := Path(desiredUrl);
      routes := routes[route := Route(handler, args)];
      realUrl := RouteUrl(endpoint, site, route);
    }

    /** `parse_request`: a read-only lookup of the trigger's route. */
    method ParseRequest(query: map<string, string>) returns (d: Dispatch)
      ensures d == DispatchOf(routes, query)
      ensures d.Invoke? ==> Route(d.handler, d.args) in routes.Values
    {
      var trigger := IdentifyTrigger(query);
      if trigger.Some? && Truthy(trigger.value) {
        var key := trigger.value;
        if key in routes {
          d := Invoke(routes[key].handler, routes[key].args);
        } else {
          d := UnknownRoute(key);
        }
      } else {
        d := NotTriggered;
      }
    }

    /** `query_vars` (older router): register the trigger as a query variable. */
    method QueryVars(vars: seq<string>) returns (r: seq<string>)
      ensures |r| == |vars| + 1 && r[..|vars|] == vars && r[|vars|] == TRIGGER
    {
      r := vars + [TRIGGER];
    }
  }
}
