/**
  The older scope manager. It routes the registrar script through the
  router itself (no generated-file cache, no registration check), offers
  the registrar's URL relative to the site with `ltrim`, and echoes the
  registrar script instead of returning it.
 */
module LegacyManager {
  import opened Common
  import opened UrlCoding
  import opened Router
  import opened Combinator
  import opened Registry

  /** The virtual URL of the registrar script. */
  const SW_REGISTRAR_SCRIPT_URL := "wpswmanager/sw-registrar.js"

  /** The static script included before the combined content of a worker. */
  const BASE_SCRIPT := "lib/js/localforage.nopromises.min.js"

  /** `write_sw`'s output before the combined content. */
  function WorkerPrelude(scope: string): seq<Emit> {
    [ Header("Content-Type: application/javascript"),
      Header("Service-Worker-Allowed: " + scope),
      Include(BASE_SCRIPT) ]
  }

  /**
    `enqueue_registrar` as written, for the route `route`: the route URL
    with every leading character that occurs in the site path removed
    (`ltrim` takes its second argument as a set of characters).
   */
  function EnqueueUrl(site: Site, route: string): (r: string)
    ensures LTrimmed(RouteUrl(HomeQuery, site, route), r, CharSet(SiteUrl(site, "")))
  {
    LTrimChars(RouteUrl(HomeQuery, site, route), CharSet(SiteUrl(site, "")))
  }

  /**
    What `enqueue_registrar` evidently means: the route URL relative to the
    site, i.e. with the site path removed as a prefix.
   */
  function SiteRelativeUrl(site: Site, route: string): (r: string)
    ensures site.sitePath <= site.homePath ==> site.sitePath + r == RouteUrl(HomeQuery, site, route)
  {
    var url := RouteUrl(HomeQuery, site, route);
    HomeRouteUrlShape(site, route);
    assert site.homePath <= url[..|site.homePath| + 1];
    StripPrefix(url, SiteUrl(site, ""))
  }

  /** `ltrim` removes a leading stretch made of the set's characters and stops at the first other one. */
  lemma {:induction false} LTrimStretch(p: string, q: string, chars: set<char>)
    requires forall i :: 0 <= i < |p| ==> p[i] in chars
    requires q == [] || q[0] !in chars
    ensures LTrimChars(p + q, chars) == q
  {
    if p == [] {
      assert p + q == q;
    } else {
      assert (p + q)[1..] == p[1..] + q;
      LTrimStretch(p[1..], q, chars);
    }
  }

  lemma CharSetOfBlog()
    ensures CharSet("/blog") == {'/', 'b', 'l', 'o', 'g'}
  {
    var s := "/blog";
    assert s[0] == '/' && s[1] == 'b' && s[2] == 'l' && s[3] == 'o' && s[4] == 'g';
  }

  /**
    When the route URL is a stretch of site-path characters followed by a
    character that is not one, the as-written URL is what follows the stretch.
   */
  lemma EnqueueUrlAfterStretch(site: Site, route: string, p: string, query: string)
    requires RouteUrl(HomeQuery, site, route) == p + query
    requires forall i :: 0 <= i < |p| ==> p[i] in CharSet(SiteUrl(site, ""))
    requires query != [] && query[0] !in CharSet(SiteUrl(site, ""))
    ensures EnqueueUrl(site, route) == query
  {
    LTrimStretch(p, query, CharSet(SiteUrl(site, "")));
  }

  /** When the route URL is the site path, a `/` and a query, the site-relative URL is `/` and the query. */
  lemma SiteRelativeUrlAfterSite(site: Site, route: string, query: string)
    requires RouteUrl(HomeQuery, site, route) == site.sitePath + "/" + query
    ensures SiteRelativeUrl(site, route) == "/" + query
  {
    var url := RouteUrl(HomeQuery, site, route);
    assert url == site.sitePath + ("/" + query);
    assert SiteUrl(site, "") == site.sitePath && site.sitePath <= url;
    assert url[|site.sitePath|..] == "/" + query;
    assert SiteRelativeUrl(site, route) == StripPrefix(url, site.sitePath);
  }

  /**
    For a site and home at `/blog`, `ltrim` also eats the slash before the
    query: the as-written URL is `?_wpswmanager=…` where the site-relative
    URL is `/?_wpswmanager=…`.
   */
  lemma EnqueueUrlLosesSlash(site: Site, route: string)
    requires site.sitePath == "/blog" && site.homePath == "/blog"
    ensures var query := RouteUrl(HomeQuery, site, route)[|"/blog/"|..];
            && query[0] == '?'
            && EnqueueUrl(site, route) == query
            && SiteRelativeUrl(site, route) == "/" + query
            && EnqueueUrl(site, route) != SiteRelativeUrl(site, route)
  {
    var url := RouteUrl(HomeQuery, site, route);
    HomeRouteUrlShape(site, route);
    var p := url[..6];
    var query := url[6..];
    assert p == "/blog/";
    assert url == p + query;
    assert SiteUrl(site, "") == "/blog";
    CharSetOfBlog();
    assert p[0] == '/' && p[1] == 'b' && p[2] == 'l' && p[3] == 'o' && p[4] == 'g' && p[5] == '/';
    EnqueueUrlAfterStretch(site, route, p, query);
    assert p == site.sitePath + "/";
    SiteRelativeUrlAfterSite(site, route, query);
  }

  class LegacyManager {
    const site: Site
    const router: Router
    var combinators: map<string, Combinator>
    /** The keys of `combinators` in insertion order. */
    var scopes: seq<string>

    ghost predicate Valid()
      reads this, router
    {
      && router.endpoint == HomeQuery && router.site == site
      && (forall i, j :: 0 <= i < j < |scopes| ==> scopes[i] != scopes[j])
      && (forall s :: s in combinators <==> s in scopes)
      && (forall k :: k in router.routes && router.routes[k].handler == Handler.WriteSw ==>
            |router.routes[k].args| == 1 && router.routes[k].args[0] in combinators)
    }

    /** The constructor routes the registrar script (`setup_sw_registrar_script`). */
    constructor (site: Site)
      ensures Valid() && fresh(router)
      ensures this.site == site
      ensures router.routes == map[Path(SW_REGISTRAR_SCRIPT_URL) := Route(Handler.SwRegistrar, [])]
      ensures combinators == map[] && scopes == []
    {
      this.site := site;
      combinators, scopes := map[], [];
      var r := new Router(HomeQuery, site);
      router := r;
      new;
      var _ := r.AddRoute(SW_REGISTRAR_SCRIPT_URL, Handler.SwRegistrar, []);
    }

    /** `sw`: the combinator of the resolved scope, created and routed on first use. */
    method Sw(scope: string) returns (c: Combinator)
      requires Valid()
      modifies this, router
      ensures Valid()
      ensures var s := ResolveScope(site, scope);
              && s in combinators && c == combinators[s]
              && (s in old(combinators) ==>
                    && combinators == old(combinators) && scopes == old(scopes)
                    && router.routes == old(router.routes))
              && (s !in old(combinators) ==>
                    && fresh(c) && c.writers == []
                    && c.url == RouteUrl(HomeQuery, site, Path(SwVirtualUrl(s)))
                    && combinators == old(combinators)[s := c] && scopes == old(scopes) + [s]
                    && router.routes == old(router.routes)[Path(SwVirtualUrl(s)) := Route(Handler.WriteSw, [s])])
    {
      var s := ResolveScope(site, scope);
      if s !in combinators {
        AddNewSw(s);
      }
      c := combinators[s];
    }

    /** `add_new_sw`: route the scope's worker and store a combinator holding the route's URL. */
    method AddNewSw(s: string)
      requires Valid() && s !in combinators
      modifies this, router
      ensures Valid()
      ensures s in combinators && fresh(combinators[s]) && combinators[s].writers == []
      ensures combinators[s].url == RouteUrl(HomeQuery, site, Path(SwVirtualUrl(s)))
      ensures combinators == old(combinators)[s := combinators[s]] && scopes == old(scopes) + [s]
      ensures router.routes == old(router.routes)[Path(SwVirtualUrl(s)) := Route(Handler.WriteSw, [s])]
    {
      var realUrl := router.AddRoute(SwVirtualUrl(s), Handler.WriteSw, [s]);
      var c := new Combinator(realUrl);
      combinators := combinators[s := c];
      scopes := scopes + [s];
    }

    /** `sw_js_id`: the key client code uses for the scope's registration. */
    function SwJsId(scope: string): (id: string)
      ensures Truthy(id)
      ensures Truthy(scope) ==> id == scope
      ensures !Truthy(scope) ==> id == DefaultScope(site)
    {
      ResolveScope(site, scope)
    }

    /**
      `enqueue_registrar` as written: the source URL given to the script
      loader is the registrar's route URL with its leading characters that
      occur in the site path trimmed (`EnqueueUrl`); `SiteRelativeUrl` is
      the site-relative URL this evidently means.
     */
    function EnqueueRegistrar(): (url: string)
      ensures LTrimmed(RouteUrl(HomeQuery, site, SW_REGISTRAR_SCRIPT_URL), url, CharSet(SiteUrl(site, "")))
    {
      EnqueueUrl(site, SW_REGISTRAR_SCRIPT_URL)
    }

    /** `json_for_sw_registrations`: the scopes with content, in order, with their URLs. */
    method JsonForSwRegistrations() returns (regs: seq<Registration>, json: string)
      requires Valid()
      ensures regs == RegistrationsOf(scopes, combinators)
      ensures forall r :: r in regs <==>
                r.scope in combinators && combinators[r.scope].HasContent() && r.url == combinators[r.scope].url
      ensures InScopeOrder(scopes, regs)
      ensures json == JsonEncode(regs)
    {
      regs := CollectRegistrations(scopes, combinators);
      forall r ensures r in regs <==>
          r.scope in combinators && combinators[r.scope].HasContent() && r.url == combinators[r.scope].url
      {
        RegistrationsMembership(scopes, combinators, r);
      }
      RegistrationsOrdered(scopes, combinators);
      json := JsonEncode(regs);
    }

    /** `sw_registrar`: the script header, the template with the registrations, the end of the request. */
    method SwRegistrar(template: string) returns (out: seq<Emit>)
      requires Valid()
      ensures out == [ Header("Content-Type: application/javascript"),
                       Echo(RegistrarScript(template, RegistrationsOf(scopes, combinators))),
                       Exit ]
    {
      var _, json := JsonForSwRegistrations();
      out := [Header("Content-Type: application/javascript"), Echo(ReplaceAll(template, ENABLED_SW, json)), Exit];
    }

    /** `write_sw`: headers, the base script, the combined content, the end; an unknown scope dies. */
    method WriteSw(scope: string) returns (out: seq<Emit>)
      requires Valid()
      ensures scope in combinators ==>
                out == WorkerPrelude(scope) + [Echo(Render(combinators[scope].writers)), Exit]
      ensures scope !in combinators ==> out == WorkerPrelude(scope) + [Fatal]
    {
      out := WorkerPrelude(scope);
      if scope in combinators {
        var text, _ := combinators[scope].WriteContent();
        out := out + [Echo(text), Exit];
      } else {
        out := out + [Fatal];
      }
    }

    /** `parse_request` followed by the call of the dispatched handler. */
    method HandleRequest(query: map<string, string>, template: string) returns (d: Dispatch, out: seq<Emit>)
      requires Valid()
      ensures d == DispatchOf(router.routes, query)
      ensures d.Invoke? && d.handler == Handler.WriteSw ==>
                && |d.args| == 1 && d.args[0] in combinators
                && out == WorkerPrelude(d.args[0]) + [Echo(Render(combinators[d.args[0]].writers)), Exit]
      ensures d.Invoke? && d.handler == Handler.SwRegistrar ==>
                out == [ Header("Content-Type: application/javascript"),
                         Echo(RegistrarScript(template, RegistrationsOf(scopes, combinators))),
                         Exit ]
      ensures !d.Invoke? ==> out == []
    {
      d := router.ParseRequest(query);
      out := [];
      if d.Invoke? {
        if d.handler == Handler.WriteSw {
          out := WriteSw(d.args[0]);
        } else {
          out := SwRegistrar(template);
        }
      }
    }
  }
}
