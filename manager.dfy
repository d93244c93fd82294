/**
  The scope manager: one combinator per scope, each reachable through a
  route of its own, the registrar script listing the scopes that have
  content, and the check that invalidates the cached registrar script when
  the set of scopes changes between requests.
 */
module Manager {
  import opened Common
  import opened Router
  import opened Combinator
  import opened Registry
  import opened ServeFile

  /** The name of the registrar script in the generated-file cache. */
  const SW_REGISTRAR_SCRIPT_URL := "wpswmanager_sw-registrar.js"

  /** The static scripts included before the combined content of a worker. */
  const BASE_SCRIPTS := ["lib/js/localforage.nopromises.min.js", "lib/js/sw-base.js", "lib/js/sw-start.js"]

  /** `write_sw`'s output before the combined content. */
  function WorkerPrelude(scope: string): seq<Emit> {
    [ Header("Content-Type: application/javascript"),
      Header("Service-Worker-Allowed: " + scope),
      Include(BASE_SCRIPTS[0]), Include(BASE_SCRIPTS[1]), Include(BASE_SCRIPTS[2]) ]
  }

  class Manager {
    const site: Site
    const router: Router
    var combinators: map<string, Combinator>
    /** The keys of `combinators` in insertion order (PHP array order). */
    var scopes: seq<string>
    /** The option `wpswmanager_registrations`. */
    var persisted: seq<string>
    /** Every `invalidate_files` call made, with its list of names. */
    var invalidations: seq<seq<string>>

    ghost predicate Valid()
      reads this, router
    {
      && router.endpoint == AdminAjax && router.site == site
      && (forall i, j :: 0 <= i < j < |scopes| ==> scopes[i] != scopes[j])
      && (forall s :: s in combinators <==> s in scopes)
      && (forall k :: k in router.routes ==>
            router.routes[k].handler == Handler.WriteSw &&
            |router.routes[k].args| == 1 && router.routes[k].args[0] in combinators)
    }

    /** The manager starts with no scope; `persisted` is the option as read. */
    constructor (site: Site, persisted: seq<string>)
      ensures Valid() && fresh(router)
      ensures this.site == site && router.routes == map[]
      ensures combinators == map[] && scopes == [] && this.persisted == persisted && invalidations == []
    {
      this.site := site;
      router := new Router(AdminAjax, site);
      combinators, scopes := map[], [];
      this.persisted := persisted;
      invalidations := [];
    }

    /**
      `sw`: the combinator of the resolved scope, created and routed the
      first time the scope is asked for.
     */
    method Sw(scope: string) returns (c: Combinator)
      requires Valid()
      modifies this, router
      ensures Valid()
      ensures var s := ResolveScope(site, scope);
              && s in combinators && c == combinators[s]
              && (s in old(combinators) ==>
                    && combinators == old(combinators) && scopes == old(scopes)
                    && router.routes == old(router.routes))
              && (s !in old(combinators) ==>
                    && fresh(c) && c.writers == []
                    && c.url == RouteUrl(AdminAjax, site, Path(SwVirtualUrl(s)))
                    && combinators == old(combinators)[s := c] && scopes == old(scopes) + [s]
                    && router.routes == old(router.routes)[Path(SwVirtualUrl(s)) := Route(Handler.WriteSw, [s])])
      ensures persisted == old(persisted) && invalidations == old(invalidations)
    {
      var s := ResolveScope(site, scope);
      if s !in combinators {
        AddNewSw(s);
      }
      c := combinators[s];
    }

    /** `add_new_sw`: route the scope's worker and store a combinator holding the route's URL. */
    method AddNewSw(s: string)
      requires Valid() && s !in combinators
      modifies this, router
      ensures Valid()
      ensures s in combinators && fresh(combinators[s]) && combinators[s].writers == []
      ensures combinators[s].url == RouteUrl(AdminAjax, site, Path(SwVirtualUrl(s)))
      ensures combinators == old(combinators)[s := combinators[s]] && scopes == old(scopes) + [s]
      ensures router.routes == old(router.routes)[Path(SwVirtualUrl(s)) := Route(Handler.WriteSw, [s])]
      ensures persisted == old(persisted) && invalidations == old(invalidations)
    {
      var realUrl := router.AddRoute(SwVirtualUrl(s), Handler.WriteSw, [s]);
      var c := new Combinator(realUrl);
      combinators := combinators[s := c];
      scopes := scopes + [s];
    }

    /** `sw_js_id`: the key client code uses for the scope's registration. */
    function SwJsId(scope: string): (id: string)
      ensures Truthy(id)
      ensures Truthy(scope) ==> id == scope
      ensures !Truthy(scope) ==> id == DefaultScope(site)
    {
      ResolveScope(site, scope)
    }

    /**
      `enqueue_registrar`: the script loader gets the registrar's URL in the
      generated-file cache, relative to the site; through the cache's own
      dispatch action that is the admin-ajax path below the site.
     */
    function EnqueueRegistrar(useFS: bool): (url: string)
      ensures !useFS ==> url == "/wp-admin/admin-ajax.php" + ACTION_QUERY + SW_REGISTRAR_SCRIPT_URL
    {
      WpRootUrlOfAction(site, SW_REGISTRAR_SCRIPT_URL);
      WpRootUrl(useFS, site, SW_REGISTRAR_SCRIPT_URL)
    }

    /**
      `check_registrations`: when the persisted scopes and the current ones
      differ as multisets, invalidate the registrar script once and persist
      the current scopes; otherwise change nothing.
     */
    method CheckRegistrations()
      requires Valid()
      modifies this
      ensures Valid()
      ensures combinators == old(combinators) && scopes == old(scopes)
      ensures multiset(old(persisted)) == multiset(scopes) ==>
                persisted == old(persisted) && invalidations == old(invalidations)
      ensures multiset(old(persisted)) != multiset(scopes) ==>
                persisted == scopes && invalidations == old(invalidations) + [[SW_REGISTRAR_SCRIPT_URL]]
      ensures multiset(persisted) == multiset(scopes)
    {
      var areEqual := multiset(persisted) == multiset(scopes);
      if !areEqual {
        invalidations := invalidations + [[SW_REGISTRAR_SCRIPT_URL]];
        persisted := scopes;
      }
    }

    /** `json_for_sw_registrations`: the scopes with content, in order, with their URLs. */
    method JsonForSwRegistrations() returns (regs: seq<Registration>, json: string)
      requires Valid()
      ensures regs == RegistrationsOf(scopes, combinators)
      ensures forall r :: r in regs <==>
                r.scope in combinators && combinators[r.scope].HasContent() && r.url == combinators[r.scope].url
      ensures InScopeOrder(scopes, regs)
      ensures json == JsonEncode(regs)
    {
      regs := CollectRegistrations(scopes, combinators);
      forall r ensures r in regs <==>
          r.scope in combinators && combinators[r.scope].HasContent() && r.url == combinators[r.scope].url
      {
        RegistrationsMembership(scopes, combinators, r);
      }
      RegistrationsOrdered(scopes, combinators);
      json := JsonEncode(regs);
    }

    /** `sw_registrar`: the generated registrar script, for the file cache. */
    method SwRegistrar(template: string) returns (file: Generated)
      requires Valid()
      ensures file == Generated(RegistrarScript(template, RegistrationsOf(scopes, combinators)),
                                "application/javascript", None)
    {
      var _, json := JsonForSwRegistrations();
      file := Generated(ReplaceAll(template, ENABLED_SW, json), "application/javascript", None);
    }

    /**
      `write_sw`: the script headers with the scope as allowed scope, the
      base scripts, the combined content, the end of the request. An unknown
      scope dies after the base scripts.
     */
    method WriteSw(scope: string) returns (out: seq<Emit>)
      requires Valid()
      ensures scope in combinators ==>
                out == WorkerPrelude(scope) + [Echo(Render(combinators[scope].writers)), Exit]
      ensures scope !in combinators ==> out == WorkerPrelude(scope) + [Fatal]
    {
      out := WorkerPrelude(scope);
      if scope in combinators {
        var text, _ := combinators[scope].WriteContent();
        out := out + [Echo(text), Exit];
      } else {
        out := out + [Fatal];
      }
    }

    /**
      `parse_request` followed by the call it makes: the only routes of
      this manager are its workers', so a dispatch always writes one.
     */
    method HandleRequest(query: map<string, string>) returns (d: Dispatch, out: seq<Emit>)
      requires Valid()
      ensures d == DispatchOf(router.routes, query)
      ensures d.Invoke? ==>
                && d.handler == Handler.WriteSw && |d.args| == 1 && d.args[0] in combinators
                && out == WorkerPrelude(d.args[0]) + [Echo(Render(combinators[d.args[0]].writers)), Exit]
      ensures !d.Invoke? ==> out == []
    {
      d := router.ParseRequest(query);
      out := [];
      if d.Invoke? {
        out := WriteSw(d.args[0]);
      }
    }
  }

  /** Scopes `/a/` then `/b/` against a snapshot `[/a/]`: the sets differ. */
  lemma SnapshotDiffers()
    ensures multiset(["/a/"]) != multiset(["/a/", "/b/"])
  {
    assert multiset(["/a/", "/b/"])["/b/"] == 1;
  }

  /** Registering `/a/` and `/b/` over a snapshot `[/a/]` invalidates and persists `[/a/, /b/]`. */
  method SnapshotScenario()
  {
    var m := new Manager(Site("", "", "/var/www/wp-content/uploads", "/wp-content/uploads"), ["/a/"]);
    assert Truthy("/a/") && Truthy("/b/");
    var a := m.Sw("/a/");
    assert m.scopes == ["/a/"];
    var b := m.Sw("/b/");
    assert m.scopes == ["/a/", "/b/"];
    SnapshotDiffers();
    m.CheckRegistrations();
    assert m.invalidations == [[SW_REGISTRAR_SCRIPT_URL]];
    assert m.persisted == ["/a/", "/b/"];
  }

  /** `sw('')` and `sw(default_scope())` give the same instance. */
  method MemoScenario(site: Site)
  {
    var m := new Manager(site, []);
    var c1 := m.Sw("");
    var c2 := m.Sw(DefaultScope(site));
    EmptyScopeIsDefault(site);
    assert c1 == c2;
  }

  /** Two writers added to one scope are both written, in order. */
  method ContentScenario(site: Site)
  {
    var m := new Manager(site, []);
    assert Truthy("/x/");
    var c3 := m.Sw("/x/");
    assert m.combinators["/x/"] == c3 && c3.writers == [];
    c3.AddContent(Writer("a", "A"));
    c3.AddContent(Writer("b", "B"));
    assert m.combinators["/x/"].writers == [Writer("a", "A"), Writer("b", "B")];
    var out := m.WriteSw("/x/");
    RenderTwo(Writer("a", "A"), Writer("b", "B"));
    assert |WorkerPrelude("/x/")| == 5;
    assert out[5] == Echo(";A;B");
  }
}
