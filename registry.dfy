/**
  What both versions of the scope manager share: how a scope is resolved,
  the virtual URL of a scope's worker, the registrations list advertised to
  the registrar script and its JSON form.
 */
module Registry {
  import opened Common
  import opened Router
  import opened Combinator

  /** The placeholder of the registrar template that receives the registrations. */
  const ENABLED_SW := "$enabledSw"

  /**
    `default_scope`: `site_url('/', 'relative')`, the site path and a
    slash; never empty and never `"0"`, so always a truthy scope.
   */
  function DefaultScope(site: Site): (d: string)
    ensures site.sitePath <= d && |d| == |site.sitePath| + 1 && d[|d| - 1] == '/'
    ensures Truthy(d)
  {
    var d := SiteUrl(site, "/");
    assert d[|d| - 1] == '/';
    d
  }

  /**
    The scope `sw()` and `sw_js_id()` work with: the argument, or the
    default scope when the argument is falsy. The resolved scope is always
    truthy.
   */
  function ResolveScope(site: Site, scope: string): (s: string)
    ensures Truthy(s)
    ensures Truthy(scope) ==> s == scope
    ensures !Truthy(scope) ==> s == DefaultScope(site)
  {
    if Truthy(scope) then scope else DefaultScope(site)
  }

  /** An empty scope and the default scope name the same service worker. */
  lemma EmptyScopeIsDefault(site: Site)
    ensures ResolveScope(site, "") == ResolveScope(site, DefaultScope(site))
    ensures ResolveScope(site, "0") == ResolveScope(site, DefaultScope(site))
  {
  }

  /** The virtual URL under which a scope's worker is routed. */
  function SwVirtualUrl(scope: string): string {
    "wpswmanager/sw/sw@" + scope
  }

  /**
    For a scope without `?` or `#` the route key is the virtual URL itself,
    so two such scopes never share a route.
   */
  lemma SwRouteKeyInjective(s1: string, s2: string)
    requires '?' !in s1 && '#' !in s1 && '?' !in s2 && '#' !in s2
    ensures Path(SwVirtualUrl(s1)) == SwVirtualUrl(s1)
    ensures Path(SwVirtualUrl(s1)) == Path(SwVirtualUrl(s2)) <==> s1 == s2
  {
    var u1, u2 := SwVirtualUrl(s1), SwVirtualUrl(s2);
    PathOfPlain(u1);
    PathOfPlain(u2);
    if u1 == u2 {
      assert s1 == u1[|"wpswmanager/sw/sw@"|..];
    }
  }

  lemma PathOfPlain(u: string)
    requires '?' !in u && '#' !in u
    ensures Path(u) == u
  {
  }

  /** A scope whose query part is dropped shares its route with the bare scope. */
  lemma SwRouteKeyCollides(scope: string, query: string)
    requires '?' !in scope && '#' !in scope
    ensures Path(SwVirtualUrl(scope + "?" + query)) == Path(SwVirtualUrl(scope))
  {
    var u := SwVirtualUrl(scope);
    PathOfPlain(u);
    PathPlainThenQuery(u, query);
    assert SwVirtualUrl(scope + "?" + query) == u + "?" + query;
  }

  lemma PathPlainThenQuery(u: string, query: string)
    requires '?' !in u && '#' !in u
    ensures Path(u + "?" + query) == u
  {
    var v := u + "?" + query;
    assert u <= v && v[|u|] == '?';
  }

  datatype Registration = Registration(scope: string, url: string)

  /**
    `json_for_sw_registrations` before encoding: for each scope in
    insertion order whose combinator has content, its scope and URL.
   */
  function RegistrationsOf(scopes: seq<string>, workers: map<string, Combinator>): seq<Registration>
    reads workers.Values
  {
    if scopes == [] then []
    else
      var rest := RegistrationsOf(scopes[..|scopes| - 1], workers);
      var s := scopes[|scopes| - 1];
      if s in workers && workers[s].HasContent() then rest + [Registration(s, workers[s].url)] else rest
  }

  /** A registration is listed iff its scope is known, has content, and carries that combinator's URL. */
  lemma {:induction false} RegistrationsMembership(scopes: seq<string>, workers: map<string, Combinator>, r: Registration)
    ensures r in RegistrationsOf(scopes, workers) <==>
            r.scope in scopes && r.scope in workers && workers[r.scope].HasContent() && r.url == workers[r.scope].url
  {
    if scopes != [] {
      var init := scopes[..|scopes| - 1];
      RegistrationsMembership(init, workers, r);
      assert scopes == init + [scopes[|scopes| - 1]];
    }
  }

  /** `x` comes strictly before `y` in the sequence. */
  predicate Precedes(scopes: seq<string>, x: string, y: string) {
    exists a, b :: 0 <= a < b < |scopes| && scopes[a] == x && scopes[b] == y
  }

  /** Every earlier registration's scope comes before every later one's, and they differ. */
  predicate InScopeOrder(scopes: seq<string>, regs: seq<Registration>) {
    forall i, j :: 0 <= i < j < |regs| ==>
      Precedes(scopes, regs[i].scope, regs[j].scope) && regs[i].scope != regs[j].scope
  }

  /** The listed scopes keep insertion order, and distinct scopes are listed at most once. */
  lemma {:induction false} RegistrationsOrdered(scopes: seq<string>, workers: map<string, Combinator>)
    requires forall i, j :: 0 <= i < j < |scopes| ==> scopes[i] != scopes[j]
    ensures InScopeOrder(scopes, RegistrationsOf(scopes, workers))
  {
    if scopes != [] {
      var init := scopes[..|scopes| - 1];
      var last := scopes[|scopes| - 1];
      RegistrationsOrdered(init, workers);
      var rest := RegistrationsOf(init, workers);
      var regs := RegistrationsOf(scopes, workers);
      assert |regs| <= |rest| + 1 && regs[..|rest|] == rest;
      assert InScopeOrder(init, rest);
      forall i, j | 0 <= i < j < |regs|
        ensures Precedes(scopes, regs[i].scope, regs[j].scope) && regs[i].scope != regs[j].scope
      {
        assert regs[i] == rest[i];
        if j < |rest| {
          assert regs[j] == rest[j];
          assert Precedes(init, rest[i].scope, rest[j].scope);
          var a, b :| 0 <= a < b < |init| && init[a] == rest[i].scope && init[b] == rest[j].scope;
          assert scopes[a] == regs[i].scope && scopes[b] == regs[j].scope;
        } else {
          assert regs[j].scope == last;
          RegistrationsMembership(init, workers, rest[i]);
          assert rest[i].scope in init;
          var a :| 0 <= a < |init| && init[a] == rest[i].scope;
          assert scopes[a] == regs[i].scope && scopes[|scopes| - 1] == regs[j].scope;
        }
      }
    }
  }

  /** The `foreach` loop of `json_for_sw_registrations`. */
  method CollectRegistrations(scopes: seq<string>, workers: map<string, Combinator>) returns (regs: seq<Registration>)
    ensures regs == RegistrationsOf(scopes, workers)
  {
    regs := [];
    var i := 0;
    while i < |scopes|
      invariant 0 <= i <= |scopes|
      invariant regs == RegistrationsOf(scopes[..i], workers)
    {
      var s := scopes[i];
      assert scopes[..i + 1][..i] == scopes[..i];
      if s in workers && workers[s].HasContent() {
        regs := regs + [Registration(s, workers[s].GetUrl())];
      }
      i := i + 1;
    }
    assert scopes[..i] == scopes;
  }

  /** JSON string literal with `json_encode`'s escapes for `"`, `\` and `/`. */
  function JsonString(s: string): string {
    "\"" + JsonEscape(s) + "\""
  }

  function JsonEscape(s: string): string {
    if s == [] then ""
    else
      (if s[0] == '"' then "\\\"" else if s[0] == '\\' then "\\\\" else if s[0] == '/' then "\\/" else [s[0]])
      + JsonEscape(s[1..])
  }

  function JsonObjects(regs: seq<Registration>): string {
    if regs == [] then ""
    else
      var r := regs[0];
      "{\"scope\":" + JsonString(r.scope) + ",\"url\":" + JsonString(r.url) + "}"
      + (if |regs| > 1 then "," else "") + JsonObjects(regs[1..])
  }

  /** `json_encode` of the registrations: an array of `{scope, url}` objects. */
  function JsonEncode(regs: seq<Registration>): string {
    "[" + JsonObjects(regs) + "]"
  }

  /** The registrar script: the template with every placeholder replaced by the registrations. */
  function RegistrarScript(template: string, regs: seq<Registration>): string {
    ReplaceAll(template, ENABLED_SW, JsonEncode(regs))
  }

  /**
    A template holding the placeholder once, with nothing before it that
    could start another, reads back as its text around the JSON.
   */
  lemma RegistrarScriptSubstitutes(before: string, after: string, regs: seq<Registration>)
    requires forall i: nat :: i < |before| ==> !OccursAt(before + ENABLED_SW + after, ENABLED_SW, i)
    requires forall i: nat :: !OccursAt(after, ENABLED_SW, i)
    ensures RegistrarScript(before + ENABLED_SW + after, regs) == before + JsonEncode(regs) + after
  {
    ReplaceAllFirst(before, ENABLED_SW, after, JsonEncode(regs));
    ReplaceAllAbsent(after, ENABLED_SW, JsonEncode(regs));
  }
}
