# wp-sw-manager, modelled in Dafny

wp-sw-manager lets several WordPress plugins contribute to one service
worker per scope. The model covers four cooperating parts.

- **Combinator.** Each scope has a combinator: an append-only, ordered list
  of content writers plus the fixed URL the merged worker is served from.
  Writing the worker emits `;` and then each writer's output, in the order
  the writers were added.
- **Scope manager.** It maps each scope to its combinator.
  - `sw()` memoises per scope and substitutes the default scope for a falsy
    argument.
  - A new scope is routed through the virtual router under
    `wpswmanager/sw/sw@<scope>`.
  - The registrar script lists every scope whose combinator has content,
    with that combinator's URL.
  - The current manager serves the registrar from the generated-file cache.
    It invalidates the cached copy when the set of scopes differs from the
    one persisted in an option.
  - The older manager routes the registrar through the router and echoes it
    directly.
- **Virtual router.** It is a table from a route key to a handler and its
  bound arguments. The route key is the path of a desired URL. The router
  mints a URL through one fixed endpoint that carries the url-encoded key in
  the `_wpswmanager` parameter, and it dispatches a request whose trigger
  parameter is truthy. The current router's endpoint is
  `admin-ajax.php?action=wpswmgr_serve`; the older router's is the home page.
- **Generated-file cache.** Files are named and produced by generators.
  Regenerating a file stores it in exactly one backend: a file under the
  upload directory or a one-year transient. Serving a file takes the
  transient or regenerates the file, then answers 304 or 200 after testing
  the If-Modified-Since and If-None-Match headers. The code ORs the two
  tests. This differs from sections 3.2 and 3.3 of RFC 7232, where
  If-Modified-Since is ignored once If-None-Match is present: a current date
  gives a 304 here even next to a tag that does not match.

Files:

- `common.dfy`: PHP truthiness, the recorded output of a request (`Emit`),
  the site configuration, and the string helpers `ltrim`, `rtrim`, prefix
  stripping, `trailingslashit` and `str_replace`. It also holds stand-ins
  for `md5` and the HTTP date format.
- `url_coding.dfy`: `urlencode` / `urldecode`.
- `combinator.dfy`: the combinator.
- `router.dfy`: both routers. They are one class with an `Endpoint` that is
  `AdminAjax` for the current router and `HomeQuery` for the older one.
- `registry.dfy`: what both managers share: scope resolution, the workers'
  virtual URLs, the registrations list and its JSON, and the registrar
  template substitution.
- `manager.dfy`: the current manager.
- `legacy_manager.dfy`: the older manager.
- `serve_file.dfy`: the generated-file cache.

Output is modelled as a recorded sequence:

- `header()` is `Header`;
- `include` of a static asset is `Include`;
- `echo` is `Echo`;
- `exit` / `wp_die` is `Exit`;
- a fatal error is `Fatal`.

A content writer is a value whose `output` is what it writes when it is
called.

The site, home, admin and upload locations are a `Site` value of relative
paths. These stand in for `site_url`, `home_url`, `admin_url` and
`wp_upload_dir`.

Timestamps are integers. The clock (`time()`) is a `now` parameter.

The registrar template file's contents are a `template` parameter.

Where the code and its description differ, the model follows the code:

- **Unknown route.** Requesting a route key that was never registered is
  not a silent no-op. `parse_request` reads `$this->routes[$key]` without a
  check. Under PHP 7, which the model assumes, PHP warns about the missing
  index, and `call_user_func_array` warns about the null handler and
  returns. Under PHP 8 that call throws a `TypeError` instead. The model
  gives this case its own result, `UnknownRoute(key)`, and records no
  output for it.
- **Writing an unknown scope.** `write_sw` for a scope that has no
  combinator calls a method on null, a fatal error. This happens after the
  headers and includes have been sent. The model records `Fatal` at that
  point.
- **Serving with the filesystem backend.** With the filesystem backend the
  cache's constructor hooks no `wpservefile` action
  (lib/class-wp-serve-file.php:14-21). So `serve_file` is never reached, and
  files are fetched statically from the upload URL that
  `ServeFile.StaticUrlNamesStoredFile` relates to the stored path. Only the
  transient backend serves through `serve_file`, which looks only in the
  transient store. `FileServer.ServeFile` also describes a direct call with
  the filesystem backend, which no hook makes.

## Model

| member | source | states |
|---|---|---|
| Combinator.Combinator.constructor | WP_SW_Manager_Combinator.php:26-37 | a new combinator keeps the given URL and has no writers, so it has no content |
| Combinator.Combinator.AddContent | WP_SW_Manager_Combinator.php:47-49 | exactly one writer is appended at the end, earlier writers stay in order, no de-duplication, and the combinator then has content; the URL is a constant and never changes |
| Combinator.Combinator.WriteContent | WP_SW_Manager_Combinator.php:57-62 | the output is `Render` of the writers, `;` before each writer's output in order; each writer is called exactly once, in order |
| Combinator.Combinator.GetUrl | WP_SW_Manager_Combinator.php:70-72 | returns the URL fixed at construction |
| Combinator.Combinator.HasContent | WP_SW_Manager_Combinator.php:80-82 | true iff at least one writer has been added |
| Combinator.RenderEmpty | WP_SW_Manager_Combinator.php:57-62 | with no writers nothing is written |
| Combinator.RenderConcat | WP_SW_Manager_Combinator.php:57-62 | the output for two lists of writers is the output of the first followed by that of the second |
| Combinator.RenderCons | WP_SW_Manager_Combinator.php:57-62 | the first writer's fragment comes first, after one `;` |
| Combinator.RenderLength | WP_SW_Manager_Combinator.php:57-62 | the output is one separator per writer plus the writers' outputs, nothing else |
| Combinator.RenderTwo | WP_SW_Manager_Combinator.php:57-62 | writers emitting `A` then `B` produce `;A;B` |
| UrlCoding.UrlDecodeEncode | WP_SW_Manager_Router.php:82 | decoding the url-encoded route gives the route back |
| UrlCoding.UrlEncodeNoDelimiters | WP_SW_Manager_Router.php:82 | an encoded route contains no `&`, `#` or `=`, so it is one whole query value |
| Common.LTrimChars | class-wp-sw-manager.php:135 | `ltrim` gives a suffix of its input, every removed character is in the set, and the first remaining one is not |
| Common.StripPrefix | lib/class-wp-serve-file.php:115-117 | with the prefix present, prefix plus result is the input; otherwise the input is unchanged |
| Common.TrailingSlashIt | lib/class-wp-serve-file.php:47 | the result ends in `/` and the character before it is not `/` or `\`; without that last `/` it is a prefix of the input, and every input character past it was a `/` or `\` |
| Common.ReplaceAllAbsent | WP_SW_Manager.php:160 | a text without the placeholder is left unchanged by `str_replace` |
| Common.ReplaceAllFirst | WP_SW_Manager.php:160 | the first occurrence of the placeholder is replaced and the scan resumes after it |
| Common.HttpDateInjective | lib/class-wp-serve-file.php:41 | distinct timestamps are rendered as distinct dates |
| Router.Path | WP_SW_Manager_Router.php:106-110 | the route key is a prefix of the URL without `?` or `#`, and it stops exactly at the query or fragment |
| Router.PathIdempotent | WP_SW_Manager_Router.php:79-80 | a route key is its own key, so `route_url` of a key and of its URL agree |
| Router.RouteUrl | WP_SW_Manager_Router.php:79-83 | the route URL starts with the endpoint prefix, and what follows the prefix decodes back to the route key |
| Router.RouteUrlCarriesRoute | WP_SW_Manager_Router.php:79-83 | the route URL is the endpoint prefix ending in `_wpswmanager=`, followed by a value without `&` or `#` that decodes to the route key; likewise for the older router's home-page endpoint `home_url('/')?_wpswmanager=` |
| Router.HomeRouteUrlShape | class-wp-sw-manager-router.php:30-33 | the older route URL is the home path, a `/`, then the query starting at `?` |
| Router.IdentifyTrigger | WP_SW_Manager_Router.php:119-125 | there is a trigger value iff the `_wpswmanager` key is present, and then it is that key's value |
| Router.DispatchInvokesIff | WP_SW_Manager_Router.php:91-97 | a handler is invoked iff the trigger is present, truthy and a registered key, and it gets that route's stored bound arguments; nothing happens iff the trigger is absent or falsy |
| Router.AddRouteThenDispatch | WP_SW_Manager_Router.php:65-69 | requesting the URL returned by `add_route` dispatches to the registered handler with its bound arguments |
| Router.AddRouteKeepsOthers | WP_SW_Manager_Router.php:65-68 | adding a route changes the dispatch of no other key |
| Router.Router.AddRoute | WP_SW_Manager_Router.php:65-69 | the table gains or overwrites exactly the entry for the URL's path, and the method returns `route_url` of that path; the older router (class-wp-sw-manager-router.php, `add_route`) stores and returns the same way through its own endpoint |
| Router.Router.ParseRequest | WP_SW_Manager_Router.php:91-97 | dispatch without changing the table; an invoked route is one of the table's; the older router dispatches the same way over the parsed query vars |
| Router.Router.QueryVars | class-wp-sw-manager-router.php:44-47 | the input list is kept in order, with `_wpswmanager` appended |
| Router.Router.constructor | WP_SW_Manager_Router.php:51-55 | a new router has an empty route table and keeps its endpoint and site |
| Registry.ResolveScope | WP_SW_Manager.php:95-96 | a truthy scope is kept, while `""` or `"0"` becomes the default scope; the result is always truthy |
| Registry.DefaultScope | WP_SW_Manager.php:126-128 | the default scope is the site path followed by one `/`, so it is never `""` or `"0"` |
| Registry.EmptyScopeIsDefault | WP_SW_Manager.php:126-128 | `sw('')`, `sw('0')` and `sw(default_scope())` name the same scope |
| Registry.SwRouteKeyInjective | WP_SW_Manager.php:151-153 | for scopes without `?` or `#`, the route key is the virtual URL itself, and distinct scopes get distinct routes |
| Registry.SwRouteKeyCollides | WP_SW_Manager.php:151-153 | a scope carrying a query shares its route key with the bare scope |
| Registry.RegistrationsMembership | WP_SW_Manager.php:182-193 | a registration is listed iff its scope is known, its combinator has content, and the URL is that combinator's |
| Registry.RegistrationsOrdered | WP_SW_Manager.php:184-191 | the listed scopes follow insertion order, each at most once |
| Registry.CollectRegistrations | WP_SW_Manager.php:183-191 | the `foreach` loop builds exactly the registrations list |
| Registry.RegistrarScriptSubstitutes | WP_SW_Manager.php:160 | a template holding the placeholder once reads back as its text around the registrations JSON |
| Manager.Manager.constructor | WP_SW_Manager.php:75-80 | a manager starts with no scope and no route, with the persisted option as read |
| Manager.Manager.Sw | WP_SW_Manager.php:95-101 | for a known scope, the same combinator and nothing changes; for a new scope, exactly one new key whose fresh, empty combinator holds the URL of the scope's new route `write_sw` with `[s]`; the option and the invalidations are untouched |
| Manager.Manager.AddNewSw | WP_SW_Manager.php:151-156 | routes `wpswmanager/sw/sw@s` to `write_sw` with `[s]` and stores a combinator holding the returned URL, leaving other scopes alone |
| Manager.Manager.SwJsId | WP_SW_Manager.php:121-124 | the scope, or the default scope when it is falsy; the result is truthy; this is a function, so no state changes |
| Manager.Manager.EnqueueRegistrar | WP_SW_Manager.php:146-149 | without the filesystem backend, the registrar is enqueued at the cache's admin-ajax URL relative to the site |
| Manager.Manager.CheckRegistrations | WP_SW_Manager.php:136-144 | with multiset-equal scope lists nothing changes; otherwise the registrar file is invalidated once and the option becomes the current scope list; afterwards the two agree as multisets |
| Manager.Manager.JsonForSwRegistrations | WP_SW_Manager.php:182-193 | the registrations are exactly the scopes with content, in insertion order, with their URLs, encoded as JSON |
| Manager.Manager.SwRegistrar | WP_SW_Manager.php:158-165 | the generated registrar is the template with `$enabledSw` replaced by the registrations JSON, typed `application/javascript` |
| Manager.Manager.WriteSw | WP_SW_Manager.php:167-180 | the output is the JavaScript and `Service-Worker-Allowed: s` headers, the three base scripts in order, the combinator's rendered content, then the end; an unknown scope dies after the includes |
| Manager.Manager.HandleRequest | WP_SW_Manager_Router.php:91-97 | every route of this manager writes a worker, so an invoked request writes the worker of its bound scope; every other request writes nothing |
| LegacyManager.LegacyManager.constructor | class-wp-sw-manager.php:128-130 | the only initial route is `wpswmanager/sw-registrar.js` to `sw_registrar` with no bound arguments |
| LegacyManager.LegacyManager.Sw | class-wp-sw-manager.php:93-99 | memoising per resolved scope, with the older router's URLs |
| LegacyManager.LegacyManager.AddNewSw | class-wp-sw-manager.php:139-144 | routes `wpswmanager/sw/sw@s` with `[s]` and stores a combinator holding the returned URL |
| LegacyManager.LegacyManager.SwJsId | class-wp-sw-manager.php:119-122 | the scope, or the default scope when it is falsy |
| LegacyManager.LegacyManager.EnqueueRegistrar | class-wp-sw-manager.php:133-137 | as written: the enqueued URL is the registrar's route URL with `ltrim` applied, i.e. a suffix of it whose removed characters are all site-path characters and whose first kept character is not one |
| LegacyManager.LegacyManager.JsonForSwRegistrations | class-wp-sw-manager.php:167-178 | exactly the scopes with content, in insertion order, with their URLs |
| LegacyManager.LegacyManager.SwRegistrar | class-wp-sw-manager.php:146-152 | the JavaScript header, the template with `$enabledSw` replaced by the registrations JSON, then the end |
| LegacyManager.LegacyManager.WriteSw | class-wp-sw-manager.php:154-161 | the headers, the single base script, the rendered content, the end; an unknown scope dies |
| LegacyManager.LegacyManager.HandleRequest | class-wp-sw-manager-router.php:35-42 | dispatch through the older router reaches either a worker or the registrar with their outputs; otherwise nothing is written |
| LegacyManager.EnqueueUrl | class-wp-sw-manager.php:133-137 | the enqueued URL is a suffix of the route URL, every character removed is one of the site path's characters, and the first one kept is not |
| LegacyManager.SiteRelativeUrl | class-wp-sw-manager.php:133-137 | the evidently intended URL: the site path followed by it is the route URL |
| LegacyManager.EnqueueUrlAfterStretch | class-wp-sw-manager.php:135 | when the route URL starts with a stretch of site-path characters and then a character that is not one, the enqueued URL is exactly what follows the stretch |
| LegacyManager.SiteRelativeUrlAfterSite | class-wp-sw-manager.php:134-135 | when the route URL is the site path, a `/` and the query, the site-relative URL is the `/` and the query |
| LegacyManager.EnqueueUrlLosesSlash | class-wp-sw-manager.php:135 | for a site at `/blog`, `ltrim` also removes the `/` before the query, so the as-written URL differs from the site-relative one |
| ServeFile.CompleteKeepsSupplied | lib/class-wp-serve-file.php:39-42 | a supplied `lastModified` is kept; only a missing one becomes the current time; content and type are kept |
| ServeFile.TransientKeyInjective | lib/class-wp-serve-file.php:52 | distinct names use distinct transients |
| ServeFile.Respond | lib/class-wp-serve-file.php:73-90 | 304 with no body iff If-Modified-Since is not before `lastModified` or If-None-Match equals its tag; otherwise 200 with the content and the `Cache-Control: max-age=86400, public`, `Last-Modified`, `ETag` and `Content-Type` headers |
| ServeFile.MatchingTagIsNotModified | lib/class-wp-serve-file.php:76-79 | a request presenting the entry's own tag gets 304, whatever its date header |
| ServeFile.UnconditionalIsFull | lib/class-wp-serve-file.php:82-90 | a request without conditional headers gets the full 200 response |
| ServeFile.FreshDateOverridesStaleTag | lib/class-wp-serve-file.php:76-79 | the two tests are ORed: a current If-Modified-Since date gives 304 even with an If-None-Match tag that does not match |
| ServeFile.ETagInjective | lib/class-wp-serve-file.php:74 | distinct modification times give distinct tags |
| ServeFile.HostRootUrl | lib/class-wp-serve-file.php:103-110 | the file URL ends with the file's name; with the filesystem backend it starts with the upload URL and a `/`, otherwise with the admin-ajax endpoint |
| ServeFile.StaticUrlNamesStoredFile | lib/class-wp-serve-file.php:47-50 | with the filesystem backend, the static URL and the stored path are the upload URL and upload directory followed by the same `wpservefile_files/<name>` |
| ServeFile.WpRootUrl | lib/class-wp-serve-file.php:112-120 | the site prefix is removed only when the URL starts with it; otherwise the URL is unchanged |
| ServeFile.WpRootUrlOfAction | lib/class-wp-serve-file.php:103-120 | the cache's dispatch URL always starts with the site path, and the remainder is `/wp-admin/admin-ajax.php?action=wpservefile&wpservefile_file=<name>` |
| ServeFile.Registered | lib/class-wp-serve-file.php:97-101 | the generator calls of an invalidation are the named files that have a generator |
| ServeFile.TransientsAfterRefreshes | lib/class-wp-serve-file.php:97-101 | after invalidation every named registered file has its fresh one-year transient, and every other key keeps its old transient |
| ServeFile.FileServer.constructor | lib/class-wp-serve-file.php:10-22 | the server starts with no registered file and no generator call; the transient and file stores it is given are kept as they are, and its backend is fixed |
| ServeFile.FileServer.AddFile | lib/class-wp-serve-file.php:93-95 | registers the generator under the name, leaving other names alone, and generates nothing |
| ServeFile.FileServer.RegenerateFile | lib/class-wp-serve-file.php:32-56 | an unregistered name gives nothing and changes nothing; otherwise one generator call, whose completed entry is written to exactly one backend chosen by `useFS` and returned |
| ServeFile.FileServer.ServeFile | lib/class-wp-serve-file.php:58-91 | a cached transient is answered without calling the generator; on a miss the file is regenerated and answered, and an unknown file gets no response |
| ServeFile.FileServer.InvalidateFiles | lib/class-wp-serve-file.php:97-101 | each name is regenerated once, in order, and the backend holds exactly what these regenerations wrote |

## Left out

- Hook wiring (`add_action`, `add_filter`) is host plumbing and is not modelled. The handlers it would call are modelled directly.
- The singleton accessors (`get_manager`, `get_router`, `getInstance`) are not modelled; one object of each class is constructed explicitly.
- The filesystem capability probe of the cache constructor becomes the `useFS` constructor parameter. `mkdir` is not modelled, and a file write always succeeds.
- Transient expiry is not modelled: a stored transient is always found. Its one-year expiration is recorded with it.
- `md5`, `gmdate` and `strtotime` are stand-ins. The tag is `Md5(HttpDate(t))` over integer timestamps. A request's `If-Modified-Since` arrives already parsed to a timestamp, and an unparsable date counts as absent.
- ServeFile.ETagInjective holds for the stand-in `Md5`, which keeps its input; collisions of the real `md5` are not modelled.
- Manager.Manager.CheckRegistrations records `invalidate_files` as an event instead of calling the cache. The current manager's `add_file` registration of its registrar is not wired to a `FileServer`, so the two classes are proved separately.
- Manager.Manager.EnqueueRegistrar: the filesystem backend's URL is only characterised through `ServeFile.WpRootUrl`; the call to `wp_enqueue_script` is I/O.
- Router.Path models `parse_url`'s path for URLs without a scheme or authority, which is how the code calls it. A URL with a host is not modelled.
- UrlCoding.UrlEncode treats each character as one byte. Multi-byte UTF-8 encoding of characters above 255 is not modelled; such a character is kept unchanged.
- Registry.JsonEncode escapes only `"`, `\` and `/`. Control characters and `\u` escapes are not modelled.
- PHP arrays with numeric-string keys (a scope such as `"1"` becoming an integer key) are not modelled. Scopes are strings.
- ServeFile.Respond compares the If-None-Match header with the tag by exact string equality. PHP's loose `==` at lib/class-wp-serve-file.php:77 would also equate two numeric strings of equal value; the tag is an md5 hex digest, which a client may echo back only as that value, and the numeric case is not modelled.
- LegacyManager.LegacyManager.EnqueueRegistrar models the `ltrim` as written; the site-relative URL the code evidently intends is `LegacyManager.SiteRelativeUrl`, see Findings.
- Common.LTrimChars treats the character list as a plain set. The `a..b` range syntax of `ltrim` is not modelled.
- The registrar template file is read by `file_get_contents`; its contents are the `template` parameter.
- The older router's `parse_request` receives its query vars from the host, already filtered by `query_vars`. The dispatch takes them as a map.
- `lib/js/sw-base.js` is browser code and is not part of this model.

## Findings

| source | as written | input that shows it | evidently intended | confidence | as-written member | corrected member |
|---|---|---|---|---|---|---|
| class-wp-sw-manager.php:135 | `ltrim($real_absolute_url, site_url('', 'relative'))` strips every leading character that occurs anywhere in the site path | site and home at `/blog`: the route URL `/blog/?_wpswmanager=…` becomes `?_wpswmanager=…`, losing the `/` before the query | remove the site path as a prefix, giving `/?_wpswmanager=…` (the current version does this with a guarded `substr`, lib/class-wp-serve-file.php:115-117) | low, not executed | LegacyManager.EnqueueUrlLosesSlash | LegacyManager.SiteRelativeUrl |
