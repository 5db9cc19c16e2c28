/**
  `MY_Controller`: the per-request context built from the router, the site
  configuration and the identity provider; breadcrumbs; the `verify_login` /
  `verify_auth` gates; and the view-data dictionary `render` assembles.
  ion_auth's answers are inputs (`IonAuth`).
 */
module Controller {
  import opened Wrappers
  import opened Php
  import opened Request

  /** An entry of a configuration array (a menu item, a meta tag, a script, a page rule). */
  datatype Item = Item(key: string, value: string)

  type Arr = seq<Item>

  /** `$config['site']`; a missing key is None. */
  datatype SiteConfig = SiteConfig(
    name: string,
    title: string,
    menu: Option<Arr>,
    menuUser: Option<Arr>,
    menuSettings: Option<Arr>,
    menuSupport: Option<Arr>,
    meta: Option<Arr>,
    scripts: Option<Arr>,
    stylesheets: Option<Arr>,
    pageAuth: Option<Arr>,
    loginUrl: string,
    gaId: Option<string>)

  /** The `login_url` of the admin module's site configuration. */
  const SiteLoginUrl := "admin/Auth/Login"

  /** What the router reports for the request. */
  datatype Route = Route(moduleName: string, ctrler: string, action: string, httpMethod: string)

  datatype UserRow = UserRow(id: string, email: string)

  datatype GroupRow = GroupRow(id: string, name: string)

  /**
    ion_auth's answers for this request: whether the library is loaded, whether a
    user is logged in, the current user row (`user()->row()`, NULL when none) and
    that user's groups (`get_users_groups`).
   */
  datatype IonAuth = IonAuth(loaded: bool, loggedIn: bool, user: Option<UserRow>, groups: seq<GroupRow>)

  datatype Crumb = Crumb(name: string, url: string)

  /** The controller's state after its constructor's setup. */
  datatype Context = Context(
    route: Route,
    siteName: string,
    title: string,
    menu: Arr,
    menuUser: Arr,
    menuSettings: Arr,
    menuSupport: Arr,
    metaData: Arr,
    scripts: Option<Arr>,
    stylesheets: Option<Arr>,
    pageAuth: Arr,
    breadcrumb: seq<Crumb>,
    user: Option<UserRow>,
    userGroups: seq<GroupRow>,
    mainGroup: Option<string>,
    siteConfig: SiteConfig,
    bodyClass: string)

  /**
    `push_breadcrumb`: the entry goes last when appending and first otherwise;
    the existing entries keep their order.
   */
  function PushBreadcrumb(crumbs: seq<Crumb>, name: string, url: string, append: bool): (r: seq<Crumb>)
    ensures |r| == |crumbs| + 1
    ensures append ==> r[|crumbs|] == Crumb(name, url) && r[..|crumbs|] == crumbs
    ensures !append ==> r[0] == Crumb(name, url) && r[1..] == crumbs
  {
    var entry := Crumb(name, url);
    if append then crumbs + [entry] else [entry] + crumbs
  }

  /** Appending one entry and prepending another give the same list in either order. */
  lemma PushBreadcrumbCommutes(crumbs: seq<Crumb>, first: Crumb, last: Crumb)
    ensures PushBreadcrumb(PushBreadcrumb(crumbs, last.name, last.url, true), first.name, first.url, false)
         == PushBreadcrumb(PushBreadcrumb(crumbs, first.name, first.url, false), last.name, last.url, true)
  {
    assert [first] + (crumbs + [last]) == ([first] + crumbs) + [last];
  }

  /** `empty($a) ? array() : $a` on a configuration entry: a missing entry reads as the empty array. */
  function OrEmpty(o: Option<Arr>): (r: Arr)
    ensures o.Some? ==> r == o.value
    ensures o.None? ==> r == []
  {
    if o.None? || o.value == [] then [] else o.value
  }

  /** The main group: the first group's name when there is a first group and its name is not empty. */
  function MainGroup(groups: seq<GroupRow>): (r: Option<string>)
    ensures r.Some? <==> |groups| > 0 && !IsEmptyString(groups[0].name)
    ensures r.Some? ==> r.value == groups[0].name
  {
    if |groups| > 0 && !IsEmptyString(groups[0].name) then Some(groups[0].name) else None
  }

  /**
    `_setup`. Menus, meta data and page rules default to empty arrays when missing
    or empty (which is to say they are the configured array or []); scripts and
    stylesheets are copied without a default. A "Home" crumb with url '' is pushed
    exactly when the controller is not 'home'. The user is loaded only when ion_auth
    is loaded and reports a login, and the groups only when that user row exists.
   */
  function Setup(route: Route, cfg: SiteConfig, auth: IonAuth, multilingual: bool, homeLabel: string): (r: Context)
    ensures r.route == route && r.siteConfig == cfg
    ensures r.siteName == cfg.name && r.title == cfg.title
    ensures r.menu == cfg.menu.GetOr([]) && r.menuUser == cfg.menuUser.GetOr([])
    ensures r.menuSettings == cfg.menuSettings.GetOr([]) && r.menuSupport == cfg.menuSupport.GetOr([])
    ensures r.metaData == cfg.meta.GetOr([]) && r.pageAuth == cfg.pageAuth.GetOr([])
    ensures r.scripts == cfg.scripts && r.stylesheets == cfg.stylesheets
    ensures route.ctrler == "home" ==> r.breadcrumb == []
    ensures route.ctrler != "home" ==> r.breadcrumb == [Crumb(if multilingual then homeLabel else "Home", "")]
    ensures r.user == (if auth.loaded && auth.loggedIn then auth.user else None)
    ensures r.userGroups == (if r.user.Some? then auth.groups else [])
    ensures r.mainGroup == MainGroup(r.userGroups)
    ensures r.bodyClass == ""
  {
    var crumbs :=
      if route.ctrler != "home" then PushBreadcrumb([], if multilingual then homeLabel else "Home", "", true)
      else [];
    var user := if auth.loaded && auth.loggedIn then auth.user else None;
    var groups := if user.Some? then auth.groups else [];
    Context(
      route, cfg.name, cfg.title,
      OrEmpty(cfg.menu), OrEmpty(cfg.menuUser), OrEmpty(cfg.menuSettings), OrEmpty(cfg.menuSupport),
      OrEmpty(cfg.meta), cfg.scripts, cfg.stylesheets, OrEmpty(cfg.pageAuth),
      crumbs, user, groups, MainGroup(groups), cfg, "")
  }

  /** The redirect target of the gates: the given url unless it is loosely NULL, else the site's login url. */
  function LoginTarget(redirectUrl: Option<string>, loginUrl: string): (r: string)
    ensures IsLooseNull(redirectUrl) ==> r == loginUrl
    ensures !IsLooseNull(redirectUrl) ==> r == redirectUrl.value
  {
    if IsLooseNull(redirectUrl) then loginUrl else redirectUrl.value
  }

  /** `verify_login`: redirects exactly when nobody is logged in. */
  function VerifyLogin(ctx: Context, auth: IonAuth, redirectUrl: Option<string>): (r: Run<()>)
    ensures r.effects == []
    ensures r.Returned() <==> auth.loggedIn
    ensures !auth.loggedIn ==> r.RedirectedTo(LoginTarget(redirectUrl, ctx.siteConfig.loginUrl))
  {
    if !auth.loggedIn then Run([], Exited(Redirect(LoginTarget(redirectUrl, ctx.siteConfig.loginUrl))))
    else Run([], Done(()))
  }

  /**
    `verify_auth` with a positive group answer is `verify_login`; passing
    `verify_auth` implies passing `verify_login`; and where `verify_login` redirects,
    `verify_auth` redirects the same way whatever the group answer.
   */
  lemma VerifyAuthRefinesVerifyLogin(ctx: Context, auth: IonAuth, inGroup: bool, redirectUrl: Option<string>)
    ensures VerifyAuth(ctx, auth, true, redirectUrl) == VerifyLogin(ctx, auth, redirectUrl)
    ensures VerifyAuth(ctx, auth, inGroup, redirectUrl).Returned() ==> VerifyLogin(ctx, auth, redirectUrl).Returned()
    ensures !VerifyLogin(ctx, auth, redirectUrl).Returned() ==> VerifyAuth(ctx, auth, inGroup, redirectUrl) == VerifyLogin(ctx, auth, redirectUrl)
  {
  }

  /**
    `verify_auth`: redirects exactly when nobody is logged in or the user is not in
    the group; `inGroup` is ion_auth's `in_group($group)` answer, asked only after
    a login was found.
   */
  function VerifyAuth(ctx: Context, auth: IonAuth, inGroup: bool, redirectUrl: Option<string>): (r: Run<()>)
    ensures r.effects == []
    ensures r.Returned() <==> auth.loggedIn && inGroup
    ensures !r.Returned() ==> r.RedirectedTo(LoginTarget(redirectUrl, ctx.siteConfig.loginUrl))
  {
    if !auth.loggedIn || !inGroup then Run([], Exited(Redirect(LoginTarget(redirectUrl, ctx.siteConfig.loginUrl))))
    else Run([], Done(()))
  }

  // ---------------------------------------------------------------------------
  // render

  /** A value of the view-data dictionary. `Object` stands for any other object a page stores. */
  datatype Value = Null | Str(s: string) | Items(items: Arr) | User(row: UserRow) | Object(tag: string)

  /** `empty()` on a view-data value; objects are never empty. */
  predicate IsEmpty(v: Value) {
    match v
    case Null => true
    case Str(s) => IsEmptyString(s)
    case Items(a) => a == []
    case User(_) => false
    case Object(_) => false
  }

  function ItemsOrNull(o: Option<Arr>): Value {
    match o
    case Some(a) => Items(a)
    case None => Null
  }

  function UserValue(u: Option<UserRow>): Value {
    match u
    case Some(row) => User(row)
    case None => Null
  }

  /**
    The URI expression of `render` as written: the raw URI when the module name is
    empty, otherwise the URI with every occurrence of "<module>/" deleted. A URI
    that does not mention "<module>/" is kept, the result is never longer, and a
    leading "<module>/" always goes.
   */
  function CurrentUri(moduleName: string, uri: string): (r: string)
    ensures IsEmptyString(moduleName) || !Occurs(moduleName + "/", uri) ==> r == uri
    ensures |r| <= |uri|
    ensures !IsEmptyString(moduleName) && StartsWith(uri, moduleName + "/") ==> |r| + |moduleName| + 1 <= |uri|
  {
    if IsEmptyString(moduleName) then uri
    else
      var n := moduleName + "/";
      RemoveAllNoLonger(uri, n);
      if !Occurs(n, uri) then
        RemoveAllAbsent(uri, n);
        RemoveAll(uri, n)
      else if StartsWith(uri, n) then
        assert uri == n + uri[|n|..];
        RemoveAllLeading(n, uri[|n|..]);
        RemoveAllNoLonger(uri[|n|..], n);
        RemoveAll(uri, n)
      else RemoveAll(uri, n)
  }

  /** Outside any module the URI is kept verbatim. */
  lemma CurrentUriNoModule(moduleName: string, uri: string)
    requires IsEmptyString(moduleName)
    ensures CurrentUri(moduleName, uri) == uri
  {
  }

  /** A URI "<module>/<rest>" whose rest does not mention "<module>/" again becomes "<rest>". */
  lemma CurrentUriStripsModule(moduleName: string, rest: string)
    requires !IsEmptyString(moduleName)
    requires !Occurs(moduleName + "/", rest)
    ensures CurrentUri(moduleName, moduleName + "/" + rest) == rest
  {
    RemoveAllLeading(moduleName + "/", rest);
    RemoveAllAbsent(rest, moduleName + "/");
  }

  /** A URI that never mentions "<module>/" is kept verbatim. */
  lemma CurrentUriWithoutModulePath(moduleName: string, uri: string)
    requires !Occurs(moduleName + "/", uri)
    ensures CurrentUri(moduleName, uri) == uri
  {
    RemoveAllAbsent(uri, moduleName + "/");
  }

  /**
    The base URL `render` exposes: CodeIgniter's `base_url()` (the configured
    `siteBase`), with "<module>/" appended inside a module.
   */
  function ModuleBaseUrl(moduleName: string, siteBase: string): (r: string)
    ensures IsEmptyString(moduleName) ==> r == siteBase
    ensures !IsEmptyString(moduleName) ==> r == siteBase + moduleName + "/"
  {
    if IsEmptyString(moduleName) then siteBase else siteBase + moduleName + "/"
  }

  /** The keys `render` always writes, whatever the page set before. */
  const RenderedKeys: set<string> := {
    "module", "ctrler", "action", "site_name", "page_title", "current_uri", "meta_data",
    "scripts", "stylesheets", "page_auth", "base_url", "menu", "menu_user", "menu_settings",
    "menu_support", "ga_id", "body_class", "inner_view"}

  /** The analytics id `render` exposes: '' when the configuration's is missing or empty. */
  function GaId(cfg: SiteConfig): (r: string)
    ensures IsEmptyValue(cfg.gaId) ==> r == ""
    ensures !IsEmptyValue(cfg.gaId) ==> r == cfg.gaId.value
  {
    if IsEmptyValue(cfg.gaId) then "" else cfg.gaId.value
  }

  /** The values `render` writes under `RenderedKeys`, all but `current_uri`. */
  function RenderedFixed(ctx: Context, siteBase: string, viewFile: string): (r: map<string, Value>)
    ensures r.Keys == RenderedKeys - {"current_uri"}
  {
    var m := ctx.route.moduleName;
    map[
      "module" := Str(m), "ctrler" := Str(ctx.route.ctrler), "action" := Str(ctx.route.action),
      "site_name" := Str(ctx.siteName), "page_title" := Str(ctx.title),
      "meta_data" := Items(ctx.metaData), "scripts" := ItemsOrNull(ctx.scripts),
      "stylesheets" := ItemsOrNull(ctx.stylesheets), "page_auth" := Items(ctx.pageAuth),
      "base_url" := Str(ModuleBaseUrl(m, siteBase)),
      "menu" := Items(ctx.menu), "menu_user" := Items(ctx.menuUser),
      "menu_settings" := Items(ctx.menuSettings), "menu_support" := Items(ctx.menuSupport),
      "ga_id" := Str(GaId(ctx.siteConfig)), "body_class" := Str(ctx.bodyClass),
      "inner_view" := Str(viewFile)]
  }

  /** The values `render` writes under `RenderedKeys`, given the `current_uri` it exposes. */
  function Rendered(ctx: Context, currentUri: string, siteBase: string, viewFile: string): (r: map<string, Value>)
    ensures r.Keys == RenderedKeys
  {
    RenderedFixed(ctx, siteBase, viewFile)["current_uri" := Str(currentUri)]
  }

  /** `current_uri` is the only rendered value that depends on the URI. */
  lemma RenderedUriOnly(ctx: Context, u1: string, u2: string, siteBase: string, viewFile: string)
    ensures Rendered(ctx, u1, siteBase, viewFile)["current_uri"] == Str(u1)
    ensures forall k :: k in RenderedKeys && k != "current_uri" ==>
      Rendered(ctx, u1, siteBase, viewFile)[k] == Rendered(ctx, u2, siteBase, viewFile)[k]
  {
  }

  /**
    The view data `render` hands to the views, for a given `current_uri`: every key
    in `RenderedKeys` is overwritten; the `user` key is filled from the logged-in
    user only when the page left it empty; every other key the page set is passed
    through unchanged.
   */
  function ViewData(ctx: Context, viewData: map<string, Value>, currentUri: string, siteBase: string, viewFile: string): (r: map<string, Value>)
    ensures r.Keys == viewData.Keys + RenderedKeys + {"user"}
    ensures forall k :: k in viewData && k !in RenderedKeys && k != "user" ==> r[k] == viewData[k]
    ensures forall k :: k in RenderedKeys ==> r[k] == Rendered(ctx, currentUri, siteBase, viewFile)[k]
    ensures "user" in viewData && !IsEmpty(viewData["user"]) ==> r["user"] == viewData["user"]
    ensures !("user" in viewData && !IsEmpty(viewData["user"])) ==> r["user"] == UserValue(ctx.user)
  {
    var d := viewData + Rendered(ctx, currentUri, siteBase, viewFile);
    if "user" in viewData && !IsEmpty(viewData["user"]) then d else d["user" := UserValue(ctx.user)]
  }

  /**
    `render`'s view data as written. Every key in `RenderedKeys` is overwritten, with
    `current_uri` computed by `CurrentUri`; the `user` key is filled from the
    logged-in user only when the page left it empty; every other key the page set
    is passed through unchanged.
   */
  function RenderViewData(ctx: Context, viewData: map<string, Value>, uri: string, siteBase: string, viewFile: string): (r: map<string, Value>)
    ensures r.Keys == viewData.Keys + RenderedKeys + {"user"}
    ensures forall k :: k in viewData && k !in RenderedKeys && k != "user" ==> r[k] == viewData[k]
    ensures forall k :: k in RenderedKeys ==> r[k] == Rendered(ctx, CurrentUri(ctx.route.moduleName, uri), siteBase, viewFile)[k]
    ensures "user" in viewData && !IsEmpty(viewData["user"]) ==> r["user"] == viewData["user"]
    ensures !("user" in viewData && !IsEmpty(viewData["user"])) ==> r["user"] == UserValue(ctx.user)
  {
    ViewData(ctx, viewData, CurrentUri(ctx.route.moduleName, uri), siteBase, viewFile)
  }

  /**
    `render` with the corrected URI: the same view data as `RenderViewData` except
    that `current_uri` is the module-relative path of `ModuleRelativeUri`.
   */
  function RenderViewDataIntended(ctx: Context, viewData: map<string, Value>, uri: string, siteBase: string, viewFile: string): (r: map<string, Value>)
    ensures r.Keys == RenderViewData(ctx, viewData, uri, siteBase, viewFile).Keys
    ensures r["current_uri"] == Str(ModuleRelativeUri(ctx.route.moduleName, uri))
    ensures forall k :: k in r && k != "current_uri" ==> r[k] == RenderViewData(ctx, viewData, uri, siteBase, viewFile)[k]
  {
    var m := ctx.route.moduleName;
    ViewDataUriOnly(ctx, viewData, ModuleRelativeUri(m, uri), CurrentUri(m, uri), siteBase, viewFile);
    ViewData(ctx, viewData, ModuleRelativeUri(m, uri), siteBase, viewFile)
  }

  /** Two view data built for different URIs have the same keys and differ at most in `current_uri`. */
  lemma ViewDataUriOnly(ctx: Context, viewData: map<string, Value>, u1: string, u2: string, siteBase: string, viewFile: string)
    ensures var a, b := ViewData(ctx, viewData, u1, siteBase, viewFile), ViewData(ctx, viewData, u2, siteBase, viewFile);
      && a.Keys == b.Keys
      && a["current_uri"] == Str(u1)
      && forall k :: k in a && k != "current_uri" ==> a[k] == b[k]
  {
    var a, b := ViewData(ctx, viewData, u1, siteBase, viewFile), ViewData(ctx, viewData, u2, siteBase, viewFile);
    RenderedUriOnly(ctx, u1, u2, siteBase, viewFile);
    assert "current_uri" in RenderedKeys;
    forall k | k in a && k != "current_uri"
      ensures a[k] == b[k]
    {
      if k in RenderedKeys {
        assert a[k] == Rendered(ctx, u1, siteBase, viewFile)[k];
      }
    }
  }

  /**
    What `render` exposes as `current_uri`, `base_url`, `ga_id` and `inner_view`:
    as written, `current_uri` is `CurrentUri`; with the correction it is
    `ModuleRelativeUri`, and both agree on a path that mentions the module only at
    its head.
   */
  lemma RenderedLinks(ctx: Context, viewData: map<string, Value>, uri: string, siteBase: string, viewFile: string)
    ensures var r := RenderViewData(ctx, viewData, uri, siteBase, viewFile);
      && r["current_uri"] == Str(CurrentUri(ctx.route.moduleName, uri))
      && r["base_url"] == Str(ModuleBaseUrl(ctx.route.moduleName, siteBase))
      && r["ga_id"] == Str(GaId(ctx.siteConfig))
      && r["inner_view"] == Str(viewFile)
    ensures RenderViewDataIntended(ctx, viewData, uri, siteBase, viewFile)["current_uri"]
         == Str(ModuleRelativeUri(ctx.route.moduleName, uri))
  {
    var f := RenderedFixed(ctx, siteBase, viewFile);
    assert f["base_url"] == Str(ModuleBaseUrl(ctx.route.moduleName, siteBase));
    assert f["ga_id"] == Str(GaId(ctx.siteConfig));
    assert f["inner_view"] == Str(viewFile);
  }

  /** On "<module>/<rest>" whose rest does not mention "<module>/" again, both renders give the same view data. */
  lemma RenderAgreesWithIntended(ctx: Context, viewData: map<string, Value>, rest: string, siteBase: string, viewFile: string)
    requires !IsEmptyString(ctx.route.moduleName) && !Occurs(ctx.route.moduleName + "/", rest)
    ensures var uri := ctx.route.moduleName + "/" + rest;
      RenderViewData(ctx, viewData, uri, siteBase, viewFile) == RenderViewDataIntended(ctx, viewData, uri, siteBase, viewFile)
  {
    CurrentUriAgreesWithModuleRelative(ctx.route.moduleName, rest);
  }

  /** A page that stores its own non-empty user value keeps it; otherwise the logged-in user is shown. */
  lemma RenderUserRule(ctx: Context, viewData: map<string, Value>, uri: string, siteBase: string, viewFile: string, row: UserRow)
    ensures RenderViewData(ctx, viewData["user" := User(row)], uri, siteBase, viewFile)["user"] == User(row)
    ensures RenderViewData(ctx, viewData["user" := Str("")], uri, siteBase, viewFile)["user"] == UserValue(ctx.user)
    ensures "user" !in viewData ==> RenderViewData(ctx, viewData, uri, siteBase, viewFile)["user"] == UserValue(ctx.user)
  {
  }

  // ---------------------------------------------------------------------------
  // Module-relative URI: the stripping the view data is meant to expose

  /** "<module>/" removed from the front of the URI only, as a module-relative path. */
  function ModuleRelativeUri(moduleName: string, uri: string): (r: string)
    ensures IsEmptyString(moduleName) || !StartsWith(uri, moduleName + "/") ==> r == uri
    ensures !IsEmptyString(moduleName) && StartsWith(uri, moduleName + "/") ==> uri == moduleName + "/" + r
  {
    if !IsEmptyString(moduleName) && StartsWith(uri, moduleName + "/") then uri[|moduleName| + 1..] else uri
  }

  /** Stripping the module prefix and putting it back gives the URI again, for every rest. */
  lemma ModuleRelativeUriRoundTrip(moduleName: string, rest: string)
    requires !IsEmptyString(moduleName)
    ensures ModuleRelativeUri(moduleName, moduleName + "/" + rest) == rest
  {
    assert StartsWith(moduleName + "/" + rest, moduleName + "/");
    assert (moduleName + "/" + rest)[|moduleName| + 1..] == rest;
  }

  /** The two agree whenever the rest of the path does not mention "<module>/" again. */
  lemma CurrentUriAgreesWithModuleRelative(moduleName: string, rest: string)
    requires !IsEmptyString(moduleName) && !Occurs(moduleName + "/", rest)
    ensures CurrentUri(moduleName, moduleName + "/" + rest) == ModuleRelativeUri(moduleName, moduleName + "/" + rest)
  {
    CurrentUriStripsModule(moduleName, rest);
    ModuleRelativeUriRoundTrip(moduleName, rest);
  }

  /**
    `str_replace` also deletes "<module>/" inside the path: in module "admin" the URI
    "admin/subadmin/list" becomes "sublist", not "subadmin/list".
   */
  lemma CurrentUriDeletesInnerOccurrence()
    ensures CurrentUri("admin", "admin/subadmin/list") == "sublist"
    ensures ModuleRelativeUri("admin", "admin/subadmin/list") == "subadmin/list"
  {
    var n := "admin/";
    assert "admin/subadmin/list" == n + "subadmin/list";
    RemoveAllLeading(n, "subadmin/list");
    InnerCopyRemoved();
    ModuleRelativeUriRoundTrip("admin", "subadmin/list");
  }

  /** The scan after the leading "admin/": "sub" is kept, the inner "admin/" deleted, "list" kept. */
  lemma InnerCopyRemoved()
    ensures RemoveAll("subadmin/list", "admin/") == "sublist"
  {
    var n := "admin/";
    assert "subadmin/list" == "sub" + (n + "list");
    assert "sublist" == "sub" + "list";
    RemoveAllKeepsPrefix("sub", n + "list", n);
    TailRemoved();
  }

  /** "admin/list" loses its "admin/" and keeps "list". */
  lemma TailRemoved()
    ensures RemoveAll("admin/" + "list", "admin/") == "list"
  {
    RemoveAllLeading("admin/", "list");
    RemoveAllShort("list", "admin/");
  }
}
