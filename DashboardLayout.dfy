/**
 * The dashboard frame: which sidebar entries a user sees, which one is highlighted, and the
 * breadcrumb trail computed from the current pathname.
 */
module DashboardLayout {
  import opened JsText
  import App

  /** A sidebar entry; `permission` `None` means shown to everybody. */
  datatype NavItem = NavItem(name: string, href: string, permission: Option<string>)

  const Navigation: seq<NavItem> := [
    NavItem("Dashboard", "/", None),
    NavItem("Articles", "/articles", Some("posts:read")),
    NavItem("Users", "/users", Some("users:read")),
    NavItem("Moderators", "/moderators", Some(App.AdminAll)),
    NavItem("Flagged Content", "/flagged-content", Some(App.AdminAll)),
    NavItem("Global Settings", "/settings", Some(App.AdminAll))
  ]

  /** The entry is rendered: it has no (non-empty) permission, or the user holds it. */
  predicate Shown(user: Option<App.SessionUser>, item: NavItem) {
    !(item.permission.Some? && item.permission.value != "" && !App.HasPermission(user, item.permission.value))
  }

  /** The sidebar's entries for `user`, in table order. */
  function Sidebar(user: Option<App.SessionUser>): seq<NavItem> {
    Filter(Navigation, item => Shown(user, item))
  }

  /** `location.pathname === item.href` */
  predicate IsActive(pathname: string, item: NavItem) {
    pathname == item.href
  }

  /** An entry is in the sidebar exactly when it is in the table and its permission is absent or held. */
  lemma SidebarMembers(user: Option<App.SessionUser>, item: NavItem)
    ensures item in Sidebar(user) <==>
      item in Navigation && (item.permission.None? || App.HasPermission(user, item.permission.value))
  {
    FilterMembers(Navigation, item => Shown(user, item), item);
  }

  /** The dashboard entry is always shown, and the articles entry needs `posts:read`. */
  lemma SidebarEntries(user: Option<App.SessionUser>)
    ensures Navigation[0] in Sidebar(user)
    ensures Navigation[1] in Sidebar(user) <==> App.HasPermission(user, "posts:read")
  {
    SidebarMembers(user, Navigation[0]);
    SidebarMembers(user, Navigation[1]);
  }

  /** The table's hrefs are distinct, so at most one entry is active for any pathname. */
  lemma AtMostOneActive(pathname: string)
    ensures forall i, j :: 0 <= i < j < |Navigation| ==>
      !(IsActive(pathname, Navigation[i]) && IsActive(pathname, Navigation[j]))
  {
    assert forall i, j :: 0 <= i < j < |Navigation| ==> Navigation[i].href != Navigation[j].href by {
      assert forall i :: 1 <= i < |Navigation| ==> |Navigation[i].href| > 1;
      assert forall i, j :: 1 <= i < j < |Navigation| ==> Navigation[i].href[1] != Navigation[j].href[1];
      assert |Navigation[0].href| == 1;
    }
  }

  /** A pathname below an entry's href, such as the page of one article, activates no entry. */
  lemma DeeperPathActivatesNothing(id: string)
    requires id != ""
    ensures forall k :: 0 <= k < |Navigation| ==> !IsActive("/articles/" + id, Navigation[k])
  {
    var path := "/articles/" + id;
    assert |path| > 10 && path[9] == '/';
    forall k | 0 <= k < |Navigation|
      ensures !IsActive(path, Navigation[k])
    {
      if k == 1 {
        assert |Navigation[k].href| == 9;
      } else if k != 0 {
        assert Navigation[k].href[1] != 'a';
      }
    }
  }

  /** The sidebar and the routes name different permissions for the articles pages: a user
      holding only `posts:read` sees the Articles entry, and its route sends them back home. */
  lemma ArticlesEntryRedirects()
    ensures var user := Some(App.SessionUser(Some(["posts:read"])));
      Navigation[1] in Sidebar(user) && App.Routes[1].path == "articles" && !App.Reaches(user, App.Routes[1])
  {
    var user := Some(App.SessionUser(Some(["posts:read"])));
    App.HasPermissionIff(user, "posts:read");
    App.HasPermissionIff(user, "articles:read");
    SidebarEntries(user);
    assert "posts:read"[0] != "articles:read"[0] && "posts:read"[0] != App.AdminAll[0];
  }

  // ----- breadcrumbs -----

  datatype Crumb = Crumb(name: string, href: string, current: bool)

  /** `pathname.split("/").filter(Boolean)` */
  function Segments(pathname: string): (r: seq<string>)
    ensures forall i :: 0 <= i < |r| ==> r[i] != "" && '/' !in r[i]
  {
    var pieces := Split(pathname, '/');
    var r := Filter(pieces, s => s != "");
    assert forall i :: 0 <= i < |r| ==> '/' !in r[i] by {
      forall i | 0 <= i < |r| ensures '/' !in r[i] {
        FilterMembers(pieces, s => s != "", r[i]);
      }
    }
    r
  }

  /** `s.charAt(0).toUpperCase() + s.slice(1)` */
  function Capitalized(s: string): (r: string)
    ensures |r| == |s|
    ensures s != [] ==> r[0] == UpperChar(s[0]) && r[1..] == s[1..]
  {
    if s == [] then [] else [UpperChar(s[0])] + s[1..]
  }

  /** The crumbs of a list of segments. */
  function Trail(segments: seq<string>): seq<Crumb> {
    seq(|segments|, i requires 0 <= i < |segments| =>
      Crumb(Capitalized(segments[i]), "/" + Join(segments[..i + 1], "/"), i == |segments| - 1))
  }

  /** The breadcrumb trail of `pathname`. */
  function Breadcrumbs(pathname: string): seq<Crumb> {
    Trail(Segments(pathname))
  }

  lemma {:induction false} JoinSnoc(parts: seq<string>, x: string, sep: string)
    requires parts != []
    ensures Join(parts + [x], sep) == Join(parts, sep) + sep + x
  {
    if |parts| == 1 {
      assert (parts + [x])[1..] == [x];
    } else {
      assert (parts + [x])[1..] == parts[1..] + [x];
      JoinSnoc(parts[1..], x, sep);
    }
  }

  lemma TrailFacts(segments: seq<string>)
    ensures var crumbs := Trail(segments);
      && |crumbs| == |segments|
      && (forall i :: 0 <= i < |crumbs| ==> crumbs[i].name == Capitalized(segments[i]))
      && (forall i :: 0 <= i < |crumbs| ==> (crumbs[i].current <==> i == |crumbs| - 1))
      && (|crumbs| > 0 ==> crumbs[0].href == "/" + segments[0])
      && (forall i :: 0 < i < |crumbs| ==> crumbs[i].href == crumbs[i - 1].href + "/" + segments[i])
  {
    var crumbs := Trail(segments);
    if |segments| > 0 {
      assert segments[..1] == [segments[0]];
    }
    forall i | 0 < i < |crumbs|
      ensures crumbs[i].href == crumbs[i - 1].href + "/" + segments[i]
    {
      assert segments[..i + 1] == segments[..i] + [segments[i]];
      JoinSnoc(segments[..i], segments[i], "/");
    }
  }

  /** One crumb per non-empty segment, named by the segment with its first character upper-cased;
      each href extends the previous one by `/` and the next segment; only the last is current. */
  lemma BreadcrumbTrail(pathname: string)
    ensures var crumbs := Breadcrumbs(pathname); var segments := Segments(pathname);
      && |crumbs| == |segments|
      && (forall i :: 0 <= i < |crumbs| ==> crumbs[i].name == Capitalized(segments[i]))
      && (forall i :: 0 <= i < |crumbs| ==> (crumbs[i].current <==> i == |crumbs| - 1))
      && (|crumbs| > 0 ==> crumbs[0].href == "/" + segments[0])
      && (forall i :: 0 < i < |crumbs| ==> crumbs[i].href == crumbs[i - 1].href + "/" + segments[i])
  {
    TrailFacts(Segments(pathname));
  }

  /** Each href is a prefix of the next. */
  lemma HrefsNest(pathname: string, i: nat)
    requires 0 < i < |Breadcrumbs(pathname)|
    ensures StartsWith(Breadcrumbs(pathname)[i].href, Breadcrumbs(pathname)[i - 1].href)
  {
    BreadcrumbTrail(pathname);
  }

  /** The root path has no breadcrumbs. */
  lemma RootHasNoCrumbs()
    ensures Breadcrumbs("/") == []
  {
    assert IndexOf("/", ['/'], 0) == 0 by {
      assert OccursAt("/", ['/'], 0);
    }
    assert Split("/", '/') == ["", ""] by {
      assert Split("/"[1..], '/') == [""];
    }
  }
}
