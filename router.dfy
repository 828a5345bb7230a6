/**
 * The route table and navigation guards of src/router/index.ts. The table
 * is constant data; a navigation is decided from the target path and the
 * store's `isLogged` flag alone.
 */
module Router {
  import opened Wrappers

  /** A record's `meta`; `requiresAuth` is absent (None) unless declared. */
  datatype Meta = Meta(requiresAuth: Option<bool>)

  /** A record's `beforeEnter` guard. */
  datatype EnterGuard =
    | NoEnterGuard
    /** Returns `target` when the user is logged in, nothing otherwise. */
    | RedirectWhenLogged(target: string)

  datatype RouteRecord = RouteRecord(
    path: string,
    alias: seq<string>,
    name: string,
    meta: Meta,
    beforeEnter: EnterGuard,
    children: seq<RouteRecord>)

  /** A resolvable path with its matched records, outermost first. */
  datatype Entry = Entry(path: string, matched: seq<RouteRecord>)

  /** What the guards answer: let the navigation through, or go elsewhere. */
  datatype Decision = Allow | Redirect(target: string)

  /** The `routes` option passed to `createRouter`. */
  const Routes: seq<RouteRecord> := [
    RouteRecord("/", ["/admin"], "admin", Meta(Some(true)), NoEnterGuard, [
      RouteRecord("", [], "home", Meta(None), NoEnterGuard, []),
      RouteRecord("create-post", [], "create-post", Meta(None), NoEnterGuard, []),
      RouteRecord("articles", [], "articles", Meta(None), NoEnterGuard, [])
    ]),
    RouteRecord("/login", [], "login", Meta(None), RedirectWhenLogged("/"), []),
    RouteRecord("/register", [], "regsister", Meta(None), RedirectWhenLogged("/"), [])
  ]

  /**
   * The full path of a record nested under `parent`: an absolute child path
   * stands alone, an empty one is the parent's own path, and any other is
   * joined to the parent with one slash.
   */
  function JoinPath(parent: string, child: string): (r: string)
    ensures child == "" ==> r == parent
    ensures child != "" && child[0] == '/' ==> r == child
  {
    if child == "" then parent
    else if child[0] == '/' then child
    else if parent != "" && parent[|parent| - 1] == '/' then parent + child
    else parent + "/" + child
  }

  /** The entries of a list of sibling records, in order. */
  function FlattenAll(records: seq<RouteRecord>, parentPath: string, ancestors: seq<RouteRecord>): (r: seq<Entry>)
    decreases records
  {
    if records == [] then []
    else FlattenAt(records[0], [records[0].path] + records[0].alias, parentPath, ancestors)
         + FlattenAll(records[1..], parentPath, ancestors)
  }

  /**
   * The entries of one record registered under each of its paths (its own
   * path, then each alias): for each, its descendants first, then itself.
   * An alias copies the record's meta, guards and children.
   */
  function FlattenAt(rec: RouteRecord, paths: seq<string>, parentPath: string, ancestors: seq<RouteRecord>): (r: seq<Entry>)
    decreases rec, |paths|
  {
    if paths == [] then []
    else
      var full := JoinPath(parentPath, paths[0]);
      FlattenAll(rec.children, full, ancestors + [rec]) + [Entry(full, ancestors + [rec])]
      + FlattenAt(rec, paths[1..], parentPath, ancestors)
  }

  /** Every entry the route table registers, in order. */
  function RegisteredEntries(): (r: seq<Entry>)
  {
    FlattenAll(Routes, "", [])
  }

  /** The matched records of the first entry with the given path; no match gives none. */
  function Lookup(entries: seq<Entry>, path: string): (r: seq<RouteRecord>)
    ensures (forall i :: 0 <= i < |entries| ==> entries[i].path != path) ==> r == []
    ensures forall i :: (0 <= i < |entries| && entries[i].path == path &&
      (forall j :: 0 <= j < i ==> entries[j].path != path)) ==> r == entries[i].matched
  {
    if entries == [] then []
    else if entries[0].path == path then entries[0].matched
    else
      var rest := Lookup(entries[1..], path);
      assert forall i :: 1 <= i < |entries| ==> entries[1..][i - 1] == entries[i];
      rest
  }

  /**
   * The records a path matches, outermost first (`to.matched`): those of
   * the first registered entry with that path, none when no entry has it.
   */
  function Resolve(path: string): (r: seq<RouteRecord>)
    ensures (forall i :: 0 <= i < |RegisteredEntries()| ==> RegisteredEntries()[i].path != path) ==> r == []
    ensures forall i :: (0 <= i < |RegisteredEntries()| && RegisteredEntries()[i].path == path &&
      (forall j :: 0 <= j < i ==> RegisteredEntries()[j].path != path)) ==> r == RegisteredEntries()[i].matched
  {
    Lookup(RegisteredEntries(), path)
  }

  /**
   * `to.meta`: the matched records' metas merged, inner records overriding.
   * `requiresAuth` is present exactly when some matched record declares it,
   * and then it is the meta of one of them.
   */
  function MergedMeta(matched: seq<RouteRecord>): (m: Meta)
    ensures m.requiresAuth.Some? <==> exists i :: 0 <= i < |matched| && matched[i].meta.requiresAuth.Some?
    ensures m.requiresAuth.Some? ==> exists i :: 0 <= i < |matched| && matched[i].meta == m
    decreases |matched|
  {
    if matched == [] then Meta(None)
    else
      var n := |matched| - 1;
      var outer := MergedMeta(matched[..n]);
      assert forall i :: 0 <= i < n ==> matched[..n][i] == matched[i];
      var inner := matched[n].meta;
      if inner.requiresAuth.Some? then inner else outer
  }

  /** The global `beforeEach` guard: only a logged-out visit to a route requiring authentication is redirected, to `/login`. */
  function BeforeEach(meta: Meta, isLogged: bool): (d: Decision)
    ensures d.Redirect? <==> meta.requiresAuth == Some(true) && !isLogged
    ensures d.Redirect? ==> d.target == "/login"
  {
    if meta.requiresAuth == Some(true) && !isLogged then Redirect("/login") else Allow
  }

  /** One record's `beforeEnter` guard: it redirects only a logged-in user, to its own target. */
  function BeforeEnter(guard: EnterGuard, isLogged: bool): (d: Decision)
    ensures d.Redirect? <==> guard.RedirectWhenLogged? && isLogged
    ensures d.Redirect? ==> d.target == guard.target
  {
    match guard
    case NoEnterGuard => Allow
    case RedirectWhenLogged(target) => if isLogged then Redirect(target) else Allow
  }

  /**
   * The `beforeEnter` guards of the entered records, in order; the first
   * redirect wins. A logged-out user is never redirected here, and a
   * logged-in one is exactly when some entered record has a guard.
   */
  function EnterGuards(matched: seq<RouteRecord>, isLogged: bool): (d: Decision)
    ensures d.Redirect? <==> isLogged && exists i :: 0 <= i < |matched| && matched[i].beforeEnter.RedirectWhenLogged?
    ensures d.Redirect? ==> exists i :: 0 <= i < |matched| && matched[i].beforeEnter == RedirectWhenLogged(d.target)
  {
    if matched == [] then Allow
    else
      var rest := EnterGuards(matched[1..], isLogged);
      assert forall i :: 1 <= i < |matched| ==> matched[1..][i - 1] == matched[i];
      match BeforeEnter(matched[0].beforeEnter, isLogged)
      case Redirect(target) => Redirect(target)
      case Allow => rest
  }

  /**
   * One navigation: `beforeEach` first, then the per-route guards. Logged
   * out, a protected target goes to `/login` and anything else passes;
   * logged in, only the per-route guards can redirect.
   */
  function Navigate(path: string, isLogged: bool): (d: Decision)
    ensures !isLogged && Protected(path) ==> d == Redirect("/login")
    ensures !isLogged && !Protected(path) ==> d == Allow
    ensures isLogged ==> d == EnterGuards(Resolve(path), isLogged)
  {
    var matched := Resolve(path);
    match BeforeEach(MergedMeta(matched), isLogged)
    case Redirect(target) => Redirect(target)
    case Allow => EnterGuards(matched, isLogged)
  }

  /** The path a navigation ends on once its redirect, if any, is followed. */
  function Settle(path: string, isLogged: bool): (p: string)
  {
    match Navigate(path, isLogged)
    case Allow => path
    case Redirect(target) => target
  }

  /** A route is protected when its merged meta asks for authentication. */
  predicate Protected(path: string)
  {
    MergedMeta(Resolve(path)).requiresAuth == Some(true)
  }

  /** The two pages that send a logged-in user home. */
  predicate AuthPage(path: string)
  {
    path == "/login" || path == "/register"
  }

  /** The paths under the `/` record, through its own path and through its `/admin` alias. */
  const ProtectedPaths: seq<string> := ["/", "/create-post", "/articles", "/admin", "/admin/create-post", "/admin/articles"]

  /**
   * A record declaring `requiresAuth` passes it to every record nested
   * below it that declares nothing.
   */
  lemma {:induction false} InheritedRequiresAuth(matched: seq<RouteRecord>, i: nat, b: bool)
    requires i < |matched| && matched[i].meta.requiresAuth == Some(b)
    requires forall j :: i < j < |matched| ==> matched[j].meta.requiresAuth.None?
    ensures MergedMeta(matched).requiresAuth == Some(b)
    decreases |matched|
  {
    if i < |matched| - 1 {
      var outer := matched[..|matched| - 1];
      assert forall j :: i < j < |outer| ==> outer[j] == matched[j];
      InheritedRequiresAuth(outer, i, b);
    }
  }

  const Admin := Routes[0]
  const Login := Routes[1]
  const Register := Routes[2]

  /** A record with no children and no alias registers one entry. */
  lemma LeafEntries(rec: RouteRecord, parentPath: string, ancestors: seq<RouteRecord>)
    requires rec.children == [] && rec.alias == []
    ensures FlattenAt(rec, [rec.path] + rec.alias, parentPath, ancestors) == [Entry(JoinPath(parentPath, rec.path), ancestors + [rec])]
  {
    var paths := [rec.path] + rec.alias;
    assert paths[0] == rec.path && paths[1..] == [];
  }

  /** The `/` record's children registered under one of its paths. */
  lemma {:induction false} ChildEntries(base: string)
    requires base == "/" || base == "/admin"
    ensures FlattenAll(Admin.children, base, [Admin]) == [
      Entry(base, [Admin, Admin.children[0]]),
      Entry(JoinPath(base, "create-post"), [Admin, Admin.children[1]]),
      Entry(JoinPath(base, "articles"), [Admin, Admin.children[2]])
    ]
  {
    var kids := Admin.children;
    LeafEntries(kids[0], base, [Admin]);
    LeafEntries(kids[1], base, [Admin]);
    LeafEntries(kids[2], base, [Admin]);
    assert [Admin] + [kids[0]] == [Admin, kids[0]];
    assert [Admin] + [kids[1]] == [Admin, kids[1]];
    assert [Admin] + [kids[2]] == [Admin, kids[2]];
    assert FlattenAll(kids[2..], base, [Admin]) == FlattenAt(kids[2], [kids[2].path] + kids[2].alias, base, [Admin]) by {
      assert kids[2..][0] == kids[2] && kids[2..][1..] == [];
    }
    assert FlattenAll(kids[1..], base, [Admin]) ==
      FlattenAt(kids[1], [kids[1].path] + kids[1].alias, base, [Admin]) + FlattenAll(kids[2..], base, [Admin]) by {
      assert kids[1..][0] == kids[1] && kids[1..][1..] == kids[2..];
    }
  }

  /** The `/` record registered under its own path and then under its alias. */
  lemma {:induction false} AdminEntries()
    ensures FlattenAt(Admin, [Admin.path] + Admin.alias, "", []) == [
      Entry("/", [Admin, Admin.children[0]]),
      Entry("/create-post", [Admin, Admin.children[1]]),
      Entry("/articles", [Admin, Admin.children[2]]),
      Entry("/", [Admin]),
      Entry("/admin", [Admin, Admin.children[0]]),
      Entry("/admin/create-post", [Admin, Admin.children[1]]),
      Entry("/admin/articles", [Admin, Admin.children[2]]),
      Entry("/admin", [Admin])
    ]
  {
    ChildEntries("/");
    ChildEntries("/admin");
    assert JoinPath("/", "create-post") == "/create-post";
    assert JoinPath("/", "articles") == "/articles";
    assert JoinPath("/admin", "create-post") == "/admin/create-post";
    assert JoinPath("/admin", "articles") == "/admin/articles";
    var paths := [Admin.path] + Admin.alias;
    assert paths == ["/", "/admin"] && paths[1..] == ["/admin"] && paths[1..][1..] == [];
    assert [] + [Admin] == [Admin];
    assert JoinPath("", "/") == "/" && JoinPath("", "/admin") == "/admin";
    assert FlattenAt(Admin, paths[1..], "", []) ==
      FlattenAll(Admin.children, "/admin", [Admin]) + [Entry("/admin", [Admin])];
  }

  /** The entries the route table registers, written out. */
  const Table: seq<Entry> := [
    Entry("/", [Admin, Admin.children[0]]),
    Entry("/create-post", [Admin, Admin.children[1]]),
    Entry("/articles", [Admin, Admin.children[2]]),
    Entry("/", [Admin]),
    Entry("/admin", [Admin, Admin.children[0]]),
    Entry("/admin/create-post", [Admin, Admin.children[1]]),
    Entry("/admin/articles", [Admin, Admin.children[2]]),
    Entry("/admin", [Admin]),
    Entry("/login", [Login]),
    Entry("/register", [Register])
  ]

  /** The route table as the router registers it. */
  lemma {:induction false} RouteEntries()
    ensures RegisteredEntries() == Table
  {
    AdminEntries();
    LeafEntries(Login, "", []);
    LeafEntries(Register, "", []);
    assert [] + [Login] == [Login] && [] + [Register] == [Register];
    assert JoinPath("", "/login") == "/login" && JoinPath("", "/register") == "/register";
    assert FlattenAll(Routes[2..], "", []) == FlattenAt(Register, [Register.path] + Register.alias, "", []) by {
      assert Routes[2..][0] == Register && Routes[2..][1..] == [];
    }
    assert FlattenAll(Routes[1..], "", []) ==
      FlattenAt(Login, [Login.path] + Login.alias, "", []) + FlattenAll(Routes[2..], "", []) by {
      assert Routes[1..][0] == Login && Routes[1..][1..] == Routes[2..];
    }
    assert RegisteredEntries() ==
      FlattenAt(Admin, [Admin.path] + Admin.alias, "", []) + FlattenAll(Routes[1..], "", []);
  }

  /** A path first registered at position `k` matches that entry's records. */
  lemma ResolveAt(path: string, k: nat)
    requires k < |Table| && Table[k].path == path
    requires forall j :: 0 <= j < k ==> Table[j].path != path
    ensures Resolve(path) == Table[k].matched
  {
    RouteEntries();
  }

  /** A path no entry registers matches nothing. */
  lemma ResolveNone(path: string)
    requires forall j :: 0 <= j < |Table| ==> Table[j].path != path
    ensures Resolve(path) == []
  {
    RouteEntries();
  }

  /** The records each path matches; any other path matches nothing. */
  lemma ResolveTable(path: string)
    ensures path == "/" || path == "/admin" ==> Resolve(path) == [Admin, Admin.children[0]]
    ensures path == "/create-post" || path == "/admin/create-post" ==> Resolve(path) == [Admin, Admin.children[1]]
    ensures path == "/articles" || path == "/admin/articles" ==> Resolve(path) == [Admin, Admin.children[2]]
    ensures path == "/login" ==> Resolve(path) == [Login]
    ensures path == "/register" ==> Resolve(path) == [Register]
    ensures path !in ProtectedPaths && !AuthPage(path) ==> Resolve(path) == []
  {
    if path == "/" {
      ResolveAt(path, 0);
    } else if path == "/create-post" {
      ResolveAt(path, 1);
    } else if path == "/articles" {
      ResolveAt(path, 2);
    } else if path == "/admin" {
      ResolveAt(path, 4);
    } else if path == "/admin/create-post" {
      ResolveAt(path, 5);
    } else if path == "/admin/articles" {
      ResolveAt(path, 6);
    } else if path == "/login" {
      ResolveAt(path, 8);
    } else if path == "/register" {
      ResolveAt(path, 9);
    } else {
      ResolveNone(path);
    }
  }

  /**
   * The children `''`, `create-post` and `articles` inherit `requiresAuth`
   * from the `/` record, under its own path and under its `/admin` alias,
   * so they, and only they, are protected.
   */
  lemma ProtectedRoutes(path: string)
    ensures Protected(path) <==> path in ProtectedPaths
  {
    ResolveTable(path);
    if path in ProtectedPaths {
      InheritedRequiresAuth(Resolve(path), 0, true);
    }
  }

  /**
   * The whole decision: logged out, a protected path goes to `/login`;
   * logged in, `/login` and `/register` go to `/`; every other navigation
   * is let through, including one to a path that matches no route.
   */
  lemma NavigateDecision(path: string, isLogged: bool)
    ensures Navigate(path, isLogged) ==
      if !isLogged && Protected(path) then Redirect("/login")
      else if isLogged && AuthPage(path) then Redirect("/")
      else Allow
  {
    ResolveTable(path);
    ProtectedRoutes(path);
    var matched := Resolve(path);
    if path in ProtectedPaths {
      assert matched[0].beforeEnter == NoEnterGuard && matched[1].beforeEnter == NoEnterGuard;
    } else if AuthPage(path) {
      assert matched[0].beforeEnter == RedirectWhenLogged("/");
    }
  }

  /** Logged out, a protected target is sent to `/login`. */
  lemma LoggedOutProtectedGoesToLogin(path: string)
    requires Protected(path)
    ensures Navigate(path, false) == Redirect("/login")
  {
    NavigateDecision(path, false);
  }

  /** Logged in, every protected target passes. */
  lemma LoggedInProtectedPasses(path: string)
    requires Protected(path)
    ensures Navigate(path, true) == Allow
  {
    NavigateDecision(path, true);
    ProtectedRoutes(path);
  }

  /** Logged in, `/login` and `/register` send the user to `/`; logged out they pass. */
  lemma AuthPagesDecision(path: string, isLogged: bool)
    requires AuthPage(path)
    ensures Navigate(path, isLogged) == if isLogged then Redirect("/") else Allow
  {
    NavigateDecision(path, isLogged);
    ProtectedRoutes(path);
  }

  /**
   * The guards never loop: in the same state, the target of a redirect is
   * always let through, so a navigation settles after at most one redirect.
   */
  lemma NoRedirectLoop(path: string, isLogged: bool)
    ensures Navigate(path, isLogged).Redirect? ==> Navigate(Navigate(path, isLogged).target, isLogged) == Allow
    ensures Navigate(Settle(path, isLogged), isLogged) == Allow
  {
    NavigateDecision(path, isLogged);
    NavigateDecision("/login", isLogged);
    NavigateDecision("/", isLogged);
    ProtectedRoutes("/login");
    ProtectedRoutes("/");
  }
}
