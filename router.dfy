/**
 * The static route table of the client and the `beforeEach` navigation guard.
 *
 * Path matching is vue-router's business: a navigation target is given as its
 * `name` and its `matched` records (root first). The guard itself stores nothing,
 * but its authentication check reads the token, which can evict an expired one,
 * so the storage state is threaded through it.
 */
module Router {
  import opened Wrappers
  import opened Net

  // ---------------------------------------------------------------------------
  // The route table
  // ---------------------------------------------------------------------------

  /** `meta`; a record that declares none reads `requiresAuth` as falsy. */
  datatype Meta = Meta(requiresAuth: bool)

  /** One route record: its own path segment, optional name, meta and child records. */
  datatype Route = Route(path: string, name: Option<string>, meta: Meta, children: seq<Route>)

  const NoMeta := Meta(false)
  const AuthMeta := Meta(true)

  /** A named child record without meta or children. */
  function Leaf(path: string, name: string): Route
  {
    Route(path, Some(name), NoMeta, [])
  }

  const WelcomeLogin := Leaf("", "welcome-login")
  const WelcomeRegister := Leaf("register", "welcome-register")
  const WelcomeReset := Leaf("reset", "welcome-reset")

  /** `/welcome`: the public pages. */
  const WelcomeRoute := Route("/welcome", Some("welcome"), NoMeta, [WelcomeLogin, WelcomeRegister, WelcomeReset])

  const Home := Leaf("home", "home")
  const ProductDetail := Leaf("product/:id", "product-detail")
  const Cart := Leaf("cart", "cart")
  const Checkout := Leaf("checkout", "checkout")
  const Address := Leaf("address", "address")
  const Orders := Leaf("orders", "orders")
  const OrderDetail := Leaf("orders/:id", "order-detail")
  const Profile := Leaf("profile", "profile")

  /** `/`: the user layout, protected as a whole. */
  const UserLayout := Route("/", None, AuthMeta,
    [Home, ProductDetail, Cart, Checkout, Address, Orders, OrderDetail, Profile])

  const AdminCategories := Leaf("categories", "admin-categories")
  const AdminProducts := Leaf("products", "admin-products")
  const AdminOrders := Leaf("orders", "admin-orders")

  /** `/admin`: the admin layout, protected as a whole. */
  const AdminLayout := Route("/admin", None, AuthMeta, [AdminCategories, AdminProducts, AdminOrders])

  /** The records the guard can see matched (the `/` -> `/home` redirect entry is resolved
      before any guard runs and never appears in `matched`). */
  const Routes := [WelcomeRoute, UserLayout, AdminLayout]

  /** `m` is a root-to-record path through the tree `routes`. */
  predicate IsChain(routes: seq<Route>, m: seq<Route>)
    decreases |m|
  {
    |m| > 0 && m[0] in routes && (|m| == 1 || IsChain(m[0].children, m[1..]))
  }

  function Last(m: seq<Route>): Route
    requires |m| > 0
  {
    m[|m| - 1]
  }

  /** vue-router's nesting of paths: an empty child path stands for the parent's path,
      other relative child paths are joined with one slash. */
  function JoinPath(parent: string, child: string): string
  {
    if child == "" then parent
    else if |parent| > 0 && parent[|parent| - 1] == '/' then parent + child
    else parent + "/" + child
  }

  /** The full path of the last record of a chain. */
  function FullPath(m: seq<Route>): string
    decreases |m|
  {
    if |m| == 0 then ""
    else if |m| == 1 then m[0].path
    else JoinPath(FullPath(m[..|m| - 1]), Last(m).path)
  }

  // ---------------------------------------------------------------------------
  // The guard
  // ---------------------------------------------------------------------------

  /** `to`: the target's name (absent for an unnamed or unmatched target) and the
      matched records, root first. */
  datatype Target = Target(name: Option<string>, matched: seq<Route>)

  /** The target vue-router hands the guard for a chain of the table. */
  function TargetOf(m: seq<Route>): Target
    requires |m| > 0
  {
    Target(Last(m).name, m)
  }

  /** A target that vue-router can produce from this table: nothing matched, or a chain
      whose last record gives the name. */
  predicate ValidTarget(to: Target)
  {
    (to.matched == [] && to.name.None?) ||
    (IsChain(Routes, to.matched) && to.name == Last(to.matched).name)
  }

  /** `to.matched.some(record => record.meta.requiresAuth)`. */
  predicate RequiresAuth(matched: seq<Route>)
  {
    exists i :: 0 <= i < |matched| && matched[i].meta.requiresAuth
  }

  /** `to.name && to.name.toString().startsWith('welcome')`. */
  predicate IsWelcomeName(name: Option<string>)
  {
    name.Some? && "welcome" <= name.value
  }

  /** `next()` or `next(path)`. */
  datatype Decision = Allow | Redirect(path: string)

  const WelcomePath := "/welcome"
  const HomePath := "/home"

  datatype GuardResult = GuardResult(decision: Decision, after: StorageState)

  /** The guard at clock value `now`, with the token read as the `&&` chains evaluate:
      once when the target requires authentication, and once more when the name test
      is reached. Its contract states the three rules and their precedence against a
      single token read. */
  function Guard(to: Target, s: StorageState, now: int): (g: GuardResult)
    ensures var authed := Truthy(ReadToken(s, now).token);
      g.decision ==
        if RequiresAuth(to.matched) && !authed then Redirect(WelcomePath)
        else if IsWelcomeName(to.name) && authed then Redirect(HomePath)
        else Allow
    ensures g.after ==
      if RequiresAuth(to.matched) || IsWelcomeName(to.name) then ReadToken(s, now).after else s
  {
    if RequiresAuth(to.matched) && !Truthy(ReadToken(s, now).token) then
      GuardResult(Redirect(WelcomePath), ReadToken(s, now).after)
    else
      var s1 := if RequiresAuth(to.matched) then ReadToken(s, now).after else s;
      if IsWelcomeName(to.name) then
        var r := ReadToken(s1, now);
        GuardResult(if Truthy(r.token) then Redirect(HomePath) else Allow, r.after)
      else
        GuardResult(Allow, s1)
  }

  /** `router.beforeEach`. */
  method BeforeEach(store: TokenStore, to: Target, now: int) returns (d: Decision)
    modifies store
    ensures GuardResult(d, store.State()) == Guard(to, old(store.State()), now)
  {
    var requiresAuth := RequiresAuth(to.matched);
    var unauthorized := false;
    if requiresAuth {
      unauthorized := IsUnauthorizedToken(store, now);
    }
    if requiresAuth && unauthorized {
      d := Redirect(WelcomePath);
    } else if IsWelcomeName(to.name) {
      unauthorized := IsUnauthorizedToken(store, now);
      d := if unauthorized then Allow else Redirect(HomePath);
    } else {
      d := Allow;
    }
  }

  // ---------------------------------------------------------------------------
  // Properties of the table
  // ---------------------------------------------------------------------------

  /** A child record under a protected layout: a leaf without `meta`, whose path and
      name start with something other than `w`. */
  predicate ProtectedLeaf(c: Route)
  {
    c.children == [] && !c.meta.requiresAuth && c.name.Some? &&
    |c.path| > 0 && c.path[0] != 'w' && |c.name.value| > 0 && c.name.value[0] != 'w'
  }

  /** The children of the user layout; only `home` has a path starting with `h`. */
  lemma UserLayoutChildren(c: Route)
    requires c in UserLayout.children
    ensures ProtectedLeaf(c) && (c.path[0] == 'h' ==> c == Home)
  {
  }

  /** The children of the admin layout. */
  lemma AdminLayoutChildren(c: Route)
    requires c in AdminLayout.children
    ensures ProtectedLeaf(c)
  {
  }

  /** The children of `/welcome`: leaves without `meta`. */
  lemma WelcomeChildren(c: Route)
    requires c in WelcomeRoute.children
    ensures c.children == [] && !c.meta.requiresAuth && c.name.Some?
  {
  }

  /** Facts about any child record of a top-level record. */
  lemma ChildRecord(r: Route, c: Route)
    requires r in Routes && c in r.children
    ensures c.children == [] && !c.meta.requiresAuth && c.name.Some?
    ensures r != WelcomeRoute ==> ProtectedLeaf(c)
  {
  }

  /** A chain that starts at a record without children is that record alone. */
  lemma ChainEndsAtLeaf(routes: seq<Route>, m: seq<Route>)
    requires IsChain(routes, m) && m[0].children == []
    ensures |m| == 1
  {
  }

  /** Every chain of the table is a top-level record, possibly followed by one of its
      children; no child declares `meta`. */
  lemma ChainShape(m: seq<Route>)
    requires IsChain(Routes, m)
    ensures |m| <= 2 && m[0] in Routes
    ensures |m| == 1 ==> FullPath(m) == m[0].path
    ensures |m| == 2 ==> m[1] in m[0].children && !m[1].meta.requiresAuth && m[1].name.Some?
    ensures |m| == 2 ==> FullPath(m) == JoinPath(m[0].path, m[1].path)
  {
    if |m| > 1 {
      assert IsChain(m[0].children, m[1..]);
      ChildRecord(m[0], m[1]);
      ChainEndsAtLeaf(m[0].children, m[1..]);
      assert m[..1] == [m[0]];
    }
  }

  /** The first letter after the leading slash of every full path in the table. */
  lemma PathShape(m: seq<Route>)
    requires IsChain(Routes, m)
    ensures m[0] == WelcomeRoute ==> "/w" <= FullPath(m)
    ensures m[0] == AdminLayout ==> "/a" <= FullPath(m)
    ensures m[0] == UserLayout && |m| == 1 ==> FullPath(m) == "/"
    ensures m[0] == UserLayout && |m| == 2 ==>
      |m[1].path| > 0 && |FullPath(m)| > 1 && FullPath(m)[1] == m[1].path[0]
    ensures m[0] == UserLayout && |m| == 2 ==> FullPath(m) == "/" + m[1].path
  {
    ChainShape(m);
    if |m| == 2 {
      ChildRecord(m[0], m[1]);
    }
  }

  /** A name starting with anything but `w` is not a `welcome` name. */
  lemma NotWelcomeName(name: string)
    requires |name| > 0 && name[0] != 'w'
    ensures !IsWelcomeName(Some(name))
  {
  }

  /** `requiresAuth` is inherited: a route is protected exactly when it does not live
      under `/welcome`, i.e. exactly when its name (if any) does not start with `welcome`. */
  lemma ProtectedIffNotWelcome(m: seq<Route>)
    requires IsChain(Routes, m)
    ensures RequiresAuth(m) <==> !IsWelcomeName(Last(m).name)
    ensures RequiresAuth(m) <==> m[0] != WelcomeRoute
  {
    ChainShape(m);
    if m[0] == WelcomeRoute {
      if |m| == 2 {
        assert m[1] in [WelcomeLogin, WelcomeRegister, WelcomeReset];
        assert "welcome" <= "welcome-login" && "welcome" <= "welcome-register" && "welcome" <= "welcome-reset";
      } else {
        assert "welcome" <= "welcome";
      }
      assert !m[0].meta.requiresAuth;
    } else {
      assert m[0].meta.requiresAuth;
      if |m| == 2 {
        ChildRecord(m[0], m[1]);
        NotWelcomeName(Last(m).name.value);
      }
    }
  }

  /** For targets of this table the two redirect conditions never hold together. */
  lemma RulesDisjoint(to: Target)
    requires ValidTarget(to)
    ensures !(RequiresAuth(to.matched) && IsWelcomeName(to.name))
  {
    if to.matched != [] {
      ProtectedIffNotWelcome(to.matched);
    }
  }

  /** The records at path `/welcome` are `welcome` and its child `welcome-login`; none of
      their records requires authentication. */
  lemma WelcomePathIsPublic(m: seq<Route>)
    requires IsChain(Routes, m) && FullPath(m) == WelcomePath
    ensures m == [WelcomeRoute] || m == [WelcomeRoute, WelcomeLogin]
    ensures !RequiresAuth(m)
  {
    ChainShape(m);
    PathShape(m);
    assert WelcomePath[1] == 'w';
    if |m| == 2 {
      ChildRecord(m[0], m[1]);
      assert m[1] in [WelcomeLogin, WelcomeRegister, WelcomeReset];
    }
  }

  /** The only record at path `/home` is `home` under the user layout, which is protected
      and whose name does not start with `welcome`. */
  lemma HomePathIsHomeRecord(m: seq<Route>)
    requires IsChain(Routes, m) && FullPath(m) == HomePath
    ensures m == [UserLayout, Home]
    ensures RequiresAuth(m) && !IsWelcomeName(Last(m).name)
  {
    ChainShape(m);
    PathShape(m);
    assert HomePath[1] == 'h';
    UserLayoutChildren(m[1]);
    ProtectedIffNotWelcome(m);
  }

  /** Whatever the storage holds, a target at `/welcome` is never sent to `/welcome`. */
  lemma WelcomeNeverRedirectsToWelcome(m: seq<Route>, s: StorageState, now: int)
    requires IsChain(Routes, m) && FullPath(m) == WelcomePath
    ensures Guard(TargetOf(m), s, now).decision != Redirect(WelcomePath)
  {
    WelcomePathIsPublic(m);
  }

  /** Whatever the storage holds, a target at `/home` is never sent to `/home`. */
  lemma HomeNeverRedirectsToHome(m: seq<Route>, s: StorageState, now: int)
    requires IsChain(Routes, m) && FullPath(m) == HomePath
    ensures Guard(TargetOf(m), s, now).decision != Redirect(HomePath)
  {
    HomePathIsHomeRecord(m);
  }

  /** No redirect loop through `/welcome`: after being sent there, the target at
      `/welcome` is allowed at whatever instant it is checked (no login happened in between). */
  lemma WelcomeRedirectSettles(to: Target, s: StorageState, now: int, later: int, m: seq<Route>)
    requires Guard(to, s, now).decision == Redirect(WelcomePath)
    requires IsChain(Routes, m) && FullPath(m) == WelcomePath
    ensures Guard(TargetOf(m), Guard(to, s, now).after, later).decision == Allow
  {
    UnauthenticatedIsSticky(s, now, later);
    WelcomeNeverRedirectsToWelcome(m, Guard(to, s, now).after, later);
  }

  /** No redirect loop through `/home`: after being sent there, the target at `/home` is
      allowed at the same instant. */
  lemma HomeRedirectSettles(to: Target, s: StorageState, now: int, m: seq<Route>)
    requires Guard(to, s, now).decision == Redirect(HomePath)
    requires IsChain(Routes, m) && FullPath(m) == HomePath
    ensures Guard(TargetOf(m), Guard(to, s, now).after, now).decision == Allow
  {
    ReadIdempotent(s, now);
    HomePathIsHomeRecord(m);
  }

  /** Both redirect targets are pages of the table. */
  lemma RedirectTargetsExist()
    ensures IsChain(Routes, [WelcomeRoute, WelcomeLogin]) && FullPath([WelcomeRoute, WelcomeLogin]) == WelcomePath
    ensures IsChain(Routes, [UserLayout, Home]) && FullPath([UserLayout, Home]) == HomePath
  {
  }
}
