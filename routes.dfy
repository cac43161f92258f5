/**
 * The application's route table and its guard. A guarded page redirects a
 * signed-out visitor to `/login`; a page restricted to some roles redirects a
 * signed-in user whose role is not among them to `/`. The role check needs a
 * loaded user: with none, the page renders.
 */
module Routes {
  import opened Wrappers
  import opened Types
  import Codec
  import AuthSlice

  datatype Decision = Render | Redirect(to: string)

  /**
   * The guard component: `allowedRoles` absent is `None`; a present list,
   * even an empty one, restricts the page.
   */
  function Protect(isAuthenticated: bool, user: Option<User>, allowedRoles: Option<seq<Role>>): (d: Decision)
    ensures d == Render ==> isAuthenticated
    ensures d.Redirect? ==> (d.to == "/login" <==> !isAuthenticated) && (d.to == "/" <==> isAuthenticated)
    ensures allowedRoles.None? ==> (d == Render <==> isAuthenticated)
  {
    if !isAuthenticated then Redirect("/login")
    else if allowedRoles.Some? && user.Some? && user.value.role !in allowedRoles.value then Redirect("/")
    else Render
  }

  datatype Page = Home | Login | Register | MovieDetail(id: string) | Rentals | Profile | VendorPage | AdminPage | NotFound

  /** The guard wrapped around each page: `None` for an open page. */
  function Guard(p: Page): Option<Option<seq<Role>>>
  {
    match p
    case Rentals => Some(Some([Customer]))
    case Profile => Some(None)
    case VendorPage => Some(Some([Vendor]))
    case AdminPage => Some(Some([Admin]))
    case _ => None
  }

  /** The non-empty segments of a path. */
  function Segments(path: string): seq<string>
  {
    NonEmpty(Codec.Split(path, '/'))
  }

  function NonEmpty(pieces: seq<string>): seq<string>
  {
    if pieces == [] then []
    else if pieces[0] == "" then NonEmpty(pieces[1..])
    else [pieces[0]] + NonEmpty(pieces[1..])
  }

  /** The page a one-segment path selects. */
  function SinglePage(segment: string): Page
  {
    if segment == "login" then Login
    else if segment == "register" then Register
    else if segment == "rentals" then Rentals
    else if segment == "profile" then Profile
    else if segment == "vendor" then VendorPage
    else if segment == "admin" then AdminPage
    else NotFound
  }

  /** The page a path selects; anything unmatched falls to the catch-all. */
  function Resolve(path: string): Page
  {
    var s := Segments(path);
    if s == [] then Home
    else if |s| == 1 then SinglePage(s[0])
    else if |s| == 2 && s[0] == "movies" then MovieDetail(s[1])
    else NotFound
  }

  datatype Screen = Show(page: Page) | Navigate(to: string)

  /** What a visit to `path` shows, given the session. */
  function Visit(path: string, auth: AuthSlice.AuthState): (r: Screen)
    ensures r.Show? ==> r.page == Resolve(path)
    ensures r.Navigate? ==> Guard(Resolve(path)).Some? && (r.to == "/login" || r.to == "/")
  {
    var p := Resolve(path);
    match Guard(p)
    case None => Show(p)
    case Some(roles) =>
      match Protect(auth.isAuthenticated, auth.user, roles)
      case Render => Show(p)
      case Redirect(to) => Navigate(to)
  }

  /** The path a link to a page uses. */
  function PathOf(p: Page): string
  {
    match p
    case Home => "/"
    case MovieDetail(id) => "/movies/" + id
    case _ => "/" + SegmentOf(p)
  }

  /** The one segment of the path of a page other than the home and movie pages. */
  function SegmentOf(p: Page): string
  {
    match p
    case Login => "login"
    case Register => "register"
    case Rentals => "rentals"
    case Profile => "profile"
    case VendorPage => "vendor"
    case AdminPage => "admin"
    case _ => "404"
  }

  // ---------------------------------------------------------------- proofs

  lemma SingleSegment(name: string)
    requires name != "" && '/' !in name
    ensures Segments("/" + name) == [name]
  {
    Codec.SplitPrefix("", '/', name);
    assert "" + ['/'] + name == "/" + name;
    assert Codec.Split(name, '/') == [name];
    assert NonEmpty([name]) == [name] + NonEmpty([]);
  }

  lemma NonEmptyTwo(a: string, b: string)
    requires a != "" && b != ""
    ensures NonEmpty([""] + [a, b]) == [a, b]
  {
    var p := [""] + [a, b];
    assert p[0] == "" && p[1..] == [a, b];
    assert NonEmpty(p) == NonEmpty([a, b]);
    assert [a, b][0] == a && [a, b][1..] == [b];
    assert NonEmpty([a, b]) == [a] + NonEmpty([b]);
    assert [b][1..] == [];
    assert NonEmpty([b]) == [b] + NonEmpty([]);
  }

  /** A path `/a/b` has the two segments `a` and `b`. */
  lemma TwoSegments(a: string, b: string)
    requires a != "" && '/' !in a && b != "" && '/' !in b
    ensures Segments("/" + a + "/" + b) == [a, b]
  {
    var tail := a + ['/'] + b;
    Codec.SplitJoin(a, b, '/');
    Codec.SplitLeading(tail, '/');
    NonEmptyTwo(a, b);
    assert "/" + a + "/" + b == ['/'] + tail;
  }

  lemma MovieSegments(id: string)
    requires id != "" && '/' !in id
    ensures Segments("/movies/" + id) == ["movies", id]
  {
    assert "/movies/" + id == "/" + "movies" + "/" + id;
    TwoSegments("movies", id);
  }

  /** The root path has no segments. */
  lemma RootSegments(root: string)
    requires root == "/"
    ensures Segments(root) == []
  {
    Codec.SplitPrefix("", '/', "");
    assert "" + ['/'] + "" == root;
    assert Codec.Split("", '/') == [""];
    assert Codec.Split(root, '/') == ["", ""];
    assert ["", ""][1..] == [""];
    assert NonEmpty([""]) == NonEmpty([]);
  }

  /** A one-segment path selects the page its segment names. */
  lemma ResolveSingle(name: string)
    requires name != "" && '/' !in name
    ensures Resolve("/" + name) == SinglePage(name)
  {
    SingleSegment(name);
  }

  /** Every link the application builds leads back to the page it names. */
  lemma ResolvePathOf(p: Page)
    requires p.MovieDetail? ==> p.id != "" && '/' !in p.id
    ensures Resolve(PathOf(p)) == p
  {
    match p
    case Home => RootSegments(PathOf(p));
    case MovieDetail(id) => MovieSegments(id);
    case _ => ResolveNamedPage(p);
  }

  lemma ResolveNamedPage(p: Page)
    requires !p.Home? && !p.MovieDetail?
    ensures Resolve(PathOf(p)) == p
  {
    ResolveSingle(SegmentOf(p));
  }

  /** The pieces `NonEmpty` keeps are the non-empty ones. */
  lemma {:induction false} NonEmptyKeepsPlain(pieces: seq<string>, sep: char)
    requires forall k :: 0 <= k < |pieces| ==> sep !in pieces[k]
    ensures forall k :: 0 <= k < |NonEmpty(pieces)| ==> NonEmpty(pieces)[k] != "" && sep !in NonEmpty(pieces)[k]
  {
    if pieces != [] {
      assert forall k :: 0 <= k < |pieces[1..]| ==> pieces[1..][k] == pieces[k + 1];
      NonEmptyKeepsPlain(pieces[1..], sep);
    }
  }

  /** Every segment of a path is non-empty and holds no slash. */
  lemma SegmentsArePlain(path: string)
    ensures forall k :: 0 <= k < |Segments(path)| ==> Segments(path)[k] != "" && '/' !in Segments(path)[k]
  {
    Codec.SplitPiecesPlain(path, '/');
    NonEmptyKeepsPlain(Codec.Split(path, '/'), '/');
  }

  /**
   * The catch-all: a path that does not fall to the not-found page has the
   * same segments as the path of the page it selects, so no unlisted path
   * reaches a real page.
   */
  lemma OnlyListedPathsResolve(path: string)
    ensures Resolve(path) == NotFound || Segments(path) == Segments(PathOf(Resolve(path)))
  {
    var s := Segments(path);
    SegmentsArePlain(path);
    if s == [] {
      RootSegments(PathOf(Home));
    } else if |s| == 1 {
      var p := SinglePage(s[0]);
      if p != NotFound {
        assert SegmentOf(p) == s[0];
        SingleSegment(s[0]);
        assert s == [s[0]];
      }
    } else if |s| == 2 && s[0] == "movies" {
      MovieSegments(s[1]);
      assert s == ["movies", s[1]];
    }
  }

  /** A signed-out visitor reaches a guarded page never, an open page always. */
  lemma SignedOutVisitor(path: string, auth: AuthSlice.AuthState)
    requires !auth.isAuthenticated
    ensures Visit(path, auth) == if Guard(Resolve(path)).Some? then Navigate("/login") else Show(Resolve(path))
  {
  }

  /**
   * A page restricted to some roles is shown exactly when the visitor is
   * signed in and either no user is loaded or the user's role is allowed;
   * every other signed-in visitor is sent to `/`.
   */
  lemma RoleRestrictedPage(path: string, auth: AuthSlice.AuthState, roles: seq<Role>)
    requires Guard(Resolve(path)) == Some(Some(roles))
    ensures Visit(path, auth) == Show(Resolve(path)) <==>
              auth.isAuthenticated && (auth.user.None? || auth.user.value.role in roles)
    ensures auth.isAuthenticated && auth.user.Some? && auth.user.value.role !in roles ==> Visit(path, auth) == Navigate("/")
  {
  }

  /**
   * To a signed-in visitor whose user has loaded, `/admin` is shown only to
   * an admin, `/vendor` only to a vendor and `/rentals` only to a customer.
   */
  lemma RolePagesNeedTheirRole(p: Page, auth: AuthSlice.AuthState, u: User)
    requires p == AdminPage || p == VendorPage || p == Rentals
    requires auth.isAuthenticated && auth.user == Some(u)
    ensures Visit(PathOf(p), auth) == Show(p) <==>
      || (p == AdminPage && u.role == Admin)
      || (p == VendorPage && u.role == Vendor)
      || (p == Rentals && u.role == Customer)
  {
    ResolvePathOf(p);
    RoleRestrictedPage(PathOf(p), auth, Guard(p).value.value);
  }

  /** The profile page needs a session and nothing more. */
  lemma ProfileNeedsSessionOnly(auth: AuthSlice.AuthState)
    ensures Visit("/profile", auth) == if auth.isAuthenticated then Show(Profile) else Navigate("/login")
  {
    SingleSegment("profile");
  }

  /**
   * A signed-in session whose user has not been loaded passes every role
   * check: such a session is reachable, since the login page stores the
   * tokens before it fetches the profile.
   */
  lemma SessionWithoutUserPassesRoleChecks(path: string, auth: AuthSlice.AuthState)
    requires auth.isAuthenticated && auth.user.None?
    ensures Visit(path, auth) == Show(Resolve(path))
  {
  }
}
