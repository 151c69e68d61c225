/** The session guard and the route table of the application shell. */
module App {
  import opened Common

  /** The page components the router can mount. */
  datatype Page =
    | LoginPage | HomePage | UserProfileForm | GraphsPage | MyRecords
    | HomePageAdmin | GetRecords | RoutineList | CreateRoutine

  /** What the router renders for a path: a page, or a redirect. */
  datatype Element = Show(page: Page) | Navigate(to: string)

  /** How a declared path is mounted: as is, or wrapped in the guard. */
  datatype RouteKind = Public(page: Page) | Protected(page: Page)

  const LoginPath := "/login"

  /** Session check of the guard: the `isLoggedIn` flag is exactly the string
      "true" and a truthy `authToken` is stored. */
  predicate IsAuthenticated(store: Storage): (ok: bool)
    ensures ok <==> "isLoggedIn" in store && store["isLoggedIn"] == "true"
                    && "authToken" in store && store["authToken"] != ""
  {
    GetItem(store, "isLoggedIn") == Some("true") && Truthy(GetItem(store, "authToken"))
  }

  /** `ProtectedRoute`: renders its children unchanged when the session check
      passes and redirects to the login page otherwise. It only looks keys up:
      the storage is a value here and nothing is written back. */
  function ProtectedRoute(store: Storage, children: Element): (e: Element)
    ensures ("isLoggedIn" in store && store["isLoggedIn"] == "true"
             && "authToken" in store && store["authToken"] != "") ==> e == children
    ensures !("isLoggedIn" in store && store["isLoggedIn"] == "true") ==> e == Navigate("/login")
    ensures !("authToken" in store && store["authToken"] != "") ==> e == Navigate("/login")
  {
    if IsAuthenticated(store) then children else Navigate(LoginPath)
  }

  /** A flag other than the exact string "true" denies, whatever the token. */
  lemma FlagMustBeExactlyTrue(token: string, children: Element)
    ensures forall flag | flag in {"TRUE", "1", "True", "yes", ""} ::
              ProtectedRoute(map["isLoggedIn" := flag, "authToken" := token], children) == Navigate("/login")
    ensures ProtectedRoute(map["authToken" := token], children) == Navigate("/login")
  {
  }

  /** The declared routes; "/login" is the only one mounted without the guard. */
  const Routes: map<string, RouteKind> := map[
    "/login" := Public(LoginPage),
    "/" := Protected(HomePage),
    "/Formulario" := Protected(UserProfileForm),
    "/Estadisticas" := Protected(GraphsPage),
    "/VerRegistros" := Protected(MyRecords),
    "/admin" := Protected(HomePageAdmin),
    "/consultar-registros" := Protected(GetRecords),
    "/consultar-rutinas" := Protected(RoutineList),
    "/crear-rutinas" := Protected(CreateRoutine)
  ]

  /** The element the router renders for `path` with the given storage: the
      declared route (guarded where it is protected), or the catch-all
      redirect to the login page for an undeclared path. */
  function Resolve(path: string, store: Storage): (e: Element)
    ensures path !in Routes ==> e == Navigate("/login")
    ensures path == "/login" ==> e == Show(LoginPage)
    ensures e.Show? ==> path in Routes && e.page == Routes[path].page
    ensures e.Show? && path != "/login" ==> IsAuthenticated(store)
    ensures e.Navigate? ==> e.to == "/login"
    ensures path in Routes && IsAuthenticated(store) ==> e == Show(Routes[path].page)
  {
    if path in Routes then
      match Routes[path]
      case Public(p) => Show(p)
      case Protected(p) => ProtectedRoute(store, Show(p))
    else
      Navigate(LoginPath)
  }

  /** "/login" is the only public route; every other declared path is
      wrapped in the guard. */
  lemma OnlyLoginIsPublic(path: string)
    requires path in Routes
    ensures Routes[path].Public? <==> path == "/login"
    ensures path != "/login" ==> Routes[path].Protected?
  {
  }

  /** Without a valid session every path ends at the login page: the login
      route shows it, every other path redirects to it. */
  lemma NoSessionLeadsToLogin(path: string, store: Storage)
    requires !IsAuthenticated(store)
    ensures Resolve(path, store) == if path == "/login" then Show(LoginPage) else Navigate("/login")
  {
  }
}
