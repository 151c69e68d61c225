/** The login screen: a role selector whose submit, after a fixed delay,
    marks the session as logged in, stores the role and navigates by role. */
module Login {
  import opened Common
  import App

  const DefaultRole := "estudiante"
  const CoachRole := "entrenador"

  /** Landing page after login: the coach menu for a coach, the student home
      page for any other role. */
  function LoginTarget(role: string): (path: string)
    ensures path == "/admin" <==> role == "entrenador"
    ensures path == "/" <==> role != "entrenador"
  {
    if role == CoachRole then "/admin" else "/"
  }

  /** Storage after the delayed login step: two keys written, nothing else. */
  function AfterLogin(store: Storage, role: string): (after: Storage)
    ensures after.Keys == store.Keys + {"isLoggedIn", "userRole"}
    ensures after["isLoggedIn"] == "true" && after["userRole"] == role
    ensures forall k | k in store && k != "isLoggedIn" && k != "userRole" :: after[k] == store[k]
  {
    store["isLoggedIn" := "true"]["userRole" := role]
  }

  /** Login never writes `authToken`; so right after it the guard admits
      exactly when a non-empty token was already stored before. */
  lemma LoginAdmitsOnlyWithPriorToken(store: Storage, role: string)
    ensures GetItem(AfterLogin(store, role), "authToken") == GetItem(store, "authToken")
    ensures App.IsAuthenticated(AfterLogin(store, role)) <==> Truthy(GetItem(store, "authToken"))
  {
  }

  /** Starting from a storage without a token, the page login navigates to is
      itself redirected back to "/login", for every role. */
  lemma LoginWithoutTokenBouncesBack(store: Storage, role: string)
    requires "authToken" !in store
    ensures App.Resolve(LoginTarget(role), AfterLogin(store, role)) == App.Navigate("/login")
  {
    LoginAdmitsOnlyWithPriorToken(store, role);
  }

  /** Both landing pages are declared routes behind the guard. */
  lemma LoginTargetIsGuarded(role: string)
    ensures LoginTarget(role) in App.Routes && App.Routes[LoginTarget(role)].Protected?
  {
  }

  datatype LoginSnapshot = LoginSnapshot(
    role: string,
    loading: bool,
    error: string,
    pendingRole: Option<string>)

  /** The `Login` component's state. `pendingRole` is the role captured by the
      delayed step that `HandleLogin` schedules, absent when none is pending. */
  class LoginScreen {
    var role: string
    var loading: bool
    var error: string
    var pendingRole: Option<string>

    function Snapshot(): (s: LoginSnapshot)
      reads this
    {
      LoginSnapshot(role, loading, error, pendingRole)
    }

    /** The first render: the student role selected, idle, no error. */
    constructor ()
      ensures Snapshot() == LoginSnapshot(DefaultRole, false, "", None)
    {
      role := DefaultRole;
      loading := false;
      error := "";
      pendingRole := None;
    }

    /** The role selector's change handler. */
    method SelectRole(r: string)
      modifies this
      ensures Snapshot() == old(Snapshot()).(role := r)
    {
      role := r;
    }

    /** The submit handler: starts loading, clears the error and schedules the
      delayed step with the role selected now. Scheduling a timer cannot
      throw, so the handler's catch branch is never taken. */
    method HandleLogin()
      modifies this
      ensures Snapshot() == old(Snapshot()).(loading := true, error := "", pendingRole := Some(old(role)))
    {
      loading := true;
      error := "";
      pendingRole := Some(role);
    }

    /** The delayed step: writes `isLoggedIn` and `userRole` (and no other key),
      returns the navigation target for the captured role and stops loading. */
    method CompleteLogin(storage: LocalStorage) returns (target: string)
      requires pendingRole.Some?
      modifies this, storage
      ensures storage.items == AfterLogin(old(storage.items), old(pendingRole).value)
      ensures target == LoginTarget(old(pendingRole).value)
      ensures Snapshot() == old(Snapshot()).(loading := false, pendingRole := None)
    {
      var r := pendingRole.value;
      storage.SetItem("isLoggedIn", "true");
      storage.SetItem("userRole", r);
      if r == CoachRole {
        target := "/admin";
      } else {
        target := "/";
      }
      loading := false;
      pendingRole := None;
    }
  }
}
