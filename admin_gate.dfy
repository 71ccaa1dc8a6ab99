/** The admin page: a gate over the authentication context's `loading` flag
    and user, in front of the panel that holds the four editors. */
module AdminGate {
  import opened Common

  /** The tabs of the panel; the panel opens on the services tab. */
  datatype Tab = ServicesTab | GalleryTab | ContentTab | SocialTab

  /** What the page renders. */
  datatype AdminView = LoadingScreen | Nothing | Panel(tab: Tab)

  /** The render decision: the loading placeholder while the session is
      loading, nothing when it has loaded without a user, and the panel
      (opened on its default tab) only when a user is present. */
  function View(loading: bool, user: Option<User>): (v: AdminView)
    ensures v == LoadingScreen <==> loading
    ensures v == Nothing <==> !loading && user.None?
    ensures v.Panel? <==> !loading && user.Some?
    ensures v.Panel? ==> v.tab == ServicesTab
  {
    if loading then LoadingScreen
    else if user.None? then Nothing
    else Panel(ServicesTab)
  }

  /** The redirect effect: to the login page exactly when the session has
      loaded without a user. */
  function Redirect(loading: bool, user: Option<User>): (path: Option<string>)
    ensures path.Some? <==> !loading && user.None?
    ensures path.Some? ==> path.value == "/auth"
  {
    if !loading && user.None? then Some("/auth") else None
  }

  /** The editors can be reached only from the panel, and the page never
      both shows the panel and redirects; while loading it never redirects. */
  lemma {:induction false} GateConsistent(loading: bool, user: Option<User>)
    ensures View(loading, user).Panel? ==> Redirect(loading, user).None? && user.Some?
    ensures Redirect(loading, user).Some? <==> View(loading, user) == Nothing
    ensures loading ==> Redirect(loading, user).None? && View(loading, user) == LoadingScreen
  {
  }

  /** A side effect of the page on the world outside it. */
  datatype Effect = SignOut | Navigate(path: string)

  /** `handleSignOut`: sign out, and only once that has completed, go to the
      home page; when signing out throws, the navigation is skipped. */
  method HandleSignOut(signOutThrows: bool) returns (effects: seq<Effect>)
    ensures |effects| >= 1 && effects[0] == SignOut
    ensures Navigate("/") in effects <==> !signOutThrows
    ensures forall i :: 0 <= i < |effects| && effects[i].Navigate? ==> i > 0 && effects[i] == Navigate("/")
  {
    effects := [SignOut];
    if !signOutThrows {
      effects := effects + [Navigate("/")];
    }
  }
}
