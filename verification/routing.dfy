/** `ProtectedRoute`: which screen a guarded page shows. */
module Routing {

  /**
   * The four outcomes: the loading spinner, the welcome screen (with its
   * sign-up dialog open or not), the Pro upgrade prompt, or the page itself.
   */
  datatype Screen = Spinner | Welcome(dialogOpen: bool, dialogMode: string) | UpgradePrompt | Page

  /**
   * The decision, from the auth hook's three flags, the route's
   * `requiresPro` (false unless given), and whether "Get Started" was pressed.
   */
  function Route(loading: bool, isAuthenticated: bool, isPro: bool, requiresPro: bool := false,
                 showAuthModal: bool := false): (s: Screen)
    ensures loading <==> s == Spinner
    ensures s.Welcome? <==> !loading && !isAuthenticated
    ensures s.Welcome? ==> s == Welcome(showAuthModal, "signup")
    ensures s == UpgradePrompt <==> !loading && isAuthenticated && requiresPro && !isPro
    ensures s == Page <==> !loading && isAuthenticated && (!requiresPro || isPro)
  {
    if loading then Spinner
    else if !isAuthenticated then Welcome(showAuthModal, "signup")
    else if requiresPro && !isPro then UpgradePrompt
    else Page
  }

  /**
   * Routes without `requiresPro` never ask for an upgrade, and a Pro user
   * who is signed in sees every page once loading is done.
   */
  lemma ProSeesEverything(isPro: bool, requiresPro: bool, showAuthModal: bool)
    ensures Route(false, true, isPro) == Page
    ensures isPro ==> Route(false, true, true, requiresPro, showAuthModal) == Page
    ensures Route(false, true, isPro, false, showAuthModal) != UpgradePrompt
  {
  }
}
