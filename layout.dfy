/** The application layout: which of three renderings a page gets, from the
    authentication flag and the current path. */
module Layout {
  import Auth

  /** The app shell around the page, the login page instead of the page, or
      the page alone. */
  datatype View = Shell | LoginScreen | Bare

  /** Whether the page's own children appear in a view. */
  predicate ShowsChildren(v: View)
  {
    v != LoginScreen
  }

  function Choose(isAuthenticated: bool, pathname: string): (v: View)
    ensures v == Shell <==> isAuthenticated && pathname != Auth.LoginPath
    ensures v == LoginScreen <==> !isAuthenticated && pathname != Auth.LoginPath
    ensures v == Bare <==> pathname == Auth.LoginPath
  {
    var isLoginPage := pathname == Auth.LoginPath;
    if isAuthenticated && !isLoginPage then Shell
    else if !isAuthenticated && !isLoginPage then LoginScreen
    else Bare
  }

  /** Off the login page, the page's children appear only inside the shell, and
      only when authenticated. */
  lemma ChildrenOnlyInShell(isAuthenticated: bool, pathname: string)
    requires pathname != Auth.LoginPath
    ensures ShowsChildren(Choose(isAuthenticated, pathname)) <==> isAuthenticated
    ensures ShowsChildren(Choose(isAuthenticated, pathname)) ==> Choose(isAuthenticated, pathname) == Shell
  {
  }

  /** The login page renders bare whatever the flag. */
  lemma LoginPageIgnoresFlag(pathname: string)
    requires pathname == Auth.LoginPath
    ensures Choose(true, pathname) == Choose(false, pathname) == Bare
  {
  }
}
