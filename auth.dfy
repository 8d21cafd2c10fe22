/** The authentication gate: one flag, mirrored in one key of the browser's
    local storage, with the load effect, login and logout. Router redirects are
    recorded in the order they are issued. */
module Auth {
  import opened Forms

  const StorageKey := "isAuthenticated"
  const LoginPath := "/login"
  const HomePath := "/"

  /** The browser's local storage, key to value. */
  type Storage = map<string, string>

  /** The storage says the user is logged in: the key holds exactly 'true'. */
  predicate RemembersLogin(s: Storage)
  {
    StorageKey in s && s[StorageKey] == "true"
  }

  /** The storage after login writes the key. */
  function Remember(s: Storage): (r: Storage)
    ensures RemembersLogin(r)
    ensures forall k :: k != StorageKey ==> (k in r <==> k in s)
    ensures forall k :: k != StorageKey && k in s ==> r[k] == s[k]
  {
    s[StorageKey := "true"]
  }

  /** The storage after logout removes the key. */
  function Forget(s: Storage): (r: Storage)
    ensures StorageKey !in r && !RemembersLogin(r)
    ensures forall k :: k != StorageKey ==> (k in r <==> k in s)
    ensures forall k :: k != StorageKey && k in s ==> r[k] == s[k]
  {
    s - {StorageKey}
  }

  /** Where the load effect redirects on `pathname`: nowhere when the storage
      remembers a login or the page is already the login page, else to it. */
  function LoadRedirect(s: Storage, pathname: string): (r: Option<string>)
    ensures r == None <==> RemembersLogin(s) || pathname == LoginPath
    ensures r != None ==> r.value == LoginPath
  {
    if RemembersLogin(s) then None
    else if pathname != LoginPath then Some(LoginPath)
    else None
  }

  function AsList(o: Option<string>): seq<string>
  {
    if o.Some? then [o.value] else []
  }

  class AuthProvider {
    var isAuthenticated: bool
    var storage: Storage
    /** The targets of the router's replace calls, oldest first. */
    var redirects: seq<string>

    /** Mounting the provider over the browser's storage: not yet authenticated. */
    constructor (storage: Storage)
      ensures !isAuthenticated && this.storage == storage && redirects == []
    {
      isAuthenticated := false;
      this.storage := storage;
      redirects := [];
    }

    /** The effect run after mounting, on the page at `pathname`. A stored
      'true' sets the flag; any other value, or none, leaves the flag as it is
      and redirects to the login page unless already there. */
    method Load(pathname: string)
      modifies this`isAuthenticated, this`redirects
      ensures isAuthenticated == (old(isAuthenticated) || RemembersLogin(storage))
      ensures redirects == old(redirects) + AsList(LoadRedirect(storage, pathname))
    {
      var stored := if StorageKey in storage then Some(storage[StorageKey]) else None;
      if stored == Some("true") {
        isAuthenticated := true;
      } else {
        if pathname != LoginPath {
          redirects := redirects + [LoginPath];
        }
      }
    }

    method Login()
      modifies this`isAuthenticated, this`storage, this`redirects
      ensures storage == Remember(old(storage)) && isAuthenticated
      ensures redirects == old(redirects) + [HomePath]
    {
      storage := storage[StorageKey := "true"];
      isAuthenticated := true;
      redirects := redirects + [HomePath];
    }

    method Logout()
      modifies this`isAuthenticated, this`storage, this`redirects
      ensures storage == Forget(old(storage)) && !isAuthenticated
      ensures redirects == old(redirects) + [LoginPath]
    {
      storage := storage - {StorageKey};
      isAuthenticated := false;
      redirects := redirects + [LoginPath];
    }
  }

  /** A fresh provider that runs its load effect is authenticated exactly when
      the storage remembers a login. */
  method Reload(storage: Storage, pathname: string) returns (isAuthenticated: bool, redirect: Option<string>)
    ensures isAuthenticated == RemembersLogin(storage)
    ensures redirect == LoadRedirect(storage, pathname)
  {
    var provider := new AuthProvider(storage);
    provider.Load(pathname);
    isAuthenticated := provider.isAuthenticated;
    redirect := if provider.redirects == [] then None else Some(provider.redirects[0]);
  }

  /** The flag survives a reload through the storage: after login a reload is
      authenticated without redirect, after logout it is not and redirects off
      every page but the login page. */
  lemma ReloadMatchesFlag(s: Storage, pathname: string)
    ensures RemembersLogin(Remember(s)) && LoadRedirect(Remember(s), pathname) == None
    ensures !RemembersLogin(Forget(s))
    ensures LoadRedirect(Forget(s), pathname) == if pathname == LoginPath then None else Some(LoginPath)
  {
  }

  /** Logging in twice, or out twice, leaves the storage as once. */
  lemma LoginLogoutIdempotent(s: Storage)
    ensures Remember(Remember(s)) == Remember(s)
    ensures Forget(Forget(s)) == Forget(s)
  {
  }

  /** Only a stored value of exactly 'true' counts as a login. */
  lemma OnlyTrueCounts(s: Storage, v: string)
    ensures RemembersLogin(s[StorageKey := v]) <==> v == "true"
  {
  }
}
