/** The shared authentication store: the signed-in user, the token, the
    derived "authenticated" flag, and the copy of the token kept in the
    browser's storage. */
module AuthStore {
  import opened Wrappers

  datatype User = User(id: string, firstName: string, lastName: string, email: string, role: string)

  /** A partial user: the fields an update sets; the others are kept. */
  datatype UserPatch = UserPatch(
    id: Option<string>, firstName: Option<string>, lastName: Option<string>,
    email: Option<string>, role: Option<string>)

  const NoChanges: UserPatch := UserPatch(None, None, None, None, None)

  /** `!!token` for a token that may be null. */
  predicate Truthy(token: Option<string>) {
    token.Some? && token.value != ""
  }

  /** `{ ...user, ...patch }`. */
  function Patched(u: User, p: UserPatch): (r: User)
    ensures r.id == p.id.GetOr(u.id) && r.firstName == p.firstName.GetOr(u.firstName)
    ensures r.lastName == p.lastName.GetOr(u.lastName) && r.email == p.email.GetOr(u.email)
    ensures r.role == p.role.GetOr(u.role)
  {
    User(p.id.GetOr(u.id), p.firstName.GetOr(u.firstName), p.lastName.GetOr(u.lastName),
         p.email.GetOr(u.email), p.role.GetOr(u.role))
  }

  /** The fields of `first`, overridden by those `second` sets. */
  function Then(first: UserPatch, second: UserPatch): UserPatch {
    UserPatch(if second.id.Some? then second.id else first.id,
              if second.firstName.Some? then second.firstName else first.firstName,
              if second.lastName.Some? then second.lastName else first.lastName,
              if second.email.Some? then second.email else first.email,
              if second.role.Some? then second.role else first.role)
  }

  /** An update that sets nothing keeps the user. */
  lemma PatchNothing(u: User)
    ensures Patched(u, NoChanges) == u
  {
  }

  /** Applying the same update twice is applying it once. */
  lemma PatchIdempotent(u: User, p: UserPatch)
    ensures Patched(Patched(u, p), p) == Patched(u, p)
  {
  }

  /** Two updates in a row are one update with the later fields winning. */
  lemma PatchCompose(u: User, p: UserPatch, q: UserPatch)
    ensures Patched(Patched(u, p), q) == Patched(u, Then(p, q))
  {
  }

  class Store {
    var user: Option<User>
    var token: Option<string>
    var isAuthenticated: bool
    /** The `token` entry of the browser's storage. */
    var storedToken: Option<string>

    /** The flag always tells whether the token is a non-empty string. */
    predicate Valid()
      reads this
    {
      isAuthenticated <==> Truthy(token)
    }

    /** The store as created when the page loads: no user, the token read
        back from storage. */
    constructor (storedToken: Option<string>)
      ensures Valid()
      ensures user.None? && token == storedToken && this.storedToken == storedToken
      ensures isAuthenticated <==> Truthy(storedToken)
    {
      user := None;
      token := storedToken;
      isAuthenticated := storedToken.Some? && storedToken.value != "";
      this.storedToken := storedToken;
    }

    /** `setToken`: storage receives the token, or an empty string for
        none; the flag follows the token. */
    method SetToken(t: Option<string>)
      modifies this`token, this`isAuthenticated, this`storedToken
      ensures Valid()
      ensures token == t && storedToken == Some(t.GetOr(""))
      ensures isAuthenticated <==> Truthy(t)
    {
      storedToken := Some(if t.Some? then t.value else "");
      token := t;
      isAuthenticated := t.Some? && t.value != "";
    }

    /** `setUser`: the user is replaced as a whole. */
    method SetUser(u: Option<User>)
      modifies this`user
      ensures user == u
    {
      user := u;
    }

    /** `updateUser`: the update's fields override the user's; without a
        user there is nothing to update. */
    method UpdateUser(p: UserPatch)
      modifies this`user
      ensures old(user).None? ==> user.None?
      ensures old(user).Some? ==> user == Some(Patched(old(user).value, p))
    {
      if user.Some? {
        user := Some(Patched(user.value, p));
      }
    }

    /** The profile-completion page's start: a user with no role takes the
        role kept in storage. */
    method AdoptStoredRole(storedRole: Option<string>)
      modifies this`user
      ensures old(user).None? ==> user.None?
      ensures old(user).Some? && old(user).value.role != "" ==> user == old(user)
      ensures old(user).Some? && old(user).value.role == "" ==>
        user == Some(old(user).value.(role := if Truthy(storedRole) then storedRole.value else ""))
    {
      if user.Some? && user.value.role != "" {
        return;
      }
      if storedRole.Some? && storedRole.value != "" {
        UpdateUser(NoChanges.(role := storedRole));
      }
    }
  }

  /** A token set and then read back by a fresh store (a page reload)
      gives the same answer to "authenticated?", and the same token when
      there is one. */
  method ReloadKeepsAuthentication(s: Store, t: Option<string>) returns (reloaded: Store)
    modifies s
    ensures s.Valid() && reloaded.Valid()
    ensures reloaded.isAuthenticated == s.isAuthenticated
    ensures Truthy(t) ==> reloaded.token == s.token
    ensures reloaded.user.None?
  {
    s.SetToken(t);
    reloaded := new Store(s.storedToken);
  }
}
