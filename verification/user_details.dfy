/**
 * The user-details service Spring's authentication provider calls: it looks a
 * user up by name and turns the stored record into the details the provider
 * checks. The user store and the role's authorities are parameters.
 */
module UserDetails {
  import opened Wrappers

  type RoleName = string

  /** A stored user: its name, its password hash and its role. */
  datatype User = User(username: string, password: string, role: RoleName)

  /** The details handed back to Spring Security. */
  datatype UserDetails = UserDetails(
    username: string,
    password: string,
    accountNonExpired: bool,
    accountNonLocked: bool,
    enabled: bool,
    credentialsNonExpired: bool,
    grantedAuthorities: set<string>)

  datatype UsernameNotFoundException = UsernameNotFoundException(message: string)

  const NotFoundPrefix: string := "User with "
  const NotFoundSuffix: string := " wasn't found"

  /** `String.format("User with %s wasn't found", username)`. */
  function NotFoundMessage(username: string): (m: string)
    ensures |m| == |NotFoundPrefix| + |username| + |NotFoundSuffix|
    ensures m[..|NotFoundPrefix|] == NotFoundPrefix
    ensures m[|NotFoundPrefix|..|m| - |NotFoundSuffix|] == username
    ensures m[|m| - |NotFoundSuffix|..] == NotFoundSuffix
  {
    NotFoundPrefix + username + NotFoundSuffix
  }

  /** The message names the user exactly: different names give different messages. */
  lemma NotFoundMessageInjective(a: string, b: string)
    requires NotFoundMessage(a) == NotFoundMessage(b)
    ensures a == b
  {
    var m := NotFoundMessage(a);
    assert a == m[|NotFoundPrefix|..|m| - |NotFoundSuffix|];
  }

  /** What Spring's account-status checks require before and after the password check. */
  predicate PassesAccountChecks(d: UserDetails) {
    d.accountNonLocked && d.enabled && d.accountNonExpired && d.credentialsNonExpired
  }

  /**
   * `getUserDetails`: the stored name and password hash, every account flag
   * set, and the role's authorities unchanged.
   */
  function GetUserDetails(user: User, roleAuthorities: RoleName -> set<string>): (d: UserDetails)
    ensures d.username == user.username && d.password == user.password
    ensures PassesAccountChecks(d)
    ensures d.grantedAuthorities == roleAuthorities(user.role)
  {
    UserDetails(user.username, user.password, true, true, true, true, roleAuthorities(user.role))
  }

  /**
   * `loadUserByUsername`: one lookup with exactly the given name; a missing
   * user raises UsernameNotFoundException naming it.
   */
  function LoadUserByUsername(username: string, getUser: string -> Option<User>,
                              roleAuthorities: RoleName -> set<string>): (r: Result<UserDetails, UsernameNotFoundException>)
    ensures r.Failure? <==> getUser(username).None?
    ensures r.Failure? ==> r.error.message == NotFoundMessage(username)
    ensures r.Success? ==> r.value == GetUserDetails(getUser(username).value, roleAuthorities)
  {
    match getUser(username)
    case None => Failure(UsernameNotFoundException(NotFoundMessage(username)))
    case Some(user) => Success(GetUserDetails(user, roleAuthorities))
  }

  /**
   * Whatever the store holds, a found user is never refused by the account
   * checks; only the password check can still reject the login.
   */
  lemma LoadedDetailsPassAccountChecks(username: string, getUser: string -> Option<User>,
                                       roleAuthorities: RoleName -> set<string>)
    requires getUser(username).Some?
    ensures LoadUserByUsername(username, getUser, roleAuthorities).Success?
    ensures PassesAccountChecks(LoadUserByUsername(username, getUser, roleAuthorities).value)
    ensures LoadUserByUsername(username, getUser, roleAuthorities).value.username == getUser(username).value.username
  {
  }
}
