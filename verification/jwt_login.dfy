/**
 * The login filter. For requests to the login URL it reads the credentials
 * from the body, hands them to the authentication manager and, on success,
 * answers with a signed token in one response header. The authentication
 * manager and the token signer are parameters fixed at construction; both
 * clock readings are method parameters.
 */
module JwtLogin {
  import opened Wrappers

  /** The settings the filter reads. The key passphrase is held by the signer. */
  datatype JwtProperties = JwtProperties(
    tokenExpirationHours: int,
    authorizationHeaderName: string,
    tokenPrefix: string)

  /** The claims the token carries; times are milliseconds since the epoch. */
  datatype Claims = Claims(subject: string, authorities: string, issuedAt: int, expiration: int)

  const MillisPerHour: int := 60 * 60 * 1000

  /**
   * The login body as Jackson reads it: a field missing from the JSON stays
   * null, the JSON literal `null` reads as a null request object, and input
   * that cannot be read raises an IOException.
   */
  datatype LoginBody =
    | Credentials(username: Option<string>, password: Option<string>)
    | NullBody
    | IOException(reason: string)

  datatype HttpRequest = HttpRequest(path: string, body: LoginBody)

  /** The authentication request handed to the manager (a UsernamePasswordAuthenticationToken). */
  datatype AuthenticationRequest = UsernamePasswordToken(principal: Option<string>, credentials: Option<string>)

  /** An authenticated principal: its name and its authorities in iteration order. */
  datatype Authentication = Authentication(name: string, authorities: seq<string>)

  /** The manager either authenticates the request or throws an AuthenticationException. */
  datatype AuthOutcome = Authenticated(authentication: Authentication) | AuthenticationException(reason: string)

  /** An exception that leaves the filter. */
  datatype Uncaught =
    | RuntimeException(cause: string)   // wraps the IOException that reading the body raised
    | NullPointerException              // the getters called on a null request object

  /**
   * `attemptAuthentication`: the request it built with the manager's answer,
   * or the exception it threw before any manager call.
   */
  datatype Attempt =
    | Attempted(request: AuthenticationRequest, outcome: AuthOutcome)
    | Threw(exception: Uncaught)

  /** What the filter did with a request. */
  datatype FilterOutcome =
    | PassedOn                        // not the login URL: the chain goes on
    | TokenIssued(authentication: Authentication)
    | Unsuccessful(reason: string)    // the manager threw an AuthenticationException
    | Thrown(exception: Uncaught)     // the exception propagates

  /** The authorities joined by "," in iteration order (`Collectors.joining(",")`). */
  function JoinAuthorities(authorities: seq<string>): (s: string)
    ensures authorities == [] ==> s == ""
    ensures |authorities| == 1 ==> s == authorities[0]
  {
    if |authorities| == 0 then ""
    else if |authorities| == 1 then authorities[0]
    else authorities[0] + "," + JoinAuthorities(authorities[1..])
  }

  /** Splits text at every comma: the reading a token verifier applies to the authorities claim. */
  function SplitOnComma(s: string): (parts: seq<string>)
    ensures |parts| >= 1
  {
    if s == [] then [""]
    else
      var rest := SplitOnComma(s[1..]);
      if s[0] == ',' then [""] + rest else [[s[0]] + rest[0]] + rest[1..]
  }

  lemma {:induction false} SplitWithoutComma(a: string)
    requires ',' !in a
    ensures SplitOnComma(a) == [a]
  {
    if a != [] {
      SplitWithoutComma(a[1..]);
      assert a == [a[0]] + a[1..];
    }
  }

  lemma {:induction false} SplitAtFirstComma(a: string, rest: string)
    requires ',' !in a
    ensures SplitOnComma(a + "," + rest) == [a] + SplitOnComma(rest)
  {
    if a == [] {
      assert a + "," + rest == [','] + rest;
      assert (a + "," + rest)[1..] == rest;
    } else {
      SplitAtFirstComma(a[1..], rest);
      assert (a + "," + rest)[1..] == a[1..] + "," + rest;
      assert a == [a[0]] + a[1..];
    }
  }

  /** The authorities claim is decodable: splitting it at commas gives back the authorities. */
  lemma {:induction false} JoinSplitRoundTrip(authorities: seq<string>)
    requires authorities != [] && CommaFree(authorities)
    ensures SplitOnComma(JoinAuthorities(authorities)) == authorities
  {
    if |authorities| == 1 {
      SplitWithoutComma(authorities[0]);
    } else {
      JoinSplitRoundTrip(authorities[1..]);
      SplitAtFirstComma(authorities[0], JoinAuthorities(authorities[1..]));
      assert authorities == [authorities[0]] + authorities[1..];
    }
  }

  /** No authorities and one empty authority give the same claim, so the claim alone cannot tell them apart. */
  lemma EmptyAuthoritiesClaim()
    ensures JoinAuthorities([]) == JoinAuthorities([""]) == ""
  {
  }

  /**
   * The claims of the token issued for `authResult`: `issuedAt` is the first
   * clock reading (the `new Date()`), `now` the second (the `Instant.now()`).
   */
  function TokenClaims(authResult: Authentication, props: JwtProperties, issuedAt: int, now: int): (c: Claims)
    ensures c.subject == authResult.name && c.issuedAt == issuedAt
    ensures c.expiration - now == props.tokenExpirationHours * MillisPerHour
    ensures c.authorities == JoinAuthorities(authResult.authorities)
  {
    Claims(authResult.name, JoinAuthorities(authResult.authorities), issuedAt,
           now + props.tokenExpirationHours * MillisPerHour)
  }

  /** No authority contains the separator. */
  predicate CommaFree(authorities: seq<string>) {
    forall i :: 0 <= i < |authorities| ==> ',' !in authorities[i]
  }

  /**
   * A reader of the token recovers the principal's authorities, in order,
   * from the claim, provided there is at least one and none contains a comma.
   */
  lemma TokenAuthoritiesDecode(authResult: Authentication, props: JwtProperties, issuedAt: int, now: int)
    requires authResult.authorities != [] && CommaFree(authResult.authorities)
    ensures SplitOnComma(TokenClaims(authResult, props, issuedAt, now).authorities) == authResult.authorities
  {
    JoinSplitRoundTrip(authResult.authorities);
  }

  datatype Header = Header(name: string, value: string)

  /** The part of the servlet response the filter touches. */
  class HttpResponse {
    var status: int
    var headers: seq<Header>
    var body: string

    constructor ()
      ensures status == 200 && headers == [] && body == ""
    {
      status := 200;
      headers := [];
      body := "";
    }

    /** `addHeader`: appends, even when a header of that name is already present. */
    method AddHeader(name: string, value: string)
      modifies this
      ensures headers == old(headers) + [Header(name, value)]
      ensures status == old(status) && body == old(body)
    {
      headers := headers + [Header(name, value)];
    }
  }

  class LoginFilter {
    const authenticationManager: AuthenticationRequest -> AuthOutcome
    const jwtProperties: JwtProperties
    /** Builds, signs with the secret key and compacts a token from its claims. */
    const sign: Claims -> string
    /** Set through `setFilterProcessesUrl`: the one path this filter processes. */
    var filterProcessesUrl: string

    constructor (authenticationManager: AuthenticationRequest -> AuthOutcome, jwtProperties: JwtProperties,
                 sign: Claims -> string, filterProcessesUrl: string)
      ensures this.authenticationManager == authenticationManager
      ensures this.jwtProperties == jwtProperties && this.sign == sign
      ensures this.filterProcessesUrl == filterProcessesUrl
    {
      this.authenticationManager := authenticationManager;
      this.jwtProperties := jwtProperties;
      this.sign := sign;
      this.filterProcessesUrl := filterProcessesUrl;
    }

    /** Whether the filter handles the request: its path is the URL given at construction. */
    predicate RequiresAuthentication(request: HttpRequest): (b: bool)
      reads this
      ensures b <==> request.path == filterProcessesUrl
    {
      request.path == filterProcessesUrl
    }

    /**
     * Builds the authentication request from exactly the parsed username and
     * password and returns the manager's answer. An unreadable body is
     * rethrown, wrapped; a `null` body fails on its getters, unwrapped, since
     * only IOException is caught. Neither calls the manager.
     */
    function AttemptAuthentication(request: HttpRequest): (a: Attempt)
      ensures a.Threw? <==> !request.body.Credentials?
      ensures request.body.IOException? ==> a == Threw(RuntimeException(request.body.reason))
      ensures request.body.NullBody? ==> a == Threw(NullPointerException)
      ensures a.Attempted? ==>
                a.request.principal == request.body.username && a.request.credentials == request.body.password
      ensures a.Attempted? ==> a.outcome == authenticationManager(a.request)
    {
      match request.body
      case IOException(e) => Threw(RuntimeException(e))
      case NullBody => Threw(NullPointerException)
      case Credentials(username, password) =>
        var authentication := UsernamePasswordToken(username, password);
        Attempted(authentication, authenticationManager(authentication))
    }

    /** The header the filter adds for an authenticated principal. */
    function TokenHeader(authResult: Authentication, issuedAt: int, now: int): (h: Header)
      ensures h.name == jwtProperties.authorizationHeaderName
      ensures h.value == jwtProperties.tokenPrefix + sign(TokenClaims(authResult, jwtProperties, issuedAt, now))
      ensures |h.value| >= |jwtProperties.tokenPrefix| && h.value[..|jwtProperties.tokenPrefix|] == jwtProperties.tokenPrefix
    {
      Header(jwtProperties.authorizationHeaderName,
             jwtProperties.tokenPrefix + sign(TokenClaims(authResult, jwtProperties, issuedAt, now)))
    }

    /** `successfulAuthentication`: exactly one header is added and nothing else in the response changes. */
    method SuccessfulAuthentication(request: HttpRequest, response: HttpResponse, authResult: Authentication,
                                    issuedAt: int, now: int)
      modifies response
      ensures response.headers == old(response.headers) + [TokenHeader(authResult, issuedAt, now)]
      ensures response.status == old(response.status) && response.body == old(response.body)
    {
      var authorities := JoinAuthorities(authResult.authorities);
      var token := sign(Claims(authResult.name, authorities, issuedAt,
                               now + jwtProperties.tokenExpirationHours * MillisPerHour));
      response.AddHeader(jwtProperties.authorizationHeaderName, jwtProperties.tokenPrefix + token);
    }

    /**
     * The framework's dispatch around the two overridden steps: requests to
     * other paths pass on untouched; the rest are authenticated, and only a
     * successful authentication writes to the response.
     */
    method DoFilter(request: HttpRequest, response: HttpResponse, issuedAt: int, now: int) returns (o: FilterOutcome)
      modifies response
      ensures o.PassedOn? <==> !RequiresAuthentication(request)
      ensures !o.TokenIssued? ==> unchanged(response)
      ensures o.TokenIssued? ==>
        && AttemptAuthentication(request).Attempted?
        && AttemptAuthentication(request).outcome == Authenticated(o.authentication)
        && response.headers == old(response.headers) + [TokenHeader(o.authentication, issuedAt, now)]
        && response.status == old(response.status) && response.body == old(response.body)
      ensures o.Unsuccessful? ==>
        && AttemptAuthentication(request).Attempted?
        && AttemptAuthentication(request).outcome == AuthenticationException(o.reason)
      ensures o.Thrown? ==> AttemptAuthentication(request) == Threw(o.exception)
    {
      if !RequiresAuthentication(request) {
        return PassedOn;
      }
      var attempt := AttemptAuthentication(request);
      match attempt
      case Threw(exception) =>
        o := Thrown(exception);
      case Attempted(_, AuthenticationException(reason)) =>
        o := Unsuccessful(reason);
      case Attempted(_, Authenticated(authResult)) =>
        SuccessfulAuthentication(request, response, authResult, issuedAt, now);
        o := TokenIssued(authResult);
    }
  }
}
