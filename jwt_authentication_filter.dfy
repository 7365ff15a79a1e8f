/**
 * JwtAuthenticationFilter: the per-request filter that turns an `Authorization: Bearer <token>` header
 * into an authentication in the security context and an `authenticatedUserId` request attribute.
 * Token parsing and signature checking belong to JwtUtil, which is taken as two given functions.
 */
module JwtAuthenticationFilter {
  import opened Wrappers
  import opened Entities

  /** JwtUtil's two operations: the subject of a token (or none), and whether a token is valid for a user name. */
  datatype JwtUtil = JwtUtil(extractUsername: string -> Option<string>, validateToken: (string, string) -> bool)

  /** The request: its URI and Authorization header are read, the user-id attribute is written. */
  class HttpRequest {
    const requestUri: string
    const authorization: Option<string>
    var authenticatedUserId: Option<UserId>

    constructor (requestUri: string, authorization: Option<string>)
      ensures this.requestUri == requestUri && this.authorization == authorization
      ensures authenticatedUserId == None
    {
      this.requestUri, this.authorization, authenticatedUserId := requestUri, authorization, None;
    }
  }

  /** The security context; an authentication is represented by its principal's user name. */
  class SecurityContext {
    var authentication: Option<string>

    constructor ()
      ensures authentication == None
    {
      authentication := None;
    }
  }

  /** The rest of the filter chain, represented by how often it has been invoked. */
  class FilterChain {
    var invocations: nat

    constructor ()
      ensures invocations == 0
    {
      invocations := 0;
    }
  }

  /**
   * How the filter ends: the chain continued, NotLoggedInException escaped, or another exception escaped
   * (named by its class).
   */
  datatype FilterOutcome = Continued | NotLoggedIn(message: string) | Failed(exception: string)

  const BEARER := "Bearer "

  /** The two endpoints that need no token, matched exactly. */
  predicate IsPublicPath(path: string) {
    path == "/v1/users" || path == "/v1/auth/login"
  }

  /** The token of a header that starts with "Bearer ": everything after its first seven characters. */
  function BearerToken(header: Option<string>): (token: Option<string>)
    ensures token.Some? <==> header.Some? && |header.value| >= |BEARER| && header.value[..|BEARER|] == BEARER
    ensures token.Some? ==> header.value == BEARER + token.value
  {
    if header.Some? && |header.value| >= 7 && header.value[..7] == BEARER then Some(header.value[7..]) else None
  }

  /** Any token sent after "Bearer " is the token extracted. */
  lemma BearerTokenRoundTrip(token: string)
    ensures BearerToken(Some(BEARER + token)) == Some(token)
  {
    assert (BEARER + token)[7..] == token;
  }

  /** What the filter decides for a request, given whether the context already holds an authentication. */
  datatype Decision =
    | Skip                                          // a public path: nothing is looked at
    | Anonymous                                     // no usable token, or one that does not validate
    | EmptySubject                                  // a token whose subject is "": building UserDetails throws
    | Authenticate(username: string, id: UserId)    // a valid token of a known user
    | UnknownUser(username: string)                 // a valid token whose user is not stored

  function Decide(uri: string, header: Option<string>, authenticated: bool, jwt: JwtUtil,
                  usersByName: map<string, UserId>): (d: Decision)
    ensures IsPublicPath(uri) <==> d == Skip
    ensures !IsPublicPath(uri) && BearerToken(header).None? ==> d == Anonymous
    ensures !IsPublicPath(uri) && authenticated ==> d == Anonymous
    ensures d.Authenticate? || d.UnknownUser? ==>
              && BearerToken(header).Some?
              && jwt.extractUsername(BearerToken(header).value) == Some(d.username)
              && jwt.validateToken(BearerToken(header).value, d.username)
              && !authenticated
    ensures d.Authenticate? ==> d.username in usersByName && usersByName[d.username] == d.id
    ensures d.UnknownUser? ==> d.username !in usersByName
    ensures d == EmptySubject ==>
              BearerToken(header).Some? && jwt.extractUsername(BearerToken(header).value) == Some("") && !authenticated
    // and the other way round: what an unauthenticated request with a Bearer token leads to
    ensures !IsPublicPath(uri) && BearerToken(header).Some? && !authenticated ==>
              var t := BearerToken(header).value;
              match jwt.extractUsername(t)
              case None => d == Anonymous
              case Some(u) =>
                d == if u == "" then EmptySubject
                     else if !jwt.validateToken(t, u) then Anonymous
                     else if u in usersByName then Authenticate(u, usersByName[u])
                     else UnknownUser(u)
  {
    if IsPublicPath(uri) then Skip
    else
      var username := if BearerToken(header).Some? then jwt.extractUsername(BearerToken(header).value) else None;
      if username.None? || authenticated then Anonymous
      else if username.value == "" then EmptySubject
      else if !jwt.validateToken(BearerToken(header).value, username.value) then Anonymous
      else if username.value in usersByName then Authenticate(username.value, usersByName[username.value])
      else UnknownUser(username.value)
  }

  /** Without a Bearer header, or with an authentication already present, the filter never throws. */
  lemma NoTokenNeverThrows(uri: string, header: Option<string>, authenticated: bool, jwt: JwtUtil,
                           usersByName: map<string, UserId>)
    requires BearerToken(header).None? || authenticated
    ensures Decide(uri, header, authenticated, jwt, usersByName) == if IsPublicPath(uri) then Skip else Anonymous
  {
  }

  /**
   * A token without a subject, or one that does not validate, never authenticates and never leads to a
   * user lookup; unless its subject is "", the request simply stays anonymous.
   */
  lemma InvalidTokenStaysAnonymous(uri: string, header: Option<string>, authenticated: bool, jwt: JwtUtil,
                                   usersByName: map<string, UserId>)
    requires !IsPublicPath(uri) && BearerToken(header).Some?
    requires var t := BearerToken(header).value;
      jwt.extractUsername(t).None? || !jwt.validateToken(t, jwt.extractUsername(t).value)
    ensures var d := Decide(uri, header, authenticated, jwt, usersByName);
      !d.Authenticate? && !d.UnknownUser? &&
      (jwt.extractUsername(BearerToken(header).value) != Some("") ==> d == Anonymous)
  {
  }

  /**
   * doFilterInternal. On a public path the chain runs at once. Otherwise a Bearer token is extracted;
   * when it names a user and no authentication is present yet, UserDetails is built first (an empty
   * name makes that throw IllegalArgumentException); then, if the token validates, the context gets
   * the authentication and either the request gets the user's id or, for an unknown user,
   * NotLoggedInException escapes (with the authentication already set). Every other path runs the
   * chain exactly once.
   */
  method DoFilterInternal(request: HttpRequest, context: SecurityContext, chain: FilterChain, jwt: JwtUtil,
                          usersByName: map<string, UserId>)
      returns (outcome: FilterOutcome)
    modifies request`authenticatedUserId, context`authentication, chain`invocations
    ensures var d := Decide(request.requestUri, request.authorization, old(context.authentication).Some?, jwt, usersByName);
      && outcome == (if d.UnknownUser? then NotLoggedIn("Authentication failed: User not found")
                     else if d.EmptySubject? then Failed("IllegalArgumentException")
                     else Continued)
      && chain.invocations == old(chain.invocations) + (if outcome == Continued then 1 else 0)
      && context.authentication == (if d.Authenticate? || d.UnknownUser? then Some(d.username) else old(context.authentication))
      && request.authenticatedUserId == (if d.Authenticate? then Some(d.id) else old(request.authenticatedUserId))
  {
    var requestPath := request.requestUri;
    if requestPath == "/v1/users" || requestPath == "/v1/auth/login" {
      chain.invocations := chain.invocations + 1;
      return Continued;
    }

    var authHeader := request.authorization;
    var username: Option<string> := None;
    var token: Option<string> := None;

    if authHeader.Some? && |authHeader.value| >= 7 && authHeader.value[..7] == BEARER {
      token := Some(authHeader.value[7..]);
      username := jwt.extractUsername(token.value);
    }

    if username.Some? && context.authentication.None? {
      if username.value == "" {
        return Failed("IllegalArgumentException");
      }
      if jwt.validateToken(token.value, username.value) {
        context.authentication := Some(username.value);
        if username.value in usersByName {
          request.authenticatedUserId := Some(usersByName[username.value]);
        } else {
          return NotLoggedIn("Authentication failed: User not found");
        }
      }
    }
    chain.invocations := chain.invocations + 1;
    return Continued;
  }
}
