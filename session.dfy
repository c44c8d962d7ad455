/** The session (src/Components/AuthContext.jsx): the JWT held in memory and
    in local storage, the user derived from its claims, and the effect that
    turns an expired or undecodable token into a logout. The token decoder
    and the clock are parameters. */
module Session {
  import opened Js

  /** The claims the application reads from a decoded token. `exp` is the
      expiration time of section 4.1.4 of RFC 7519, in seconds since the
      epoch; `sub` the subject claim of section 4.1.2 of RFC 7519, which
      holds the email. */
  datatype Claims = Claims(
    id: Option<int>,
    name: Option<string>,
    sub: Option<string>,
    roles: Option<seq<string>>,
    exp: Option<int>)

  datatype User = User(id: Option<int>, name: Option<string>, email: Option<string>, roles: seq<string>)

  /** `decoded.exp && decoded.exp < Date.now() / 1000`, with the clock in
      milliseconds: an absent or zero `exp` never expires. */
  predicate Expired(c: Claims, nowMs: int) {
    c.exp.Some? && c.exp.value != 0 && c.exp.value * 1000 < nowMs
  }

  /** The user object built from valid claims. */
  function UserOf(c: Claims): User {
    User(c.id, c.name, c.sub, if c.roles.Some? then c.roles.value else [])
  }

  /** A token is valid when it decodes and has not expired. */
  predicate ValidToken(decode: string -> Option<Claims>, jwt: string, nowMs: int) {
    decode(jwt).Some? && !Expired(decode(jwt).value, nowMs)
  }

  /** The state of AuthProvider: `stored` is the `jwt_token` entry of local
      storage and `navigatedTo` the last navigation target. */
  class AuthStore {
    var token: Option<string>
    var user: Option<User>
    var stored: Option<string>
    var navigatedTo: Option<string>

    /** The token starts as whatever local storage holds; there is no user yet. */
    constructor (storedToken: Option<string>)
      ensures token == storedToken && stored == storedToken && user.None? && navigatedTo.None?
    {
      token, stored := storedToken, storedToken;
      user, navigatedTo := None, None;
    }

    /** `isAuthenticated: !!token` */
    predicate IsAuthenticated()
      reads this
    {
      Present(token)
    }

    /** logout: clear the token and go to the login page. The user and the
        stored token are cleared by the effect the token change triggers. */
    method Logout()
      modifies this`token, this`navigatedTo
      ensures token.None? && navigatedTo == Some("/login")
    {
      token := None;
      navigatedTo := Some("/login");
    }

    /** login: keep the new token and go back to the page the user came
        from (`location.state.from.pathname`), or to "/". */
    method Login(jwt: Option<string>, fromPath: Option<string>)
      modifies this`token, this`navigatedTo
      ensures token == jwt
      ensures Present(fromPath) ==> navigatedTo == fromPath
      ensures !Present(fromPath) ==> navigatedTo == Some("/")
    {
      token := jwt;
      navigatedTo := if Present(fromPath) then fromPath else Some("/");
    }

    /** One run of the effect on the current token. A token that fails to
        decode or has expired is logged out; a valid one sets the user and is
        written to storage; no token clears the user and the storage entry. */
    method TokenEffect(decode: string -> Option<Claims>, nowMs: int)
      modifies this
      ensures !Present(old(token)) ==>
        user.None? && stored.None? && token == old(token) && navigatedTo == old(navigatedTo)
      ensures Present(old(token)) && ValidToken(decode, old(token).value, nowMs) ==>
        && user == Some(UserOf(decode(old(token).value).value))
        && stored == old(token) && token == old(token) && navigatedTo == old(navigatedTo)
      ensures Present(old(token)) && !ValidToken(decode, old(token).value, nowMs) ==>
        && token.None? && navigatedTo == Some("/login")
        && user == old(user) && stored == old(stored)
    {
      if Present(token) {
        var decoded := decode(token.value);
        if decoded.None? {
          Logout();
          return;
        }
        if Expired(decoded.value, nowMs) {
          Logout();
          return;
        }
        user := Some(UserOf(decoded.value));
        stored := token;
      } else {
        user := None;
        stored := None;
      }
    }

    /** The effect run to quiescence: once, and once more when it logged
        out and so changed the token. Afterwards the session is signed in
        exactly when a user is set, and the storage entry matches. */
    method Settle(decode: string -> Option<Claims>, nowMs: int)
      modifies this
      ensures IsAuthenticated() <==> user.Some?
      ensures IsAuthenticated() ==> stored == token
      ensures !IsAuthenticated() ==> stored.None?
      ensures IsAuthenticated() <==> Present(old(token)) && ValidToken(decode, old(token).value, nowMs)
      ensures IsAuthenticated() ==> token == old(token) && user == Some(UserOf(decode(token.value).value))
      ensures Present(old(token)) && !ValidToken(decode, old(token).value, nowMs) ==> navigatedTo == Some("/login")
    {
      var before := token;
      TokenEffect(decode, nowMs);
      if token != before {
        TokenEffect(decode, nowMs);
      }
    }
  }
}
