/** The edge middleware that guards the admin and user areas by the JWT's role. */
module Middleware {
  import opened Strings
  import opened Common
  import opened NextAuth

  /** `NextResponse.next()` or a redirect to another path of the same origin. */
  datatype Decision = Next | RedirectTo(path: string)

  /** `config.matcher`: `/admin/:path*` and `/user/:path*`, the section itself or anything under it. */
  predicate Matches(pathname: string) {
    pathname == "/admin" || StartsWith(pathname, "/admin/")
    || pathname == "/user" || StartsWith(pathname, "/user/")
  }

  /** The static-asset prefixes that are always let through. */
  predicate IsAsset(pathname: string) {
    StartsWith(pathname, "/_next") || StartsWith(pathname, "/favicon") || StartsWith(pathname, "/images")
  }

  /** The public test as written: some entry of `["/", "/login", "/api/auth"]` is a prefix. */
  predicate IsPublic(pathname: string) {
    StartsWith(pathname, "/") || StartsWith(pathname, "/login") || StartsWith(pathname, "/api/auth")
  }

  /** The public test as intended: the home page itself, and the login and auth routes. */
  predicate IsPublicIntended(pathname: string) {
    pathname == "/" || StartsWith(pathname, "/login") || StartsWith(pathname, "/api/auth")
  }

  /** The body of `middleware` after the public test: no token goes home, a non-admin in the admin
      area goes to the login page, a non-user in the user area goes home, the rest passes. */
  function Guard(pathname: string, token: Option<JwtToken>): Decision {
    if token.None? then RedirectTo("/")
    else if StartsWith(pathname, "/admin") && token.value.role != Some("admin") then RedirectTo("/login")
    else if StartsWith(pathname, "/user") && token.value.role != Some("user") then RedirectTo("/")
    else Next
  }

  /** The middleware as written, on a request the matcher sends it. */
  function Decide(pathname: string, token: Option<JwtToken>): Decision {
    if IsPublic(pathname) || IsAsset(pathname) then Next else Guard(pathname, token)
  }

  /** The middleware with the intended public test. */
  function DecideIntended(pathname: string, token: Option<JwtToken>): Decision {
    if IsPublicIntended(pathname) || IsAsset(pathname) then Next else Guard(pathname, token)
  }

  /** Whole request pipeline: paths outside the matcher never reach the middleware. */
  function Route(pathname: string, token: Option<JwtToken>): Decision {
    if Matches(pathname) then Decide(pathname, token) else Next
  }

  function RouteIntended(pathname: string, token: Option<JwtToken>): Decision {
    if Matches(pathname) then DecideIntended(pathname, token) else Next
  }

  /** As written, "/" is a prefix of every path, so every request is let through: the admin
      dashboard opens without a token. */
  lemma RouteAlwaysNext(pathname: string, token: Option<JwtToken>)
    requires |pathname| > 0 && pathname[0] == '/'
    ensures Route(pathname, token) == Next
  {
    assert pathname[..1] == "/";
  }

  lemma AdminOpenWithoutToken()
    ensures Route("/admin/dashboard", None) == Next
  {
    RouteAlwaysNext("/admin/dashboard", None);
  }

  /** No path the matcher sends is public or an asset under the intended test. */
  lemma MatchedNeverPublic(pathname: string)
    requires Matches(pathname)
    ensures !IsPublicIntended(pathname) && !IsAsset(pathname)
  {
    assert |pathname| >= 5 && pathname[0] == '/';
    assert pathname[1] == 'a' || pathname[1] == 'u';
    NotStartsWithAt(pathname, "/login", 1);
    NotStartsWithAt(pathname, "/api/auth", if pathname[1] == 'a' then 2 else 1);
    NotStartsWithAt(pathname, "/_next", 1);
    NotStartsWithAt(pathname, "/favicon", 1);
    NotStartsWithAt(pathname, "/images", 1);
  }

  /** With the intended test, the admin area opens exactly for an admin token, a missing token goes
      home and any other token goes to the login page. */
  lemma AdminAreaGuarded(pathname: string, token: Option<JwtToken>)
    requires pathname == "/admin" || StartsWith(pathname, "/admin/")
    ensures RouteIntended(pathname, token) == Next <==> token.Some? && token.value.role == Some("admin")
    ensures token.None? ==> RouteIntended(pathname, token) == RedirectTo("/")
    ensures token.Some? && token.value.role != Some("admin") ==> RouteIntended(pathname, token) == RedirectTo("/login")
  {
    MatchedNeverPublic(pathname);
    assert StartsWith(pathname, "/admin") by {
      if pathname != "/admin" { assert pathname[..6] == pathname[..7][..6]; }
    }
    NotStartsWithAt(pathname, "/user", 1);
  }

  /** ... and the user area exactly for a "user" token (an admin is sent home). */
  lemma UserAreaGuarded(pathname: string, token: Option<JwtToken>)
    requires pathname == "/user" || StartsWith(pathname, "/user/")
    ensures RouteIntended(pathname, token) == Next <==> token.Some? && token.value.role == Some("user")
    ensures token.Some? && token.value.role != Some("user") ==> RouteIntended(pathname, token) == RedirectTo("/")
  {
    MatchedNeverPublic(pathname);
    assert StartsWith(pathname, "/user") by {
      if pathname != "/user" { assert pathname[..5] == pathname[..6][..5]; }
    }
    NotStartsWithAt(pathname, "/admin", 1);
  }

  /** Outside the two areas both versions let every request through. */
  lemma UnmatchedPass(pathname: string, token: Option<JwtToken>)
    requires !Matches(pathname)
    ensures Route(pathname, token) == Next && RouteIntended(pathname, token) == Next
  {
  }
}
