/**
 Route protection at the edge (apps/web/src/middleware.ts:26-115): one decision per visit, and the chains
 of redirects it can set off. How the URL class rewrites a path that is assigned to it, how it writes a
 query, and which paths the matcher hands to the middleware are left open.
 */
module Redirects {
  import opened Options

  /** A URL as the middleware sees it; `next` is that query parameter, decoded. */
  datatype Page = Page(path: string, search: string, next: Option<string>)

  datatype Web = Web(
    norm: string -> string,            // a path, once assigned or parsed
    normSearch: string -> string,      // a query, once parsed
    encode: string -> string,          // a value, as a query holds it
    param: string -> Option<string>,   // `next` in a query, decoded
    handled: string -> bool)           // paths the matcher hands to the middleware

  const PROTECTED: seq<string> := ["/dashboard", "/settings", "/friends", "/chats", "/profile/me", "/wallet",
                                   "/notifications", "/onboarding"]
  const AUTH_ROUTES: seq<string> := ["/login", "/register"]
  const AUTHED_HOME := "/dashboard"

  predicate Under(path: string, prefixes: seq<string>) {
    exists i :: 0 <= i < |prefixes| && (path == prefixes[i] || prefixes[i] + "/" <= path)
  }

  predicate IsProtected(path: string) {
    Under(path, PROTECTED)
  }

  predicate IsAuthRoute(path: string) {
    Under(path, AUTH_ROUTES)
  }

  function SafeNext(next: string): (r: string)
    ensures "/" <= r && !("//" <= r)
    ensures r == next <==> next != "" && "/" <= next && !("//" <= next)
  {
    if next != "" && "/" <= next && !("//" <= next) then next else "/"
  }

  /** The redirect a visit is answered with; `None` when the page is served. */
  function Middleware(web: Web, authed: bool, p: Page): Option<Page> {
    if !authed && IsProtected(p.path) then
      var next := p.path + p.search;
      Some(Page(web.norm("/login"), "?next=" + web.encode(next), Some(next)))
    else if authed && IsAuthRoute(p.path) then
      var to := if p.next.Some? && p.next.value != "" then SafeNext(p.next.value) else AUTHED_HOME;
      Some(Page(web.norm(to), "", None))
    else if authed && p.path == "/" then
      Some(Page(web.norm(AUTHED_HOME), "", None))
    else
      None
  }

  function Hop(web: Web, authed: bool, p: Page): Option<Page> {
    if web.handled(p.path) then Middleware(web, authed, p) else None
  }

  function Follow(web: Web, authed: bool, p: Page, hops: nat): Page
    decreases hops
  {
    if hops == 0 then p else
    match Hop(web, authed, p)
    case None => p
    case Some(q) => Follow(web, authed, q, hops - 1)
  }

  /** All that is asked of the URL class: plain paths stay what they are. */
  predicate Sane(web: Web) {
    web.norm("/login") == "/login" && web.norm(AUTHED_HOME) == AUTHED_HOME
  }

  /** Protected paths and auth routes already differ in their second character. */
  lemma SecondCharacter(path: string)
    ensures IsProtected(path) ==> |path| >= 2 && path[0] == '/' && path[1] !in {'/', 'l', 'r'}
    ensures IsAuthRoute(path) ==> |path| >= 2 && path[1] in {'l', 'r'}
  {
    if IsProtected(path) {
      var i :| 0 <= i < |PROTECTED| && (path == PROTECTED[i] || PROTECTED[i] + "/" <= path);
      ProtectedTable(i);
      StartsLike(path, PROTECTED[i]);
    }
    if IsAuthRoute(path) {
      var i :| 0 <= i < |AUTH_ROUTES| && (path == AUTH_ROUTES[i] || AUTH_ROUTES[i] + "/" <= path);
      AuthTable(i);
      StartsLike(path, AUTH_ROUTES[i]);
    }
  }

  lemma ProtectedTable(i: nat)
    requires i < |PROTECTED|
    ensures |PROTECTED[i]| >= 2 && PROTECTED[i][0] == '/' && PROTECTED[i][1] !in {'/', 'l', 'r'}
  {
    assert i == 0 || i == 1 || i == 2 || i == 3 || i == 4 || i == 5 || i == 6 || i == 7;
  }

  lemma AuthTable(i: nat)
    requires i < |AUTH_ROUTES|
    ensures |AUTH_ROUTES[i]| >= 2 && AUTH_ROUTES[i][1] in {'l', 'r'}
  {
    assert i == 0 || i == 1;
  }

  lemma StartsLike(path: string, prefix: string)
    requires |prefix| >= 2 && (path == prefix || prefix + "/" <= path)
    ensures |path| >= 2 && path[0] == prefix[0] && path[1] == prefix[1]
  {
    assert (prefix + "/")[0] == prefix[0] && (prefix + "/")[1] == prefix[1];
  }

  lemma PlainPaths()
    ensures !IsProtected("/login") && IsAuthRoute("/login") && IsAuthRoute("/register")
    ensures IsProtected(AUTHED_HOME) && !IsAuthRoute(AUTHED_HOME) && AUTHED_HOME != "/"
  {
    assert AUTH_ROUTES[0] == "/login" && AUTH_ROUTES[1] == "/register" && PROTECTED[0] == AUTHED_HOME;
    SecondCharacter("/login");
    SecondCharacter(AUTHED_HOME);
  }

  /** A page the middleware means to let this visitor have. */
  predicate Fits(authed: bool, path: string) {
    if authed then !IsAuthRoute(path) && path != "/" else !IsProtected(path)
  }

  lemma ServedFits(web: Web, authed: bool, p: Page)
    ensures Middleware(web, authed, p) == None <==> Fits(authed, p.path)
  {
  }

  /**
   Every chain ends within two hops, whatever the path, the `next` and the normalisation; and the page it
   ends on fits the visitor if it is the middleware's to decide.
   */
  lemma ChainsEnd(web: Web, authed: bool, p: Page, hops: nat)
    requires Sane(web) && hops >= 2
    ensures var q := Follow(web, authed, p, hops);
            && q == Follow(web, authed, p, 2)
            && Hop(web, authed, q) == None
            && (web.handled(q.path) ==>
                  if authed then !IsForSigningIn(q.path) && q.path != "/" else !NeedsSession(q.path))
  {
    PlainPaths();
    PagesExactly(Follow(web, authed, p, 2).path);
    ServedFits(web, authed, Follow(web, authed, p, 2));
    match Hop(web, authed, p)
    case None =>
      assert Follow(web, authed, p, hops) == p && Follow(web, authed, p, 2) == p;
    case Some(q) =>
      assert Follow(web, authed, p, hops) == Follow(web, authed, q, hops - 1);
      assert Follow(web, authed, p, 2) == Follow(web, authed, q, 1);
      match Hop(web, authed, q)
      case None =>
      case Some(r) =>
        assert authed && r.path == AUTHED_HOME;
        assert Hop(web, authed, r) == None;
        assert Follow(web, authed, q, hops - 1) == Follow(web, authed, r, hops - 2) == r;
  }

  /** Two hops are needed: `next` may lead back to an auth page, once. */
  lemma TwoHopsHappen(web: Web)
    requires Sane(web) && web.handled("/login") && web.handled("/register") && web.norm("/register") == "/register"
    ensures var p := Page("/login", "?next=%2Fregister", Some("/register"));
            var q := Hop(web, true, p);
            q == Some(Page("/register", "", None)) && Hop(web, true, q.value) == Some(Page("/dashboard", "", None))
  {
    PlainPaths();
    assert "/register"[1] == 'r';
  }

  /** The page `root` or anything below it. */
  predicate At(path: string, root: string) {
    path == root || root + "/" <= path
  }

  predicate NeedsSession(path: string) {
    || At(path, "/dashboard") || At(path, "/settings") || At(path, "/friends") || At(path, "/chats")
    || At(path, "/profile/me") || At(path, "/wallet") || At(path, "/notifications") || At(path, "/onboarding")
  }

  predicate IsForSigningIn(path: string) {
    At(path, "/login") || At(path, "/register")
  }

  lemma PagesExactly(path: string)
    ensures IsProtected(path) <==> NeedsSession(path)
    ensures IsAuthRoute(path) <==> IsForSigningIn(path)
  {
    assert PROTECTED[0] == "/dashboard" && PROTECTED[1] == "/settings" && PROTECTED[2] == "/friends";
    assert PROTECTED[3] == "/chats" && PROTECTED[4] == "/profile/me" && PROTECTED[5] == "/wallet";
    assert PROTECTED[6] == "/notifications" && PROTECTED[7] == "/onboarding";
    assert AUTH_ROUTES[0] == "/login" && AUTH_ROUTES[1] == "/register";
  }

  /** A path on this site, and not the start of another site's address. */
  predicate StaysHere(to: string) {
    |to| > 0 && to[0] == '/' && !(|to| > 1 && to[1] == '/')
  }

  /**
   Who is sent where: a signed-out visitor of these eight pages or below them to log in, with the page to come
   back to; a signed-in one of the two for signing in to a `next` on this site, the landing page or home; and
   of the landing page, home. Nobody else is redirected.
   */
  lemma DecidesExactly(web: Web, authed: bool, p: Page)
    ensures var to := Middleware(web, authed, p);
            if !authed && NeedsSession(p.path) then
              to == Some(Page(web.norm("/login"), "?next=" + web.encode(p.path + p.search), Some(p.path + p.search)))
            else if authed && IsForSigningIn(p.path) then
              if p.next == None || p.next == Some("") then to == Some(Page(web.norm("/dashboard"), "", None))
              else
                to == Some(Page(web.norm(if StaysHere(p.next.value) then p.next.value else "/"), "", None))
            else if authed && p.path == "/" then to == Some(Page(web.norm("/dashboard"), "", None))
            else to == None
  {
    PagesExactly(p.path);
  }

  /** After logging in a visitor stays on this site: at the `next` asked for if it is a path on it, else at home. */
  lemma FormStaysHere(next: Option<string>)
    ensures var to := FormNext(next);
            && StaysHere(to)
            && to == if next.Some? && StaysHere(next.value) then next.value else "/dashboard"
  {
  }

  // ---------------------------------------------------------------------------------------------
  // There and back: a protected page, the login screen, the page again
  // ---------------------------------------------------------------------------------------------

  lemma ProtectedIsSafe(path: string)
    requires IsProtected(path)
    ensures SafeNext(path) == path && !IsAuthRoute(path) && path != "/"
  {
    SecondCharacter(path);
  }

  /** The login form's own filter, with a default of its own (apps/web/src/components/auth/login-form.tsx:31-35). */
  function FormNext(next: Option<string>): string {
    if next.Some? && next.value != "" && "/" <= next.value && !("//" <= next.value) then next.value else AUTHED_HOME
  }

  /** `s` up to the first `c`. */
  function Before(s: string, c: char): (r: string)
    ensures r <= s && c !in r && (|r| < |s| ==> s[|r|] == c)
  {
    if s == "" || s[0] == c then "" else [s[0]] + Before(s[1..], c)
  }

  /** `window.location.assign(s)` for an absolute path: path and query are told apart, then each normalised. */
  function Navigate(web: Web, s: string): Page {
    var whole := Before(s, '#');
    var path := Before(whole, '?');
    var search := web.normSearch(whole[|path|..]);
    Page(web.norm(path), search, web.param(search))
  }

  /** A page as a request names it. */
  predicate WellFormed(web: Web, p: Page) {
    && '?' !in p.path && '#' !in p.path && '#' !in p.search && p.next == web.param(p.search)
    && (p.search == "" || p.search[0] == '?')
  }

  lemma BeforeJoined(path: string, search: string)
    requires '?' !in path && '#' !in path && '#' !in search && (search == "" || search[0] == '?')
    ensures Before(path + search, '#') == path + search && Before(path + search, '?') == path
  {
    var s := path + search;
    assert forall c :: c in s <==> c in path || c in search;
    var front := Before(s, '?');
    assert |front| == |path|;
    assert front == s[..|path|] == path;
  }

  /**
   A visitor sent to log in, who does, is taken back to path and query of the page asked for, and is then
   served it, exactly if the URL class leaves that path and that query as they are.
   */
  lemma LoginReturnsExactly(web: Web, p: Page)
    requires Sane(web) && WellFormed(web, p) && NeedsSession(p.path) && web.handled(p.path)
    ensures var login := Hop(web, false, p);
            && login.Some? && login.value.path == "/login" && Hop(web, false, login.value) == None
            && var back := Navigate(web, FormNext(login.value.next));
            && (back == p <==> web.norm(p.path) == p.path && web.normSearch(p.search) == p.search)
            && (back == p ==> Hop(web, true, back) == None)
  {
    PagesExactly(p.path);
    PlainPaths();
    ProtectedIsSafe(p.path);
    SecondCharacter(p.path);
    var next := p.path + p.search;
    assert next[0] == p.path[0] && next[1] == p.path[1];
    BeforeJoined(p.path, p.search);
    assert next[|p.path|..] == p.search;
  }

  /**
   A visitor who has signed in meanwhile and opens that same login link is redirected by the middleware
   instead, which assigns all of `next` as a path: that comes back to the page exactly if it had no query
   and its path is left as it is.
   */
  lemma BounceReturnsExactly(web: Web, p: Page)
    requires Sane(web) && WellFormed(web, p) && NeedsSession(p.path) && web.handled(p.path) && web.handled("/login")
    ensures var login := Hop(web, false, p);
            && login.Some?
            && var bounced := Hop(web, true, login.value);
            && bounced.Some? && bounced.value.search == ""
            && (bounced.value == p <==> p.search == "" && p.next == None && web.norm(p.path) == p.path)
  {
    PagesExactly(p.path);
    PlainPaths();
    ProtectedIsSafe(p.path);
    SecondCharacter(p.path);
    var next := p.path + p.search;
    assert next[0] == p.path[0] && next[1] == p.path[1];
    assert p.search == "" ==> next == p.path;
  }
}
