/**
 * The client-side router's URL handling. `navigate` builds the URL it pushes
 * from a page and an optional id; `handleUrlRouting` reads the `page` and
 * `id` parameters back from `window.location.search` with `URLSearchParams`.
 * The query reader here is a model of `URLSearchParams` for the characters
 * the router's own URLs use: it strips one leading `?`, splits on `&`, drops
 * empty pieces and splits each piece at its first `=`. Percent-decoding and
 * `+` as space are not modelled.
 */
module Router {
  import opened Wrappers

  // ---------------------------------------------------------------- building URLs

  /** The URL `navigate(path, id)` pushes; an absent id is the empty string. */
  function NavigationUrl(path: string, id: string): string {
    if path == "home" then "/"
    else if path == "login" then "/admin"
    else "/?page=" + path + (if id != "" then "&id=" + id else "")
  }

  /** `window.location.search` once `url` is the location: from the first `?` on, or empty. */
  function SearchOf(url: string): (s: string)
    ensures |s| <= |url|
    ensures s != "" ==> s[0] == '?'
    ensures '?' !in url ==> s == ""
    decreases |url|
  {
    if url == "" then "" else if url[0] == '?' then url else SearchOf(url[1..])
  }

  // ---------------------------------------------------------------- reading queries

  /** `s` split at every `c`. */
  function Split(s: string, c: char): (parts: seq<string>)
    ensures |parts| >= 1
    decreases |s|
  {
    if s == [] then [""]
    else if s[0] == c then [""] + Split(s[1..], c)
    else
      var rest := Split(s[1..], c);
      [[s[0]] + rest[0]] + rest[1..]
  }

  /** A piece split at its first `=`; without one the whole piece is the name and the value is empty. */
  function BreakPair(piece: string): (p: (string, string))
    ensures '=' !in piece ==> p == (piece, "")
    decreases |piece|
  {
    if piece == [] then ("", "")
    else if piece[0] == '=' then ("", piece[1..])
    else
      var rest := BreakPair(piece[1..]);
      assert [piece[0]] + piece[1..] == piece;
      ([piece[0]] + rest.0, rest.1)
  }

  /** The name/value pairs of a list of `&`-pieces, skipping empty pieces. */
  function Pairs(pieces: seq<string>): seq<(string, string)>
    decreases |pieces|
  {
    if pieces == [] then []
    else (if pieces[0] == "" then [] else [BreakPair(pieces[0])]) + Pairs(pieces[1..])
  }

  /** `new URLSearchParams(search)` as its list of pairs. */
  function QueryPairs(search: string): seq<(string, string)> {
    var body := if search != "" && search[0] == '?' then search[1..] else search;
    Pairs(Split(body, '&'))
  }

  /** `searchParams.get(name)`: the value of the first pair with that name, or nothing. */
  function QueryGet(pairs: seq<(string, string)>, name: string): (r: Option<string>)
    ensures r.Some? <==> exists i :: 0 <= i < |pairs| && pairs[i].0 == name
    ensures r.Some? ==> exists i :: 0 <= i < |pairs| && pairs[i] == (name, r.value) && FirstNamed(pairs, name, i)
    decreases |pairs|
  {
    if pairs == [] then None
    else if pairs[0].0 == name then Some(pairs[0].1)
    else
      var r := QueryGet(pairs[1..], name);
      assert forall i :: 1 <= i < |pairs| ==> pairs[i] == pairs[1..][i - 1];
      if r.Some? then
        var i :| 0 <= i < |pairs[1..]| && pairs[1..][i] == (name, r.value) && FirstNamed(pairs[1..], name, i);
        assert pairs[i + 1] == (name, r.value) && FirstNamed(pairs, name, i + 1);
        r
      else r
  }

  /** No pair before index `i` has the name `name`. */
  predicate FirstNamed(pairs: seq<(string, string)>, name: string, i: int)
    requires 0 <= i <= |pairs|
  {
    forall j :: 0 <= j < i ==> pairs[j].0 != name
  }

  /** Where `handleUrlRouting` lands for a query: the page, and the id it would set. */
  datatype Route = Route(page: string, id: Option<string>)

  /**
   * `handleUrlRouting` on `search`, where `None` stands for reading the
   * location throwing. A missing or empty `page` lands on `home`; an id is
   * taken only together with a non-empty page, and only when non-empty.
   */
  function RouteOf(search: Option<string>): (r: Route)
    ensures r.page != ""
    ensures search.None? ==> r == Route("home", None)
    ensures search.Some? && QueryGet(QueryPairs(search.value), "page").GetOr("") == "" ==> r == Route("home", None)
    ensures r.id.Some? ==> search.Some? && r.id.value != "" && QueryGet(QueryPairs(search.value), "id") == r.id
    ensures search.Some? && QueryGet(QueryPairs(search.value), "page").GetOr("") != "" ==>
      r.page == QueryGet(QueryPairs(search.value), "page").value &&
      (QueryGet(QueryPairs(search.value), "id").GetOr("") != "" ==> r.id == QueryGet(QueryPairs(search.value), "id"))
  {
    if search.None? then Route("home", None)
    else
      var pairs := QueryPairs(search.value);
      var page := QueryGet(pairs, "page");
      var id := QueryGet(pairs, "id");
      if page.Some? && page.value != "" then
        Route(page.value, if id.Some? && id.value != "" then id else None)
      else Route("home", None)
  }

  // ---------------------------------------------------------------- round trips

  /** A string the router's URLs carry unchanged: no query delimiters, no escapes. */
  predicate PlainToken(s: string) {
    forall i :: 0 <= i < |s| ==> s[i] != '&' && s[i] != '=' && s[i] != '?' && s[i] != '#' && s[i] != '%' && s[i] != '+'
  }

  lemma {:induction false} SplitPlain(s: string, c: char)
    requires c !in s
    ensures Split(s, c) == [s]
    decreases |s|
  {
    if s != [] {
      SplitPlain(s[1..], c);
      assert [s[0]] + s[1..] == s;
    }
  }

  lemma {:induction false} SplitAt(a: string, b: string, c: char)
    requires c !in a
    ensures Split(a + [c] + b, c) == [a] + Split(b, c)
    decreases |a|
  {
    if a == [] {
      assert a + [c] + b == [c] + b;
      assert ([c] + b)[1..] == b;
    } else {
      assert (a + [c] + b)[1..] == a[1..] + [c] + b;
      SplitAt(a[1..], b, c);
      assert [a[0]] + a[1..] == a;
    }
  }

  lemma {:induction false} BreakPairAt(name: string, value: string)
    requires '=' !in name
    ensures BreakPair(name + "=" + value) == (name, value)
    decreases |name|
  {
    if name == [] {
      assert name + "=" + value == "=" + value;
      assert ("=" + value)[1..] == value;
    } else {
      assert (name + "=" + value)[1..] == name[1..] + "=" + value;
      BreakPairAt(name[1..], value);
      assert [name[0]] + name[1..] == name;
    }
  }

  /** A `name=value` piece holds no `&` when neither half does. */
  lemma PieceAmpFree(n: string, v: string)
    requires '&' !in n && '&' !in v
    ensures '&' !in n + "=" + v
  {
    var piece := n + "=" + v;
    forall i | 0 <= i < |piece| ensures piece[i] != '&' {
      if i < |n| { assert piece[i] == n[i]; } else if i > |n| { assert piece[i] == v[i - |n| - 1]; }
    }
  }

  /** A query string of one `name=value` pair. */
  lemma OnePair(n: string, v: string)
    requires '=' !in n && '&' !in n && '&' !in v && n != ""
    ensures Pairs(Split(n + "=" + v, '&')) == [(n, v)]
  {
    var piece := n + "=" + v;
    PieceAmpFree(n, v);
    SplitPlain(piece, '&');
    BreakPairAt(n, v);
    assert piece != "";
    assert [piece][1..] == [];
  }

  /** Pairs of a list of pieces whose head is a non-empty piece. */
  lemma PairsCons(p: string, rest: seq<string>)
    requires p != ""
    ensures Pairs([p] + rest) == [BreakPair(p)] + Pairs(rest)
  {
    assert ([p] + rest)[1..] == rest;
  }

  /** A query string of two pairs joined by `&`. */
  lemma TwoPairs(n1: string, v1: string, n2: string, v2: string)
    requires '=' !in n1 && '&' !in n1 && '&' !in v1 && n1 != ""
    requires '=' !in n2 && '&' !in n2 && '&' !in v2 && n2 != ""
    ensures Pairs(Split(n1 + "=" + v1 + "&" + n2 + "=" + v2, '&')) == [(n1, v1), (n2, v2)]
  {
    var a := n1 + "=" + v1;
    var b := n2 + "=" + v2;
    PieceAmpFree(n1, v1);
    assert n1 + "=" + v1 + "&" + n2 + "=" + v2 == a + ['&'] + b;
    SplitAt(a, b, '&');
    assert |a| > 0;
    PairsCons(a, Split(b, '&'));
    OnePair(n2, v2);
    BreakPairAt(n1, v1);
  }

  /** The search part of `/` followed by a query. */
  lemma SearchAfterSlash(q: string)
    requires q != "" && q[0] == '?'
    ensures SearchOf("/" + q) == q
  {
    assert ("/" + q)[1..] == q;
  }

  /** Routing a query whose pairs are `page` then `id`, both non-empty. */
  lemma RouteOfPageAndId(search: string, page: string, id: string)
    requires QueryPairs(search) == [("page", page), ("id", id)] && page != "" && id != ""
    ensures RouteOf(Some(search)) == Route(page, Some(id))
  {
    var pairs := [("page", page), ("id", id)];
    assert QueryGet(pairs, "page") == Some(page);
    assert pairs[1..] == [("id", id)];
    assert QueryGet(pairs, "id") == Some(id);
  }

  /** The leading `?` of a search string is not part of its first name. */
  lemma StripQuestion(body: string)
    ensures QueryPairs("?" + body) == Pairs(Split(body, '&'))
  {
    assert ("?" + body)[1..] == body;
  }

  /** A plain token holds no `&`. */
  lemma PlainNoAmp(s: string)
    requires PlainToken(s)
    ensures '&' !in s
  {
  }

  /** The URL `navigate` builds for a page and an id, regrouped as `/` then the search string. */
  lemma PageIdUrlShape(path: string, id: string)
    ensures "/?page=" + path + "&id=" + id == "/" + ("?" + ("page" + "=" + path + "&" + "id" + "=" + id))
  {
  }

  /** A URL `/?page=<path>&id=<id>` routes to `path` with `id`. */
  lemma PageIdUrlRoutes(path: string, id: string)
    requires path != "" && id != "" && PlainToken(path) && PlainToken(id)
    ensures RouteOf(Some(SearchOf("/?page=" + path + "&id=" + id))) == Route(path, Some(id))
  {
    var body := "page" + "=" + path + "&" + "id" + "=" + id;
    var q := "?" + body;
    PageIdUrlShape(path, id);
    SearchAfterSlash(q);
    StripQuestion(body);
    PlainNoAmp(path);
    PlainNoAmp(id);
    TwoPairs("page", path, "id", id);
    RouteOfPageAndId(q, path, id);
  }

  /**
   * Every URL `navigate` pushes for a page other than `home` and `login`
   * routes back to that page and id, for pages and ids made of plain characters.
   */
  lemma NavigationRoundTrip(path: string, id: string)
    requires path != "home" && path != "login" && path != ""
    requires PlainToken(path) && PlainToken(id)
    ensures RouteOf(Some(SearchOf(NavigationUrl(path, id)))) == Route(path, if id != "" then Some(id) else None)
  {
    if id != "" {
      assert NavigationUrl(path, id) == "/?page=" + path + "&id=" + id;
      PageIdUrlRoutes(path, id);
    } else {
      assert NavigationUrl(path, id) == "/?page=" + path;
      PageUrlRoutes(path);
    }
  }

  /** The URL the admin guard and `handleLogout` push. */
  const LoginPageUrl: string := "/?page=login"
  /** The URL `handleLoginSuccess` pushes. */
  const DashboardUrl: string := "/?page=admin-dashboard"

  lemma EmptyQuery()
    ensures QueryPairs("") == []
  {
    assert Split("", '&') == [""];
    assert [""][1..] == [];
  }

  /**
   * `navigate('home')` pushes `/` and `navigate('login')` pushes `/admin`:
   * neither URL has a query, so routing either (on reload, or on a later
   * `popstate`) lands on `home` -- for `login`, not on the login page.
   */
  lemma HomeAndLoginUrlsRouteHome(path: string, id: string)
    requires path == "home" || path == "login"
    ensures RouteOf(Some(SearchOf(NavigationUrl(path, id)))) == Route("home", None)
  {
    assert '?' !in "/" && '?' !in "/admin";
    EmptyQuery();
  }

  /** A URL `/?page=<path>` routes to `path`, whatever the page. */
  lemma PageUrlRoutes(path: string)
    requires path != "" && PlainToken(path)
    ensures RouteOf(Some(SearchOf("/?page=" + path))) == Route(path, None)
  {
    var url := "/?page=" + path;
    assert url == "/" + ("?" + ("page" + "=" + path));
    assert SearchOf(url) == "?" + ("page" + "=" + path) by {
      assert url[1..] == "?" + ("page" + "=" + path);
    }
    assert ("?" + ("page" + "=" + path))[1..] == "page" + "=" + path;
    assert '&' !in path;
    OnePair("page", path);
    var pairs := [("page", path)];
    assert QueryPairs("?" + ("page" + "=" + path)) == pairs;
    assert pairs[1..] == [];
    assert QueryGet(pairs, "id") == None;
  }

  /** The URL the admin guard and `handleLogout` push does route back to `login`. */
  lemma LoginPageUrlRoutesLogin()
    ensures RouteOf(Some(SearchOf(LoginPageUrl))) == Route("login", None)
  {
    assert LoginPageUrl == "/?page=" + "login";
    PageUrlRoutes("login");
  }

  /** The URL `handleLoginSuccess` pushes routes back to the dashboard. */
  lemma DashboardUrlRoutesDashboard()
    ensures RouteOf(Some(SearchOf(DashboardUrl))) == Route("admin-dashboard", None)
  {
    assert DashboardUrl == "/?page=" + "admin-dashboard";
    PageUrlRoutes("admin-dashboard");
  }
}
