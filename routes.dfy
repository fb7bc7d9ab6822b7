/** The client's routes (`AppRoute`): the path pattern each is matched
    against, the text its `Display` writes, and the breadcrumb of each page.
    The site name shown first in every breadcrumb is a parameter. */
module Routes {
  import opened Wrappers

  datatype AppRoute =
    | Index
    | WsExperiment
    | ListGames
    | CreateGame
    | JoinGame(gameId: string, username: string)
    | PlayGame(gameId: string, playerId: string)

  /** The path of the route's `#[to]` pattern with its fields filled in. */
  function PatternPath(route: AppRoute): string {
    match route
    case Index => "/"
    case WsExperiment => "/ws_experiment"
    case ListGames => "/game/list"
    case CreateGame => "/game/create"
    case JoinGame(g, u) => "/game/join/" + g + "?as=" + u
    case PlayGame(g, p) => "/game/play/" + g + "?as=" + p
  }

  /** The route's `#[display]` text: an absolute path. */
  function Display(route: AppRoute): (r: string)
    ensures |r| >= 1 && r[0] == '/'
  {
    match route
    case Index => "/"
    case WsExperiment => "/ws_experiment"
    case ListGames => "/game/list"
    case CreateGame => "/game/create"
    case JoinGame(g, u) => "/game/" + g + "?as=" + u
    case PlayGame(g, p) => "/game/play/" + g + "?as=" + p
  }

  /** Every route but `JoinGame` displays as the path it is matched against;
      `JoinGame` displays without the `join/` segment, five characters short. */
  lemma DisplayMatchesPattern(route: AppRoute)
    ensures Display(route) == PatternPath(route) <==> !route.JoinGame?
    ensures route.JoinGame? ==> |Display(route)| + 5 == |PatternPath(route)|
  {
    if route.JoinGame? {
      assert |Display(route)| + 5 == |PatternPath(route)|;
    }
  }

  /** The game id of a route that carries one holds neither `/` nor `?`. */
  predicate PlainGameId(route: AppRoute) {
    (route.JoinGame? || route.PlayGame?) ==> '/' !in route.gameId && '?' !in route.gameId
  }

  /** After `/game/`, a joining route's text runs through its game id to the
      first `?`. */
  lemma JoinDisplayShape(g: string, u: string)
    requires '/' !in g && '?' !in g
    ensures var d := Display(JoinGame(g, u));
      |d| == 10 + |g| + |u| && d[..6] == "/game/" && d[6..6 + |g|] == g && d[6 + |g|] == '?'
      && d[6 + |g| + 4..] == u
      && forall k | 6 <= k < 6 + |g| :: d[k] != '/' && d[k] != '?'
  {
    var d := Display(JoinGame(g, u));
    assert forall k | 6 <= k < 6 + |g| :: d[k] == g[k - 6];
  }

  /** The same after `/game/play/` for a playing route. */
  lemma PlayDisplayShape(g: string, p: string)
    requires '/' !in g && '?' !in g
    ensures var d := Display(PlayGame(g, p));
      |d| == 15 + |g| + |p| && d[..11] == "/game/play/" && d[11..11 + |g|] == g && d[11 + |g|] == '?'
      && d[11 + |g| + 4..] == p
      && forall k | 11 <= k < 11 + |g| :: d[k] != '/' && d[k] != '?'
  {
    var d := Display(PlayGame(g, p));
    assert forall k | 11 <= k < 11 + |g| :: d[k] == g[k - 11];
  }

  /** Different routes display differently, as long as their game ids hold
      neither `/` nor `?`: the text names the page and its fields. */
  lemma DisplayDistinguishesRoutes(r1: AppRoute, r2: AppRoute)
    requires PlainGameId(r1) && PlainGameId(r2)
    requires r1 != r2
    ensures Display(r1) != Display(r2)
  {
    if r1.JoinGame? && r2.JoinGame? {
      JoinDisplayShape(r1.gameId, r1.username);
      JoinDisplayShape(r2.gameId, r2.username);
      SameShapeDiffers(Display(r1), Display(r2), 6, r1.gameId, r2.gameId, r1.username, r2.username);
    } else if r1.PlayGame? && r2.PlayGame? {
      PlayDisplayShape(r1.gameId, r1.playerId);
      PlayDisplayShape(r2.gameId, r2.playerId);
      SameShapeDiffers(Display(r1), Display(r2), 11, r1.gameId, r2.gameId, r1.playerId, r2.playerId);
    } else if r1.JoinGame? && r2.PlayGame? {
      JoinAgainstPlay(r1, r2);
    } else if r1.PlayGame? && r2.JoinGame? {
      JoinAgainstPlay(r2, r1);
    } else if r1.JoinGame? || r1.PlayGame? {
      RouteAgainstFixed(r1, r2);
    } else if r2.JoinGame? || r2.PlayGame? {
      RouteAgainstFixed(r2, r1);
    }
  }

  /** Two texts of the same shape, a prefix of length `p`, an id free of `?`,
      `?as=` and a tail, are equal only when the ids and the tails are. */
  lemma SameShapeDiffers(d1: string, d2: string, p: nat, g1: string, g2: string, u1: string, u2: string)
    requires |d1| == p + |g1| + 4 + |u1| && |d2| == p + |g2| + 4 + |u2|
    requires d1[p..p + |g1|] == g1 && d1[p + |g1|] == '?' && d1[p + |g1| + 4..] == u1
    requires d2[p..p + |g2|] == g2 && d2[p + |g2|] == '?' && d2[p + |g2| + 4..] == u2
    requires forall k | p <= k < p + |g1| :: d1[k] != '?'
    requires forall k | p <= k < p + |g2| :: d2[k] != '?'
    requires g1 != g2 || u1 != u2
    ensures d1 != d2
  {
    var n1, n2 := p + |g1|, p + |g2|;
    if n1 < n2 {
      assert d1[n1] != d2[n1];
    } else if n2 < n1 {
      assert d1[n2] != d2[n2];
    } else if g1 != g2 {
      assert d1[p..n1] != d2[p..n1];
    } else {
      assert d1[n1 + 4..] != d2[n1 + 4..];
    }
  }

  /** A joining route's text is never a playing route's: at index 10 the
      playing route has its `/`, where the joining route still writes its
      game id or has already reached its `?`. */
  lemma JoinAgainstPlay(join: AppRoute, play: AppRoute)
    requires join.JoinGame? && play.PlayGame? && PlainGameId(join) && PlainGameId(play)
    ensures Display(join) != Display(play)
  {
    JoinDisplayShape(join.gameId, join.username);
    PlayDisplayShape(play.gameId, play.playerId);
    var d1, d2 := Display(join), Display(play);
    var n := 6 + |join.gameId|;
    if n <= 10 {
      assert d2[n] == d2[..11][n];
      assert d1[n] != d2[n];
    } else {
      assert d2[10] == d2[..11][10];
      assert d1[10] != d2[10];
    }
  }

  /** A route with a game id writes a `?`, which no fixed route does. */
  lemma RouteAgainstFixed(r1: AppRoute, r2: AppRoute)
    requires (r1.JoinGame? || r1.PlayGame?) && PlainGameId(r1)
    requires !r2.JoinGame? && !r2.PlayGame?
    ensures Display(r1) != Display(r2)
  {
    var q;
    if r1.JoinGame? {
      JoinDisplayShape(r1.gameId, r1.username);
      q := 6 + |r1.gameId|;
    } else {
      PlayDisplayShape(r1.gameId, r1.playerId);
      q := 11 + |r1.gameId|;
    }
    var c := Display(r2);
    assert forall k | 0 <= k < |c| :: c[k] != '?';
    if q < |c| {
      assert Display(r1)[q] != c[q];
    } else {
      assert |Display(r1)| > q >= |c|;
    }
  }

  // ---------------------------------------------------------------------------
  // Breadcrumbs
  // ---------------------------------------------------------------------------

  type Crumb = (string, Option<AppRoute>)

  /** `breadcrumb_components`: the pages from the section down to this one;
      only the section is a link. */
  function BreadcrumbComponents(route: AppRoute): (r: seq<Crumb>)
    ensures |r| >= 1 && r[|r| - 1].1.None?
    ensures |r| == 1 <==> route.Index? || route.WsExperiment?
    ensures |r| == 2 ==> r[0] == ("Games", Some(ListGames))
  {
    match route
    case Index => [("Index", None)]
    case WsExperiment => [("WebSocket experiment", None)]
    case ListGames => [("Games", Some(ListGames)), ("List games", None)]
    case CreateGame => [("Games", Some(ListGames)), ("Create game", None)]
    case JoinGame(_, _) => [("Games", Some(ListGames)), ("Joining game", None)]
    case PlayGame(_, _) => [("Games", Some(ListGames)), ("Play game", None)]
  }

  /** One `<li>` of the rendered breadcrumb: its text, its link, its class. */
  datatype Item = Item(name: string, route: Option<AppRoute>, cssClass: string)

  /** `render_breadcrumb`: nothing for no crumbs; otherwise the site name
      linking to the index, every crumb but the last as given, and the last
      crumb marked active. */
  function RenderBreadcrumb(crumbs: seq<Crumb>, siteName: string): (r: seq<Item>)
    ensures crumbs == [] <==> r == []
    ensures crumbs != [] ==>
      |r| == |crumbs| + 1
      && r[0] == Item(siteName, Some(Index), "")
      && (forall i | 0 <= i < |crumbs| - 1 :: r[i + 1] == Item(crumbs[i].0, crumbs[i].1, ""))
      && r[|r| - 1] == Item(crumbs[|crumbs| - 1].0, crumbs[|crumbs| - 1].1, "is-active")
  {
    if crumbs == [] then []
    else
      var rest := crumbs[..|crumbs| - 1];
      var last := crumbs[|crumbs| - 1];
      [Item(siteName, Some(Index), "")]
      + seq(|rest|, i requires 0 <= i < |rest| => Item(rest[i].0, rest[i].1, ""))
      + [Item(last.0, last.1, "is-active")]
  }

  /** On every page exactly one item is active, the page itself, and it is
      not a link; the first item always leads to the index. */
  lemma BreadcrumbOfRoute(route: AppRoute, siteName: string)
    ensures var items := RenderBreadcrumb(BreadcrumbComponents(route), siteName);
      |items| >= 2
      && items[0].route == Some(Index)
      && items[|items| - 1].cssClass == "is-active" && items[|items| - 1].route.None?
      && (forall i | 0 <= i < |items| - 1 :: items[i].cssClass == "")
  {
    var crumbs := BreadcrumbComponents(route);
    var items := RenderBreadcrumb(crumbs, siteName);
    forall i | 0 <= i < |items| - 1 ensures items[i].cssClass == "" {
      if i > 0 {
        assert items[i] == Item(crumbs[i - 1].0, crumbs[i - 1].1, "");
      }
    }
  }
}
