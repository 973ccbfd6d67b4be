/**
 * The request description for the review endpoint: HTTP method, path,
 * query parameters and header kind for each route.
 *
 * The shared router protocol and its enumerations are declared elsewhere
 * in the application; they are given here with the cases this model needs
 * to state that the review route always picks one of them.
 */
module ReviewRouting {
  import opened Wrappers

  datatype HTTPMethod = Get | Post | Put | Patch | Delete

  /** Query parameters (values are the strings this route sends) or no parameters. */
  datatype RequestParams = Query(query: map<string, string>) | RequestPlain

  /** Whether the request carries the access token. */
  datatype HeaderType = Default | WithToken

  datatype ReviewRouter = GetReviewList(restaurantId: string)

  const PathPrefix: string := "review/restaurant/"
  const PathSuffix: string := "/"
  const RestaurantIdKey: string := "restaurantId"

  /** Every route is a GET. */
  function Method(route: ReviewRouter): (m: HTTPMethod)
    ensures m == Get
  {
    match route
    case _ => Get
  }

  /** The path embeds the restaurant id between the fixed prefix and a trailing slash. */
  function Path(route: ReviewRouter): (p: string)
    ensures |p| == |PathPrefix| + |route.restaurantId| + |PathSuffix|
    ensures p[..|PathPrefix|] == PathPrefix
    ensures p[|PathPrefix|..|p| - |PathSuffix|] == route.restaurantId
    ensures p[|p| - |PathSuffix|..] == PathSuffix
  {
    match route
    case GetReviewList(restaurantId) => PathPrefix + restaurantId + PathSuffix
  }

  /** Reads the restaurant id back out of a path, if the path has the route's shape. */
  function RestaurantIdOf(p: string): (id: Option<string>)
    ensures id.Some? ==> |id.value| == |p| - |PathPrefix| - |PathSuffix|
  {
    if |p| >= |PathPrefix| + |PathSuffix|
       && p[..|PathPrefix|] == PathPrefix
       && p[|p| - |PathSuffix|..] == PathSuffix
    then Some(p[|PathPrefix|..|p| - |PathSuffix|])
    else None
  }

  /** Reading the id back from a route's path gives the route's id. */
  lemma PathRoundTrip(route: ReviewRouter)
    ensures RestaurantIdOf(Path(route)) == Some(route.restaurantId)
  {
  }

  /** Every path of the route's shape is the path of exactly the id read from it. */
  lemma PathFromRestaurantId(p: string)
    requires RestaurantIdOf(p).Some?
    ensures Path(GetReviewList(RestaurantIdOf(p).value)) == p
  {
    var id := RestaurantIdOf(p).value;
    var q := Path(GetReviewList(id));
    assert |q| == |p|;
    forall i | 0 <= i < |p| ensures q[i] == p[i] {
      if i < |PathPrefix| {
        assert q[i] == q[..|PathPrefix|][i] && p[i] == p[..|PathPrefix|][i];
      } else if i < |p| - |PathSuffix| {
        assert q[i] == q[|PathPrefix|..|q| - |PathSuffix|][i - |PathPrefix|];
      } else {
        assert q[i] == q[|q| - |PathSuffix|..][i - (|q| - |PathSuffix|)];
        assert p[i] == p[|p| - |PathSuffix|..][i - (|p| - |PathSuffix|)];
      }
    }
  }

  /** Distinct restaurant ids give distinct paths. */
  lemma PathInjective(a: ReviewRouter, b: ReviewRouter)
    requires Path(a) == Path(b)
    ensures a == b
  {
    PathRoundTrip(a);
    PathRoundTrip(b);
  }

  /** A single query parameter, `restaurantId`, bound to the route's id. */
  function Parameters(route: ReviewRouter): (params: RequestParams)
    ensures params.Query?
    ensures params.query.Keys == {RestaurantIdKey}
    ensures params.query[RestaurantIdKey] == route.restaurantId
  {
    match route
    case GetReviewList(restaurantId) => Query(map[RestaurantIdKey := restaurantId])
  }

  /** The query parameter names the same restaurant as the path. */
  lemma ParametersAgreeWithPath(route: ReviewRouter)
    ensures RestaurantIdOf(Path(route)) == Some(Parameters(route).query[RestaurantIdKey])
  {
    PathRoundTrip(route);
  }

  /** Every route sends the access token. */
  function Header(route: ReviewRouter): (h: HeaderType)
    ensures h == WithToken
  {
    match route
    case _ => WithToken
  }
}
