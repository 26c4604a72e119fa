/** The HTTP client the pages talk to (client/services/api/axiosApiService.ts):
    one request description per backend operation, the transport's error
    shapes, and the two interceptors that attach bearer tokens and refresh
    them. The transport itself and the identity provider are outside the
    model: a call's outcome and the outcome of a silent sign-in are given
    as parameters. */
module ApiClient {
  import opened Domain
  import opened Seqs
  import opened Decimal

  // ---------------------------------------------------------------------
  // Endpoint paths

  datatype Route =
    | RestaurantsRoute
    | RestaurantRoute(restaurantId: string)
    | ReviewsRoute(restaurantId: string)
    | ReviewRoute(restaurantId: string, reviewId: string)
    | PhotosRoute

  const RestaurantsPath := "/restaurants"
  const RestaurantPrefix := "/restaurants/"
  const ReviewsSuffix := "/reviews"
  const ReviewPrefix := "/reviews/"
  const PhotosPath := "/photos"

  function Path(r: Route): string {
    match r
    case RestaurantsRoute => RestaurantsPath
    case RestaurantRoute(id) => RestaurantPrefix + id
    case ReviewsRoute(id) => RestaurantPrefix + id + ReviewsSuffix
    case ReviewRoute(id, reviewId) => RestaurantPrefix + id + ReviewPrefix + reviewId
    case PhotosRoute => PhotosPath
  }

  /** Identifiers that can be placed in a path segment unambiguously. */
  predicate SlashFree(r: Route) {
    match r
    case RestaurantRoute(id) => '/' !in id
    case ReviewsRoute(id) => '/' !in id
    case ReviewRoute(id, reviewId) => '/' !in id && '/' !in reviewId
    case _ => true
  }

  /** The segment up to the first slash, and the rest from that slash on. */
  function SplitAtSlash(s: string): (r: (string, string))
    ensures r.0 + r.1 == s
    ensures '/' !in r.0
    ensures r.1 == [] || r.1[0] == '/'
  {
    if s == [] then ([], [])
    else if s[0] == '/' then ([], s)
    else
      var t := SplitAtSlash(s[1..]);
      assert s == [s[0]] + s[1..];
      ([s[0]] + t.0, t.1)
  }

  lemma {:induction false} SplitAtSlashOf(a: string, b: string)
    requires '/' !in a
    requires b == [] || b[0] == '/'
    ensures SplitAtSlash(a + b) == (a, b)
  {
    if a == [] {
      assert a + b == b;
    } else {
      assert (a + b)[1..] == a[1..] + b;
      SplitAtSlashOf(a[1..], b);
      assert [a[0]] + a[1..] == a;
    }
  }

  /** How a router reads a path back into its route: the reference the
      path builders are checked against. */
  function ParseRoute(p: string): Option<Route> {
    if p == RestaurantsPath then Some(RestaurantsRoute)
    else if p == PhotosPath then Some(PhotosRoute)
    else if StartsWith(p, RestaurantPrefix) then
      var split := SplitAtSlash(p[|RestaurantPrefix|..]);
      ParseUnderRestaurant(split.0, split.1)
    else None
  }

  /** The route below "/restaurants/<id>", given the rest of the path. */
  function ParseUnderRestaurant(id: string, tail: string): Option<Route> {
    if tail == [] then Some(RestaurantRoute(id))
    else if tail == ReviewsSuffix then Some(ReviewsRoute(id))
    else if StartsWith(tail, ReviewPrefix) && '/' !in tail[|ReviewPrefix|..] then
      Some(ReviewRoute(id, tail[|ReviewPrefix|..]))
    else None
  }

  /** Every route's path reads back as that route. */
  lemma ParsePathOfRoute(r: Route)
    requires SlashFree(r)
    ensures ParseRoute(Path(r)) == Some(r)
  {
    var p := Path(r);
    match r
    case RestaurantsRoute =>
    case PhotosRoute =>
    case RestaurantRoute(id) =>
      assert p[1] == 'r' && |p| != |RestaurantsPath|;
      assert p[|RestaurantPrefix|..] == id + [];
      SplitAtSlashOf(id, []);
    case ReviewsRoute(id) =>
      assert p[1] == 'r' && |p| != |RestaurantsPath|;
      assert p[|RestaurantPrefix|..] == id + ReviewsSuffix;
      SplitAtSlashOf(id, ReviewsSuffix);
    case ReviewRoute(id, reviewId) =>
      assert p[1] == 'r' && |p| != |RestaurantsPath|;
      var tail := ReviewPrefix + reviewId;
      assert p[|RestaurantPrefix|..] == id + tail;
      SplitAtSlashOf(id, tail);
      assert |tail| > |ReviewsSuffix|;
      assert tail[|ReviewPrefix|..] == reviewId;
  }

  /** Conversely, whatever parses came from the path of a slash-free route. */
  lemma PathOfParsedRoute(p: string, r: Route)
    requires ParseRoute(p) == Some(r)
    ensures SlashFree(r) && Path(r) == p
  {
    if p != RestaurantsPath && p != PhotosPath {
      assert StartsWith(p, RestaurantPrefix);
      var rest := p[|RestaurantPrefix|..];
      assert p == RestaurantPrefix + rest;
      var split := SplitAtSlash(rest);
      PathOfParsedTail(split.0, split.1, r);
    }
  }

  /** The part of PathOfParsedRoute after the "/restaurants/" prefix. */
  lemma PathOfParsedTail(id: string, tail: string, r: Route)
    requires '/' !in id
    requires ParseUnderRestaurant(id, tail) == Some(r)
    ensures SlashFree(r) && Path(r) == RestaurantPrefix + (id + tail)
  {
    if tail != [] && tail != ReviewsSuffix {
      var reviewId := tail[|ReviewPrefix|..];
      assert tail == ReviewPrefix + reviewId;
    }
  }

  // ---------------------------------------------------------------------
  // Operations and the requests they send

  datatype ReviewSort = DatePostedDesc | DatePostedAsc | RatingDesc | RatingAsc

  /** The `sort` query value: the field, a comma, and the direction. */
  function SortParam(s: ReviewSort): (v: string)
    ensures StartsWith(v, if s.DatePostedDesc? || s.DatePostedAsc? then "datePosted," else "rating,")
    ensures (s.DatePostedDesc? || s.RatingDesc?) <==> v[|v| - 4..] == "desc"
    ensures v[|if s.DatePostedDesc? || s.DatePostedAsc? then "datePosted," else "rating,"|..] ==
      (if s.DatePostedDesc? || s.RatingDesc? then "desc" else "asc")
  {
    match s
    case DatePostedDesc => "datePosted,desc"
    case DatePostedAsc => "datePosted,asc"
    case RatingDesc => "rating,desc"
    case RatingAsc => "rating,asc"
  }

  datatype Verb = GET | POST | PUT | DELETE

  datatype Query =
    | NoQuery
    | SearchQuery(params: RestaurantSearchParams)
    | ReviewsQuery(sort: Option<string>, page: Option<int>, size: Option<int>)

  datatype FormValue = FileValue(file: LocalFile) | TextValue(text: string)

  datatype Body =
    | NoBody
    | RestaurantBody(restaurant: CreateRestaurantRequest)
    | ReviewBody(review: ReviewRequest)
    | MultipartBody(fields: seq<(string, FormValue)>)

  const JsonContent := "application/json"
  const MultipartContent := "multipart/form-data"

  datatype HttpRequest = HttpRequest(verb: Verb, path: string, query: Query, body: Body, contentType: string)

  /** The operations of the API service. */
  datatype Operation =
    | SearchRestaurants(params: RestaurantSearchParams)
    | GetRestaurant(restaurantId: string)
    | CreateRestaurant(request: CreateRestaurantRequest)
    | UpdateRestaurant(restaurantId: string, request: CreateRestaurantRequest)
    | DeleteRestaurant(restaurantId: string)
    | GetRestaurantReviews(restaurantId: string, sort: Option<ReviewSort>, page: Option<int>, size: Option<int>)
    | GetRestaurantReview(restaurantId: string, reviewId: string)
    | CreateReview(restaurantId: string, review: ReviewRequest)
    | UpdateReview(restaurantId: string, reviewId: string, review: ReviewRequest)
    | DeleteReview(restaurantId: string, reviewId: string)
    | UploadPhoto(file: LocalFile, caption: Option<string>)

  /** The resource an operation addresses. */
  function RouteOf(op: Operation): Route {
    match op
    case SearchRestaurants(_) => RestaurantsRoute
    case CreateRestaurant(_) => RestaurantsRoute
    case GetRestaurant(id) => RestaurantRoute(id)
    case UpdateRestaurant(id, _) => RestaurantRoute(id)
    case DeleteRestaurant(id) => RestaurantRoute(id)
    case GetRestaurantReviews(id, _, _, _) => ReviewsRoute(id)
    case CreateReview(id, _) => ReviewsRoute(id)
    case GetRestaurantReview(id, reviewId) => ReviewRoute(id, reviewId)
    case UpdateReview(id, reviewId, _) => ReviewRoute(id, reviewId)
    case DeleteReview(id, reviewId) => ReviewRoute(id, reviewId)
    case UploadPhoto(_, _) => PhotosRoute
  }

  /** The multipart fields of a photo upload: always the file, and the
      caption only when one was given and it is not empty. */
  function UploadFields(file: LocalFile, caption: Option<string>): (fields: seq<(string, FormValue)>)
    ensures 1 <= |fields| <= 2 && fields[0] == ("file", FileValue(file))
    ensures |fields| == 2 <==> caption.Some? && caption.value != ""
    ensures |fields| == 2 ==> fields[1] == ("caption", TextValue(caption.value))
  {
    [("file", FileValue(file))] + if caption.Some? && caption.value != "" then [("caption", TextValue(caption.value))] else []
  }

  /** The request each operation sends: reads are GETs, creations and the
      upload POSTs, updates PUTs and deletions DELETEs, all to the path of
      the operation's resource; the search forwards its filters, the review
      list its sort, page and size, and the writes their request or form. */
  function RequestFor(op: Operation): (req: HttpRequest)
    ensures req.path == Path(RouteOf(op))
    ensures req.verb == GET <==> (op.SearchRestaurants? || op.GetRestaurant? || op.GetRestaurantReviews? || op.GetRestaurantReview?)
    ensures req.verb == POST <==> (op.CreateRestaurant? || op.CreateReview? || op.UploadPhoto?)
    ensures req.verb == PUT <==> (op.UpdateRestaurant? || op.UpdateReview?)
    ensures req.verb == DELETE <==> (op.DeleteRestaurant? || op.DeleteReview?)
    ensures req.contentType == (if op.UploadPhoto? then MultipartContent else JsonContent)
    ensures (req.query != NoQuery) <==> (op.SearchRestaurants? || op.GetRestaurantReviews?)
    ensures op.SearchRestaurants? ==> req.query == SearchQuery(op.params)
    ensures op.GetRestaurantReviews? ==>
      req.query == ReviewsQuery(if op.sort.Some? then Some(SortParam(op.sort.value)) else None, op.page, op.size)
    ensures (req.body != NoBody) <==> (req.verb == POST || req.verb == PUT)
    ensures op.CreateRestaurant? || op.UpdateRestaurant? ==> req.body == RestaurantBody(op.request)
    ensures op.CreateReview? || op.UpdateReview? ==> req.body == ReviewBody(op.review)
    ensures op.UploadPhoto? ==> req.body == MultipartBody(UploadFields(op.file, op.caption))
  {
    match op
    case SearchRestaurants(params) =>
      HttpRequest(GET, Path(RestaurantsRoute), SearchQuery(params), NoBody, JsonContent)
    case GetRestaurant(id) =>
      HttpRequest(GET, Path(RestaurantRoute(id)), NoQuery, NoBody, JsonContent)
    case CreateRestaurant(request) =>
      HttpRequest(POST, Path(RestaurantsRoute), NoQuery, RestaurantBody(request), JsonContent)
    case UpdateRestaurant(id, request) =>
      HttpRequest(PUT, Path(RestaurantRoute(id)), NoQuery, RestaurantBody(request), JsonContent)
    case DeleteRestaurant(id) =>
      HttpRequest(DELETE, Path(RestaurantRoute(id)), NoQuery, NoBody, JsonContent)
    case GetRestaurantReviews(id, sort, page, size) =>
      var sortValue := if sort.Some? then Some(SortParam(sort.value)) else None;
      HttpRequest(GET, Path(ReviewsRoute(id)), ReviewsQuery(sortValue, page, size), NoBody, JsonContent)
    case GetRestaurantReview(id, reviewId) =>
      HttpRequest(GET, Path(ReviewRoute(id, reviewId)), NoQuery, NoBody, JsonContent)
    case CreateReview(id, review) =>
      HttpRequest(POST, Path(ReviewsRoute(id)), NoQuery, ReviewBody(review), JsonContent)
    case UpdateReview(id, reviewId, review) =>
      HttpRequest(PUT, Path(ReviewRoute(id, reviewId)), NoQuery, ReviewBody(review), JsonContent)
    case DeleteReview(id, reviewId) =>
      HttpRequest(DELETE, Path(ReviewRoute(id, reviewId)), NoQuery, NoBody, JsonContent)
    case UploadPhoto(file, caption) =>
      HttpRequest(POST, Path(PhotosRoute), NoQuery, MultipartBody(UploadFields(file, caption)), MultipartContent)
  }

  /** Every operation's request path reads back as the resource it addresses,
      so requests for different resources never share a path. */
  lemma RequestAddressesRoute(op: Operation)
    requires SlashFree(RouteOf(op))
    ensures ParseRoute(RequestFor(op).path) == Some(RouteOf(op))
  {
    ParsePathOfRoute(RouteOf(op));
  }

  /** Two operations whose requests share a path address the same resource. */
  lemma SamePathSameResource(a: Operation, b: Operation)
    requires SlashFree(RouteOf(a)) && SlashFree(RouteOf(b))
    requires RequestFor(a).path == RequestFor(b).path
    ensures RouteOf(a) == RouteOf(b)
  {
    RequestAddressesRoute(a);
    RequestAddressesRoute(b);
  }

  /** The service method an operation stands for. */
  function MethodName(op: Operation): string {
    match op
    case SearchRestaurants(_) => "searchRestaurants"
    case GetRestaurant(_) => "getRestaurant"
    case CreateRestaurant(_) => "createRestaurant"
    case UpdateRestaurant(_, _) => "updateRestaurant"
    case DeleteRestaurant(_) => "deleteRestaurant"
    case GetRestaurantReviews(_, _, _, _) => "getRestaurantReviews"
    case GetRestaurantReview(_, _) => "getRestaurantReview"
    case CreateReview(_, _) => "createReview"
    case UpdateReview(_, _, _) => "updateReview"
    case DeleteReview(_, _) => "deleteReview"
    case UploadPhoto(_, _) => "uploadPhoto"
  }

  /** Two operations that send the same verb to the same path address the
      same resource through the same service method. */
  lemma SameVerbSamePathSameKind(a: Operation, b: Operation)
    requires SlashFree(RouteOf(a)) && SlashFree(RouteOf(b))
    requires RequestFor(a).verb == RequestFor(b).verb && RequestFor(a).path == RequestFor(b).path
    ensures RouteOf(a) == RouteOf(b) && MethodName(a) == MethodName(b)
  {
    SamePathSameResource(a, b);
  }

  /** The proxy path the pages use as an image source for a stored photo. */
  function PhotoProxyUrl(photoRef: string): string {
    "/api/photos/" + photoRef
  }

  // ---------------------------------------------------------------------
  // What a call can fail with

  /** `response.data` as the pages see it. */
  datatype Payload = Undefined | Text(text: string) | Json(message: Option<string>)

  datatype HttpResponse = HttpResponse(status: int, data: Payload)

  datatype RequestConfig = RequestConfig(request: HttpRequest, headers: map<string, string>)

  /** An axios error (with the response, when one arrived, and the request
      configuration, when known), or any other thrown value, as `String(err)`. */
  datatype ApiError =
    | AxiosError(response: Option<HttpResponse>, config: Option<RequestConfig>)
    | OtherError(text: string)

  /** What an awaited call produced. */
  datatype Outcome<T> = Resolved(value: T) | Rejected(error: ApiError)

  predicate HasStatus(e: ApiError, status: int) {
    e.AxiosError? && e.response.Some? && e.response.value.status == status
  }

  /** `${err.response?.status}` as the pages render it. */
  function StatusText(e: ApiError): string
    requires e.AxiosError?
  {
    if e.response.None? then "undefined" else IntToString(e.response.value.status)
  }

  /** `${err.response?.data}`: a text body as it is, a JSON object as
      "[object Object]", a missing one as "undefined". */
  function DataText(e: ApiError): string
    requires e.AxiosError?
  {
    if e.response.None? then "undefined"
    else match e.response.value.data
      case Undefined => "undefined"
      case Text(t) => t
      case Json(_) => "[object Object]"
  }

  /** `err.response.data?.message`: only a JSON body carries a message. */
  function DataMessage(e: ApiError): Option<string>
    requires e.AxiosError?
  {
    if e.response.Some? && e.response.value.data.Json? then e.response.value.data.message else None
  }

  // ---------------------------------------------------------------------
  // Authentication

  /** The signed-in user as the identity provider reports it: an opaque
      access token and the expiry time in seconds, which may be missing. */
  datatype User = User(accessToken: string, expiresAt: Option<int>)

  /** How one silent sign-in ends. */
  datatype SilentResult = Renewed(user: User) | RenewalFailed

  /** `expiresAt && expiresAt * 1000 - 60000 < now`: a present, non-zero
      expiry (seconds) less than a minute after `now` (milliseconds). */
  predicate ExpiringSoon(expiresAt: Option<int>, now: int) {
    expiresAt.Some? && expiresAt.value != 0 && expiresAt.value * 1000 - 60000 < now
  }

  /** A token is expiring soon exactly when fewer than 60 seconds of it are
      left, and an expiring token stays expiring as time goes on. */
  lemma ExpiringSoonMeansUnderAMinuteLeft(expiresAt: int, now: int, later: int)
    requires expiresAt != 0 && now <= later
    ensures ExpiringSoon(Some(expiresAt), now) <==> expiresAt * 1000 - now < 60000
    ensures ExpiringSoon(Some(expiresAt), now) ==> ExpiringSoon(Some(expiresAt), later)
  {
  }

  const AuthorizationHeader := "Authorization"

  /** `Bearer ${this.auth.user?.access_token}`; with no user the template
      renders the word "undefined". */
  function Bearer(user: Option<User>): (h: string)
    ensures StartsWith(h, "Bearer ")
    ensures user.Some? ==> h[|"Bearer "|..] == user.value.accessToken
    ensures user.None? ==> h == "Bearer undefined"
  {
    "Bearer " + if user.Some? then user.value.accessToken else "undefined"
  }

  /** The authentication context the client reads and the calls it makes on it. */
  class Auth {
    var isAuthenticated: bool
    var user: Option<User>
    var silentAttempts: nat
    var redirects: nat

    constructor (isAuthenticated: bool, user: Option<User>)
      ensures this.isAuthenticated == isAuthenticated && this.user == user
      ensures silentAttempts == 0 && redirects == 0
    {
      this.isAuthenticated := isAuthenticated;
      this.user := user;
      silentAttempts := 0;
      redirects := 0;
    }

    /** `signinSilent()`: on success the user (and token) is replaced. */
    method SigninSilent(result: SilentResult) returns (ok: bool)
      modifies this
      ensures ok == result.Renewed?
      ensures silentAttempts == old(silentAttempts) + 1 && redirects == old(redirects)
      ensures user == (if ok then Some(result.user) else old(user))
      ensures isAuthenticated == (ok || old(isAuthenticated))
    {
      silentAttempts := silentAttempts + 1;
      ok := result.Renewed?;
      if ok {
        user := Some(result.user);
        isAuthenticated := true;
      }
    }

    /** `signinRedirect()`: starts the interactive login; the page then navigates away. */
    method SigninRedirect()
      modifies this
      ensures redirects == old(redirects) + 1
      ensures silentAttempts == old(silentAttempts)
      ensures user == old(user) && isAuthenticated == old(isAuthenticated)
    {
      redirects := redirects + 1;
    }
  }

  /** What the response-error interceptor does with a failed call. */
  datatype ErrorDecision = Replay(config: RequestConfig) | Reject(error: ApiError)

  function ExpiresAt(user: Option<User>): Option<int> {
    if user.Some? then user.value.expiresAt else None
  }

  /** The axios-backed API service; only its interceptors hold logic. */
  class AxiosApiService {
    const auth: Auth

    constructor (auth: Auth)
      ensures this.auth == auth
    {
      this.auth := auth;
    }

    /** The request interceptor: for an authenticated user, refresh a token
        that is about to expire (a failed refresh is ignored), then attach
        the current token; an anonymous request goes out unchanged. */
    method InterceptRequest(config: RequestConfig, now: int, silent: SilentResult) returns (sent: RequestConfig)
      modifies auth
      ensures sent.request == config.request
      ensures auth.silentAttempts ==
        old(auth.silentAttempts) + if old(auth.isAuthenticated) && ExpiringSoon(ExpiresAt(old(auth.user)), now) then 1 else 0
      ensures auth.redirects == old(auth.redirects) && auth.isAuthenticated == old(auth.isAuthenticated)
      ensures auth.user == (if auth.silentAttempts > old(auth.silentAttempts) && silent.Renewed? then Some(silent.user) else old(auth.user))
      ensures sent.headers ==
        if old(auth.isAuthenticated) then config.headers[AuthorizationHeader := Bearer(auth.user)] else config.headers
    {
      var headers := config.headers;
      if auth.isAuthenticated {
        var expiresAt := ExpiresAt(auth.user);
        if ExpiringSoon(expiresAt, now) {
          var _ := auth.SigninSilent(silent);
        }
        headers := headers[AuthorizationHeader := Bearer(auth.user)];
      }
      sent := config.(headers := headers);
    }

    /** The response-error interceptor, one decision: a 401 triggers one
        silent sign-in; if it succeeds and the request is known, the request
        is replayed with the new token; if it fails, the interactive login
        starts. In every other case the original error is passed on. */
    method InterceptResponseError(error: ApiError, silent: SilentResult) returns (decision: ErrorDecision)
      requires error.AxiosError?
      modifies auth
      ensures !HasStatus(error, 401) ==>
        decision == Reject(error) && auth.silentAttempts == old(auth.silentAttempts) &&
        auth.redirects == old(auth.redirects) && auth.user == old(auth.user)
      ensures HasStatus(error, 401) ==> auth.silentAttempts == old(auth.silentAttempts) + 1
      ensures auth.isAuthenticated == (old(auth.isAuthenticated) || (HasStatus(error, 401) && silent.Renewed?))
      ensures HasStatus(error, 401) && silent.Renewed? ==>
        auth.user == Some(silent.user) && auth.redirects == old(auth.redirects) &&
        decision == if error.config.Some?
                    then Replay(error.config.value.(headers := error.config.value.headers[AuthorizationHeader := Bearer(Some(silent.user))]))
                    else Reject(error)
      ensures HasStatus(error, 401) && silent.RenewalFailed? ==>
        decision == Reject(error) && auth.redirects == old(auth.redirects) + 1 && auth.user == old(auth.user)
    {
      if HasStatus(error, 401) {
        var ok := auth.SigninSilent(silent);
        if ok {
          if error.config.Some? {
            var config := error.config.value;
            var headers := config.headers[AuthorizationHeader := Bearer(auth.user)];
            return Replay(config.(headers := headers));
          }
        } else {
          auth.SigninRedirect();
        }
      }
      decision := Reject(error);
    }
  }
}
