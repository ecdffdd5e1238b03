/** The route handlers of the access-control layer, each a transition from
    (configuration, session, request) to (response, session). */
module Routes {
  import opened Wrappers
  import opened Settings
  import opened Http
  import opened Sessions
  import opened Oracles

  /** The routes this layer serves. */
  datatype Request =
    | GetConfig                          // GET /api/config
    | PostAuth(password: Value)          // POST /api/auth
    | PostLogout                         // POST /api/logout
    | GetVideoUrl(key: Option<string>)   // GET /api/video-url?key=
    | GetLocalVideo                      // GET /video/local
    | GetView                            // GET /view

  /** What a handler sends and the session the client holds afterwards. */
  datatype Reply = Reply(response: Response, session: Session)

  /** The guard's decision: run the downstream handler, or answer now. */
  datatype Guard = Next | Reject(response: Response)

  /** Lifetime in seconds of a signed video URL. */
  const UrlLifetime: nat := 3600

  /** The password check passes: a truthy password, and either the hash
      oracle accepts it or no hash is configured outside production. */
  predicate Accepted(cfg: Config, password: Value, compare: (Value, string) -> Verdict) {
    && Truthy(password)
    && (if cfg.HasPasswordHash() then compare(password, cfg.passwordHash) == Valid
        else !cfg.isProduction)
  }

  /** `requireAuth`: lets the request through exactly in public mode or for
      an authenticated session, and otherwise answers 401. */
  function RequireAuth(cfg: Config, s: Session): (g: Guard)
    ensures g.Next? <==> cfg.isPublic || s.IsAuthenticated()
    ensures g.Reject? ==> g.response == Json(StatusUnauthorized, ErrorBody(AuthenticationRequired))
  {
    if cfg.isPublic || s.IsAuthenticated() then Next
    else Reject(Json(StatusUnauthorized, ErrorBody(AuthenticationRequired)))
  }

  /** GET /api/config. */
  function ConfigRoute(cfg: Config, s: Session): (r: Reply)
    ensures r.session == s
    ensures r.response.Json? && r.response.status == StatusOk && r.response.body.ConfigInfo?
    ensures r.response.body.isPublic == cfg.isPublic
    ensures r.response.body.isAuthenticated <==> s.IsAuthenticated()
  {
    Reply(Json(StatusOk, ConfigInfo(cfg.isPublic, s.IsAuthenticated())), s)
  }

  /** POST /api/auth once the limiter has admitted the request. */
  function AuthHandler(cfg: Config, s: Session, password: Value, compare: (Value, string) -> Verdict): (r: Reply)
    // The outcome is success exactly when the check passes, and only then may the session change.
    ensures r.response == Succeeded <==> Accepted(cfg, password, compare)
    ensures Accepted(cfg, password, compare) ==> r.session == Stored(true)
    ensures !Accepted(cfg, password, compare) ==> r.session == s
    // Error cases, in the order the handler tests them.
    ensures !Truthy(password) ==> r.response == Json(StatusBadRequest, ErrorBody(PasswordRequired))
    ensures Truthy(password) && !cfg.HasPasswordHash() && cfg.isProduction ==>
              r.response == Json(StatusServerError, ErrorBody(ServerConfigurationError))
    ensures Truthy(password) && cfg.HasPasswordHash() && compare(password, cfg.passwordHash) == Invalid ==>
              r.response == Json(StatusUnauthorized, ErrorBody(InvalidPassword))
    ensures Truthy(password) && cfg.HasPasswordHash() && compare(password, cfg.passwordHash) == Throws ==>
              r.response == Json(StatusServerError, ErrorBody(AuthenticationFailed))
  {
    if !Truthy(password) then
      Reply(Json(StatusBadRequest, ErrorBody(PasswordRequired)), s)
    else if !cfg.HasPasswordHash() then
      if cfg.isProduction then Reply(Json(StatusServerError, ErrorBody(ServerConfigurationError)), s)
      else Reply(Succeeded, Stored(true))
    else
      match compare(password, cfg.passwordHash)
      case Valid => Reply(Succeeded, Stored(true))
      case Invalid => Reply(Json(StatusUnauthorized, ErrorBody(InvalidPassword)), s)
      case Throws => Reply(Json(StatusServerError, ErrorBody(AuthenticationFailed)), s)
  }

  /** POST /api/auth: `authLimiter` runs first, in every mode. */
  function AuthRoute(cfg: Config, s: Session, admission: Admission, password: Value,
                     compare: (Value, string) -> Verdict): (r: Reply)
    ensures admission == Deny ==> r == Reply(Json(StatusTooManyRequests, ErrorBody(TooManyAttempts)), s)
    ensures admission == Admit ==> r == AuthHandler(cfg, s, password, compare)
  {
    match admission
    case Deny => Reply(Json(StatusTooManyRequests, ErrorBody(TooManyAttempts)), s)
    case Admit => AuthHandler(cfg, s, password, compare)
  }

  /** POST /api/logout: no guard and no mode check. */
  function LogoutRoute(s: Session, destroy: Destroy): (r: Reply)
    ensures destroy == Destroyed ==> r == Reply(Succeeded, NoSession)
    ensures destroy == DestroyError ==> r == Reply(Json(StatusServerError, ErrorBody(LogoutFailed)), s)
  {
    match destroy
    case Destroyed => Reply(Succeeded, NoSession)
    case DestroyError => Reply(Json(StatusServerError, ErrorBody(LogoutFailed)), s)
  }

  /** `req.query.key || VIDEO_KEY`. */
  function SelectKey(cfg: Config, key: Option<string>): (k: string)
    ensures key.Some? && key.value != "" ==> k == key.value
    ensures !(key.Some? && key.value != "") ==> k == cfg.videoKey
  {
    if key.Some? && key.value != "" then key.value else cfg.videoKey
  }

  /** The signing request /api/video-url makes. */
  function SignRequest(cfg: Config, key: Option<string>): (p: SignParams)
    ensures p.bucket == cfg.r2.bucketName && p.key == SelectKey(cfg, key) && p.expiresIn == UrlLifetime
  {
    SignParams(cfg.r2.bucketName, SelectKey(cfg, key), UrlLifetime)
  }

  /** GET /api/video-url, behind `requireAuth`. */
  function VideoUrlRoute(cfg: Config, s: Session, key: Option<string>, sign: SignParams -> Signing): (r: Reply)
    ensures r.session == s
    ensures RequireAuth(cfg, s).Reject? ==> r.response == RequireAuth(cfg, s).response
    ensures RequireAuth(cfg, s).Next? && !cfg.r2.Complete() ==>
              r.response == Json(StatusOk, VideoLocation(LocalVideoUrl, Local))
    ensures RequireAuth(cfg, s).Next? && cfg.r2.Complete() ==>
              match sign(SignRequest(cfg, key))
              case Signed(url) => r.response == Json(StatusOk, VideoLocation(url, R2))
              case SignError => r.response == Json(StatusServerError, ErrorBody(VideoUrlFailed))
  {
    match RequireAuth(cfg, s)
    case Reject(denied) => Reply(denied, s)
    case Next =>
      if !cfg.r2.Complete() then Reply(Json(StatusOk, VideoLocation(LocalVideoUrl, Local)), s)
      else
        match sign(SignRequest(cfg, key))
        case Signed(url) => Reply(Json(StatusOk, VideoLocation(url, R2)), s)
        case SignError => Reply(Json(StatusServerError, ErrorBody(VideoUrlFailed)), s)
  }

  /** GET /video/local, behind the same `requireAuth`. */
  function LocalVideoRoute(cfg: Config, s: Session, videoSent: bool): (r: Reply)
    ensures r.session == s
    ensures RequireAuth(cfg, s).Reject? ==> r.response == RequireAuth(cfg, s).response
    ensures RequireAuth(cfg, s).Next? ==>
              r.response == (if videoSent then File(LocalVideoFile) else Json(StatusNotFound, ErrorBody(VideoNotFound)))
  {
    match RequireAuth(cfg, s)
    case Reject(denied) => Reply(denied, s)
    case Next =>
      if videoSent then Reply(File(LocalVideoFile), s)
      else Reply(Json(StatusNotFound, ErrorBody(VideoNotFound)), s)
  }

  /** GET /view: its own inline check, redirecting home instead of a 401. */
  function ViewRoute(cfg: Config, s: Session): (r: Reply)
    ensures r.session == s
    ensures r.response == Redirect(Home) || r.response == File(PlayerPage)
  {
    if !cfg.isPublic && !s.IsAuthenticated() then Reply(Redirect(Home), s)
    else Reply(File(PlayerPage), s)
  }

  /** Routes a request to its handler. `admission` is the limiter's decision,
      consulted on /api/auth only. */
  function Dispatch(cfg: Config, s: Session, req: Request, admission: Admission, lib: Library): (r: Reply)
    // Only /api/auth sets the flag, only logout clears the session; every other route leaves it alone.
    ensures r.session == s || (req.PostAuth? && r.session == Stored(true)) || (req.PostLogout? && r.session == NoSession)
    ensures r.session.IsAuthenticated() && !s.IsAuthenticated() ==>
              req.PostAuth? && admission == Admit && Accepted(cfg, req.password, lib.compare) && r.response == Succeeded
    ensures s.Reachable() ==> r.session.Reachable()
  {
    match req
    case GetConfig => ConfigRoute(cfg, s)
    case PostAuth(password) => AuthRoute(cfg, s, admission, password, lib.compare)
    case PostLogout => LogoutRoute(s, lib.destroy)
    case GetVideoUrl(key) => VideoUrlRoute(cfg, s, key, lib.sign)
    case GetLocalVideo => LocalVideoRoute(cfg, s, lib.videoSent)
    case GetView => ViewRoute(cfg, s)
  }
}
