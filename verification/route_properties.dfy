/** Properties that relate the handlers to one another and to the startup
    configuration. */
module RouteProperties {
  import opened Wrappers
  import opened Settings
  import opened Http
  import opened Sessions
  import opened Oracles
  import opened Routes

  /** The 401 both guarded routes send. */
  const Unauthorized: Response := Json(StatusUnauthorized, ErrorBody(AuthenticationRequired))

  /** One predicate guards both /api/video-url and /video/local, and /view's
      inline check redirects on exactly the same requests. */
  lemma OneGuardForAllProtectedRoutes(cfg: Config, s: Session, key: Option<string>,
                                      sign: SignParams -> Signing, videoSent: bool)
    ensures VideoUrlRoute(cfg, s, key, sign).response == Unauthorized <==> !(cfg.isPublic || s.IsAuthenticated())
    ensures LocalVideoRoute(cfg, s, videoSent).response == Unauthorized <==> !(cfg.isPublic || s.IsAuthenticated())
    ensures ViewRoute(cfg, s).response == Redirect(Home) <==> !(cfg.isPublic || s.IsAuthenticated())
  {
  }

  /** What /api/config reports is what the front end needs to predict the
      guard: `isPublic || isAuthenticated` holds exactly when it lets a
      request through. */
  lemma ConfigPredictsGuard(cfg: Config, s: Session)
    ensures var info := ConfigRoute(cfg, s).response.body;
            info.isPublic || info.isAuthenticated <==> RequireAuth(cfg, s).Next?
  {
  }

  /** The signer is not consulted when the guard refuses or R2 is not fully
      configured: any two signers give the same reply. */
  lemma SignerOnlyBehindGuardAndR2(cfg: Config, s: Session, key: Option<string>,
                                   sign1: SignParams -> Signing, sign2: SignParams -> Signing)
    requires RequireAuth(cfg, s).Reject? || !cfg.r2.Complete()
    ensures VideoUrlRoute(cfg, s, key, sign1) == VideoUrlRoute(cfg, s, key, sign2)
  {
  }

  /** An R2 URL handed out is the one signed for the requested (or default)
      key with a one-hour lifetime. */
  lemma IssuedUrlIsSignedForKey(cfg: Config, s: Session, key: Option<string>, sign: SignParams -> Signing, url: string)
    requires VideoUrlRoute(cfg, s, key, sign).response == Json(StatusOk, VideoLocation(url, R2))
    ensures cfg.isPublic || s.IsAuthenticated()
    ensures cfg.r2.Complete()
    ensures sign(SignParams(cfg.r2.bucketName, SelectKey(cfg, key), UrlLifetime)) == Signed(url)
  {
  }

  /** With a configuration read from the environment, the key handed to the
      signer is never empty. */
  lemma SignedKeyNeverEmpty(env: Env, key: Option<string>)
    ensures SignRequest(LoadConfig(env), key).key != ""
  {
  }

  /** A rejected or failed login leaves the session exactly as it was,
      whether the limiter, the input check, the configuration or the hash
      comparison refused it. */
  lemma FailedLoginKeepsSession(cfg: Config, s: Session, admission: Admission, password: Value,
                                compare: (Value, string) -> Verdict)
    requires AuthRoute(cfg, s, admission, password, compare).response != Succeeded
    ensures AuthRoute(cfg, s, admission, password, compare).session == s
  {
  }

  /** Public mode bypasses the guard for every session but not the limiter
      on /api/auth. */
  lemma PublicModeBypassesGuardOnly(cfg: Config, s: Session, key: Option<string>, sign: SignParams -> Signing,
                                    password: Value, compare: (Value, string) -> Verdict)
    requires cfg.isPublic
    ensures VideoUrlRoute(cfg, s, key, sign).response != Unauthorized
    ensures ViewRoute(cfg, s).response == File(PlayerPage)
    ensures AuthRoute(cfg, s, Deny, password, compare).response == Json(StatusTooManyRequests, ErrorBody(TooManyAttempts))
  {
  }

  /** Logging out twice is harmless while the session store's destroy
      succeeds both times: the second logout gives the same reply, and the
      client ends with no session. With a failing destroy the second logout
      answers 500 like any other; idempotence rests on the destroy outcome,
      not on the handler. */
  lemma LogoutIdempotent(s: Session)
    ensures var once := LogoutRoute(s, Destroyed);
            var twice := LogoutRoute(once.session, Destroyed);
            twice == once && !twice.session.IsAuthenticated()
    ensures LogoutRoute(s, DestroyError).response == Json(StatusServerError, ErrorBody(LogoutFailed))
  {
  }
}
