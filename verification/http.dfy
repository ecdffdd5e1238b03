/** What a handler reads from a request and what it writes back. */
module Http {

  /** A request-body field as the JSON or form parser hands it over.
      `Composite` is any array or object. */
  datatype Value = Missing | Null | Bool(b: bool) | Number(n: real) | Str(s: string) | Composite

  /** JavaScript truthiness of a body field, the test behind `!password`. */
  predicate Truthy(v: Value) {
    match v
    case Missing => false
    case Null => false
    case Bool(b) => b
    case Number(n) => n != 0.0
    case Str(s) => s != ""
    case Composite => true
  }

  /** The `type` field of a video-location body. */
  datatype UrlType = Local | R2

  /** The JSON bodies the routes send. */
  datatype Body =
    | ErrorBody(error: string)                         // { error }
    | Success                                          // { success: true }
    | ConfigInfo(isPublic: bool, isAuthenticated: bool)
    | VideoLocation(url: string, urlType: UrlType)     // { url, type }

  /** A response: JSON with a status, a redirect (302), or a page file. */
  datatype Response =
    | Json(status: nat, body: Body)
    | Redirect(location: string)
    | File(name: string)

  const StatusOk: nat := 200
  const StatusBadRequest: nat := 400
  const StatusUnauthorized: nat := 401
  const StatusNotFound: nat := 404
  const StatusTooManyRequests: nat := 429
  const StatusServerError: nat := 500

  const AuthenticationRequired := "Authentication required"
  const PasswordRequired := "Password is required"
  const ServerConfigurationError := "Server configuration error"
  const InvalidPassword := "Invalid password"
  const AuthenticationFailed := "Authentication failed"
  const LogoutFailed := "Logout failed"
  const VideoUrlFailed := "Failed to generate video URL"
  const VideoNotFound := "Video not found"
  const TooManyAttempts := "Too many attempts. Please try again later."

  const LocalVideoUrl := "/video/local"
  const PlayerPage := "player.html"
  const LocalVideoFile := "video.mp4"
  const Home := "/"

  /** `res.json({ success: true })`. */
  const Succeeded: Response := Json(StatusOk, Success)
}
