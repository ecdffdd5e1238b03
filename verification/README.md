# Access control of "The Last Paideia" video server

A Dafny model of the access-control layer of `server.js`. The server hides one video
behind a shared password. Once a client is authenticated, it hands out a one-hour
pre-signed Cloudflare R2 URL for the video, or the local development fallback. The
model is functional. Each route handler is a pure function from (configuration,
session, request) to (response, session). Every library the handlers call is an
input, so the app's own branching is all that is modelled.

- `Settings` holds the startup configuration read from the environment (`IS_PUBLIC`,
  `NODE_ENV`, `PASSWORD_HASH`, the four R2 settings and `VIDEO_KEY`). It uses
  JavaScript's coercions: an unset variable and an empty one are both falsy.
- `Http` holds request-body values with JavaScript truthiness, the JSON bodies, the
  status codes and the fixed messages.
- `Sessions` gives the session one client's cookie resolves to. It is either
  `NoSession` or `Stored(authenticated)`. Cookie signing, token generation and the
  24-hour expiry belong to the session library. An expired session is `NoSession`.
  The model assumes the cookie reaches the client; see `Client.LoginThenLogoutRoundTrip`
  under "Left out" for production.
- `Oracles` holds the library outcomes:
  - `bcrypt.compare` gives Valid, Invalid or Throws.
  - `getSignedUrl` gives a URL or an error.
  - `session.destroy` either succeeds or errs.
  - `sendFile` of the local video either succeeds or fails.
  - The rate limiter gives Admit or Deny.
- `Routes` holds `requireAuth` and the handlers for `/api/config`, `/api/auth` (behind
  `authLimiter`), `/api/logout`, `/api/video-url`, `/video/local` and `/view`, plus a
  dispatcher.
- `AuthLimiter` counts `/api/auth` requests per client, with a window of 60 000 ms and
  a ceiling of 10. It assumes a window that opens on the client's first request, which
  is how the rate-limit library's in-memory store behaves from version 7 on. A request
  is refused once the window's count passes the ceiling, that request included.
- `Client` runs one client's sequence of requests. Requests carry a time so the limiter
  can be followed. The properties over whole runs live here.
- `RouteProperties` relates the handlers to each other and to the configuration.

The code behaves as follows, where an access-control layer might be expected not to:
- In public mode, `/api/auth` still goes through the limiter, and a login still sets
  the session flag.
- Every `/api/auth` request that reaches `authLimiter` counts towards the limit, not
  only failed ones. Denied and successful requests count too.
- Failures are not uniform:
  - A missing hash in production gives 500 `Server configuration error`.
  - A wrong password gives 401 `Invalid password`.
  - A throwing comparison gives 500 `Authentication failed`.
- Logout is idempotent only while `session.destroy` succeeds. When it errs, the reply is
  500 `Logout failed`.
- When `destroy` errs, the stored session is taken to survive, so the client's session
  is unchanged.
- The limiter's 429 status is the rate-limit library's default. Only the message is
  configured in the source.

## Model

| member | source | states |
|---|---|---|
| Settings.LoadConfig | server.js:19-26 | public mode is on only for `IS_PUBLIC` exactly `"true"`; production only for `NODE_ENV` exactly `"production"`; a hash counts as set only when non-empty; R2 counts as configured only when all four variables are non-empty; the video key is `VIDEO_KEY` when non-empty, else `the-last-paideia.mp4`, so never empty |
| Routes.RequireAuth | server.js:96-101 | the guard lets a request through if and only if the server is public or the session is authenticated; otherwise it answers 401 `Authentication required` |
| Routes.ConfigRoute | server.js:104-109 | `/api/config` leaves the session alone and reports `isPublic` from the configuration and `isAuthenticated` as the session's flag, false when there is no session |
| Routes.AuthHandler | server.js:113-140 | a login succeeds if and only if the password is truthy and either the hash comparison says Valid or no hash is set outside production; only success changes the session, and it makes it authenticated; a falsy password gives 400, no hash in production 500, Invalid 401 and Throws 500, each with its message |
| Routes.AuthRoute | server.js:112 | the limiter runs before the handler on `/api/auth` in every mode; a Deny gives 429 `Too many attempts…` and leaves the session unchanged |
| Routes.LogoutRoute | server.js:144-151 | a successful destroy answers `{success:true}` and leaves the client with no session; a failed destroy answers 500 `Logout failed` and keeps the session |
| Routes.SelectKey | server.js:161 | the signed key is the query's `key` when that is non-empty, and the configured `VIDEO_KEY` otherwise |
| Routes.SignRequest | server.js:164-170 | the signer is asked for the configured bucket, the selected key and an expiry of 3600 seconds |
| Routes.VideoUrlRoute | server.js:154-176 | `/api/video-url` never changes the session; behind the guard, incomplete R2 settings give `{url:"/video/local", type:"local"}`; otherwise a signed URL gives `{url, type:"r2"}` and a signer error gives 500 `Failed to generate video URL` |
| Routes.LocalVideoRoute | server.js:179-186 | `/video/local` sits behind the same guard and sends the file, or 404 `Video not found` when sending fails before the response starts |
| Routes.ViewRoute | server.js:189-194 | `/view` only ever redirects home or sends the player page, and never changes the session |
| Routes.Dispatch | server.js:104-194 | over all routes, only `/api/auth` can set the flag, and only logout clears the session; a client becomes authenticated only through an admitted, accepted login answered `{success:true}`; a stored session with a false flag never arises |
| AuthLimiter.Hit | server.js:57-63 | a request outside any open window opens a new one and is admitted; inside a window the count goes up by one; the request is refused exactly when the count passes 10 |
| Client.Step | server.js:112 | every `/api/auth` request is counted by the limiter whatever its outcome; no other route touches the count; a refused request answers 429 and keeps the session |
| Client.Run | server.js:96-194 | a run answers every request once, and keeps the invariant that the session flag is never stored as false |
| Client.LoginIsTheOnlyWayIn | server.js:119-140 | a client that ends a run authenticated, having started otherwise, had some `/api/auth` request answered `{success:true}` |
| Client.NoHashInProductionLocksEveryone | server.js:119-123 | in production with no password hash, no run ever authenticates a client |
| Client.EveryAttemptCounts | server.js:57-63 | inside one window, each `/api/auth` request adds one to the count; the first ten reach the login handler, on the session the earlier requests left; every request past the tenth is refused with 429 whatever the password or mode |
| Client.EleventhAttemptRefused | server.js:57-59 | eleven `/api/auth` requests within 60 000 ms of the first, with no window open before, end in 429 for the eleventh |
| Client.LoginThenLogoutRoundTrip | server.js:96-176 | outside public mode, an accepted login lets `/api/video-url` past the guard; after logout the same request gets 401 and the client holds no session |
| RouteProperties.OneGuardForAllProtectedRoutes | server.js:154-194 | `/api/video-url` and `/video/local` answer 401, and `/view` redirects, on exactly the same requests: neither public nor authenticated |
| RouteProperties.ConfigPredictsGuard | server.js:104-109 | `isPublic` or `isAuthenticated` from `/api/config` holds exactly when the guard would let the client through |
| RouteProperties.SignerOnlyBehindGuardAndR2 | server.js:155-158 | when the guard refuses or R2 is not fully configured, the reply does not depend on the signer |
| RouteProperties.IssuedUrlIsSignedForKey | server.js:160-171 | an R2 URL is handed out only past the guard and with R2 configured, and it is the signer's URL for the bucket, the selected key and 3600 seconds |
| RouteProperties.SignedKeyNeverEmpty | server.js:25 | with the configuration read from the environment, the key given to the signer is never empty |
| RouteProperties.FailedLoginKeepsSession | server.js:112-140 | any `/api/auth` reply other than `{success:true}` leaves the session exactly as it was |
| RouteProperties.PublicModeBypassesGuardOnly | server.js:97 | in public mode no session is refused by the guard and `/view` sends the player, but a limiter Deny on `/api/auth` still gives 429 |
| RouteProperties.LogoutIdempotent | server.js:144-151 | while the session store's destroy succeeds, a second logout gives the same reply as the first and the client ends unauthenticated; with a failing destroy, logout answers 500 |

## Left out

- The general limiter is left out. It allows 100 requests a minute on every route and
  never touches the session. When it denies, the reply is the library's default body,
  which the source does not state. A request it refuses ends before `authLimiter`, so
  that request is never counted on `/api/auth`.
- Per-address keying and headers of the rate limiter are left out. One client's record
  is modelled, with time as an input.
- AuthLimiter.Hit: assumes the rate-limit library's in-memory store from version 7 on.
  There each client's window opens on its first counted request and ends 60 000 ms
  later. The source gives only `windowMs` and `max`, and the library version is not
  part of this model. Older versions reset every client together on one 60-second
  timer started at startup. Client.EveryAttemptCounts and Client.EleventhAttemptRefused
  depend on this assumption. Under the older store, eleven requests that straddle a
  reset are not all in one window, and the eleventh may be admitted.
- Session internals are left out: token generation, cookie signing and flags, and the
  24-hour `maxAge`. The library enforces expiry, and the model sees it as `NoSession`.
- bcrypt hashing and comparison are oracles. This includes what the comparison does
  with a non-string password.
- R2 client construction, endpoint and credentials are left out. So are the signing
  algorithm and the URL format. The signer is an oracle.
- Routes.LocalVideoRoute: `videoSent == false` stands for a send that fails before the
  response starts, such as a missing file. A send that fails after streaming began is
  not modelled. An example is a client aborting mid-stream, which a video element does
  on seek. There the callback at server.js:183 tries to set a 404 after the headers were
  sent. That throws outside the framework's error handling instead of answering 404.
- Static file serving is mounted at server.js:93, before the guarded routes, and is not
  modelled. So when the local fallback is in use, `public/video.mp4` and
  `public/player.html` are served at `/video.mp4` and `/player.html` without any session.
  Routes.LocalVideoRoute and Routes.ViewRoute guard their own paths only. They do not
  make the local video file private.
- Helmet's content security policy, the `/api/health` timestamp,
  the catch-all `index.html` route, `dotenv`, `PORT`, `SESSION_SECRET` and
  `app.listen` are I/O and configuration plumbing.
- Body parsing is left out. The model assumes the body parsed into an object, and an
  absent `password` field reads as `Missing`. A body the parser rejects never reaches
  the handler. It never reaches `authLimiter` either, so it is not counted.
- Client.LoginThenLogoutRoundTrip: holds only when the session cookie reaches the
  client. In production, server.js:84 marks the cookie `secure`. The server listens on
  plain HTTP and sets neither `trust proxy` nor the session's `proxy` option. By the
  session library's documented behaviour, the cookie is then not sent, so a production
  login does not carry over to later requests: the next request sees no session and
  `/api/video-url` answers 401. The model's session abstraction does not capture cookie
  transport, so this lemma does not promise the production behaviour.
- Routes.VideoUrlRoute: the query `key` is a string or absent. Repeated or nested query
  parameters, which the query parser turns into arrays or objects, are not modelled.
- Concurrency across requests and across clients is left out. Each request is one
  atomic transition on its own client's state.
- The front-end script is DOM wiring and `fetch` calls around these routes.
