/** Outcomes of the library calls the handlers make, passed in as inputs. */
module Oracles {
  import opened Http

  /** `bcrypt.compare(password, PASSWORD_HASH)`: resolves true, false, or rejects. */
  datatype Verdict = Valid | Invalid | Throws

  /** What `getSignedUrl` is asked to sign. */
  datatype SignParams = SignParams(bucket: string, key: string, expiresIn: nat)

  /** `getSignedUrl`: a URL, or a rejection. */
  datatype Signing = Signed(url: string) | SignError

  /** The rate limiter's decision for one request. */
  datatype Admission = Admit | Deny

  /** `req.session.destroy`: the callback's `err` is absent or present. */
  datatype Destroy = Destroyed | DestroyError

  /** The library behaviour one request meets. `videoSent` is whether
      `sendFile` of the local video succeeded. */
  datatype Library = Library(
    compare: (Value, string) -> Verdict,
    sign: SignParams -> Signing,
    destroy: Destroy,
    videoSent: bool)
}
