/** The per-client session as the handlers see it. */
module Sessions {

  /** `NoSession`: the request carries no stored session (no cookie yet,
      destroyed, or expired); the handler then sees a fresh empty one.
      `Stored`: a saved session with its `authenticated` flag. */
  datatype Session = NoSession | Stored(authenticated: bool)
  {
    /** `req.session.authenticated` is truthy. */
    predicate IsAuthenticated() {
      Stored? && authenticated
    }

    /** The flag is only ever written `true`, so a stored session whose
        flag is false never arises. */
    predicate Reachable() {
      NoSession? || authenticated
    }
  }
}
