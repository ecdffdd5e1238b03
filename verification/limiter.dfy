/** The counting behind `authLimiter` (60 000 ms window, at most 10
    requests): one client's record, counted on every /api/auth request.
    Time is an input; the per-address keying is the caller's business. */
module AuthLimiter {
  import opened Wrappers
  import opened Oracles

  const WindowMs: nat := 60 * 1000
  const MaxHits: nat := 10

  /** A client's current window: when it opened and how many requests it has seen. */
  datatype Window = Window(start: nat, hits: nat)

  /** The decision for one request and the record afterwards. */
  datatype Count = Count(admission: Admission, window: Window)

  /** The window is over at `now`; the next request opens a fresh one. */
  predicate Expired(w: Window, now: nat) {
    w.start + WindowMs <= now
  }

  /** Counts one request at time `now`; the request is refused once the
      window's count, this request included, passes the ceiling. */
  function Hit(record: Option<Window>, now: nat): (c: Count)
    ensures record.None? || Expired(record.value, now) ==> c == Count(Admit, Window(now, 1))
    ensures record.Some? && !Expired(record.value, now) ==>
              c.window == Window(record.value.start, record.value.hits + 1)
    ensures c.admission == Deny <==> c.window.hits > MaxHits
  {
    var w := if record.None? || Expired(record.value, now) then Window(now, 1)
             else Window(record.value.start, record.value.hits + 1);
    Count(if w.hits > MaxHits then Deny else Admit, w)
  }
}
