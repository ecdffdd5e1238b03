/** One client's sequence of requests against the server: its session and
    its limiter record evolve, each request handled atomically. */
module Client {
  import opened Wrappers
  import opened Settings
  import opened Http
  import opened Sessions
  import opened Oracles
  import opened Routes
  import opened AuthLimiter

  /** A request arriving at time `now` (ms), with the library behaviour it meets. */
  datatype Event = Event(now: nat, request: Request, lib: Library)

  /** What the server keeps about one client. */
  datatype ClientState = ClientState(session: Session, limit: Option<Window>)

  datatype Transition = Transition(next: ClientState, response: Response)

  /** The client's state after a run, and the response to each request. */
  datatype Trace = Trace(final: ClientState, responses: seq<Response>)

  /** A client that has never contacted the server. */
  const Fresh: ClientState := ClientState(NoSession, None)

  /** Handles one request. The limiter sits in front of /api/auth only. */
  function Step(cfg: Config, c: ClientState, e: Event): (t: Transition)
    // Every /api/auth request is counted, whatever its outcome; no other route touches the record.
    ensures e.request.PostAuth? ==> t.next.limit == Some(Hit(c.limit, e.now).window)
    ensures !e.request.PostAuth? ==> t.next.limit == c.limit
    ensures e.request.PostAuth? && Hit(c.limit, e.now).admission == Deny ==>
              t.response == Json(StatusTooManyRequests, ErrorBody(TooManyAttempts)) && t.next.session == c.session
    ensures t.next.session.IsAuthenticated() && !c.session.IsAuthenticated() ==>
              e.request.PostAuth? && t.response == Succeeded
  {
    if e.request.PostAuth? then
      var count := Hit(c.limit, e.now);
      var r := Dispatch(cfg, c.session, e.request, count.admission, e.lib);
      Transition(ClientState(r.session, Some(count.window)), r.response)
    else
      var r := Dispatch(cfg, c.session, e.request, Admit, e.lib);
      Transition(ClientState(r.session, c.limit), r.response)
  }

  /** Handles the requests in order. */
  function Run(cfg: Config, c: ClientState, events: seq<Event>): (t: Trace)
    ensures |t.responses| == |events|
    ensures c.session.Reachable() ==> t.final.session.Reachable()
    decreases |events|
  {
    if |events| == 0 then Trace(c, [])
    else
      var first := Step(cfg, c, events[0]);
      var rest := Run(cfg, first.next, events[1..]);
      Trace(rest.final, [first.response] + rest.responses)
  }

  /** A client ends authenticated, having started otherwise, only if some
      /api/auth request of the run answered `{ success: true }`. */
  lemma {:induction false} LoginIsTheOnlyWayIn(cfg: Config, c: ClientState, events: seq<Event>)
    requires !c.session.IsAuthenticated()
    requires Run(cfg, c, events).final.session.IsAuthenticated()
    ensures exists i :: 0 <= i < |events| && events[i].request.PostAuth? && Run(cfg, c, events).responses[i] == Succeeded
    decreases |events|
  {
    var first := Step(cfg, c, events[0]);
    var rest := Run(cfg, first.next, events[1..]);
    if first.next.session.IsAuthenticated() {
      assert events[0].request.PostAuth? && Run(cfg, c, events).responses[0] == Succeeded;
    } else {
      LoginIsTheOnlyWayIn(cfg, first.next, events[1..]);
      var i :| 0 <= i < |events[1..]| && events[1..][i].request.PostAuth? && rest.responses[i] == Succeeded;
      assert events[i + 1].request.PostAuth? && Run(cfg, c, events).responses[i + 1] == Succeeded;
    }
  }

  /** In production with no password hash, no run ever authenticates a client. */
  lemma {:induction false} NoHashInProductionLocksEveryone(cfg: Config, c: ClientState, events: seq<Event>)
    requires cfg.isProduction && !cfg.HasPasswordHash()
    requires !c.session.IsAuthenticated()
    ensures !Run(cfg, c, events).final.session.IsAuthenticated()
    decreases |events|
  {
    if |events| > 0 {
      var first := Step(cfg, c, events[0]);
      NoHashInProductionLocksEveryone(cfg, first.next, events[1..]);
    }
  }

  /** Within one window every /api/auth request is counted, successful or
      not. Requests up to the ceiling reach the login handler with the
      session the earlier requests left; each one past it is refused with
      429 whatever the password and whatever the mode. */
  lemma {:induction false} EveryAttemptCounts(cfg: Config, c: ClientState, w: Window, events: seq<Event>)
    requires c.limit == Some(w)
    requires forall i :: 0 <= i < |events| ==> events[i].request.PostAuth? && !Expired(w, events[i].now)
    ensures Run(cfg, c, events).final.limit == Some(Window(w.start, w.hits + |events|))
    ensures forall i :: 0 <= i < |events| && w.hits + i + 1 > MaxHits ==>
              Run(cfg, c, events).responses[i] == Json(StatusTooManyRequests, ErrorBody(TooManyAttempts))
    ensures forall i :: 0 <= i < |events| && w.hits + i + 1 <= MaxHits ==>
              Run(cfg, c, events).responses[i] ==
              AuthHandler(cfg, Run(cfg, c, events[..i]).final.session, events[i].request.password, events[i].lib.compare).response
    decreases |events|
  {
    if |events| > 0 {
      var first := Step(cfg, c, events[0]);
      var w' := Window(w.start, w.hits + 1);
      assert first.next.limit == Some(w');
      EveryAttemptCounts(cfg, first.next, w', events[1..]);
      var all := Run(cfg, c, events);
      var rest := Run(cfg, first.next, events[1..]);
      forall i | 0 <= i < |events| && w.hits + i + 1 > MaxHits
        ensures all.responses[i] == Json(StatusTooManyRequests, ErrorBody(TooManyAttempts))
      {
        if i > 0 {
          assert all.responses[i] == rest.responses[i - 1];
        }
      }
      forall i | 0 <= i < |events| && w.hits + i + 1 <= MaxHits
        ensures all.responses[i] ==
                AuthHandler(cfg, Run(cfg, c, events[..i]).final.session, events[i].request.password, events[i].lib.compare).response
      {
        if i == 0 {
          assert Run(cfg, c, events[..0]).final == c;
        } else {
          var prefix := events[..i];
          assert prefix[0] == events[0] && prefix[1..] == events[1..][..i - 1];
          assert Run(cfg, c, prefix).final == Run(cfg, first.next, events[1..][..i - 1]).final;
          assert events[1..][i - 1] == events[i];
          assert all.responses[i] == rest.responses[i - 1];
        }
      }
    }
  }

  /** Eleven /api/auth requests inside one minute from a client with no
      open window: the eleventh is refused, even with the right password. */
  lemma EleventhAttemptRefused(cfg: Config, c: ClientState, events: seq<Event>)
    requires |events| == 11
    requires c.limit.None? || Expired(c.limit.value, events[0].now)
    requires forall i :: 0 <= i < 11 ==> events[i].request.PostAuth?
    requires forall i :: 0 <= i < 11 ==> events[0].now <= events[i].now < events[0].now + WindowMs
    ensures Run(cfg, c, events).responses[10] == Json(StatusTooManyRequests, ErrorBody(TooManyAttempts))
  {
    var first := Step(cfg, c, events[0]);
    var w := Window(events[0].now, 1);
    assert first.next.limit == Some(w);
    EveryAttemptCounts(cfg, first.next, w, events[1..]);
    assert Run(cfg, c, events).responses[10] == Run(cfg, first.next, events[1..]).responses[9];
  }

  /** Outside public mode: log in, fetch the video URL, log out, fetch
      again. The first fetch passes the guard; the second gets 401. */
  lemma LoginThenLogoutRoundTrip(cfg: Config, password: Value, lib: Library, key: Option<string>, t0: nat)
    requires !cfg.isPublic
    requires Accepted(cfg, password, lib.compare)
    requires lib.destroy == Destroyed
    ensures var run := Run(cfg, Fresh, [Event(t0, PostAuth(password), lib), Event(t0, GetVideoUrl(key), lib),
                                        Event(t0, PostLogout, lib), Event(t0, GetVideoUrl(key), lib)]);
            && run.responses[0] == Succeeded
            && run.responses[1] != Json(StatusUnauthorized, ErrorBody(AuthenticationRequired))
            && run.responses[2] == Succeeded
            && run.responses[3] == Json(StatusUnauthorized, ErrorBody(AuthenticationRequired))
            && run.final.session == NoSession
  {
    var events := [Event(t0, PostAuth(password), lib), Event(t0, GetVideoUrl(key), lib),
                   Event(t0, PostLogout, lib), Event(t0, GetVideoUrl(key), lib)];
    var s1 := Step(cfg, Fresh, events[0]);
    assert s1.next.session == Stored(true);
    var s2 := Step(cfg, s1.next, events[1]);
    var s3 := Step(cfg, s2.next, events[2]);
    var s4 := Step(cfg, s3.next, events[3]);
    var r4 := Run(cfg, s3.next, events[3..]);
    assert events[3..][0] == events[3] && events[3..][1..] == [];
    assert Run(cfg, s4.next, events[3..][1..]) == Trace(s4.next, []);
    assert r4.responses == [s4.response] && r4.final == s4.next;
    var r3 := Run(cfg, s2.next, events[2..]);
    assert events[2..][1..] == events[3..];
    assert r3.responses == [s3.response, s4.response] && r3.final == s4.next;
    var r2 := Run(cfg, s1.next, events[1..]);
    assert events[1..][1..] == events[2..];
    assert r2.responses == [s2.response, s3.response, s4.response] && r2.final == s4.next;
    assert Run(cfg, Fresh, events).responses == [s1.response, s2.response, s3.response, s4.response];
  }
}
