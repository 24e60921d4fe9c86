/** The status handling of a call to the decision source and the login that
    renews the central API token. Each HTTP call takes the next scripted reply;
    a call with no reply left fails like a transport error. */
module Transport {
  import opened Types
  import opened SyncState

  /** The token a reply hands out: a 200 whose body decodes to code 200 and a non-empty token. */
  function GrantOf(resp: Response): set<string>
  {
    if resp.Reply? && resp.status == StatusOK && DecodeLogin(resp.body).Some?
       && DecodeLogin(resp.body).value.code == StatusOK && |DecodeLogin(resp.body).value.token| > 0
    then {DecodeLogin(resp.body).value.token}
    else {}
  }

  /** Every token a sequence of replies hands out. */
  function Granted(s: seq<Response>): set<string>
    decreases |s|
  {
    if s == [] then {} else GrantOf(s[0]) + Granted(s[1..])
  }

  /** One call to `route`: sends the current key, then branches on the reply.
      A 401 in alone mode logs in again and, when that succeeds, repeats the
      call as a GET; any other status than 200 is an error. */
  function Exchange(c: Config, w: World, route: Route, post: bool): (r: Step<Result<Body>>)
    ensures |r.world.script| <= |w.script|
    ensures w.script != [] ==> |r.world.script| < |w.script|
    ensures SameStore(w, r.world)
    ensures r.world.healthy ==> w.healthy
    decreases |w.script|, 0
  {
    var w1 := w.(sent := w.sent + [Request(route, post, w.key)]);
    if w.script == [] then Step(w1, Err(TransportFailure))
    else
      var w2 := w1.(script := w.script[1..]);
      match w.script[0]
      case NoConnection => Step(w2, Err(TransportFailure))
      case Reply(status, body) =>
        if status == StatusUnauthorized && c.mode == AloneMode then
          var t := Renew(c, w2);
          if t.result.Some? then Step(t.world, Err(RenewToken(t.result.value)))
          else Exchange(c, t.world, route, false)
        else if status != StatusOK then Step(w2, Err(BadStatus(status)))
        else Step(w2, Ok(body))
  }

  /** The central login: the key is replaced only by a non-empty token that
      came with code 200; a body that does not decode also clears the health flag. */
  function Renew(c: Config, w: World): (r: Step<Option<Error>>)
    ensures |r.world.script| <= |w.script|
    ensures w.script != [] ==> |r.world.script| < |w.script|
    ensures SameStore(w, r.world)
    ensures r.world.healthy ==> w.healthy
    ensures r.result.None? ==> |r.world.key| > 0
    decreases |w.script|, 1
  {
    var q := Exchange(c, w, LoginRoute, true);
    if q.result.Err? then Step(q.world, Some(q.result.error))
    else
      match DecodeLogin(q.result.value)
      case None => Step(q.world.(healthy := false), Some(ParseBody))
      case Some(login) =>
        if login.code == StatusOK && |login.token| > 0 then Step(q.world.(key := login.token), None)
        else Step(q.world, Some(LoginRejected(login.code)))
  }

  /** What a call leaves behind: its own request is the next one recorded
      (carrying the key held before the call), the key it ends with is the old
      one or a token some login reply granted, and a successful result is a
      body that came with a 200. */
  lemma {:induction false} ExchangeTrace(c: Config, w: World, route: Route, post: bool)
    ensures var r := Exchange(c, w, route, post);
            && w.sent + [Request(route, post, w.key)] <= r.world.sent
            && Granted(r.world.script) <= Granted(w.script)
            && (r.result.Ok? ==> GrantOf(Reply(StatusOK, r.result.value)) <= Granted(w.script))
            && (r.world.key == w.key || r.world.key in Granted(w.script))
    decreases |w.script|, 0
  {
    if w.script != [] {
      assert Granted(w.script) == GrantOf(w.script[0]) + Granted(w.script[1..]);
      if w.script[0].Reply? && w.script[0].status == StatusUnauthorized && c.mode == AloneMode {
        var w2 := AfterFirst(w, route, post);
        RenewTrace(c, w2);
        var t := Renew(c, w2);
        PrefixChain(w2.sent, w2.sent + [Request(LoginRoute, true, w2.key)], t.world.sent);
        if t.result.None? {
          UnauthorizedRepeats(c, w, route, post);
          ExchangeTrace(c, t.world, route, false);
          PrefixChain(w2.sent, t.world.sent + [Request(route, false, t.world.key)],
                      Exchange(c, t.world, route, false).world.sent);
        }
      }
    }
  }

  /** The replies left after a call were all in the script before it, and a
      successful result is the body of a 200 that was in the script. */
  lemma {:induction false} ExchangeKeepsReplies(c: Config, w: World, route: Route, post: bool)
    ensures var r := Exchange(c, w, route, post);
            && (forall x :: x in r.world.script ==> x in w.script)
            && (r.result.Ok? ==> Reply(StatusOK, r.result.value) in w.script)
    decreases |w.script|, 0
  {
    if w.script != [] && w.script[0].Reply? && w.script[0].status == StatusUnauthorized && c.mode == AloneMode {
      var w2 := AfterFirst(w, route, post);
      RenewKeepsReplies(c, w2);
      var t := Renew(c, w2);
      if t.result.None? {
        UnauthorizedRepeats(c, w, route, post);
        ExchangeKeepsReplies(c, t.world, route, false);
      }
    }
  }

  /** The replies left after a login were all in the script before it. */
  lemma {:induction false} RenewKeepsReplies(c: Config, w: World)
    ensures forall x :: x in Renew(c, w).world.script ==> x in w.script
    decreases |w.script|, 1
  {
    ExchangeKeepsReplies(c, w, LoginRoute, true);
  }

  /** A prefix of a prefix is a prefix. */
  lemma PrefixChain<T>(a: seq<T>, b: seq<T>, d: seq<T>)
    requires a <= b && b <= d
    ensures a <= d
  {
  }

  /** What a login leaves behind: the login POST is the next request recorded,
      and the key it ends with is the old one or a token some login reply granted. */
  lemma {:induction false} RenewTrace(c: Config, w: World)
    ensures var r := Renew(c, w);
            && w.sent + [Request(LoginRoute, true, w.key)] <= r.world.sent
            && Granted(r.world.script) <= Granted(w.script)
            && (r.world.key == w.key || r.world.key in Granted(w.script))
    decreases |w.script|, 1
  {
    ExchangeTrace(c, w, LoginRoute, true);
  }

  /** The reply a single call ends with when no re-login is involved. */
  function Plain(resp: Response): Result<Body>
  {
    match resp
    case NoConnection => Err(TransportFailure)
    case Reply(status, body) => if status == StatusOK then Ok(body) else Err(BadStatus(status))
  }

  /** A call whose first reply is not a 401 in alone mode is exactly one
      exchange: one request, one reply consumed, key and health untouched. In
      particular, outside alone mode a 401 is an ordinary error. */
  lemma SingleExchange(c: Config, w: World, route: Route, post: bool)
    requires w.script != []
    requires !(w.script[0].Reply? && w.script[0].status == StatusUnauthorized && c.mode == AloneMode)
    ensures Exchange(c, w, route, post) ==
              Step(w.(script := w.script[1..], sent := w.sent + [Request(route, post, w.key)]),
                   Plain(w.script[0]))
  {
  }

  /** A login whose reply is not a 401 in alone mode: the key changes exactly
      when the reply is a 200 whose body decodes to code 200 and a non-empty
      token; otherwise the key stays and an error is returned. */
  lemma RenewReplacesKeyOnlyOnSuccess(c: Config, w: World)
    requires w.script != []
    requires !(w.script[0].Reply? && w.script[0].status == StatusUnauthorized && c.mode == AloneMode)
    ensures var r := Renew(c, w);
            var ok := w.script[0].Reply? && w.script[0].status == StatusOK &&
                      DecodeLogin(w.script[0].body).Some? &&
                      DecodeLogin(w.script[0].body).value.code == StatusOK &&
                      |DecodeLogin(w.script[0].body).value.token| > 0;
            && (r.result.None? <==> ok)
            && r.world.key == (if ok then DecodeLogin(w.script[0].body).value.token else w.key)
            && r.world.sent == w.sent + [Request(LoginRoute, true, w.key)]
            && r.world.script == w.script[1..]
            && (r.world.healthy <==>
                  w.healthy && !(w.script[0].Reply? && w.script[0].status == StatusOK &&
                                 DecodeLogin(w.script[0].body).None?))
  {
    SingleExchange(c, w, LoginRoute, true);
  }

  /** Nested renewal: a 401 to the login itself triggers a second login; when
      that succeeds and the repeated login call then fails, the key has already
      been replaced although the outer renewal reports an error. */
  lemma NestedRenewalKeepsInnerToken(c: Config, w: World, any: Body, token: string, expire: string,
                                     status: int, rest: seq<Response>)
    requires c.mode == AloneMode && |token| > 0 && status != StatusOK && status != StatusUnauthorized
    requires w.script == [Reply(StatusUnauthorized, any), Reply(StatusOK, LoginDoc(Login(StatusOK, token, expire))),
                          Reply(status, Null)] + rest
    ensures Renew(c, w).result == Some(BadStatus(status))
    ensures Renew(c, w).world.key == token
  {
    RetryAfterRelogin(c, w, LoginRoute, true, any, token, expire, Reply(status, Null), rest);
  }

  /** The world a call stands in once its first reply has been taken. */
  function AfterFirst(w: World, route: Route, post: bool): (r: World)
    requires w.script != []
    ensures |r.script| < |w.script|
  {
    w.(sent := w.sent + [Request(route, post, w.key)], script := w.script[1..])
  }

  /** A 401 in alone mode whose renewal succeeds makes the call the same call
      again, as a GET, from the world the renewal left. */
  lemma UnauthorizedRepeats(c: Config, w: World, route: Route, post: bool)
    requires w.script != [] && w.script[0].Reply? && w.script[0].status == StatusUnauthorized
    requires c.mode == AloneMode && Renew(c, AfterFirst(w, route, post)).result.None?
    ensures Exchange(c, w, route, post) == Exchange(c, Renew(c, AfterFirst(w, route, post)).world, route, false)
  {
  }

  /** In alone mode a 401 answered by a successful login is the same call
      again, as a GET, from the world with the new token and two more requests. */
  lemma ReloginStep(c: Config, w: World, route: Route, post: bool,
                    any: Body, token: string, expire: string, s: seq<Response>)
    requires c.mode == AloneMode && |token| > 0
    requires w.script == [Reply(StatusUnauthorized, any), Reply(StatusOK, LoginDoc(Login(StatusOK, token, expire)))] + s
    ensures Exchange(c, w, route, post) ==
              Exchange(c, w.(key := token, script := s,
                             sent := w.sent + [Request(route, post, w.key), Request(LoginRoute, true, w.key)]),
                       route, false)
  {
    var w2 := AfterFirst(w, route, post);
    assert w2.script == [Reply(StatusOK, LoginDoc(Login(StatusOK, token, expire)))] + s;
    assert w2.script[1..] == s;
    SingleExchange(c, w2, LoginRoute, true);
    assert w2.sent + [Request(LoginRoute, true, w.key)] == w.sent + [Request(route, post, w.key), Request(LoginRoute, true, w.key)];
    UnauthorizedRepeats(c, w, route, post);
  }

  /** In alone mode a 401 followed by a successful login repeats the call, as a
      GET carrying the new token, and the call ends with that third reply. */
  lemma RetryAfterRelogin(c: Config, w: World, route: Route, post: bool,
                          any: Body, token: string, expire: string, third: Response, rest: seq<Response>)
    requires c.mode == AloneMode && |token| > 0
    requires !(third.Reply? && third.status == StatusUnauthorized)
    requires w.script == [Reply(StatusUnauthorized, any), Reply(StatusOK, LoginDoc(Login(StatusOK, token, expire))),
                          third] + rest
    ensures Exchange(c, w, route, post) ==
              Step(w.(key := token, script := rest,
                      sent := w.sent + [Request(route, post, w.key), Request(LoginRoute, true, w.key),
                                        Request(route, false, token)]),
                   Plain(third))
  {
    assert w.script == [Reply(StatusUnauthorized, any), Reply(StatusOK, LoginDoc(Login(StatusOK, token, expire)))]
                       + ([third] + rest);
    ReloginStep(c, w, route, post, any, token, expire, [third] + rest);
    var w3 := w.(key := token, script := [third] + rest,
                 sent := w.sent + [Request(route, post, w.key), Request(LoginRoute, true, w.key)]);
    SingleExchange(c, w3, route, false);
  }

  /** `n` rounds of "401, then a successful login", as the decision source
      would have to answer them. */
  function Relogins(n: nat, token: string): (s: seq<Response>)
    ensures |s| == 2 * n
  {
    if n == 0 then []
    else [Reply(StatusUnauthorized, Null), Reply(StatusOK, LoginDoc(Login(StatusOK, token, "")))] + Relogins(n - 1, token)
  }

  /** The 401 retry has no bound: after any number of 401s, each answered by a
      successful login, the call still succeeds, having sent 2n+1 requests. */
  lemma {:induction false} RetriesAreUnbounded(c: Config, w: World, route: Route, post: bool,
                                               n: nat, token: string, body: Body, rest: seq<Response>)
    requires c.mode == AloneMode && |token| > 0
    requires w.script == Relogins(n, token) + [Reply(StatusOK, body)] + rest
    ensures var r := Exchange(c, w, route, post);
            && r.result == Ok(body)
            && r.world.script == rest
            && |r.world.sent| == |w.sent| + 2 * n + 1
            && r.world.key == (if n == 0 then w.key else token)
            && r.world.healthy == w.healthy
    decreases n
  {
    if n == 0 {
      assert w.script == [Reply(StatusOK, body)] + rest;
      SingleExchange(c, w, route, post);
    } else {
      var s := Relogins(n - 1, token) + [Reply(StatusOK, body)] + rest;
      assert w.script == [Reply(StatusUnauthorized, Null), Reply(StatusOK, LoginDoc(Login(StatusOK, token, "")))] + s;
      ReloginStep(c, w, route, post, Null, token, "", s);
      var w3 := w.(key := token, script := s,
                   sent := w.sent + [Request(route, post, w.key), Request(LoginRoute, true, w.key)]);
      RetriesAreUnbounded(c, w3, route, false, n - 1, token, body, rest);
    }
  }
}
