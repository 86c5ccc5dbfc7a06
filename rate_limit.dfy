/** The pure helpers of the rate-limiting middleware: which paths bypass the limiter,
    which client address a request is charged to, and the key its points are counted under. */
module RateLimit {
  import opened Common

  /** `req.connection.socket`, when present. */
  datatype Socket = Socket(remoteAddress: Option<string>)

  /** `req.user`, when authenticated. */
  datatype AuthUser = AuthUser(id: Option<string>)

  /** The parts of an HTTP request the helpers read. */
  datatype Request = Request(
    path: string,
    forwardedFor: Option<string>,           // header 'x-forwarded-for'
    realIp: Option<string>,                 // header 'x-real-ip'
    connectionRemoteAddress: Option<string>,
    socketRemoteAddress: Option<string>,
    connectionSocket: Option<Socket>,
    user: Option<AuthUser>)

  const HealthPath := "/api/health"
  const BareHealthPath := "/health"
  const InternalPrefix := "/api/internal"
  const UnknownIp := "unknown"
  const Anonymous := "anonymous"

  /** `shouldSkipRateLimiting`: the two health paths exactly, and every path that starts
      with the internal prefix, bypass the limiter; every other path is limited. */
  function ShouldSkipRateLimiting(req: Request): (r: bool)
    ensures r <==> req.path == "/api/health" || req.path == "/health" ||
                   (|req.path| >= 13 && req.path[..13] == "/api/internal")
  {
    if req.path == HealthPath || req.path == BareHealthPath then true
    else if IsPrefix(InternalPrefix, req.path) then true
    else false
  }

  /** `connection.socket ? connection.socket.remoteAddress : null`. */
  function NestedSocketAddress(req: Request): Option<string>
  {
    if req.connectionSocket.Some? then req.connectionSocket.value.remoteAddress else None
  }

  /** `getClientIp`: the `||` chain over the address sources, ending in 'unknown'. */
  function GetClientIp(req: Request): string
  {
    OrElse(req.forwardedFor,
      OrElse(req.realIp,
        OrElse(req.connectionRemoteAddress,
          OrElse(req.socketRemoteAddress,
            OrElse(NestedSocketAddress(req), UnknownIp)))))
  }

  /** `req.user?.id || 'anonymous'`. */
  function UserKey(req: Request): string
  {
    OrElse(if req.user.Some? then req.user.value.id else None, Anonymous)
  }

  /** `getIdentifier`: `${ip}_${userId}`. */
  function GetIdentifier(req: Request): string
  {
    GetClientIp(req) + "_" + UserKey(req)
  }

  // ---------------------------------------------------------------------------------
  // The address fallback as a first-match search

  /** The address sources in the order the middleware consults them. */
  function IpSources(req: Request): seq<Option<string>>
  {
    [req.forwardedFor, req.realIp, req.connectionRemoteAddress, req.socketRemoteAddress,
     NestedSocketAddress(req)]
  }

  /** The first present (truthy) source, or `otherwise`. */
  function FirstTruthy(sources: seq<Option<string>>, otherwise: string): string
  {
    if sources == [] then otherwise
    else if Truthy(sources[0]) then sources[0].value
    else FirstTruthy(sources[1..], otherwise)
  }

  /** `FirstTruthy` picks a present source with no present source before it, and falls
      back only when no source is present. */
  lemma {:induction false} FirstTruthyIsFirst(sources: seq<Option<string>>, otherwise: string)
    ensures (forall i :: 0 <= i < |sources| ==> !Truthy(sources[i])) ==>
      FirstTruthy(sources, otherwise) == otherwise
    ensures forall i ::
      (0 <= i < |sources| && Truthy(sources[i]) && forall j :: 0 <= j < i ==> !Truthy(sources[j])) ==>
      FirstTruthy(sources, otherwise) == sources[i].value
  {
    if sources != [] {
      FirstTruthyIsFirst(sources[1..], otherwise);
      assert forall i :: 1 <= i < |sources| ==> sources[i] == sources[1..][i - 1];
    }
  }

  /** The client address is the first present source in the fallback order, or 'unknown'
      when none is present. */
  lemma ClientIpIsFirstPresent(req: Request)
    ensures GetClientIp(req) == FirstTruthy(IpSources(req), "unknown")
    ensures (forall i :: 0 <= i < 5 ==> !Truthy(IpSources(req)[i])) ==> GetClientIp(req) == "unknown"
    ensures forall i ::
      (0 <= i < 5 && Truthy(IpSources(req)[i]) && forall j :: 0 <= j < i ==> !Truthy(IpSources(req)[j])) ==>
      GetClientIp(req) == IpSources(req)[i].value
  {
    var s := IpSources(req);
    assert s[1..] == [s[1], s[2], s[3], s[4]];
    assert s[1..][1..] == [s[2], s[3], s[4]];
    assert s[1..][1..][1..] == [s[3], s[4]];
    assert s[1..][1..][1..][1..] == [s[4]];
    FirstTruthyIsFirst(s, UnknownIp);
  }

  // ---------------------------------------------------------------------------------
  // Identifiers

  /** Two requests from the same address share a bucket iff they carry the same user
      key; an unauthenticated request is charged to the address's 'anonymous' bucket. */
  lemma IdentifierSeparatesUsers(a: Request, b: Request)
    requires GetClientIp(a) == GetClientIp(b)
    ensures GetIdentifier(a) == GetIdentifier(b) <==> UserKey(a) == UserKey(b)
    ensures !Truthy(if a.user.Some? then a.user.value.id else None) ==>
      GetIdentifier(a) == GetClientIp(a) + "_anonymous"
  {
    var p := GetClientIp(a) + "_";
    if GetIdentifier(a) == GetIdentifier(b) {
      assert UserKey(a) == GetIdentifier(a)[|p|..];
      assert UserKey(b) == GetIdentifier(b)[|p|..];
    }
  }

  /** The identifier starts with the client address and ends with the user key. */
  lemma IdentifierParts(req: Request)
    ensures |GetIdentifier(req)| == |GetClientIp(req)| + 1 + |UserKey(req)|
    ensures GetIdentifier(req)[..|GetClientIp(req)|] == GetClientIp(req)
    ensures GetIdentifier(req)[|GetClientIp(req)|] == '_'
    ensures GetIdentifier(req)[|GetClientIp(req)| + 1..] == UserKey(req)
  {
  }

  // ---------------------------------------------------------------------------------
  // Skipped paths

  /** Everything under the internal prefix is skipped, including paths that only share
      its spelling ('/api/internals'), while paths below the health endpoints are not. */
  lemma SkippedPaths(req: Request, suffix: string)
    ensures ShouldSkipRateLimiting(req.(path := "/api/internal" + suffix))
    ensures suffix != [] ==> !ShouldSkipRateLimiting(req.(path := "/health" + suffix))
    ensures suffix != [] ==> !ShouldSkipRateLimiting(req.(path := "/api/health" + suffix))
    ensures ShouldSkipRateLimiting(req.(path := "/api/health"))
  {
    assert ("/api/internal" + suffix)[..13] == "/api/internal";
    if suffix != [] {
      var q := "/health" + suffix;
      assert q[1] == 'h';
      assert |q| >= 13 ==> q[..13][1] == 'h';
      var q' := "/api/health" + suffix;
      assert q'[5] == 'h';
      assert |q'| >= 13 ==> q'[..13][5] == 'h';
    }
  }
}
