/**
 * The request gate: the middleware that runs before every request and decides
 * whether the request is monitored, which client it is counted against, and
 * whether it is refused with 403 "TooManyHits" or handed to the next stage.
 */
module Gate {
  import opened Wrappers
  import opened Text
  import opened RateLimit
  import opened Monitoring

  /**
   * The X-Forwarded-For header of a request: absent, present but not an IP
   * address, or an address, given in the textual IPv4 form that is the client id.
   */
  datatype ForwardedFor = Absent | Malformed | Address(ip: string)

  /**
   * What the gate reads of a request: the HTTP method, the path (empty when the
   * request has none), the forwarded-for header and the transport-level remote
   * address (None when the connection has none), again in textual IPv4 form.
   */
  datatype Request = Request(httpMethod: string, path: string, forwardedFor: ForwardedFor, remoteAddress: Option<string>)

  /** The exceptions that escape the gate. */
  datatype Fault =
    | SubstringOutOfRange    // no "api/" and a path shorter than three characters
    | MalformedForwardedFor  // the forwarded-for header does not parse as an IP address
    | NoRemoteAddress        // no header and no remote address: the hit check dereferences null

  /**
   * What becomes of a request: handed to the next stage (exactly once), answered
   * directly with a status and a body, or ended by an exception.
   */
  datatype Outcome = Forward | Respond(status: int, body: string) | Throw(fault: Fault)

  const Forbidden: int := 403
  const TooManyHits: string := "TooManyHits"

  /** The path as the matcher sees it: lower-cased, with backslashes turned into slashes. */
  function NormalisedPath(path: string): (r: string)
    ensures |r| == |path|
  {
    ReplaceChar(ToLower(path), '\\', '/')
  }

  /**
   * The string matched against the registry: the upper-cased method, a space,
   * and the normalised path after its first "api/". When there is no "api/" the
   * search result -1 plus 4 cuts the first three characters instead, and a path
   * shorter than that makes the cut throw.
   */
  function RequestKey(httpMethod: string, path: string): (r: Result<string, Fault>)
    ensures r.Err? ==> r.error == SubstringOutOfRange
    ensures r.Ok? ==> ToUpper(httpMethod) + " " <= r.value
  {
    var p := NormalisedPath(path);
    var start := IndexOf(p, "api/") + 4;
    if start > |p| then Err(SubstringOutOfRange) else Ok(ToUpper(httpMethod) + " " + p[start..])
  }

  /**
   * What RequestKey cuts: everything through the first "api/" of the normalised
   * path; without "api/", the first three characters, and it throws exactly
   * when the path is shorter than three characters.
   */
  lemma RequestKeyCut(httpMethod: string, path: string)
    ensures RequestKey(httpMethod, path).Err? <==> !Contains(NormalisedPath(path), "api/") && |path| < 3
    ensures forall i :: OccursAt(NormalisedPath(path), "api/", i)
                        && (forall j :: 0 <= j < i ==> !OccursAt(NormalisedPath(path), "api/", j)) ==>
              RequestKey(httpMethod, path) == Ok(ToUpper(httpMethod) + " " + NormalisedPath(path)[i + 4..])
    ensures !Contains(NormalisedPath(path), "api/") && |path| >= 3 ==>
              RequestKey(httpMethod, path) == Ok(ToUpper(httpMethod) + " " + NormalisedPath(path)[3..])
  {
  }

  /**
   * Whether a request is monitored (IsPathDDosAttackMonitored): never without a
   * path, always under full-service protection, and otherwise exactly when the
   * request key contains some registry entry as a substring.
   */
  function Monitored(fullServiceLevelProtection: bool, calls: seq<string>, httpMethod: string, path: string)
    : (r: Result<bool, Fault>)
    ensures r == Ok(true) ==> |path| > 0
    ensures r.Err? ==> r.error == SubstringOutOfRange && |path| > 0 && !fullServiceLevelProtection
  {
    if |path| == 0 then Ok(false)
    else if fullServiceLevelProtection then Ok(true)
    else
      match RequestKey(httpMethod, path)
      case Err(f) => Err(f)
      case Ok(key) => Ok(exists i | 0 <= i < |calls| :: Contains(key, calls[i]))
  }

  /** IsPathDDosAttackMonitored as the source runs it: a search of the registry that stops at the first hit. */
  method IsPathMonitored(fullServiceLevelProtection: bool, calls: seq<string>, httpMethod: string, path: string)
    returns (r: Result<bool, Fault>)
    ensures r == Monitored(fullServiceLevelProtection, calls, httpMethod, path)
  {
    if |path| == 0 {
      return Ok(false);
    }
    if fullServiceLevelProtection {
      return Ok(true);
    }
    var key := RequestKey(httpMethod, path);
    if key.Err? {
      return Err(key.error);
    }
    for i := 0 to |calls|
      invariant forall k :: 0 <= k < i ==> !Contains(key.value, calls[k])
    {
      if Contains(key.value, calls[i]) {
        return Ok(true);
      }
    }
    return Ok(false);
  }

  /**
   * The client a request is counted against: the forwarded-for address when the
   * header is present, the remote address otherwise.
   */
  function ClientId(remoteAddress: Option<string>, forwardedFor: ForwardedFor): (r: Result<string, Fault>)
    ensures forwardedFor.Address? ==> r == Ok(forwardedFor.ip)
    ensures forwardedFor.Malformed? ==> r == Err(MalformedForwardedFor)
    ensures forwardedFor.Absent? && remoteAddress.Some? ==> r == Ok(remoteAddress.value)
    ensures forwardedFor.Absent? && remoteAddress.None? ==> r == Err(NoRemoteAddress)
  {
    match forwardedFor
    case Address(ip) => Ok(ip)
    case Malformed => Err(MalformedForwardedFor)
    case Absent => if remoteAddress.Some? then Ok(remoteAddress.value) else Err(NoRemoteAddress)
  }

  /** One request through the gate (Invoke): its outcome and the limiter's next state. */
  function Handle(config: Config, s: MonitorState, req: Request): (r: (Outcome, MonitorState))
    ensures r.0.Respond? ==> r.0 == Respond(Forbidden, TooManyHits)
    ensures r.0.Throw? || !config.enabled ==> r.1 == s
    ensures s.banned <= r.1.banned
  {
    if !config.enabled then (Forward, s)
    else
      match Monitored(config.fullServiceLevelProtection, config.protectedCalls, req.httpMethod, req.path)
      case Err(f) => (Throw(f), s)
      case Ok(monitored) =>
        if !monitored then (Forward, s)
        else
          match ClientId(req.remoteAddress, req.forwardedFor)
          case Err(f) => (Throw(f), s)
          case Ok(ip) =>
            var t := Hit(s, ip, config.maxHitsPerOrigin);
            (if ip in t.banned then Respond(Forbidden, TooManyHits) else Forward, t)
  }

  /** A sequence of requests through the gate, with no timer tick in between. */
  function Run(config: Config, s: MonitorState, reqs: seq<Request>): (seq<Outcome>, MonitorState)
    decreases |reqs|
  {
    if reqs == [] then ([], s)
    else
      var (o, t) := Handle(config, s, reqs[0]);
      var (os, u) := Run(config, t, reqs[1..]);
      ([o] + os, u)
  }

  // ---------------------------------------------------------------------------
  // Properties of the decision

  /** A request without a path is never monitored, even under full-service protection; with a path, full-service protection always monitors it. */
  lemma PathlessNeverMonitored(fullServiceLevelProtection: bool, calls: seq<string>, httpMethod: string, path: string)
    ensures |path| == 0 ==> Monitored(fullServiceLevelProtection, calls, httpMethod, path) == Ok(false)
    ensures |path| > 0 && fullServiceLevelProtection ==> Monitored(fullServiceLevelProtection, calls, httpMethod, path) == Ok(true)
  {
  }

  /** The upper-case of "GET" is "GET". */
  lemma UpperGet(m: string)
    requires m == "GET"
    ensures ToUpper(m) == "GET"
  {
    var u := ToUpper(m);
    assert u[0] == 'G' && u[1] == 'E' && u[2] == 'T';
  }

  /** A path that starts with "/api/" normalises to itself and has its first "api/" at index 1. */
  lemma ApiPathPrefix(path: string)
    requires |path| >= 5 && path[..5] == "/api/"
    requires forall i :: 0 <= i < |path| ==> !('A' <= path[i] <= 'Z') && path[i] != '\\'
    ensures NormalisedPath(path) == path
    ensures RequestKey("GET", path) == Ok("GET " + path[5..])
  {
    LowerOfLower(path);
    ReplaceAbsentChar(path, '\\', '/');
    assert path[0] == '/' && path[1..5] == "api/";
    assert !OccursAt(NormalisedPath(path), "api/", 0) && OccursAt(NormalisedPath(path), "api/", 1);
    RequestKeyCut("GET", path);
    UpperGet("GET");
    assert ToUpper("GET") + " " + path[5..] == "GET " + path[5..];
  }

  /**
   * The key ignores letter case: upper-casing the method or lower-casing the
   * path beforehand gives the same key, or the same fault.
   */
  lemma KeyIgnoresCase(httpMethod: string, path: string)
    ensures RequestKey(httpMethod, path) == RequestKey(ToUpper(httpMethod), ToLower(path))
  {
    ToLowerIdempotent(path);
    ToUpperIdempotent(httpMethod);
  }

  /** Without full-service protection, a request with a path is monitored exactly when its key contains an entry. */
  lemma MonitoredByKey(calls: seq<string>, httpMethod: string, path: string, key: string)
    requires |path| > 0 && RequestKey(httpMethod, path) == Ok(key)
    ensures Monitored(false, calls, httpMethod, path) == Ok(exists i | 0 <= i < |calls| :: Contains(key, calls[i]))
  {
  }

  /**
   * Matching is substring containment: every GET request whose (lower-case)
   * path starts with /api/info, such as /api/info itself or /api/information,
   * is monitored by the entry "GET info".
   */
  lemma InfoPrefixMatches(calls: seq<string>, path: string)
    requires calls == ["GET info"]
    requires |path| >= 9 && path[..9] == "/api/info"
    requires forall i :: 0 <= i < |path| ==> !('A' <= path[i] <= 'Z') && path[i] != '\\'
    ensures Monitored(false, calls, "GET", path) == Ok(true)
  {
    var k := "GET " + path[5..];
    assert RequestKey("GET", path) == Ok(k) by {
      ApiPathPrefix(path);
    }
    assert Contains(k, calls[0]) by {
      assert path[5..9] == "info";
      assert k[..8] == "GET " + path[5..9];
      assert OccursAt(k, calls[0], 0);
    }
    MonitoredByKey(calls, "GET", path, k);
  }

  /** GET /api/info itself is monitored by the entry "GET info". */
  lemma InfoPathMonitored(calls: seq<string>, path: string)
    requires calls == ["GET info"] && path == "/api/info"
    ensures Monitored(false, calls, "GET", path) == Ok(true)
  {
    assert |path| == 9 && path[..9] == "/api/info";
    assert forall i :: 0 <= i < |path| ==> !('A' <= path[i] <= 'Z') && path[i] != '\\' by {
      forall i | 0 <= i < |path| ensures !('A' <= path[i] <= 'Z') && path[i] != '\\' {
        assert path[i] in "/apinfo";
      }
    }
    InfoPrefixMatches(calls, path);
  }

  /** GET /api/v1/info normalises to "GET v1/info", which does not contain "GET info": it is not monitored. */
  lemma NestedPathDoesNotMatch(calls: seq<string>, path: string)
    requires calls == ["GET info"] && path == "/api/v1/info"
    ensures Monitored(false, calls, "GET", path) == Ok(false)
  {
    var e := calls[0];
    var k := "GET " + path[5..];
    assert RequestKey("GET", path) == Ok(k) by {
      ApiPathPrefix(path);
    }
    assert !Contains(k, e) by {
      assert k == "GET v1/info";
      forall i | 0 <= i <= |k| - |e| ensures !OccursAt(k, e, i) {
        if i == 0 {
          assert k[i..i + |e|][4] != e[4];
        } else {
          assert k[i..i + |e|][0] != e[0];
        }
      }
    }
    MonitoredByKey(calls, "GET", path, k);
  }

  /**
   * A request is refused exactly when the gate is enabled, the request is
   * monitored, its client resolves, and after recording the hit that client is
   * on the ban stack; a refusal is always 403 with the body "TooManyHits", and
   * every other request that does not throw is forwarded.
   */
  lemma RefusedIffBanned(config: Config, s: MonitorState, req: Request)
    ensures var (o, t) := Handle(config, s, req);
      && (o.Respond? <==>
            && config.enabled
            && Monitored(config.fullServiceLevelProtection, config.protectedCalls, req.httpMethod, req.path) == Ok(true)
            && ClientId(req.remoteAddress, req.forwardedFor).Ok?
            && ClientId(req.remoteAddress, req.forwardedFor).value in t.banned)
      && (o.Respond? ==> o == Respond(403, "TooManyHits"))
  {
  }

  /**
   * A monitored request from a resolvable client records exactly one hit for
   * that client, whatever else happens (so even the request that causes a ban is
   * counted); this includes every request with a path under full-service protection.
   * It is refused exactly when that hit leaves the client on the ban stack.
   */
  lemma MonitoredRequestIsCounted(config: Config, s: MonitorState, req: Request, ip: string)
    requires config.enabled
    requires Monitored(config.fullServiceLevelProtection, config.protectedCalls, req.httpMethod, req.path) == Ok(true)
    requires ClientId(req.remoteAddress, req.forwardedFor) == Ok(ip)
    ensures Handle(config, s, req).1 == Hit(s, ip, config.maxHitsPerOrigin)
    ensures Handle(config, s, req).0 ==
      if ip in Hit(s, ip, config.maxHitsPerOrigin).banned then Respond(Forbidden, TooManyHits) else Forward
  {
  }

  /**
   * The forwarded-for address wins over the remote address: a monitored
   * request that carries one records its hit under that address, whatever the
   * remote address is (even when there is none), and no other counter moves.
   */
  lemma ForwardedForWins(config: Config, s: MonitorState, req: Request, ip: string)
    requires config.enabled
    requires Monitored(config.fullServiceLevelProtection, config.protectedCalls, req.httpMethod, req.path) == Ok(true)
    requires req.forwardedFor == Address(ip)
    ensures Handle(config, s, req).1 == Hit(s, ip, config.maxHitsPerOrigin)
    ensures forall k :: k != ip && k in s.counts ==> Handle(config, s, req).1.counts[k] == s.counts[k]
  {
    MonitoredRequestIsCounted(config, s, req, ip);
  }

  /**
   * With a threshold of 3, a monitored client's first three requests from a
   * fresh limiter are forwarded and counted 1, 2, 3; the fourth is refused and
   * puts the client on the ban stack with its count cleared; once the ban is
   * released the next request is forwarded and counted from 1 again.
   */
  lemma ThresholdOfThree(config: Config, req: Request, ip: string)
    requires config.enabled && config.maxHitsPerOrigin == 3
    requires Monitored(config.fullServiceLevelProtection, config.protectedCalls, req.httpMethod, req.path) == Ok(true)
    requires ClientId(req.remoteAddress, req.forwardedFor) == Ok(ip)
    ensures Handle(config, Initial, req) == (Forward, MonitorState(map[ip := 1], []))
    ensures Handle(config, MonitorState(map[ip := 1], []), req) == (Forward, MonitorState(map[ip := 2], []))
    ensures Handle(config, MonitorState(map[ip := 2], []), req) == (Forward, MonitorState(map[ip := 3], []))
    ensures Handle(config, MonitorState(map[ip := 3], []), req)
            == (Respond(Forbidden, TooManyHits), MonitorState(map[], [ip]))
    ensures Released(MonitorState(map[], [ip])) == Initial
  {
    MonitoredRequestIsCounted(config, Initial, req, ip);
    assert Initial.counts[ip := 1] == map[ip := 1];
    MonitoredRequestIsCounted(config, MonitorState(map[ip := 1], []), req, ip);
    assert Inc16(1) == 2 && map[ip := 1][ip := 2] == map[ip := 2];
    MonitoredRequestIsCounted(config, MonitorState(map[ip := 2], []), req, ip);
    assert Inc16(2) == 3 && map[ip := 2][ip := 3] == map[ip := 3];
    MonitoredRequestIsCounted(config, MonitorState(map[ip := 3], []), req, ip);
    assert map[ip := 3] - {ip} == map[] && [] + [ip] == [ip];
  }

  /** With the monitor disabled, any number of requests are all forwarded and the limiter is left as it was. */
  lemma {:induction false} DisabledForwardsAll(config: Config, s: MonitorState, reqs: seq<Request>)
    requires !config.enabled
    ensures Run(config, s, reqs).1 == s
    ensures |Run(config, s, reqs).0| == |reqs|
    ensures forall i :: 0 <= i < |reqs| ==> Run(config, s, reqs).0[i] == Forward
    decreases |reqs|
  {
    if reqs != [] {
      DisabledForwardsAll(config, s, reqs[1..]);
    }
  }

  /**
   * Requests that are not monitored are all forwarded, however many there are,
   * and never touch the hit counter or the ban stack.
   */
  lemma {:induction false} UnmonitoredLeavesStateAlone(config: Config, s: MonitorState, reqs: seq<Request>)
    requires forall i :: 0 <= i < |reqs| ==>
      Monitored(config.fullServiceLevelProtection, config.protectedCalls, reqs[i].httpMethod, reqs[i].path) == Ok(false)
    ensures Run(config, s, reqs).1 == s
    ensures |Run(config, s, reqs).0| == |reqs|
    ensures forall i :: 0 <= i < |reqs| ==> Run(config, s, reqs).0[i] == Forward
    decreases |reqs|
  {
    if reqs != [] {
      UnmonitoredLeavesStateAlone(config, s, reqs[1..]);
    }
  }

  // ---------------------------------------------------------------------------
  // The middleware

  class DDosAttackStopMiddleware {
    const service: DDosAttackMonitoringService

    constructor (service: DDosAttackMonitoringService)
      ensures this.service == service
    {
      this.service := service;
    }

    /** Invoke: the gate's decision for one request, updating the service's hit counter and ban stack. */
    method Invoke(req: Request) returns (outcome: Outcome)
      requires service.Valid()
      modifies service
      ensures service.Valid()
      ensures (outcome, service.State()) == Handle(service.config, old(service.State()), req)
    {
      if service.config.enabled {
        var monitored := IsPathMonitored(service.config.fullServiceLevelProtection, service.config.protectedCalls,
                                         req.httpMethod, req.path);
        match monitored
        case Err(f) =>
          outcome := Throw(f);
        case Ok(isMonitored) =>
          if isMonitored {
            var id := ClientId(req.remoteAddress, req.forwardedFor);
            match id
            case Err(f) =>
              outcome := Throw(f);
            case Ok(ip) =>
              var terminateRequest := service.IsDDosAttack(ip);
              if terminateRequest {
                outcome := Respond(Forbidden, TooManyHits);
              } else {
                outcome := Forward;
              }
          } else {
            outcome := Forward;
          }
      } else {
        outcome := Forward;
      }
    }
  }

  // ---------------------------------------------------------------------------
  // Scenarios, played against the service and the middleware

  /**
   * With a threshold of 3 and the service's registry (InfoController.ApiInfo),
   * three requests to GET /api/info from one client are forwarded and the
   * fourth is refused with 403 "TooManyHits"; after one release tick the next
   * request from that client is forwarded again and counted afresh.
   */
  method TooManyHitsScenario(ip: string) returns (outcomes: seq<Outcome>)
    ensures outcomes == [Forward, Forward, Forward, Respond(403, "TooManyHits"), Forward]
  {
    var service := new DDosAttackMonitoringService(true, false, 3, [Handler(["GET"], "InfoController", None)]);
    var gate := new DDosAttackStopMiddleware(service);
    var req := Request("GET", "/api/info", Absent, Some(ip));
    var config := service.config;
    assert config.enabled && config.maxHitsPerOrigin == 3;
    assert config.protectedCalls == ["GET info"] by {
      InfoControllerEntry();
    }
    assert Monitored(config.fullServiceLevelProtection, config.protectedCalls, req.httpMethod, req.path) == Ok(true) by {
      InfoPathMonitored(config.protectedCalls, req.path);
    }
    assert ClientId(req.remoteAddress, req.forwardedFor) == Ok(ip);

    ThresholdOfThree(config, req, ip);
    var o1 := gate.Invoke(req);
    var o2 := gate.Invoke(req);
    var o3 := gate.Invoke(req);
    var o4 := gate.Invoke(req);
    service.ReleaseOne();
    var o5 := gate.Invoke(req);
    outcomes := [o1, o2, o3, o4, o5];
  }

  /**
   * Under full-service protection a request to a path outside the registry is
   * counted, and it is counted against the X-Forwarded-For address, not the
   * remote address.
   */
  method ForwardedForScenario() returns (outcome: Outcome, counts: map<string, int16>)
    ensures outcome == Forward
    ensures counts == map["203.0.113.7" := 1]
  {
    var service := new DDosAttackMonitoringService(true, true, 3, []);
    var gate := new DDosAttackStopMiddleware(service);
    outcome := gate.Invoke(Request("GET", "/api/randomthing", Address("203.0.113.7"), Some("10.0.0.1")));
    counts := service.ipAddresses;
  }
}
