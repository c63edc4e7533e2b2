/** The security layer the desktop client's LAN web server puts in front
    of its API and SignalR proxy: client address normalisation, the
    local-request bypass, the IP whitelist, the access key (taken from a
    header, a bearer token as in section 2.1 of RFC 6750, or the
    `access_token` query parameter as in section 2.3 of RFC 6750) and the
    200 ms cache of the compiled security settings. */
module WebServer {
  import opened Common
  import opened IpWhitelist
  import opened Utf8

  // ---------------------------------------------------------------------
  // Addresses

  const Loopback: IpAddress := IpAddress(InterNetwork, [127, 0, 0, 1])
  const IPv6Loopback: IpAddress := IpAddress(InterNetworkV6, [0, 0, 0, 0, 0, 0, 0, 0, 0, 0, 0, 0, 0, 0, 0, 1])

  /** An IPv4-mapped IPv6 address `::ffff:a.b.c.d` (section 2.5.5.2 of RFC 4291). */
  predicate IsIPv4MappedToIPv6(a: IpAddress)
  {
    && a.family == InterNetworkV6 && |a.bytes| == 16
    && (forall i :: 0 <= i < 10 ==> a.bytes[i] == 0)
    && a.bytes[10] == 0xFF && a.bytes[11] == 0xFF
  }

  /** The embedded IPv4 address of a mapped address. */
  function MapToIPv4(a: IpAddress): (r: IpAddress)
    requires IsIPv4MappedToIPv6(a)
    ensures r.family == InterNetwork && |r.bytes| == 4
  {
    IpAddress(InterNetwork, a.bytes[12..])
  }

  /** The mapped form of an IPv4 address, as RFC 4291 defines it. */
  function MappedForm(v4: seq<bv8>): IpAddress
    requires |v4| == 4
  {
    IpAddress(InterNetworkV6, seq(10, _ => 0) + [0xFF, 0xFF] + v4)
  }

  /** `NormalizeClientIp`: no address stays none, a mapped address becomes
      its IPv4 address, anything else is kept. */
  function NormalizeClientIp(remote: Option<IpAddress>): (r: Option<IpAddress>)
    ensures r.None? <==> remote.None?
    ensures r.Some? ==> !IsIPv4MappedToIPv6(r.value) || remote.value == r.value
  {
    match remote
    case None => None
    case Some(ip) => if IsIPv4MappedToIPv6(ip) then Some(MapToIPv4(ip)) else Some(ip)
  }

  /** `IPAddress.IsLoopback`: 127/8 for IPv4, `::1` for IPv6. */
  predicate IsLoopback(a: IpAddress)
  {
    if a.family == InterNetwork then |a.bytes| == 4 && a.bytes[0] == 127
    else a == IPv6Loopback
  }

  function Unmap(a: IpAddress): IpAddress
  {
    if IsIPv4MappedToIPv6(a) then MapToIPv4(a) else a
  }

  /** `IsLocalRequest`: loopback, or (after unmapping) one of the machine's own addresses. */
  predicate IsLocalRequest(remote: IpAddress, localIps: set<IpAddress>)
  {
    IsLoopback(remote) || Unmap(remote) in localIps
  }

  /** A network interface as the address enumeration sees it; a missing
      unicast address is `None`. */
  datatype NetworkInterface = NetworkInterface(up: bool, unicast: seq<Option<IpAddress>>)

  /** The unmapped addresses of a list of unicast entries. */
  function AddressSet(unicast: seq<Option<IpAddress>>): set<IpAddress>
  {
    if unicast == [] then {}
    else
      var last := unicast[|unicast| - 1];
      AddressSet(unicast[..|unicast| - 1]) + (if last.Some? then {Unmap(last.value)} else {})
  }

  /** The addresses of the interfaces that are up. */
  function InterfaceAddresses(interfaces: seq<NetworkInterface>): set<IpAddress>
  {
    if interfaces == [] then {}
    else
      var last := interfaces[|interfaces| - 1];
      InterfaceAddresses(interfaces[..|interfaces| - 1]) + (if last.up then AddressSet(last.unicast) else {})
  }

  /** `GetLocalInterfaceAddresses`: every unicast address of every
      interface that is up, unmapped, plus both loopback addresses. */
  method GetLocalInterfaceAddresses(interfaces: seq<NetworkInterface>) returns (addresses: set<IpAddress>)
    ensures addresses == InterfaceAddresses(interfaces) + {Loopback, IPv6Loopback}
  {
    addresses := {};
    for i := 0 to |interfaces|
      invariant addresses == InterfaceAddresses(interfaces[..i])
    {
      var ni := interfaces[i];
      assert interfaces[..i + 1][..i] == interfaces[..i];
      if !ni.up {
        continue;
      }
      ghost var before := addresses;
      for j := 0 to |ni.unicast|
        invariant addresses == before + AddressSet(ni.unicast[..j])
      {
        assert ni.unicast[..j + 1][..j] == ni.unicast[..j];
        var ip := ni.unicast[j];
        if ip.None? {
          continue;
        }
        var a := ip.value;
        if IsIPv4MappedToIPv6(a) {
          a := MapToIPv4(a);
        }
        addresses := addresses + {a};
      }
      assert ni.unicast[..|ni.unicast|] == ni.unicast;
    }
    assert interfaces[..|interfaces|] == interfaces;
    addresses := addresses + {Loopback} + {IPv6Loopback};
  }

  // ---------------------------------------------------------------------
  // Access key

  /** The security settings read from the service; a failed read gives the defaults. */
  datatype SecurityConfig = SecurityConfig(
    enableLanAccess: bool, enableAccessKey: bool, accessKey: string, ipWhitelist: string)

  const DefaultSecurityConfig: SecurityConfig := SecurityConfig(false, false, "", "")

  datatype SecuritySnapshot = SecuritySnapshot(
    config: SecurityConfig, compiledWhitelist: Matcher, expectedAccessKeyBytes: Option<seq<byte>>)

  /** The UTF-8 bytes of the configured key, present only when the key is
      enabled and not blank. */
  function ExpectedAccessKeyBytes(cfg: SecurityConfig): (r: Option<seq<byte>>)
    ensures r.Some? <==> cfg.enableAccessKey && !IsBlank(cfg.accessKey)
    ensures r.Some? ==> r.value != []
  {
    if cfg.enableAccessKey && !IsBlank(cfg.accessKey) then Some(Encode(cfg.accessKey)) else None
  }

  /** The snapshot compiled from a configuration. */
  function BuildSnapshot(cfg: SecurityConfig, parseIp: string -> Option<IpAddress>): SecuritySnapshot
  {
    SecuritySnapshot(cfg, Matcher(ParseRules(WhitelistItems(cfg.ipWhitelist), parseIp)), ExpectedAccessKeyBytes(cfg))
  }

  /** `IsAccessKeyValid`: a non-empty key whose UTF-8 bytes equal the expected ones. */
  predicate IsAccessKeyValid(providedKey: string, expectedKeyBytes: seq<byte>)
  {
    providedKey != [] && |Encode(providedKey)| == |expectedKeyBytes| && Encode(providedKey) == expectedKeyBytes
  }

  const BearerPrefix: string := "Bearer "

  /** The `Authorization` header starts with "Bearer ", ignoring case. */
  predicate IsBearer(authHeader: string)
  {
    |BearerPrefix| <= |authHeader| && EqualsIgnoreCase(authHeader[..|BearerPrefix|], BearerPrefix)
  }

  /** `GetProvidedAccessKey`, with the two headers and the query value as
      the strings the request gives (empty when absent). */
  function GetProvidedAccessKey(xAccessKey: string, authorization: string, accessToken: string): string
  {
    if !IsBlank(xAccessKey) then Trim(xAccessKey)
    else if !IsBlank(authorization) && IsBearer(authorization) && !IsBlank(Trim(authorization[|BearerPrefix|..])) then
      Trim(authorization[|BearerPrefix|..])
    else Trim(accessToken)
  }

  // ---------------------------------------------------------------------
  // The middleware decision

  datatype Request = Request(
    remote: Option<IpAddress>, path: string, httpMethod: string,
    xAccessKey: string, authorization: string, accessToken: string)

  /** What the middleware does: pass the request on, or answer with a status code. */
  datatype Outcome = Next | Forbidden | Unauthorized | Unavailable
  {
    function StatusCode(): (code: Option<int>)
      ensures code.None? <==> this == Next
    {
      match this
      case Next => None
      case Forbidden => Some(403)
      case Unauthorized => Some(401)
      case Unavailable => Some(503)
    }
  }

  /** `PathString.StartsWithSegments` with its default ordinal
      case-insensitive comparison: the whole path, or a prefix followed by '/'. */
  predicate StartsWithSegments(path: string, segment: string)
  {
    && |segment| <= |path|
    && EqualsIgnoreCase(path[..|segment|], segment)
    && (|path| == |segment| || path[|segment|] == '/')
  }

  /** `HttpMethods.IsOptions`. */
  predicate IsOptions(httpMethod: string)
  {
    EqualsIgnoreCase(httpMethod, "OPTIONS")
  }

  predicate IsProtectedPath(path: string)
  {
    StartsWithSegments(path, "/api") || StartsWithSegments(path, "/hubs")
  }

  predicate IsLocal(req: Request, localIps: set<IpAddress>)
  {
    var client := NormalizeClientIp(req.remote);
    client.Some? && IsLocalRequest(client.value, localIps)
  }

  /** The whitelist lets the client through: no rules, or a client address some rule matches. */
  predicate PassesWhitelist(req: Request, m: Matcher)
  {
    var client := NormalizeClientIp(req.remote);
    !m.HasRules() || (client.Some? && m.Allows(client.value))
  }

  /** The access key is checked for this request. */
  predicate KeyChecked(req: Request, cfg: SecurityConfig)
  {
    IsProtectedPath(req.path) && cfg.enableAccessKey && !IsOptions(req.httpMethod)
  }

  function ProvidedKey(req: Request): string
  {
    GetProvidedAccessKey(req.xAccessKey, req.authorization, req.accessToken)
  }

  /** The middleware's decision for one request, given the snapshot it would use. */
  function Decide(req: Request, localIps: set<IpAddress>, snap: SecuritySnapshot): Outcome
  {
    if IsLocal(req, localIps) then Next
    else if !PassesWhitelist(req, snap.compiledWhitelist) then Forbidden
    else if KeyChecked(req, snap.config) then
      if snap.expectedAccessKeyBytes.None? then Unavailable
      else if !IsAccessKeyValid(ProvidedKey(req), snap.expectedAccessKeyBytes.value) then Unauthorized
      else Next
    else Next
  }

  // ---------------------------------------------------------------------
  // The middleware with its snapshot cache

  /** Ticks of 100 ns, as `DateTimeOffset` counts them; 200 ms. */
  const SnapshotWindowTicks: int := 200 * 10_000

  /** A snapshot taken at `at` may still be used at `now`. */
  predicate IsFresh(snapshot: Option<SecuritySnapshot>, at: int, now: int)
  {
    snapshot.Some? && now - at <= SnapshotWindowTicks
  }

  class SecurityMiddleware {
    const localIps: set<IpAddress>
    var snapshot: Option<SecuritySnapshot>
    var snapshotAt: int

    /** Every cached whitelist was compiled, so all its rules are well formed. */
    predicate Valid()
      reads this
    {
      snapshot.Some? ==> snapshot.value.compiledWhitelist.AllValid()
    }

    constructor(localIps: set<IpAddress>)
      ensures Valid() && this.localIps == localIps && snapshot.None? && snapshotAt == 0
    {
      this.localIps := localIps;
      snapshot := None;
      snapshotAt := 0;
    }

    /** `GetSnapshotAsync`: reuse a snapshot at most 200 ms old (checked
        before and again after taking the lock, at the two clock readings
        `now` and `nowLocked`), otherwise compile `cfg` and remember it. */
    method GetSnapshot(now: int, nowLocked: int, cfg: SecurityConfig, parseIp: string -> Option<IpAddress>)
      returns (s: SecuritySnapshot)
      requires Valid()
      modifies this
      ensures Valid() && snapshot == Some(s)
      ensures IsFresh(old(snapshot), old(snapshotAt), now) || IsFresh(old(snapshot), old(snapshotAt), nowLocked) ==>
                s == old(snapshot).value && snapshotAt == old(snapshotAt)
      ensures !IsFresh(old(snapshot), old(snapshotAt), now) && !IsFresh(old(snapshot), old(snapshotAt), nowLocked) ==>
                s == BuildSnapshot(cfg, parseIp) && snapshotAt == nowLocked
    {
      if snapshot.Some? && now - snapshotAt <= SnapshotWindowTicks {
        return snapshot.value;
      }
      if snapshot.Some? && nowLocked - snapshotAt <= SnapshotWindowTicks {
        return snapshot.value;
      }
      var compiled := Parse(cfg.ipWhitelist, parseIp);
      var expected := if cfg.enableAccessKey && !IsBlank(cfg.accessKey) then Some(Encode(cfg.accessKey)) else None;
      s := SecuritySnapshot(cfg, compiled, expected);
      snapshot := Some(s);
      snapshotAt := nowLocked;
    }

    /** The middleware: local requests pass without touching the cache;
        any other request is decided against the (possibly refreshed) snapshot. */
    method Handle(req: Request, now: int, nowLocked: int, cfg: SecurityConfig, parseIp: string -> Option<IpAddress>)
      returns (outcome: Outcome)
      requires Valid()
      modifies this
      ensures Valid()
      ensures IsLocal(req, localIps) ==> outcome == Next && snapshot == old(snapshot) && snapshotAt == old(snapshotAt)
      ensures !IsLocal(req, localIps) ==> snapshot.Some? && outcome == Decide(req, localIps, snapshot.value)
    {
      var clientAddress := NormalizeClientIp(req.remote);
      var isLocalRequest := clientAddress.Some? && IsLocalRequest(clientAddress.value, localIps);
      if isLocalRequest {
        return Next;
      }
      var current := GetSnapshot(now, nowLocked, cfg, parseIp);
      assert snapshot == Some(current);
      var passes := true;
      if current.compiledWhitelist.HasRules() {
        var allowed := false;
        if clientAddress.Some? {
          allowed := IsAllowed(current.compiledWhitelist, clientAddress.value);
        }
        passes := allowed;
      }
      assert passes == PassesWhitelist(req, current.compiledWhitelist);
      if !passes {
        return Forbidden;
      }
      var isProtectedPath := StartsWithSegments(req.path, "/api") || StartsWithSegments(req.path, "/hubs");
      if isProtectedPath && current.config.enableAccessKey && !IsOptions(req.httpMethod) {
        assert KeyChecked(req, current.config);
        if current.expectedAccessKeyBytes.None? {
          return Unavailable;
        }
        var providedKey := GetProvidedAccessKey(req.xAccessKey, req.authorization, req.accessToken);
        if !IsAccessKeyValid(providedKey, current.expectedAccessKeyBytes.value) {
          return Unauthorized;
        }
      }
      return Next;
    }
  }

  // ---------------------------------------------------------------------
  // Properties

  /** A key is accepted against a configured key exactly when it is that key. */
  lemma AccessKeyValidIffEqual(providedKey: string, accessKey: string)
    ensures IsAccessKeyValid(providedKey, Encode(accessKey)) <==> providedKey != [] && providedKey == accessKey
  {
    EncodeInjective(providedKey, accessKey);
  }

  /** The provided key never has surrounding white space. */
  lemma ProvidedKeyIsTrimmed(xAccessKey: string, authorization: string, accessToken: string)
    ensures var key := GetProvidedAccessKey(xAccessKey, authorization, accessToken); Trim(key) == key
  {
    var key := GetProvidedAccessKey(xAccessKey, authorization, accessToken);
    if !IsBlank(xAccessKey) {
      assert key == Trim(xAccessKey);
      TrimIdempotent(xAccessKey);
    } else if !IsBlank(authorization) && IsBearer(authorization) && !IsBlank(Trim(authorization[|BearerPrefix|..])) {
      assert key == Trim(authorization[|BearerPrefix|..]);
      TrimIdempotent(authorization[|BearerPrefix|..]);
    } else {
      assert key == Trim(accessToken);
      TrimIdempotent(accessToken);
    }
  }

  /** The empty key is never accepted. */
  lemma EmptyKeyNeverValid(expectedKeyBytes: seq<byte>)
    ensures !IsAccessKeyValid("", expectedKeyBytes)
  {
  }

  /** A non-blank `X-Access-Key` header wins over everything else. */
  lemma HeaderKeyFirst(xAccessKey: string, authorization: string, accessToken: string)
    requires !IsBlank(xAccessKey)
    ensures GetProvidedAccessKey(xAccessKey, authorization, accessToken) == Trim(xAccessKey)
    ensures GetProvidedAccessKey(xAccessKey, authorization, accessToken) != []
  {
    BlankIffTrimEmpty(xAccessKey);
  }

  /** The scheme name in lower case matches the prefix. */
  lemma LowerBearerPrefix()
    ensures EqualsIgnoreCase("bearer ", BearerPrefix)
  {
    var a, b := ToLower("bearer "), ToLower(BearerPrefix);
    assert forall i :: 0 <= i < 7 ==> a[i] == b[i];
  }

  /** A bearer header whose token trims to something non-empty gives that
      token when there is no header key. */
  lemma BearerHeaderKey(header: string, accessToken: string)
    requires IsBearer(header) && Trim(header[|BearerPrefix|..]) != []
    ensures GetProvidedAccessKey("", header, accessToken) == Trim(header[|BearerPrefix|..])
  {
    TrimmedNotBlank(header, |BearerPrefix|);
  }

  /** A suffix that trims to something non-empty is not blank, nor is its
      trimmed form or the whole string. */
  lemma TrimmedNotBlank(s: string, k: nat)
    requires k <= |s| && Trim(s[k..]) != []
    ensures !IsBlank(s) && !IsBlank(s[k..]) && !IsBlank(Trim(s[k..]))
  {
    var suffix := s[k..];
    BlankIffTrimEmpty(suffix);
    TrimIdempotent(suffix);
    BlankIffTrimEmpty(Trim(suffix));
    SuffixNotBlank(s, k);
  }

  lemma SuffixNotBlank(s: string, k: nat)
    requires k <= |s| && !IsBlank(s[k..])
    ensures !IsBlank(s)
  {
    var i :| 0 <= i < |s[k..]| && !IsWhiteSpace(s[k..][i]);
    assert s[k + i] == s[k..][i];
  }

  /** Without that header, a non-empty bearer token is used, whatever the
      case of the scheme name. */
  lemma BearerKeySecond(token: string, accessToken: string)
    requires Trim(token) != []
    ensures GetProvidedAccessKey("", "bearer " + token, accessToken) == Trim(token)
    ensures GetProvidedAccessKey("", BearerPrefix + token, accessToken) == Trim(token)
  {
    var lower := "bearer " + token;
    var upper := BearerPrefix + token;
    assert lower[|BearerPrefix|..] == token && upper[|BearerPrefix|..] == token;
    assert lower[..|BearerPrefix|] == "bearer " && upper[..|BearerPrefix|] == BearerPrefix;
    LowerBearerPrefix();
    BearerHeaderKey(lower, accessToken);
    BearerHeaderKey(upper, accessToken);
  }

  /** With neither a header key nor a usable bearer token, the trimmed query value is used, even when empty. */
  lemma QueryKeyLast(xAccessKey: string, authorization: string, accessToken: string)
    requires IsBlank(xAccessKey)
    requires !IsBearer(authorization) || IsBlank(Trim(authorization[|BearerPrefix|..]))
    ensures GetProvidedAccessKey(xAccessKey, authorization, accessToken) == Trim(accessToken)
  {
  }

  /** The mapped form of an IPv4 address normalises back to that address. */
  lemma NormalizeMappedForm(v4: seq<bv8>)
    requires |v4| == 4
    ensures IsIPv4MappedToIPv6(MappedForm(v4))
    ensures NormalizeClientIp(Some(MappedForm(v4))) == Some(IpAddress(InterNetwork, v4))
  {
    var m := MappedForm(v4);
    assert m.bytes[12..] == v4;
  }

  /** Normalising twice changes nothing more. */
  lemma NormalizeIdempotent(remote: Option<IpAddress>)
    ensures NormalizeClientIp(NormalizeClientIp(remote)) == NormalizeClientIp(remote)
  {
  }

  /** Both loopback addresses, also in mapped form, are local. */
  lemma LoopbackIsLocal(localIps: set<IpAddress>, a: IpAddress)
    requires IsLoopback(a) || IsLoopback(Unmap(a))
    ensures IsLocalRequest(NormalizeClientIp(Some(a)).value, localIps)
  {
  }

  /** The address set holds exactly the unmapped present entries. */
  lemma {:induction false} AddressSetMembers(unicast: seq<Option<IpAddress>>, a: IpAddress)
    ensures a in AddressSet(unicast) <==>
            exists i :: 0 <= i < |unicast| && unicast[i].Some? && Unmap(unicast[i].value) == a
  {
    if unicast != [] {
      var init := unicast[..|unicast| - 1];
      AddressSetMembers(init, a);
      if a in AddressSet(init) {
        var i :| 0 <= i < |init| && init[i].Some? && Unmap(init[i].value) == a;
        assert unicast[i] == init[i];
      }
      if exists i :: 0 <= i < |unicast| && unicast[i].Some? && Unmap(unicast[i].value) == a {
        var i :| 0 <= i < |unicast| && unicast[i].Some? && Unmap(unicast[i].value) == a;
        if i < |init| { assert init[i] == unicast[i]; }
      }
    }
  }

  /** A local request is passed on whatever the settings. */
  lemma LocalRequestsBypass(req: Request, localIps: set<IpAddress>, snap: SecuritySnapshot)
    requires IsLocal(req, localIps)
    ensures Decide(req, localIps, snap) == Next
  {
  }

  /** 403 is answered exactly to non-local requests the whitelist refuses,
      which needs at least one rule. */
  lemma ForbiddenIff(req: Request, localIps: set<IpAddress>, snap: SecuritySnapshot)
    ensures Decide(req, localIps, snap) == Forbidden <==>
            && !IsLocal(req, localIps)
            && snap.compiledWhitelist.HasRules()
            && (NormalizeClientIp(req.remote).None? || !snap.compiledWhitelist.Allows(NormalizeClientIp(req.remote).value))
  {
  }

  /** The key is never asked for outside `/api` and `/hubs`, for OPTIONS, or when it is disabled. */
  lemma KeyOnlyOnProtectedPaths(req: Request, localIps: set<IpAddress>, snap: SecuritySnapshot)
    requires !IsProtectedPath(req.path) || IsOptions(req.httpMethod) || !snap.config.enableAccessKey
    ensures Decide(req, localIps, snap) in {Next, Forbidden}
  {
  }

  /** End to end, for a snapshot compiled from the settings: a request
      passes iff it is local, or it passes the whitelist and, when the key
      is checked, a key is configured and the request carries exactly it.
      With the key checked but none configured the answer is 503. */
  lemma DecisionForSettings(req: Request, localIps: set<IpAddress>, cfg: SecurityConfig,
                            parseIp: string -> Option<IpAddress>)
    ensures var snap := BuildSnapshot(cfg, parseIp);
            Decide(req, localIps, snap) == Next <==>
            || IsLocal(req, localIps)
            || (&& PassesWhitelist(req, snap.compiledWhitelist)
                && (KeyChecked(req, cfg) ==>
                      !IsBlank(cfg.accessKey) && ProvidedKey(req) != [] && ProvidedKey(req) == cfg.accessKey))
    ensures var snap := BuildSnapshot(cfg, parseIp);
            Decide(req, localIps, snap) == Unavailable <==>
            !IsLocal(req, localIps) && PassesWhitelist(req, snap.compiledWhitelist) &&
            KeyChecked(req, cfg) && IsBlank(cfg.accessKey)
  {
    AccessKeyValidIffEqual(ProvidedKey(req), cfg.accessKey);
  }

  /** Snapshots built from the settings always hold well-formed rules. */
  lemma BuiltSnapshotIsValid(cfg: SecurityConfig, parseIp: string -> Option<IpAddress>)
    ensures BuildSnapshot(cfg, parseIp).compiledWhitelist.AllValid()
  {
    ParsedRulesAreValid(WhitelistItems(cfg.ipWhitelist), parseIp);
  }
}
