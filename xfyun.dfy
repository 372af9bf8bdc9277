/** The xfyun (Spark) adapter's client configuration: the key triple, the
    model domain derived from the version at the end of the base URL, the
    HMAC-signed request line, and the signed WebSocket and HTTP URLs. HMAC,
    base64, URL escaping and the GMT date are parameters of the model. */
module Xfyun {
  import opened Canonical
  import opened Strings
  import opened Common

  const DefaultOriginalUrl: string := "https://spark-api.xf-yun.com"
  const DefaultOriginalHost: string := "spark-api.xf-yun.com"
  const DefaultBaseUrl: string := "https://spark-api.xf-yun.com/v4.0"
  const DefaultPath: string := "/chat"
  const DefaultDomain: string := "4.0Ultra"
  /** The origin `getHttpUrl` switches the client to before signing. */
  const ImageOriginalUrl: string := "https://spark-api.cn-huabei-1.xf-yun.com"
  const ImageOriginalHost: string := "spark-api.cn-huabei-1.xf-yun.com"
  const DefaultMaxTokens: int := 4096

  /** The primitives the signing code calls into. */
  datatype Codecs = Codecs(
    hmacSha256Base64: (string, string) -> string, // key, message -> base64 of the MAC
    base64: string -> string,
    urlEncode: string -> string)

  // ---------------------------------------------------------------------
  // Key and domain

  /** The key is `appId|secret|key`; with fewer than three pieces the
      constructor indexes past the end of the split. */
  function KeyParts(key: string): Outcome<(string, string, string)> {
    var ps := Split(key, "|");
    if |ps| < 3 then Panic("index out of range") else Ok((ps[0], ps[1], ps[2]))
  }

  /** Splitting a key assembled from three parts gives the parts back, and
      anything after a third `|` is ignored. */
  lemma KeyPartsRoundTrip(appId: string, secret: string, key: string, extra: string)
    requires forall i :: 0 <= i < |appId| ==> appId[i] != '|'
    requires forall i :: 0 <= i < |secret| ==> secret[i] != '|'
    requires forall i :: 0 <= i < |key| ==> key[i] != '|'
    ensures KeyParts(appId + "|" + (secret + "|" + key)) == Ok((appId, secret, key))
    ensures KeyParts(appId + "|" + (secret + "|" + (key + "|" + extra))) == Ok((appId, secret, key))
  {
    AbsentCharNoOccurrence(key, "|", 0);
    SplitAbsent(key, "|");
    SplitAtBar(secret, key);
    SplitAtBar(appId, secret + "|" + key);
    SplitAtBar(key, extra);
    SplitAtBar(secret, key + "|" + extra);
    SplitAtBar(appId, secret + "|" + (key + "|" + extra));
  }

  /** A `|`-free head is the first piece of a split on `|`. */
  lemma SplitAtBar(a: string, t: string)
    requires forall i :: 0 <= i < |a| ==> a[i] != '|'
    ensures Split(a + "|" + t, "|") == [a] + Split(t, "|")
  {
    AbsentCharNoOccurrence(a, "|", 0);
    assert a + "|"[..0] == a;
    SplitAtFirst(a, "|", t);
  }

  /** The last path segment of the base URL, the whole URL when it has no `/`. */
  function VersionOf(baseURL: string): string {
    AfterLast(baseURL, '/')
  }

  /** The number `gconv.Float64` reads after the first byte of a version
      segment. When the first character takes more than one byte in UTF-8,
      the bytes left start with a continuation byte and read as 0. */
  function VersionNumber(version: string): (v: real)
    requires |version| > 0
    ensures v >= 0.0
    ensures version[0] as int >= 0x80 ==> v == 0.0
  {
    if version[0] as int >= 0x80 then 0.0 else DecimalOrZero(version[1..])
  }

  /** The domain for a version segment: five known versions, otherwise the
      number after the leading byte, rounded. Slicing off that first byte
      panics on an empty segment (a base URL ending in `/`). */
  function DomainForVersion(version: string): (r: Outcome<string>)
    ensures r.Panic? <==> |version| == 0
    ensures r.Ok? ==> r.value == "4.0Ultra" || StartsWith(r.value, "general")
  {
    if version == "v4.0" then Ok("4.0Ultra")
    else if version == "v3.5" then Ok("generalv3.5")
    else if version == "v3.1" then Ok("generalv3")
    else if version == "v2.1" then Ok("generalv2")
    else if version == "v1.1" then Ok("general")
    else if |version| == 0 then Panic("slice bounds out of range [1:0]")
    else
      var v := VersionNumber(version);
      var n := RoundHalfUp(v);
      if n as real > v then Ok("general" + version) else Ok("generalv" + NatToString(n))
  }

  function DomainFor(baseURL: string): Outcome<string> {
    if baseURL == "" then Ok(DefaultDomain) else DomainForVersion(VersionOf(baseURL))
  }

  predicate KnownVersion(version: string) {
    version in {"v4.0", "v3.5", "v3.1", "v2.1", "v1.1"}
  }

  /** Rounding half up goes above the value exactly when its fractional part
      is at least one half; otherwise it gives the integer part. */
  lemma RoundHalfUpAbove(v: real)
    requires v >= 0.0
    ensures RoundHalfUp(v) as real > v <==> v - v.Floor as real >= 0.5
    ensures RoundHalfUp(v) as real <= v ==> RoundHalfUp(v) == v.Floor
  {
    var f := v.Floor;
    assert f as real <= v < f as real + 1.0;
    if v - f as real >= 0.5 {
      assert (f + 1) as real <= v + 0.5 < (f + 2) as real;
      assert (v + 0.5).Floor == f + 1;
    } else {
      assert f as real <= v + 0.5 < (f + 1) as real;
      assert (v + 0.5).Floor == f;
    }
  }

  /** An unknown version `vN` whose number has a fractional part of at least
      one half keeps its own text (`general` + version); any other gives
      `generalv` followed by the integer part of the number. */
  lemma DomainFallback(version: string)
    requires !KnownVersion(version) && |version| > 0
    ensures var v := VersionNumber(version);
            DomainForVersion(version) ==
              if v - v.Floor as real >= 0.5 then Ok("general" + version)
              else Ok("generalv" + NatToString(v.Floor))
  {
    RoundHalfUpAbove(VersionNumber(version));
  }

  /** An unknown version whose first character is not ASCII reads as 0, so
      its domain is `generalv0`, whatever digits follow. */
  lemma NonAsciiLeadIsZero(version: string)
    requires !KnownVersion(version) && |version| > 0 && version[0] as int >= 0x80
    ensures DomainForVersion(version) == Ok("generalv0")
  {
    DomainFallback(version);
    assert VersionNumber(version).Floor == 0;
    assert NatToString(0) == [DigitChar(0)] == "0";
    assert "generalv" + "0" == "generalv0";
  }

  /** The domain is never derived from an empty base URL's version, and an
      empty version segment is the only way the derivation panics. */
  lemma DomainPanicsIff(baseURL: string)
    ensures DomainFor(baseURL).Panic? <==> baseURL != "" && VersionOf(baseURL) == ""
  {
  }

  // ---------------------------------------------------------------------
  // The client

  /** The fields of a client, as one value. */
  datatype ClientState = ClientState(appId: string, secret: string, key: string, originalURL: string,
                                     baseURL: string, path: string, proxyURL: string, domain: string,
                                     isSupportSystemRole: Option<bool>)

  /** The client `NewClient` builds: the key parts, the default origin, the
      base URL, path and first proxy URL where they are non-empty (defaults
      otherwise), and the domain of the base URL; or the panic of splitting
      the key or choosing the domain. */
  function Configured(key: string, baseURL: string, path: string, isSupportSystemRole: Option<bool>,
                      proxyURL: seq<string>): Outcome<ClientState>
  {
    match KeyParts(key)
    case Panic(reason) => Panic(reason)
    case Ok(parts) =>
      match DomainFor(baseURL)
      case Panic(reason) => Panic(reason)
      case Ok(domain) =>
        Ok(ClientState(parts.0, parts.1, parts.2, DefaultOriginalUrl,
                       if baseURL == "" then DefaultBaseUrl else baseURL,
                       if path == "" then DefaultPath else path,
                       if |proxyURL| > 0 && proxyURL[0] != "" then proxyURL[0] else "",
                       domain, isSupportSystemRole))
  }

  /** Building a client panics exactly when the key has fewer than three
      `|`-separated parts, or a base URL is given whose last segment is empty;
      without overrides the client is the default one. */
  lemma ConfiguredPanicsIff(key: string, baseURL: string, path: string, isSupportSystemRole: Option<bool>,
                            proxyURL: seq<string>)
    ensures Configured(key, baseURL, path, isSupportSystemRole, proxyURL).Panic? <==>
            |Split(key, "|")| < 3 || (baseURL != "" && VersionOf(baseURL) == "")
    ensures Configured(key, "", "", isSupportSystemRole, []).Ok? ==>
            var c := Configured(key, "", "", isSupportSystemRole, []).value;
            c.baseURL == DefaultBaseUrl && c.domain == DefaultDomain && c.path == DefaultPath && c.proxyURL == ""
  {
    DomainPanicsIff(baseURL);
  }

  class Client {
    var appId: string
    var secret: string
    var key: string
    var originalURL: string
    var baseURL: string
    var path: string
    var proxyURL: string
    var domain: string
    var isSupportSystemRole: Option<bool>

    function State(): ClientState
      reads this
    {
      ClientState(appId, secret, key, originalURL, baseURL, path, proxyURL, domain, isSupportSystemRole)
    }

    /** The base-URL step of `NewClient`: take the URL, and the domain of
        its last segment, or report the panic of choosing that domain. */
    method ApplyBaseUrl(baseURL: string) returns (failure: Option<string>)
      requires baseURL != ""
      modifies this
      ensures failure.Some? <==> DomainFor(baseURL).Panic?
      ensures failure.Some? ==> failure.value == DomainFor(baseURL).reason
      ensures failure.None? ==> State() == old(State()).(baseURL := baseURL, domain := DomainFor(baseURL).value)
    {
      this.baseURL := baseURL;
      var version := baseURL[LastIndexOf(baseURL, '/') + 1..];
      assert version == VersionOf(baseURL);
      var domain := DomainForVersion(version);
      if domain.Panic? {
        return Some(domain.reason);
      }
      this.domain := domain.value;
      return None;
    }

    /** The client with the key parts and the defaults. */
    constructor (appId: string, secret: string, key: string, isSupportSystemRole: Option<bool>)
      ensures this.appId == appId && this.secret == secret && this.key == key
      ensures originalURL == DefaultOriginalUrl && baseURL == DefaultBaseUrl && path == DefaultPath
      ensures proxyURL == "" && domain == DefaultDomain
      ensures this.isSupportSystemRole == isSupportSystemRole
    {
      this.appId := appId;
      this.secret := secret;
      this.key := key;
      originalURL := DefaultOriginalUrl;
      baseURL := DefaultBaseUrl;
      path := DefaultPath;
      proxyURL := "";
      domain := DefaultDomain;
      this.isSupportSystemRole := isSupportSystemRole;
    }

    /** The URL `getSignature` parses: the origin, the base URL from its last
        `/`, then the path. Without a `/` the slice starts at -1 and panics. */
    function SigningTarget(): Outcome<string>
      reads this
    {
      var i := LastIndexOf(baseURL, '/');
      if i < 0 then Panic("slice bounds out of range [-1:]") else Ok(originalURL + baseURL[i..] + path)
    }

    /** `getSignature`: the encoded date, the host and the signature of the
        request line; `None` when the URL does not parse. */
    function Signature(httpMethod: string, gmtDate: string, codecs: Codecs): Outcome<Option<Signed>>
      reads this
    {
      match SigningTarget()
      case Panic(r) => Panic(r)
      case Ok(target) =>
        match ParseUrl(target)
        case None => Ok(None)
        case Some(hp) =>
          Ok(Some(Signed(codecs.urlEncode(gmtDate), hp.0,
                         codecs.hmacSha256Base64(secret, SigningString(hp.0, gmtDate, httpMethod, hp.1)))))
    }

    /** `getWebSocketUrl`: the WebSocket form of base URL and path with the
        signed query; the empty string when signing fails. */
    function WebSocketUrl(gmtDate: string, codecs: Codecs): Outcome<string>
      reads this
    {
      match Signature("GET", gmtDate, codecs)
      case Panic(r) => Panic(r)
      case Ok(None) => Ok("")
      case Ok(Some(s)) => Ok(SignedUrl(WsScheme(baseURL + path), key, s, codecs))
    }

    /** `getHttpUrl`: switches the client's origin to the image host for good,
        then signs a POST for base URL and path. */
    method HttpUrl(gmtDate: string, codecs: Codecs) returns (r: Outcome<string>)
      modifies this
      ensures originalURL == ImageOriginalUrl
      ensures appId == old(appId) && secret == old(secret) && key == old(key) && baseURL == old(baseURL)
      ensures path == old(path) && proxyURL == old(proxyURL) && domain == old(domain)
      ensures isSupportSystemRole == old(isSupportSystemRole)
      ensures r == match Signature("POST", gmtDate, codecs)
                   case Panic(p) => Panic(p)
                   case Ok(None) => Ok("")
                   case Ok(Some(s)) => Ok(SignedUrl(baseURL + path, key, s, codecs))
    {
      originalURL := ImageOriginalUrl;
      var signed := Signature("POST", gmtDate, codecs);
      match signed {
        case Panic(p) => r := Panic(p);
        case Ok(None) => r := Ok("");
        case Ok(Some(s)) => r := Ok(SignedUrl(baseURL + path, key, s, codecs));
      }
    }
  }

  /** `NewClient`: split the key, start from the defaults, then take the base
      URL (and its domain), the path and the first proxy URL when non-empty. */
  method NewClient(key: string, baseURL: string, path: string, isSupportSystemRole: Option<bool>, proxyURL: seq<string>)
    returns (r: Outcome<Client>)
    ensures r.Panic? ==> Configured(key, baseURL, path, isSupportSystemRole, proxyURL) == Panic(r.reason)
    ensures r.Ok? ==> fresh(r.value) && Configured(key, baseURL, path, isSupportSystemRole, proxyURL) == Ok(r.value.State())
  {
    var result := Split(key, "|");
    if |result| < 3 {
      return Panic("index out of range");
    }
    ghost var parts := (result[0], result[1], result[2]);
    assert KeyParts(key) == Ok(parts);
    var client := new Client(result[0], result[1], result[2], isSupportSystemRole);
    if baseURL != "" {
      var failure := client.ApplyBaseUrl(baseURL);
      if failure.Some? {
        ConfiguredOf(key, baseURL, path, isSupportSystemRole, proxyURL, parts);
        return Panic(failure.value);
      }
    }
    if path != "" {
      client.path := path;
    }
    if |proxyURL| > 0 && proxyURL[0] != "" {
      client.proxyURL := proxyURL[0];
    }
    ConfiguredOf(key, baseURL, path, isSupportSystemRole, proxyURL, parts);
    return Ok(client);
  }

  /** `Configured` once the key parts are known. */
  lemma ConfiguredOf(key: string, baseURL: string, path: string, isSupportSystemRole: Option<bool>,
                     proxyURL: seq<string>, parts: (string, string, string))
    requires KeyParts(key) == Ok(parts)
    ensures DomainFor(baseURL).Panic? ==>
            Configured(key, baseURL, path, isSupportSystemRole, proxyURL) == Panic(DomainFor(baseURL).reason)
    ensures DomainFor(baseURL).Ok? ==>
            Configured(key, baseURL, path, isSupportSystemRole, proxyURL) ==
            Ok(ClientState(parts.0, parts.1, parts.2, DefaultOriginalUrl,
                           if baseURL == "" then DefaultBaseUrl else baseURL,
                           if path == "" then DefaultPath else path,
                           if |proxyURL| > 0 && proxyURL[0] != "" then proxyURL[0] else "",
                           DomainFor(baseURL).value, isSupportSystemRole))
  {
  }

  // ---------------------------------------------------------------------
  // Signing

  datatype Signed = Signed(date: string, host: string, signature: string)

  /** The string the HMAC is computed over. */
  function SigningString(host: string, date: string, httpMethod: string, path: string): string {
    "host: " + host + "\ndate: " + date + "\n" + httpMethod + " " + path + " HTTP/1.1"
  }

  predicate IsControl(c: char) {
    c < ' ' || c as int == 0x7f
  }

  /** The index of the first `c` in `s`, or `|s|`. */
  function IndexOrEnd(s: string, c: char): (r: nat)
    ensures r <= |s|
    ensures r < |s| ==> s[r] == c
    ensures forall j :: 0 <= j < r ==> s[j] != c
    decreases |s|
  {
    if |s| == 0 then 0 else if s[0] == c then 0 else 1 + IndexOrEnd(s[1..], c)
  }

  /** `url.Parse` reduced to what the signer reads: the host after `scheme://`
      up to the next `/`, and the rest as the path. Control characters make
      the parse fail. */
  function ParseUrl(u: string): Option<(string, string)> {
    if exists i :: 0 <= i < |u| && IsControl(u[i]) then None
    else
      var rest := if StartsWith(u, "https://") then u[8..] else if StartsWith(u, "http://") then u[7..] else "";
      if !StartsWith(u, "https://") && !StartsWith(u, "http://") then Some(("", u))
      else
        var k := IndexOrEnd(rest, '/');
        Some((rest[..k], rest[k..]))
  }

  /** The `authorization` parameter: the base64 of the credential line. */
  function Authorization(key: string, signature: string, codecs: Codecs): string {
    codecs.base64("api_key=\"" + key + "\",algorithm=\"hmac-sha256\",headers=\"host date request-line\",signature=\"" + signature + "\"")
  }

  function SignedUrl(target: string, key: string, s: Signed, codecs: Codecs): string {
    target + "?authorization=" + Authorization(key, s.signature, codecs) + "&date=" + s.date + "&host=" + s.host
  }

  /** `https://` becomes `wss://`, then `http://` becomes `ws://`. */
  function WsScheme(u: string): string {
    ReplaceAll(ReplaceAll(u, "https://", "wss://"), "http://", "ws://")
  }

  predicate NoControl(s: string) {
    forall i :: 0 <= i < |s| ==> !IsControl(s[i])
  }

  /** An origin without a path, followed by a `/`-led tail, parses to the
      origin's host and that tail. */
  lemma ParseOrigin(host: string, tail: string)
    requires NoControl(host) && NoControl(tail)
    requires forall i :: 0 <= i < |host| ==> host[i] != '/'
    requires |tail| > 0 && tail[0] == '/'
    ensures ParseUrl("https://" + host + tail) == Some((host, tail))
  {
    var u := "https://" + host + tail;
    assert StartsWith(u, "https://") by {
      assert u[..8] == "https://";
    }
    assert u[8..] == host + tail;
    var k := IndexOrEnd(host + tail, '/');
    assert (host + tail)[|host|] == '/';
    assert k == |host|;
    assert (host + tail)[..k] == host && (host + tail)[k..] == tail;
    forall i | 0 <= i < |u|
      ensures !IsControl(u[i])
    {
      if i >= 8 + |host| {
        assert u[i] == tail[i - 8 - |host|];
      } else if i >= 8 {
        assert u[i] == host[i - 8];
      }
    }
  }

  /** A `https://` URL whose remainder holds no other scheme marker gets the
      `wss://` scheme and is otherwise unchanged; likewise `http://` gets
      `ws://`. */
  lemma WsSchemeRewrites(rest: string)
    requires !Contains(rest, "https://") && !Contains(rest, "http://")
    ensures WsScheme("https://" + rest) == "wss://" + rest
    ensures WsScheme("http://" + rest) == "ws://" + rest
  {
    WsSchemeSecure(rest);
    WsSchemePlain(rest);
  }

  lemma WsSchemeSecure(rest: string)
    requires !Contains(rest, "https://") && !Contains(rest, "http://")
    ensures WsScheme("https://" + rest) == "wss://" + rest
  {
    var s := "https://" + rest;
    assert s[..8] == "https://" && s[8..] == rest;
    ReplaceAbsent(rest, "https://", "wss://");
    assert ReplaceAll(s, "https://", "wss://") == "wss://" + rest;
    ReplaceSkipsPrefix("wss://", rest, "http://", "ws://");
    ReplaceAbsent(rest, "http://", "ws://");
  }

  lemma WsSchemePlain(rest: string)
    requires !Contains(rest, "https://") && !Contains(rest, "http://")
    ensures WsScheme("http://" + rest) == "ws://" + rest
  {
    var h := "http://" + rest;
    PlainHasNoSecure(rest);
    ReplaceAbsent(h, "https://", "wss://");
    assert h[..7] == "http://" && h[7..] == rest;
    ReplaceAbsent(rest, "http://", "ws://");
  }

  /** Prefixing `http://` to a text free of `https://` does not create one. */
  lemma PlainHasNoSecure(rest: string)
    requires !Contains(rest, "https://")
    ensures !Contains("http://" + rest, "https://")
  {
    var h := "http://" + rest;
    assert h[7..] == rest;
    forall i | 0 <= i <= |h|
      ensures !OccursAt(h, "https://", i)
    {
      if i == 0 {
        assert h[4] == ':';
      } else if i < 7 {
        assert h[i] != 'h';
      } else if i + 8 <= |h| {
        assert h[i..i + 8] == h[7..][i - 7..i + 1];
        assert !OccursAt(rest, "https://", i - 7);
      }
    }
  }

  /** The last `/` of a URL whose final segment has none is the one before
      that segment. */
  lemma LastSlashBefore(a: string, b: string)
    requires forall i :: 0 <= i < |b| ==> b[i] != '/'
    ensures LastIndexOf(a + "/" + b, '/') == |a|
    ensures (a + "/" + b)[|a|..] == "/" + b
  {
    var t := "/" + b;
    var s := a + t;
    assert a + "/" + b == s;
    assert s[|a|..] == t;
    var r := LastIndexOf(s, '/');
    assert s[|a|] == t[0] == '/';
    forall k | |a| < k < |s| ensures s[k] != '/' {
      assert s[k] == t[k - |a|] == b[k - |a| - 1];
    }
    assert r >= |a|;
  }

  /** Signing reads the host from the origin and signs the request line for
      the base URL's last segment followed by the path. */
  lemma SignatureLayout(c: Client, host: string, prefix: string, version: string,
                        httpMethod: string, gmtDate: string, codecs: Codecs)
    requires c.originalURL == "https://" + host && c.baseURL == prefix + "/" + version
    requires forall i :: 0 <= i < |host| ==> host[i] != '/'
    requires forall i :: 0 <= i < |version| ==> version[i] != '/'
    requires NoControl(host) && NoControl("/" + version + c.path)
    ensures c.Signature(httpMethod, gmtDate, codecs) ==
            Ok(Some(Signed(codecs.urlEncode(gmtDate), host,
                           codecs.hmacSha256Base64(c.secret, SigningString(host, gmtDate, httpMethod, "/" + version + c.path)))))
  {
    LastSlashBefore(prefix, version);
    assert c.baseURL[LastIndexOf(c.baseURL, '/')..] == "/" + version;
    assert c.originalURL + ("/" + version) + c.path == "https://" + host + ("/" + version + c.path);
    assert c.SigningTarget() == Ok("https://" + host + ("/" + version + c.path));
    ParseOrigin(host, "/" + version + c.path);
  }

  /** A `https://` base URL gives a `wss://` WebSocket URL with the signed
      query appended. */
  lemma WebSocketUrlLayout(c: Client, rest: string, gmtDate: string, codecs: Codecs, s: Signed)
    requires c.baseURL + c.path == "https://" + rest
    requires !Contains(rest, "https://") && !Contains(rest, "http://")
    requires c.Signature("GET", gmtDate, codecs) == Ok(Some(s))
    ensures c.WebSocketUrl(gmtDate, codecs) == Ok("wss://" + rest + "?authorization=" +
              Authorization(c.key, s.signature, codecs) + "&date=" + s.date + "&host=" + s.host)
  {
    WsSchemeRewrites(rest);
  }

  /** The default client signs `host: spark-api.xf-yun.com`, the date and
      the request line for `/v4.0/chat`. */
  lemma DefaultClientSigning(c: Client, httpMethod: string, gmtDate: string, codecs: Codecs)
    requires c.originalURL == DefaultOriginalUrl && c.baseURL == DefaultBaseUrl && c.path == DefaultPath
    ensures c.Signature(httpMethod, gmtDate, codecs) ==
            Ok(Some(Signed(codecs.urlEncode(gmtDate), DefaultOriginalHost,
                           codecs.hmacSha256Base64(c.secret,
                             SigningString(DefaultOriginalHost, gmtDate, httpMethod, "/v4.0/chat")))))
  {
    DefaultLayout();
    SignatureLayout(c, DefaultOriginalHost, "https://spark-api.xf-yun.com", "v4.0", httpMethod, gmtDate, codecs);
  }

  /** The default origin and base URL split as the signing layout needs. */
  lemma DefaultLayout()
    ensures DefaultOriginalUrl == "https://" + DefaultOriginalHost
    ensures DefaultBaseUrl == "https://spark-api.xf-yun.com" + "/" + "v4.0"
    ensures "/" + "v4.0" + DefaultPath == "/v4.0/chat"
    ensures forall i :: 0 <= i < |DefaultOriginalHost| ==> DefaultOriginalHost[i] != '/'
    ensures forall i :: 0 <= i < |"v4.0"| ==> "v4.0"[i] != '/'
    ensures NoControl(DefaultOriginalHost) && NoControl("/v4.0/chat")
  {
    DefaultUrls();
    DefaultsPrintable();
  }

  lemma DefaultUrls()
    ensures DefaultOriginalUrl == "https://" + DefaultOriginalHost
    ensures DefaultBaseUrl == "https://spark-api.xf-yun.com" + "/" + "v4.0"
    ensures "/" + "v4.0" + DefaultPath == "/v4.0/chat"
  {
  }

  lemma DefaultsPrintable()
    ensures forall i :: 0 <= i < |DefaultOriginalHost| ==> DefaultOriginalHost[i] != '/'
    ensures forall i :: 0 <= i < |"v4.0"| ==> "v4.0"[i] != '/'
    ensures NoControl(DefaultOriginalHost) && NoControl("/v4.0/chat")
  {
  }

  // ---------------------------------------------------------------------
  // Request preparation

  /** The messages sent upstream: normalised (keeping a system message unless
      the client says otherwise), with a lone system message re-roled as user. */
  function PrepareMessages(messages: seq<Message>, isSupportSystemRole: Option<bool>): (r: Outcome<seq<Message>>)
    ensures r.Panic? <==> Normalize(messages, isSupportSystemRole.GetOr(true)).Panic?
    ensures r.Ok? ==> var ms := Normalize(messages, isSupportSystemRole.GetOr(true)).value;
                      |r.value| == |ms| &&
                      forall j :: 0 <= j < |ms| ==> r.value[j].content == ms[j].content && r.value[j].name == ms[j].name
  {
    match Normalize(messages, isSupportSystemRole.GetOr(true))
    case Panic(p) => Panic(p)
    case Ok(ms) => Ok(if |ms| == 1 && ms[0].role == RoleSystem then [ms[0].(role := RoleUser)] else ms)
  }

  /** A zero `max_tokens` becomes 4096; any other value is sent as given. */
  function RequestMaxTokens(maxTokens: int): (r: int)
    ensures r != 0
    ensures maxTokens != 0 ==> r == maxTokens
    ensures maxTokens == 0 ==> r == DefaultMaxTokens
  {
    if maxTokens == 0 then DefaultMaxTokens else maxTokens
  }

  /** What the upstream model receives always ends with a user turn, and a
      system message can only lead a conversation that has other turns. */
  lemma PreparedEndsWithUser(messages: seq<Message>, isSupportSystemRole: Option<bool>, ms: seq<Message>)
    requires PrepareMessages(messages, isSupportSystemRole) == Ok(ms)
    ensures |ms| > 0 ==> ms[|ms| - 1].role == RoleUser
    ensures forall j :: 0 < j < |ms| ==> ms[j].role != RoleSystem
    ensures |ms| > 0 && ms[0].role == RoleSystem ==> |ms| >= 2
  {
    var s := isSupportSystemRole.GetOr(true);
    var r := Normalize(messages, s).value;
    var h := NormalizeAlternates(messages, s, r);
    if |r| == 1 && r[0].role == RoleSystem {
      assert ms == [r[0].(role := RoleUser)];
    } else {
      assert ms == r;
      forall j | 0 < j < |ms| ensures ms[j].role != RoleSystem {
        assert ms[j].role == TurnRole(j - h);
        TurnRoleNotSystem(j - h);
      }
      if |ms| > 0 && ms[0].role == RoleSystem {
        TurnRoleNotSystem(0);
      }
    }
  }
}
