/** The configuration decisions of the HTTP adapters (compatible, ai360,
    openai, hyperbolic, cloudflare) around their go-openai client: the
    constructors and their defaults, the Azure API version, how messages are
    prepared and converted, which requests carry `MaxTokens`, stream options,
    and the completion id. The go-openai client itself is not modelled; its
    configuration is the `ClientConfig` value handed to it. */
module Adapters {
  import opened Canonical
  import opened Strings
  import Common
  import Streaming

  /** The HTTP transport of a client: direct, or through the caller's proxy. */
  datatype Transport = Direct | Proxied(url: string)

  /** The first proxy argument is used when present and non-empty; a proxy
      URL that `url.Parse` rejects makes the constructor panic. */
  function TransportOf(proxyURL: seq<string>, parses: string -> bool): (r: Outcome<Transport>)
    ensures r.Panic? <==> |proxyURL| > 0 && proxyURL[0] != "" && !parses(proxyURL[0])
    ensures r == Ok(Direct) <==> |proxyURL| == 0 || proxyURL[0] == ""
    ensures r.Ok? && r.value.Proxied? ==> r.value.url == proxyURL[0]
  {
    if |proxyURL| > 0 && proxyURL[0] != "" then
      if parses(proxyURL[0]) then Ok(Proxied(proxyURL[0])) else Panic("invalid proxy URL")
    else Ok(Direct)
  }

  /** The go-openai configuration a client is built with; `None` keeps the
      library's default. */
  datatype ClientConfig = ClientConfig(authToken: string, baseURL: Option<string>, azure: bool,
                                       apiVersion: Option<string>, transport: Transport)

  /** The client configuration of a plain constructor: the given base URL, or
      `fallback` in its place when it is empty. */
  function PlainConfig(key: string, baseURL: string, fallback: Option<string>, proxyURL: seq<string>,
                       parses: string -> bool): (r: Outcome<ClientConfig>)
    ensures r.Panic? <==> TransportOf(proxyURL, parses).Panic?
    ensures r.Ok? ==> r.value.authToken == key && !r.value.azure && r.value.apiVersion == None &&
                      r.value.transport == TransportOf(proxyURL, parses).value
    ensures r.Ok? && baseURL != "" ==> r.value.baseURL == Some(baseURL)
    ensures r.Ok? && baseURL == "" ==> r.value.baseURL == fallback
  {
    match TransportOf(proxyURL, parses)
    case Panic(reason) => Panic(reason)
    case Ok(t) => Ok(ClientConfig(key, if baseURL != "" then Some(baseURL) else fallback, false, None, t))
  }

  const Ai360DefaultBaseUrl: string := "https://api.360.cn/v1"

  /** ai360's constructor: an empty base URL means 360's own endpoint. */
  function Ai360Config(key: string, baseURL: string, proxyURL: seq<string>, parses: string -> bool)
    : (r: Outcome<ClientConfig>)
    ensures r.Ok? ==> r.value.baseURL == Some(if baseURL == "" then Ai360DefaultBaseUrl else baseURL)
  {
    PlainConfig(key, baseURL, Some(Ai360DefaultBaseUrl), proxyURL, parses)
  }

  /** openai's constructor: an empty base URL keeps the library's default. */
  function OpenAiConfig(key: string, baseURL: string, proxyURL: seq<string>, parses: string -> bool)
    : (r: Outcome<ClientConfig>)
    ensures r.Ok? ==> (r.value.baseURL.None? <==> baseURL == "")
  {
    PlainConfig(key, baseURL, None, proxyURL, parses)
  }

  const ApiVersionMarker: string := "?api-version="

  /** The Azure API version named in the path: the text between the first
      `?api-version=` and the next one (or the end), when it is not empty. */
  function ApiVersionOf(path: string): (v: Option<string>)
    ensures v.Some? ==> v.value != "" && !Contains(v.value, ApiVersionMarker)
  {
    if path == "" then None
    else
      var ps := Split(path, ApiVersionMarker);
      SplitPiecesAreFree(path, ApiVersionMarker);
      if |ps| > 1 && ps[1] != "" then Some(ps[1]) else None
  }

  /** A path ending in `?api-version=` and a version names that version. */
  lemma ApiVersionRoundTrip(prefix: string, version: string)
    requires !Contains(prefix + ApiVersionMarker[..|ApiVersionMarker| - 1], ApiVersionMarker)
    requires version != "" && !Contains(version, ApiVersionMarker)
    ensures ApiVersionOf(prefix + ApiVersionMarker + version) == Some(version)
  {
    SplitAtFirst(prefix, ApiVersionMarker, version);
    SplitAbsent(version, ApiVersionMarker);
    assert Split(prefix + ApiVersionMarker + version, ApiVersionMarker) == [prefix, version];
  }

  /** A path without the marker keeps the library's default version. */
  lemma ApiVersionAbsent(path: string)
    requires !Contains(path, ApiVersionMarker)
    ensures ApiVersionOf(path) == None
  {
    if path != "" {
      SplitAbsent(path, ApiVersionMarker);
    }
  }

  /** `NewAzureClient`: the Azure configuration for the base URL, with the
      API version taken from the path when it names one. */
  function AzureConfig(key: string, baseURL: string, path: string, proxyURL: seq<string>, parses: string -> bool)
    : (r: Outcome<ClientConfig>)
    ensures r.Panic? <==> TransportOf(proxyURL, parses).Panic?
    ensures r.Ok? ==> r.value.azure && r.value.baseURL == Some(baseURL) && r.value.authToken == key
    ensures r.Ok? ==> r.value.apiVersion == ApiVersionOf(path)
  {
    match TransportOf(proxyURL, parses)
    case Panic(reason) => Panic(reason)
    case Ok(t) => Ok(ClientConfig(key, Some(baseURL), true, ApiVersionOf(path), t))
  }

  /** The OpenAI-compatible client. It keeps its arguments as given. */
  datatype CompatibleClient = CompatibleClient(corp: string, apiToken: string, baseURL: string, path: string,
                                               proxyURL: seq<string>, isSupportSystemRole: Option<bool>)

  /** The compatible constructor refuses, by panicking, an empty base URL. */
  function NewCompatibleClient(corp: string, key: string, baseURL: string, path: string,
                               isSupportSystemRole: Option<bool>, proxyURL: seq<string>)
    : (r: Outcome<CompatibleClient>)
    ensures r.Panic? <==> baseURL == ""
    ensures r.Ok? ==> r.value.baseURL == baseURL && r.value.corp == corp && r.value.apiToken == key &&
                      r.value.path == path && r.value.proxyURL == proxyURL &&
                      r.value.isSupportSystemRole == isSupportSystemRole
  {
    if baseURL == "" then Panic("baseURL is required: corp=" + corp)
    else Ok(CompatibleClient(corp, key, baseURL, path, proxyURL, isSupportSystemRole))
  }

  /** The configuration the compatible client builds for every call: its
      base URL and, when one parses, its proxy. */
  function CompatibleConfig(c: CompatibleClient, parses: string -> bool): (r: Outcome<ClientConfig>)
    ensures r.Panic? <==> TransportOf(c.proxyURL, parses).Panic?
    ensures r.Ok? ==> r.value.baseURL == Some(c.baseURL) && r.value.authToken == c.apiToken
  {
    match TransportOf(c.proxyURL, parses)
    case Panic(reason) => Panic(reason)
    case Ok(t) => Ok(ClientConfig(c.apiToken, Some(c.baseURL), false, None, t))
  }

  const HyperbolicDefaultBaseUrl: string := "https://api.hyperbolic.xyz/v1"

  class HyperbolicClient {
    var config: ClientConfig
    var apiToken: string
    var baseURL: string
    var path: string
    var proxyURL: string
    var isSupportSystemRole: Option<bool>

    constructor(config: ClientConfig, apiToken: string, baseURL: string, path: string, proxyURL: string,
                isSupportSystemRole: Option<bool>)
      ensures this.config == config && this.apiToken == apiToken && this.baseURL == baseURL
      ensures this.path == path && this.proxyURL == proxyURL && this.isSupportSystemRole == isSupportSystemRole
    {
      this.config := config;
      this.apiToken := apiToken;
      this.baseURL := baseURL;
      this.path := path;
      this.proxyURL := proxyURL;
      this.isSupportSystemRole := isSupportSystemRole;
    }
  }

  /** Hyperbolic's constructor. An empty base URL means Hyperbolic's endpoint,
      for the configuration and the stored field alike. The first proxy
      argument is read unconditionally, so a call without one panics; the
      later conditional assignments store the same values again. */
  method NewHyperbolicClient(key: string, baseURL: string, path: string, isSupportSystemRole: Option<bool>,
                             proxyURL: seq<string>, parses: string -> bool)
    returns (r: Outcome<HyperbolicClient>)
    ensures r.Panic? <==> |proxyURL| == 0 || TransportOf(proxyURL, parses).Panic?
    ensures r.Ok? ==> fresh(r.value)
    ensures r.Ok? ==> var base := if baseURL != "" then baseURL else HyperbolicDefaultBaseUrl;
                      r.value.baseURL == base && r.value.config.baseURL == Some(base) &&
                      r.value.path == path && r.value.proxyURL == proxyURL[0] && r.value.apiToken == key &&
                      r.value.isSupportSystemRole == isSupportSystemRole
  {
    var base := baseURL;
    if base == "" {
      base := HyperbolicDefaultBaseUrl;
    }
    var config := PlainConfig(key, base, None, proxyURL, parses);
    if config.Panic? {
      return Panic(config.reason);
    }
    if |proxyURL| == 0 {
      return Panic("index out of range [0] with length 0");
    }
    var c := new HyperbolicClient(config.value, key, base, path, proxyURL[0], isSupportSystemRole);
    if base != "" {
      c.baseURL := base;
    }
    if path != "" {
      c.path := path;
    }
    if |proxyURL| > 0 && proxyURL[0] != "" {
      c.proxyURL := proxyURL[0];
    }
    return Ok(c);
  }

  /** The account every Cloudflare client is built for. */
  const CloudflareAccountId: string := "824897556df122ceacdd5695b38d1c0d"

  function CloudflareGatewayUrl(accountId: string): string {
    "https://gateway.ai.cloudflare.com/v1/" + accountId + "/ai_gateway/workers-ai/v1"
  }

  class CloudflareClient {
    var config: ClientConfig
    var apiToken: string
    var accountId: string
    var baseURL: string
    var path: string
    var proxyURL: string
    var isSupportSystemRole: Option<bool>

    /** The fields the constructor sets outright; the others start empty. */
    constructor(config: ClientConfig, apiToken: string, accountId: string, isSupportSystemRole: Option<bool>)
      ensures this.config == config && this.apiToken == apiToken && this.accountId == accountId
      ensures this.isSupportSystemRole == isSupportSystemRole
      ensures baseURL == "" && path == "" && proxyURL == ""
    {
      this.config := config;
      this.apiToken := apiToken;
      this.accountId := accountId;
      this.isSupportSystemRole := isSupportSystemRole;
      baseURL, path, proxyURL := "", "", "";
    }
  }

  /** Cloudflare's constructor. An empty base URL means the account's
      gateway for the configuration, but the stored base URL, path and proxy
      are each set only when non-empty, so they stay empty otherwise. */
  method NewCloudflareClient(key: string, baseURL: string, path: string, isSupportSystemRole: Option<bool>,
                             proxyURL: seq<string>, parses: string -> bool)
    returns (r: Outcome<CloudflareClient>)
    ensures r.Panic? <==> TransportOf(proxyURL, parses).Panic?
    ensures r.Ok? ==> fresh(r.value)
    ensures r.Ok? ==> r.value.config.baseURL ==
                        Some(if baseURL != "" then baseURL else CloudflareGatewayUrl(CloudflareAccountId))
    ensures r.Ok? ==> r.value.baseURL == baseURL && r.value.path == path &&
                      r.value.proxyURL == (if |proxyURL| > 0 then proxyURL[0] else "") &&
                      r.value.accountId == CloudflareAccountId && r.value.apiToken == key &&
                      r.value.isSupportSystemRole == isSupportSystemRole
  {
    var config := PlainConfig(key, baseURL, Some(CloudflareGatewayUrl(CloudflareAccountId)), proxyURL, parses);
    if config.Panic? {
      return Panic(config.reason);
    }
    var c := new CloudflareClient(config.value, key, CloudflareAccountId, isSupportSystemRole);
    if baseURL != "" {
      c.baseURL := baseURL;
    }
    if path != "" {
      c.path := path;
    }
    if |proxyURL| > 0 && proxyURL[0] != "" {
      c.proxyURL := proxyURL[0];
    }
    return Ok(c);
  }

  /** The chat clients whose requests are shaped here. The compatible client
      knows which provider it talks to. */
  datatype ChatClient = CompatibleChat(corp: string) | Ai360Chat | OpenAiChat | HyperbolicChat | CloudflareChat

  /** The stream loop each client's `ChatCompletionStream` runs: every
      client kind has its own. */
  function StreamAdapter(c: ChatClient): (a: Streaming.Adapter)
    ensures c.CompatibleChat? <==> a == Streaming.Compatible
    ensures c == Ai360Chat <==> a == Streaming.Ai360
    ensures c == OpenAiChat <==> a == Streaming.OpenAi
    ensures c == HyperbolicChat <==> a == Streaming.Hyperbolic
    ensures c == CloudflareChat <==> a == Streaming.Cloudflare
  {
    match c
    case CompatibleChat(_) => Streaming.Compatible
    case Ai360Chat => Streaming.Ai360
    case OpenAiChat => Streaming.OpenAi
    case HyperbolicChat => Streaming.Hyperbolic
    case CloudflareChat => Streaming.Cloudflare
  }

  /** The id of a non-streamed completion: prefixed by the clients whose
      stream events are prefixed, passed through by ai360 and openai. */
  function CompletionId(c: ChatClient, id: string): (r: string)
    ensures Streaming.PrefixesIds(StreamAdapter(c)) ==> StartsWith(r, CompletionIdPrefix) && r[|CompletionIdPrefix|..] == id
    ensures !Streaming.PrefixesIds(StreamAdapter(c)) ==> r == id
    ensures r == id <==> c == Ai360Chat || c == OpenAiChat
  {
    if c == Ai360Chat || c == OpenAiChat then id else CompletionIdPrefix + id
  }

  /** `MaxTokens` as sent upstream: the compatible client drops it for
      Hyperbolic, and Hyperbolic's own client drops it from non-streamed
      requests only; every other request carries it. */
  function ForwardedMaxTokens(c: ChatClient, stream: bool, maxTokens: int): (r: Option<int>)
    ensures r.Some? ==> r.value == maxTokens
    ensures r.None? <==> (c == CompatibleChat(CorpHyperbolic) || (c == HyperbolicChat && !stream))
  {
    if c == CompatibleChat(CorpHyperbolic) || (c == HyperbolicChat && !stream) then None else Some(maxTokens)
  }

  /** openai asks the stream to report usage unless the caller chose stream
      options. */
  datatype StreamOptions = StreamOptions(includeUsage: bool)

  function StreamOptionsOf(requested: Option<StreamOptions>): (r: Option<StreamOptions>)
    ensures r.Some?
    ensures requested.Some? ==> r == requested
    ensures requested.None? ==> r.value.includeUsage
  {
    if requested.None? then Some(StreamOptions(true)) else requested
  }

  /** A message content as go-openai receives it: a string, a list of parts,
      or (openai) the caller's value as it came. */
  datatype WireContent = PlainContent(text: string) | MultiContent(parts: seq<Part>) | AsGiven(content: Content)

  datatype WireMessage = WireMessage(role: string, name: string, content: WireContent)

  /** `gconv.String` of a content: the string itself, `""` for nil, and the
      JSON encoding for a list. */
  function Stringified(c: Content, encode: seq<Part> -> string): string {
    match c
    case Text(s) => s
    case Null => ""
    case Parts(ps) => encode(ps)
  }

  predicate Decodable(ps: seq<Part>) {
    forall j :: 0 <= j < |ps| ==> !ps[j].Unshaped?
  }

  /** One message's content as the client converts it: the compatible client
      stringifies everything, openai passes it as given, and the others send
      a list as parts (failing when an element is not an object) and
      stringify the rest. */
  function ConvertContent(c: ChatClient, content: Content, encode: seq<Part> -> string): (r: Option<WireContent>)
    ensures r.None? <==> !c.CompatibleChat? && c != OpenAiChat && content.Parts? && !Decodable(content.parts)
    ensures r.Some? && r.value.MultiContent? ==> content == Parts(r.value.parts)
    ensures r.Some? && r.value.PlainContent? && content.Text? ==> r.value.text == content.text
  {
    match c
    case CompatibleChat(_) => Some(PlainContent(Stringified(content, encode)))
    case OpenAiChat => Some(AsGiven(content))
    case _ =>
      match content
      case Parts(ps) => if Decodable(ps) then Some(MultiContent(ps)) else None
      case _ => Some(PlainContent(Stringified(content, encode)))
  }

  /** The conversion of a list of messages, stopping at the first failure. */
  function ConvertAll(c: ChatClient, ms: seq<Message>, encode: seq<Part> -> string): Option<seq<WireMessage>>
    decreases |ms|
  {
    if |ms| == 0 then Some([])
    else
      match ConvertAll(c, ms[..|ms| - 1], encode)
      case None => None
      case Some(ws) =>
        var m := ms[|ms| - 1];
        match ConvertContent(c, m.content, encode)
        case None => None
        case Some(w) => Some(ws + [WireMessage(m.role, m.name, w)])
  }

  /** The messages a chat request carries upstream. */
  datatype Prepared = Prepared(messages: seq<WireMessage>) | ConversionFailed | PreparePanicked

  /** Every client but openai normalises the conversation first (allowing a
      system message unless told otherwise); then each message is converted. */
  function PreparedOf(c: ChatClient, ms: seq<Message>, isSupportSystemRole: Option<bool>,
                      encode: seq<Part> -> string): Prepared
  {
    var source := if c == OpenAiChat then Ok(ms) else Common.Normalize(ms, isSupportSystemRole.GetOr(true));
    match source
    case Panic(_) => PreparePanicked
    case Ok(turns) =>
      match ConvertAll(c, turns, encode)
      case None => ConversionFailed
      case Some(ws) => Prepared(ws)
  }

  /** The message preparation of `ChatCompletion` and `ChatCompletionStream`. */
  method PrepareMessages(c: ChatClient, messages: seq<Message>, isSupportSystemRole: Option<bool>,
                         encode: seq<Part> -> string) returns (r: Prepared)
    ensures r == PreparedOf(c, messages, isSupportSystemRole, encode)
  {
    var source := messages;
    if c != OpenAiChat {
      var turns := Common.HandleMessages(messages, isSupportSystemRole.GetOr(true));
      if turns.Panic? {
        return PreparePanicked;
      }
      source := turns.value;
    }
    var converted: seq<WireMessage> := [];
    for i := 0 to |source|
      invariant ConvertAll(c, source[..i], encode) == Some(converted)
    {
      var message := source[i];
      var content := ConvertContent(c, message.content, encode);
      assert source[..i + 1][..i] == source[..i];
      if content.None? {
        assert ConvertAll(c, source[..i + 1], encode) == None;
        ConvertFailurePersists(c, source, encode, i + 1);
        return ConversionFailed;
      }
      converted := converted + [WireMessage(message.role, message.name, content.value)];
    }
    assert source[..|source|] == source;
    r := Prepared(converted);
  }

  /** A failed conversion of a prefix fails the whole list. */
  lemma {:induction false} ConvertFailurePersists(c: ChatClient, ms: seq<Message>, encode: seq<Part> -> string, k: nat)
    requires k <= |ms| && ConvertAll(c, ms[..k], encode).None?
    ensures ConvertAll(c, ms, encode).None?
    decreases |ms| - k
  {
    if k < |ms| {
      assert ms[..k + 1][..k] == ms[..k];
      ConvertFailurePersists(c, ms, encode, k + 1);
    } else {
      assert ms[..k] == ms;
    }
  }

  /** Conversion keeps the list: it succeeds exactly when every content
      converts, and then message `j` keeps its role and name and carries its
      converted content. */
  lemma {:induction false} ConvertAllMessages(c: ChatClient, ms: seq<Message>, encode: seq<Part> -> string)
    ensures ConvertAll(c, ms, encode).Some? <==>
            forall j :: 0 <= j < |ms| ==> ConvertContent(c, ms[j].content, encode).Some?
    ensures ConvertAll(c, ms, encode).Some? ==>
            var ws := ConvertAll(c, ms, encode).value;
            |ws| == |ms| &&
            forall j :: 0 <= j < |ms| ==>
              ws[j] == WireMessage(ms[j].role, ms[j].name, ConvertContent(c, ms[j].content, encode).value)
    decreases |ms|
  {
    if |ms| > 0 {
      var init := ms[..|ms| - 1];
      ConvertAllMessages(c, init, encode);
      assert forall j :: 0 <= j < |init| ==> init[j] == ms[j];
    }
  }

  /** openai forwards the caller's messages as they are: no message is
      dropped, merged or re-roled, not even one with empty content. */
  lemma OpenAiForwardsAsGiven(ms: seq<Message>, isSupportSystemRole: Option<bool>, encode: seq<Part> -> string)
    ensures PreparedOf(OpenAiChat, ms, isSupportSystemRole, encode).Prepared?
    ensures var ws := PreparedOf(OpenAiChat, ms, isSupportSystemRole, encode).messages;
            |ws| == |ms| &&
            forall j :: 0 <= j < |ms| ==> ws[j] == WireMessage(ms[j].role, ms[j].name, AsGiven(ms[j].content))
  {
    ConvertAllMessages(OpenAiChat, ms, encode);
  }

  /** Roles alternate from `user` to `user`, after a system message when
      system roles are supported and the list starts with one. */
  predicate Alternating(ws: seq<WireMessage>, support: bool) {
    var h := if |ws| > 0 && ws[0].role == RoleSystem && support then 1 else 0;
    h <= |ws| && ((|ws| - h) % 2 == 1 || |ws| == h) &&
    forall j :: h <= j < |ws| ==> ws[j].role == Common.TurnRole(j - h)
  }

  /** The other clients send the normalised conversation: its roles
      alternate from `user` to `user` after an optional system message. */
  lemma {:induction false} PreparedAlternates(c: ChatClient, ms: seq<Message>, isSupportSystemRole: Option<bool>,
                           encode: seq<Part> -> string)
    requires c != OpenAiChat
    requires PreparedOf(c, ms, isSupportSystemRole, encode).Prepared?
    ensures Alternating(PreparedOf(c, ms, isSupportSystemRole, encode).messages, isSupportSystemRole.GetOr(true))
  {
    var support := isSupportSystemRole.GetOr(true);
    assert Common.Normalize(ms, support).Ok?;
    var turns := Common.Normalize(ms, support).value;
    assert ConvertAll(c, turns, encode).Some?;
    var ws := ConvertAll(c, turns, encode).value;
    assert PreparedOf(c, ms, isSupportSystemRole, encode).messages == ws;
    assert |ws| == |turns| && forall j :: 0 <= j < |ws| ==> ws[j].role == turns[j].role by {
      ConvertAllMessages(c, turns, encode);
    }
    var h := Common.NormalizeAlternates(ms, support, turns);
    RolesCarryOver(turns, ws, h, support);
  }

  /** Converted messages keep the roles of the turns, so the alternation
      after an optional system message carries over to them. */
  lemma RolesCarryOver(turns: seq<Message>, ws: seq<WireMessage>, h: nat, support: bool)
    requires |ws| == |turns| && forall j :: 0 <= j < |ws| ==> ws[j].role == turns[j].role
    requires h <= 1 && h <= |turns| && ((|turns| - h) % 2 == 1 || |turns| == h)
    requires forall j :: h <= j < |turns| ==> turns[j].role == Common.TurnRole(j - h)
    requires h == 1 <==> support && |turns| > 0 && turns[0].role == RoleSystem
    ensures Alternating(ws, support)
  {
  }
}
