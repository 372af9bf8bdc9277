/** The SDK's entry point: `NewClient` picks the adapter for a provider name.
    Only the choice is modelled; the constructors it calls receive the
    remaining arguments unchanged. */
module Dispatch {
  import opened Canonical

  /** The adapter constructors the entry point can call. */
  datatype AdapterKind =
    | OpenAiAdapter | AzureAdapter | BaiduAdapter | XfyunAdapter | AliyunAdapter
    | ZhipuAiAdapter | GoogleAdapter | DeepSeekAdapter | Ai360Adapter | CloudflareAdapter

  /** The switch of `NewClient`: an exact, case-sensitive match on the
      provider name, and the OpenAI adapter for every other name. */
  function SelectAdapter(corp: string): (k: AdapterKind)
    ensures k != OpenAiAdapter ==> corp in ListedNames && corp != CorpOpenAi
    ensures corp !in ListedNames ==> k == OpenAiAdapter
  {
    if corp == CorpOpenAi then OpenAiAdapter
    else if corp == CorpAzure then AzureAdapter
    else if corp == CorpBaidu then BaiduAdapter
    else if corp == CorpXfyun then XfyunAdapter
    else if corp == CorpAliyun then AliyunAdapter
    else if corp == CorpZhipuAi then ZhipuAiAdapter
    else if corp == CorpGoogle then GoogleAdapter
    else if corp == CorpDeepSeek then DeepSeekAdapter
    else if corp == Corp360Ai then Ai360Adapter
    else if corp == CorpCloudflare then CloudflareAdapter
    else OpenAiAdapter
  }

  /** The provider names the switch lists. */
  const ListedNames: set<string> := {CorpOpenAi, CorpAzure, CorpBaidu, CorpXfyun, CorpAliyun, CorpZhipuAi,
                                     CorpGoogle, CorpDeepSeek, Corp360Ai, CorpCloudflare}

  /** The providers the switch names, each with its own adapter. */
  const Listed: seq<(string, AdapterKind)> := [
    (CorpOpenAi, OpenAiAdapter), (CorpAzure, AzureAdapter), (CorpBaidu, BaiduAdapter),
    (CorpXfyun, XfyunAdapter), (CorpAliyun, AliyunAdapter), (CorpZhipuAi, ZhipuAiAdapter),
    (CorpGoogle, GoogleAdapter), (CorpDeepSeek, DeepSeekAdapter), (Corp360Ai, Ai360Adapter),
    (CorpCloudflare, CloudflareAdapter)
  ]

  /** A reference reading of the switch as a table lookup: the first entry
      whose name equals `corp`, or the OpenAI adapter. */
  function Lookup(table: seq<(string, AdapterKind)>, corp: string): (k: AdapterKind)
    ensures (forall i :: 0 <= i < |table| ==> table[i].0 != corp) ==> k == OpenAiAdapter
  {
    if |table| == 0 then OpenAiAdapter
    else if table[0].0 == corp then table[0].1
    else Lookup(table[1..], corp)
  }

  /** The switch is the table lookup, for every name. */
  lemma SelectIsLookup(corp: string)
    ensures SelectAdapter(corp) == Lookup(Listed, corp)
  {
    var k := if corp == CorpOpenAi then 0 else if corp == CorpAzure then 1 else if corp == CorpBaidu then 2
             else if corp == CorpXfyun then 3 else if corp == CorpAliyun then 4 else if corp == CorpZhipuAi then 5
             else if corp == CorpGoogle then 6 else if corp == CorpDeepSeek then 7 else if corp == Corp360Ai then 8
             else if corp == CorpCloudflare then 9 else 10;
    forall j | 0 <= j < k ensures Listed[j].0 != corp {
      if j == 0 {
      } else if j == 1 {
      } else if j == 2 {
      } else if j == 3 {
      } else if j == 4 {
      } else if j == 5 {
      } else if j == 6 {
      } else if j == 7 {
      } else if j == 8 {
      } else {
        assert j == 9;
      }
    }
    LookupSkips(Listed, corp, k);
    if k < |Listed| {
      assert Listed[k..][0] == Listed[k];
    }
  }

  /** Entries named otherwise than `corp` do not affect the lookup. */
  lemma {:induction false} LookupSkips(table: seq<(string, AdapterKind)>, corp: string, i: nat)
    requires i <= |table|
    requires forall j :: 0 <= j < i ==> table[j].0 != corp
    ensures Lookup(table, corp) == Lookup(table[i..], corp)
  {
    if i > 0 {
      assert table[1..][i - 1..] == table[i..];
      LookupSkips(table[1..], corp, i - 1);
    }
  }

  /** Each listed name selects its own adapter, and no two listed names
      share one. */
  lemma ListedSelectOwnAdapter()
    ensures forall i :: 0 <= i < |Listed| ==> SelectAdapter(Listed[i].0) == Listed[i].1
    ensures forall i, j :: 0 <= i < j < |Listed| ==> Listed[i].1 != Listed[j].1 && Listed[i].0 != Listed[j].0
  {
  }

  /** A name the switch does not list falls back to the OpenAI adapter,
      without an error. */
  lemma UnlistedFallsBack(corp: string)
    requires forall i :: 0 <= i < |Listed| ==> Listed[i].0 != corp
    ensures SelectAdapter(corp) == OpenAiAdapter
  {
    SelectIsLookup(corp);
  }

  /** Providers with adapters of their own elsewhere in the SDK, and names
      differing only in case, still get the OpenAI adapter; only `Azure`
      gets the Azure constructor. */
  lemma FallbackExamples()
    ensures SelectAdapter(CorpHyperbolic) == OpenAiAdapter
    ensures SelectAdapter(CorpSiliconflow) == OpenAiAdapter
    ensures SelectAdapter(CorpGroq) == OpenAiAdapter
    ensures SelectAdapter("openai") == OpenAiAdapter && SelectAdapter("azure") == OpenAiAdapter
    ensures SelectAdapter("cloudflare") == OpenAiAdapter
    ensures forall corp :: SelectAdapter(corp) == AzureAdapter <==> corp == CorpAzure
  {
  }

  /** The arguments `NewClient` passes on to the chosen constructor. */
  datatype ClientArgs = ClientArgs(model: string, key: string, baseURL: string, path: string,
                                   isSupportSystemRole: Option<bool>, endpoint: string, region: string,
                                   accessKey: string, secretKey: string, bucket: string, domain: string,
                                   proxyURL: seq<string>)

  datatype Construction = Construction(kind: AdapterKind, args: ClientArgs)

  /** `NewClient`: the choice depends on the provider name alone, and the
      other arguments reach the constructor unchanged. */
  function NewClient(corp: string, args: ClientArgs): (c: Construction)
    ensures c.args == args
  {
    Construction(SelectAdapter(corp), args)
  }

  /** Two calls naming the same provider choose the same adapter, whatever
      their other arguments. */
  lemma SelectionIgnoresArguments(corp: string, a1: ClientArgs, a2: ClientArgs)
    ensures NewClient(corp, a1).kind == NewClient(corp, a2).kind
  {
  }
}
