# fastapi-sdk adapter logic in Dafny

This project models the decision logic that the Go SDK `fastapi-sdk` runs around its
calls to chat and image providers. Network and socket calls are not modelled. What
happens on the wire is taken as input: a finite sequence of receive results with clock
readings, a sequence of frames, or a function from attempt number to attempt outcome.
The model then proves what the SDK builds from that input.

The model covers:

- **The conversation normaliser** `common.HandleMessages`.
  - It drops messages whose content is exactly `""`.
  - It detaches a leading system message.
  - If an even number of turns remains, it drops the oldest one.
  - It re-roles the rest `user, assistant, …, user`.
  - It is a method with loops, proved equal to the function `Normalize`.
- **Two small routines from the same file:**
  - `GetMime`: the data-URI prefix, then a table of magic prefixes.
  - `RandomString`: rejection sampling from random 63-bit words, which are an input sequence.
- **The Xfyun adapter:**
  - splitting the key, and the domain chosen by the version suffix, with its rounding fallback;
  - the signing string;
  - the WebSocket and HTTP URLs;
  - message preparation;
  - the non-streaming frame loop and the streaming frame loop.
- **The error classifiers:**
  - the OpenAI-style table used by the compatible, openai, hyperbolic and cloudflare adapters;
  - the ai360 table;
  - the xfyun table.
- **The streaming loop of the five HTTP adapters** (compatible, ai360, openai, hyperbolic, cloudflare).
  - A single loop with a per-adapter parameter covers all five.
  - It is proved against a specification function.
  - Lemmas state the event shape, the timing fields and each adapter's termination rule.
- **Image generation:**
  - size parsing with its ordered separators;
  - the request URL and body for each provider;
  - the aggregation loop, including its rule that the error is returned only when N is 1;
  - Xfyun's single-request image call.
- **Adapter constructors and request shaping:**
  - default base URLs and the proxy transport;
  - the Azure API version;
  - the compatible client's guard;
  - Hyperbolic's unconditional `proxyURL[0]`;
  - Cloudflare's conditional fields;
  - `MaxTokens` forwarding, `StreamOptions` defaulting, completion ID prefixes and message-content conversion.
- **The dispatcher** `chat.NewClient`: an exact string switch that falls back to the OpenAI adapter.

Go panics (an index out of range, a slice out of bounds) are modelled as results: `Outcome.Panic`, `Step.Crash`, `StreamEnd.Panicked` and `ImageOutcome.ImagePanicked`. Cryptography, base64, URL escaping, JSON encoding and URL parsing of proxies are function-typed parameters.

What the code does in three places where a reader might expect otherwise:

- **Empty conversation.** When system roles are supported, `HandleMessages` panics on a list with no kept message. It does not return the empty list. When they are not supported, it returns `[]`.
- **Last role.** The normalised turns always end with `user`. They do not end with a role that depends on the parity of the original list.
- **End of stream.**
  - Only compatible and ai360 send a separate end-of-stream event.
  - openai sets `io.EOF` on its final chunk.
  - hyperbolic and cloudflare send no end-of-stream event at all.

## Model

| member | source | states |
|---|---|---|
| Common.Normalize | common/common.go:37-72 | the normaliser panics iff system roles are supported and no message has content; otherwise it returns at most as many messages as it keeps |
| Common.HandleMessages | common/common.go:37-72 | the filter, detach, drop and re-role loops compute exactly `Normalize` |
| Common.FilterEmpty | common/common.go:44-48 | the append loop keeps exactly the messages `Kept` keeps, in order |
| Common.Rerole | common/common.go:59-65 | the backward loop over the array of turns gives exactly `Alternate` of them |
| Common.KeptMembership | common/common.go:44-48 | a message survives the filter iff it was in the input and its content is not the literal `""` |
| Common.KeptIdentity | common/common.go:44-48 | the filter changes nothing iff no message has empty content |
| Common.KeptAppend | common/common.go:44-48 | filtering distributes over concatenation, so relative order is kept |
| Common.KeptShorter | common/common.go:44-48 | the filter never lengthens the list |
| Common.KeptNonEmpty | common/common.go:44-48 | no kept message has empty content |
| Common.KeptFirst | common/common.go:44-48 | the first kept message is the first input message with non-empty content |
| Common.KeptIdentityEmpty | common/common.go:44-48 | an input whose contents are all empty keeps nothing |
| Common.NormalizePanicsIff | common/common.go:50 | the normaliser panics iff system roles are supported and every content is empty |
| Common.NormalizeSplits | common/common.go:50-69 | the output is the detached system message (if any) followed by the re-roled turns |
| Common.NormalizeKeepsSystem | common/common.go:50-53 | a leading system message, when system roles are supported, comes back unchanged at index 0 |
| Common.TurnsOdd | common/common.go:55-57 | after dropping the oldest of an even count, the turns are odd in number or empty |
| Common.NormalizeAlternates | common/common.go:50-65 | after the first h messages the roles alternate user/assistant by index, and the turns are odd in number and start and end with `user`; h is one iff system roles are supported and the output starts with a system message |
| Common.TurnsAlternate | common/common.go:59-65 | re-roled turns alternate by index and start and end with `user` |
| Common.Alternate | common/common.go:59-65 | re-roling keeps the length |
| Common.AlternateIdempotent | common/common.go:59-65 | re-roling twice is re-roling once |
| Common.TurnsOfOdd | common/common.go:55-57 | an odd list with nothing to detach is its own turns |
| Common.NormalizeKeepsOrder | common/common.go:44-69 | the output is the kept list less the dropped oldest turn, and past the detached system message each output message has the content and name of the kept message it came from, shifted by the number dropped |
| Common.NormalizeContentsNonEmpty | common/common.go:44-48 | no output message has empty content |
| Common.NormalizeIdempotent | common/common.go:37-72 | normalising a normalised list gives it back |
| Common.MagicExtension | common/common.go:90-105 | the first three characters choose one of jpg, png, webp, gif, pdf or txt |
| Common.GetMime | common/common.go:74-105 | the data is the text after the first `base64,`, or the whole URL without the marker; a panic happens only when that data is shorter than three bytes |
| Common.GetMimeImageUri | common/common.go:76-88 | `data:image/X;base64,P` gives MIME `image/X` and data `P` |
| Common.GetMimeTextUri | common/common.go:76-88 | `data:text/X;base64,P` gives MIME `text/X` and data `P` |
| Common.GetMimeRaw | common/common.go:90-105 | without `base64,` the data is the whole string; fewer than three bytes panics, and otherwise the magic table decides |
| Common.GetMimePayload | common/common.go:76-88 | the data returned is the text between the first `base64,` and the next one |
| Common.MarkerPayload | common/common.go:76-78 | a URL holding `base64,` is a header, the marker, a marker-free second piece and a remainder that is empty or starts with the marker |
| Common.SplitAtMarker | common/common.go:76-78 | a comma-free header, the marker and a marker-free payload split into exactly the header and the payload |
| Common.SplitAtSemicolon | common/common.go:80-86 | the MIME subtype is the text before the first `;` |
| Common.FirstPieceKeepsPrefix | common/common.go:76-80 | a prefix free of the marker's first character stays inside the first split piece |
| Common.AbsentCharNoOccurrence | common/common.go:76-78 | a string lacking one of the marker's characters does not contain the marker |
| Common.WordGroups | common/common.go:13-15 | one random word yields ten 6-bit letter indices |
| Common.Accepted | common/common.go:26-29 | every accepted index is below the alphabet size |
| Common.AcceptedAppend | common/common.go:26-29 | acceptance distributes over concatenation |
| Common.FillBackward | common/common.go:20-29 | the filled buffer has exactly the requested length |
| Common.SamplingStart | common/common.go:22 | the loop state after the first word is consistent with the sampling |
| Common.SamplingRefresh | common/common.go:23-25 | taking the next word when the cache is exhausted keeps the state consistent |
| Common.SamplingDraw | common/common.go:26-31 | an accepted 6-bit index is taken, a rejected one is skipped, and the cache is shifted |
| Common.SamplingExhausted | common/common.go:22-32 | once every word is consumed the taken indices are all the accepted ones |
| Common.SamplingPrefix | common/common.go:22-32 | the taken indices are always a prefix of the accepted ones |
| Common.FillBackwardSnoc | common/common.go:26-29 | taking one more index puts its letter in front of the string filled so far |
| Common.FillBackwardOfPrefix | common/common.go:26-29 | the string is determined by the first accepted indices only |
| Common.RandomSpecShape | common/common.go:19-35 | the returned string has exactly n characters from the 62-letter alphabet, the last filled first |
| Common.RandomString | common/common.go:19-35 | the sampling loop computes `RandomSpec`: n letters filled from the last index down, a panic for negative n, no string when the words run out |
| Common.FillLetters | common/common.go:22-32 | the loop fills the buffer iff enough indices are accepted, and then holds the letters of the first accepted indices from the last position down |
| Common.FillStep | common/common.go:22-32 | one pass keeps the loop state consistent and moves down exactly when an index is accepted, or reports that the words ran out before the buffer was full |
| Common.NextIndex | common/common.go:23-31 | a fresh word is taken when the cache is used up; the low six bits are taken as an index when below 62 and skipped otherwise |
| Common.PutLetter | common/common.go:27-28 | writing the letter at i puts it in front of the filled tail and leaves the positions below i unchanged |
| Classifier.OpenAiStyleTable | compatible/compatible.go:487-518 | 400+context_length_exceeded, 401+invalid_api_key, any 404 and 429+insufficient_quota are recognised; request failures become status 0; everything else passes through unchanged |
| Classifier.Ai360StyleTable | ai360/ai360.go:364-401 | 400+1001 and 429+1005 give context length, 401+1002 invalid key, 401+1004/1006 quota, 404 model not found; request failures get status 0; the rest pass through |
| Classifier.XfyunStyleTable | xfyun/xfyun.go:562-570 | codes 10163 and 10907 give context length and every other code gives ApiError(500, code, frame) |
| Classifier.ClassifiersIgnoreMessage | compatible/compatible.go:487-510 | the classification depends on status and code, not the message |
| Classifier.NumericCodesPassThrough | ai360/ai360.go:364-393 | a numeric code is recognised only by a 404 |
| Classifier.TablesDiffer | ai360/ai360.go:364-393 | the ai360 table maps codes the OpenAI table passes through and vice versa |
| Streaming.HandleReading | compatible/compatible.go:248-317 | one loop iteration produces exactly `StepOf` |
| Streaming.HandleChunk | compatible/compatible.go:268-314 | the handling of a received chunk or `io.EOF` produces exactly `ChunkStep` |
| Streaming.ForwardOne | compatible/compatible.go:248-317 | one iteration either ends the stream as `Run` does or leaves the rest of `Run` to the remaining readings |
| Streaming.ForwardStream | compatible/compatible.go:248-317 | the stream loop sends exactly the events of `Run` and stops as it says |
| Streaming.ChatCompletionStream | openai/openai.go:206-322 | a failure to open is classified and sends nothing; otherwise the loop runs |
| Streaming.StepEventShape | compatible/compatible.go:257-314 | each event is well timed, carries usage only where the adapter copies it, and has the `chatcmpl-` prefix where the adapter adds one |
| Streaming.ChunkStepShape | compatible/compatible.go:268-314 | every event built from a chunk is well timed, carries usage only where the adapter copies it, and has the `chatcmpl-` prefix where the adapter adds one |
| Streaming.RunEventShape | compatible/compatible.go:257-314 | every event of a run has that shape |
| Streaming.StepDuration | compatible/compatible.go:297-306 | an event's duration is its reading's time minus the connection time |
| Streaming.RunDurationsFrom | compatible/compatible.go:297-306 | no event is timed before the earliest reading |
| Streaming.RunDurationsMonotone | compatible/compatible.go:297-306 | with nondecreasing readings, event durations are nondecreasing |
| Streaming.StepFinalEvents | compatible/compatible.go:287-310 | a finishing step emits the adapter's final events, and a continuing step carries no error |
| Streaming.RunEnds | compatible/compatible.go:250-310 | every event before the end carries no error; a run that returns ends with exactly the adapter's final events (error event; stop chunk and EOF; stop chunk alone; EOF on the chunk) |
| Streaming.NoEofEvent | hyperbolic/hyperbolic.go:310-326 | hyperbolic and cloudflare never send an end-of-stream event |
| Streaming.StepCrashes | compatible/compatible.go:278-287 | an iteration panics iff the adapter is not openai and a received chunk has no choices |
| Streaming.OpenAiNeverPanics | openai/openai.go:289-315 | the openai loop never panics |
| Streaming.OpenAiChunksContinue | openai/openai.go:289-303 | openai forwards every chunk with its id and usage, and adds a stop choice when usage comes without choices |
| Streaming.Ai360UsageEndsStream | ai360/ai360.go:274-305 | an ai360 chunk with usage has usage copied, choice 0 forced to stop, and is followed by one EOF event |
| Streaming.EndedStep | compatible/compatible.go:287-310 | on `io.EOF` the non-openai adapters emit a synthesised stop choice; openai emits one event carrying EOF |
| Streaming.FailureStep | compatible/compatible.go:250-266 | a receive error yields exactly one event carrying that error, and the loop returns |
| Xfyun.KeyPartsRoundTrip | xfyun/xfyun.go:51-56 | a key built as appId\|secret\|key splits back into its parts, and anything after a third `\|` is ignored |
| Xfyun.DomainForVersion | xfyun/xfyun.go:64-88 | choosing the domain panics iff the version segment is empty; otherwise the domain is `4.0Ultra` or starts with `general` |
| Xfyun.DomainPanicsIff | xfyun/xfyun.go:64-88 | choosing the domain panics iff the base URL is non-empty and ends with `/` |
| Xfyun.DomainFallback | xfyun/xfyun.go:82-88 | with v the number after the first byte, an unknown version rounds up to `general`+version, otherwise `generalv`+integer part |
| Xfyun.VersionNumber | xfyun/xfyun.go:82 | the number read after the first byte is never negative, and is 0 when the first character is not ASCII |
| Xfyun.NonAsciiLeadIsZero | xfyun/xfyun.go:82-87 | an unknown version starting with a non-ASCII character gets domain `generalv0` |
| Xfyun.RoundHalfUpAbove | xfyun/xfyun.go:84 | rounding goes above the value iff the fraction is at least one half |
| Xfyun.NewClient | xfyun/xfyun.go:45-103 | the constructor panics exactly as `Configured` does, and otherwise the new client's fields are `Configured`'s state |
| Xfyun.ConfiguredPanicsIff | xfyun/xfyun.go:51-88 | building a client panics iff the key has fewer than three `\|` parts or a base URL with an empty last segment is given; without overrides the base URL, domain, path and proxy are the defaults |
| Xfyun.Client.ApplyBaseUrl | xfyun/xfyun.go:64-89 | a given base URL is stored with the domain of its last segment, or the domain choice panics |
| Xfyun.Client.constructor | xfyun/xfyun.go:53-62 | the initial field values |
| Xfyun.Client.HttpUrl | xfyun/xfyun.go:520-533 | the HTTP URL switches the origin to the image host, signs a POST and yields `""` when signing fails |
| Xfyun.IndexOrEnd | xfyun/xfyun.go:535-547 | the host ends at the first `/` |
| Xfyun.ParseOrigin | xfyun/xfyun.go:537-547 | a host followed by a `/` tail parses into that host and tail |
| Xfyun.SignatureLayout | xfyun/xfyun.go:535-560 | the signed string is `host: H\ndate: D\nMETHOD P HTTP/1.1`, with P the last base-URL segment plus the path |
| Xfyun.DefaultClientSigning | xfyun/xfyun.go:535-560 | the default client signs `/v4.0/chat` against the default host |
| Xfyun.LastSlashBefore | xfyun/xfyun.go:537 | the last segment of the base URL is the text after its last `/` |
| Xfyun.WsSchemeRewrites | xfyun/xfyun.go:505-518 | `https://` becomes `wss://` and `http://` becomes `ws://` |
| Xfyun.WebSocketUrlLayout | xfyun/xfyun.go:505-518 | the socket URL is the rewritten base URL and path with `authorization`, `date` and `host` query parameters |
| Xfyun.RequestMaxTokens | xfyun/xfyun.go:126-129 | zero becomes 4096 and any other value is kept |
| Xfyun.PrepareMessages | xfyun/xfyun.go:115-124 | preparation panics iff normalisation does (system roles count as supported when unset), and otherwise keeps every normalised message's content and name, changing a role at most |
| Xfyun.PreparedEndsWithUser | xfyun/xfyun.go:115-124 | after preparation a lone system message becomes user, the last message is user, and no later message is system |
| XfyunFrames.CollectFrames | xfyun/xfyun.go:180-207 | the non-streaming loop computes `Collect`: content concatenated up to the last frame, or the first error |
| XfyunFrames.CollectFinishedFrame | xfyun/xfyun.go:180-207 | the loop ends with an answer only at an error-free frame of status 2 that has text, whose first text gives the role; usage seen earlier is never lost |
| XfyunFrames.Complete | xfyun/xfyun.go:209-230 | the answer is built iff the loop finished and some frame carried usage; a finished loop without usage panics; a stopped loop returns its error |
| XfyunFrames.CompletedAnswer | xfyun/xfyun.go:180-230 | the built answer has id `chatcmpl-` plus the last session id, one choice with the last frame's sequence number and role and the concatenation of every streamed delta, the latest usage and no error |
| XfyunFrames.ForwardFrames | xfyun/xfyun.go:316-418 | the streaming loop sends exactly the events of `FrameRun` |
| XfyunFrames.ReadsOf | xfyun/xfyun.go:316-337 | the streaming readings carry the same socket reads |
| XfyunFrames.LoopsStopAlike | xfyun/xfyun.go:180-207 | both loops stop at the same frame: finished iff the stream ends with EOF, stopped iff it ends with the same error, panicked and pending alike |
| XfyunFrames.LoopsAgreeOnContent | xfyun/xfyun.go:202 | the non-streaming content is the concatenation of the streamed deltas |
| XfyunFrames.FrameRunEnds | xfyun/xfyun.go:316-418 | every event before the end is a prefixed content event; a return ends in one error event, or a stop event then exactly one EOF event |
| XfyunFrames.FrameRunTiming | xfyun/xfyun.go:316-418 | every streamed event is well timed |
| Images.ParseSize | compatible/image.go:31-57 | the reassigning parse computes `SizeOf` |
| Strings.IntOrZero | compatible/image.go:54-55 | a piece starting with `-` reads as zero or below, any other as zero or above |
| Strings.IntOrZeroTruncates | compatible/image.go:54-55 | `W.F` reads as W and `-W.F` as -W: the fraction is cut toward zero |
| Strings.IntOrZeroDigits | compatible/image.go:54-55 | a piece of plain digits reads as its decimal value |
| Strings.IntegerPartIsFloor | compatible/image.go:54-55 | the integer reading of an unsigned piece is the floor of its exact decimal reading |
| Images.SizeSeparator | compatible/image.go:35-52 | each separator is a single character in the order tried |
| Images.SizePiecesRejoin | compatible/image.go:31-57 | parsed pieces rejoin with a tried separator that neither contains |
| Images.SizeRoundTrip | compatible/image.go:31-57 | `W sep H` with any listed separator parses back to (W, H) |
| Images.SizeSkipsAbsent | compatible/image.go:31-57 | separators that are not present are passed over |
| Images.WithTrailingSlash | compatible/image.go:62-66 | the URL gains a `/` only when it lacks one |
| Images.RequestUrl | compatible/image.go:60-67 | the URL is base plus path; for Cloudflare it is followed by exactly one `/` and the model; an empty Cloudflare URL panics |
| Images.RequestBody | compatible/image.go:70-74 | prompt, width and height always; `model_name` only for Hyperbolic; `negative_prompt` `""` only for Cloudflare's own client |
| Images.FormatOf | compatible/image.go:139-184 | `url` and `""` select URL, `b64_json` selects base64, anything else is invalid |
| Images.AttemptStep | compatible/image.go:126-185 | request and processor failures set the error only for the compatible client; a bad format halts; a kept image has the prompt and one field per format |
| Images.Iterations | compatible/image.go:126 | the loop runs N times, or none for N ≤ 0 |
| Images.GatherHalted | compatible/image.go:126-186 | after a halt later iterations change nothing |
| Images.HandleAttempt | compatible/image.go:126-185 | one iteration computes `AttemptStep` |
| Images.RunAttempts | compatible/image.go:126-186 | the attempt loop computes `Gather` over `Iterations(N)` |
| Images.GenerateImages | compatible/image.go:21-193 | the request and result are exactly `CallOf` and `ImageResult` |
| Images.GatherBounds | compatible/image.go:120-185 | at most N images, each with the request prompt and the field of its format; none for a bad format; no error outside the compatible client |
| Images.GatherAllKept | compatible/image.go:126-185 | when every attempt succeeds all N images are kept, in order |
| Images.SingleImageFailure | compatible/image.go:187-192 | with N = 1, a failing request is returned as the error |
| Images.FailuresStaySilent | compatible/image.go:187-192 | with N ≠ 1, or outside the compatible client, attempt failures are not returned |
| Images.NoFormatHalt | compatible/image.go:139-184 | a valid format never halts the loop |
| Images.UnknownFormat | compatible/image.go:181-183 | an unknown format returns no images and "invalid response format" |
| Images.CloudflareUrlImages | cloudflare/cloudflare_test.go:96-108 | Cloudflare in URL format gives N images, each with a URL and no base64 |
| Images.XfyunImageCallOf | xfyun/xfyun.go:466-488 | domain `general`, the parsed size, and the prompt as one user message |
| Images.XfyunImageResult | xfyun/xfyun.go:489-502 | a failed post is returned; an empty answer panics; otherwise one image whose base64 is the first text |
| Adapters.TransportOf | hyperbolic/hyperbolic.go:53-66 | no proxy means a direct transport; a proxy that does not parse panics; otherwise that proxy is used |
| Adapters.PlainConfig | openai/openai.go:23-53 | token and transport as given; the base URL when non-empty, else the fallback |
| Adapters.Ai360Config | ai360/ai360.go:33-38 | an empty base URL becomes `https://api.360.cn/v1` |
| Adapters.OpenAiConfig | openai/openai.go:23-53 | the library default is kept iff the base URL is empty |
| Adapters.ApiVersionOf | openai/openai.go:62-70 | a version taken from the path is non-empty and holds no marker |
| Adapters.ApiVersionRoundTrip | openai/openai.go:62-70 | `…?api-version=V` yields V |
| Adapters.ApiVersionAbsent | openai/openai.go:62-70 | a path without the marker keeps the default |
| Adapters.AzureConfig | openai/openai.go:55-91 | an Azure configuration with the given base URL and the version from the path |
| Adapters.NewCompatibleClient | compatible/compatible.go:38-57 | construction panics iff the base URL is empty; otherwise every argument is stored |
| Adapters.CompatibleConfig | compatible/compatible.go:58-75 | the configuration uses the stored base URL and token, and panics only on a bad proxy |
| Adapters.HyperbolicClient.constructor | hyperbolic/hyperbolic.go:68-77 | the initial field values |
| Adapters.NewHyperbolicClient | hyperbolic/hyperbolic.go:37-95 | panics iff no proxy argument is given or the proxy does not parse; otherwise the default base URL `https://api.hyperbolic.xyz/v1` and the given fields |
| Adapters.CloudflareClient.constructor | cloudflare/cloudflare.go:73-79 | the initial field values, with empty base URL, path and proxy |
| Adapters.NewCloudflareClient | cloudflare/cloudflare.go:42-98 | the configuration defaults to the gateway URL; stored base URL, path and proxy are set only when given |
| Adapters.StreamAdapter | compatible/compatible.go:170-317 | each client kind's `ChatCompletionStream` runs its own loop, and no two kinds share one: compatible here, and likewise ai360/ai360.go:154-313, openai/openai.go:173-322, hyperbolic/hyperbolic.go:190-333 and cloudflare/cloudflare.go:193-336 |
| Adapters.CompletionId | compatible/compatible.go:146 | compatible, hyperbolic and cloudflare add `chatcmpl-`; ai360 and openai pass the id through |
| Adapters.ForwardedMaxTokens | hyperbolic/hyperbolic.go:139 | `MaxTokens` is forwarded unchanged except by the compatible client for Hyperbolic and by Hyperbolic's non-streaming call |
| Adapters.StreamOptionsOf | openai/openai.go:200-204 | missing stream options become `IncludeUsage: true`, and given ones are kept |
| Adapters.ConvertContent | hyperbolic/hyperbolic.go:114-134 | conversion fails iff a list holds a non-object for a client that decodes lists; lists become parts and text stays text |
| Adapters.PrepareMessages | hyperbolic/hyperbolic.go:107-134 | the normalise-then-convert loop computes `PreparedOf` |
| Adapters.ConvertFailurePersists | hyperbolic/hyperbolic.go:114-134 | a failing prefix fails the whole conversion |
| Adapters.ConvertAllMessages | hyperbolic/hyperbolic.go:114-134 | conversion succeeds iff every message converts, keeping roles, names and order |
| Adapters.OpenAiForwardsAsGiven | openai/openai.go:103-116 | openai forwards every message as given, without normalisation |
| Adapters.PreparedAlternates | ai360/ai360.go:71-97 | the other clients send normalised, alternating turns |
| Dispatch.SelectAdapter | chat.go:30-65 | any adapter other than OpenAI is chosen only for one of the ten listed names other than OpenAI, and every unlisted name gets the OpenAI adapter |
| Dispatch.Lookup | chat.go:30-65 | a name absent from the table selects the OpenAI adapter |
| Dispatch.SelectIsLookup | chat.go:30-65 | the switch is a first-match lookup in the table of ten providers |
| Dispatch.LookupSkips | chat.go:30-62 | entries naming other providers do not affect the choice |
| Dispatch.ListedSelectOwnAdapter | chat.go:30-62 | each of the ten listed names selects its own, distinct adapter |
| Dispatch.UnlistedFallsBack | chat.go:64-65 | any unlisted name selects the OpenAI adapter without error |
| Dispatch.FallbackExamples | chat.go:34-36 | Hyperbolic, Siliconflow, groq and names differing in case fall back; only `Azure` selects the Azure constructor |
| Dispatch.NewClient | chat.go:25-66 | the other arguments reach the constructor unchanged |
| Dispatch.SelectionIgnoresArguments | chat.go:30-65 | the choice depends on the provider name alone |

## Left out

- Network, socket and HTTP calls are left out. Chunks, frames, upload results and image bytes are inputs to the model.
- Goroutines and channels are left out. A stream's events are a returned sequence, and a panic in the worker is the `Panicked` end.
- HMAC-SHA256, base64, URL escaping, the GMT date layout and JSON encoding are function-typed parameters with no interpretation.
- Clocks are inputs. The xfyun request `uid` (`grand.Digits`) is not modelled, because it only fills a header field.
- JSON decoding is left out. A frame or chunk is given already decoded. An undecodable message is an input case carrying the message and the decoder's error text, and both appear in the reported error.
- XfyunFrames.Collect: the non-streaming loop decodes every frame into one reused record. The model carries over only the usage. The session id, status and texts are taken from each frame as sent; a frame that left them out would keep the earlier frame's values in the Go record.
- `url.Parse` of a proxy is a predicate parameter. The Xfyun host and path split is simplified to scheme, host up to the first `/`, and the rest; a control character fails it.
- Xfyun.VersionNumber: `gconv.Float64` is read without a sign, so the number is never negative. A segment such as `v-3` reads as -3 in Go and as 0 here.
- Xfyun.DomainFallback: `gconv.Float64` is read as an exact non-negative decimal. Signs, exponents, and float64 rounding of long decimals are not modelled. A leading non-ASCII character is modelled: the bytes left start mid-character and read as 0.
- Strings.IntOrZero: `gconv.Int` is read for an optional sign followed by decimal digits or a `D.D` decimal truncated toward zero. Hexadecimal `0x…` input, exponents and the int64 range are not modelled.
- Adapters.PlainConfig: the go-openai library's own default base URL and API version are represented as `None`, because that library is not part of this model.
- Adapters.ConvertContent: a list is encoded with `gjson.MustEncode` and decoded into parts with `gjson.Unmarshal`. A decoding error is returned and modelled as a failed conversion. The panic `MustEncode` raises on a value it cannot encode is not modelled.
- The upload of image bytes (oss) is the attempt's `converted` result. The upload itself is not part of this model.
- The `Image` and `genImage` copy inside compatible/compatible.go is left out. It duplicates compatible/image.go, which is modelled.
- The Baidu, Aliyun, ZhipuAI, Google and DeepSeek adapters are not part of this model. The dispatcher models only the choice of adapter kind.
- Audio, Midjourney, logging and the live-API tests are left out. They are I/O or observation only.
- The non-streaming chat calls of the HTTP adapters are left out. They are one network call each. Only their request shaping is modelled: messages, `MaxTokens` and IDs.
