/** Image generation as the adapters shape it around their HTTP calls: the size
    string, the request URL and body per provider, and the loop that asks the
    provider `n` times and gathers what comes back. The calls themselves (the
    POST, the upload to object storage, the download of a provider URL) are an
    oracle: attempt `i` of the loop is `attempts(i)`. */
module Images {
  import opened Canonical
  import opened Strings
  import Common
  import XfyunFrames

  const DefaultWidth: int := 512
  const DefaultHeight: int := 512

  /** The separators tried, in this order, on a size such as `1024x768`. */
  const SizeSeparators: seq<string> := ["×", "x", "X", "*", ":"]

  function SizeSeparator(k: nat): (sep: string)
    requires k < |SizeSeparators|
    ensures |sep| == 1 && sep == SizeSeparators[k]
  {
    if k == 0 then "×" else if k == 1 then "x" else if k == 2 then "X" else if k == 3 then "*" else ":"
  }

  /** The two pieces of the first split, trying the separators from index `k`
      on, that gives exactly two pieces. */
  function SizePieces(size: string, k: nat): Option<(string, string)>
    requires k <= |SizeSeparators|
    decreases |SizeSeparators| - k
  {
    if k == |SizeSeparators| then None
    else
      var ps := Split(size, SizeSeparator(k));
      if |ps| == 2 then Some((ps[0], ps[1])) else SizePieces(size, k + 1)
  }

  /** Width and height of an image request: 512×512 unless some separator
      splits the size into exactly two pieces, which are then read as
      integers (a piece that is not one reads as 0). */
  function SizeOf(size: string): (int, int) {
    if size == "" then (DefaultWidth, DefaultHeight)
    else match SizePieces(size, 0)
      case None => (DefaultWidth, DefaultHeight)
      case Some(p) => (IntOrZero(p.0), IntOrZero(p.1))
  }

  /** The size parsing every `Image` operation starts with: the pieces are
      re-split with the next separator while the split does not give two. */
  method ParseSize(size: string) returns (width: int, height: int)
    ensures (width, height) == SizeOf(size)
  {
    width, height := DefaultWidth, DefaultHeight;
    if size != "" {
      var pieces := Split(size, "×");
      if |pieces| != 2 {
        pieces := Split(size, "x");
      }
      if |pieces| != 2 {
        pieces := Split(size, "X");
      }
      if |pieces| != 2 {
        pieces := Split(size, "*");
      }
      if |pieces| != 2 {
        pieces := Split(size, ":");
      }
      if |pieces| == 2 {
        width := IntOrZero(pieces[0]);
        height := IntOrZero(pieces[1]);
      }
    }
  }

  /** The pieces found are the size cut at one occurrence of one of the
      separators, and neither piece contains that separator. */
  lemma {:induction false} SizePiecesRejoin(size: string, k: nat)
    requires k <= |SizeSeparators|
    requires SizePieces(size, k).Some?
    ensures exists j :: k <= j < |SizeSeparators| &&
              var p := SizePieces(size, k).value;
              p.0 + SizeSeparators[j] + p.1 == size &&
              !Contains(p.0, SizeSeparators[j]) && !Contains(p.1, SizeSeparators[j])
    decreases |SizeSeparators| - k
  {
    var sep := SizeSeparator(k);
    var ps := Split(size, sep);
    if |ps| == 2 {
      SplitJoin(size, sep);
      assert Join(ps, sep) == ps[0] + sep + ps[1];
      SplitPiecesAreFree(size, sep);
      assert !Contains(ps[0], sep) && !Contains(ps[1], sep);
    } else {
      SizePiecesRejoin(size, k + 1);
    }
  }

  /** A size written as a width and a height around any of the separators is
      read back as that width and height. */
  lemma SizeRoundTrip(w: nat, h: nat, k: nat)
    requires k < |SizeSeparators|
    ensures SizeOf(NatToString(w) + SizeSeparator(k) + NatToString(h)) == (w, h)
  {
    var sw, sep, sh := NatToString(w), SizeSeparator(k), NatToString(h);
    var size := sw + sep + sh;
    SizeSkipsAbsent(size, 0, k, sw, sh);
    Common.AbsentCharNoOccurrence(sw, sep, 0);
    assert sep[..|sep| - 1] == [];
    assert sw + sep[..|sep| - 1] == sw;
    SplitAtFirst(sw, sep, sh);
    Common.AbsentCharNoOccurrence(sh, sep, 0);
    SplitAbsent(sh, sep);
    assert Split(size, sep) == [sw, sh];
    assert SizePieces(size, k) == Some((sw, sh));
    NatToStringRoundTrip(w);
    NatToStringRoundTrip(h);
    IntOrZeroDigits(sw);
    IntOrZeroDigits(sh);
  }

  /** The separators before the one used in a printed size do not occur in
      it, so the search reaches that separator. */
  lemma {:induction false} SizeSkipsAbsent(size: string, j: nat, k: nat, sw: string, sh: string)
    requires j <= k < |SizeSeparators|
    requires AllDigits(sw) && AllDigits(sh) && size == sw + SizeSeparator(k) + sh
    ensures SizePieces(size, j) == SizePieces(size, k)
    decreases k - j
  {
    if j < k {
      var sep := SizeSeparator(j);
      forall i | 0 <= i < |size| ensures size[i] != sep[0] {
        if i < |sw| {
          assert size[i] == sw[i];
        } else if i == |sw| {
          assert size[i] == SizeSeparator(k)[0];
        } else {
          assert size[i] == sh[i - |sw| - 1];
        }
      }
      Common.AbsentCharNoOccurrence(size, sep, 0);
      SplitAbsent(size, sep);
      SizeSkipsAbsent(size, j + 1, k, sw, sh);
    }
  }

  /** The provider an image request goes to: the OpenAI-compatible client
      (`corp` chooses the URL rule, the body and the response processor), or
      the dedicated Hyperbolic and Cloudflare clients. */
  datatype ImageProvider =
    | Shared(corp: string, baseURL: string, path: string)
    | HyperbolicImages(baseURL: string, path: string)
    | CloudflareImages(accountId: string)

  datatype ImageRequest = ImageRequest(model: string, prompt: string, size: string, n: int, responseFormat: string)

  /** The JSON body posted on every attempt; `modelName` and `negativePrompt`
      are present only for the providers that send them. */
  datatype ImageBody = ImageBody(prompt: string, width: int, height: int,
                                 modelName: Option<string>, negativePrompt: Option<string>)

  datatype ImageCall = ImageCall(url: string, body: ImageBody)

  datatype ImageData = ImageData(url: string, b64Json: string, revisedPrompt: string)

  /** The result of an `Image` call: the images with the error returned beside
      them, or a panic. */
  datatype ImageOutcome = Images(data: seq<ImageData>, err: Option<string>) | ImagePanicked

  const InvalidFormatError: string := "invalid response format"

  /** `url` with a `/` appended unless it already ends with one. */
  function WithTrailingSlash(url: string): (r: string)
    requires |url| > 0
    ensures |r| > 0 && r[|r| - 1] == '/'
    ensures url <= r && |r| <= |url| + 1
    ensures r == url <==> url[|url| - 1] == '/'
  {
    if url[|url| - 1] != '/' then url + "/" else url
  }

  /** Cloudflare's own endpoint for running a model of an account. */
  function CloudflareRunUrl(accountId: string, model: string): string {
    "https://api.cloudflare.com/client/v4/accounts/" + accountId + "/ai/run/" + model
  }

  /** The URL posted to. The compatible client posts to base URL + path, and
      for Cloudflare appends `/` if missing and the model; an empty URL then
      panics when its last character is read. */
  function RequestUrl(p: ImageProvider, model: string): (r: Outcome<string>)
    ensures r.Panic? <==> p.Shared? && p.corp == CorpCloudflare && p.baseURL + p.path == ""
    ensures p.Shared? && p.corp != CorpCloudflare ==> r == Ok(p.baseURL + p.path)
    ensures p.HyperbolicImages? ==> r == Ok(p.baseURL + p.path)
    ensures p.Shared? && p.corp == CorpCloudflare && r.Ok? ==>
              exists u :: r.value == u + model && p.baseURL + p.path <= u && |u| <= |p.baseURL + p.path| + 1 &&
                          u[|u| - 1] == '/'
  {
    match p
    case Shared(corp, baseURL, path) =>
      if corp == CorpCloudflare then
        if baseURL + path == "" then Panic("index out of range [-1]")
        else
          var u := WithTrailingSlash(baseURL + path);
          assert u + model == u + model;
          Ok(u + model)
      else Ok(baseURL + path)
    case HyperbolicImages(baseURL, path) => Ok(baseURL + path)
    case CloudflareImages(accountId) => Ok(CloudflareRunUrl(accountId, model))
  }

  /** The body: prompt, width and height always; the model name for
      Hyperbolic (on either client); an empty negative prompt for Cloudflare's
      own client. */
  function RequestBody(p: ImageProvider, req: ImageRequest): (b: ImageBody)
    ensures b.prompt == req.prompt && (b.width, b.height) == SizeOf(req.size)
    ensures b.modelName.Some? <==> p.HyperbolicImages? || (p.Shared? && p.corp == CorpHyperbolic)
    ensures b.modelName.Some? ==> b.modelName.value == req.model
    ensures b.negativePrompt.Some? <==> p.CloudflareImages?
    ensures b.negativePrompt.Some? ==> b.negativePrompt.value == ""
  {
    var size := SizeOf(req.size);
    ImageBody(req.prompt, size.0, size.1,
              if p.HyperbolicImages? || (p.Shared? && p.corp == CorpHyperbolic) then Some(req.model) else None,
              if p.CloudflareImages? then Some("") else None)
  }

  /** What one attempt gets back from the provider, through the response
      processor:
      - `Failed`: the request or the processor returned an error;
      - `ProcessorPanicked`: a JSON processor met a body without the expected
        `images[0]` field (a failed type assertion); the byte-reading
        processors of Cloudflare never do;
      - `Produced`: the processor's string (base64 data, a provider URL, or
        for Cloudflare's own client the raw bytes) and, when the format calls
        for one, the result of converting it (decode and upload, or download
        and encode), `None` when that conversion failed. */
  datatype Attempt =
    | Failed(err: string)
    | ProcessorPanicked
    | Produced(result: string, converted: Option<string>)

  datatype Format = UrlFormat | B64Format | OtherFormat

  function FormatOf(responseFormat: string): (f: Format)
    ensures f == UrlFormat <==> responseFormat == "url" || responseFormat == ""
    ensures f == B64Format <==> responseFormat == "b64_json"
  {
    if responseFormat == "url" || responseFormat == "" then UrlFormat
    else if responseFormat == "b64_json" then B64Format
    else OtherFormat
  }

  /** Only the Siliconflow processor of the compatible client reports its
      result as a URL; every other processor yields image data. */
  predicate ReportsUrl(p: ImageProvider) {
    p.Shared? && p.corp == CorpSiliconflow
  }

  /** The effect of one attempt on the loop. */
  datatype AttemptEffect = Kept(image: ImageData) | Skipped | Errored(err: string) | BadFormat | Aborted

  /** One iteration of the loop. Failures of the request or the processor are
      remembered by the compatible client only; a failed conversion is skipped
      silently everywhere; a format other than URL and base64 ends the loop. */
  function AttemptStep(p: ImageProvider, format: string, prompt: string, a: Attempt, encode: string -> string)
    : (r: AttemptEffect)
    ensures r.Errored? <==> a.Failed? && p.Shared?
    ensures r.Aborted? <==> a.ProcessorPanicked?
    ensures r.BadFormat? <==> a.Produced? && FormatOf(format) == OtherFormat
    ensures r.Kept? ==> r.image.revisedPrompt == prompt
    ensures r.Kept? && FormatOf(format) == UrlFormat ==> r.image.b64Json == ""
    ensures r.Kept? && FormatOf(format) == B64Format ==> r.image.url == ""
  {
    match a
    case Failed(e) => if p.Shared? then Errored(e) else Skipped
    case ProcessorPanicked => Aborted
    case Produced(result, converted) =>
      match FormatOf(format)
      case UrlFormat =>
        if ReportsUrl(p) then Kept(ImageData(result, "", prompt))
        else if converted.Some? then Kept(ImageData(converted.value, "", prompt))
        else Skipped
      case B64Format =>
        if ReportsUrl(p) then
          if converted.Some? then Kept(ImageData("", converted.value, prompt)) else Skipped
        else if p.CloudflareImages? then Kept(ImageData("", encode(result), prompt))
        else Kept(ImageData("", result, prompt))
      case OtherFormat => BadFormat
  }

  datatype Halt = Running | HaltedOnFormat | HaltedOnPanic

  /** The loop's state after the first `k` attempts. */
  datatype Gathered = Gathered(data: seq<ImageData>, innerError: Option<string>, halt: Halt)

  function Gather(p: ImageProvider, format: string, prompt: string, attempts: nat -> Attempt,
                  encode: string -> string, k: nat): Gathered
    decreases k
  {
    if k == 0 then Gathered([], None, Running)
    else
      var g := Gather(p, format, prompt, attempts, encode, k - 1);
      if !g.halt.Running? then g
      else Advance(g, AttemptStep(p, format, prompt, attempts(k - 1), encode))
  }

  /** What one iteration's effect does to the gathered state. */
  function Advance(g: Gathered, effect: AttemptEffect): Gathered {
    match effect
    case Kept(d) => g.(data := g.data + [d])
    case Skipped => g
    case Errored(e) => g.(innerError := Some(e))
    case BadFormat => g.(halt := HaltedOnFormat)
    case Aborted => g.(halt := HaltedOnPanic)
  }

  /** The number of iterations of `for i := 0; i < n; i++`. */
  function Iterations(n: int): (k: nat)
    ensures n > 0 ==> k == n
    ensures n <= 0 ==> k == 0
  {
    if n > 0 then n else 0
  }

  /** The request every attempt sends, or the panic composing its URL. */
  function CallOf(p: ImageProvider, req: ImageRequest): Outcome<ImageCall> {
    match RequestUrl(p, req.model)
    case Panic(reason) => Panic(reason)
    case Ok(url) => Ok(ImageCall(url, RequestBody(p, req)))
  }

  /** The result of `Image`: after the loop, the compatible client returns the
      last remembered failure when exactly one image was asked for; the other
      clients never return a failure of an attempt. */
  function ImageResult(p: ImageProvider, req: ImageRequest, attempts: nat -> Attempt,
                       encode: string -> string): ImageOutcome
  {
    if RequestUrl(p, req.model).Panic? then ImagePanicked
    else
      var g := Gather(p, req.responseFormat, req.prompt, attempts, encode, Iterations(req.n));
      match g.halt
      case HaltedOnPanic => ImagePanicked
      case HaltedOnFormat => Images(g.data, Some(InvalidFormatError))
      case Running => Images(g.data, if p.Shared? && req.n == 1 then g.innerError else None)
  }

  /** Once the loop has stopped, later attempts change nothing. */
  lemma {:induction false} GatherHalted(p: ImageProvider, format: string, prompt: string, attempts: nat -> Attempt,
                                        encode: string -> string, k: nat, m: nat)
    requires k <= m
    requires !Gather(p, format, prompt, attempts, encode, k).halt.Running?
    ensures Gather(p, format, prompt, attempts, encode, m) == Gather(p, format, prompt, attempts, encode, k)
    decreases m - k
  {
    if k < m {
      GatherHalted(p, format, prompt, attempts, encode, k, m - 1);
    }
  }

  /** One iteration of the `Image` loop, as the source writes it. */
  method HandleAttempt(p: ImageProvider, format: string, prompt: string, a: Attempt, encode: string -> string)
    returns (effect: AttemptEffect)
    ensures effect == AttemptStep(p, format, prompt, a, encode)
  {
    match a
    case Failed(e) =>
      if p.Shared? {
        return Errored(e);
      }
      return Skipped;
    case ProcessorPanicked =>
      return Aborted;
    case Produced(result, converted) =>
      var f := FormatOf(format);
      if f == UrlFormat {
        var url;
        if ReportsUrl(p) {
          url := result;
        } else {
          if converted.None? {
            return Skipped;
          }
          url := converted.value;
        }
        return Kept(ImageData(url, "", prompt));
      } else if f == B64Format {
        var b64;
        if ReportsUrl(p) {
          if converted.None? {
            return Skipped;
          }
          b64 := converted.value;
        } else if p.CloudflareImages? {
          b64 := encode(result);
        } else {
          b64 := result;
        }
        return Kept(ImageData("", b64, prompt));
      }
      return BadFormat;
  }

  /** `Image` of the compatible, Hyperbolic and Cloudflare clients: the size,
      URL and body are prepared once, then `n` attempts are made and their
      images appended in order. */
  method GenerateImages(p: ImageProvider, req: ImageRequest, attempts: nat -> Attempt, encode: string -> string)
    returns (call: Outcome<ImageCall>, r: ImageOutcome)
    ensures call == CallOf(p, req)
    ensures r == ImageResult(p, req, attempts, encode)
  {
    var width, height := ParseSize(req.size);
    var url := RequestUrl(p, req.model);
    if url.Panic? {
      call := Panic(url.reason);
      r := ImagePanicked;
      return;
    }
    var body := ImageBody(req.prompt, width, height,
                          if p.HyperbolicImages? || (p.Shared? && p.corp == CorpHyperbolic) then Some(req.model) else None,
                          if p.CloudflareImages? then Some("") else None);
    assert body == RequestBody(p, req);
    call := Ok(ImageCall(url.value, body));
    var g := RunAttempts(p, req.responseFormat, req.prompt, attempts, encode, req.n);
    match g.halt {
      case HaltedOnPanic =>
        r := ImagePanicked;
      case HaltedOnFormat =>
        r := Images(g.data, Some(InvalidFormatError));
      case Running =>
        if p.Shared? && req.n == 1 {
          r := Images(g.data, g.innerError);
        } else {
          r := Images(g.data, None);
        }
    }
  }

  /** The attempt loop of `Image`: `n` iterations, each appending its image,
      remembering its failure or leaving the loop early. */
  method RunAttempts(p: ImageProvider, format: string, prompt: string, attempts: nat -> Attempt,
                     encode: string -> string, n: int)
    returns (g: Gathered)
    ensures g == Gather(p, format, prompt, attempts, encode, Iterations(n))
  {
    ghost var count := Iterations(n);
    var data: seq<ImageData> := [];
    var innerError: Option<string> := None;
    var i := 0;
    while i < n
      invariant 0 <= i <= count
      invariant Gather(p, format, prompt, attempts, encode, i) == Gathered(data, innerError, Running)
    {
      var effect := HandleAttempt(p, format, prompt, attempts(i), encode);
      assert Gather(p, format, prompt, attempts, encode, i + 1) == Advance(Gathered(data, innerError, Running), effect);
      match effect {
        case Kept(d) =>
          data := data + [d];
        case Skipped =>
        case Errored(e) =>
          innerError := Some(e);
        case BadFormat =>
          GatherHalted(p, format, prompt, attempts, encode, i + 1, count);
          return Gathered(data, innerError, HaltedOnFormat);
        case Aborted =>
          GatherHalted(p, format, prompt, attempts, encode, i + 1, count);
          return Gathered(data, innerError, HaltedOnPanic);
      }
      i := i + 1;
    }
    return Gathered(data, innerError, Running);
  }

  /** What the loop gathers: at most one image per attempt, each carrying the
      prompt as its revised prompt and only the field the format asks for; no
      image under an unknown format; and no remembered failure outside the
      compatible client. */
  lemma {:induction false} GatherBounds(p: ImageProvider, format: string, prompt: string, attempts: nat -> Attempt,
                                        encode: string -> string, k: nat)
    ensures var g := Gather(p, format, prompt, attempts, encode, k);
            |g.data| <= k &&
            (forall j :: 0 <= j < |g.data| ==> g.data[j].revisedPrompt == prompt) &&
            (FormatOf(format) == UrlFormat ==> forall j :: 0 <= j < |g.data| ==> g.data[j].b64Json == "") &&
            (FormatOf(format) == B64Format ==> forall j :: 0 <= j < |g.data| ==> g.data[j].url == "") &&
            (FormatOf(format) == OtherFormat ==> g.data == []) &&
            (!p.Shared? ==> g.innerError == None)
  {
    if k > 0 {
      GatherBounds(p, format, prompt, attempts, encode, k - 1);
    }
  }

  /** When every attempt produces and every needed conversion succeeds, the
      loop keeps one image per attempt, in order: image `j` is what attempt
      `j` produced. */
  lemma {:induction false} GatherAllKept(p: ImageProvider, format: string, prompt: string, attempts: nat -> Attempt,
                                         encode: string -> string, k: nat)
    requires FormatOf(format) != OtherFormat
    requires forall j :: 0 <= j < k ==> attempts(j).Produced? && attempts(j).converted.Some?
    ensures var g := Gather(p, format, prompt, attempts, encode, k);
            g.halt == Running && |g.data| == k && KeptInOrder(p, format, prompt, attempts, encode, g.data)
  {
    if k > 0 {
      GatherAllKept(p, format, prompt, attempts, encode, k - 1);
      var g := Gather(p, format, prompt, attempts, encode, k - 1);
      var e := AttemptStep(p, format, prompt, attempts(k - 1), encode);
      assert e.Kept?;
      assert Gather(p, format, prompt, attempts, encode, k) == g.(data := g.data + [e.image]);
      KeptInOrderSnoc(p, format, prompt, attempts, encode, g.data, e.image);
    }
  }

  /** Image `j` of `data` is what attempt `j` produced. */
  predicate KeptInOrder(p: ImageProvider, format: string, prompt: string, attempts: nat -> Attempt,
                        encode: string -> string, data: seq<ImageData>)
  {
    forall j :: 0 <= j < |data| ==> AttemptStep(p, format, prompt, attempts(j), encode) == Kept(data[j])
  }

  lemma KeptInOrderSnoc(p: ImageProvider, format: string, prompt: string, attempts: nat -> Attempt,
                        encode: string -> string, data: seq<ImageData>, d: ImageData)
    requires KeptInOrder(p, format, prompt, attempts, encode, data)
    requires AttemptStep(p, format, prompt, attempts(|data|), encode) == Kept(d)
    ensures KeptInOrder(p, format, prompt, attempts, encode, data + [d])
  {
    var data' := data + [d];
    forall j | 0 <= j < |data'|
      ensures AttemptStep(p, format, prompt, attempts(j), encode) == Kept(data'[j])
    {
      if j < |data| {
        assert data'[j] == data[j];
      }
    }
  }

  /** Asking the compatible client for a single image: a failed attempt is
      returned as the error, with no images. */
  lemma SingleImageFailure(p: ImageProvider, req: ImageRequest, attempts: nat -> Attempt, encode: string -> string)
    requires p.Shared? && req.n == 1 && RequestUrl(p, req.model).Ok?
    requires attempts(0).Failed?
    ensures ImageResult(p, req, attempts, encode) == Images([], Some(attempts(0).err))
  {
  }

  /** Apart from that case, a failed attempt never surfaces: with a known
      format the result carries no error unless the call panicked. */
  lemma FailuresStaySilent(p: ImageProvider, req: ImageRequest, attempts: nat -> Attempt, encode: string -> string)
    requires FormatOf(req.responseFormat) != OtherFormat
    requires !p.Shared? || req.n != 1
    ensures ImageResult(p, req, attempts, encode).Images? ==> ImageResult(p, req, attempts, encode).err == None
  {
    var g := Gather(p, req.responseFormat, req.prompt, attempts, encode, Iterations(req.n));
    NoFormatHalt(p, req.responseFormat, req.prompt, attempts, encode, Iterations(req.n));
  }

  /** With a known format the loop never stops on the format. */
  lemma {:induction false} NoFormatHalt(p: ImageProvider, format: string, prompt: string, attempts: nat -> Attempt,
                                        encode: string -> string, k: nat)
    requires FormatOf(format) != OtherFormat
    ensures Gather(p, format, prompt, attempts, encode, k).halt != HaltedOnFormat
  {
    if k > 0 {
      NoFormatHalt(p, format, prompt, attempts, encode, k - 1);
    }
  }

  /** An unknown format yields no image, and the error as soon as an attempt
      reaches the format switch. */
  lemma UnknownFormat(p: ImageProvider, req: ImageRequest, attempts: nat -> Attempt, encode: string -> string)
    requires FormatOf(req.responseFormat) == OtherFormat && RequestUrl(p, req.model).Ok?
    ensures ImageResult(p, req, attempts, encode).Images? ==> ImageResult(p, req, attempts, encode).data == []
    ensures req.n >= 1 && attempts(0).Produced? ==>
              ImageResult(p, req, attempts, encode) == Images([], Some(InvalidFormatError))
  {
    GatherBounds(p, req.responseFormat, req.prompt, attempts, encode, Iterations(req.n));
    if req.n >= 1 && attempts(0).Produced? {
      GatherHalted(p, req.responseFormat, req.prompt, attempts, encode, 1, Iterations(req.n));
    }
  }

  /** The expectation on Cloudflare's own client: asked for `n` URL images,
      when every generation and every upload succeeds with a non-empty URL, it
      returns `n` images, each with a URL and no base64 data, and no error. */
  lemma CloudflareUrlImages(accountId: string, req: ImageRequest, attempts: nat -> Attempt, encode: string -> string)
    requires FormatOf(req.responseFormat) == UrlFormat && req.n >= 0
    requires forall j :: 0 <= j < req.n ==>
               attempts(j).Produced? && attempts(j).converted.Some? && attempts(j).converted.value != ""
    ensures var r := ImageResult(CloudflareImages(accountId), req, attempts, encode);
            r.Images? && r.err == None && |r.data| == req.n &&
            forall j :: 0 <= j < req.n ==> r.data[j].url != "" && r.data[j].b64Json == ""
  {
    var p := CloudflareImages(accountId);
    GatherAllKept(p, req.responseFormat, req.prompt, attempts, encode, req.n);
    var g := Gather(p, req.responseFormat, req.prompt, attempts, encode, req.n);
    forall j | 0 <= j < req.n ensures g.data[j].url != "" && g.data[j].b64Json == "" {
      assert AttemptStep(p, req.responseFormat, req.prompt, attempts(j), encode) == Kept(g.data[j]);
    }
  }

  /** The request xfyun's `Image` posts: the app id, the fixed domain
      `general`, the parsed size and the prompt as a single user message. */
  datatype XfyunImageCall = XfyunImageCall(appId: string, domain: string, width: int, height: int,
                                           messages: seq<XfyunFrames.FrameText>)

  function XfyunImageCallOf(appId: string, req: ImageRequest): (c: XfyunImageCall)
    ensures c.domain == "general" && (c.width, c.height) == SizeOf(req.size)
    ensures c.messages == [XfyunFrames.FrameText(RoleUser, req.prompt)]
  {
    var size := SizeOf(req.size);
    XfyunImageCall(appId, "general", size.0, size.1, [XfyunFrames.FrameText(RoleUser, req.prompt)])
  }

  /** The reply to xfyun's single POST: an error, or the text of its choices. */
  datatype XfyunPosted = PostFailed(err: string) | PostAnswered(text: seq<XfyunFrames.FrameText>)

  /** xfyun ignores the count and the format: one POST, whose first text is
      the base64 image; a reply with no text panics on the index. */
  function XfyunImageResult(posted: XfyunPosted): (r: ImageOutcome)
    ensures r.ImagePanicked? <==> posted.PostAnswered? && |posted.text| == 0
    ensures posted.PostFailed? ==> r == Images([], Some(posted.err))
    ensures r.Images? && r.err.None? ==>
              posted.PostAnswered? && r.data == [ImageData("", posted.text[0].content, "")]
  {
    match posted
    case PostFailed(e) => Images([], Some(e))
    case PostAnswered(text) =>
      if |text| == 0 then ImagePanicked else Images([ImageData("", text[0].content, "")], None)
  }
}
