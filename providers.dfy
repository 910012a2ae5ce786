/** The translation provider adapter: the Google endpoint, the MyMemory endpoint (the "AI"
    engine) with its one-level fallback to Google, and the dispatch on the selected engine.
    The network is a parameter: for each endpoint, the reply it gives to a request made of
    the text and the two provider language codes. */
module Providers {
  import opened Outcomes
  import opened Languages

  /** What a provider call throws; `Message()` is the exception's `message`. */
  datatype ProviderError =
    | BadStatus               // the Google endpoint answered with a non-success status
    | NoResult                // the Google JSON has no `data[0][0]`
    | Thrown(message: string) // `fetch` or `res.json()` rejected with this message
  {
    function Message(): string {
      match this
      case BadStatus => "API 响应异常"
      case NoResult => "未找到翻译结果"
      case Thrown(m) => m
    }
  }

  /** The Google endpoint's reply. In `GoogleJson(data)`, `data[0]` is the list of segments
      and each segment's first element is its translated fragment; a JSON value with no index 0
      (null, a number, a boolean) reads like an empty array. */
  datatype GoogleReply =
    | GoogleRejected(message: string)
    | GoogleNotOk
    | GoogleJson(data: seq<seq<seq<string>>>)

  /** The MyMemory endpoint's reply: a rejected fetch or JSON parse, or a JSON body in which
      `responseData.translatedText` may be missing. */
  datatype AiReply =
    | AiRejected
    | AiJson(translatedText: Option<string>)

  /** The remote services: each maps (text, source code, target code) to its reply. */
  datatype Network = Network(
    google: (string, string, string) -> GoogleReply,
    ai: (string, string, string) -> AiReply)

  /** `item[0]` joined as `join('')` writes it: an absent first element adds nothing. */
  function SegmentText(segment: seq<string>): string {
    if segment == [] then "" else segment[0]
  }

  /** `segments.map(item => item[0])`. */
  function Firsts(segments: seq<seq<string>>): (r: seq<string>)
    ensures |r| == |segments|
    ensures forall i :: 0 <= i < |segments| ==> r[i] == SegmentText(segments[i])
  {
    seq(|segments|, i requires 0 <= i < |segments| => SegmentText(segments[i]))
  }

  /** `parts.join('')`. */
  function Concat(parts: seq<string>): string {
    if parts == [] then "" else parts[0] + Concat(parts[1..])
  }

  /** Joining two lists is joining each and concatenating the results. */
  lemma {:induction false} ConcatAppend(a: seq<string>, b: seq<string>)
    ensures Concat(a + b) == Concat(a) + Concat(b)
  {
    if a == [] {
      assert a + b == b;
    } else {
      assert (a + b)[1..] == a[1..] + b;
      ConcatAppend(a[1..], b);
    }
  }

  /** The joined text holds every part, in order: part `k` starts right after the parts
      before it. */
  lemma ConcatPlacesEachPart(parts: seq<string>, k: nat)
    requires k < |parts|
    ensures |Concat(parts[..k])| + |parts[k]| <= |Concat(parts)|
    ensures Concat(parts)[|Concat(parts[..k])|..|Concat(parts[..k])| + |parts[k]|] == parts[k]
  {
    assert parts == parts[..k] + ([parts[k]] + parts[k + 1..]);
    ConcatAppend(parts[..k], [parts[k]] + parts[k + 1..]);
    ConcatAppend([parts[k]], parts[k + 1..]);
    assert Concat([parts[k]]) == parts[k] by {
      assert [parts[k]][1..] == [];
    }
  }

  /** The Google text: the in-order concatenation of each segment's first element. */
  function Flatten(segments: seq<seq<string>>): string {
    Concat(Firsts(segments))
  }

  /** What `fetchGoogleTranslate` returns or throws once the endpoint has replied. */
  function GoogleAnswer(reply: GoogleReply): (r: Result<string, ProviderError>)
    ensures r.Ok? <==> reply.GoogleJson? && |reply.data| > 0 && |reply.data[0]| > 0
    ensures r.Ok? ==> r.value == Flatten(reply.data[0])
    ensures reply.GoogleNotOk? ==> r == Err(BadStatus)
    ensures reply.GoogleJson? && !r.Ok? ==> r == Err(NoResult)
    ensures reply.GoogleRejected? ==> r == Err(Thrown(reply.message))
  {
    match reply
    case GoogleRejected(m) => Err(Thrown(m))
    case GoogleNotOk => Err(BadStatus)
    case GoogleJson(data) =>
      if |data| > 0 && |data[0]| > 0 then Ok(Flatten(data[0])) else Err(NoResult)
  }

  /** `fetchGoogleTranslate(text, from, to)`: both codes are normalised before the request. */
  function GoogleTranslate(net: Network, text: string, from: string, to: string): Result<string, ProviderError> {
    GoogleAnswer(net.google(text, ProviderCode(from), ProviderCode(to)))
  }

  /** The MyMemory reply is used only when `translatedText` is a non-empty string. */
  predicate AiAnswered(reply: AiReply) {
    reply.AiJson? && reply.translatedText.Some? && reply.translatedText.value != ""
  }

  /** `fetchAITranslate(text, from, to)`: MyMemory's text, or else Google's answer to the
      same `(text, from, to)`. */
  function AiTranslate(net: Network, text: string, from: string, to: string): Result<string, ProviderError> {
    var reply := net.ai(text, ProviderCode(from), ProviderCode(to));
    if AiAnswered(reply) then Ok(reply.translatedText.value) else GoogleTranslate(net, text, from, to)
  }

  /** `fetchTranslate(text, from, to)` under the selected engine. Whatever the engine, a
      failure is exactly the Google path's failure (the MyMemory error never surfaces and the
      fallback is not retried), a result other than Google's comes only from MyMemory, and a
      non-empty MyMemory `translatedText` is returned as it is. */
  function FetchTranslate(engine: string, net: Network, text: string, from: string, to: string): (r: Result<string, ProviderError>)
    ensures r.Err? ==> r == GoogleTranslate(net, text, from, to)
    ensures r != GoogleTranslate(net, text, from, to) ==>
              engine == "ai" && AiAnswered(net.ai(text, ProviderCode(from), ProviderCode(to)))
    ensures engine == "ai" && AiAnswered(net.ai(text, ProviderCode(from), ProviderCode(to))) ==>
              r == Ok(net.ai(text, ProviderCode(from), ProviderCode(to)).translatedText.value)
  {
    if engine == "ai" then AiTranslate(net, text, from, to) else GoogleTranslate(net, text, from, to)
  }

  /** With the AI engine, any MyMemory failure yields exactly Google's result for the same
      text and languages; with any other engine Google answers directly. */
  lemma FallbackIsGoogle(engine: string, net: Network, text: string, from: string, to: string)
    ensures engine != "ai" ==> FetchTranslate(engine, net, text, from, to) == GoogleTranslate(net, text, from, to)
    ensures engine == "ai" && !AiAnswered(net.ai(text, ProviderCode(from), ProviderCode(to))) ==>
              FetchTranslate(engine, net, text, from, to) == GoogleTranslate(net, text, from, to)
  {
  }

  /** `zh` and `zh-CN` are the same language to every provider. */
  lemma ChineseCodesAgree(engine: string, net: Network, text: string, other: string)
    ensures FetchTranslate(engine, net, text, "zh", other) == FetchTranslate(engine, net, text, "zh-CN", other)
    ensures FetchTranslate(engine, net, text, other, "zh") == FetchTranslate(engine, net, text, other, "zh-CN")
  {
  }
}
