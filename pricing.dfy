/**
 * The market-pricing function: it builds a prompt from the requested crops and
 * region, forwards it to an AI gateway, and extracts the JSON object from the
 * reply text before parsing it.
 */
module Pricing {
  import opened Wrappers
  import opened Text

  /** The first index of `c` in `s`, as `s.indexOf(c)` when it is not -1. */
  function FirstIndex(s: string, c: char): (r: Option<nat>)
    ensures r.None? ==> forall k :: 0 <= k < |s| ==> s[k] != c
    ensures r.Some? ==> r.value < |s| && s[r.value] == c
    ensures r.Some? ==> forall k :: 0 <= k < r.value ==> s[k] != c
  {
    if |s| == 0 then None
    else if s[0] == c then Some(0)
    else match FirstIndex(s[1..], c)
      case None => None
      case Some(k) => Some(k + 1)
  }

  /** The last index of `c` in `s`, as `s.lastIndexOf(c)` when it is not -1. */
  function LastIndex(s: string, c: char): (r: Option<nat>)
    ensures r.None? ==> forall k :: 0 <= k < |s| ==> s[k] != c
    ensures r.Some? ==> r.value < |s| && s[r.value] == c
    ensures r.Some? ==> forall k :: r.value < k < |s| ==> s[k] != c
  {
    if |s| == 0 then None
    else if s[|s| - 1] == c then Some(|s| - 1)
    else LastIndex(s[..|s| - 1], c)
  }

  /**
   * `content[i..j + 1]` is the greedy block: it opens at the first `{` and
   * closes at the last `}`.
   */
  predicate GreedyBlock(content: string, i: int, j: int)
  {
    && 0 <= i < j < |content|
    && content[i] == '{' && content[j] == '}'
    && (forall k :: 0 <= k < i ==> content[k] != '{')
    && (forall k :: j < k < |content| ==> content[k] != '}')
  }

  /** Some `}` follows some `{` exactly when the first `{` comes before the last `}`. */
  lemma BraceOrder(content: string)
    ensures var first, last := FirstIndex(content, '{'), LastIndex(content, '}');
            (first.Some? && last.Some? && first.value < last.value)
            <==> exists i, j :: 0 <= i < j < |content| && content[i] == '{' && content[j] == '}'
  {
    var first, last := FirstIndex(content, '{'), LastIndex(content, '}');
    if first.Some? && last.Some? && first.value < last.value {
      assert content[first.value] == '{' && content[last.value] == '}';
    }
  }

  /** A greedy block is a brace-delimited piece of the content. */
  lemma GreedyBlockInContent(content: string, i: int, j: int)
    requires GreedyBlock(content, i, j)
    ensures Contains(content, content[i..j + 1])
    ensures var b := content[i..j + 1]; |b| >= 2 && b[0] == '{' && b[|b| - 1] == '}'
  {
    ContainsMiddle(content[..i], content[i..j + 1], content[j + 1..]);
    assert content[..i] + content[i..j + 1] + content[j + 1..] == content;
  }

  /**
   * `content.match(/\{[\s\S]*\}/)?.[0]`: the leftmost, greedy match runs from
   * the first `{` to the last `}`, and exists when some `}` follows some `{`.
   */
  function JsonBlock(content: string): (r: Option<string>)
    ensures r.Some? <==> exists i, j :: 0 <= i < j < |content| && content[i] == '{' && content[j] == '}'
    ensures r.Some? ==> exists i, j :: GreedyBlock(content, i, j) && r.value == content[i..j + 1]
    ensures r.Some? ==> Contains(content, r.value)
    ensures r.Some? ==> |r.value| >= 2 && r.value[0] == '{' && r.value[|r.value| - 1] == '}'
  {
    var first := FirstIndex(content, '{');
    var last := LastIndex(content, '}');
    BraceOrder(content);
    if first.Some? && last.Some? && first.value < last.value then
      var i, j := first.value, last.value;
      assert GreedyBlock(content, i, j);
      GreedyBlockInContent(content, i, j);
      var block := content[i..j + 1];
      assert GreedyBlock(content, i, j) && block == content[i..j + 1];
      Some(block)
    else
      None
  }

  /** `jsonMatch?.[0] || content`: the text handed to `JSON.parse`. */
  function ParseSource(content: string): (r: string)
    ensures (forall i, j :: 0 <= i < j < |content| && content[i] == '{' ==> content[j] != '}') ==> r == content
    ensures (exists i, j :: 0 <= i < j < |content| && content[i] == '{' && content[j] == '}') ==>
              |r| >= 2 && r[0] == '{' && r[|r| - 1] == '}' && Contains(content, r)
  {
    match JsonBlock(content)
    case Some(block) => block
    case None => content
  }

  datatype Message = Message(content: Option<string>)
  datatype Choice = Choice(message: Option<Message>)
  /** The part of the gateway's reply body that the function reads. */
  datatype AiData = AiData(choices: Option<seq<Choice>>)

  /** `aiData.choices?.[0]?.message?.content || ''`. */
  function ContentOf(ai: AiData): (r: string)
    ensures (ai.choices.None? || ai.choices.value == []) ==> r == ""
    ensures ai.choices.Some? && ai.choices.value != [] && ai.choices.value[0].message.None? ==> r == ""
    ensures r != "" <==>
              && ai.choices.Some? && ai.choices.value != []
              && ai.choices.value[0].message.Some?
              && ai.choices.value[0].message.value.content.Some?
              && ai.choices.value[0].message.value.content.value != ""
    ensures ai.choices.Some? && ai.choices.value != [] && ai.choices.value[0].message.Some? ==>
              r == ai.choices.value[0].message.value.content.GetOr("")
  {
    match ai.choices
    case None => ""
    case Some(cs) =>
      if cs == [] then ""
      else match cs[0].message
        case None => ""
        case Some(m) => m.content.GetOr("")
  }

  /**
   * The request body; a field is `None` when it is absent (`undefined`), the
   * only case in which the destructuring default applies.
   */
  datatype PricingRequest = PricingRequest(crops: Option<seq<string>>, region: Option<string>)

  const DefaultCrops: seq<string> := ["Tomatoes", "Rice", "Spinach", "Mangoes", "Potatoes"]
  const DefaultRegion: string := "India"

  /** The crops and region after the destructuring defaults are applied. */
  datatype Resolved = Resolved(crops: seq<string>, region: string)

  function Resolve(req: PricingRequest): (r: Resolved)
    ensures req.crops.None? ==> r.crops == DefaultCrops
    ensures req.crops.Some? ==> r.crops == req.crops.value
    ensures req.region.None? ==> r.region == "India"
    ensures req.region.Some? ==> r.region == req.region.value
  {
    Resolved(req.crops.GetOr(DefaultCrops), req.region.GetOr(DefaultRegion))
  }

  /** One price key of the `priceHistory` template: the crop name lower-cased. */
  function PriceKey(crop: string): (r: string)
    ensures |r| == |crop| + 22
    ensures r[0] == '"' && r[1..|crop| + 1] == Lower(crop)
    ensures r[|crop| + 1..] == "\": <price_inr_per_kg>"
  {
    "\"" + Lower(crop) + "\": <price_inr_per_kg>"
  }

  /** Two crops share a key exactly when they agree after lower-casing. */
  lemma PriceKeySame(a: string, b: string)
    ensures PriceKey(a) == PriceKey(b) <==> Lower(a) == Lower(b)
  {
    if PriceKey(a) == PriceKey(b) {
      assert |a| == |b|;
      assert Lower(a) == PriceKey(a)[1..|a| + 1];
    }
  }

  /** The keys in crop order. */
  function PriceKeys(crops: seq<string>): (r: seq<string>)
    ensures |r| == |crops|
    ensures forall i :: 0 <= i < |crops| ==> r[i] == PriceKey(crops[i])
  {
    seq(|crops|, i requires 0 <= i < |crops| => PriceKey(crops[i]))
  }

  /** The keys joined by `", "`, as the template line holds them. */
  function PriceTemplate(crops: seq<string>): string
  {
    Join(PriceKeys(crops), ", ")
  }

  /** Every crop's key appears in the template. */
  lemma PriceTemplateHasEveryCrop(crops: seq<string>, k: nat)
    requires k < |crops|
    ensures Contains(PriceTemplate(crops), PriceKey(crops[k]))
  {
    JoinContains(PriceKeys(crops), ", ", k);
  }

  /** One more crop adds its key at the end, after `", "`: input order is kept. */
  lemma PriceTemplateSnoc(crops: seq<string>, crop: string)
    requires crops != []
    ensures PriceTemplate(crops + [crop]) == PriceTemplate(crops) + ", " + PriceKey(crop)
  {
    assert PriceKeys(crops + [crop]) == PriceKeys(crops) + [PriceKey(crop)];
    JoinSnoc(PriceKeys(crops), PriceKey(crop), ", ");
  }

  /** The request sent to the gateway, less the date and the fixed prose. */
  datatype GatewayRequest = GatewayRequest(
    apiKey: string,
    model: string,
    temperature: real,
    region: string,
    cropList: string,
    priceTemplate: string)

  /** What the gateway answered. */
  datatype GatewayReply = NotOk(status: int, body: string) | Ok(data: AiData)

  datatype PricingError =
    | MissingApiKey
    | GatewayFailed(status: int, body: string)
    | ParseFailed

  /** The messages of the errors whose text is fixed. */
  function ErrorMessage(e: PricingError): (m: string)
    requires !e.GatewayFailed?
    ensures e.MissingApiKey? ==> m == "LOVABLE_API_KEY is not configured"
    ensures e.ParseFailed? ==> m == "Failed to parse AI pricing response"
  {
    match e
    case MissingApiKey => "LOVABLE_API_KEY is not configured"
    case ParseFailed => "Failed to parse AI pricing response"
  }

  /** Everything before the gateway call: the key check, then the prompt. */
  function Prepare(apiKey: Option<string>, req: PricingRequest): (r: Result<GatewayRequest, PricingError>)
    ensures r.Failure? <==> apiKey.None? || apiKey.value == ""
    ensures r.Failure? ==> r.error == MissingApiKey
    ensures r.Success? ==>
              && r.value.apiKey == apiKey.value
              && r.value.region == Resolve(req).region
              && r.value.cropList == Join(Resolve(req).crops, ", ")
              && r.value.priceTemplate == PriceTemplate(Resolve(req).crops)
  {
    if apiKey.None? || apiKey.value == "" then Failure(MissingApiKey)
    else
      var resolved := Resolve(req);
      Success(GatewayRequest(
        apiKey.value,
        "google/gemini-2.5-flash",
        0.3,
        resolved.region,
        Join(resolved.crops, ", "),
        PriceTemplate(resolved.crops)))
  }

  /**
   * The whole handler. The gateway and `JSON.parse` are parameters; `parse`
   * gives `None` where `JSON.parse` throws.
   */
  function HandlePricing<J>(
    apiKey: Option<string>,
    req: PricingRequest,
    gateway: GatewayRequest -> GatewayReply,
    parse: string -> Option<J>): (r: Result<J, PricingError>)
  {
    match Prepare(apiKey, req)
    case Failure(e) => Failure(e)
    case Success(call) =>
      match gateway(call)
      case NotOk(status, body) => Failure(GatewayFailed(status, body))
      case Ok(data) =>
        match parse(ParseSource(ContentOf(data)))
        case None => Failure(ParseFailed)
        case Some(parsed) => Success(parsed)
  }

  /** Without a key the handler fails the same way whatever the gateway would say. */
  lemma NoKeyNoRequest<J>(
    apiKey: Option<string>,
    req: PricingRequest,
    g1: GatewayRequest -> GatewayReply,
    g2: GatewayRequest -> GatewayReply,
    parse: string -> Option<J>)
    requires apiKey.None? || apiKey.value == ""
    ensures HandlePricing(apiKey, req, g1, parse) == Failure(MissingApiKey)
    ensures HandlePricing(apiKey, req, g1, parse) == HandlePricing(apiKey, req, g2, parse)
  {
  }

  /** A successful reply is parsed from its JSON block, or from all its content. */
  lemma HandlePricingParses<J>(
    apiKey: string,
    req: PricingRequest,
    gateway: GatewayRequest -> GatewayReply,
    parse: string -> Option<J>)
    requires apiKey != ""
    requires gateway(Prepare(Some(apiKey), req).value).Ok?
    ensures var content := ContentOf(gateway(Prepare(Some(apiKey), req).value).data);
            var r := HandlePricing(Some(apiKey), req, gateway, parse);
            && (parse(ParseSource(content)).Some? ==> r == Success(parse(ParseSource(content)).value))
            && (parse(ParseSource(content)).None? ==> r == Failure(ParseFailed))
  {
  }
}
