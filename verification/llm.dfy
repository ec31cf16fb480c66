/**
 * The Ollama prompt enhancer. The HTTP POST is not performed here: its reply
 * (or the exception it raised) is a parameter, and so are the three indices
 * `random.choice` would draw for the algorithmic fallback.
 */
module Llm {
  import opened Common
  import opened Text

  /** `enhance_prompt` talks to the container host, `enhance_prompt_local` to localhost. */
  datatype Endpoint = Container | Host

  function Url(e: Endpoint): string
  {
    match e
    case Container => "http://host.docker.internal:11434/api/generate"
    case Host => "http://localhost:11434/api/generate"
  }

  /**
   * The JSON body POSTed to the endpoint, with the endpoint's URL. The
   * `prompt` field is kept as the template it is rendered from.
   */
  datatype Request = Request(url: string, model: string, prompt: Template, stream: bool)

  /** The f-string of the `prompt` field: the endpoint's instruction text around the user's request. */
  datatype Template = Template(endpoint: Endpoint, userRequest: string)

  const Indent: string := "\n                    "

  /** The instruction text up to "200 words.". */
  const Preamble: string :=
    Indent + "You are an artistic prompt enhancer. Your job is to take simple user requests and transform them "
    + Indent + "into detailed, vivid descriptions for image and 3D generation. Include artistic style, lighting, "
    + Indent + "mood, colors, perspective, and detailed elements. Make it specific and visual but keep the core "
    + Indent + "idea intact. Format your response as a rich text description without any explanations or additional "
    + Indent + "content in maximum 200 words."

  const Lead: string := "\n" + Indent + "Transform this prompt for image generation: " + Indent + "User Request: "

  /**
   * The instruction text that precedes the user's request. The two methods
   * carry the same text except for one space after "200 words.", which only
   * the local variant has.
   */
  function Instructions(e: Endpoint): string
  {
    Preamble + (if e == Host then " " else "") + Lead
  }

  const Closing: string := "\n" + Indent + "Include every detail of user request in the response. " + "\n                "

  lemma Middle(a: string, b: string, c: string)
    ensures (a + b + c)[|a|..|a + b + c| - |c|] == b
  {
  }

  /** The user's request as it sits inside a payload text. */
  function EmbeddedPrompt(e: Endpoint, text: string): string
    requires |text| >= |Instructions(e)| + |Closing|
  {
    text[|Instructions(e)|..|text| - |Closing|]
  }

  /** The text of the `prompt` field. */
  function Render(t: Template): string
  {
    Instructions(t.endpoint) + t.userRequest + Closing
  }

  /** The payload: model llama2, no streaming, the endpoint's template around the user's prompt. */
  function PayloadFor(e: Endpoint, userPrompt: string): (r: Request)
    ensures r.url == Url(e) && r.model == "llama2" && !r.stream
    ensures r.prompt.endpoint == e
  {
    Request(Url(e), "llama2", Template(e, userPrompt), false)
  }

  /** The rendered prompt holds the user's prompt verbatim, between the instruction text and the closing line. */
  lemma PayloadEmbedsPrompt(e: Endpoint, userPrompt: string)
    ensures IsPrefix(Instructions(e), Render(PayloadFor(e, userPrompt).prompt))
    ensures |Render(PayloadFor(e, userPrompt).prompt)| == |Instructions(e)| + |userPrompt| + |Closing|
    ensures EmbeddedPrompt(e, Render(PayloadFor(e, userPrompt).prompt)) == userPrompt
  {
    Middle(Instructions(e), userPrompt, Closing);
  }

  /** The two payloads differ in URL and in that one space; model, streaming and the embedded prompt agree. */
  lemma PayloadsAgree(userPrompt: string)
    ensures PayloadFor(Container, userPrompt).url != PayloadFor(Host, userPrompt).url
    ensures PayloadFor(Container, userPrompt).model == PayloadFor(Host, userPrompt).model
    ensures PayloadFor(Container, userPrompt).stream == PayloadFor(Host, userPrompt).stream
    ensures EmbeddedPrompt(Container, Render(PayloadFor(Container, userPrompt).prompt))
         == EmbeddedPrompt(Host, Render(PayloadFor(Host, userPrompt).prompt))
    ensures |Render(PayloadFor(Host, userPrompt).prompt)| == |Render(PayloadFor(Container, userPrompt).prompt)| + 1
  {
    UrlsDiffer();
    InstructionsDiffer();
    PayloadEmbedsPrompt(Container, userPrompt);
    PayloadEmbedsPrompt(Host, userPrompt);
  }

  lemma UrlsDiffer()
    ensures Url(Container) != Url(Host)
  {
    assert |Url(Container)| == 46 && |Url(Host)| == 35;
  }

  lemma InstructionsDiffer()
    ensures |Instructions(Host)| == |Instructions(Container)| + 1
  {
    assert Instructions(Container) == Preamble + "" + Lead;
    assert Instructions(Host) == Preamble + " " + Lead;
  }

  /** What `requests.post` produced: an exception, or a status code with a body. */
  datatype LlmReply = PostRaised(message: string) | Answered(status: int, body: Body)

  /** The body as `response.json()["response"]` sees it. */
  datatype Body = ResponseText(text: string) | NoResponseKey | NotJson(message: string)

  /** The exceptions that leave the enhancer. */
  datatype LlmFault = Transport(message: string) | BadBody(message: string)

  function FaultMessage(f: LlmFault): string
  {
    match f
    case Transport(m) => m
    case BadBody(m) => m
  }

  /** The indices `random.choice` picks from the three option lists. */
  type Pick = i: nat | i < 4
  datatype Picks = Picks(style: Pick, light: Pick, detail: Pick)

  const ArtStyles: seq<string> := ["cinematic", "fantasy art", "photorealistic", "digital painting"]
  const Lighting: seq<string> := ["dramatic lighting", "golden hour sunlight", "soft ambient light", "moody shadows"]
  const Details: seq<string> := ["intricate details", "high resolution", "textured surfaces", "vibrant colors"]
  const Finish: string := ", masterfully crafted, 8k resolution"

  function Suffix(style: Pick, light: Pick, detail: Pick): string
  {
    ", " + ArtStyles[style] + ", " + Lighting[light] + ", " + Details[detail] + Finish
  }

  /** Every text the fallback can append: one per choice of style, lighting and detail. */
  ghost const FallbackSuffixes: set<string> :=
    set style: Pick, light: Pick, detail: Pick | true :: Suffix(style, light, detail)

  /** The algorithmic enhancement used when the model's endpoint answers with an error status. */
  function CreateEnhancedPromptFallback(basicPrompt: string, picks: Picks): (r: string)
    ensures IsPrefix(basicPrompt, r) && |r| > |basicPrompt|
    ensures r[|basicPrompt|..] in FallbackSuffixes
  {
    var r := basicPrompt + Suffix(picks.style, picks.light, picks.detail);
    assert r[|basicPrompt|..] == Suffix(picks.style, picks.light, picks.detail);
    r
  }

  /** The status branching both enhancers share. */
  function HandleReply(userPrompt: string, reply: LlmReply, picks: Picks): Result<string, LlmFault>
  {
    match reply
    case PostRaised(m) => Err(Transport(m))
    case Answered(status, body) =>
      if status == 200 then
        match body
        case ResponseText(t) => Ok(t)
        case NoResponseKey => Err(BadBody("'response'"))
        case NotJson(m) => Err(BadBody(m))
      else Ok(CreateEnhancedPromptFallback(userPrompt, picks))
  }

  /** One call of an enhancer: the request it sends and what it returns or raises. */
  datatype Exchange = Exchange(request: Request, outcome: Result<string, LlmFault>)

  /** `enhance_prompt`: status 200 yields the model's text, any other status the fallback; a failed POST propagates. */
  function EnhancePrompt(userPrompt: string, reply: LlmReply, picks: Picks): (x: Exchange)
    ensures x.request == PayloadFor(Container, userPrompt)
    ensures reply.PostRaised? ==> x.outcome == Err(Transport(reply.message))
    ensures reply.Answered? && reply.status == 200 && reply.body.ResponseText? ==> x.outcome == Ok(reply.body.text)
    ensures reply.Answered? && reply.status != 200 ==> x.outcome == Ok(CreateEnhancedPromptFallback(userPrompt, picks))
    ensures x.outcome.Err? <==> reply.PostRaised? || (reply.status == 200 && !reply.body.ResponseText?)
  {
    Exchange(PayloadFor(Container, userPrompt), HandleReply(userPrompt, reply, picks))
  }

  /** `enhance_prompt_local`: the same branching against the localhost endpoint. */
  function EnhancePromptLocal(userPrompt: string, reply: LlmReply, picks: Picks): (x: Exchange)
    ensures x.request == PayloadFor(Host, userPrompt)
    ensures reply.PostRaised? ==> x.outcome == Err(Transport(reply.message))
    ensures reply.Answered? && reply.status == 200 && reply.body.ResponseText? ==> x.outcome == Ok(reply.body.text)
    ensures reply.Answered? && reply.status != 200 ==> x.outcome == Ok(CreateEnhancedPromptFallback(userPrompt, picks))
    ensures x.outcome.Err? <==> reply.PostRaised? || (reply.status == 200 && !reply.body.ResponseText?)
  {
    Exchange(PayloadFor(Host, userPrompt), HandleReply(userPrompt, reply, picks))
  }
}
