/**
 * `generateHRMaterials` (services/geminiService.ts): choose the API key,
 * compose the request (prompt text, optional inline attachment, generation
 * config with the response schema), hand it to the model, reject an empty
 * reply and parse the rest. The SDK call and `JSON.parse` are parameters.
 */
module GeminiService {
  import opened Wrappers
  import opened Types
  import Js
  import Prompt
  import ResponseSchema

  /** One element of the request's `parts` list. */
  datatype Part = TextPart(text: string) | InlineData(data: string, mimeType: string)

  /** The generation config; the temperature 0.7 is kept in tenths. */
  datatype Config = Config(responseMimeType: string, responseSchema: ResponseSchema.Schema, temperatureTenths: nat)

  datatype Request = Request(model: string, parts: seq<Part>, config: Config)

  const Model: string := "gemini-3-pro-preview"
  const GenerationConfig: Config := Config("application/json", ResponseSchema.Declared, 7)

  /**
   * `(customApiKey || process.env.API_KEY) || ""`: the caller's key when it is
   * non-empty, the environment's key otherwise, the empty string when neither
   * is set.
   */
  function ApiKeyToUse(customApiKey: Option<string>, envApiKey: Option<string>): (key: string)
    ensures Js.Truthy(customApiKey) ==> key == customApiKey.value
    ensures !Js.Truthy(customApiKey) && envApiKey.Some? ==> key == envApiKey.value
    ensures !Js.Truthy(customApiKey) && envApiKey.None? ==> key == ""
  {
    var chosen := if Js.Truthy(customApiKey) then customApiKey else envApiKey;
    Js.OrElse(chosen, "")
  }

  /**
   * The parts list: the prompt, then the attached document when there is one.
   * Only the second part is inline data, and it carries exactly the file's
   * base64 content and MIME type.
   */
  function Parts(d: ApplicationData): (parts: seq<Part>)
    ensures |parts| == if d.cvFile.Some? then 2 else 1
    ensures parts[0] == TextPart(Prompt.PromptText(d))
    ensures d.cvFile.Some? ==> parts[1] == InlineData(d.cvFile.value.base64, d.cvFile.value.mimeType)
    ensures forall i :: 0 <= i < |parts| ==> (parts[i].InlineData? <==> i == 1)
  {
    [TextPart(Prompt.PromptText(d))]
    + if d.cvFile.Some? then [InlineData(d.cvFile.value.base64, d.cvFile.value.mimeType)] else []
  }

  /** Builds the parts list as the source does: start with the text part, push the file part. */
  method BuildContents(d: ApplicationData) returns (contents: seq<Part>)
    ensures contents == Parts(d)
  {
    contents := [TextPart(Prompt.PromptText(d))];
    if d.cvFile.Some? {
      contents := contents + [InlineData(d.cvFile.value.base64, d.cvFile.value.mimeType)];
    }
  }

  /**
   * The request handed to the SDK: a function of the form data alone. The CV
   * reaches the model exactly one way: without a file as labelled text in the
   * prompt, with a file as the inline part, the prompt then not depending on
   * the CV text at all.
   */
  function ComposeRequest(d: ApplicationData): (r: Request)
    ensures r.model == Model && r.config == GenerationConfig
    ensures |r.parts| == (if d.cvFile.Some? then 2 else 1) && r.parts[0].TextPart?
    ensures d.cvFile.None? ==> Prompt.Occurs(Prompt.CvDataLabel + d.cvData, r.parts[0].text)
    ensures d.cvFile.Some? ==> r.parts[1] == InlineData(d.cvFile.value.base64, d.cvFile.value.mimeType)
    ensures d.cvFile.Some? ==> forall x: string :: Parts(d.(cvData := x)) == r.parts
  {
    Request(Model, Parts(d), GenerationConfig)
  }

  /** What the SDK call does: throw, or resolve to a response whose `text` may be absent. */
  datatype Reply = Thrown(message: string) | Replied(text: Option<string>)

  /** Why `generateHRMaterials` rejects. */
  datatype GenError =
    | SdkError(message: string)   // rethrown from the SDK call
    | EmptyResponse               // "Üres válasz érkezett az AI-tól."
    | ParseError(text: string)    // `JSON.parse` threw on this text

  /**
   * The response guard and parse: an absent or empty text rejects without
   * parsing; otherwise the text is parsed, and a parse failure rejects.
   */
  function ReadResponse(reply: Reply, parse: string -> Option<GenerationResult>): (r: Result<GenerationResult, GenError>)
    ensures reply.Thrown? ==> r == Failure(SdkError(reply.message))
    ensures reply.Replied? && !Js.Truthy(reply.text) ==> r == Failure(EmptyResponse)
    ensures r.Success? <==> reply.Replied? && Js.Truthy(reply.text) && parse(reply.text.value).Some?
    ensures r.Success? ==> Some(r.value) == parse(reply.text.value)
    ensures r == Failure(EmptyResponse) <==> reply.Replied? && !Js.Truthy(reply.text)
    ensures reply.Replied? && Js.Truthy(reply.text) && parse(reply.text.value).None? ==> r == Failure(ParseError(reply.text.value))
  {
    match reply
    case Thrown(m) => Failure(SdkError(m))
    case Replied(text) =>
      if !Js.Truthy(text) then Failure(EmptyResponse)
      else
        match parse(text.value)
        case None => Failure(ParseError(text.value))
        case Some(g) => Success(g)
  }

  /** An empty reply is rejected the same way whatever the parser would have done with it. */
  lemma EmptyReplyIgnoresParser(text: Option<string>, p1: string -> Option<GenerationResult>, p2: string -> Option<GenerationResult>)
    requires !Js.Truthy(text)
    ensures ReadResponse(Replied(text), p1) == ReadResponse(Replied(text), p2) == Failure(EmptyResponse)
  {
  }

  /**
   * `generateHRMaterials`: the SDK (`generate`) receives the chosen key and
   * the composed request; its reply goes through the response guard.
   */
  method GenerateHRMaterials(
    data: ApplicationData,
    customApiKey: Option<string>,
    envApiKey: Option<string>,
    generate: (string, Request) -> Reply,
    parse: string -> Option<GenerationResult>)
    returns (r: Result<GenerationResult, GenError>)
    ensures r == ReadResponse(generate(ApiKeyToUse(customApiKey, envApiKey), ComposeRequest(data)), parse)
  {
    var apiKey := ApiKeyToUse(customApiKey, envApiKey);
    var contents := BuildContents(data);
    var reply := generate(apiKey, Request(Model, contents, GenerationConfig));
    match reply
    case Thrown(m) =>
      r := Failure(SdkError(m));
    case Replied(text) =>
      if !Js.Truthy(text) {
        r := Failure(EmptyResponse);
        return;
      }
      var parsed := parse(text.value);
      if parsed.None? {
        r := Failure(ParseError(text.value));
      } else {
        r := Success(parsed.value);
      }
  }
}
