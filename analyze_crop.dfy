/**
 * The `analyze-crop` edge function: preflight, the credential check, the
 * language directive, the prompt chosen by `analysisType`, the one request
 * forwarded to the AI gateway, and the mapping of the gateway's reply to the
 * client's response. The environment and the gateway's reply are inputs.
 */
module AnalyzeCrop {
  import opened Basics
  import opened Text
  import LanguageContext

  datatype Header = Header(name: string, value: string)

  const CorsHeaders: seq<Header> := [
    Header("Access-Control-Allow-Origin", "*"),
    Header("Access-Control-Allow-Headers", "authorization, x-client-info, apikey, content-type")
  ]

  const JsonHeaders: seq<Header> := CorsHeaders + [Header("Content-Type", "application/json")]

  /** The parsed JSON body, a field being `None` when absent; or the parse error's message. */
  datatype Body =
    | Fields(imageUrl: Option<string>, analysisType: Option<string>, language: Option<string>)
    | Unreadable(message: string)

  datatype Request = Request(httpMethod: string, body: Body)

  datatype ResponseBody = NoBody | AnalysisJson(analysis: string) | ErrorJson(error: string)

  datatype Response = Response(status: nat, body: ResponseBody, headers: seq<Header>)

  /** The chat-completion request sent to the gateway. */
  datatype ProviderRequest = ProviderRequest(
    authorization: string, model: string, systemPrompt: string, userText: string, imageUrl: Option<string>)

  /** The first choice's message content, or the message of the error reading the JSON. */
  datatype Payload = Content(content: Option<string>) | Malformed(message: string)

  /** What the gateway call yields: a status and payload, or the error `fetch` threw. */
  datatype ProviderReply = Unreachable(message: string) | Replied(status: nat, payload: Payload)

  /** The response, and the gateway request made on the way, if any. */
  datatype Handled = Handled(response: Response, forwarded: Option<ProviderRequest>)

  const KeyMissingMessage: string := "LOVABLE_API_KEY is not configured"
  const RateLimitMessage: string := "Rate limit exceeded. Please try again later."
  const CreditsMessage: string := "Credits exhausted. Please add credits to continue."
  const GatewayErrorPrefix: string := "AI gateway error: "
  const Placeholder: string := "Unable to analyze image"
  const Model: string := "google/gemini-2.5-flash"
  const UserText: string := "Please analyze this image and provide detailed agricultural guidance."

  /** `languageInstructions`. */
  const LanguageInstructions: map<string, string> := map[
    "en" := "Respond in English",
    "hi" := "हिंदी में जवाब दें",
    "te" := "తెలుగులో సమాధానం ఇవ్వండి",
    "ta" := "தமிழில் பதிலளிக்கவும்",
    "kn" := "ಕನ್ನಡದಲ್ಲಿ ಉತ್ತರಿಸಿ",
    "ml" := "മലയാളത്തിൽ മറുപടി നൽകുക",
    "mr" := "मराठीत उत्तर द्या",
    "gu" := "ગુજરાતીમાં જવાબ આપો",
    "bn" := "বাংলায় উত্তর দিন",
    "pa" := "ਪੰਜਾਬੀ ਵਿੱਚ ਜਵਾਬ ਦਿਓ",
    "or" := "ଓଡ଼ିଆରେ ଉତ୍ତର ଦିଅନ୍ତୁ"
  ]

  const EnglishInstruction: string := "Respond in English"

  /** The key a JavaScript property access uses for the `language` field. */
  function PropertyKey(language: Option<string>): string {
    if language.Some? then language.value else "undefined"
  }

  /**
   * The language directive with the evidently intended lookup: the table's
   * entry for the eleven codes, English for any other value.
   */
  function LanguageInstruction(language: Option<string>): (r: string)
    ensures language.Some? && LanguageContext.ParseCode(language.value).Some? ==>
              r == LanguageInstructions[language.value]
    ensures language.None? || LanguageContext.ParseCode(language.value).None? ==> r == EnglishInstruction
    ensures r != ""
  {
    var key := PropertyKey(language);
    if key in LanguageInstructions && LanguageInstructions[key] != "" then LanguageInstructions[key]
    else EnglishInstruction
  }

  /**
   * Property names every object literal inherits from `Object.prototype` on
   * the Deno runtime, which removes the `__proto__` accessor.
   */
  const InheritedNames: set<string> := {
    "constructor", "hasOwnProperty", "isPrototypeOf", "propertyIsEnumerable",
    "toLocaleString", "toString", "valueOf",
    "__defineGetter__", "__defineSetter__", "__lookupGetter__", "__lookupSetter__"
  }

  /**
   * How a template literal prints the inherited member found under `name`:
   * `constructor` is the `Object` function, and every other name is a
   * built-in method of that name.
   */
  function InheritedText(name: string): string {
    if name == "constructor" then "function Object() { [native code] }"
    else "function " + name + "() { [native code] }"
  }

  /**
   * The lookup `languageInstructions[language] || languageInstructions.en` as
   * written: the object literal also answers for inherited members, which are
   * truthy, so the English fallback is skipped for them.
   */
  function LanguageInstructionAsWritten(language: Option<string>): (r: string)
    ensures PropertyKey(language) !in InheritedNames ==> r == LanguageInstruction(language)
  {
    var key := PropertyKey(language);
    if key in LanguageInstructions && LanguageInstructions[key] != "" then LanguageInstructions[key]
    else if key in InheritedNames then InheritedText(key)
    else EnglishInstruction
  }

  /** The language "toString" is not a listed code, yet the as-written lookup gives no English directive. */
  lemma InheritedLanguageSkipsFallback()
    ensures LanguageContext.ParseCode("toString").None?
    ensures LanguageInstruction(Some("toString")) == EnglishInstruction
    ensures LanguageInstructionAsWritten(Some("toString")) == "function toString() { [native code] }"
    ensures LanguageInstructionAsWritten(Some("toString")) != EnglishInstruction
  {
  }

  /** The language "constructor" is unlisted too; as written it reaches the `Object` function's text. */
  lemma ConstructorLanguageSkipsFallback()
    ensures LanguageContext.ParseCode("constructor").None?
    ensures LanguageInstruction(Some("constructor")) == EnglishInstruction
    ensures LanguageInstructionAsWritten(Some("constructor")) == "function Object() { [native code] }"
    ensures LanguageInstructionAsWritten(Some("constructor")) != EnglishInstruction
  {
  }

  datatype PromptKind = PestPrompt | SoilPrompt | DiseasePrompt | GeneralPrompt

  /** The `switch (analysisType)`. */
  function KindOf(analysisType: Option<string>): (k: PromptKind)
    ensures k == PestPrompt <==> analysisType == Some("pest")
    ensures k == SoilPrompt <==> analysisType == Some("soil")
    ensures k == DiseasePrompt <==> analysisType == Some("disease")
  {
    match analysisType
    case Some("pest") => PestPrompt
    case Some("soil") => SoilPrompt
    case Some("disease") => DiseasePrompt
    case _ => GeneralPrompt
  }

  /** The text of each prompt template before the directive (its first sentence stands for the rest). */
  function Preamble(k: PromptKind): string {
    match k
    case PestPrompt =>
      "You are an expert agricultural entomologist and pest management specialist helping Indian farmers. \n        "
    case SoilPrompt =>
      "You are an expert soil scientist and agronomist helping Indian farmers.\n        "
    case DiseasePrompt =>
      "You are an expert plant pathologist helping Indian farmers identify and treat crop diseases.\n        "
    case GeneralPrompt =>
      "You are an expert agricultural advisor helping Indian farmers.\n        "
  }

  /** `systemPrompt`: the kind's template, ending with the directive. */
  function SystemPrompt(analysisType: Option<string>, directive: string): (r: string)
    ensures |r| >= |directive| && r[|r| - |directive|..] == directive
    ensures r[..|r| - |directive|] == Preamble(KindOf(analysisType))
  {
    Preamble(KindOf(analysisType)) + directive
  }

  /** The four templates differ: each pair is compared on its own. */
  lemma PreamblesDistinct(a: PromptKind, b: PromptKind)
    requires a != b
    ensures Preamble(a) != Preamble(b)
  {
    match (a, b)
    case (PestPrompt, SoilPrompt) | (SoilPrompt, PestPrompt) => PestSoilDiffer();
    case (PestPrompt, DiseasePrompt) | (DiseasePrompt, PestPrompt) => PestDiseaseDiffer();
    case (PestPrompt, GeneralPrompt) | (GeneralPrompt, PestPrompt) => PestGeneralDiffer();
    case (SoilPrompt, DiseasePrompt) | (DiseasePrompt, SoilPrompt) => SoilDiseaseDiffer();
    case (SoilPrompt, GeneralPrompt) | (GeneralPrompt, SoilPrompt) => SoilGeneralDiffer();
    case (DiseasePrompt, GeneralPrompt) | (GeneralPrompt, DiseasePrompt) => DiseaseGeneralDiffer();
    case _ =>
  }

  lemma PestSoilDiffer() ensures Preamble(PestPrompt) != Preamble(SoilPrompt) {}
  lemma PestDiseaseDiffer() ensures Preamble(PestPrompt) != Preamble(DiseasePrompt) {}
  lemma PestGeneralDiffer() ensures Preamble(PestPrompt) != Preamble(GeneralPrompt) {}
  lemma SoilDiseaseDiffer() ensures Preamble(SoilPrompt) != Preamble(DiseasePrompt) {}
  lemma SoilGeneralDiffer() ensures Preamble(SoilPrompt) != Preamble(GeneralPrompt) {}
  lemma DiseaseGeneralDiffer() ensures Preamble(DiseasePrompt) != Preamble(GeneralPrompt) {}

  /** Different kinds give different prompts for the same directive. */
  lemma PromptsDistinct(a: Option<string>, b: Option<string>, directive: string)
    requires KindOf(a) != KindOf(b)
    ensures SystemPrompt(a, directive) != SystemPrompt(b, directive)
  {
    PreamblesDistinct(KindOf(a), KindOf(b));
  }

  /** A pest request in Hindi carries the pest template and the Hindi directive. */
  lemma HindiPestPrompt()
    ensures SystemPrompt(Some("pest"), LanguageInstruction(Some("hi"))) ==
              Preamble(PestPrompt) + LanguageInstructions["hi"]
  {
  }

  /** `data.choices?.[0]?.message?.content || "Unable to analyze image"`. */
  function AnalysisText(content: Option<string>): (r: string)
    ensures r != ""
    ensures content.Some? && content.value != "" ==> r == content.value
    ensures content.None? || content.value == "" ==> r == Placeholder
  {
    if content.Some? && content.value != "" then content.value else Placeholder
  }

  /** `response.ok`. */
  predicate IsOk(status: nat) {
    200 <= status <= 299
  }

  /** The catch block's response for an error with this message. */
  function Failure(message: string): Response {
    Response(500, ErrorJson(message), JsonHeaders)
  }

  /** The response built from the gateway's reply. */
  function ReplyResponse(reply: ProviderReply): (r: Response)
    ensures r.headers == JsonHeaders
    ensures r.status in {200, 402, 429, 500}
    ensures r.status == 429 <==> reply.Replied? && reply.status == 429
    ensures r.status == 402 <==> reply.Replied? && reply.status == 402
    ensures r.status == 200 <==> reply.Replied? && IsOk(reply.status) && reply.payload.Content?
    ensures r.status == 429 ==> r.body == ErrorJson(RateLimitMessage)
    ensures r.status == 402 ==> r.body == ErrorJson(CreditsMessage)
    ensures reply.Replied? && !IsOk(reply.status) && reply.status != 429 && reply.status != 402 ==>
              r.body == ErrorJson(GatewayErrorPrefix + Decimal(reply.status))
    ensures r.status == 200 ==> r.body == AnalysisJson(AnalysisText(reply.payload.content))
    ensures reply.Unreachable? ==> r == Failure(reply.message)
    ensures reply.Replied? && IsOk(reply.status) && reply.payload.Malformed? ==> r == Failure(reply.payload.message)
  {
    match reply
    case Unreachable(message) => Failure(message)
    case Replied(status, payload) =>
      if !IsOk(status) then
        if status == 429 then Response(429, ErrorJson(RateLimitMessage), JsonHeaders)
        else if status == 402 then Response(402, ErrorJson(CreditsMessage), JsonHeaders)
        else Failure(GatewayErrorPrefix + Decimal(status))
      else
        match payload
        case Malformed(message) => Failure(message)
        case Content(content) => Response(200, AnalysisJson(AnalysisText(content)), JsonHeaders)
  }

  /** The gateway request for a readable body and a configured key. */
  function Forward(imageUrl: Option<string>, analysisType: Option<string>, language: Option<string>,
                   key: string): ProviderRequest
  {
    ProviderRequest("Bearer " + key, Model, SystemPrompt(analysisType, LanguageInstruction(language)),
                    UserText, imageUrl)
  }

  /** The `serve` handler. `apiKey` is `Deno.env.get("LOVABLE_API_KEY")`. */
  function Handle(req: Request, apiKey: Option<string>, reply: ProviderReply): (h: Handled)
    ensures CorsHeaders <= h.response.headers
    ensures h.response.status in {200, 402, 429, 500}
    ensures req.httpMethod == "OPTIONS" ==> h == Handled(Response(200, NoBody, CorsHeaders), None)
    ensures h.forwarded.Some? <==>
              req.httpMethod != "OPTIONS" && req.body.Fields? && apiKey.Some? && apiKey.value != ""
    ensures req.httpMethod != "OPTIONS" && req.body.Unreadable? ==> h.response == Failure(req.body.message)
    ensures req.httpMethod != "OPTIONS" && req.body.Fields? && (apiKey.None? || apiKey.value == "") ==>
              h.response == Failure(KeyMissingMessage)
    ensures h.forwarded.Some? ==>
              h.forwarded.value.systemPrompt ==
                SystemPrompt(req.body.analysisType, LanguageInstruction(req.body.language)) &&
              h.forwarded.value.imageUrl == req.body.imageUrl &&
              h.forwarded.value.authorization == "Bearer " + apiKey.value &&
              h.response == ReplyResponse(reply)
  {
    if req.httpMethod == "OPTIONS" then Handled(Response(200, NoBody, CorsHeaders), None)
    else match req.body
      case Unreadable(message) => Handled(Failure(message), None)
      case Fields(imageUrl, analysisType, language) =>
        if apiKey.None? || apiKey.value == "" then Handled(Failure(KeyMissingMessage), None)
        else Handled(ReplyResponse(reply), Some(Forward(imageUrl, analysisType, language, apiKey.value)))
  }

  /** A rate-limited gateway yields a message distinct from the generic failure for status 500. */
  lemma RateLimitDistinctFromGenericFailure(p: Payload, q: Payload)
    ensures ReplyResponse(Replied(429, p)).body != ReplyResponse(Replied(500, q)).body
    ensures ReplyResponse(Replied(500, q)).status == 500
  {
  }
}
