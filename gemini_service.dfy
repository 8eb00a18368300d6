/**
 * The service layer (services/geminiService.ts): how each call to the
 * generative-AI provider is shaped, and how its reply is normalised.
 * The provider itself is not modelled: every reply is an input, and a call
 * that throws is `Threw`.
 */
module GeminiService {
  import opened Wrappers
  import opened Text
  import opened Types

  /** The outcome of one awaited provider call. */
  datatype Attempt<+T> = Threw | Returned(value: T)

  // ---------------------------------------------------------------------------
  // Replies of `generateContent`, as far as the service reads them
  // ---------------------------------------------------------------------------

  datatype InlineData = InlineData(data: Option<string>, mimeType: Option<string>)

  datatype Part = Part(text: Option<string>, inlineData: Option<InlineData>)

  /**
   * One candidate. `parts` stands for `content?.parts` and `groundingChunks`
   * for `groundingMetadata?.groundingChunks`: a missing intermediate object
   * reads the same as a missing list.
   */
  datatype Candidate = Candidate(parts: Option<seq<Part>>, groundingChunks: Option<seq<GroundingChunk>>)

  datatype GenerateResponse = GenerateResponse(text: Option<string>, candidates: Option<seq<Candidate>>)

  /** `response.candidates?.[0]`. */
  function FirstCandidate(resp: GenerateResponse): (c: Option<Candidate>)
    ensures c.Some? <==> resp.candidates.Some? && |resp.candidates.value| > 0
  {
    match resp.candidates
    case Some(cs) => if |cs| > 0 then Some(cs[0]) else None
    case None => None
  }

  // ---------------------------------------------------------------------------
  // Requests
  // ---------------------------------------------------------------------------

  datatype Location = Location(lat: real, lng: real)

  datatype LatLng = LatLng(latitude: real, longitude: real)

  /** What each service function sends; the model identifier is `Model()`. */
  datatype Request =
    | Screen(title: string, content: string)
    | Search(query: string)
    | Maps(query: string, latLng: Option<LatLng>)
    | Reason(prompt: string, thinkingBudget: nat)
    | Quick(prompt: string)
    | Speech(text: string, voice: string)
    | Transcribe(audio: Option<string>, audioMimeType: string, instruction: string)
    | Analyze(media: Option<string>, mediaMimeType: string, prompt: string)
    | Image(prompt: string, aspectRatio: string, imageSize: string)
    | Video(prompt: string, videoAspect: string, numberOfVideos: nat, resolution: string)
  {
    function Model(): string
    {
      match this
      case Screen(_, _) => "gemini-3-flash-preview"
      case Search(_) => "gemini-3-flash-preview"
      case Maps(_, _) => "gemini-2.5-flash"
      case Reason(_, _) => "gemini-3-pro-preview"
      case Quick(_) => "gemini-2.5-flash-lite-latest"
      case Speech(_, _) => "gemini-2.5-flash-preview-tts"
      case Transcribe(_, _, _) => "gemini-3-flash-preview"
      case Analyze(_, _, _) => "gemini-3-pro-preview"
      case Image(_, _, _) => "gemini-3-pro-image-preview"
      case Video(_, _, _, _) => "veo-3.1-fast-generate-preview"
    }
  }

  const DefaultImageAspect := "1:1"
  const DefaultImageSize := "1K"
  const DefaultVideoAspect := "16:9"
  const DefaultAnalysisPrompt := "Analyze this media for factual content."
  const TranscriptionInstruction := "Transcribe this audio exactly as spoken."
  const ReasoningBudget := 32768

  /** `screenContent`'s request: title and content go to the flash model. */
  function ScreenRequest(title: string, content: string): (r: Request)
    ensures r.Screen? && r.title == title && r.content == content && r.Model() == "gemini-3-flash-preview"
  {
    Screen(title, content)
  }

  /** `searchGrounding`'s request: the query goes to the flash model with search grounding. */
  function SearchRequest(query: string): (r: Request)
    ensures r.Search? && r.query == query && r.Model() == "gemini-3-flash-preview"
  {
    Search(query)
  }

  /** `quickResponse`'s request: the prompt goes to the low-latency model. */
  function QuickRequest(prompt: string): (r: Request)
    ensures r.Quick? && r.prompt == prompt && r.Model() == "gemini-2.5-flash-lite-latest"
  {
    Quick(prompt)
  }

  /**
   * `mapsGrounding`'s request: the retrieval location is sent exactly when the
   * caller gives one, with latitude from `lat` and longitude from `lng`.
   */
  function MapsRequest(query: string, location: Option<Location>): (r: Request)
    ensures r.Maps? && r.query == query && r.Model() == "gemini-2.5-flash"
    ensures r.latLng.Some? <==> location.Some?
    ensures location.Some? ==>
      r.latLng.value.latitude == location.value.lat && r.latLng.value.longitude == location.value.lng
  {
    match location
    case None => Maps(query, None)
    case Some(loc) => Maps(query, Some(LatLng(loc.lat, loc.lng)))
  }

  /** `generateImage`'s request; an omitted (undefined) argument takes its default. */
  function ImageRequest(prompt: string, aspectRatio: Option<string>, imageSize: Option<string>): (r: Request)
    ensures r.Image? && r.prompt == prompt && r.Model() == "gemini-3-pro-image-preview"
    ensures aspectRatio.None? ==> r.aspectRatio == "1:1"
    ensures imageSize.None? ==> r.imageSize == "1K"
    ensures aspectRatio.Some? ==> r.aspectRatio == aspectRatio.value
    ensures imageSize.Some? ==> r.imageSize == imageSize.value
  {
    Image(prompt, aspectRatio.GetOr(DefaultImageAspect), imageSize.GetOr(DefaultImageSize))
  }

  /** `generateVideo`'s request: one 720p video, aspect "16:9" unless given. */
  function VideoRequest(prompt: string, aspectRatio: Option<string>): (r: Request)
    ensures r.Video? && r.prompt == prompt && r.numberOfVideos == 1 && r.resolution == "720p"
    ensures r.Model() == "veo-3.1-fast-generate-preview"
    ensures r.videoAspect == if aspectRatio.Some? then aspectRatio.value else "16:9"
  {
    Video(prompt, aspectRatio.GetOr(DefaultVideoAspect), 1, "720p")
  }

  /**
   * `analyzeMedia`'s request. The default instruction replaces only an
   * omitted prompt: an empty string is sent as it is.
   */
  function AnalyzeRequest(media: Option<string>, mimeType: string, prompt: Option<string>): (r: Request)
    ensures r.Analyze? && r.media == media && r.mediaMimeType == mimeType && r.Model() == "gemini-3-pro-preview"
    ensures r.prompt == if prompt.Some? then prompt.value else "Analyze this media for factual content."
  {
    Analyze(media, mimeType, prompt.GetOr(DefaultAnalysisPrompt))
  }

  /** `transcribeAudio`'s request: the payload is always labelled "audio/wav", whatever the file was. */
  function TranscribeRequest(audio: Option<string>): (r: Request)
    ensures r.Transcribe? && r.audio == audio && r.audioMimeType == "audio/wav" && r.Model() == "gemini-3-flash-preview"
    ensures r.instruction == "Transcribe this audio exactly as spoken."
  {
    Transcribe(audio, "audio/wav", TranscriptionInstruction)
  }

  /** `complexReasoning`'s request, with a thinking budget of 32768 tokens. */
  function ReasonRequest(prompt: string): (r: Request)
    ensures r.Reason? && r.prompt == prompt && r.thinkingBudget == 32768 && r.Model() == "gemini-3-pro-preview"
  {
    Reason(prompt, ReasoningBudget)
  }

  /** `generateSpeech`'s request, with the fixed voice "Kore". */
  function SpeechRequest(text: string): (r: Request)
    ensures r.Speech? && r.text == text && r.voice == "Kore" && r.Model() == "gemini-2.5-flash-preview-tts"
  {
    Speech(text, "Kore")
  }

  // ---------------------------------------------------------------------------
  // screenContent
  // ---------------------------------------------------------------------------

  /** What `JSON.parse` yields under the response schema: a syntax error or an object. */
  datatype Json = SyntaxError | Parsed(result: VerificationResult)

  const NoFields := VerificationResult(None, None, None, None)

  /** `JSON.parse("{}")` is an object with none of the four properties. */
  predicate ParsesEmptyObject(parse: string -> Json)
  {
    parse("{}") == Parsed(NoFields)
  }

  /** The value `screenContent` returns when the call or the parse throws. */
  const ScreeningFallback := VerificationResult(
    Some(50.0), Some("Error during analysis."), Some([]), Some(["Service Error"]))

  /** The text handed to `JSON.parse`: `response.text?.trim() || "{}"`. */
  function JsonText(text: Option<string>): (r: string)
    ensures text.None? ==> r == "{}"
    ensures text.Some? && Trim(text.value) == "" ==> r == "{}"
    ensures text.Some? && Trim(text.value) != "" ==> r == Trim(text.value)
  {
    match text
    case None => "{}"
    case Some(t) => if Trim(t) == "" then "{}" else Trim(t)
  }

  /** A reply whose text is all whitespace is parsed as "{}". */
  lemma BlankTextParsesEmptyObject(text: string)
    requires AllWhitespace(text)
    ensures JsonText(Some(text)) == "{}"
  {
    TrimBlank(text);
  }

  /**
   * `screenContent`: the fallback when the call throws or its text is not
   * JSON; otherwise whatever the text parses to, checked against nothing.
   */
  function ScreenContent(reply: Attempt<GenerateResponse>, parse: string -> Json): (r: VerificationResult)
    ensures reply.Threw? ==> r == ScreeningFallback
    ensures reply.Returned? && parse(JsonText(reply.value.text)).SyntaxError? ==> r == ScreeningFallback
    ensures reply.Returned? && parse(JsonText(reply.value.text)).Parsed? ==>
      r == parse(JsonText(reply.value.text)).result
  {
    match reply
    case Threw => ScreeningFallback
    case Returned(resp) =>
      match parse(JsonText(resp.text))
      case SyntaxError => ScreeningFallback
      case Parsed(v) => v
  }

  /** The fallback carries score 50, a non-empty analysis, no sources and the single flag "Service Error". */
  lemma FallbackShape()
    ensures ScreeningFallback.credibilityScore == Some(50.0)
    ensures ScreeningFallback.analysis.Some? && |ScreeningFallback.analysis.value| > 0
    ensures ScreeningFallback.sourcesFound == Some([]) && ScreeningFallback.flags == Some(["Service Error"])
  {
  }

  /**
   * An absent or blank reply text is not an error: it yields an object with
   * none of the four properties, not the fallback.
   */
  lemma ScreenEmptyText(resp: GenerateResponse, parse: string -> Json)
    requires ParsesEmptyObject(parse)
    requires resp.text.None? || AllWhitespace(resp.text.value)
    ensures ScreenContent(Returned(resp), parse) == NoFields
    ensures ScreenContent(Returned(resp), parse) != ScreeningFallback
  {
    if resp.text.Some? {
      BlankTextParsesEmptyObject(resp.text.value);
    }
  }

  // ---------------------------------------------------------------------------
  // Grounded answers (searchGrounding, mapsGrounding)
  // ---------------------------------------------------------------------------

  datatype GroundedAnswer = GroundedAnswer(text: Option<string>, sources: seq<GroundingChunk>)

  /** `response.candidates?.[0]?.groundingMetadata?.groundingChunks || []`. */
  function GroundingSources(resp: GenerateResponse): (r: seq<GroundingChunk>)
    ensures FirstCandidate(resp).Some? && FirstCandidate(resp).value.groundingChunks.Some? ==>
      r == FirstCandidate(resp).value.groundingChunks.value
    ensures FirstCandidate(resp).None? || FirstCandidate(resp).value.groundingChunks.None? ==> r == []
  {
    match FirstCandidate(resp)
    case None => []
    case Some(c) => c.groundingChunks.GetOr([])
  }

  /** The answer of both grounding calls: the reply's text and its first candidate's citations. */
  function Grounded(resp: GenerateResponse): (a: GroundedAnswer)
    ensures a.text == resp.text && a.sources == GroundingSources(resp)
  {
    GroundedAnswer(resp.text, GroundingSources(resp))
  }

  /** Citations come only from the first candidate: the others never contribute. */
  lemma GroundingIgnoresLaterCandidates(text: Option<string>, first: Candidate, rest: seq<Candidate>)
    ensures GroundingSources(GenerateResponse(text, Some([first] + rest))) == first.groundingChunks.GetOr([])
  {
  }

  // ---------------------------------------------------------------------------
  // generateImage, generateSpeech
  // ---------------------------------------------------------------------------

  const ImageUrlPrefix := "data:image/png;base64,"

  /**
   * `response.candidates?.[0]?.content?.parts || []`: the parts of the first
   * candidate; none when there is no candidate or it has no parts.
   */
  function ResponseParts(resp: GenerateResponse): (r: seq<Part>)
    ensures resp.candidates.None? || resp.candidates.value == [] ==> r == []
    ensures resp.candidates.Some? && resp.candidates.value != [] ==>
      r == resp.candidates.value[0].parts.GetOr([])
  {
    match FirstCandidate(resp)
    case None => []
    case Some(c) => c.parts.GetOr([])
  }

  /** Part `i` is the first part that carries inline data. */
  predicate FirstInlineAt(parts: seq<Part>, i: int)
  {
    0 <= i < |parts| && parts[i].inlineData.Some? &&
    forall j :: 0 <= j < i ==> parts[j].inlineData.None?
  }

  /**
   * The URL `generateImage` returns for a reply's parts: a PNG data URL built
   * from the first part with inline data, or null when no part has any.
   */
  function ImageUrl(parts: seq<Part>): (url: Option<string>)
    ensures url.None? <==> forall i :: 0 <= i < |parts| ==> parts[i].inlineData.None?
    ensures url.Some? ==>
              exists i :: FirstInlineAt(parts, i) &&
                          url.value == ImageUrlPrefix + Show(parts[i].inlineData.value.data)
  {
    if parts == [] then None
    else if parts[0].inlineData.Some? then
      assert FirstInlineAt(parts, 0);
      Some(ImageUrlPrefix + Show(parts[0].inlineData.value.data))
    else
      var rest := ImageUrl(parts[1..]);
      assert forall i :: 0 <= i < |parts[1..]| ==> parts[1..][i] == parts[i + 1];
      assert forall i :: FirstInlineAt(parts[1..], i) ==> FirstInlineAt(parts, i + 1);
      rest
  }

  /** `generateImage`'s loop over the parts, returning at the first one with inline data. */
  method GenerateImage(resp: GenerateResponse) returns (url: Option<string>)
    ensures url == ImageUrl(ResponseParts(resp))
  {
    var parts := ResponseParts(resp);
    for i := 0 to |parts|
      invariant ImageUrl(parts) == ImageUrl(parts[i..])
    {
      if parts[i].inlineData.Some? {
        return Some(ImageUrlPrefix + Show(parts[i].inlineData.value.data));
      }
      assert parts[i..][1..] == parts[i + 1..];
    }
    return None;
  }

  /**
   * `generateSpeech`'s result: the inline data of the first part of the first
   * candidate only; later parts are never searched.
   */
  function SpeechData(resp: GenerateResponse): (r: Option<string>)
    ensures r.Some? ==>
              && |ResponseParts(resp)| > 0
              && ResponseParts(resp)[0].inlineData.Some?
              && r == ResponseParts(resp)[0].inlineData.value.data
    ensures |ResponseParts(resp)| == 0 || ResponseParts(resp)[0].inlineData.None? ==> r.None?
  {
    var parts := ResponseParts(resp);
    if |parts| > 0 && parts[0].inlineData.Some? then parts[0].inlineData.value.data else None
  }

  // ---------------------------------------------------------------------------
  // generateVideo
  // ---------------------------------------------------------------------------

  /** A long-running operation: whether it is done, and `response?.generatedVideos?.[0]?.video?.uri`. */
  datatype Operation = Operation(done: bool, videoUri: Option<string>)

  /** The awaited operation ends the loop: it threw, or it reports done. */
  predicate Settles(a: Attempt<Operation>)
  {
    a.Threw? || a.value.done
  }

  datatype VideoOutcome = StillPolling | Failed | Ready(url: string)

  /** `${downloadLink}&key=${API_KEY}`; a missing link or key is rendered "undefined". */
  function DownloadUrl(link: Option<string>, apiKey: Option<string>): (url: string)
    ensures Show(link) <= url
    ensures url[|Show(link)|..] == "&key=" + Show(apiKey)
  {
    Show(link) + "&key=" + Show(apiKey)
  }

  /**
   * The index of the first operation that settles, or `|ops|` when none does:
   * the number of polls `generateVideo` issues.
   */
  function FirstSettled(ops: seq<Attempt<Operation>>): (k: nat)
    ensures k <= |ops|
    ensures forall j :: 0 <= j < k ==> !Settles(ops[j])
    ensures k < |ops| ==> Settles(ops[k])
  {
    if ops == [] then 0
    else if Settles(ops[0]) then 0
    else
      var k := FirstSettled(ops[1..]);
      assert forall j :: 0 <= j < k ==> ops[1..][j] == ops[j + 1];
      1 + k
  }

  /**
   * What `generateVideo` resolves to after seeing `ops`: still polling when
   * no operation settles; otherwise decided by the first one that does, a
   * failure when it threw and its download URL when it is done.
   */
  function VideoResult(ops: seq<Attempt<Operation>>, apiKey: Option<string>): (r: VideoOutcome)
    ensures r.StillPolling? <==> forall j :: 0 <= j < |ops| ==> !Settles(ops[j])
    ensures forall k :: 0 <= k < |ops| && Settles(ops[k]) && (forall j :: 0 <= j < k ==> !Settles(ops[j])) ==>
      r == (if ops[k].Threw? then Failed else Ready(DownloadUrl(ops[k].value.videoUri, apiKey)))
  {
    var k := FirstSettled(ops);
    assert forall k' :: 0 <= k' < |ops| && Settles(ops[k']) && (forall j :: 0 <= j < k' ==> !Settles(ops[j])) ==> k' == k;
    if k == |ops| then StillPolling
    else if ops[k].Threw? then Failed
    else Ready(DownloadUrl(ops[k].value.videoUri, apiKey))
  }

  /**
   * `generateVideo`'s loop. `ops[0]` is what `generateVideos` returned and
   * `ops[k]` what the k-th `getVideosOperation` poll returned; `polls` is the
   * number of polls issued. The loop stops at the first operation that
   * settles (zero polls when the first one is already done); if none of the
   * given ones settles, the call is still polling.
   */
  method GenerateVideo(ops: seq<Attempt<Operation>>, apiKey: Option<string>)
    returns (outcome: VideoOutcome, polls: nat)
    ensures polls == FirstSettled(ops) && outcome == VideoResult(ops, apiKey)
  {
    var i := 0;
    while i < |ops| && !Settles(ops[i])
      invariant 0 <= i <= |ops|
      invariant forall j :: 0 <= j < i ==> !Settles(ops[j])
    {
      i := i + 1;
    }
    polls := i;
    if i == |ops| {
      outcome := StillPolling;
    } else if ops[i].Threw? {
      outcome := Failed;
    } else {
      outcome := Ready(DownloadUrl(ops[i].value.videoUri, apiKey));
    }
  }

  /** A provider that reports done after exactly three polls is polled exactly three times. */
  lemma DoneAfterThreePolls(pending: Operation, finished: Operation, rest: seq<Attempt<Operation>>, apiKey: Option<string>)
    requires !pending.done && finished.done
    ensures FirstSettled([Returned(pending), Returned(pending), Returned(pending), Returned(finished)] + rest) == 3
    ensures VideoResult([Returned(pending), Returned(pending), Returned(pending), Returned(finished)] + rest, apiKey)
            == Ready(DownloadUrl(finished.videoUri, apiKey))
  {
    var ops := [Returned(pending), Returned(pending), Returned(pending), Returned(finished)] + rest;
    assert Settles(ops[3]);
  }
}
