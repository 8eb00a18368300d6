/**
 * The AI lab assistant (components/AiAssistant.tsx): which service call a
 * task runs, and how the response list, the query and the attachment change
 * when it succeeds or fails.
 */
module AiAssistant {
  import opened Wrappers
  import opened Text
  import opened GeminiService

  datatype Mode = SearchMode | MapsMode | ReasonMode | MediaMode

  /** An attached file: the base64 part of its data URL, and its MIME type. */
  datatype Attachment = Attachment(data: Option<string>, mimeType: string)

  /** A file as the file reader delivers it. */
  datatype SelectedFile = SelectedFile(dataUrl: string, mimeType: string)

  /** One entry of the response list; `NoResult` is the `undefined` a 'media' task without a file leaves. */
  datatype TaskResult =
    | Grounding(answer: GroundedAnswer)
    | Transcription(text: Option<string>)
    | Analysis(text: Option<string>)
    | Reasoning(text: Option<string>)
    | NoResult

  /** `handleFileChange`: keep the piece after the first comma of the data URL, and the file's type. */
  function AttachmentOf(f: SelectedFile): (a: Attachment)
    ensures a.mimeType == f.mimeType
    ensures a.data.None? <==> ',' !in f.dataUrl
  {
    Attachment(SplitSecond(f.dataUrl, ','), f.mimeType)
  }

  /** The attachment of a well-formed data URL is exactly its payload. */
  lemma AttachmentOfDataUrl(header: string, payload: string, mimeType: string)
    requires ',' !in header && ',' !in payload
    ensures AttachmentOf(SelectedFile(header + "," + payload, mimeType)) == Attachment(Some(payload), mimeType)
  {
  }

  /**
   * The call `executeTask` makes. An attachment decides before the mode: an
   * audio file is transcribed, any other file is analysed with the query as
   * its prompt. Without a file the mode picks search, maps or reasoning, and
   * 'media' makes no call at all.
   */
  function Dispatch(query: string, mode: Mode, file: Option<Attachment>): (r: Option<Request>)
    ensures file.Some? && StartsWith(file.value.mimeType, "audio") ==>
              r == Some(TranscribeRequest(file.value.data))
    ensures file.Some? && !StartsWith(file.value.mimeType, "audio") ==>
              r == Some(AnalyzeRequest(file.value.data, file.value.mimeType, Some(query)))
    ensures file.None? && mode == SearchMode ==> r == Some(SearchRequest(query))
    ensures file.None? && mode == MapsMode ==> r == Some(MapsRequest(query, None))
    ensures file.None? && mode == ReasonMode ==> r == Some(ReasonRequest(query))
    ensures r.None? <==> file.None? && mode == MediaMode
  {
    match file
    case Some(f) =>
      if StartsWith(f.mimeType, "audio") then Some(TranscribeRequest(f.data))
      else Some(AnalyzeRequest(f.data, f.mimeType, Some(query)))
    case None =>
      match mode
      case SearchMode => Some(SearchRequest(query))
      case MapsMode => Some(MapsRequest(query, None))
      case ReasonMode => Some(ReasonRequest(query))
      case MediaMode => None
  }

  /** With a file attached the selected mode makes no difference. */
  lemma FileOverridesMode(query: string, m1: Mode, m2: Mode, file: Option<Attachment>)
    requires file.Some?
    ensures Dispatch(query, m1, file) == Dispatch(query, m2, file)
  {
  }

  /**
   * A non-audio file sent with an empty query is analysed with the empty
   * prompt: the service's default instruction applies only to an omitted one.
   */
  lemma EmptyQueryAnalysisPrompt(file: Attachment)
    requires !StartsWith(file.mimeType, "audio")
    ensures Dispatch("", SearchMode, Some(file)).value.prompt == ""
    ensures Dispatch("", SearchMode, Some(file)).value.prompt != DefaultAnalysisPrompt
  {
  }

  /** The list entry a call's reply becomes. */
  function ResultOf(request: Option<Request>, resp: GenerateResponse): (r: TaskResult)
    ensures request.None? ==> r == NoResult
    ensures request.Some? && (request.value.Search? || request.value.Maps?) ==> r == Grounding(Grounded(resp))
    ensures request.Some? && request.value.Reason? ==> r == Reasoning(resp.text)
    ensures request.Some? && request.value.Transcribe? ==> r == Transcription(resp.text)
    ensures request.Some? && request.value.Analyze? ==> r == Analysis(resp.text)
  {
    match request
    case None => NoResult
    case Some(Search(_)) => Grounding(Grounded(resp))
    case Some(Maps(_, _)) => Grounding(Grounded(resp))
    case Some(Reason(_, _)) => Reasoning(resp.text)
    case Some(Transcribe(_, _, _)) => Transcription(resp.text)
    case Some(Analyze(_, _, _)) => Analysis(resp.text)
    case Some(_) => NoResult
  }

  /** The empty reply used when no call is made. */
  const NoReply := GenerateResponse(None, None)

  class Assistant {
    var query: string
    var mode: Mode
    var loading: bool
    /** Newest first. */
    var responses: seq<TaskResult>
    var file: Option<Attachment>

    constructor ()
      ensures query == "" && mode == SearchMode && !loading && responses == [] && file.None?
    {
      query, mode, loading, responses, file := "", SearchMode, false, [], None;
    }

    /** The send button is disabled while loading, or with neither a query nor a file. */
    predicate SendDisabled()
      reads this
    {
      loading || (query == "" && file.None?)
    }

    method SetQuery(value: string)
      modifies this`query
      ensures query == value
    {
      query := value;
    }

    method SetMode(value: Mode)
      modifies this`mode
      ensures mode == value
    {
      mode := value;
    }

    /** The remove button of the attachment. */
    method ClearFile()
      modifies this`file
      ensures file.None?
    {
      file := None;
    }

    /** `handleFileChange`: a selected file replaces the attachment; no selection changes nothing. */
    method HandleFileChange(selected: Option<SelectedFile>)
      modifies this`file
      ensures selected.None? ==> file == old(file)
      ensures selected.Some? ==> file == Some(AttachmentOf(selected.value))
    {
      if selected.Some? {
        file := Some(AttachmentOf(selected.value));
      }
    }

    /**
     * `executeTask`. Nothing runs without a query or a file. Otherwise the
     * call `Dispatch` picks is made; `reply` is what it yields. On success the
     * result goes first in the list and the query and the file are cleared;
     * when the call throws they all stay as they were. Loading ends either way.
     */
    method ExecuteTask(reply: Attempt<GenerateResponse>) returns (request: Option<Request>, ran: bool)
      modifies this`loading, this`responses, this`query, this`file
      ensures ran <==> !(old(query) == "" && old(file).None?)
      ensures !ran ==> unchanged(this) && request.None?
      ensures ran ==> request == Dispatch(old(query), mode, old(file)) && !loading
      ensures ran && request.Some? && reply.Threw? ==>
                responses == old(responses) && query == old(query) && file == old(file)
      ensures ran && (request.None? || reply.Returned?) ==>
                && responses == [ResultOf(request, if reply.Returned? then reply.value else NoReply)] + old(responses)
                && query == "" && file.None?
    {
      if query == "" && file.None? {
        return None, false;
      }
      ran := true;
      loading := true;
      request := Dispatch(query, mode, file);
      // a call that throws is only logged; nothing else changes
      if request.None? || reply.Returned? {
        var result := ResultOf(request, if reply.Returned? then reply.value else NoReply);
        responses := [result] + responses;
        query := "";
        file := None;
      }
      loading := false;
    }
  }
}
