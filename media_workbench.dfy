/**
 * The media workbench (components/MediaWorkbench.tsx): which generation call
 * runs, the aspect remap for video, and the result slot and loading flag.
 */
module MediaWorkbench {
  import opened Wrappers
  import opened GeminiService

  datatype MediaKind = ImageKind | VideoKind

  /** The video model accepts no square frame: "1:1" becomes "16:9"; every other aspect is passed on as it is. */
  function VideoAspect(aspect: string): (r: string)
    ensures aspect == "1:1" ==> r == "16:9"
    ensures aspect != "1:1" ==> r == aspect
  {
    if aspect == "1:1" then "16:9" else aspect
  }

  /** The request `handleGenerate` sends; an image takes aspect and size as chosen. */
  function GenerateRequest(prompt: string, kind: MediaKind, aspect: string, size: string): (r: Request)
    ensures kind == ImageKind ==> r == Image(prompt, aspect, size)
    ensures kind == VideoKind ==> r == Video(prompt, VideoAspect(aspect), 1, "720p")
  {
    match kind
    case ImageKind => ImageRequest(prompt, Some(aspect), Some(size))
    case VideoKind => VideoRequest(prompt, Some(VideoAspect(aspect)))
  }

  /** A video request never asks for a square frame. */
  lemma VideoNeverSquare(prompt: string, aspect: string)
    ensures GenerateRequest(prompt, VideoKind, aspect, "1K").videoAspect != "1:1"
  {
  }

  class Workbench {
    var prompt: string
    var kind: MediaKind
    var aspect: string
    var size: string
    var loading: bool
    var result: Option<string>

    constructor ()
      ensures prompt == "" && kind == ImageKind && aspect == "1:1" && size == "1K"
      ensures !loading && result.None?
    {
      prompt, kind, aspect, size, loading, result := "", ImageKind, "1:1", "1K", false, None;
    }

    /** The generate button is disabled while loading or without a prompt. */
    predicate GenerateDisabled()
      reads this
    {
      loading || prompt == ""
    }

    method SetPrompt(value: string)
      modifies this`prompt
      ensures prompt == value
    {
      prompt := value;
    }

    method SetKind(value: MediaKind)
      modifies this`kind
      ensures kind == value
    {
      kind := value;
    }

    method SetAspect(value: string)
      modifies this`aspect
      ensures aspect == value
    {
      aspect := value;
    }

    method SetSize(value: string)
      modifies this`size
      ensures size == value
    {
      size := value;
    }

    /**
     * `handleGenerate`. Nothing happens without a prompt. An image call that
     * returns replaces the result with its URL or with null; a video call
     * replaces it with its URL once the poll loop has settled. A call that
     * throws leaves the result as it was. Loading ends when the call settles;
     * while the video is still polling it stays on.
     */
    method HandleGenerate(imageReply: Attempt<GenerateResponse>, videoOps: seq<Attempt<Operation>>,
                          apiKey: Option<string>)
      returns (request: Option<Request>)
      modifies this`loading, this`result
      ensures request.None? <==> prompt == ""
      ensures request.None? ==> loading == old(loading) && result == old(result)
      ensures request.Some? ==> request.value == GenerateRequest(prompt, kind, aspect, size)
      ensures request.Some? && kind == ImageKind ==>
                && !loading
                && result == (if imageReply.Returned? then ImageUrl(ResponseParts(imageReply.value)) else old(result))
      ensures request.Some? && kind == VideoKind ==>
                && loading == VideoResult(videoOps, apiKey).StillPolling?
                && result == (if VideoResult(videoOps, apiKey).Ready? then Some(VideoResult(videoOps, apiKey).url)
                              else old(result))
    {
      if prompt == "" {
        return None;
      }
      request := Some(GenerateRequest(prompt, kind, aspect, size));
      loading := true;
      if kind == ImageKind {
        if imageReply.Returned? {
          var url := GenerateImage(imageReply.value);
          result := url;
        }
        loading := false;
      } else {
        var outcome, polls := GenerateVideo(videoOps, apiKey);
        match outcome
        case StillPolling =>
        case Failed =>
          loading := false;
        case Ready(url) =>
          result := Some(url);
          loading := false;
      }
    }
  }
}
