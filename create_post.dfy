/**
 * The post form (components/CreatePost.tsx): the submit guard, the status a
 * screening score earns, and the record of a new post with its audit trail.
 * Each awaited step of `handleSubmit` is one method, so that the form values
 * captured at submit time stay distinct from later edits.
 */
module CreatePost {
  import opened Wrappers
  import opened Types
  import Text
  import GeminiService

  const AuthorName := "Alex Thompson"
  const PostSources := ["Verified Internal Source", "Public Records"]

  /** The status a screening earns: AI Screened strictly above 70, Pending otherwise. */
  function DerivedStatus(score: Option<real>): (s: VerificationStatus)
    ensures s == AiScreened <==> score.Some? && score.value > 70.0
    ensures s == AiScreened || s == Pending
    ensures s.Label() == (if score.Some? && score.value > 70.0 then "AI Screened" else "Pending Verification")
  {
    if score.Some? && score.value > 70.0 then AiScreened else Pending
  }

  /** The form values captured when the form is submitted. */
  datatype Draft = Draft(title: string, content: string, contentType: ContentType)

  /** The two fixed audit steps; the second one carries the screening analysis. */
  function AuditTrail(analysis: VerificationResult): (trail: seq<VerificationLog>)
    ensures |trail| == 2
    ensures trail[0].step == "Identity Verified" && trail[1].step == "AI Screening"
    ensures trail[1].details == analysis.analysis
  {
    [ VerificationLog("1", "Identity Verified", "Today, 10:00 AM", "System",
                      Some("Biometric authentication successful.")),
      VerificationLog("2", "AI Screening", "Today, 10:05 AM", "AuthenTik AI Core",
                      analysis.analysis) ]
  }

  /** The post `handleSubmit` emits for a draft, its screening and a fresh id. */
  function NewPost(id: string, draft: Draft, analysis: VerificationResult): (p: Post)
    ensures p.id == id
    ensures p.title == draft.title && p.content == draft.content && p.contentType == draft.contentType
    ensures p.status == DerivedStatus(analysis.credibilityScore)
    ensures p.likes == 0 && p.views == 0 && p.likedByMe == Some(false)
    ensures p.evidenceUrls == [] && p.sources == ["Verified Internal Source", "Public Records"]
    ensures p.auditTrail == AuditTrail(analysis)
    ensures p.author == "Alex Thompson" && p.authorRole == Journalist && p.authorRole.Label() == "Journalist"
  {
    Post(
      id := id,
      author := AuthorName,
      authorAvatar := None,
      authorRole := Journalist,
      contentType := draft.contentType,
      title := draft.title,
      content := draft.content,
      timestamp := "Just now",
      status := DerivedStatus(analysis.credibilityScore),
      sources := PostSources,
      evidenceUrls := [],
      replyConfirmed := None,
      auditTrail := AuditTrail(analysis),
      interviewUrl := None,
      comments := None,
      likes := 0,
      likedByMe := Some(false),
      views := 0)
  }

  /** A screening that failed, for whatever reason, never earns AI Screened: its score is 50. */
  lemma FailedScreeningIsPending(id: string, draft: Draft, resp: GeminiService.GenerateResponse,
                                 parse: string -> GeminiService.Json)
    requires parse(GeminiService.JsonText(resp.text)).SyntaxError?
    ensures NewPost(id, draft, GeminiService.ScreenContent(GeminiService.Threw, parse)).status == Pending
    ensures NewPost(id, draft, GeminiService.ScreenContent(GeminiService.Returned(resp), parse)).status == Pending
  {
  }

  /** An empty or blank reply gives no score, so the post stays Pending, with no audit details. */
  lemma EmptyScreeningIsPending(id: string, draft: Draft, resp: GeminiService.GenerateResponse,
                                parse: string -> GeminiService.Json)
    requires GeminiService.ParsesEmptyObject(parse)
    requires resp.text.None? || Text.AllWhitespace(resp.text.value)
    ensures NewPost(id, draft, GeminiService.ScreenContent(GeminiService.Returned(resp), parse)).status == Pending
    ensures NewPost(id, draft, GeminiService.ScreenContent(GeminiService.Returned(resp), parse)).auditTrail[1].details.None?
  {
    GeminiService.ScreenEmptyText(resp, parse);
  }

  /** A reply scoring 85 makes the post AI Screened; the score is passed through unchanged. */
  lemma CredibleReplyIsScreened(id: string, draft: Draft, resp: GeminiService.GenerateResponse,
                                parse: string -> GeminiService.Json)
    requires parse(GeminiService.JsonText(resp.text)) ==
      GeminiService.Parsed(VerificationResult(Some(85.0), Some("Looks credible"), Some(["X"]), Some([])))
    ensures GeminiService.ScreenContent(GeminiService.Returned(resp), parse).credibilityScore == Some(85.0)
    ensures NewPost(id, draft, GeminiService.ScreenContent(GeminiService.Returned(resp), parse)).status == AiScreened
  {
  }

  class Form {
    var isSubmitting: bool
    var title: string
    var content: string
    var contentType: ContentType
    var aiAnalysis: Option<VerificationResult>

    constructor ()
      ensures !isSubmitting && title == "" && content == "" && contentType == News && aiAnalysis.None?
      ensures contentType.Label() == "News Report"
    {
      isSubmitting, title, content, contentType, aiAnalysis := false, "", "", News, None;
    }

    /** The submit button is disabled while submitting or while either field is empty. */
    predicate SubmitDisabled()
      reads this
    {
      isSubmitting || title == "" || content == ""
    }

    method SetTitle(value: string)
      modifies this`title
      ensures title == value
    {
      title := value;
    }

    method SetContent(value: string)
      modifies this`content
      ensures content == value
    {
      content := value;
    }

    method SetContentType(value: ContentType)
      modifies this`contentType
      ensures contentType == value
    {
      contentType := value;
    }

    /**
     * The guard and first step of `handleSubmit`: nothing happens when the
     * title or the content is empty; otherwise the form is submitting and the
     * values to publish are captured.
     */
    method Submit() returns (draft: Option<Draft>)
      modifies this`isSubmitting
      ensures draft.None? <==> title == "" || content == ""
      ensures draft.None? ==> isSubmitting == old(isSubmitting)
      ensures draft.Some? ==> draft.value == Draft(title, content, contentType) && isSubmitting
    {
      if title == "" || content == "" {
        return None;
      }
      isSubmitting := true;
      draft := Some(Draft(title, content, contentType));
    }

    /** The screening result arrived: it is shown while the post is prepared. */
    method OnScreened(analysis: VerificationResult)
      modifies this`aiAnalysis
      ensures aiAnalysis == Some(analysis)
    {
      aiAnalysis := Some(analysis);
    }

    /**
     * The delayed last step: the post built from the captured draft is
     * emitted, and title, content, the submitting flag and the analysis are
     * reset; the content type is kept.
     */
    method Publish(draft: Draft, analysis: VerificationResult, id: string) returns (post: Post)
      modifies this`title, this`content, this`isSubmitting, this`aiAnalysis
      ensures post == NewPost(id, draft, analysis)
      ensures title == "" && content == "" && !isSubmitting && aiAnalysis.None?
    {
      post := NewPost(id, draft, analysis);
      title := "";
      content := "";
      isSubmitting := false;
      aiAnalysis := None;
    }

    /**
     * `handleSubmit` as one step: guard, screening request, post, reset. The
     * screening is the service's answer to `reply`; no screening is requested
     * when the title or the content is empty.
     */
    method HandleSubmit(reply: GeminiService.Attempt<GeminiService.GenerateResponse>,
                        parse: string -> GeminiService.Json, id: string)
      returns (request: Option<GeminiService.Request>, post: Option<Post>)
      modifies this`title, this`content, this`isSubmitting, this`aiAnalysis
      ensures request.None? <==> old(title) == "" || old(content) == ""
      ensures request.None? ==> post.None? && unchanged(this)
      ensures request.Some? ==>
                && request.value == GeminiService.ScreenRequest(old(title), old(content))
                && post == Some(NewPost(id, Draft(old(title), old(content), contentType),
                                        GeminiService.ScreenContent(reply, parse)))
                && title == "" && content == "" && !isSubmitting && aiAnalysis.None?
    {
      var draft := Submit();
      if draft.None? {
        return None, None;
      }
      request := Some(GeminiService.ScreenRequest(draft.value.title, draft.value.content));
      var analysis := GeminiService.ScreenContent(reply, parse);
      OnScreened(analysis);
      var p := Publish(draft.value, analysis, id);
      post := Some(p);
    }
  }
}
