/**
 * The records the application passes between components (types.ts).
 * Enumerations keep their display strings; optional properties are `Option`s.
 */
module Types {
  import opened Wrappers

  datatype UserRole = Citizen | Journalist | Expert | Editor | OfficialBody {
    function Label(): string
    {
      match this
      case Citizen => "Verified Citizen"
      case Journalist => "Journalist"
      case Expert => "Subject Matter Expert"
      case Editor => "Editor/Fact-Checker"
      case OfficialBody => "Official Body"
    }
  }

  datatype ContentType = News | Investigation | OfficialAnnouncement | Research | Interview {
    function Label(): string
    {
      match this
      case News => "News Report"
      case Investigation => "Investigative Summary"
      case OfficialAnnouncement => "Official Announcement"
      case Research => "Research Article"
      case Interview => "Recorded Interview"
    }
  }

  datatype VerificationStatus = Pending | AiScreened | RightOfReply | Verified | Corrected {
    function Label(): string
    {
      match this
      case Pending => "Pending Verification"
      case AiScreened => "AI Screened"
      case RightOfReply => "Right of Reply Active"
      case Verified => "Verified"
      case Corrected => "Corrected"
    }
  }

  /**
   * One audit-trail entry. `details` is declared a string, but the post form
   * copies the screening's `analysis` into it, which is absent when the
   * screening reply was an empty object; hence the Option.
   */
  datatype VerificationLog = VerificationLog(
    id: string,
    step: string,
    timestamp: string,
    actor: string,
    details: Option<string>)

  datatype Comment = Comment(
    id: string,
    author: string,
    authorAvatar: Option<string>,
    authorRole: UserRole,
    content: string,
    timestamp: string)

  datatype Post = Post(
    id: string,
    author: string,
    authorAvatar: Option<string>,
    authorRole: UserRole,
    contentType: ContentType,
    title: string,
    content: string,
    timestamp: string,
    status: VerificationStatus,
    sources: seq<string>,
    evidenceUrls: seq<string>,
    replyConfirmed: Option<bool>,
    auditTrail: seq<VerificationLog>,
    interviewUrl: Option<string>,
    comments: Option<seq<Comment>>,
    likes: int,
    likedByMe: Option<bool>,
    views: int)

  /**
   * A screening result. The four properties are declared required, but the
   * service returns whatever JSON object the provider's text parses to, so
   * each one may be missing.
   */
  datatype VerificationResult = VerificationResult(
    credibilityScore: Option<real>,
    analysis: Option<string>,
    sourcesFound: Option<seq<string>>,
    flags: Option<seq<string>>)

  datatype SourceRef = SourceRef(uri: string, title: string)

  /** A grounding citation: a web result, a maps result, or (as declared) both or neither. */
  datatype GroundingChunk = GroundingChunk(web: Option<SourceRef>, maps: Option<SourceRef>)
}
