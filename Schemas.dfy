/** The request and response shapes of the backend: the closed vocabularies
    (roles, blog statuses, image aspect ratios and qualities), the defaults a
    request model fills in for fields the client omits, and the length
    constraint on a topic-ideas request. A string the vocabulary does not
    contain is rejected by validation, which the parse functions model as
    `None`. */
module Schemas {
  import opened Common

  // ------------------------------------------------ roles

  datatype Role = User | Admin

  function RoleName(r: Role): string {
    match r
    case User => "user"
    case Admin => "admin"
  }

  /** `Literal["user", "admin"]` validation. */
  function ParseRole(s: string): (r: Option<Role>)
    ensures r.Some? <==> s == "user" || s == "admin"
    ensures r.Some? ==> RoleName(r.value) == s
  {
    if s == "user" then Some(User) else if s == "admin" then Some(Admin) else None
  }

  /** SignupIn.role when the client sends none. */
  const DefaultRole: Role := User

  /** SignupIn.role after validation: "user" when the client sends none,
      otherwise the role named, and a failure for any other text. */
  function SignupRole(role: Option<string>): (r: Option<Role>)
    ensures role.None? ==> r == Some(DefaultRole) && RoleName(r.value) == "user"
    ensures role.Some? ==> (r.Some? <==> role.value in {"user", "admin"})
    ensures role.Some? && r.Some? ==> RoleName(r.value) == role.value
  {
    if role.None? then Some(DefaultRole) else ParseRole(role.value)
  }

  lemma RoleRoundTrip(r: Role)
    ensures ParseRole(RoleName(r)) == Some(r)
  {
  }

  /** The authenticated user as the request dependency hands it to a route. */
  datatype CurrentUser = CurrentUser(id: string, name: string, role: string)

  /** An HTTP error response: status code and detail text. */
  datatype HttpError = HttpError(status: nat, detail: string)

  // ------------------------------------------------ blog status

  /** The review lifecycle of a stored blog. */
  datatype BlogStatus = Saved | Pending | Published | Rejected

  function StatusName(s: BlogStatus): string {
    match s
    case Saved => "saved"
    case Pending => "pending"
    case Published => "published"
    case Rejected => "rejected"
  }

  const StatusNames: set<string> := {"saved", "pending", "published", "rejected"}

  /** `Literal["saved", "pending", "published", "rejected"]` validation. */
  function ParseStatus(s: string): (r: Option<BlogStatus>)
    ensures r.Some? <==> s in StatusNames
    ensures r.Some? ==> StatusName(r.value) == s
  {
    if s == "saved" then Some(Saved)
    else if s == "pending" then Some(Pending)
    else if s == "published" then Some(Published)
    else if s == "rejected" then Some(Rejected)
    else None
  }

  /** Every status has a distinct name that parses back to it. */
  lemma StatusRoundTrip(s: BlogStatus, t: BlogStatus)
    ensures ParseStatus(StatusName(s)) == Some(s)
    ensures StatusName(s) in StatusNames
    ensures StatusName(s) == StatusName(t) ==> s == t
  {
  }

  // ------------------------------------------------ image generation

  datatype AspectRatio = Square | Landscape4x3 | Portrait3x4 | Wide16x9 | Tall9x16

  function AspectName(a: AspectRatio): string {
    match a
    case Square => "1:1"
    case Landscape4x3 => "4:3"
    case Portrait3x4 => "3:4"
    case Wide16x9 => "16:9"
    case Tall9x16 => "9:16"
  }

  /** `Literal["1:1", "4:3", "3:4", "16:9", "9:16"]` validation. */
  function ParseAspect(s: string): (r: Option<AspectRatio>)
    ensures r.Some? <==> s in {"1:1", "4:3", "3:4", "16:9", "9:16"}
    ensures r.Some? ==> AspectName(r.value) == s
  {
    if s == "1:1" then Some(Square)
    else if s == "4:3" then Some(Landscape4x3)
    else if s == "3:4" then Some(Portrait3x4)
    else if s == "16:9" then Some(Wide16x9)
    else if s == "9:16" then Some(Tall9x16)
    else None
  }

  lemma AspectRoundTrip(a: AspectRatio)
    ensures ParseAspect(AspectName(a)) == Some(a)
  {
  }

  datatype Quality = Low | Medium | High

  function QualityName(q: Quality): string {
    match q
    case Low => "low"
    case Medium => "medium"
    case High => "high"
  }

  /** `Literal["low", "medium", "high"]` validation. */
  function ParseQuality(s: string): (r: Option<Quality>)
    ensures r.Some? <==> s in {"low", "medium", "high"}
    ensures r.Some? ==> QualityName(r.value) == s
  {
    if s == "low" then Some(Low) else if s == "medium" then Some(Medium) else if s == "high" then Some(High) else None
  }

  lemma QualityRoundTrip(q: Quality)
    ensures ParseQuality(QualityName(q)) == Some(q)
  {
  }

  /** An image-generation request as the router sees it after validation. */
  datatype ImageGenerateIn = ImageGenerateIn(
    tone: string, creativity: string, focusOrNiche: string, targetedKeyword: string,
    selectedIdea: string, title: string, prompt: string,
    aspectRatio: AspectRatio, quality: Quality, primaryColor: string)

  /** Builds the request from the fields the client sent; `None` for an
      optional field means the client omitted it. An unknown aspect ratio or
      quality fails validation. */
  function NewImageGenerateIn(tone: string, creativity: string, focusOrNiche: string,
                              targetedKeyword: Option<string>, selectedIdea: string, title: string,
                              prompt: string, aspectRatio: Option<string>, quality: Option<string>,
                              primaryColor: Option<string>): (r: Option<ImageGenerateIn>)
    ensures r.Some? <==>
              (aspectRatio.None? || ParseAspect(aspectRatio.value).Some?)
              && (quality.None? || ParseQuality(quality.value).Some?)
    ensures r.Some? && aspectRatio.None? ==> r.value.aspectRatio == Landscape4x3
    ensures r.Some? && aspectRatio.Some? ==> AspectName(r.value.aspectRatio) == aspectRatio.value
    ensures r.Some? && quality.None? ==> r.value.quality == High
    ensures r.Some? && quality.Some? ==> QualityName(r.value.quality) == quality.value
    ensures r.Some? ==> r.value.primaryColor == (if primaryColor.Some? then primaryColor.value else "#4443E4")
    ensures r.Some? ==> r.value.targetedKeyword == (if targetedKeyword.Some? then targetedKeyword.value else "")
  {
    var aspect := if aspectRatio.None? then Some(Landscape4x3) else ParseAspect(aspectRatio.value);
    var q := if quality.None? then Some(High) else ParseQuality(quality.value);
    if aspect.None? || q.None? then None
    else Some(ImageGenerateIn(tone, creativity, focusOrNiche,
                              if targetedKeyword.Some? then targetedKeyword.value else "",
                              selectedIdea, title, prompt, aspect.value, q.value,
                              if primaryColor.Some? then primaryColor.value else "#4443E4"))
  }

  // ------------------------------------------------ blog content

  /** How many options every generation endpoint produces. */
  const AiOptionsCount: nat := 5

  /** TopicIdeasIn.focus_or_niche is at least three characters long. */
  predicate ValidTopicIdeas(focusOrNiche: string) {
    |focusOrNiche| >= 3
  }

  datatype BlogSection = BlogSection(heading: string, bodyMd: string, bullets: seq<string>)

  datatype BlogRender = BlogRender(
    title: string, coverImageUrl: string, introMd: string,
    sections: seq<BlogSection>, conclusionMd: string, references: seq<string>)

  datatype FinalBlog = FinalBlog(render: BlogRender, markdown: string, html: string)

  /** The metadata of the blog wizard; the language is fixed to English. */
  datatype BlogMeta = BlogMeta(
    language: string, tone: string, creativity: string,
    focusOrNiche: string, targetedKeyword: string, targetedAudience: string, referenceLinks: string,
    selectedIdea: string, title: string, introMd: string, outline: seq<string>,
    imagePrompt: string, coverImageUrl: string)

  /** BlogMeta as validation builds it when the client sends only the two
      required fields. */
  function DefaultBlogMeta(tone: string, creativity: string): (m: BlogMeta)
    ensures ValidMeta(m)
    ensures m.tone == tone && m.creativity == creativity
    ensures m.focusOrNiche == m.targetedKeyword == m.targetedAudience == m.referenceLinks == ""
    ensures m.selectedIdea == m.title == m.introMd == m.imagePrompt == m.coverImageUrl == ""
    ensures m.outline == []
  {
    BlogMeta("English", tone, creativity, "", "", "", "", "", "", "", [], "", "")
  }

  /** A topic-ideas request as the router sees it after validation. */
  datatype TopicIdeasIn = TopicIdeasIn(
    focusOrNiche: string, targetedKeyword: string, targetedAudience: string, referenceLinks: string,
    tone: string, creativity: string)

  /** Builds the request from the fields the client sent (`None`: omitted);
      a focus shorter than three characters fails validation. */
  function NewTopicIdeasIn(focusOrNiche: string, targetedKeyword: Option<string>, targetedAudience: Option<string>,
                           referenceLinks: Option<string>, tone: string, creativity: string): (r: Option<TopicIdeasIn>)
    ensures r.Some? <==> ValidTopicIdeas(focusOrNiche)
    ensures r.Some? ==> r.value.focusOrNiche == focusOrNiche && |r.value.focusOrNiche| >= 3
    ensures r.Some? ==> r.value.targetedKeyword == (if targetedKeyword.Some? then targetedKeyword.value else "")
    ensures r.Some? ==> r.value.targetedAudience == (if targetedAudience.Some? then targetedAudience.value else "")
    ensures r.Some? ==> r.value.referenceLinks == (if referenceLinks.Some? then referenceLinks.value else "")
  {
    if !ValidTopicIdeas(focusOrNiche) then None
    else Some(TopicIdeasIn(focusOrNiche,
                           if targetedKeyword.Some? then targetedKeyword.value else "",
                           if targetedAudience.Some? then targetedAudience.value else "",
                           if referenceLinks.Some? then referenceLinks.value else "",
                           tone, creativity))
  }

  /** `Literal["English"]`: the only language a BlogMeta may carry. */
  predicate ValidMeta(m: BlogMeta) {
    m.language == "English"
  }

  /** The request of the final blog generation, after validation. */
  datatype GenerateBlogIn = GenerateBlogIn(
    tone: string, creativity: string, focusOrNiche: string, targetedKeyword: string,
    targetedAudience: string, referenceLinks: string, selectedIdea: string, title: string,
    introMd: string, outline: seq<string>, coverImageUrl: string)

  /** The admin-review record of a blog; timestamps are clock ticks. */
  datatype AdminReview = AdminReview(
    requestedAt: Option<nat>, reviewedAt: Option<nat>,
    reviewedBy: Option<string>, reviewedByName: Option<string>, feedback: string)

  /** AdminReview's defaults: nothing requested or reviewed, no feedback. */
  const NoReview: AdminReview := AdminReview(None, None, None, None, "")
}
