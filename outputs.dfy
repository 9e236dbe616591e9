/** The outputs preview: which reply's metadata it follows, the three artifact
    paths derived from it, and what each preview slot shows for the answer its
    fetch got (streamlit_app.py:136-201). */
module Outputs {
  import opened Text
  import opened BackendUrl
  import opened Conversation

  /** A turn the newest-first scan stops at: an assistant turn whose `meta` is a dict. */
  predicate CarriesMeta(t: Turn) {
    t.role == Assistant && t.meta.Some?
  }

  /** Specification of the scan: the meta of the newest turn that carries one. */
  function LatestMetaOf(history: seq<Turn>): (latest: Option<Meta>)
    decreases |history|
  {
    if history == [] then None
    else if CarriesMeta(history[|history| - 1]) then history[|history| - 1].meta
    else LatestMetaOf(history[..|history| - 1])
  }

  /** The loop over `reversed(history)` that breaks at the first assistant turn with a dict `meta`. */
  method LatestAssistantMeta(history: seq<Turn>) returns (latest: Option<Meta>)
    ensures latest == LatestMetaOf(history)
  {
    latest := None;
    var i := |history|;
    assert history[..i] == history;
    while i > 0
      invariant 0 <= i <= |history|
      invariant LatestMetaOf(history) == LatestMetaOf(history[..i])
    {
      i := i - 1;
      var msg := history[i];
      assert history[..i + 1][..i] == history[..i];
      if msg.role == Assistant && msg.meta.Some? {
        latest := msg.meta;
        break;
      }
    }
  }

  /** The scan finds a meta exactly when some turn carries one, and what it finds is the
      meta of a turn no newer turn of which carries one. */
  lemma {:induction false} LatestMetaIsNewest(history: seq<Turn>)
    ensures LatestMetaOf(history).Some? <==> exists i :: 0 <= i < |history| && CarriesMeta(history[i])
    ensures LatestMetaOf(history).Some? ==>
      exists i :: 0 <= i < |history| && CarriesMeta(history[i]) && history[i].meta == LatestMetaOf(history)
        && forall j :: i < j < |history| ==> !CarriesMeta(history[j])
    decreases |history|
  {
    if history != [] && !CarriesMeta(history[|history| - 1]) {
      var prefix := history[..|history| - 1];
      LatestMetaIsNewest(prefix);
      assert forall i :: 0 <= i < |prefix| ==> prefix[i] == history[i];
    }
  }

  /** A reply always becomes the one the preview follows, whatever the earlier history was,
      even when it lacks `platform` or `slug` and an older reply has them. */
  lemma LatestAfterReply(history: seq<Turn>, task: string, data: Meta)
    ensures LatestMetaOf(AfterSubmit(history, task, Replied(data))) == Some(data)
  {
  }

  /** A failed call adds only turns without meta, so the preview keeps following the same reply. */
  lemma LatestAfterFailure(history: seq<Turn>, task: string, description: string)
    ensures LatestMetaOf(AfterSubmit(history, task, Failed(description))) == LatestMetaOf(history)
  {
    var h := AfterSubmit(history, task, Failed(description));
    assert h[..|h| - 1] == history + [Turn(User, task, None)];
    assert h[..|h| - 1][..|history|] == history;
  }

  /** The three relative paths of the generated post and its two images. */
  datatype ArtifactPaths = ArtifactPaths(markdown: string, heroImage: string, socialImage: string)

  /** What the preview section does: ask the user to run the agent first, report that the
      reply names no platform or slug, or preview the located artifacts. */
  datatype Preview = RunAgentFirst | MissingPlatformOrSlug | Located(paths: ArtifactPaths)

  const MarkdownKey: string := "markdown"
  const HeroImageKey: string := "hero_image"
  const SocialImageKey: string := "social_image"

  function MarkdownTemplate(platform: string, slug: string): string {
    platform + "/" + slug + "/post.md"
  }

  function HeroImageTemplate(slug: string): string {
    "blogs/" + slug + "/hero.png"
  }

  function SocialImageTemplate(platform: string, slug: string): string {
    platform + "/" + slug + "/image.png"
  }

  /** `files.get(key)`, for `files = meta.get("files") or {}`. */
  function FileEntry(data: Meta, key: string): Option<string> {
    if data.files.Some? && key in data.files.value then Some(data.files.value[key]) else None
  }

  /** The explicit, non-empty `files` entry for `key` if there is one, else `template`. */
  function ResolvePath(data: Meta, key: string, template: string): (path: string)
    ensures Truthy(FileEntry(data, key)) ==> path == FileEntry(data, key).value
    ensures !Truthy(FileEntry(data, key)) ==> path == template
  {
    assert Truthy(FileEntry(data, key)) ==> FirstTruthyAt([FileEntry(data, key)], 0);
    FirstTruthy([FileEntry(data, key)], template)
  }

  /** Resolve the artifact paths from the latest meta; preview is suppressed entirely
      unless the meta is a non-empty dict with a non-empty platform and slug. */
  function Locate(latest: Option<Meta>): (p: Preview)
    ensures p.RunAgentFirst? <==> latest.None? || latest.value.IsEmpty()
    ensures p.Located? <==>
      latest.Some? && Truthy(latest.value.platform) && Truthy(latest.value.slug)
    ensures p.Located? ==>
      var data, platform, slug := latest.value, latest.value.platform.value, latest.value.slug.value;
      && (Truthy(FileEntry(data, MarkdownKey)) ==> p.paths.markdown == FileEntry(data, MarkdownKey).value)
      && (!Truthy(FileEntry(data, MarkdownKey)) ==> p.paths.markdown == MarkdownTemplate(platform, slug))
      && (Truthy(FileEntry(data, HeroImageKey)) ==> p.paths.heroImage == FileEntry(data, HeroImageKey).value)
      && (!Truthy(FileEntry(data, HeroImageKey)) ==> p.paths.heroImage == HeroImageTemplate(slug))
      && (Truthy(FileEntry(data, SocialImageKey)) ==> p.paths.socialImage == FileEntry(data, SocialImageKey).value)
      && (!Truthy(FileEntry(data, SocialImageKey)) ==> p.paths.socialImage == SocialImageTemplate(platform, slug))
  {
    if latest.None? || latest.value.IsEmpty() then RunAgentFirst
    else
      var data := latest.value;
      if !Truthy(data.platform) || !Truthy(data.slug) then MissingPlatformOrSlug
      else
        var platform, slug := data.platform.value, data.slug.value;
        Located(ArtifactPaths(
          ResolvePath(data, MarkdownKey, MarkdownTemplate(platform, slug)),
          ResolvePath(data, HeroImageKey, HeroImageTemplate(slug)),
          ResolvePath(data, SocialImageKey, SocialImageTemplate(platform, slug))))
  }

  /** The preview of the whole session: located from the newest reply that carries meta.
      A history in which no turn carries meta shows the run-agent-first notice. */
  function PreviewOf(history: seq<Turn>): (p: Preview)
    ensures (forall i :: 0 <= i < |history| ==> !CarriesMeta(history[i])) ==> p == RunAgentFirst
    ensures p.Located? ==> exists i :: 0 <= i < |history| && CarriesMeta(history[i])
  {
    LatestMetaIsNewest(history);
    Locate(LatestMetaOf(history))
  }

  /** After a reply the preview is located from that reply alone; after a failed call it
      is what it was before; after "New conversation" there is nothing to preview. */
  lemma PreviewAfterSubmit(history: seq<Turn>, task: string, outcome: Outcome)
    ensures outcome.Replied? ==> PreviewOf(AfterSubmit(history, task, outcome)) == Locate(Some(outcome.data))
    ensures outcome.Failed? ==> PreviewOf(AfterSubmit(history, task, outcome)) == PreviewOf(history)
    ensures PreviewOf([]) == RunAgentFirst
  {
    match outcome
    case Replied(data) => LatestAfterReply(history, task, data);
    case Failed(description) => LatestAfterFailure(history, task, description);
  }

  /** A reply whose five keys are all null is a non-empty dict: it gets the missing
      platform/slug notice, not the run-agent-first one. */
  lemma AllNullReplyIsNotEmpty()
    ensures Locate(Some(Meta(None, None, None, None, None,
      {"platform", "slug", "final_text", "response", "files"}))) == MissingPlatformOrSlug
  {
  }

  /** The hero image's fallback does not depend on the platform. */
  lemma HeroIgnoresPlatform(data: Meta, p1: string, p2: string)
    requires Truthy(data.slug) && p1 != "" && p2 != ""
    ensures Locate(Some(data.(platform := Some(p1)))).paths.heroImage
         == Locate(Some(data.(platform := Some(p2)))).paths.heroImage
  {
  }

  /** An explicit markdown path overrides only the markdown path; the images keep their fallbacks. */
  lemma MarkdownOverrideOnly()
    ensures Locate(Some(Meta(Some("blogs"), Some("s"), None, None, Some(map["markdown" := "x/y.md"]), {})))
         == Located(ArtifactPaths("x/y.md", "blogs/s/hero.png", "blogs/s/image.png"))
  {
  }

  /** A reply without a slug suppresses the preview, whatever `files` says. */
  lemma MissingSlugSuppresses(platform: string, files: map<string, string>)
    ensures Locate(Some(Meta(Some(platform), None, None, None, Some(files), {}))) == MissingPlatformOrSlug
  {
  }

  /** Without `files` entries every path follows its template. */
  lemma ConventionalPaths(data: Meta)
    requires Truthy(data.platform) && Truthy(data.slug)
    requires !Truthy(FileEntry(data, MarkdownKey)) && !Truthy(FileEntry(data, HeroImageKey))
    requires !Truthy(FileEntry(data, SocialImageKey))
    ensures Locate(Some(data)) == Located(ArtifactPaths(
      MarkdownTemplate(data.platform.value, data.slug.value),
      HeroImageTemplate(data.slug.value),
      SocialImageTemplate(data.platform.value, data.slug.value)))
  {
  }

  /** The templates for the platform `linkedin` and the slug `ai-agents` ... */
  lemma LinkedInTemplates()
    ensures ArtifactPaths(
        MarkdownTemplate("linkedin", "ai-agents"), HeroImageTemplate("ai-agents"),
        SocialImageTemplate("linkedin", "ai-agents"))
      == ArtifactPaths("linkedin/ai-agents/post.md", "blogs/ai-agents/hero.png", "linkedin/ai-agents/image.png")
  {
  }

  /** ... are the paths located for a reply with an empty `files` ... */
  lemma LinkedInPaths()
    ensures var data := Meta(Some("linkedin"), Some("ai-agents"), Some("Done"), None, Some(map[]), {});
      Locate(Some(data)) == Located(ArtifactPaths(
        "linkedin/ai-agents/post.md", "blogs/ai-agents/hero.png", "linkedin/ai-agents/image.png"))
  {
    var data := Meta(Some("linkedin"), Some("ai-agents"), Some("Done"), None, Some(map[]), {});
    assert FileEntry(data, MarkdownKey) == None;
    assert FileEntry(data, HeroImageKey) == None;
    assert FileEntry(data, SocialImageKey) == None;
    ConventionalPaths(data);
    LinkedInTemplates();
  }

  /** ... and they stay the previewed paths whatever the conversation held before. */
  lemma LinkedInScenario(history: seq<Turn>, task: string)
    ensures var data := Meta(Some("linkedin"), Some("ai-agents"), Some("Done"), None, Some(map[]), {});
      PreviewOf(AfterSubmit(history, task, Replied(data))) == Located(ArtifactPaths(
        "linkedin/ai-agents/post.md", "blogs/ai-agents/hero.png", "linkedin/ai-agents/image.png"))
  {
    var data := Meta(Some("linkedin"), Some("ai-agents"), Some("Done"), None, Some(map[]), {});
    LatestAfterReply(history, task, data);
    LinkedInPaths();
  }

  /** What a GET on a `/files/...` URL came to: a response, or the exception it raised. */
  datatype Fetch = Response(status: int, text: string) | Unreachable(description: string)

  datatype MarkdownSlot = MarkdownShown(text: string) | MarkdownNotFound | MarkdownFetchFailed(description: string)
  datatype ImageSlot = ImageShown(link: string, caption: string) | ImageNotFound | ImageFetchFailed(description: string)

  /** The markdown is rendered only on status 200 with a body that is not all whitespace. */
  function MarkdownSlotOf(fetch: Fetch): (slot: MarkdownSlot)
    ensures slot.MarkdownShown? <==>
      fetch.Response? && fetch.status == 200 && exists i :: 0 <= i < |fetch.text| && fetch.text[i] !in Whitespace
    ensures slot.MarkdownShown? ==> slot.text == fetch.text
    ensures slot.MarkdownFetchFailed? <==> fetch.Unreachable?
    ensures slot.MarkdownFetchFailed? ==> slot.description == fetch.description
  {
    match fetch
    case Response(status, text) =>
      if status == 200 && Strip(text) != "" then MarkdownShown(text) else MarkdownNotFound
    case Unreachable(description) => MarkdownFetchFailed(description)
  }

  /** An image is shown, captioned with its relative path, exactly on status 200. */
  function ImageSlotOf(fetch: Fetch, link: string, relPath: string): (slot: ImageSlot)
    ensures slot.ImageShown? <==> fetch.Response? && fetch.status == 200
    ensures slot.ImageShown? ==> slot.link == link && slot.caption == relPath
    ensures slot.ImageFetchFailed? <==> fetch.Unreachable?
    ensures slot.ImageFetchFailed? ==> slot.description == fetch.description
  {
    match fetch
    case Response(status, _) => if status == 200 then ImageShown(link, relPath) else ImageNotFound
    case Unreachable(description) => ImageFetchFailed(description)
  }

  /** The two preview columns. */
  datatype OutputsPane = OutputsPane(
    markdownPath: string, markdownLink: string, markdown: MarkdownSlot,
    heroLink: string, hero: ImageSlot,
    socialLink: string, social: ImageSlot)

  /** Fetch each located artifact from the file mount and decide each slot on its own
      fetch alone: one slot's failure never affects the others. */
  function RenderOutputs(cfg: Config, paths: ArtifactPaths, get: string -> Fetch): (pane: OutputsPane)
    ensures pane.markdownPath == paths.markdown
    ensures pane.markdownLink == cfg.apiUrl + cfg.serviceRootPath + "/files/" + paths.markdown
    ensures pane.heroLink == cfg.apiUrl + cfg.serviceRootPath + "/files/" + paths.heroImage
    ensures pane.socialLink == cfg.apiUrl + cfg.serviceRootPath + "/files/" + paths.socialImage
    ensures pane.markdown == MarkdownSlotOf(get(pane.markdownLink))
    ensures pane.hero == ImageSlotOf(get(pane.heroLink), pane.heroLink, paths.heroImage)
    ensures pane.social == ImageSlotOf(get(pane.socialLink), pane.socialLink, paths.socialImage)
  {
    var mdLink := FileUrl(cfg, paths.markdown);
    var heroLink := FileUrl(cfg, paths.heroImage);
    var socialLink := FileUrl(cfg, paths.socialImage);
    OutputsPane(
      paths.markdown, mdLink, MarkdownSlotOf(get(mdLink)),
      heroLink, ImageSlotOf(get(heroLink), heroLink, paths.heroImage),
      socialLink, ImageSlotOf(get(socialLink), socialLink, paths.socialImage))
  }

  /** A failing hero fetch leaves the markdown and social slots as they are, as long as the
      hero image does not share their URL. */
  lemma HeroFailureIsLocal(cfg: Config, paths: ArtifactPaths, get: string -> Fetch, description: string)
    requires paths.heroImage != paths.markdown && paths.heroImage != paths.socialImage
    ensures var heroLink := FileUrl(cfg, paths.heroImage);
      var broken := (url: string) => if url == heroLink then Unreachable(description) else get(url);
      var before, after := RenderOutputs(cfg, paths, get), RenderOutputs(cfg, paths, broken);
      && after.hero == ImageFetchFailed(description)
      && after.markdown == before.markdown
      && after.social == before.social
  {
    if FileUrl(cfg, paths.heroImage) == FileUrl(cfg, paths.markdown) {
      FileUrlInjective(cfg, paths.heroImage, paths.markdown);
    }
    if FileUrl(cfg, paths.heroImage) == FileUrl(cfg, paths.socialImage) {
      FileUrlInjective(cfg, paths.heroImage, paths.socialImage);
    }
  }
}
