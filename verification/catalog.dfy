/** The fixed template catalog and the preview of a template card.

    The catalog's section ids come from `uuidv4()` and its timestamps from
    `new Date()` when the module is loaded; both are parameters here. */
module Catalog {
  import opened Types
  import NewsletterStore

  function Sec(id: string, kind: SectionType, content: string, order: int): Section {
    Section(id, kind, content, order, None)
  }

  // The longer contents are named constants, so that proofs about the
  // catalog never unfold the literals.
  const WelcomeIntro: string := "We're thrilled to have you join our community of innovators and creators. Get ready for exclusive content, insider tips, and exciting updates delivered straight to your inbox."
  const WelcomeList: string := "Here's what you can expect:\n\n\U{2022} Weekly industry insights\n\U{2022} Exclusive member-only content\n\U{2022} Early access to new features\n\U{2022} Community highlights and success stories"
  const UpdateIntro: string := "This month has been incredible for product development. We've shipped some amazing features that our community has been requesting."
  const UpdateImage: string := "https://picsum.photos/600/300?random=1"
  const UpdateList: string := "\U{1F3AF} Key Updates:\n\n\U{2022} Enhanced user dashboard with real-time analytics\n\U{2022} New collaboration tools for teams\n\U{2022} Mobile app performance improvements\n\U{2022} Advanced security features\n\nTry them out and let us know what you think!"
  const DigestIntro: string := "Here are the top stories and insights from this week that caught our attention and might interest you too."
  const DigestTopics: string := "\U{1F4C8} Trending Topics:\n\n1. AI revolutionizing content creation\n2. Remote work productivity hacks\n3. Sustainable business practices\n4. Customer experience innovations\n5. Future of digital marketing"
  const DigestReading: string := "\U{1F4DA} Recommended Reading:\n\nWe've curated some excellent articles and resources that align with current industry trends. Check them out in our resource center."

  /** What every catalog entry satisfies: a draft with no schedule, orders
      0..N-1, only header/text/image sections, and no empty image. */
  predicate WellFormedTemplate(t: Newsletter) {
    && Contiguous(t.sections)
    && t.status == Draft
    && t.scheduledDate == None
    && (forall j :: 0 <= j < |t.sections| ==> t.sections[j].kind in {Header, Text, Image})
    && (forall j :: 0 <= j < |t.sections| && t.sections[j].kind == Image ==> t.sections[j].content != "")
  }

  function Welcome(ids: seq<string>, loadedAt: nat): (t: Newsletter)
    requires |ids| == 3
    ensures t.id == "welcome-template" && t.layout == Professional && |t.sections| == 3
    ensures WellFormedTemplate(t)
    ensures forall j :: 0 <= j < |t.sections| ==> t.sections[j].kind in {Header, Text}
  {
    Newsletter(
      "welcome-template",
      "Welcome to Our Community! \U{1F389}",
      [ Sec(ids[0], Header, "Welcome to Our Amazing Community!", 0),
        Sec(ids[1], Text, WelcomeIntro, 1),
        Sec(ids[2], Text, WelcomeList, 2)],
      Professional, Draft, None, loadedAt, loadedAt)
  }

  function ProductUpdate(ids: seq<string>, loadedAt: nat): (t: Newsletter)
    requires |ids| == 4
    ensures t.id == "product-update-template" && t.layout == Modern && |t.sections| == 4
    ensures WellFormedTemplate(t)
  {
    assert UpdateImage[0] == 'h';
    Newsletter(
      "product-update-template",
      "Exciting Product Updates This Month \U{1F680}",
      [ Sec(ids[0], Header, "Product Updates & New Features", 0),
        Sec(ids[1], Text, UpdateIntro, 1),
        Sec(ids[2], Image, UpdateImage, 2),
        Sec(ids[3], Text, UpdateList, 3)],
      Modern, Draft, None, loadedAt, loadedAt)
  }

  function WeeklyDigest(ids: seq<string>, loadedAt: nat): (t: Newsletter)
    requires |ids| == 4
    ensures t.id == "weekly-digest-template" && t.layout == Simple && |t.sections| == 4
    ensures WellFormedTemplate(t)
    ensures forall j :: 0 <= j < |t.sections| ==> t.sections[j].kind in {Header, Text}
  {
    Newsletter(
      "weekly-digest-template",
      "Your Weekly Digest: Top Stories & Insights",
      [ Sec(ids[0], Header, "This Week in Review", 0),
        Sec(ids[1], Text, DigestIntro, 1),
        Sec(ids[2], Text, DigestTopics, 2),
        Sec(ids[3], Text, DigestReading, 3)],
      Simple, Draft, None, loadedAt, loadedAt)
  }

  /** `TEMPLATES`: welcome (professional), product update (modern) and
      weekly digest (simple), drawing their eleven section ids in order. */
  function Templates(ids: seq<string>, loadedAt: nat): (ts: seq<Newsletter>)
    requires |ids| == 11
    ensures |ts| == 3
    ensures ts[0].id == "welcome-template" && ts[0].layout == Professional
    ensures ts[1].id == "product-update-template" && ts[1].layout == Modern
    ensures ts[2].id == "weekly-digest-template" && ts[2].layout == Simple
    ensures NewsletterStore.UniqueIds(ts)
    ensures forall i :: 0 <= i < |ts| ==> WellFormedTemplate(ts[i])
  {
    var w := Welcome(ids[..3], loadedAt);
    var p := ProductUpdate(ids[3..7], loadedAt);
    var d := WeeklyDigest(ids[7..], loadedAt);
    assert WellFormedTemplate(w) && WellFormedTemplate(p) && WellFormedTemplate(d);
    var ts := [w, p, d];
    assert ts[0] == w && ts[1] == p && ts[2] == d;
    assert ts[0].id != ts[1].id && ts[0].id != ts[2].id && ts[1].id != ts[2].id;
    ts
  }

  /** Starting from any catalog entry keeps the store invariant. */
  lemma UseTemplateKeepsValid(st: NewsletterStore.State, ids: seq<string>, loadedAt: nat, i: nat, freshId: string, now: nat)
    requires |ids| == 11 && i < 3 && NewsletterStore.Valid(st)
    ensures NewsletterStore.Valid(NewsletterStore.Step(st, NewsletterStore.UseTemplate(Templates(ids, loadedAt)[i], freshId), now))
  {
    NewsletterStore.StepKeepsValid(st, NewsletterStore.UseTemplate(Templates(ids, loadedAt)[i], freshId), now);
  }

  // ---------------------------------------------------------------------
  // Template card preview

  const PreviewLength: nat := 60
  const PreviewSections: nat := 2

  /** `content.substring(0, 60)` followed by "..." when the content is longer. */
  function Truncate(content: string): (r: string)
    ensures |content| <= PreviewLength ==> r == content
    ensures |content| > PreviewLength ==>
      |r| == PreviewLength + 3 && r[..PreviewLength] == content[..PreviewLength] && r[PreviewLength..] == "..."
  {
    if |content| > PreviewLength then content[..PreviewLength] + "..." else content
  }

  /** Truncating a preview again changes nothing. */
  lemma TruncateIdempotent(content: string)
    ensures Truncate(Truncate(content)) == Truncate(content)
  {
  }

  datatype PreviewLine = PreviewLine(kind: SectionType, text: string)

  /** The first sections as type and truncated content, and the count behind
      "+k more sections" when there are more. */
  datatype CardPreview = CardPreview(lines: seq<PreviewLine>, more: Option<nat>)

  function Preview(t: Newsletter): (p: CardPreview)
    ensures |p.lines| == if |t.sections| < PreviewSections then |t.sections| else PreviewSections
    ensures forall i :: 0 <= i < |p.lines| ==>
      p.lines[i].kind == t.sections[i].kind && p.lines[i].text == Truncate(t.sections[i].content)
    ensures p.more.Some? <==> |t.sections| > PreviewSections
    ensures p.more.Some? ==> p.more.value + PreviewSections == |t.sections|
  {
    var shown := if |t.sections| < PreviewSections then t.sections else t.sections[..PreviewSections];
    var lines := seq(|shown|, i requires 0 <= i < |shown| => PreviewLine(shown[i].kind, Truncate(shown[i].content)));
    CardPreview(lines, if |t.sections| > PreviewSections then Some(|t.sections| - PreviewSections) else None)
  }

  /** The three catalog cards announce one, two and two further sections. */
  lemma CatalogPreviews(ids: seq<string>, loadedAt: nat)
    requires |ids| == 11
    ensures var ts := Templates(ids, loadedAt);
      Preview(ts[0]).more == Some(1) && Preview(ts[1]).more == Some(2) && Preview(ts[2]).more == Some(2)
  {
  }
}
