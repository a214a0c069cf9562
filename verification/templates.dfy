/** The six email templates, each mapping `(subject, sections)` to an
    abstract email: a preview line, fixed blocks above and below, and one
    part per input section (the `<Section key={section.id}>` of the source)
    holding the blocks that section renders to.

    Markup and styling are not modelled; what is kept is which blocks appear,
    in which order, and with which texts, sources and links. */
module EmailTemplates {
  import opened Types

  /** One column of a card grid or a team row: picture, alt text, title, detail. */
  datatype Column = Column(src: string, alt: string, title: string, detail: string)

  datatype TabLabel = TabLabel(text: string, active: bool)

  datatype Block =
    | Heading(text: string)
    | Paragraph(text: string)
    | Picture(src: string, alt: string)
    | CallToAction(caption: string, href: string)
    | VideoPlaceholder(glyph: string, caption: string)
    | Grid(columns: seq<Column>)
    | TeamRow(columns: seq<Column>)
    | TabStrip(labels: seq<TabLabel>, body: string)
    | Brand(text: string)
    | Rule
    | Divider
    | FooterNote(text: string)

  datatype Part = Part(key: string, blocks: seq<Block>)

  datatype Email = Email(preview: string, header: seq<Block>, parts: seq<Part>, footer: seq<Block>)

  const NewsletterImageAlt: string := "Newsletter image"
  const ContentImageAlt: string := "Content image"
  const PlayGlyph: string := "\U{25B6}"
  const DefaultHref: string := "#"
  const LetterheadText: string := "Your Newsletter"
  const ThanksText: string := "Thank you for reading our newsletter!"
  const BannerText: string := "Newsletter"
  const ModernFooterText: string := "Crafted with \U{2764}\U{FE0F} for our amazing community"

  // ---------------------------------------------------------------------
  // Per-type block rules

  /** Header, text and image sections, which every template renders alike
      (up to the image's alt text); other types yield nothing here. */
  function BasicBlocks(s: Section, alt: string): (r: seq<Block>)
    ensures s.kind == Header ==> r == [Heading(s.content)]
    ensures s.kind == Text ==> r == [Paragraph(s.content)]
    ensures s.kind == Image ==> (r != [] <==> s.content != "")
    ensures s.kind == Image && r != [] ==> r == [Picture(s.content, alt)]
    ensures s.kind !in {Header, Text, Image} ==> r == []
    ensures Divider !in r
  {
    match s.kind
    case Header => [Heading(s.content)]
    case Text => [Paragraph(s.content)]
    case Image => if s.content != "" then [Picture(s.content, alt)] else []
    case _ => []
  }

  /** A button needs a non-empty `buttonText`; its link falls back to "#". */
  function ButtonBlocks(s: Section): (r: seq<Block>)
    ensures r != [] <==> Truthy(ButtonText(s))
    ensures r != [] ==> |r| == 1 && r[0].CallToAction? && r[0].caption == ButtonText(s).value
    ensures r != [] && Truthy(ButtonUrl(s)) ==> r[0].href == ButtonUrl(s).value
    ensures r != [] && !Truthy(ButtonUrl(s)) ==> r[0].href == DefaultHref
  {
    if Truthy(ButtonText(s)) then [CallToAction(ButtonText(s).value, OrElse(ButtonUrl(s), DefaultHref))] else []
  }

  /** One column per card, in order: the image, the title as alt text and
      as heading, and the description. */
  function CardColumns(cards: seq<Card>): (cols: seq<Column>)
    ensures |cols| == |cards|
    ensures forall i :: 0 <= i < |cards| ==>
      cols[i].src == cards[i].imageUrl && cols[i].alt == cards[i].title
      && cols[i].title == cards[i].title && cols[i].detail == cards[i].description
  {
    seq(|cards|, i requires 0 <= i < |cards| => Column(cards[i].imageUrl, cards[i].title, cards[i].title, cards[i].description))
  }

  /** One column per member, in order: the avatar, the name as alt text and
      as heading, and the role. */
  function MemberColumns(members: seq<TeamMember>): (cols: seq<Column>)
    ensures |cols| == |members|
    ensures forall i :: 0 <= i < |members| ==>
      cols[i].src == members[i].imageUrl && cols[i].alt == members[i].name
      && cols[i].title == members[i].name && cols[i].detail == members[i].role
  {
    seq(|members|, i requires 0 <= i < |members| => Column(members[i].imageUrl, members[i].name, members[i].name, members[i].role))
  }

  /** A grid is rendered whenever `cards` is present, even when it is empty
      (an empty array is truthy in JavaScript). */
  function GridBlocks(s: Section): (r: seq<Block>)
    ensures r != [] <==> Cards(s).Some?
    ensures r != [] ==> r == [Grid(CardColumns(Cards(s).value))]
  {
    if Cards(s).Some? then [Grid(CardColumns(Cards(s).value))] else []
  }

  function TeamBlocks(s: Section): (r: seq<Block>)
    ensures r != [] <==> Members(s).Some?
    ensures r != [] ==> r == [TeamRow(MemberColumns(Members(s).value))]
  {
    if Members(s).Some? then [TeamRow(MemberColumns(Members(s).value))] else []
  }

  /** A video is a play glyph over the caption, and needs a non-empty caption. */
  function VideoBlocks(s: Section): (r: seq<Block>)
    ensures r != [] <==> s.content != ""
    ensures r != [] ==> r == [VideoPlaceholder(PlayGlyph, s.content)]
  {
    if s.content != "" then [VideoPlaceholder(PlayGlyph, s.content)] else []
  }

  /** The tab labels, with the first one, and only it, styled active. */
  function TabLabels(tabs: seq<Tab>): (labels: seq<TabLabel>)
    ensures |labels| == |tabs|
    ensures forall i :: 0 <= i < |tabs| ==> labels[i].text == tabs[i].title
    ensures forall i :: 0 <= i < |tabs| ==> (labels[i].active <==> i == 0)
  {
    seq(|tabs|, i requires 0 <= i < |tabs| => TabLabel(tabs[i].title, i == 0))
  }

  /** `tabs[0]?.content || ''`: the first tab's content, or "" without tabs. */
  function TabBody(tabs: seq<Tab>): (body: string)
    ensures |tabs| > 0 ==> body == tabs[0].content
    ensures |tabs| == 0 ==> body == ""
  {
    OrElse(if |tabs| > 0 then Some(tabs[0].content) else None, "")
  }

  /** A tab strip is rendered whenever `tabs` is present, even when empty. */
  function TabBlocks(s: Section): (r: seq<Block>)
    ensures r != [] <==> TabList(s).Some?
    ensures r != [] ==> r == [TabStrip(TabLabels(TabList(s).value), TabBody(TabList(s).value))]
  {
    if TabList(s).Some? then [TabStrip(TabLabels(TabList(s).value), TabBody(TabList(s).value))] else []
  }

  // ---------------------------------------------------------------------
  // Per-template section rules

  /** The section rule of the simple, professional and modern templates. */
  function SimpleSection(s: Section): (r: seq<Block>)
    ensures |r| <= 1
    ensures s.kind in {Header, Text, Image} ==> r == BasicBlocks(s, NewsletterImageAlt)
    ensures s.kind in {Button, Video, CardGrid, Team, Tabs} ==> r == []
  {
    BasicBlocks(s, NewsletterImageAlt)
  }

  /** The card-grid template's guard chain: button and card-grid sections
      get their own blocks; header, text and image follow the simple rule. */
  function CardGridSection(s: Section): (r: seq<Block>)
    ensures |r| <= 1
    ensures s.kind == Button ==> r == ButtonBlocks(s)
    ensures s.kind == CardGrid ==> r == GridBlocks(s)
    ensures s.kind in {Header, Text, Image} ==> r == SimpleSection(s)
    ensures s.kind in {Video, Team, Tabs} ==> r == []
  {
    match s.kind
    case Button => ButtonBlocks(s)
    case CardGrid => GridBlocks(s)
    case _ => BasicBlocks(s, NewsletterImageAlt)
  }

  /** The media-team template's guard chain: video, team and button sections
      get their own blocks; header and text follow the simple rule, and an
      image differs from it only in its alt text. */
  function MediaTeamSection(s: Section): (r: seq<Block>)
    ensures |r| <= 1
    ensures s.kind == Video ==> r == VideoBlocks(s)
    ensures s.kind == Team ==> r == TeamBlocks(s)
    ensures s.kind == Button ==> r == ButtonBlocks(s)
    ensures s.kind in {Header, Text} ==> r == SimpleSection(s)
    ensures s.kind == Image ==> r == BasicBlocks(s, ContentImageAlt)
    ensures s.kind in {CardGrid, Tabs} ==> r == []
  {
    match s.kind
    case Video => VideoBlocks(s)
    case Team => TeamBlocks(s)
    case Button => ButtonBlocks(s)
    case _ => BasicBlocks(s, ContentImageAlt)
  }

  /** The tabbed template's guard chain: tabs and card-grid sections get their
      own blocks; header, text and image follow the simple rule. */
  function TabbedSection(s: Section): (r: seq<Block>)
    ensures |r| <= 1
    ensures s.kind == Tabs ==> r == TabBlocks(s)
    ensures s.kind == CardGrid ==> r == GridBlocks(s)
    ensures s.kind in {Header, Text, Image} ==> r == SimpleSection(s)
    ensures s.kind in {Button, Video, Team} ==> r == []
  {
    match s.kind
    case Tabs => TabBlocks(s)
    case CardGrid => GridBlocks(s)
    case _ => BasicBlocks(s, NewsletterImageAlt)
  }

  /** Each section renders to at most one block, whatever the template. */
  lemma AtMostOneBlock(s: Section)
    ensures |SimpleSection(s)| <= 1 && |CardGridSection(s)| <= 1
    ensures |MediaTeamSection(s)| <= 1 && |TabbedSection(s)| <= 1
  {
  }

  /** Header and text render identically in every template; an image
      renders identically except that media-team uses its own alt text. */
  lemma SharedRules(s: Section)
    requires s.kind in {Header, Text, Image}
    ensures CardGridSection(s) == SimpleSection(s)
    ensures TabbedSection(s) == SimpleSection(s)
    ensures s.kind != Image ==> MediaTeamSection(s) == SimpleSection(s)
    ensures s.kind == Image ==> MediaTeamSection(s) == BasicBlocks(s, ContentImageAlt)
    ensures s.kind == Image ==> (MediaTeamSection(s) != [] <==> SimpleSection(s) != [])
  {
  }

  /** The types a template does not support render nothing, and never fail. */
  lemma UnsupportedTypesRenderNothing(s: Section)
    ensures s.kind in {Button, Video, CardGrid, Team, Tabs} ==> SimpleSection(s) == []
    ensures s.kind in {Video, Team, Tabs} ==> CardGridSection(s) == []
    ensures s.kind in {CardGrid, Tabs} ==> MediaTeamSection(s) == []
    ensures s.kind in {Button, Video, Team} ==> TabbedSection(s) == []
  {
  }

  // ---------------------------------------------------------------------
  // Templates

  /** `sections.map(section => <Section key={section.id}>…</Section>)` */
  function PartsOf(sections: seq<Section>, render: Section -> seq<Block>): (ps: seq<Part>)
    ensures |ps| == |sections|
    ensures forall i :: 0 <= i < |ps| ==> ps[i].key == sections[i].id && ps[i].blocks == render(sections[i])
  {
    seq(|sections|, i requires 0 <= i < |sections| => Part(sections[i].id, render(sections[i])))
  }

  function SimpleTemplate(subject: string, sections: seq<Section>): (e: Email)
    ensures e.preview == subject && e.header == [] && e.footer == []
    ensures |e.parts| == |sections|
    ensures forall i :: 0 <= i < |sections| ==>
      e.parts[i].key == sections[i].id && e.parts[i].blocks == SimpleSection(sections[i])
  {
    Email(subject, [], PartsOf(sections, SimpleSection), [])
  }

  /** The professional parts: the simple rule, plus a divider in every part but the last. */
  function ProfessionalParts(sections: seq<Section>): (ps: seq<Part>)
    ensures |ps| == |sections|
    ensures forall i :: 0 <= i < |sections| ==> ps[i].key == sections[i].id
    ensures forall i :: 0 <= i < |sections| ==>
      SimpleSection(sections[i]) <= ps[i].blocks
      && |ps[i].blocks| == |SimpleSection(sections[i])| + (if i < |sections| - 1 then 1 else 0)
    ensures forall i :: 0 <= i < |sections| ==> (Divider in ps[i].blocks <==> i < |sections| - 1)
  {
    seq(|sections|, i requires 0 <= i < |sections| =>
      Part(sections[i].id, SimpleSection(sections[i]) + (if i < |sections| - 1 then [Divider] else [])))
  }

  function ProfessionalTemplate(subject: string, sections: seq<Section>): (e: Email)
    ensures e.preview == subject
    ensures e.header == [Brand(LetterheadText), Rule]
    ensures e.footer == [Rule, FooterNote(ThanksText)]
    ensures e.parts == ProfessionalParts(sections)
  {
    Email(subject, [Brand(LetterheadText), Rule], ProfessionalParts(sections), [Rule, FooterNote(ThanksText)])
  }

  function ModernTemplate(subject: string, sections: seq<Section>): (e: Email)
    ensures e.preview == subject
    ensures e.header == [Brand(BannerText)] && e.footer == [FooterNote(ModernFooterText)]
    ensures |e.parts| == |sections|
    ensures forall i :: 0 <= i < |sections| ==>
      e.parts[i].key == sections[i].id && e.parts[i].blocks == SimpleSection(sections[i])
  {
    Email(subject, [Brand(BannerText)], PartsOf(sections, SimpleSection), [FooterNote(ModernFooterText)])
  }

  function CardGridTemplate(subject: string, sections: seq<Section>): (e: Email)
    ensures e.preview == subject && e.header == [] && e.footer == []
    ensures |e.parts| == |sections|
    ensures forall i :: 0 <= i < |sections| ==>
      e.parts[i].key == sections[i].id && e.parts[i].blocks == CardGridSection(sections[i])
  {
    Email(subject, [], PartsOf(sections, CardGridSection), [])
  }

  function MediaTeamTemplate(subject: string, sections: seq<Section>): (e: Email)
    ensures e.preview == subject && e.header == [] && e.footer == []
    ensures |e.parts| == |sections|
    ensures forall i :: 0 <= i < |sections| ==>
      e.parts[i].key == sections[i].id && e.parts[i].blocks == MediaTeamSection(sections[i])
  {
    Email(subject, [], PartsOf(sections, MediaTeamSection), [])
  }

  function TabbedContentTemplate(subject: string, sections: seq<Section>): (e: Email)
    ensures e.preview == subject && e.header == [] && e.footer == []
    ensures |e.parts| == |sections|
    ensures forall i :: 0 <= i < |sections| ==>
      e.parts[i].key == sections[i].id && e.parts[i].blocks == TabbedSection(sections[i])
  {
    Email(subject, [], PartsOf(sections, TabbedSection), [])
  }

  // ---------------------------------------------------------------------
  // Properties across templates

  /** The number of divider blocks in a list of parts. */
  function Dividers(ps: seq<Part>): nat {
    if ps == [] then 0 else multiset(ps[0].blocks)[Divider] + Dividers(ps[1..])
  }

  /** A professional email with n sections has max(n - 1, 0) dividers. */
  lemma {:induction false} ProfessionalDividerCount(sections: seq<Section>)
    ensures Dividers(ProfessionalParts(sections)) == if |sections| == 0 then 0 else |sections| - 1
  {
    if sections != [] {
      var ps := ProfessionalParts(sections);
      assert ps[1..] == ProfessionalParts(sections[1..]);
      ProfessionalDividerCount(sections[1..]);
      var basic := SimpleSection(sections[0]);
      assert multiset(basic)[Divider] == 0;
      if |sections| > 1 {
        assert ps[0].blocks == basic + [Divider];
      } else {
        assert ps[0].blocks == basic + [];
      }
    }
  }

  /** With no sections every template still renders, with the subject as the
      preview; modern is then exactly its banner and its footer. */
  lemma EmptyDocument(subject: string)
    ensures SimpleTemplate(subject, []) == Email(subject, [], [], [])
    ensures ModernTemplate(subject, []) == Email(subject, [Brand(BannerText)], [], [FooterNote(ModernFooterText)])
    ensures ProfessionalTemplate(subject, []) == Email(subject, [Brand(LetterheadText), Rule], [], [Rule, FooterNote(ThanksText)])
    ensures CardGridTemplate(subject, []) == Email(subject, [], [], [])
    ensures MediaTeamTemplate(subject, []) == Email(subject, [], [], [])
    ensures TabbedContentTemplate(subject, []) == Email(subject, [], [], [])
  {
  }

  /** A tabs section shows every label, marks the first one active, and its
      body is the first tab's content whatever the other tabs hold. */
  lemma TabsShowFirstTab(s: Section)
    requires s.kind == Tabs && TabList(s).Some? && |TabList(s).value| > 0
    ensures var r := TabbedSection(s);
      && |r| == 1 && r[0].TabStrip?
      && |r[0].labels| == |TabList(s).value|
      && r[0].labels[0].active
      && (forall i :: 1 <= i < |r[0].labels| ==> !r[0].labels[i].active)
      && r[0].body == TabList(s).value[0].content
  {
  }

  /** Present but empty card, team and tab arrays still render an empty container. */
  lemma EmptyArraysStillRender(s: Section)
    ensures s.kind == CardGrid && Cards(s) == Some([]) ==> CardGridSection(s) == [Grid([])] && TabbedSection(s) == [Grid([])]
    ensures s.kind == Team && Members(s) == Some([]) ==> MediaTeamSection(s) == [TeamRow([])]
    ensures s.kind == Tabs && TabList(s) == Some([]) ==> TabbedSection(s) == [TabStrip([], "")]
  {
  }
}
