/** The document model: sections, their optional metadata, and newsletters.

    Every union of string literals in the source becomes a closed datatype,
    together with its tag spelling and a parser for it, so that "a section
    type is exactly one of eight tags" is a round trip between the two. */
module Types {

  datatype Option<+T> = None | Some(value: T)

  /** JavaScript truthiness of an optional string: absent and "" are both falsy. */
  predicate Truthy(o: Option<string>) {
    o.Some? && o.value != ""
  }

  /** The value of `o || fallback` for an optional string. */
  function OrElse(o: Option<string>, fallback: string): (r: string)
    ensures Truthy(o) ==> r == o.value
    ensures !Truthy(o) ==> r == fallback
  {
    if Truthy(o) then o.value else fallback
  }

  // ---------------------------------------------------------------------
  // Sections

  datatype SectionType = Text | Header | Image | Button | Video | CardGrid | Team | Tabs

  datatype Card = Card(title: string, description: string, imageUrl: string)
  datatype TeamMember = TeamMember(name: string, role: string, imageUrl: string)
  datatype Tab = Tab(title: string, content: string)  // `label` in the source

  /** Every field of the metadata record is optional, and so is the record. */
  datatype Metadata = Metadata(
    buttonText: Option<string>,
    buttonUrl: Option<string>,
    videoUrl: Option<string>,
    cards: Option<seq<Card>>,
    teamMembers: Option<seq<TeamMember>>,
    tabs: Option<seq<Tab>>)

  datatype Section = Section(
    id: string,
    kind: SectionType,
    content: string,
    order: int,
    metadata: Option<Metadata>)

  /** `section.metadata?.buttonText` */
  function ButtonText(s: Section): Option<string> {
    if s.metadata.Some? then s.metadata.value.buttonText else None
  }

  /** `section.metadata?.buttonUrl` */
  function ButtonUrl(s: Section): Option<string> {
    if s.metadata.Some? then s.metadata.value.buttonUrl else None
  }

  /** `section.metadata?.cards` */
  function Cards(s: Section): Option<seq<Card>> {
    if s.metadata.Some? then s.metadata.value.cards else None
  }

  /** `section.metadata?.teamMembers` */
  function Members(s: Section): Option<seq<TeamMember>> {
    if s.metadata.Some? then s.metadata.value.teamMembers else None
  }

  /** `section.metadata?.tabs` */
  function TabList(s: Section): Option<seq<Tab>> {
    if s.metadata.Some? then s.metadata.value.tabs else None
  }

  function SectionTypeTag(t: SectionType): string {
    match t
    case Text => "text"
    case Header => "header"
    case Image => "image"
    case Button => "button"
    case Video => "video"
    case CardGrid => "card-grid"
    case Team => "team"
    case Tabs => "tabs"
  }

  /** Reads a section type tag; anything outside the eight tags is rejected. */
  function ParseSectionType(tag: string): (r: Option<SectionType>)
    ensures r.Some? ==> SectionTypeTag(r.value) == tag
  {
    if tag == "text" then Some(Text)
    else if tag == "header" then Some(Header)
    else if tag == "image" then Some(Image)
    else if tag == "button" then Some(Button)
    else if tag == "video" then Some(Video)
    else if tag == "card-grid" then Some(CardGrid)
    else if tag == "team" then Some(Team)
    else if tag == "tabs" then Some(Tabs)
    else None
  }

  /** The eight tags are distinct and each reads back as its own type. */
  lemma SectionTypeTagRoundTrip(t: SectionType)
    ensures ParseSectionType(SectionTypeTag(t)) == Some(t)
  {
  }

  // ---------------------------------------------------------------------
  // Newsletters

  datatype Layout = Simple | Professional | Modern | CardGridLayout | MediaTeam | TabbedContent

  datatype Status = Draft | Scheduled

  function LayoutTag(l: Layout): string {
    match l
    case Simple => "simple"
    case Professional => "professional"
    case Modern => "modern"
    case CardGridLayout => "card-grid"
    case MediaTeam => "media-team"
    case TabbedContent => "tabbed-content"
  }

  function ParseLayout(tag: string): (r: Option<Layout>)
    ensures r.Some? ==> LayoutTag(r.value) == tag
  {
    if tag == "simple" then Some(Simple)
    else if tag == "professional" then Some(Professional)
    else if tag == "modern" then Some(Modern)
    else if tag == "card-grid" then Some(CardGridLayout)
    else if tag == "media-team" then Some(MediaTeam)
    else if tag == "tabbed-content" then Some(TabbedContent)
    else None
  }

  lemma LayoutTagRoundTrip(l: Layout)
    ensures ParseLayout(LayoutTag(l)) == Some(l)
  {
  }

  function StatusTag(s: Status): string {
    match s
    case Draft => "draft"
    case Scheduled => "scheduled"
  }

  function ParseStatus(tag: string): (r: Option<Status>)
    ensures r.Some? ==> StatusTag(r.value) == tag
  {
    if tag == "draft" then Some(Draft)
    else if tag == "scheduled" then Some(Scheduled)
    else None
  }

  lemma StatusTagRoundTrip(s: Status)
    ensures ParseStatus(StatusTag(s)) == Some(s)
  {
  }

  /** Dates are instants on an abstract clock; `scheduledDate` is optional and
      independent of the two timestamps. */
  datatype Newsletter = Newsletter(
    id: string,
    subject: string,
    sections: seq<Section>,
    layout: Layout,
    status: Status,
    scheduledDate: Option<nat>,
    createdAt: nat,
    updatedAt: nat)

  // ---------------------------------------------------------------------
  // Order fields

  /** The `order` of every section equals its position: orders are exactly 0..N-1. */
  predicate Contiguous(ss: seq<Section>) {
    forall i :: 0 <= i < |ss| ==> ss[i].order == i
  }

  /** Ascending by `order`. */
  predicate SortedByOrder(ss: seq<Section>) {
    forall i, j :: 0 <= i < j < |ss| ==> ss[i].order <= ss[j].order
  }

  /** A section with its `order` field cleared: what a renumbering must keep. */
  function Payload(s: Section): (p: Section)
    ensures p.id == s.id && p.kind == s.kind && p.content == s.content && p.metadata == s.metadata
    ensures p.order == 0
  {
    s.(order := 0)
  }

  /** Two section lists that differ at most in their `order` fields. */
  predicate SamePayloads(a: seq<Section>, b: seq<Section>) {
    |a| == |b| && forall i :: 0 <= i < |a| ==> Payload(a[i]) == Payload(b[i])
  }

  /** `list.map((section, index) => ({ ...section, order: index }))` */
  function Renumber(ss: seq<Section>): (r: seq<Section>)
    ensures Contiguous(r)
    ensures SamePayloads(r, ss)
  {
    seq(|ss|, i requires 0 <= i < |ss| => ss[i].(order := i))
  }

  lemma ContiguousIsSorted(ss: seq<Section>)
    requires Contiguous(ss)
    ensures SortedByOrder(ss)
  {
  }

  /** On a list whose orders are already 0..N-1, renumbering changes nothing. */
  lemma RenumberContiguous(ss: seq<Section>)
    requires Contiguous(ss)
    ensures Renumber(ss) == ss
  {
    var r := Renumber(ss);
    forall i | 0 <= i < |ss|
      ensures r[i] == ss[i]
    {
      assert Payload(r[i]) == Payload(ss[i]);
    }
  }

  /** Two lists with the same payloads renumber to the same list. */
  lemma RenumberSamePayloads(a: seq<Section>, b: seq<Section>)
    requires SamePayloads(a, b)
    ensures Renumber(a) == Renumber(b)
  {
    var ra, rb := Renumber(a), Renumber(b);
    forall i | 0 <= i < |a|
      ensures ra[i] == rb[i]
    {
      assert Payload(ra[i]) == Payload(a[i]) == Payload(b[i]) == Payload(rb[i]);
    }
  }
}
