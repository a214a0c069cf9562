/** The email renderer: `getTemplate` sorts the sections by `order` and
    picks a template by layout, falling back to the simple one; a failure of
    the foreign serializer shows a fixed error snippet instead. */
module Renderer {
  import opened Types
  import opened EmailTemplates
  import Reorder

  datatype TemplateKind = SimpleKind | ProfessionalKind | ModernKind | CardGridKind | MediaTeamKind | TabbedKind

  /** The `switch (newsletter.layout)` of `getTemplate`, on the layout's tag:
      five tags select their own template and anything else the simple one. */
  function TemplateFor(layoutTag: string): (k: TemplateKind)
    ensures k == ProfessionalKind <==> layoutTag == "professional"
    ensures k == ModernKind <==> layoutTag == "modern"
    ensures k == CardGridKind <==> layoutTag == "card-grid"
    ensures k == MediaTeamKind <==> layoutTag == "media-team"
    ensures k == TabbedKind <==> layoutTag == "tabbed-content"
  {
    if layoutTag == "professional" then ProfessionalKind
    else if layoutTag == "modern" then ModernKind
    else if layoutTag == "card-grid" then CardGridKind
    else if layoutTag == "media-team" then MediaTeamKind
    else if layoutTag == "tabbed-content" then TabbedKind
    else SimpleKind
  }

  /** Every layout selects the template of the same name. */
  lemma LayoutSelectsOwnTemplate(l: Layout)
    ensures TemplateFor(LayoutTag(l)) == match l
      case Simple => SimpleKind
      case Professional => ProfessionalKind
      case Modern => ModernKind
      case CardGridLayout => CardGridKind
      case MediaTeam => MediaTeamKind
      case TabbedContent => TabbedKind
  {
  }

  /** A tag that names none of the six layouts falls back to simple. */
  lemma UnknownLayoutIsSimple(tag: string)
    requires ParseLayout(tag).None?
    ensures TemplateFor(tag) == SimpleKind
  {
  }

  /** The element `getTemplate` returns: a template and its props. */
  datatype Element = Element(template: TemplateKind, subject: string, sections: seq<Section>)

  function GetTemplate(n: Newsletter): (el: Element)
    ensures el.subject == n.subject
    ensures SortedByOrder(el.sections) && multiset(el.sections) == multiset(n.sections)
    ensures Reorder.StableWrt(el.sections, n.sections)
    ensures el.template == TemplateFor(LayoutTag(n.layout))
  {
    Element(TemplateFor(LayoutTag(n.layout)), n.subject, Reorder.SortByOrder(n.sections))
  }

  /** What the element renders to: the chosen template applied to the props.
      Whichever it is, the email previews the subject and has one part per
      section, keyed by the section ids in the order given. */
  function Expand(el: Element): (e: Email)
    ensures e.preview == el.subject
    ensures |e.parts| == |el.sections|
    ensures forall i :: 0 <= i < |e.parts| ==> e.parts[i].key == el.sections[i].id
    ensures el.template == SimpleKind ==> e == SimpleTemplate(el.subject, el.sections)
    ensures el.template == ProfessionalKind ==> e == ProfessionalTemplate(el.subject, el.sections)
    ensures el.template == ModernKind ==> e == ModernTemplate(el.subject, el.sections)
    ensures el.template == CardGridKind ==> e == CardGridTemplate(el.subject, el.sections)
    ensures el.template == MediaTeamKind ==> e == MediaTeamTemplate(el.subject, el.sections)
    ensures el.template == TabbedKind ==> e == TabbedContentTemplate(el.subject, el.sections)
  {
    match el.template
    case SimpleKind => SimpleTemplate(el.subject, el.sections)
    case ProfessionalKind => ProfessionalTemplate(el.subject, el.sections)
    case ModernKind => ModernTemplate(el.subject, el.sections)
    case CardGridKind => CardGridTemplate(el.subject, el.sections)
    case MediaTeamKind => MediaTeamTemplate(el.subject, el.sections)
    case TabbedKind => TabbedContentTemplate(el.subject, el.sections)
  }

  /** Whatever the layout, the email previews the subject and has one part
      per section, keyed by the section ids in ascending `order`. */
  lemma RenderShape(n: Newsletter)
    ensures var e := Expand(GetTemplate(n));
      var sorted := Reorder.SortByOrder(n.sections);
      && e.preview == n.subject
      && |e.parts| == |n.sections|
      && (forall i :: 0 <= i < |e.parts| ==> e.parts[i].key == sorted[i].id)
  {
  }

  /** For a newsletter kept by the store (orders 0..N-1), the parts follow the
      section list itself. */
  lemma RenderFollowsSectionList(n: Newsletter)
    requires Contiguous(n.sections)
    ensures var e := Expand(GetTemplate(n));
      |e.parts| == |n.sections| && forall i :: 0 <= i < |e.parts| ==> e.parts[i].key == n.sections[i].id
  {
    Reorder.DisplayListOfContiguous(n);
    RenderShape(n);
  }

  const ErrorHtml: string := "<div style=\"padding: 20px; text-align: center; color: red;\">Error rendering email preview</div>"

  /** The HTML put in the preview frame. `serialize` stands for the foreign
      `render()` of the email library; `None` is a thrown error. */
  function PreviewHtml(n: Newsletter, serialize: Email -> Option<string>): (html: string)
    ensures serialize(Expand(GetTemplate(n))).None? ==> html == ErrorHtml
    ensures serialize(Expand(GetTemplate(n))).Some? ==> html == serialize(Expand(GetTemplate(n))).value
  {
    match serialize(Expand(GetTemplate(n)))
    case Some(h) => h
    case None => ErrorHtml
  }
}
