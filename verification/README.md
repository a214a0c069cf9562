# Newsletter composer — a Dafny model of its core

This project models the core of a client-side newsletter composer. The
composer has three parts:

- **The document store.** It holds a nullable *current* newsletter and a
  *saved collection*, and runs the actions create, update subject, update
  section, add, remove, reorder, set layout, save, load, delete and load
  template.
- **Section ordering.** This is the editor's drag-and-drop splice, plus the
  sort by `order` that the editor and the renderer both apply before they
  use the sections.
- **The layout rendering engine.** `getTemplate` sorts the sections and
  picks one of six email templates by layout. Each template turns
  `(subject, sections)` into an email, and a serializer failure is replaced
  by a fixed error snippet.

The fixed template catalog and its card preview (first two sections,
60-character truncation, "+k more sections") are modelled too.

Everything is immutable datatypes and pure functions over `seq`:

- `types.dfy` (`Types`): sections, metadata, newsletters, and the tag
  spellings of the closed enumerations. It also holds the `order` predicates
  `Contiguous` (orders are 0..N-1) and `SortedByOrder`, and the renumbering
  map.
- `seqs.dfy` (`Seqs`): JavaScript's `filter` and `splice` on sequences.
- `store.dfy` (`NewsletterStore`): every store action as a transition
  `State -> State`, the store invariant, and a state machine over actions.
- `reorder.dfy` (`Reorder`): the splice move, a stable insertion sort on
  `order`, the editor's display list and its drag-end handler.
- `catalog.dfy` (`Catalog`): the three built-in templates and the card preview.
- `templates.dfy` (`EmailTemplates`): the six templates, producing abstract
  blocks instead of HTML.
- `renderer.dfy` (`Renderer`): the layout dispatch, the sorted props and the
  error fallback.

Fresh ids (`uuidv4()`) and the clock (`new Date()`) are parameters:

- the ids `id`, `headerId`, `textId`, `sectionId` and `freshId`, and the
  catalog's eleven section ids `ids`;
- the time, as `now` or `loadedAt`, a `nat`.

Three behaviours of the code that are easy to misread:

- A `card-grid`, `team` or `tabs` section whose array is present but empty
  still renders an empty container, because `[]` is truthy in JavaScript.
- A button needs a non-empty `buttonText`, not just a present one, because
  `''` is falsy.
- The tab strip is rendered for an empty `tabs` array, with the body `''`.

## Model

| member | source | states |
|---|---|---|
| Types.ParseSectionType | src/types/newsletter.ts:3-11 | only the eight type tags are read as section types, and each reads back to its own tag |
| Types.SectionTypeTagRoundTrip | src/types/newsletter.ts:3-11 | the eight tags are distinct: printing a type and reading it back gives the same type |
| Types.ParseLayout | src/types/newsletter.ts:39-45 | only the six layout tags are layouts, and each reads back to its own tag |
| Types.LayoutTagRoundTrip | src/types/newsletter.ts:39-45 | the six layout tags are distinct and round-trip |
| Types.ParseStatus | src/types/newsletter.ts:46 | status is exactly draft or scheduled |
| Types.StatusTagRoundTrip | src/types/newsletter.ts:46 | the two status tags round-trip |
| Types.OrElse | src/components/email-templates/card-grid-template.tsx:46 | `x \|\| fallback` on an optional string yields the value when it is present and non-empty, and the fallback otherwise |
| Types.Renumber | src/store/newsletter-store.ts:103 | renumbering makes the orders exactly 0..N-1 and changes no other field of any section |
| Types.RenumberContiguous | src/store/newsletter-store.ts:117-120 | a list whose orders are already 0..N-1 is unchanged by renumbering |
| Types.RenumberSamePayloads | src/store/newsletter-store.ts:117-120 | two lists that differ only in `order` renumber to the same list |
| Seqs.Filter | src/store/newsletter-store.ts:102 | a filter keeps exactly the elements satisfying the predicate, never grows the list, and only ever drops elements |
| Seqs.FilterAppend | src/store/newsletter-store.ts:102 | filtering distributes over concatenation, so the kept elements stay in their relative order |
| Seqs.FilterAll | src/store/newsletter-store.ts:177 | a filter that drops nothing returns the list unchanged |
| Seqs.FilterLength | src/store/newsletter-store.ts:102 | the filtered length is the original length minus the number of dropped elements |
| Seqs.RemoveAt | src/components/newsletter-editor.tsx:34 | `splice(i, 1)` shortens by one and shifts the later elements down one place |
| Seqs.InsertAt | src/components/newsletter-editor.tsx:35 | `splice(i, 0, x)` puts `x` at `i` and shifts the later elements up one place |
| Seqs.RemoveInserted | src/components/newsletter-editor.tsx:34-35 | removing at `i` undoes inserting at `i` |
| Seqs.InsertRemoved | src/components/newsletter-editor.tsx:34-35 | re-inserting a removed element at its old place undoes the removal |
| NewsletterStore.FindIndex | src/store/newsletter-store.ts:154 | `findIndex` gives the first position holding the id, or -1 exactly when no entry has it |
| NewsletterStore.ReplaceById | src/store/newsletter-store.ts:158-160 | the map puts the new copy in every position holding its id and leaves the other positions alone |
| NewsletterStore.LookupReplace | src/store/newsletter-store.ts:158-160 | after the replacing map, the id finds the new copy and every other id finds what it found before |
| NewsletterStore.LookupAppend | src/store/newsletter-store.ts:161-162 | after appending a new id, it finds the new copy and every other id finds what it found before |
| NewsletterStore.Upsert | src/store/newsletter-store.ts:154-164 | when the id exists, every position holding it gets the new copy and every other position is kept; otherwise the copy is appended; afterwards the id finds the saved copy, no other id's entry changes, and "at most one entry per id" is preserved |
| NewsletterStore.DropId | src/store/newsletter-store.ts:177 | no entry with the deleted id remains |
| NewsletterStore.LookupDrop | src/store/newsletter-store.ts:177 | after a delete, the id finds nothing and every other id finds what it found before |
| NewsletterStore.DropIdKeepsUnique | src/store/newsletter-store.ts:177 | a delete preserves "at most one entry per id" |
| NewsletterStore.DropIdSize | src/store/newsletter-store.ts:177 | with unique ids, a delete removes exactly one entry when the id is present and changes nothing otherwise |
| NewsletterStore.DefaultSection | src/store/newsletter-store.ts:24-31 | a new section has the given type, order and id and no metadata; its content is the header placeholder exactly for headers, the text placeholder exactly for text, and the picsum URL for every other type |
| NewsletterStore.SetContent | src/store/newsletter-store.ts:71-73 | only the content of sections with the id changes; ids, types, orders and metadata stay as they were |
| NewsletterStore.SetContentLastWins | src/store/newsletter-store.ts:71-73 | editing the same section twice keeps only the second content |
| NewsletterStore.DropSection | src/store/newsletter-store.ts:101-102 | no section with the removed id remains, and every other section is kept |
| NewsletterStore.DropSectionLength | src/store/newsletter-store.ts:101-102 | the removal drops exactly as many sections as carry the id |
| NewsletterStore.CreateNewsletter | src/store/newsletter-store.ts:39-53 | the new current newsletter has an empty subject, layout simple, status draft and no schedule, with exactly a header at order 0 and a text at order 1 holding the placeholders; the saved collection is untouched |
| NewsletterStore.UpdateSubject | src/store/newsletter-store.ts:55-66 | without a current newsletter nothing changes; otherwise only the subject and `updatedAt` change |
| NewsletterStore.UpdateSection | src/store/newsletter-store.ts:68-82 | only the content of sections with the id changes, keeping count, ids, types and orders; an unknown id leaves the sections alone but still stamps `updatedAt` |
| NewsletterStore.AddSection | src/store/newsletter-store.ts:84-96 | the list grows by one with the old sections first and the new default section last at order = old length; orders 0..N-1 become 0..N |
| NewsletterStore.RemoveSection | src/store/newsletter-store.ts:98-112 | sections with the id disappear, the others keep their relative order and fields, and their orders become 0..M-1 |
| NewsletterStore.ReorderSections | src/store/newsletter-store.ts:114-129 | the sections become the given list with order = position and nothing else changed; the list is not checked against the current sections |
| NewsletterStore.SetLayout | src/store/newsletter-store.ts:131-142 | only the layout and `updatedAt` change |
| NewsletterStore.SaveNewsletter | src/store/newsletter-store.ts:144-170 | current becomes the stamped copy with the given status and schedule; when the id was saved, that entry is replaced in place and every other position is kept; otherwise the copy is appended; the id then finds it, other ids find what they did before, and ids stay unique |
| NewsletterStore.LoadNewsletter | src/store/newsletter-store.ts:172-174 | the given newsletter becomes current and the saved collection is untouched |
| NewsletterStore.DeleteNewsletter | src/store/newsletter-store.ts:176-179 | only entries with the id go, other ids find what they found before, ids stay unique, and the current newsletter is never touched |
| NewsletterStore.LoadTemplate | src/store/newsletter-store.ts:181-190 | current is the template's subject, sections, layout and schedule under a fresh id, with status draft and both timestamps now; the saved collection is untouched |
| NewsletterStore.NoCurrentNoChange | src/store/newsletter-store.ts:55-170 | all seven actions that need a current newsletter are the identity on a store without one |
| NewsletterStore.EditsStampUpdatedAt | src/store/newsletter-store.ts:55-170 | each of those seven actions on an existing newsletter sets `updatedAt` to the clock |
| NewsletterStore.StepKeepsValid | src/store/newsletter-store.ts:39-190 | every action keeps orders 0..N-1 on current and saved newsletters and at most one saved entry per id, provided that loaded newsletters and templates satisfy it too |
| NewsletterStore.RunKeepsValid | src/store/newsletter-store.ts:84-112 | any sequence of such actions, in particular of adds and removes, ends with orders exactly 0..N-1 |
| NewsletterStore.InitialValid | src/store/newsletter-store.ts:36-37 | the initial store, with no current newsletter and nothing saved, satisfies the store invariant, so every admissible run from it stays valid |
| NewsletterStore.SaveTwiceKeepsOneEntry | src/store/newsletter-store.ts:144-170 | after saving as draft and then as scheduled, the collection has not grown with the second save, and the id finds the copy holding the second status and schedule |
| NewsletterStore.LoadSavedThenSave | src/store/newsletter-store.ts:144-174 | loading a saved newsletter and saving it again does not grow the collection |
| Reorder.Move | src/components/newsletter-editor.tsx:33-35 | the moved list has the same length and the same multiset of sections; the dragged element lands at the destination and the others keep their relative order |
| Reorder.MoveUnique | src/components/newsletter-editor.tsx:34-35 | those two facts determine the moved list completely |
| Reorder.MoveInPlace | src/components/newsletter-editor.tsx:34-35 | moving from an index to the same index is the identity |
| Reorder.MoveBack | src/components/newsletter-editor.tsx:34-35 | moving an element back to where it came from undoes the move |
| Reorder.Insert | src/components/email-renderer.tsx:26 | inserting adds exactly that one section |
| Reorder.InsertSorted | src/components/email-renderer.tsx:26 | inserting into a sorted list keeps it sorted |
| Reorder.InsertLowerBound | src/components/email-renderer.tsx:26 | inserting a section no lower than a bound into a list no lower than it leaves every order at or above the bound |
| Reorder.SortedCons | src/components/email-renderer.tsx:26 | a sorted list headed by a section no greater than its elements is sorted |
| Reorder.InsertGroups | src/components/email-renderer.tsx:26 | the inserted section goes in front of the sections with the same order, and other groups are unaffected |
| Reorder.SortByOrder | src/components/email-renderer.tsx:26 | the result is ascending by order, is a permutation of the input, and keeps tied sections in their input order (stability) |
| Reorder.SortSorted | src/components/email-renderer.tsx:26 | sorting an already ordered list changes nothing |
| Reorder.SortedStableIsSort | src/components/email-renderer.tsx:26 | any sorted list with the same per-order groups as the input equals the sort, so the specification determines the result |
| Reorder.SortedGroupsEqual | src/components/email-renderer.tsx:26 | two sorted lists with the same per-order groups are equal |
| Reorder.WithOrderAllAbove | src/components/email-renderer.tsx:26 | a sorted list has no section with an order below its head's |
| Reorder.DisplayList | src/components/newsletter-editor.tsx:52 | the editor's list is the sections sorted by order, stably and as a permutation |
| Reorder.DisplayListOfContiguous | src/components/newsletter-editor.tsx:52 | when the orders are 0..N-1 the display list is the section list itself, so drag indices are section indices |
| Reorder.HandleDragEnd | src/components/newsletter-editor.tsx:30-39 | with no destination nothing changes; otherwise the sections become the moved list renumbered 0..N-1, the dragged section is at the destination, `updatedAt` becomes the clock, and no other field of the newsletter or the saved collection changes |
| Reorder.DragThenDisplay | src/components/newsletter-editor.tsx:30-52 | after a drop, the list the editor shows is exactly the moved list, renumbered |
| Reorder.ReorderThenDisplay | src/store/newsletter-store.ts:114-129 | reordering to a list and then reading the sections in display order gives that list back, up to the renumbered orders |
| Catalog.Welcome | src/components/newsletter-templates.tsx:9-36 | the welcome template is a professional draft with three header/text sections ordered 0..2 |
| Catalog.ProductUpdate | src/components/newsletter-templates.tsx:37-70 | the product-update template is a modern draft with four sections ordered 0..3 whose image has a non-empty URL |
| Catalog.WeeklyDigest | src/components/newsletter-templates.tsx:71-104 | the weekly-digest template is a simple draft with four header/text sections ordered 0..3 |
| Catalog.Templates | src/components/newsletter-templates.tsx:8-105 | the catalog has three templates with distinct ids and layouts professional, modern and simple; each is an unscheduled draft, orders equal indices, only header/text/image sections appear, and images are non-empty |
| Catalog.UseTemplateKeepsValid | src/components/newsletter-templates.tsx:8-105 | starting from any catalog template keeps the store invariant |
| Catalog.Truncate | src/components/newsletter-templates.tsx:177-178 | content of at most 60 characters is shown whole; longer content shows its first 60 characters followed by "..." |
| Catalog.TruncateIdempotent | src/components/newsletter-templates.tsx:177-178 | truncating a preview again changes nothing |
| Catalog.Preview | src/components/newsletter-templates.tsx:171-186 | at most the first two sections are previewed, each as its type and truncated content; "+k more" appears exactly when there are more than two sections, with k = count - 2 |
| Catalog.CatalogPreviews | src/components/newsletter-templates.tsx:171-186 | the three catalog cards announce 1, 2 and 2 more sections |
| EmailTemplates.BasicBlocks | src/components/email-templates/simple-template.tsx:27-39 | header gives a heading and text a paragraph with the content; image gives a picture with src = content and the fixed alt exactly when the content is non-empty; other types give nothing |
| EmailTemplates.ButtonBlocks | src/components/email-templates/card-grid-template.tsx:43-52 | a button appears exactly when `buttonText` is non-empty, labelled with it; its link is `buttonUrl` when non-empty and "#" otherwise |
| EmailTemplates.CardColumns | src/components/email-templates/card-grid-template.tsx:55-67 | one column per card, in order, with the card's image, its title as alt text and heading, and its description |
| EmailTemplates.MemberColumns | src/components/email-templates/media-team-template.tsx:46-60 | one column per member, in order, with the avatar, the name as alt text and heading, and the role |
| EmailTemplates.GridBlocks | src/components/email-templates/card-grid-template.tsx:53-69 | a grid appears exactly when `cards` is present, even if it is empty |
| EmailTemplates.TeamBlocks | src/components/email-templates/media-team-template.tsx:44-62 | a team row appears exactly when `teamMembers` is present, even if it is empty |
| EmailTemplates.VideoBlocks | src/components/email-templates/media-team-template.tsx:36-43 | a video placeholder, a play glyph over the content as caption, appears exactly when the content is non-empty |
| EmailTemplates.TabLabels | src/components/email-templates/tabbed-content-template.tsx:38-42 | one label per tab, in order, and exactly the first one is active |
| EmailTemplates.TabBody | src/components/email-templates/tabbed-content-template.tsx:46 | the body is the first tab's content, or "" when there are no tabs |
| EmailTemplates.TabBlocks | src/components/email-templates/tabbed-content-template.tsx:35-50 | a tab strip appears exactly when `tabs` is present, even if it is empty |
| EmailTemplates.SimpleSection | src/components/email-templates/simple-template.tsx:26-40 | a section renders to at most one block: header, text and image by the basic rule with the "Newsletter image" alt, and button, video, card-grid, team and tabs to nothing |
| EmailTemplates.CardGridSection | src/components/email-templates/card-grid-template.tsx:29-70 | at most one block: a button section gives the button rule, a card-grid section the grid rule, header/text/image the simple rule, and video, team and tabs nothing |
| EmailTemplates.MediaTeamSection | src/components/email-templates/media-team-template.tsx:29-82 | at most one block: video, team and button sections get their own rules, header and text the simple rule, an image the basic rule with the "Content image" alt, and card-grid and tabs nothing |
| EmailTemplates.TabbedSection | src/components/email-templates/tabbed-content-template.tsx:28-77 | at most one block: a tabs section gives the tab strip, a card-grid section the grid, header/text/image the simple rule, and button, video and team nothing |
| EmailTemplates.AtMostOneBlock | src/components/email-templates/card-grid-template.tsx:29-70 | a section renders to at most one content block in every template, since its type selects one guard |
| EmailTemplates.SharedRules | src/components/email-templates/modern-template.tsx:33-45 | header, text and image render the same in simple, professional, modern, card-grid and tabbed-content; media-team differs only in the image's alt text |
| EmailTemplates.UnsupportedTypesRenderNothing | src/components/email-templates/simple-template.tsx:26-40 | the types a template has no guard for render nothing and never fail |
| EmailTemplates.PartsOf | src/components/email-templates/simple-template.tsx:25-41 | one part per section, in input order, keyed by the section id |
| EmailTemplates.SimpleTemplate | src/components/email-templates/simple-template.tsx:18-46 | the preview is the subject, and there is one part per section in order, with no letterhead or footer |
| EmailTemplates.ProfessionalParts | src/components/email-templates/professional-template.tsx:33-50 | one part per section in order, each holding exactly the shared content rule's blocks followed by a divider in every part except the last, and by nothing in the last |
| EmailTemplates.ProfessionalTemplate | src/components/email-templates/professional-template.tsx:19-63 | the fixed "Your Newsletter" letterhead and rule come before all sections, and the rule and thank-you note come after them |
| EmailTemplates.ModernTemplate | src/components/email-templates/modern-template.tsx:18-59 | the "Newsletter" banner is always first and the footer always last, with one card part per section in order |
| EmailTemplates.CardGridTemplate | src/components/email-templates/card-grid-template.tsx:21-76 | one part per section in order under the card-grid rules (header, text, image, button, grid) |
| EmailTemplates.MediaTeamTemplate | src/components/email-templates/media-team-template.tsx:21-88 | one part per section in order under the media-team rules (header, text, video, team, button, image) |
| EmailTemplates.TabbedContentTemplate | src/components/email-templates/tabbed-content-template.tsx:20-83 | one part per section in order under the tabbed rules (header, text, tabs, grid, image) |
| EmailTemplates.ProfessionalDividerCount | src/components/email-templates/professional-template.tsx:48 | a professional email with n sections holds max(n - 1, 0) dividers |
| EmailTemplates.EmptyDocument | src/components/email-templates/modern-template.tsx:26-54 | with no sections every template renders with the subject as preview; modern is then exactly its banner and footer |
| EmailTemplates.TabsShowFirstTab | src/components/email-templates/tabbed-content-template.tsx:35-48 | a tabs section shows every label, marks only the first one active, and shows the first tab's content whatever the others hold |
| EmailTemplates.EmptyArraysStillRender | src/components/email-templates/card-grid-template.tsx:53-69 | present but empty cards, team members or tabs still render an empty grid, row or strip |
| Renderer.TemplateFor | src/components/email-renderer.tsx:29-42 | the five named layout tags select their own template, and every other tag selects simple |
| Renderer.LayoutSelectsOwnTemplate | src/components/email-renderer.tsx:29-39 | each of the six layouts is rendered by the template of the same name |
| Renderer.UnknownLayoutIsSimple | src/components/email-renderer.tsx:40-41 | a tag that names no layout falls back to the simple template |
| Renderer.Expand | src/components/email-renderer.tsx:29-41 | the element renders through the template it names, and in every case the email previews the subject and has one part per section, keyed by the section ids in order |
| Renderer.GetTemplate | src/components/email-renderer.tsx:23-43 | the template receives the subject unchanged and the sections sorted ascending by order, stably and as a permutation of the input |
| Renderer.RenderShape | src/components/email-renderer.tsx:24-27 | in every layout the email previews the subject and has one part per section, keyed by the ids in ascending order |
| Renderer.RenderFollowsSectionList | src/components/email-renderer.tsx:26 | for a store-kept newsletter (orders 0..N-1) the parts follow the section list itself |
| Renderer.PreviewHtml | src/components/email-renderer.tsx:48-56 | a failing serialization shows exactly the fixed "Error rendering email preview" snippet; otherwise the serialized email is shown |

## Left out

- HTML serialization and styling. `render()` of the email library is a
  foreign call, so it is a parameter of `PreviewHtml`. Templates produce
  abstract blocks, and the CSS objects are not modelled.
- Asynchronous rendering. The `useEffect` re-render, the loading spinner
  and the sandboxed preview frame are UI and concurrency, so they are not
  modelled.
- Persistence. The `persist` middleware writes to local storage, and the
  date round trip through JSON is library I/O.
- Fresh ids and the clock are parameters. Ids are not proved fresh,
  because they come from outside the model.
- In-place sorting. Both the editor and the renderer sort the store's own
  array in place. The model sorts a copy and does not model the aliasing.
  On store-kept sections, whose orders are 0..N-1, the two agree
  (`Reorder.DisplayListOfContiguous`).
- The drag buffer `draggedSections` is only ever set to `[]`, so the
  handler always splices the current sections. `Reorder.HandleDragEnd`
  reads them directly.
- Reorder.HandleDragEnd: requires the source and destination indices to be
  in range. The drag library supplies them, and the source's behaviour on
  out-of-range indices (inserting `undefined`) is not modelled.
- `metadata` and each of its fields are optional, and `scheduledDate` is
  independent of the timestamps. The datatypes state this: every
  combination can be constructed. No member states it separately.
- `metadata.videoUrl` is carried but never read by any template.
- `order: number` is modelled as `int`. Fractional or non-finite orders
  are not modelled; the store only ever writes indices.
- The two `new Date()` calls for `createdAt` and `updatedAt`
  (`newsletter-store.ts:49-50` and `185-186`) become one `now`. The model
  therefore has both timestamps equal, where the source may differ by a
  clock tick.
- The tab field `label` is named `title` in the model, because `label` is a
  reserved word in Dafny. Only the name differs.
- Catalog.Truncate: counts Unicode scalar values, whereas `substring`
  counts UTF-16 code units, so the two differ on content with characters
  outside the Basic Multilingual Plane.
- The catalog's text and the media-team template's play glyph
  (`media-team-template.tsx:39`) are double-encoded UTF-8 (mojibake) in the
  source, so the program emits that text. The model uses the intended
  characters (for example `\U{25B6}` for the play glyph). This changes only
  string contents.
- Catalog.Preview: gives the count k behind "+k more sections", not the
  formatted text.
- UI-only code is not modelled: the header, page shell, list page, layout
  select, newsletter list, the app's `canSave` guard, the badge colour and
  icon helpers, and the class-name utilities.
