/** The document store: a nullable current newsletter and the saved
    collection, with every store action as a pure state transition.

    The source draws fresh ids from `uuidv4()` and timestamps from
    `new Date()`; here both are parameters (`id`, `now`). */
module NewsletterStore {
  import opened Types
  import Seqs

  datatype State = State(current: Option<Newsletter>, saved: seq<Newsletter>)

  /** The store before any action: no current newsletter, nothing saved. */
  const Initial: State := State(None, [])

  const HeaderPlaceholder: string := "Welcome to our newsletter!"
  const TextPlaceholder: string := "Add your content here..."
  const ImagePlaceholder: string := "https://picsum.photos/600/300"

  // ---------------------------------------------------------------------
  // The saved collection, keyed by id

  predicate HasId(saved: seq<Newsletter>, id: string) {
    exists i :: 0 <= i < |saved| && saved[i].id == id
  }

  /** At most one saved entry per id. */
  predicate UniqueIds(saved: seq<Newsletter>) {
    forall i, j :: 0 <= i < j < |saved| ==> saved[i].id != saved[j].id
  }

  /** The first saved entry with the given id, if any: the model's view of
      the saved collection as a map from ids to newsletters. */
  function Lookup(saved: seq<Newsletter>, id: string): (r: Option<Newsletter>)
    ensures r.Some? ==> r.value in saved && r.value.id == id
    ensures r.None? <==> !HasId(saved, id)
  {
    if saved == [] then None
    else if saved[0].id == id then Some(saved[0])
    else
      var r := Lookup(saved[1..], id);
      assert HasId(saved, id) ==> saved[0].id == id || HasId(saved[1..], id) by {
        if HasId(saved, id) {
          var i :| 0 <= i < |saved| && saved[i].id == id;
          if i > 0 { assert saved[1..][i - 1].id == id; }
        }
      }
      r
  }

  /** `savedNewsletters.findIndex(n => n.id === id)`: the first position
      holding that id, or -1. */
  function FindIndex(saved: seq<Newsletter>, id: string): (k: int)
    ensures -1 <= k < |saved|
    ensures k >= 0 ==> saved[k].id == id
    ensures k >= 0 ==> forall j :: 0 <= j < k ==> saved[j].id != id
    ensures k == -1 <==> !HasId(saved, id)
  {
    if saved == [] then -1
    else if saved[0].id == id then 0
    else
      var k := FindIndex(saved[1..], id);
      assert HasId(saved, id) ==> HasId(saved[1..], id) by {
        if HasId(saved, id) {
          var i :| 0 <= i < |saved| && saved[i].id == id;
          assert i > 0 && saved[1..][i - 1].id == id;
        }
      }
      if k == -1 then -1 else k + 1
  }

  /** `saved.map(n => n.id === x.id ? x : n)` */
  function ReplaceById(saved: seq<Newsletter>, x: Newsletter): (r: seq<Newsletter>)
    ensures |r| == |saved|
    ensures forall i :: 0 <= i < |r| && saved[i].id == x.id ==> r[i] == x
    ensures forall i :: 0 <= i < |r| && saved[i].id != x.id ==> r[i] == saved[i]
  {
    seq(|saved|, i requires 0 <= i < |saved| => if saved[i].id == x.id then x else saved[i])
  }

  lemma {:induction false} LookupReplace(saved: seq<Newsletter>, x: Newsletter, id: string)
    ensures HasId(saved, x.id) ==> Lookup(ReplaceById(saved, x), x.id) == Some(x)
    ensures id != x.id ==> Lookup(ReplaceById(saved, x), id) == Lookup(saved, id)
  {
    if saved != [] {
      var r := ReplaceById(saved, x);
      assert r[1..] == ReplaceById(saved[1..], x);
      LookupReplace(saved[1..], x, id);
    }
  }

  lemma {:induction false} LookupAppend(saved: seq<Newsletter>, x: Newsletter, id: string)
    ensures !HasId(saved, x.id) ==> Lookup(saved + [x], x.id) == Some(x)
    ensures id != x.id ==> Lookup(saved + [x], id) == Lookup(saved, id)
  {
    if saved == [] {
    } else {
      assert (saved + [x])[1..] == saved[1..] + [x];
      LookupAppend(saved[1..], x, id);
    }
  }

  /** The upsert performed by `saveNewsletter`: replace the entries with
      `x.id` when there is one, append `x` otherwise. */
  function Upsert(saved: seq<Newsletter>, x: Newsletter): (r: seq<Newsletter>)
    ensures HasId(saved, x.id) ==> |r| == |saved|
    ensures HasId(saved, x.id) ==>
      forall i :: 0 <= i < |saved| ==> r[i] == (if saved[i].id == x.id then x else saved[i])
    ensures !HasId(saved, x.id) ==> |r| == |saved| + 1 && r[..|saved|] == saved && r[|saved|] == x
    ensures Lookup(r, x.id) == Some(x)
    ensures forall id :: id != x.id ==> Lookup(r, id) == Lookup(saved, id)
    ensures UniqueIds(saved) ==> UniqueIds(r)
  {
    if FindIndex(saved, x.id) >= 0 then
      var r := ReplaceById(saved, x);
      LookupReplace(saved, x, x.id);
      assert forall id :: id != x.id ==> Lookup(r, id) == Lookup(saved, id) by {
        forall id | id != x.id { LookupReplace(saved, x, id); }
      }
      r
    else
      var r := saved + [x];
      LookupAppend(saved, x, x.id);
      assert forall id :: id != x.id ==> Lookup(r, id) == Lookup(saved, id) by {
        forall id | id != x.id { LookupAppend(saved, x, id); }
      }
      r
  }

  /** The filter performed by `deleteNewsletter`. */
  function DropId(saved: seq<Newsletter>, id: string): (r: seq<Newsletter>)
    ensures forall i :: 0 <= i < |r| ==> r[i].id != id
  {
    Seqs.Filter(saved, (n: Newsletter) => n.id != id)
  }

  lemma {:induction false} LookupDrop(saved: seq<Newsletter>, id: string, other: string)
    ensures Lookup(DropId(saved, id), id) == None
    ensures other != id ==> Lookup(DropId(saved, id), other) == Lookup(saved, other)
  {
    if saved != [] {
      LookupDrop(saved[1..], id, other);
    }
  }

  lemma {:induction false} DropIdKeepsUnique(saved: seq<Newsletter>, id: string)
    requires UniqueIds(saved)
    ensures UniqueIds(DropId(saved, id))
  {
    if saved != [] {
      DropIdKeepsUnique(saved[1..], id);
      var rest := DropId(saved[1..], id);
      if saved[0].id != id {
        assert DropId(saved, id) == [saved[0]] + rest;
        forall j | 0 <= j < |rest|
          ensures rest[j].id != saved[0].id
        {
          assert rest[j] in saved[1..];
        }
      }
    }
  }

  /** An id is held by a non-empty collection exactly when its head or its
      tail holds it. */
  lemma HasIdCons(saved: seq<Newsletter>, id: string)
    requires saved != []
    ensures HasId(saved, id) <==> saved[0].id == id || HasId(saved[1..], id)
  {
    if HasId(saved, id) && saved[0].id != id {
      var i :| 0 <= i < |saved| && saved[i].id == id;
      assert saved[1..][i - 1].id == id;
    }
    if HasId(saved[1..], id) {
      var i :| 0 <= i < |saved[1..]| && saved[1..][i].id == id;
      assert saved[i + 1].id == id;
    }
  }

  /** Deleting from a non-empty collection decides the head and recurses. */
  lemma DropIdCons(saved: seq<Newsletter>, id: string)
    requires saved != []
    ensures DropId(saved, id) == (if saved[0].id != id then [saved[0]] else []) + DropId(saved[1..], id)
  {
    var keep := (n: Newsletter) => n.id != id;
    assert DropId(saved, id) == Seqs.Filter(saved, keep);
    assert DropId(saved[1..], id) == Seqs.Filter(saved[1..], keep);
  }

  lemma UniqueIdsTail(saved: seq<Newsletter>)
    requires saved != [] && UniqueIds(saved)
    ensures UniqueIds(saved[1..])
    ensures !HasId(saved[1..], saved[0].id)
  {
    var tail := saved[1..];
    forall i, j | 0 <= i < j < |tail| ensures tail[i].id != tail[j].id {
      assert tail[i] == saved[i + 1] && tail[j] == saved[j + 1];
    }
    forall j | 0 <= j < |tail| ensures tail[j].id != saved[0].id {
      assert tail[j] == saved[j + 1];
    }
  }

  /** With unique ids, deleting a present id removes exactly one entry. */
  lemma {:induction false} DropIdSize(saved: seq<Newsletter>, id: string)
    requires UniqueIds(saved)
    ensures HasId(saved, id) ==> |DropId(saved, id)| == |saved| - 1
    ensures !HasId(saved, id) ==> DropId(saved, id) == saved
  {
    if saved != [] {
      UniqueIdsTail(saved);
      DropIdSize(saved[1..], id);
      HasIdCons(saved, id);
      DropIdCons(saved, id);
      if saved[0].id != id {
        assert saved == [saved[0]] + saved[1..];
      }
    }
  }

  // ---------------------------------------------------------------------
  // Sections

  /** `createDefaultSection(type, order)` with the fresh id passed in. */
  function DefaultSection(kind: SectionType, order: int, id: string): (s: Section)
    ensures s.id == id && s.kind == kind && s.order == order && s.metadata == None
    ensures s.content == HeaderPlaceholder <==> kind == Header
    ensures s.content == TextPlaceholder <==> kind == Text
    ensures s.content == ImagePlaceholder <==> kind != Header && kind != Text
  {
    Section(id, kind,
      if kind == Header then HeaderPlaceholder
      else if kind == Text then TextPlaceholder
      else ImagePlaceholder,
      order, None)
  }

  /** The section map of `updateSection`. */
  function SetContent(ss: seq<Section>, id: string, content: string): (r: seq<Section>)
    ensures |r| == |ss|
    ensures forall i :: 0 <= i < |r| ==>
      r[i].id == ss[i].id && r[i].kind == ss[i].kind && r[i].order == ss[i].order && r[i].metadata == ss[i].metadata
    ensures forall i :: 0 <= i < |r| && ss[i].id == id ==> r[i].content == content
    ensures forall i :: 0 <= i < |r| && ss[i].id != id ==> r[i] == ss[i]
  {
    seq(|ss|, i requires 0 <= i < |ss| => if ss[i].id == id then ss[i].(content := content) else ss[i])
  }

  /** Editing the same section twice keeps only the second edit. */
  lemma SetContentLastWins(ss: seq<Section>, id: string, c1: string, c2: string)
    ensures SetContent(SetContent(ss, id, c1), id, c2) == SetContent(ss, id, c2)
  {
  }

  /** The filter of `removeSection`. */
  function DropSection(ss: seq<Section>, id: string): (r: seq<Section>)
    ensures forall i :: 0 <= i < |r| ==> r[i].id != id
    ensures forall i :: 0 <= i < |ss| && ss[i].id != id ==> ss[i] in r
  {
    Seqs.Filter(ss, (s: Section) => s.id != id)
  }

  // ---------------------------------------------------------------------
  // Store actions

  /** `createNewsletter()`: the fresh newsletter becomes current; the saved
      collection is untouched. */
  function CreateNewsletter(st: State, id: string, headerId: string, textId: string, now: nat): (st': State)
    ensures st'.saved == st.saved
    ensures st'.current.Some?
    ensures var n := st'.current.value;
      && n.id == id && n.subject == "" && n.layout == Simple && n.status == Draft
      && n.scheduledDate == None && n.createdAt == now && n.updatedAt == now
      && n.sections == [Section(headerId, Header, HeaderPlaceholder, 0, None),
                        Section(textId, Text, TextPlaceholder, 1, None)]
      && Contiguous(n.sections)
  {
    var sections := [DefaultSection(Header, 0, headerId), DefaultSection(Text, 1, textId)];
    State(Some(Newsletter(id, "", sections, Simple, Draft, None, now, now)), st.saved)
  }

  /** `updateSubject(subject)` */
  function UpdateSubject(st: State, subject: string, now: nat): (st': State)
    ensures st.current.None? ==> st' == st
    ensures st'.saved == st.saved && st'.current.Some? == st.current.Some?
    ensures st.current.Some? ==>
      var n, n' := st.current.value, st'.current.value;
      && n'.subject == subject && n'.updatedAt == now
      && n'.id == n.id && n'.sections == n.sections && n'.layout == n.layout
      && n'.status == n.status && n'.scheduledDate == n.scheduledDate && n'.createdAt == n.createdAt
  {
    match st.current
    case None => st
    case Some(n) => st.(current := Some(n.(subject := subject, updatedAt := now)))
  }

  /** `updateSection(sectionId, content)`: only the content of sections with
      that id changes; an unknown id still refreshes `updatedAt`. */
  function UpdateSection(st: State, sectionId: string, content: string, now: nat): (st': State)
    ensures st.current.None? ==> st' == st
    ensures st'.saved == st.saved && st'.current.Some? == st.current.Some?
    ensures st.current.Some? ==>
      var n, n' := st.current.value, st'.current.value;
      && n'.updatedAt == now
      && n' == n.(sections := n'.sections, updatedAt := now)
      && |n'.sections| == |n.sections|
      && (forall i :: 0 <= i < |n.sections| ==>
            n'.sections[i] == (if n.sections[i].id == sectionId then n.sections[i].(content := content) else n.sections[i]))
      && ((forall i :: 0 <= i < |n.sections| ==> n.sections[i].id != sectionId) ==> n'.sections == n.sections)
  {
    match st.current
    case None => st
    case Some(n) => st.(current := Some(n.(sections := SetContent(n.sections, sectionId, content), updatedAt := now)))
  }

  /** `addSection(type)`: the new default section goes last with
      `order` equal to the old section count. */
  function AddSection(st: State, kind: SectionType, sectionId: string, now: nat): (st': State)
    ensures st.current.None? ==> st' == st
    ensures st'.saved == st.saved && st'.current.Some? == st.current.Some?
    ensures st.current.Some? ==>
      var n, n' := st.current.value, st'.current.value;
      && n' == n.(sections := n'.sections, updatedAt := now)
      && |n'.sections| == |n.sections| + 1
      && n'.sections[..|n.sections|] == n.sections
      && n'.sections[|n.sections|] == DefaultSection(kind, |n.sections|, sectionId)
      && (Contiguous(n.sections) ==> Contiguous(n'.sections))
  {
    match st.current
    case None => st
    case Some(n) =>
      var added := n.sections + [DefaultSection(kind, |n.sections|, sectionId)];
      assert added[..|n.sections|] == n.sections;
      st.(current := Some(n.(sections := added, updatedAt := now)))
  }

  /** `removeSection(sectionId)`: drops every section with that id, keeps
      the others in relative order and renumbers them 0..M-1. */
  function RemoveSection(st: State, sectionId: string, now: nat): (st': State)
    ensures st.current.None? ==> st' == st
    ensures st'.saved == st.saved && st'.current.Some? == st.current.Some?
    ensures st.current.Some? ==>
      var n, n' := st.current.value, st'.current.value;
      && n' == n.(sections := n'.sections, updatedAt := now)
      && Contiguous(n'.sections)
      && SamePayloads(n'.sections, DropSection(n.sections, sectionId))
      && |n'.sections| == |n.sections| - Seqs.Count(n.sections, (s: Section) => s.id == sectionId)
      && (forall i :: 0 <= i < |n'.sections| ==> n'.sections[i].id != sectionId)
  {
    match st.current
    case None => st
    case Some(n) =>
      var kept := DropSection(n.sections, sectionId);
      DropSectionLength(n.sections, sectionId);
      st.(current := Some(n.(sections := Renumber(kept), updatedAt := now)))
  }

  lemma {:induction false} DropSectionLength(ss: seq<Section>, id: string)
    ensures |DropSection(ss, id)| == |ss| - Seqs.Count(ss, (s: Section) => s.id == id)
  {
    if ss != [] {
      DropSectionLength(ss[1..], id);
    }
  }

  /** `reorderSections(list)`: the sections become `list` with `order` set
      to the position. Whether `list` is a permutation of the current
      sections is not checked. */
  function ReorderSections(st: State, list: seq<Section>, now: nat): (st': State)
    ensures st.current.None? ==> st' == st
    ensures st'.saved == st.saved && st'.current.Some? == st.current.Some?
    ensures st.current.Some? ==>
      var n, n' := st.current.value, st'.current.value;
      && n' == n.(sections := n'.sections, updatedAt := now)
      && Contiguous(n'.sections)
      && SamePayloads(n'.sections, list)
  {
    match st.current
    case None => st
    case Some(n) => st.(current := Some(n.(sections := Renumber(list), updatedAt := now)))
  }

  /** `setLayout(layout)` */
  function SetLayout(st: State, layout: Layout, now: nat): (st': State)
    ensures st.current.None? ==> st' == st
    ensures st'.saved == st.saved && st'.current.Some? == st.current.Some?
    ensures st.current.Some? ==>
      var n, n' := st.current.value, st'.current.value;
      && n'.layout == layout && n'.updatedAt == now
      && n'.id == n.id && n'.subject == n.subject && n'.sections == n.sections
      && n'.status == n.status && n'.scheduledDate == n.scheduledDate && n'.createdAt == n.createdAt
  {
    match st.current
    case None => st
    case Some(n) => st.(current := Some(n.(layout := layout, updatedAt := now)))
  }

  /** `saveNewsletter(status, scheduledDate?)`: current becomes the stamped
      copy, which is upserted into the saved collection by id. */
  function SaveNewsletter(st: State, status: Status, scheduledDate: Option<nat>, now: nat): (st': State)
    ensures st.current.None? ==> st' == st
    ensures st.current.Some? ==>
      var n := st.current.value;
      && st'.current == Some(n.(status := status, scheduledDate := scheduledDate, updatedAt := now))
      && Lookup(st'.saved, n.id) == st'.current
      && (forall id :: id != n.id ==> Lookup(st'.saved, id) == Lookup(st.saved, id))
      && (HasId(st.saved, n.id) ==> |st'.saved| == |st.saved|)
      && (HasId(st.saved, n.id) ==> forall i :: 0 <= i < |st.saved| ==>
            st'.saved[i] == (if st.saved[i].id == n.id then st'.current.value else st.saved[i]))
      && (!HasId(st.saved, n.id) ==> st'.saved == st.saved + [st'.current.value])
      && (UniqueIds(st.saved) ==> UniqueIds(st'.saved))
  {
    match st.current
    case None => st
    case Some(n) =>
      var toSave := n.(status := status, scheduledDate := scheduledDate, updatedAt := now);
      var saved := Upsert(st.saved, toSave);
      assert !HasId(st.saved, n.id) ==> saved == st.saved + [toSave];
      State(Some(toSave), saved)
  }

  /** `loadNewsletter(newsletter)`: a copy of the given newsletter becomes current. */
  function LoadNewsletter(st: State, n: Newsletter): (st': State)
    ensures st'.current == Some(n) && st'.saved == st.saved
  {
    st.(current := Some(n))
  }

  /** `deleteNewsletter(id)`: removes exactly the saved entries with that
      id and never touches the current newsletter. */
  function DeleteNewsletter(st: State, id: string): (st': State)
    ensures st'.current == st.current
    ensures Lookup(st'.saved, id) == None
    ensures forall other :: other != id ==> Lookup(st'.saved, other) == Lookup(st.saved, other)
    ensures UniqueIds(st.saved) ==> UniqueIds(st'.saved)
    ensures UniqueIds(st.saved) && HasId(st.saved, id) ==> |st'.saved| == |st.saved| - 1
    ensures !HasId(st.saved, id) && UniqueIds(st.saved) ==> st'.saved == st.saved
  {
    var saved := DropId(st.saved, id);
    LookupDrop(st.saved, id, id);
    assert forall other :: other != id ==> Lookup(saved, other) == Lookup(st.saved, other) by {
      forall other | other != id { LookupDrop(st.saved, id, other); }
    }
    if UniqueIds(st.saved) then
      DropIdKeepsUnique(st.saved, id);
      DropIdSize(st.saved, id);
      State(st.current, saved)
    else
      State(st.current, saved)
  }

  /** `loadTemplate(template)`: a copy of the template with a fresh id,
      fresh timestamps and draft status becomes current. */
  function LoadTemplate(st: State, template: Newsletter, id: string, now: nat): (st': State)
    ensures st'.saved == st.saved && st'.current.Some?
    ensures var n := st'.current.value;
      && n.id == id && n.status == Draft && n.createdAt == now && n.updatedAt == now
      && n.subject == template.subject && n.sections == template.sections
      && n.layout == template.layout && n.scheduledDate == template.scheduledDate
  {
    st.(current := Some(template.(id := id, createdAt := now, updatedAt := now, status := Draft)))
  }

  // ---------------------------------------------------------------------
  // The store as a state machine

  datatype Action =
    | Create(id: string, headerId: string, textId: string)
    | EditSubject(subject: string)
    | EditSection(sectionId: string, content: string)
    | Add(kind: SectionType, sectionId: string)
    | Remove(sectionId: string)
    | Rearrange(list: seq<Section>)
    | ChangeLayout(layout: Layout)
    | Save(status: Status, scheduledDate: Option<nat>)
    | Load(newsletter: Newsletter)
    | Delete(id: string)
    | UseTemplate(template: Newsletter, freshId: string)

  /** The actions that act on the current newsletter and so need one. */
  predicate NeedsCurrent(a: Action) {
    a.EditSubject? || a.EditSection? || a.Add? || a.Remove? || a.Rearrange? || a.ChangeLayout? || a.Save?
  }

  function Step(st: State, a: Action, now: nat): State {
    match a
    case Create(id, h, t) => CreateNewsletter(st, id, h, t, now)
    case EditSubject(s) => UpdateSubject(st, s, now)
    case EditSection(id, c) => UpdateSection(st, id, c, now)
    case Add(k, id) => AddSection(st, k, id, now)
    case Remove(id) => RemoveSection(st, id, now)
    case Rearrange(l) => ReorderSections(st, l, now)
    case ChangeLayout(l) => SetLayout(st, l, now)
    case Save(s, d) => SaveNewsletter(st, s, d, now)
    case Load(n) => LoadNewsletter(st, n)
    case Delete(id) => DeleteNewsletter(st, id)
    case UseTemplate(t, id) => LoadTemplate(st, t, id, now)
  }

  /** Every action that needs a current newsletter is the identity without one. */
  lemma NoCurrentNoChange(st: State, a: Action, now: nat)
    requires st.current.None? && NeedsCurrent(a)
    ensures Step(st, a, now) == st
  {
  }

  /** Every action on an existing current newsletter stamps `updatedAt`
      with the clock, so `updatedAt` never decreases while the clock does not. */
  lemma EditsStampUpdatedAt(st: State, a: Action, now: nat)
    requires st.current.Some? && NeedsCurrent(a)
    ensures Step(st, a, now).current.Some?
    ensures Step(st, a, now).current.value.updatedAt == now
  {
  }

  /** The store invariant: the current newsletter and every saved one has
      orders 0..N-1, and the saved collection has at most one entry per id. */
  predicate Valid(st: State) {
    && (st.current.Some? ==> Contiguous(st.current.value.sections))
    && (forall i :: 0 <= i < |st.saved| ==> Contiguous(st.saved[i].sections))
    && UniqueIds(st.saved)
  }

  /** Newsletters brought in from outside (loaded or used as a template)
      must themselves have orders 0..N-1. */
  predicate Admissible(a: Action) {
    match a
    case Load(n) => Contiguous(n.sections)
    case UseTemplate(t, _) => Contiguous(t.sections)
    case _ => true
  }

  lemma StepKeepsValid(st: State, a: Action, now: nat)
    requires Valid(st) && Admissible(a)
    ensures Valid(Step(st, a, now))
  {
    var st' := Step(st, a, now);
    match a
    case Save(s, d) =>
      if st.current.Some? {
        var x := st'.current.value;
        forall i | 0 <= i < |st'.saved|
          ensures Contiguous(st'.saved[i].sections)
        {
          if HasId(st.saved, x.id) {
            var r := ReplaceById(st.saved, x);
            assert st'.saved == Upsert(st.saved, x);
            assert st'.saved == r;
          } else {
            assert st'.saved == st.saved + [x];
          }
        }
      }
    case Delete(id) =>
      forall i | 0 <= i < |st'.saved|
        ensures Contiguous(st'.saved[i].sections)
      {
        assert st'.saved[i] in st.saved;
      }
    case _ =>
  }

  datatype Event = Event(action: Action, now: nat)

  function Run(st: State, events: seq<Event>): State
    decreases |events|
  {
    if events == [] then st
    else Run(Step(st, events[0].action, events[0].now), events[1..])
  }

  /** Any run of admissible actions keeps the store invariant: in
      particular, after any sequence of additions and removals the current
      orders are exactly 0..N-1. */
  lemma {:induction false} RunKeepsValid(st: State, events: seq<Event>)
    requires Valid(st)
    requires forall i :: 0 <= i < |events| ==> Admissible(events[i].action)
    ensures Valid(Run(st, events))
    decreases |events|
  {
    if events != [] {
      StepKeepsValid(st, events[0].action, events[0].now);
      RunKeepsValid(Step(st, events[0].action, events[0].now), events[1..]);
    }
  }

  /** The store starts out valid (nothing current, nothing saved), so by
      `RunKeepsValid` every admissible run from `Initial` stays valid. */
  lemma InitialValid()
    ensures Valid(Initial)
  {
  }

  /** Saving twice (say as a draft, then as scheduled) updates the single
      saved entry in place. */
  lemma SaveTwiceKeepsOneEntry(st: State, s1: Status, d1: Option<nat>, t1: nat, s2: Status, d2: Option<nat>, t2: nat)
    requires st.current.Some?
    ensures var st1 := SaveNewsletter(st, s1, d1, t1);
      var st2 := SaveNewsletter(st1, s2, d2, t2);
      && |st2.saved| == |st1.saved|
      && Lookup(st2.saved, st.current.value.id) == st2.current
      && st2.current.value.status == s2 && st2.current.value.scheduledDate == d2
  {
  }

  /** Loading a saved newsletter and saving it again does not grow the collection. */
  lemma LoadSavedThenSave(st: State, i: nat, status: Status, d: Option<nat>, now: nat)
    requires i < |st.saved|
    ensures |SaveNewsletter(LoadNewsletter(st, st.saved[i]), status, d, now).saved| == |st.saved|
  {
    assert HasId(st.saved, st.saved[i].id);
  }
}
