/** The editor's drag-and-drop move and the sort-by-order used both by the
    editor's display list and by the renderer.

    `Array.prototype.sort` is required to be stable (ECMA-262, 10th
    edition (2019) and later, clause "Array.prototype.sort"), so the sort here is a stable insertion sort on
    the `order` key, specified by sortedness, permutation and stability. */
module Reorder {
  import opened Types
  import Seqs
  import NewsletterStore

  // ---------------------------------------------------------------------
  // The splice move of `handleDragEnd`

  /** `items.splice(from, 1)` followed by `items.splice(to, 0, moved)`. */
  function Move<T>(s: seq<T>, from: nat, to: nat): (r: seq<T>)
    requires from < |s| && to < |s|
    ensures |r| == |s|
    ensures multiset(r) == multiset(s)
    ensures r[to] == s[from]
    ensures Seqs.RemoveAt(r, to) == Seqs.RemoveAt(s, from)
  {
    var rest := Seqs.RemoveAt(s, from);
    Seqs.RemoveAtMultiset(s, from);
    Seqs.InsertAtMultiset(rest, to, s[from]);
    Seqs.RemoveInserted(rest, to, s[from]);
    Seqs.InsertAt(rest, to, s[from])
  }

  /** The moved element and the relative order of the others determine the
      result: any list with those two properties is the move. */
  lemma MoveUnique<T>(s: seq<T>, from: nat, to: nat, r: seq<T>)
    requires from < |s| && to < |s| && |r| == |s|
    requires r[to] == s[from] && Seqs.RemoveAt(r, to) == Seqs.RemoveAt(s, from)
    ensures r == Move(s, from, to)
  {
    Seqs.InsertRemoved(r, to);
  }

  /** Dropping an item where it was picked up changes nothing. */
  lemma MoveInPlace<T>(s: seq<T>, i: nat)
    requires i < |s|
    ensures Move(s, i, i) == s
  {
    Seqs.InsertRemoved(s, i);
  }

  /** Dragging the item back undoes a move. */
  lemma MoveBack<T>(s: seq<T>, from: nat, to: nat)
    requires from < |s| && to < |s|
    ensures Move(Move(s, from, to), to, from) == s
  {
    var r := Move(s, from, to);
    MoveUnique(r, to, from, s);
  }

  // ---------------------------------------------------------------------
  // Stable sort by `order`

  /** The sections carrying a given `order`, in list order. */
  function WithOrder(ss: seq<Section>, k: int): seq<Section> {
    if ss == [] then []
    else (if ss[0].order == k then [ss[0]] else []) + WithOrder(ss[1..], k)
  }

  /** Stability: sections that tie on `order` keep their relative order. */
  ghost predicate StableWrt(r: seq<Section>, s: seq<Section>) {
    forall k :: WithOrder(r, k) == WithOrder(s, k)
  }

  /** Puts `x` in front of the first section whose order is not smaller. */
  function Insert(x: Section, ss: seq<Section>): (r: seq<Section>)
    ensures multiset(r) == multiset(ss) + multiset{x}
    ensures |r| == |ss| + 1
  {
    if ss == [] || x.order <= ss[0].order then [x] + ss
    else
      assert ss == [ss[0]] + ss[1..];
      [ss[0]] + Insert(x, ss[1..])
  }

  lemma {:induction false} InsertSorted(x: Section, ss: seq<Section>)
    requires SortedByOrder(ss)
    ensures SortedByOrder(Insert(x, ss))
  {
    if ss != [] && x.order > ss[0].order {
      var rest := Insert(x, ss[1..]);
      InsertSorted(x, ss[1..]);
      InsertLowerBound(x, ss[1..], ss[0].order);
      assert Insert(x, ss) == [ss[0]] + rest;
      SortedCons(ss[0], rest);
    }
  }

  /** Inserting a section no lower than a bound into a list no lower than it
      keeps every order at or above the bound. */
  lemma {:induction false} InsertLowerBound(x: Section, ss: seq<Section>, lo: int)
    requires x.order >= lo && forall j :: 0 <= j < |ss| ==> ss[j].order >= lo
    ensures forall j :: 0 <= j < |Insert(x, ss)| ==> Insert(x, ss)[j].order >= lo
  {
    if ss != [] && x.order > ss[0].order {
      InsertLowerBound(x, ss[1..], lo);
      var rest := Insert(x, ss[1..]);
      assert Insert(x, ss) == [ss[0]] + rest;
    }
  }

  /** A sorted list stays sorted under a head no greater than its elements. */
  lemma SortedCons(h: Section, t: seq<Section>)
    requires SortedByOrder(t) && forall j :: 0 <= j < |t| ==> h.order <= t[j].order
    ensures SortedByOrder([h] + t)
  {
    var r := [h] + t;
    forall i, j | 0 <= i < j < |r| ensures r[i].order <= r[j].order {
      assert r[j] == t[j - 1];
      if i > 0 { assert r[i] == t[i - 1]; }
    }
  }

  lemma {:induction false} InsertGroups(x: Section, ss: seq<Section>, k: int)
    ensures WithOrder(Insert(x, ss), k) == (if x.order == k then [x] else []) + WithOrder(ss, k)
  {
    if ss == [] || x.order <= ss[0].order {
      assert Insert(x, ss) == [x] + ss;
      WithOrderCons(x, ss, k);
    } else {
      InsertGroups(x, ss[1..], k);
      GroupsBehind(ss[0], x, Insert(x, ss[1..]), ss[1..], k);
      assert Insert(x, ss) == [ss[0]] + Insert(x, ss[1..]);
      assert ss == [ss[0]] + ss[1..];
    }
  }

  /** A head sorting strictly before `x` joins group `k` only when `x` does
      not, so putting it in front of both sides keeps `x`'s group first. */
  lemma GroupsBehind(h: Section, x: Section, rest: seq<Section>, tail: seq<Section>, k: int)
    requires h.order < x.order
    requires WithOrder(rest, k) == (if x.order == k then [x] else []) + WithOrder(tail, k)
    ensures WithOrder([h] + rest, k) == (if x.order == k then [x] else []) + WithOrder([h] + tail, k)
  {
    WithOrderCons(h, rest, k);
    WithOrderCons(h, tail, k);
    if h.order == k {
      assert WithOrder(rest, k) == WithOrder(tail, k);
    } else {
      assert WithOrder([h] + rest, k) == WithOrder(rest, k);
    }
  }

  lemma WithOrderCons(h: Section, t: seq<Section>, k: int)
    ensures WithOrder([h] + t, k) == (if h.order == k then [h] else []) + WithOrder(t, k)
  {
    assert ([h] + t)[0] == h && ([h] + t)[1..] == t;
  }

  /** `sections.sort((a, b) => a.order - b.order)` as a stable insertion sort. */
  function SortByOrder(ss: seq<Section>): (r: seq<Section>)
    ensures SortedByOrder(r)
    ensures multiset(r) == multiset(ss)
    ensures |r| == |ss|
    ensures StableWrt(r, ss)
  {
    if ss == [] then []
    else
      var rest := SortByOrder(ss[1..]);
      assert ss == [ss[0]] + ss[1..];
      InsertSorted(ss[0], rest);
      assert StableWrt(Insert(ss[0], rest), ss) by {
        forall k { InsertGroups(ss[0], rest, k); }
      }
      Insert(ss[0], rest)
  }

  /** Sorting a list that is already in order changes nothing. */
  lemma {:induction false} SortSorted(ss: seq<Section>)
    requires SortedByOrder(ss)
    ensures SortByOrder(ss) == ss
  {
    if ss != [] {
      assert SortedByOrder(ss[1..]);
      SortSorted(ss[1..]);
    }
  }

  /** Sortedness and stability pin the result down: any sorted list with the
      same per-order groups as `ss` is the sort of `ss`. */
  lemma {:induction false} SortedStableIsSort(r: seq<Section>, ss: seq<Section>)
    requires SortedByOrder(r) && StableWrt(r, ss)
    ensures r == SortByOrder(ss)
  {
    var q := SortByOrder(ss);
    SortedGroupsEqual(r, q);
  }

  lemma {:induction false} SortedGroupsEqual(a: seq<Section>, b: seq<Section>)
    requires SortedByOrder(a) && SortedByOrder(b)
    requires forall k :: WithOrder(a, k) == WithOrder(b, k)
    ensures a == b
    decreases |a| + |b|
  {
    if a != [] { assert WithOrder(b, a[0].order) != []; }
    if b != [] { assert WithOrder(a, b[0].order) != []; }
    if a != [] && b != [] {
      // the smallest order present heads both lists
      var ka, kb := a[0].order, b[0].order;
      if ka < kb {
        WithOrderAllAbove(b, ka);
        assert false;
      } else if kb < ka {
        WithOrderAllAbove(a, kb);
        assert false;
      }
      assert WithOrder(a, ka)[0] == a[0] && WithOrder(b, ka)[0] == b[0];
      assert SortedByOrder(a[1..]) && SortedByOrder(b[1..]);
      forall k ensures WithOrder(a[1..], k) == WithOrder(b[1..], k) {
        if k == ka {
          assert WithOrder(a[1..], k) == WithOrder(a, k)[1..];
          assert WithOrder(b[1..], k) == WithOrder(b, k)[1..];
        } else {
          assert WithOrder(a, k) == WithOrder(a[1..], k);
          assert WithOrder(b, k) == WithOrder(b[1..], k);
        }
      }
      SortedGroupsEqual(a[1..], b[1..]);
      assert a == [a[0]] + a[1..] && b == [b[0]] + b[1..];
    }
  }

  /** In a sorted list headed by order `k0`, no section has an order below `k0`. */
  lemma {:induction false} WithOrderAllAbove(ss: seq<Section>, k: int)
    requires SortedByOrder(ss) && ss != [] && k < ss[0].order
    ensures WithOrder(ss, k) == []
    decreases |ss|
  {
    if |ss| > 1 {
      assert SortedByOrder(ss[1..]);
      WithOrderAllAbove(ss[1..], k);
    }
  }

  // ---------------------------------------------------------------------
  // The editor

  /** The list the editor shows: the current sections sorted by `order`. */
  function DisplayList(n: Newsletter): (r: seq<Section>)
    ensures SortedByOrder(r) && multiset(r) == multiset(n.sections) && StableWrt(r, n.sections)
  {
    SortByOrder(n.sections)
  }

  /** On a newsletter whose orders are 0..N-1 the display list is the
      section list itself, so drag indices are section indices. */
  lemma DisplayListOfContiguous(n: Newsletter)
    requires Contiguous(n.sections)
    ensures DisplayList(n) == n.sections
  {
    ContiguousIsSorted(n.sections);
    SortSorted(n.sections);
  }

  /** `handleDragEnd(result)`: without a destination nothing happens;
      otherwise the current sections (the drag buffer is always empty) are
      spliced and handed to `reorderSections`. */
  function HandleDragEnd(st: NewsletterStore.State, source: nat, destination: Option<nat>, now: nat): (st': NewsletterStore.State)
    requires st.current.Some? ==> source < |st.current.value.sections|
    requires st.current.Some? && destination.Some? ==> destination.value < |st.current.value.sections|
    ensures destination.None? || st.current.None? ==> st' == st
    ensures st.current.Some? && destination.Some? ==> st'.saved == st.saved && st'.current.Some?
    ensures st.current.Some? && destination.Some? ==>
      var n, n' := st.current.value, st'.current.value;
      && n' == n.(sections := n'.sections, updatedAt := now)
      && Contiguous(n'.sections)
      && SamePayloads(n'.sections, Move(n.sections, source, destination.value))
      && Payload(n'.sections[destination.value]) == Payload(n.sections[source])
  {
    if destination.None? || st.current.None? then st
    else
      var items := Move(st.current.value.sections, source, destination.value);
      NewsletterStore.ReorderSections(st, items, now)
  }

  /** After a drop, the list the editor shows is the moved list, renumbered. */
  lemma DragThenDisplay(st: NewsletterStore.State, source: nat, destination: nat, now: nat)
    requires st.current.Some?
    requires source < |st.current.value.sections| && destination < |st.current.value.sections|
    ensures var st' := HandleDragEnd(st, source, Some(destination), now);
      && st'.current.Some?
      && DisplayList(st'.current.value) == Renumber(Move(st.current.value.sections, source, destination))
  {
    var st' := HandleDragEnd(st, source, Some(destination), now);
    var moved := Move(st.current.value.sections, source, destination);
    DisplayListOfContiguous(st'.current.value);
    RenumberSamePayloads(st'.current.value.sections, moved);
    RenumberContiguous(st'.current.value.sections);
  }

  /** Reordering to a list and then reading the sections in display order
      yields exactly that list, up to the renumbered `order` fields. */
  lemma ReorderThenDisplay(st: NewsletterStore.State, list: seq<Section>, now: nat)
    requires st.current.Some?
    ensures var st' := NewsletterStore.ReorderSections(st, list, now);
      SamePayloads(DisplayList(st'.current.value), list)
  {
    var st' := NewsletterStore.ReorderSections(st, list, now);
    DisplayListOfContiguous(st'.current.value);
  }
}
