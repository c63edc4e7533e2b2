/** The dashboard's card grid: while a drag is in progress it renders its
    children in the previewed card order, and it drops the preview once
    the stored layout has caught up with it. Children are either cards,
    identified by a `cardId`, or other nodes; `key` tells nodes apart. */
module DraggableGrid {
  import opened Common
  import LayoutState

  datatype Child = Card(id: string, key: nat) | Plain(key: nat)

  /** A JavaScript `Map<string, ReactNode>`: entries in insertion order. */
  type Entries = seq<(string, Child)>

  function Keys(m: Entries): (ks: seq<string>)
    ensures |ks| == |m| && forall i :: 0 <= i < |m| ==> ks[i] == m[i].0
  {
    seq(|m|, i requires 0 <= i < |m| => m[i].0)
  }

  /** `map.get(k)`. */
  function MapGet(m: Entries, k: string): (r: Option<Child>)
    ensures r.None? <==> k !in Keys(m)
    ensures r.Some? ==> (k, r.value) in m
  {
    if m == [] then None
    else if m[0].0 == k then Some(m[0].1)
    else MapGet(m[1..], k)
  }

  /** `map.set(k, v)`: a present key keeps its place and takes the new
      value; a new key goes last. */
  function MapSet(m: Entries, k: string, v: Child): (r: Entries)
    ensures k !in Keys(m) ==> r == m + [(k, v)]
    ensures k in Keys(m) ==> Keys(r) == Keys(m)
    ensures MapGet(r, k) == Some(v)
  {
    if m == [] then [(k, v)]
    else if m[0].0 == k then [(k, v)] + m[1..]
    else [m[0]] + MapSet(m[1..], k, v)
  }

  /** The map the first loop builds: each card under its id, a later card
      with the same id replacing the earlier one. */
  function CardMap(items: seq<Child>): Entries
  {
    if items == [] then []
    else
      var m := CardMap(items[..|items| - 1]);
      var c := items[|items| - 1];
      if c.Card? then MapSet(m, c.id, c) else m
  }

  /** `rest`: the children that are not cards, in order. */
  function Rest(items: seq<Child>): (r: seq<Child>)
    ensures forall c :: c in r <==> c in items && c.Plain?
  {
    if items == [] then []
    else
      var c := items[|items| - 1];
      Rest(items[..|items| - 1]) + (if c.Plain? then [c] else [])
  }

  /** The cards, in order. */
  function Cards(items: seq<Child>): (r: seq<Child>)
    ensures forall c :: c in r <==> c in items && c.Card?
  {
    if items == [] then []
    else
      var c := items[|items| - 1];
      Cards(items[..|items| - 1]) + (if c.Card? then [c] else [])
  }

  function Ids(cards: seq<Child>): (ids: seq<string>)
    requires forall c :: c in cards ==> c.Card?
    ensures |ids| == |cards| && forall i :: 0 <= i < |cards| ==> ids[i] == cards[i].id
  {
    seq(|cards|, i requires 0 <= i < |cards| => cards[i].id)
  }

  /** No two cards share an id. */
  predicate UniqueCardIds(items: seq<Child>)
  {
    NoDuplicates(Ids(Cards(items)))
  }

  /** `previewOrder.map(id => map.get(id)).filter(Boolean)`. */
  function Picked(preview: seq<string>, m: Entries): seq<Child>
  {
    if preview == [] then []
    else
      var g := MapGet(m, preview[|preview| - 1]);
      Picked(preview[..|preview| - 1], m) + (if g.Some? then [g.value] else [])
  }

  /** The map's values whose keys the preview does not list, in map order. */
  function Remaining(m: Entries, preview: seq<string>): seq<Child>
  {
    if m == [] then []
    else
      var e := m[|m| - 1];
      Remaining(m[..|m| - 1], preview) + (if e.0 !in preview then [e.1] else [])
  }

  /** The ids of the preview that the map knows, in preview order. */
  function KnownIds(preview: seq<string>, m: Entries): seq<string>
  {
    if preview == [] then []
    else
      var id := preview[|preview| - 1];
      KnownIds(preview[..|preview| - 1], m) + (if id in Keys(m) then [id] else [])
  }

  /** `orderedChildren`: with no or an empty preview, the children as
      given; otherwise the previewed cards, the other cards, then the
      non-card children. */
  function Ordered(items: seq<Child>, preview: Option<seq<string>>): (r: seq<Child>)
    ensures preview.None? || preview.value == [] ==> r == items
  {
    if preview.None? || preview.value == [] then items
    else
      var m := CardMap(items);
      Picked(preview.value, m) + Remaining(m, preview.value) + Rest(items)
  }

  // ---------------------------------------------------------------------
  // The reordering as the component runs it

  /** The `useMemo` body, loop by loop. */
  method OrderedChildren(items: seq<Child>, preview: Option<seq<string>>) returns (r: seq<Child>)
    ensures r == Ordered(items, preview)
  {
    if preview.None? || |preview.value| == 0 {
      return items;
    }
    var order := preview.value;
    var m, rest := CollectCards(items);
    var ordered := PickPreviewed(order, m);
    ghost var picked := ordered;
    for k := 0 to |m|
      invariant ordered == picked + Remaining(m[..k], order)
    {
      assert m[..k + 1][..k] == m[..k];
      if m[k].0 !in order {
        ordered := ordered + [m[k].1];
      }
    }
    assert m[..|m|] == m;
    r := ordered + rest;
  }

  /** The first loop: cards into the map, other children into `rest`. */
  method CollectCards(items: seq<Child>) returns (m: Entries, rest: seq<Child>)
    ensures m == CardMap(items) && rest == Rest(items)
  {
    m, rest := [], [];
    for k := 0 to |items|
      invariant m == CardMap(items[..k]) && rest == Rest(items[..k])
    {
      assert items[..k + 1][..k] == items[..k];
      var child := items[k];
      if child.Card? {
        m := MapSet(m, child.id, child);
      } else {
        rest := rest + [child];
      }
    }
    assert items[..|items|] == items;
  }

  /** The `map`/`filter` over the preview order. */
  method PickPreviewed(order: seq<string>, m: Entries) returns (ordered: seq<Child>)
    ensures ordered == Picked(order, m)
  {
    ordered := [];
    for k := 0 to |order|
      invariant ordered == Picked(order[..k], m)
    {
      assert order[..k + 1][..k] == order[..k];
      var g := MapGet(m, order[k]);
      if g.Some? {
        ordered := ordered + [g.value];
      }
    }
    assert order[..|order|] == order;
  }

  // ---------------------------------------------------------------------
  // What the reordering promises

  /** The entries of a map built from cards with distinct ids. */
  function Pairs(cards: seq<Child>): (m: Entries)
    requires forall c :: c in cards ==> c.Card?
    ensures |m| == |cards| && forall i :: 0 <= i < |cards| ==> m[i] == (cards[i].id, cards[i])
  {
    seq(|cards|, i requires 0 <= i < |cards| => (cards[i].id, cards[i]))
  }

  /** With distinct card ids the map holds every card under its own id,
      in the order the cards come. */
  lemma {:induction false} CardMapOfUnique(items: seq<Child>)
    requires UniqueCardIds(items)
    ensures CardMap(items) == Pairs(Cards(items))
  {
    if items != [] {
      var init, c := items[..|items| - 1], items[|items| - 1];
      var cs := Cards(init);
      if c.Card? {
        assert Cards(items) == cs + [c];
        IdsAppend(cs, c);
        NoDuplicatesSplit(Ids(cs), [c.id]);
        CardMapOfUnique(init);
        KeysOfPairs(cs);
        PairsAppend(cs, c);
      } else {
        assert Cards(items) == cs;
        CardMapOfUnique(init);
      }
    }
  }

  lemma IdsAppend(cs: seq<Child>, c: Child)
    requires (forall x :: x in cs ==> x.Card?) && c.Card?
    ensures Ids(cs + [c]) == Ids(cs) + [c.id]
  {
  }

  lemma PairsAppend(cs: seq<Child>, c: Child)
    requires (forall x :: x in cs ==> x.Card?) && c.Card?
    ensures Pairs(cs + [c]) == Pairs(cs) + [(c.id, c)]
  {
  }

  lemma KeysOfPairs(cs: seq<Child>)
    requires forall x :: x in cs ==> x.Card?
    ensures Keys(Pairs(cs)) == Ids(cs)
  {
  }

  /** Looking up an id among cards with distinct ids finds the card with
      that id. */
  lemma {:induction false} MapGetPairs(cards: seq<Child>, c: Child)
    requires forall x :: x in cards ==> x.Card?
    requires NoDuplicates(Ids(cards)) && c in cards
    ensures MapGet(Pairs(cards), c.id) == Some(c)
  {
    var i :| 0 <= i < |cards| && cards[i] == c;
    var g := MapGet(Pairs(cards), c.id);
    assert c.id in Keys(Pairs(cards)) by {
      assert Keys(Pairs(cards))[i] == c.id;
    }
    var j :| 0 <= j < |cards| && Pairs(cards)[j] == (c.id, g.value);
    assert Ids(cards)[j] == Ids(cards)[i];
  }

  /** The picked children are the cards whose ids the preview lists, and
      they come in preview order with unknown ids skipped. */
  lemma {:induction false} PickedFollowsPreview(preview: seq<string>, cards: seq<Child>)
    requires forall x :: x in cards ==> x.Card?
    requires NoDuplicates(Ids(cards))
    ensures forall c :: c in Picked(preview, Pairs(cards)) <==> c in cards && c.id in preview
    ensures forall c :: c in Picked(preview, Pairs(cards)) ==> c.Card?
    ensures Ids(Picked(preview, Pairs(cards))) == KnownIds(preview, Pairs(cards))
  {
    var m := Pairs(cards);
    if preview != [] {
      var init, id := preview[..|preview| - 1], preview[|preview| - 1];
      PickedFollowsPreview(init, cards);
      assert preview == init + [id];
      PickedStep(init, id, cards);
    }
  }

  lemma PickedStep(init: seq<string>, id: string, cards: seq<Child>)
    requires forall x :: x in cards ==> x.Card?
    requires NoDuplicates(Ids(cards))
    requires forall c :: c in Picked(init, Pairs(cards)) <==> c in cards && c.id in init
    requires forall c :: c in Picked(init, Pairs(cards)) ==> c.Card?
    requires Ids(Picked(init, Pairs(cards))) == KnownIds(init, Pairs(cards))
    ensures var preview := init + [id];
      && (forall c :: c in Picked(preview, Pairs(cards)) <==> c in cards && c.id in preview)
      && (forall c :: c in Picked(preview, Pairs(cards)) ==> c.Card?)
      && Ids(Picked(preview, Pairs(cards))) == KnownIds(preview, Pairs(cards))
  {
    var m := Pairs(cards);
    var preview := init + [id];
    assert preview[..|preview| - 1] == init;
    var g := MapGet(m, id);
    var p := Picked(init, m);
    var extra := if g.Some? then [g.value] else [];
    assert Picked(preview, m) == p + extra;
    assert KnownIds(preview, m) == KnownIds(init, m) + (if id in Keys(m) then [id] else []);
    LookupById(cards, id);
    if g.Some? {
      forall c ensures c in p + extra <==> c in cards && c.id in preview {
        assert c in p + extra <==> c in p || c == g.value;
      }
      assert Ids(p + [g.value]) == Ids(p) + [id];
    } else {
      assert p + extra == p;
    }
  }

  /** Looking an id up among cards with distinct ids gives the card with
      that id, if there is one. */
  lemma LookupById(cards: seq<Child>, id: string)
    requires forall x :: x in cards ==> x.Card?
    requires NoDuplicates(Ids(cards))
    ensures var g := MapGet(Pairs(cards), id);
      && (g.Some? ==> g.value in cards && g.value.id == id)
      && (forall c :: c in cards && c.id == id ==> g == Some(c))
  {
    var m := Pairs(cards);
    var g := MapGet(m, id);
    forall c | c in cards && c.id == id ensures g == Some(c) {
      MapGetPairs(cards, c);
    }
    if g.Some? {
      var j :| 0 <= j < |cards| && m[j] == (id, g.value);
    }
  }

  /** The remaining children are the cards the preview does not list, in
      their original order. */
  lemma {:induction false} RemainingFacts(preview: seq<string>, cards: seq<Child>)
    requires forall x :: x in cards ==> x.Card?
    requires NoDuplicates(cards)
    ensures forall c :: c in Remaining(Pairs(cards), preview) <==> c in cards && c.id !in preview
    ensures NoDuplicates(Remaining(Pairs(cards), preview))
  {
    if cards != [] {
      var init, c := cards[..|cards| - 1], cards[|cards| - 1];
      assert cards == init + [c];
      assert Pairs(cards)[..|cards| - 1] == Pairs(init);
      assert NoDuplicates(init) by {
        forall i, j | 0 <= i < j < |init| ensures init[i] != init[j] {
          assert init[i] == cards[i] && init[j] == cards[j];
        }
      }
      RemainingFacts(preview, init);
      assert c !in init by {
        forall k | 0 <= k < |init| ensures init[k] != c {
          assert init[k] == cards[k];
        }
      }
      var r := Remaining(Pairs(init), preview);
      if c.id !in preview {
        NoDuplicatesConcat(r, [c]);
      }
    }
  }

  lemma {:induction false} PickedUnique(preview: seq<string>, cards: seq<Child>)
    requires forall x :: x in cards ==> x.Card?
    requires NoDuplicates(Ids(cards)) && NoDuplicates(preview)
    ensures NoDuplicates(Picked(preview, Pairs(cards)))
  {
    var m := Pairs(cards);
    if preview != [] {
      var init, id := preview[..|preview| - 1], preview[|preview| - 1];
      assert NoDuplicates(init) by {
        forall i, j | 0 <= i < j < |init| ensures init[i] != init[j] {
          assert init[i] == preview[i] && init[j] == preview[j];
        }
      }
      assert id !in init by {
        forall k | 0 <= k < |init| ensures init[k] != id {
          assert init[k] == preview[k];
        }
      }
      PickedUnique(init, cards);
      PickedFollowsPreview(init, cards);
      var g := MapGet(m, id);
      if g.Some? {
        var j :| 0 <= j < |cards| && m[j] == (id, g.value);
        NoDuplicatesConcat(Picked(init, m), [g.value]);
      }
    }
  }

  /** The cards have distinct ids, so as children they are distinct. */
  lemma CardsUnique(items: seq<Child>)
    requires UniqueCardIds(items)
    ensures NoDuplicates(Cards(items))
  {
    var cs := Cards(items);
    forall i, j | 0 <= i < j < |cs| ensures cs[i] != cs[j] {
      assert Ids(cs)[i] != Ids(cs)[j];
    }
  }

  lemma {:induction false} RestUnique(items: seq<Child>)
    requires NoDuplicates(items)
    ensures NoDuplicates(Rest(items))
  {
    if items != [] {
      var init, c := items[..|items| - 1], items[|items| - 1];
      assert NoDuplicates(init) by {
        forall i, j | 0 <= i < j < |init| ensures init[i] != init[j] {
          assert init[i] == items[i] && init[j] == items[j];
        }
      }
      RestUnique(init);
      assert c !in init by {
        forall k | 0 <= k < |init| ensures init[k] != c {
          assert init[k] == items[k];
        }
      }
      if c.Plain? {
        NoDuplicatesConcat(Rest(init), [c]);
      }
    }
  }

  /** The three parts together hold exactly the children, each once. */
  lemma PartsCoverChildren(items: seq<Child>, preview: seq<string>)
    requires NoDuplicates(items) && UniqueCardIds(items) && NoDuplicates(preview)
    ensures var m := Pairs(Cards(items));
      var parts := Picked(preview, m) + Remaining(m, preview) + Rest(items);
      && NoDuplicates(parts)
      && forall x :: x in parts <==> x in items
  {
    var cards := Cards(items);
    CardsUnique(items);
    var m := Pairs(cards);
    var p, q, s := Picked(preview, m), Remaining(m, preview), Rest(items);
    PickedFollowsPreview(preview, cards);
    PickedUnique(preview, cards);
    RemainingFacts(preview, cards);
    RestUnique(items);
    NoDuplicatesConcat(p, q);
    NoDuplicatesConcat(p + q, s);
  }

  /** With distinct children, distinct card ids and a preview without
      repeated ids, the reordering is a permutation of the children: the
      previewed cards first in preview order, the other cards next, the
      non-card children last. */
  lemma OrderedIsPermutation(items: seq<Child>, preview: seq<string>)
    requires NoDuplicates(items) && UniqueCardIds(items) && NoDuplicates(preview)
    ensures multiset(Ordered(items, Some(preview))) == multiset(items)
    ensures var m := Pairs(Cards(items));
      preview != [] ==>
        Ordered(items, Some(preview)) == Picked(preview, m) + Remaining(m, preview) + Rest(items)
  {
    CardMapOfUnique(items);
    if preview != [] {
      var m := Pairs(Cards(items));
      var parts := Picked(preview, m) + Remaining(m, preview) + Rest(items);
      assert Ordered(items, Some(preview)) == parts;
      PartsCoverChildren(items, preview);
      SameElementsSameMultiset(parts, items);
    }
  }

  // ---------------------------------------------------------------------
  // The preview state

  /** The effect's test: the preview holds the stored order element by
      element. */
  predicate MatchesStored(preview: seq<string>, stored: seq<string>)
  {
    |preview| == |stored| && forall i :: 0 <= i < |preview| ==> preview[i] == stored[i]
  }

  /** The element-wise test is sequence equality. */
  lemma MatchesStoredIff(preview: seq<string>, stored: seq<string>)
    ensures MatchesStored(preview, stored) <==> preview == stored
  {
  }

  /** The grid's state: the shared layout and the preview order. */
  class Grid {
    var layout: LayoutState.Layout
    var previewOrder: Option<seq<string>>

    predicate Valid()
      reads this
    {
      LayoutState.Normalized(layout)
    }

    constructor(layout: LayoutState.Layout)
      requires LayoutState.Normalized(layout)
      ensures Valid() && this.layout == layout && previewOrder.None?
    {
      this.layout := layout;
      previewOrder := None;
    }

    /** `onPreviewOrderChange`. */
    method OnPreviewOrderChange(order: seq<string>)
      modifies this
      ensures previewOrder == Some(order) && layout == old(layout)
    {
      previewOrder := Some(order);
    }

    /** `onOrderChange`: `updateLayout({ cardOrder: order })`. */
    method OnOrderChange(order: seq<string>)
      requires Valid()
      modifies this
      ensures Valid() && previewOrder == old(previewOrder)
      ensures layout == LayoutState.Merge(old(layout), OrderPatch(order))
      ensures order != [] ==> layout.cardOrder == order
    {
      LayoutState.MergeOverrides(layout, OrderPatch(order));
      layout := LayoutState.Merge(layout, OrderPatch(order));
    }

    /** The effect at lines 33-42: a preview equal to the stored order is
        dropped. */
    method SyncPreview()
      modifies this
      ensures layout == old(layout)
      ensures previewOrder.None? <==> old(previewOrder).None? || old(previewOrder).value == layout.cardOrder
      ensures previewOrder.Some? ==> previewOrder == old(previewOrder)
    {
      if previewOrder.None? {
        return;
      }
      MatchesStoredIff(previewOrder.value, layout.cardOrder);
      if MatchesStored(previewOrder.value, layout.cardOrder) {
        previewOrder := None;
      }
    }

    /** The rendered children. */
    method Render(items: seq<Child>) returns (r: seq<Child>)
      ensures r == Ordered(items, previewOrder)
    {
      r := OrderedChildren(items, previewOrder);
    }
  }

  function OrderPatch(order: seq<string>): LayoutState.Patch
  {
    LayoutState.EmptyPatch.(cardOrder := Some(LayoutState.StringsValue(order)))
  }

  /** A drop as the grid sees it: the sortable session previews the end
      order and then commits it; once the layout holds it the preview is
      dropped and the children render in their own order. */
  method DropScenario(layout: LayoutState.Layout, endOrder: seq<string>, items: seq<Child>)
    returns (rendered: seq<Child>)
    requires LayoutState.Normalized(layout) && endOrder != []
    ensures rendered == items
  {
    var g := new Grid(layout);
    g.OnPreviewOrderChange(endOrder);
    g.OnOrderChange(endOrder);
    g.SyncPreview();
    rendered := g.Render(items);
  }
}
