/** The drag-and-drop ordering of the dashboard cards: a drag session that
    records the card order when a drag starts, previews intermediate
    orders, and on drop commits either the order the library arranged
    (sort mode) or the start order with two cards exchanged (swap mode).
    The container is seen through the sequence of its children's card ids;
    pointer geometry is a parameter. */
module Sortable {
  import opened Common

  /** `SortableDragMode`. */
  datatype Mode = SortMode | SwapMode

  /** A JavaScript truthiness test on a nullable string id: null and ""
      are false. */
  predicate Truthy(id: Option<string>)
  {
    id.Some? && id.value != ""
  }

  // ---------------------------------------------------------------------
  // Orders

  /** `Array.prototype.indexOf`: the first position of x, or -1. */
  function IndexOf(xs: seq<string>, x: string): (i: int)
    ensures -1 <= i < |xs|
    ensures i < 0 <==> x !in xs
    ensures i >= 0 ==> xs[i] == x && forall k :: 0 <= k < i ==> xs[k] != x
  {
    if xs == [] then -1
    else if xs[0] == x then 0
    else
      var j := IndexOf(xs[1..], x);
      if j < 0 then -1 else j + 1
  }

  /** In a sequence without duplicates the position of an element is its
      only position. */
  lemma IndexOfUnique(xs: seq<string>, i: nat)
    requires NoDuplicates(xs) && i < |xs|
    ensures IndexOf(xs, xs[i]) == i
  {
    var j := IndexOf(xs, xs[i]);
    assert xs[j] == xs[i];
  }

  /** `swapInOrder(order, a, b)`: a copy of the order with the first
      occurrences of a and b exchanged; the order itself when a = b or
      either is absent. */
  function SwapInOrder(order: seq<string>, a: string, b: string): (r: seq<string>)
    ensures |r| == |order| && multiset(r) == multiset(order)
    ensures a == b || a !in order || b !in order ==> r == order
    ensures a != b && a in order && b in order ==>
      var ai, bi := IndexOf(order, a), IndexOf(order, b);
      && r[ai] == b && r[bi] == a
      && forall k :: 0 <= k < |order| && k != ai && k != bi ==> r[k] == order[k]
  {
    if a == b then order
    else
      var ai, bi := IndexOf(order, a), IndexOf(order, b);
      if ai < 0 || bi < 0 then order
      else
        var next := order[ai := b];
        assert next[bi] == b;
        next[bi := a]
  }

  /** Exchanging a with b is exchanging b with a. */
  lemma SwapInOrderSymmetric(order: seq<string>, a: string, b: string)
    ensures SwapInOrder(order, a, b) == SwapInOrder(order, b, a)
  {
    if a != b && a in order && b in order {
      var r, s := SwapInOrder(order, a, b), SwapInOrder(order, b, a);
      forall k | 0 <= k < |order| ensures r[k] == s[k] {
      }
    }
  }

  /** A swap keeps an order free of duplicates. */
  lemma SwapInOrderKeepsUnique(order: seq<string>, a: string, b: string)
    requires NoDuplicates(order)
    ensures NoDuplicates(SwapInOrder(order, a, b))
  {
    NoDuplicatesOfSubMultiset(order, SwapInOrder(order, a, b));
  }

  /** On an order without duplicates, swapping the same two cards twice
      restores the order. */
  lemma SwapInOrderInvolutive(order: seq<string>, a: string, b: string)
    requires NoDuplicates(order)
    ensures SwapInOrder(SwapInOrder(order, a, b), a, b) == order
  {
    if a != b && a in order && b in order {
      var r := SwapInOrder(order, a, b);
      var ai, bi := IndexOf(order, a), IndexOf(order, b);
      SwapInOrderKeepsUnique(order, a, b);
      IndexOfUnique(r, ai);
      IndexOfUnique(r, bi);
      assert IndexOf(r, b) == ai && IndexOf(r, a) == bi;
      var s := SwapInOrder(r, a, b);
      forall k | 0 <= k < |order| ensures s[k] == order[k] {
      }
    }
  }

  /** `indexOf` in an extended sequence finds the same first occurrence. */
  lemma {:induction false} IndexOfAppend(xs: seq<string>, y: string, x: string)
    requires x in xs
    ensures IndexOf(xs + [y], x) == IndexOf(xs, x)
  {
    if xs[0] != x {
      assert (xs + [y])[1..] == xs[1..] + [y];
      IndexOfAppend(xs[1..], y, x);
    }
  }

  /** The stable order is `Array.from(new Set(startOrder))`: the start
      order with later repetitions dropped. */
  function StableOrder(start: seq<string>): seq<string>
  {
    Distinct(start)
  }

  /** The stable order holds each card of the start order once, in the
      order of their first occurrences. */
  lemma {:induction false} StableOrderKeepsFirstOccurrences(start: seq<string>)
    ensures forall x :: x in StableOrder(start) <==> x in start
    ensures NoDuplicates(StableOrder(start))
    ensures forall i, j :: 0 <= i < j < |StableOrder(start)| ==>
      IndexOf(start, StableOrder(start)[i]) < IndexOf(start, StableOrder(start)[j])
  {
    DistinctFacts(start);
    if start != [] {
      var init, last := start[..|start| - 1], start[|start| - 1];
      assert start == init + [last];
      StableOrderKeepsFirstOccurrences(init);
      var d := Distinct(init);
      forall x | x in d ensures IndexOf(start, x) == IndexOf(init, x) {
        IndexOfAppend(init, last, x);
      }
      if last !in d {
        assert IndexOf(start, last) == |init|;
        var e := d + [last];
        forall i, j | 0 <= i < j < |e| ensures IndexOf(start, e[i]) < IndexOf(start, e[j]) {
          assert e[i] in d;
          if j < |d| {
            assert e[i] == d[i] && e[j] == d[j];
          }
        }
      }
    }
  }

  /** A start order without duplicates is its own stable order. */
  lemma {:induction false} StableOrderOfUnique(start: seq<string>)
    requires NoDuplicates(start)
    ensures StableOrder(start) == start
  {
    if start != [] {
      var init, last := start[..|start| - 1], start[|start| - 1];
      StableOrderOfUnique(init);
      assert last !in init by {
        forall k | 0 <= k < |init| ensures init[k] != last {
          assert init[k] == start[k];
        }
      }
      assert start == init + [last];
    }
  }

  // ---------------------------------------------------------------------
  // The committed order

  /** Sort mode: the deduplicated container order when it holds as many
      cards as the stable order, otherwise the stable order. */
  function SortEndOrder(stable: seq<string>, container: seq<string>): (r: seq<string>)
    ensures r == Distinct(container) || r == stable
    ensures |r| == |stable|
  {
    var unique := Distinct(container);
    if |unique| == |stable| then unique else stable
  }

  /** When the library only reordered the cards of the start order, sort
      mode commits the container order, and it is a permutation of the
      stable order. */
  lemma SortCommitsRearrangement(start: seq<string>, container: seq<string>)
    requires NoDuplicates(start) && multiset(container) == multiset(start)
    ensures SortEndOrder(StableOrder(start), container) == container
    ensures multiset(container) == multiset(StableOrder(start))
  {
    NoDuplicatesOfSubMultiset(start, container);
    StableOrderOfUnique(start);
    StableOrderOfUnique(container);
    assert |container| == |multiset(container)| == |multiset(start)| == |start|;
  }

  /** Whatever the library left in the container, sort mode commits an
      order without duplicates of the stable order's length. */
  lemma SortEndOrderUnique(start: seq<string>, container: seq<string>)
    ensures NoDuplicates(SortEndOrder(StableOrder(start), container))
  {
    DistinctFacts(start);
    DistinctFacts(container);
  }

  /** The drop target in swap mode: with a pointer and an active card, the
      hover target, or else the card found under the pointer. */
  function DropTarget(pointer: bool, active: Option<string>, hover: Option<string>,
                      found: Option<string>): (r: Option<string>)
    ensures !pointer || !Truthy(active) ==> r.None?
    ensures pointer && Truthy(active) && hover.Some? ==> r == hover
  {
    if pointer && Truthy(active) then (if hover.Some? then hover else found) else None
  }

  /** Swap mode: the stable order unless there is a pointer, an active card
      and a different target, in which case those two are exchanged. */
  function SwapEndOrder(stable: seq<string>, pointer: bool, active: Option<string>,
                        target: Option<string>): (r: seq<string>)
    ensures multiset(r) == multiset(stable)
    ensures !pointer || !Truthy(active) || !Truthy(target) || target == active ==> r == stable
  {
    if !pointer || !Truthy(active) then stable
    else if !Truthy(target) || target == active then stable
    else SwapInOrder(stable, active.value, target.value)
  }

  /** A swap drop onto another card of the stable order exchanges exactly
      those two cards. */
  lemma SwapDropExchanges(stable: seq<string>, active: string, target: string)
    requires NoDuplicates(stable) && active in stable && target in stable
    requires active != target && active != "" && target != ""
    ensures var r := SwapEndOrder(stable, true, Some(active), Some(target));
      && r != stable
      && NoDuplicates(r)
      && forall k :: 0 <= k < |stable| ==>
           r[k] == (if stable[k] == active then target
                    else if stable[k] == target then active
                    else stable[k])
  {
    var r := SwapEndOrder(stable, true, Some(active), Some(target));
    var ai, bi := IndexOf(stable, active), IndexOf(stable, target);
    SwapInOrderKeepsUnique(stable, active, target);
    forall k | 0 <= k < |stable|
      ensures r[k] == (if stable[k] == active then target
                       else if stable[k] == target then active
                       else stable[k])
    {
      if stable[k] == active { IndexOfUnique(stable, k); }
      if stable[k] == target { IndexOfUnique(stable, k); }
    }
    assert r[ai] != stable[ai];
  }

  /** The order `onEnd` commits, from the session state at the drop. */
  function EndOrder(mode: Mode, start: Option<seq<string>>, container: seq<string>,
                    active: Option<string>, hover: Option<string>,
                    pointer: bool, found: Option<string>): seq<string>
  {
    var stable := StableOrder(if start.Some? then start.value else container);
    match mode
    case SortMode => SortEndOrder(stable, container)
    case SwapMode => SwapEndOrder(stable, pointer, active, DropTarget(pointer, active, hover, found))
  }

  /** Every committed order is free of duplicates; in swap mode it is a
      permutation of the stable order. */
  lemma EndOrderUnique(mode: Mode, start: Option<seq<string>>, container: seq<string>,
                       active: Option<string>, hover: Option<string>,
                       pointer: bool, found: Option<string>)
    ensures NoDuplicates(EndOrder(mode, start, container, active, hover, pointer, found))
    ensures var stable := StableOrder(if start.Some? then start.value else container);
      mode == SwapMode ==>
        multiset(EndOrder(mode, start, container, active, hover, pointer, found)) == multiset(stable)
  {
    var st := if start.Some? then start.value else container;
    StableOrderKeepsFirstOccurrences(st);
    match mode
    case SortMode => SortEndOrderUnique(st, container);
    case SwapMode =>
      var stable := StableOrder(st);
      var r := SwapEndOrder(stable, pointer, active, DropTarget(pointer, active, hover, found));
      NoDuplicatesOfSubMultiset(stable, r);
  }

  // ---------------------------------------------------------------------
  // `applyOrderToContainer`

  /** The position of the first card element with this id, moved to the end. */
  function AppendCard(container: seq<string>, id: string): (r: seq<string>)
    ensures multiset(r) == multiset(container)
    ensures id in container ==> r[|r| - 1] == id
  {
    var i := IndexOf(container, id);
    if i < 0 then container
    else
      assert container == container[..i] + [id] + container[i + 1..];
      container[..i] + container[i + 1..] + [id]
  }

  /** `applyOrderToContainer(order)`: each listed card, in order, appended. */
  function ApplyOrder(container: seq<string>, order: seq<string>): seq<string>
  {
    if order == [] then container
    else AppendCard(ApplyOrder(container, order[..|order| - 1]), order[|order| - 1])
  }

  /** Removing the first occurrence of an element from a sequence without
      duplicates removes every occurrence. */
  lemma RemoveFirstUnique(container: seq<string>, id: string)
    requires NoDuplicates(container) && id in container
    ensures var i := IndexOf(container, id);
      container[..i] + container[i + 1..] == Without(container, [id])
  {
    var i := IndexOf(container, id);
    var front, back := container[..i], container[i + 1..];
    assert container == front + [id] + back;
    WithoutSplit(front, [id], back, id);
    UniqueAbsentAfter(container, i);
    WithoutAbsent(front, id);
    WithoutAbsent(back, id);
  }

  /** In a sequence without duplicates an element does not recur after its position. */
  lemma UniqueAbsentAfter(xs: seq<string>, i: nat)
    requires NoDuplicates(xs) && i < |xs|
    ensures xs[i] !in xs[i + 1..]
  {
    var back := xs[i + 1..];
    forall k | 0 <= k < |back| ensures back[k] != xs[i] {
      assert back[k] == xs[i + 1 + k];
    }
  }

  lemma {:induction false} WithoutAbsent(xs: seq<string>, id: string)
    requires id !in xs
    ensures Without(xs, [id]) == xs
  {
    if xs != [] {
      WithoutAbsent(xs[1..], id);
      assert xs == [xs[0]] + xs[1..];
    }
  }

  lemma {:induction false} WithoutConcat(xs: seq<string>, ys: seq<string>, zs: seq<string>)
    ensures Without(xs + ys, zs) == Without(xs, zs) + Without(ys, zs)
  {
    if xs != [] {
      assert (xs + ys)[0] == xs[0];
      assert (xs + ys)[1..] == xs[1..] + ys;
      WithoutConcat(xs[1..], ys, zs);
      if xs[0] in zs {
        assert Without(xs + ys, zs) == Without(xs[1..] + ys, zs);
      } else {
        assert Without(xs + ys, zs) == [xs[0]] + Without(xs[1..] + ys, zs);
      }
    } else {
      assert xs + ys == ys;
    }
  }

  lemma WithoutSplit(front: seq<string>, mid: seq<string>, back: seq<string>, id: string)
    requires mid == [id]
    ensures Without(front + mid + back, [id]) == Without(front, [id]) + Without(back, [id])
  {
    WithoutConcat(front + mid, back, [id]);
    WithoutConcat(front, mid, [id]);
    assert Without(mid, [id]) == [];
  }

  /** When the container holds exactly the cards of an order without
      duplicates, applying the order leaves the container showing it. */
  lemma ApplyOrderShowsOrder(container: seq<string>, order: seq<string>)
    requires NoDuplicates(order) && multiset(container) == multiset(order)
    ensures ApplyOrder(container, order) == order
  {
    NoDuplicatesOfSubMultiset(order, container);
    forall x | x in order ensures x in container {
      assert x in multiset(order);
    }
    ApplyOrderPrefix(container, order, |order|);
    assert order[..|order|] == order;
    forall x | x in container ensures x in order {
      assert x in multiset(container);
    }
    WithoutAll(container, order);
  }

  /** After the first k cards of the order, the container holds the other
      cards in their old order, followed by those k. */
  lemma {:induction false} ApplyOrderPrefix(container: seq<string>, order: seq<string>, k: nat)
    requires NoDuplicates(order) && NoDuplicates(container)
    requires forall x :: x in order ==> x in container
    requires k <= |order|
    ensures ApplyOrder(container, order[..k]) == Without(container, order[..k]) + order[..k]
  {
    if k == 0 {
      WithoutNothing(container);
    } else {
      ApplyOrderPrefix(container, order, k - 1);
      var pre, id := order[..k - 1], order[k - 1];
      PrefixStep(order, k);
      ApplyOrderLast(container, order, k);
      ApplyOrderStep(container, pre, id);
      AppendAssociative(Without(container, order[..k]), pre, [id]);
    }
  }

  lemma ApplyOrderLast(container: seq<string>, order: seq<string>, k: nat)
    requires 0 < k <= |order|
    ensures ApplyOrder(container, order[..k]) == AppendCard(ApplyOrder(container, order[..k - 1]), order[k - 1])
  {
    assert order[..k][..k - 1] == order[..k - 1];
  }

  /** The first k elements are the first k - 1 and the k-th, which is not
      among them. */
  lemma PrefixStep(order: seq<string>, k: nat)
    requires NoDuplicates(order) && 0 < k <= |order|
    ensures order[..k] == order[..k - 1] + [order[k - 1]]
    ensures order[..k][..k - 1] == order[..k - 1]
    ensures order[k - 1] !in order[..k - 1]
  {
    assert order[..k] == order[..k - 1] + [order[k - 1]];
    var p := order[..k - 1];
    forall j | 0 <= j < |p| ensures p[j] != order[k - 1] {
      assert p[j] == order[j];
    }
  }

  lemma {:induction false} WithoutAll(xs: seq<string>, ys: seq<string>)
    requires forall x :: x in xs ==> x in ys
    ensures Without(xs, ys) == []
  {
    if xs != [] {
      WithoutAll(xs[1..], ys);
    }
  }

  lemma WithoutNothing(xs: seq<string>)
    ensures Without(xs, []) == xs
  {
    if xs != [] {
      WithoutNothing(xs[1..]);
      assert xs == [xs[0]] + xs[1..];
    }
  }

  lemma ApplyOrderStep(container: seq<string>, pre: seq<string>, id: string)
    requires NoDuplicates(container) && id in container && id !in pre
    ensures AppendCard(Without(container, pre) + pre, id) == Without(container, pre + [id]) + pre + [id]
  {
    var w := Without(container, pre);
    WithoutMembership(container, pre);
    NoDuplicatesOfWithout(container, pre);
    AppendCardAfter(w, pre, id);
    WithoutTwice(container, pre, id);
  }

  /** Appending a card that occurs once, and only in front of `pre`. */
  lemma AppendCardAfter(w: seq<string>, pre: seq<string>, id: string)
    requires NoDuplicates(w) && id in w
    ensures AppendCard(w + pre, id) == Without(w, [id]) + pre + [id]
  {
    var c := w + pre;
    IndexOfAppendSeq(w, pre, id);
    var i := IndexOf(w, id);
    var x, y := w[..i], w[i + 1..];
    assert c[..i] == x;
    assert c[i + 1..] == y + pre;
    assert AppendCard(c, id) == x + (y + pre) + [id];
    AppendAssociative(x, y, pre);
    RemoveFirstUnique(w, id);
  }

  lemma {:induction false} WithoutTwice(xs: seq<string>, pre: seq<string>, id: string)
    ensures Without(Without(xs, pre), [id]) == Without(xs, pre + [id])
  {
    if xs != [] {
      WithoutTwice(xs[1..], pre, id);
      assert xs == [xs[0]] + xs[1..];
      if xs[0] !in pre {
        assert Without(xs, pre) == [xs[0]] + Without(xs[1..], pre);
        assert ([xs[0]] + Without(xs[1..], pre))[1..] == Without(xs[1..], pre);
      }
    }
  }

  lemma {:induction false} NoDuplicatesOfWithout(xs: seq<string>, ys: seq<string>)
    requires NoDuplicates(xs)
    ensures NoDuplicates(Without(xs, ys))
  {
    if xs != [] {
      NoDuplicatesOfWithout(xs[1..], ys);
      assert NoDuplicates(xs[1..]) by {
        forall i, j | 0 <= i < j < |xs[1..]| ensures xs[1..][i] != xs[1..][j] {
          assert xs[1..][i] == xs[i + 1] && xs[1..][j] == xs[j + 1];
        }
      }
      if xs[0] !in ys {
        WithoutMembership(xs[1..], ys);
        assert xs[0] !in xs[1..] by {
          forall k | 0 <= k < |xs[1..]| ensures xs[1..][k] != xs[0] {
            assert xs[1..][k] == xs[k + 1];
          }
        }
        var t := Without(xs[1..], ys);
        forall i, j | 0 <= i < j < |[xs[0]] + t| ensures ([xs[0]] + t)[i] != ([xs[0]] + t)[j] {
          if i == 0 {
            assert ([xs[0]] + t)[j] == t[j - 1];
          } else {
            assert ([xs[0]] + t)[i] == t[i - 1] && ([xs[0]] + t)[j] == t[j - 1];
          }
        }
      }
    }
  }

  lemma {:induction false} IndexOfAppendSeq(xs: seq<string>, ys: seq<string>, x: string)
    requires x in xs
    ensures IndexOf(xs + ys, x) == IndexOf(xs, x)
  {
    if xs[0] != x {
      assert (xs + ys)[1..] == xs[1..] + ys;
      IndexOfAppendSeq(xs[1..], ys, x);
    }
  }

  // ---------------------------------------------------------------------
  // The drag session

  /** The closure state of one `useSortable` effect: the drag flags, the
      container's card order, and the orders handed to `onPreviewOrderChange`
      and `onOrderChange`, with the coalescing flag of the preview sync and
      the animation frames it has requested and that have not yet run. */
  class DragSession {
    const mode: Mode
    var container: seq<string>
    var isDragging: bool
    var dragStartOrder: Option<seq<string>>
    var draggedCardId: Option<string>
    var hoverTargetId: Option<string>
    var previews: seq<seq<string>>
    var commits: seq<seq<string>>
    var syncScheduled: bool
    var framesQueued: nat

    /** A hover target is only held in swap mode, is a non-empty id and is
        never the dragged card. */
    predicate HoverValid()
      reads this
    {
      hoverTargetId.Some? ==>
        mode == SwapMode && hoverTargetId.value != "" && hoverTargetId != draggedCardId
    }

    /** Preview frames are only requested in sort mode, and a set flag
        always has a frame behind it. */
    predicate SyncValid()
      reads this
    {
      (framesQueued > 0 ==> mode == SortMode) && (syncScheduled ==> framesQueued > 0)
    }

    constructor(mode: Mode, container: seq<string>)
      ensures this.mode == mode && this.container == container
      ensures !isDragging && dragStartOrder.None? && draggedCardId.None? && hoverTargetId.None?
      ensures previews == [] && commits == []
      ensures !syncScheduled && framesQueued == 0
      ensures HoverValid() && SyncValid()
    {
      this.mode := mode;
      this.container := container;
      isDragging := false;
      dragStartOrder := None;
      draggedCardId := None;
      hoverTargetId := None;
      previews := [];
      commits := [];
      syncScheduled := false;
      framesQueued := 0;
    }

    /** `setHoverTarget(nextId)`: only in swap mode, only a non-empty id of
        a card other than the dragged one that is in the container. */
    method SetHoverTarget(nextId: Option<string>)
      requires HoverValid()
      modifies this
      ensures HoverValid()
      ensures mode != SwapMode || !Truthy(nextId) || nextId == draggedCardId ==> hoverTargetId.None?
      ensures mode == SwapMode && Truthy(nextId) && nextId != draggedCardId ==>
        hoverTargetId == (if nextId == old(hoverTargetId) || nextId.value in container then nextId else None)
      ensures container == old(container) && isDragging == old(isDragging)
      ensures dragStartOrder == old(dragStartOrder) && draggedCardId == old(draggedCardId)
      ensures previews == old(previews) && commits == old(commits)
      ensures syncScheduled == old(syncScheduled) && framesQueued == old(framesQueued)
    {
      if mode != SwapMode {
        hoverTargetId := None;
        return;
      }
      if !Truthy(nextId) || nextId == draggedCardId {
        hoverTargetId := None;
        return;
      }
      if nextId == hoverTargetId {
        return;
      }
      hoverTargetId := None;
      if nextId.value !in container {
        return;
      }
      hoverTargetId := nextId;
    }

    /** `onStart`: remember the container order and the dragged card,
        preview the start order and schedule a preview sync. */
    method OnStart(item: Option<string>)
      requires SyncValid()
      modifies this
      ensures isDragging && dragStartOrder == Some(container) && draggedCardId == item
      ensures hoverTargetId.None? && HoverValid()
      ensures previews == old(previews) + [container]
      ensures container == old(container) && commits == old(commits)
      ensures SyncValid() && syncScheduled == (mode == SortMode || old(syncScheduled))
      ensures framesQueued == old(framesQueued) + (if mode == SortMode && !old(syncScheduled) then 1 else 0)
    {
      isDragging := true;
      dragStartOrder := Some(container);
      draggedCardId := item;
      previews := previews + [container];
      hoverTargetId := None;
      SchedulePreviewSync();
    }

    /** `schedulePreviewSync`: during a sort drag, request one animation
        frame unless one is already scheduled, so that any number of moves
        before the frame runs are coalesced into a single sync. */
    method SchedulePreviewSync()
      requires SyncValid()
      modifies this`syncScheduled, this`framesQueued
      ensures SyncValid()
      ensures syncScheduled == (old(syncScheduled) || (isDragging && mode == SortMode))
      ensures framesQueued == old(framesQueued)
        + (if isDragging && mode == SortMode && !old(syncScheduled) then 1 else 0)
    {
      if !isDragging || mode != SortMode || syncScheduled {
        return;
      }
      syncScheduled := true;
      framesQueued := framesQueued + 1;
    }

    /** A pointer move during a swap drag: the card found under the pointer
        becomes the hover target. */
    method OnPointerMove(pointer: bool, found: Option<string>)
      requires HoverValid()
      modifies this
      ensures HoverValid()
      ensures !isDragging || mode != SwapMode || !pointer || !Truthy(found) ==>
        hoverTargetId == old(hoverTargetId)
      ensures (isDragging && mode == SwapMode && pointer && Truthy(found) && found != draggedCardId
        && found.value in container) ==> hoverTargetId == found
      ensures container == old(container) && isDragging == old(isDragging)
      ensures dragStartOrder == old(dragStartOrder) && draggedCardId == old(draggedCardId)
      ensures previews == old(previews) && commits == old(commits)
      ensures syncScheduled == old(syncScheduled) && framesQueued == old(framesQueued)
    {
      if !isDragging || mode != SwapMode || !pointer {
        return;
      }
      if Truthy(found) {
        SetHoverTarget(found);
      }
    }

    /** A requested preview frame runs: it clears the flag and, when the
        drag is still on, previews the container order as the library
        currently arranges it. Frames are only requested in sort mode. */
    method SyncPreview()
      requires SyncValid() && framesQueued > 0
      modifies this`syncScheduled, this`framesQueued, this`previews
      ensures mode == SortMode
      ensures SyncValid() && !syncScheduled && framesQueued == old(framesQueued) - 1
      ensures previews == old(previews) + (if isDragging then [container] else [])
    {
      framesQueued := framesQueued - 1;
      syncScheduled := false;
      if !isDragging {
        return;
      }
      previews := previews + [container];
    }

    /** The library moving cards during a sort drag; its `onMove` and
        `onChange` callbacks schedule a preview sync. */
    method LibraryMove(arranged: seq<string>)
      requires SyncValid()
      modifies this
      ensures container == arranged
      ensures isDragging == old(isDragging) && dragStartOrder == old(dragStartOrder)
      ensures draggedCardId == old(draggedCardId) && hoverTargetId == old(hoverTargetId)
      ensures previews == old(previews) && commits == old(commits)
      ensures SyncValid() && syncScheduled == (old(syncScheduled) || (isDragging && mode == SortMode))
      ensures framesQueued == old(framesQueued)
        + (if isDragging && mode == SortMode && !old(syncScheduled) then 1 else 0)
    {
      container := arranged;
      SchedulePreviewSync();
    }

    /** `applyOrderToContainer(order)`. */
    method ApplyOrderToContainer(order: seq<string>)
      modifies this
      ensures container == ApplyOrder(old(container), order)
      ensures isDragging == old(isDragging) && dragStartOrder == old(dragStartOrder)
      ensures draggedCardId == old(draggedCardId) && hoverTargetId == old(hoverTargetId)
      ensures previews == old(previews) && commits == old(commits)
      ensures syncScheduled == old(syncScheduled) && framesQueued == old(framesQueued)
    {
      ghost var start := container;
      for k := 0 to |order|
        invariant container == ApplyOrder(start, order[..k])
        invariant isDragging == old(isDragging) && dragStartOrder == old(dragStartOrder)
        invariant draggedCardId == old(draggedCardId) && hoverTargetId == old(hoverTargetId)
        invariant previews == old(previews) && commits == old(commits)
        invariant syncScheduled == old(syncScheduled) && framesQueued == old(framesQueued)
      {
        ApplyOrderLast(start, order, k + 1);
        var i := IndexOf(container, order[k]);
        if i >= 0 {
          container := container[..i] + container[i + 1..] + [order[k]];
        }
      }
      assert order[..|order|] == order;
    }

    /** `onEnd`: commit the end order, put the container in order when the
        drop leaves it otherwise, and end the drag. */
    method OnEnd(pointer: bool, found: Option<string>)
      modifies this
      ensures var r := EndOrder(mode, old(dragStartOrder), old(container), old(draggedCardId),
                                old(hoverTargetId), pointer, found);
        && commits == old(commits) + [r]
        && previews == old(previews) + [r]
        && NoDuplicates(r)
      ensures !isDragging && dragStartOrder.None? && draggedCardId.None? && hoverTargetId.None?
      ensures HoverValid()
      ensures mode == SortMode || !pointer || !Truthy(old(draggedCardId)) ==>
        var r := commits[|commits| - 1];
        container == (if old(container) == r then r else ApplyOrder(old(container), r))
      ensures mode == SwapMode && pointer && Truthy(old(draggedCardId)) ==> container == old(container)
      ensures !syncScheduled && framesQueued == old(framesQueued)
      ensures old(SyncValid()) ==> SyncValid()
    {
      var startOrder := if dragStartOrder.Some? then dragStartOrder.value else container;
      var stableOrder := Distinct(startOrder);
      var activeId := draggedCardId;
      EndOrderUnique(mode, dragStartOrder, container, activeId, hoverTargetId, pointer, found);
      ghost var r := EndOrder(mode, dragStartOrder, container, activeId, hoverTargetId, pointer, found);
      var endOrder: seq<string>;
      var reorderContainer: bool;
      if mode == SortMode {
        var uniqueContainerOrder := Distinct(container);
        endOrder := if |uniqueContainerOrder| == |stableOrder| then uniqueContainerOrder else stableOrder;
        reorderContainer := true;
      } else {
        var targetId := DropTarget(pointer, activeId, hoverTargetId, found);
        if !pointer || !Truthy(activeId) {
          endOrder := stableOrder;
          reorderContainer := true;
        } else if !Truthy(targetId) || targetId == activeId {
          endOrder := stableOrder;
          reorderContainer := false;
        } else {
          endOrder := SwapInOrder(stableOrder, activeId.value, targetId.value);
          reorderContainer := false;
        }
      }
      assert endOrder == r;
      Finish(endOrder, reorderContainer);
    }

    /** The common tail of `onEnd`: reset the drag, put the container in
        the end order when asked and it differs, and emit the end order. */
    method Finish(endOrder: seq<string>, reorderContainer: bool)
      modifies this
      ensures commits == old(commits) + [endOrder] && previews == old(previews) + [endOrder]
      ensures !isDragging && dragStartOrder.None? && draggedCardId.None? && hoverTargetId.None?
      ensures !syncScheduled && framesQueued == old(framesQueued)
      ensures container == (if reorderContainer && old(container) != endOrder
                            then ApplyOrder(old(container), endOrder) else old(container))
    {
      dragStartOrder := None;
      draggedCardId := None;
      isDragging := false;
      hoverTargetId := None;
      syncScheduled := false;
      if reorderContainer && container != endOrder {
        ApplyOrderToContainer(endOrder);
      }
      previews := previews + [endOrder];
      commits := commits + [endOrder];
    }
  }

  /** A whole sort drag in which the library only rearranges the cards,
      firing two move callbacks before the preview frame runs: the moves
      are coalesced into one frame, which previews the arrangement; the
      committed order is the arrangement at the drop, a permutation of the
      start order, and the container shows it. */
  method SortDragScenario(start: seq<string>, item: string, arranged: seq<string>)
    returns (committed: seq<string>, shown: seq<string>, previewed: seq<seq<string>>)
    requires NoDuplicates(start) && multiset(arranged) == multiset(start)
    ensures committed == arranged && shown == arranged
    ensures multiset(committed) == multiset(start)
    ensures previewed == [start, arranged, arranged]
  {
    SortCommitsRearrangement(start, arranged);
    StableOrderOfUnique(start);
    var s := new DragSession(SortMode, start);
    s.OnStart(Some(item));
    s.LibraryMove(arranged);
    s.LibraryMove(arranged);
    assert s.framesQueued == 1;
    s.SyncPreview();
    assert s.previews == [start, arranged];
    s.OnEnd(true, None);
    committed := s.commits[0];
    shown := s.container;
    previewed := s.previews;
  }

  /** A whole swap drag over another card: the committed order exchanges
      the two cards and the container is left to the next render. */
  method SwapDragScenario(start: seq<string>, active: string, target: string)
    returns (committed: seq<string>)
    requires NoDuplicates(start) && active in start && target in start
    requires active != target && active != "" && target != ""
    ensures committed == SwapInOrder(start, active, target)
    ensures committed != start && multiset(committed) == multiset(start)
  {
    var s := new DragSession(SwapMode, start);
    s.OnStart(Some(active));
    s.OnPointerMove(true, Some(target));
    assert s.hoverTargetId == Some(target);
    s.OnEnd(true, None);
    StableOrderOfUnique(start);
    SwapDropExchanges(start, active, target);
    committed := s.commits[0];
  }
}
