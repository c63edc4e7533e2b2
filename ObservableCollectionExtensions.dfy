/** `AddRange` and `ReplaceAll` on an observable collection: the collection
    is modelled by its items and by the change notifications it has raised,
    one per `Add`, `Insert`, `RemoveAt` and `Move` and a reset per `Clear`. */
module ObservableCollectionExtensions {

  /** A `CollectionChanged` notification. */
  datatype Change<T> =
    | Added(item: T, index: nat)
    | Removed(item: T, index: nat)
    | Moved(item: T, oldIndex: nat, newIndex: nat)
    | Reset

  /** The `items` argument: a null reference, a sequence of values, or a
      live view of the very collection being changed. */
  datatype Source<T> = Null | Values(values: seq<T>) | LiveView

  datatype Outcome = Done | ArgumentNull(paramName: string)

  /** The list `ToList` materialises from a source while the collection
      holds `current`. */
  function Snapshot<T>(source: Source<T>, current: seq<T>): seq<T>
    requires !source.Null?
  {
    match source
    case Values(values) => values
    case LiveView => current
  }

  /** The notifications of adding `xs` one by one at indices from `start`. */
  function Additions<T>(xs: seq<T>, start: nat): (r: seq<Change<T>>)
    ensures |r| == |xs|
    ensures forall i :: 0 <= i < |xs| ==> r[i] == Added(xs[i], start + i)
  {
    if xs == [] then [] else [Added(xs[0], start)] + Additions(xs[1..], start + 1)
  }

  /** The additions of a longer list end with the last item's. */
  lemma AdditionsSnoc<T>(xs: seq<T>, x: T, start: nat)
    ensures Additions(xs + [x], start) == Additions(xs, start) + [Added(x, start + |xs|)]
  {
    var l := Additions(xs + [x], start);
    var r := Additions(xs, start) + [Added(x, start + |xs|)];
    assert forall i :: 0 <= i < |l| ==> l[i] == r[i];
  }

  /** `IndexOf`: the first index holding `x`, or -1. */
  function IndexOf<T(==)>(xs: seq<T>, x: T): (r: int)
    ensures -1 <= r < |xs|
    ensures r >= 0 ==> xs[r] == x && x !in xs[..r]
    ensures r < 0 <==> x !in xs
  {
    if xs == [] then -1
    else if xs[0] == x then 0
    else
      var k := IndexOf(xs[1..], x);
      assert xs == [xs[0]] + xs[1..];
      if k < 0 then -1
      else
        assert xs[..k + 1] == [xs[0]] + xs[1..][..k];
        k + 1
  }

  /** The items after `Move(oldIndex, newIndex)`: the item is taken out, then
      put back at `newIndex` of what remains. */
  function MoveItem<T>(xs: seq<T>, oldIndex: nat, newIndex: nat): (r: seq<T>)
    requires oldIndex < |xs| && newIndex < |xs|
    ensures |r| == |xs| && r[newIndex] == xs[oldIndex]
    ensures multiset(r) == multiset(xs)
  {
    var rest := xs[..oldIndex] + xs[oldIndex + 1..];
    assert xs == xs[..oldIndex] + [xs[oldIndex]] + xs[oldIndex + 1..];
    assert multiset(xs) == multiset(rest) + multiset{xs[oldIndex]};
    assert rest == rest[..newIndex] + rest[newIndex..];
    var r := rest[..newIndex] + [xs[oldIndex]] + rest[newIndex..];
    assert multiset(r) == multiset(rest[..newIndex]) + multiset{xs[oldIndex]} + multiset(rest[newIndex..]);
    r
  }

  /** `ObservableCollection<T>`. */
  class ObservableCollection<T> {
    var items: seq<T>
    var changes: seq<Change<T>>

    constructor(initial: seq<T>)
      ensures items == initial && changes == []
    {
      items := initial;
      changes := [];
    }

    /** `Add`: appends and raises an add notification at the new index. */
    method Add(item: T)
      modifies this
      ensures items == old(items) + [item]
      ensures changes == old(changes) + [Added(item, |old(items)|)]
    {
      changes := changes + [Added(item, |items|)];
      items := items + [item];
    }

    /** `Insert`: puts `item` at `index`, shifting the later items up. */
    method Insert(index: nat, item: T)
      requires index <= |items|
      modifies this
      ensures items == old(items[..index]) + [item] + old(items[index..])
      ensures changes == old(changes) + [Added(item, index)]
    {
      changes := changes + [Added(item, index)];
      items := items[..index] + [item] + items[index..];
    }

    /** `RemoveAt`: takes out the item at `index`. */
    method RemoveAt(index: nat)
      requires index < |items|
      modifies this
      ensures items == old(items[..index]) + old(items[index + 1..])
      ensures changes == old(changes) + [Removed(old(items[index]), index)]
    {
      changes := changes + [Removed(items[index], index)];
      items := items[..index] + items[index + 1..];
    }

    /** `Move`: one notification for the taken-out-and-reinserted item. */
    method Move(oldIndex: nat, newIndex: nat)
      requires oldIndex < |items| && newIndex < |items|
      modifies this
      ensures items == MoveItem(old(items), oldIndex, newIndex)
      ensures changes == old(changes) + [Moved(old(items[oldIndex]), oldIndex, newIndex)]
    {
      changes := changes + [Moved(items[oldIndex], oldIndex, newIndex)];
      items := MoveItem(items, oldIndex, newIndex);
    }

    /** `Clear`: empties and raises a reset, even when already empty. */
    method Clear()
      modifies this
      ensures items == [] && changes == old(changes) + [Reset]
    {
      items := [];
      changes := changes + [Reset];
    }
  }

  /** `AddRange`: throws on a null collection or source; otherwise takes a
      snapshot of the source first, and appends its items in order, each
      with its own notification. An empty snapshot changes nothing. */
  method AddRange<T>(collection: ObservableCollection?<T>, source: Source<T>) returns (outcome: Outcome)
    modifies collection
    ensures collection == null ==> outcome == ArgumentNull("collection")
    ensures collection != null && source.Null? ==>
      outcome == ArgumentNull("items") && collection.items == old(collection.items) && collection.changes == old(collection.changes)
    ensures collection != null && !source.Null? ==>
      && outcome == Done
      && collection.items == old(collection.items) + Snapshot(source, old(collection.items))
      && collection.changes == old(collection.changes) + Additions(Snapshot(source, old(collection.items)), |old(collection.items)|)
  {
    if collection == null {
      return ArgumentNull("collection");
    }
    if source.Null? {
      return ArgumentNull("items");
    }
    var itemList := Snapshot(source, collection.items);
    outcome := Done;
    if |itemList| == 0 {
      return;
    }
    ghost var start := |collection.items|;
    for i := 0 to |itemList|
      invariant collection.items == old(collection.items) + itemList[..i]
      invariant collection.changes == old(collection.changes) + Additions(itemList[..i], start)
    {
      AdditionsSnoc(itemList[..i], itemList[i], start);
      assert itemList[..i + 1] == itemList[..i] + [itemList[i]];
      collection.Add(itemList[i]);
    }
    assert itemList[..|itemList|] == itemList;
  }

  /** `ReplaceAll`: the null checks come before any change; then the
      collection is cleared (one reset) and refilled from a snapshot taken
      after the clear. */
  method ReplaceAll<T>(collection: ObservableCollection?<T>, source: Source<T>) returns (outcome: Outcome)
    modifies collection
    ensures collection == null ==> outcome == ArgumentNull("collection")
    ensures collection != null && source.Null? ==>
      outcome == ArgumentNull("items") && collection.items == old(collection.items) && collection.changes == old(collection.changes)
    ensures collection != null && !source.Null? ==>
      && outcome == Done
      && collection.items == Snapshot(source, [])
      && collection.changes == old(collection.changes) + [Reset] + Additions(Snapshot(source, []), 0)
  {
    if collection == null {
      return ArgumentNull("collection");
    }
    if source.Null? {
      return ArgumentNull("items");
    }
    collection.Clear();
    outcome := AddRange(collection, source);
  }

  /** Adding a live view of the collection to itself doubles it: the
      snapshot is taken before the first add. */
  method AddRangeOfItselfDoubles<T>(collection: ObservableCollection<T>) returns (outcome: Outcome)
    modifies collection
    ensures outcome == Done && collection.items == old(collection.items) + old(collection.items)
  {
    outcome := AddRange(collection, LiveView);
  }

  /** Replacing a collection's items by a live view of itself empties it,
      since the view is read after the clear. */
  method ReplaceAllWithItselfEmpties<T>(collection: ObservableCollection<T>) returns (outcome: Outcome)
    modifies collection
    ensures outcome == Done && collection.items == [] && collection.changes == old(collection.changes) + [Reset]
  {
    outcome := ReplaceAll(collection, LiveView);
  }

  /** Replacing by a list of values leaves exactly those values, whatever
      the collection held, and raises a reset and one add per value. */
  method ReplaceAllIsExact<T>(collection: ObservableCollection<T>, values: seq<T>) returns (outcome: Outcome)
    modifies collection
    ensures outcome == Done && collection.items == values
    ensures |collection.changes| == |old(collection.changes)| + 1 + |values|
  {
    outcome := ReplaceAll(collection, Values(values));
  }
}
