/** `ProcessMetadataStore`: the last published metadata of each live
    process. An update reports only the processes that are new or whose
    metadata key changed, and forgets the processes that are gone. */
module ProcessMetadataStore {
  import opened Common

  /** The part of `ProcessInfo` the store reads; null texts are `None`. */
  datatype ProcessInfo = ProcessInfo(pid: int, name: string, commandLine: Option<string>, displayName: Option<string>)

  /** `ProcessMetaSnapshot`. */
  datatype Snapshot = Snapshot(pid: int, name: string, commandLine: string, displayName: string)

  /** The store's two dictionaries, both keyed by process id. */
  datatype Store = Store(items: map<int, Snapshot>, keys: map<int, string>)

  function OrEmpty(s: Option<string>): string
  {
    if s.None? then "" else s.value
  }

  /** `BuildMetaKey`: the three texts joined by line feeds. */
  function BuildMetaKey(info: ProcessInfo): string
  {
    info.name + "\n" + OrEmpty(info.commandLine) + "\n" + OrEmpty(info.displayName)
  }

  /** The key of a stored snapshot, built the same way. */
  function SnapshotKey(s: Snapshot): string
  {
    s.name + "\n" + s.commandLine + "\n" + s.displayName
  }

  /** The snapshot stored for a process; null texts become "". */
  function Snap(info: ProcessInfo): Snapshot
  {
    Snapshot(info.pid, info.name, OrEmpty(info.commandLine), OrEmpty(info.displayName))
  }

  /** The item and key dictionaries have the same pids. */
  predicate SameDomain(s: Store)
  {
    s.items.Keys == s.keys.Keys
  }

  /** Every key is the key of the item stored beside it. */
  predicate Consistent(s: Store)
  {
    forall p :: p in s.keys ==> p in s.items && SnapshotKey(s.items[p]) == s.keys[p]
  }

  predicate DistinctPids(ms: seq<ProcessInfo>)
  {
    forall i, j :: 0 <= i < j < |ms| ==> ms[i].pid != ms[j].pid
  }

  // ---------------------------------------------------------------------
  // The update as functions of the previous store

  /** The process's key is cached and equal: the process is skipped. */
  predicate Unchanged(s: Store, info: ProcessInfo)
  {
    info.pid in s.keys && s.keys[info.pid] == BuildMetaKey(info)
  }

  function Record(s: Store, info: ProcessInfo): Store
  {
    if Unchanged(s, info) then s
    else Store(s.items[info.pid := Snap(info)], s.keys[info.pid := BuildMetaKey(info)])
  }

  /** The store after the first loop of `Update`. */
  function RecordAll(s: Store, ms: seq<ProcessInfo>): Store
  {
    if ms == [] then s else Record(RecordAll(s, ms[..|ms| - 1]), ms[|ms| - 1])
  }

  /** The snapshots `Update` returns, in input order. */
  function Changed(s: Store, ms: seq<ProcessInfo>): seq<Snapshot>
  {
    if ms == [] then []
    else
      var init := ms[..|ms| - 1];
      var last := ms[|ms| - 1];
      Changed(s, init) + (if Unchanged(RecordAll(s, init), last) then [] else [Snap(last)])
  }

  /** The pids of the input. */
  function Pids(ms: seq<ProcessInfo>): set<int>
  {
    if ms == [] then {} else Pids(ms[..|ms| - 1]) + {ms[|ms| - 1].pid}
  }

  /** Removes the pids of the key dictionary that are not live, from both. */
  function Prune(s: Store, live: set<int>): Store
  {
    var stale := set p | p in s.keys && p !in live;
    Store(s.items - stale, s.keys - stale)
  }

  function AfterUpdate(s: Store, ms: seq<ProcessInfo>): Store
  {
    Prune(RecordAll(s, ms), Pids(ms))
  }

  // ---------------------------------------------------------------------
  // The store object

  class MetadataStore {
    var items: map<int, Snapshot>
    var keys: map<int, string>

    function State(): Store
      reads this
    {
      Store(items, keys)
    }

    constructor()
      ensures State() == Store(map[], map[])
    {
      items := map[];
      keys := map[];
    }

    /** `GetSnapshot`: the stored snapshots. */
    method GetSnapshot() returns (r: set<Snapshot>)
      ensures r == items.Values
    {
      r := items.Values;
    }

    /** `Update`. */
    method Update(metrics: seq<ProcessInfo>) returns (updates: seq<Snapshot>)
      modifies this
      ensures updates == Changed(old(State()), metrics)
      ensures State() == AfterUpdate(old(State()), metrics)
    {
      ghost var start := State();
      updates := [];
      var currentPids: set<int> := {};
      for i := 0 to |metrics|
        invariant State() == RecordAll(start, metrics[..i])
        invariant updates == Changed(start, metrics[..i])
        invariant currentPids == Pids(metrics[..i])
      {
        PrefixOfPrefix(metrics, i);
        var info := metrics[i];
        currentPids := currentPids + {info.pid};
        var metaKey := BuildMetaKey(info);
        if !(info.pid in keys && keys[info.pid] == metaKey) {
          var snapshot := Snap(info);
          keys := keys[info.pid := metaKey];
          items := items[info.pid := snapshot];
          updates := updates + [snapshot];
        }
      }
      assert metrics[..|metrics|] == metrics;
      var stale := set p | p in keys && p !in currentPids;
      keys := keys - stale;
      items := items - stale;
    }
  }

  // ---------------------------------------------------------------------
  // Properties

  lemma {:induction false} PidsMembership(ms: seq<ProcessInfo>)
    ensures forall p :: p in Pids(ms) <==> exists i :: 0 <= i < |ms| && ms[i].pid == p
  {
    if ms != [] {
      var init := ms[..|ms| - 1];
      PidsMembership(init);
      assert forall i :: 0 <= i < |init| ==> init[i] == ms[i];
    }
  }

  /** What the first loop does to the dictionaries: the input's pids are
      added and the other entries are left alone. */
  lemma {:induction false} RecordAllDomain(s: Store, ms: seq<ProcessInfo>)
    ensures var t := RecordAll(s, ms);
      && (forall p :: p in t.keys <==> p in s.keys || p in Pids(ms))
      && (forall p :: p in s.items ==> p in t.items)
      && (SameDomain(s) ==> SameDomain(t))
      && (forall p :: p in s.keys && p !in Pids(ms) ==> t.keys[p] == s.keys[p])
      && (forall p :: p in s.items && p !in Pids(ms) ==> t.items[p] == s.items[p])
  {
    if ms != [] {
      RecordAllDomain(s, ms[..|ms| - 1]);
    }
  }

  /** Recording keeps every key beside an item with that key. */
  lemma {:induction false} RecordAllConsistent(s: Store, ms: seq<ProcessInfo>)
    requires Consistent(s)
    ensures Consistent(RecordAll(s, ms))
  {
    if ms != [] {
      RecordAllConsistent(s, ms[..|ms| - 1]);
    }
  }

  /** With distinct pids each input process ends up with its own key. */
  lemma {:induction false} RecordAllKeys(s: Store, ms: seq<ProcessInfo>)
    requires DistinctPids(ms)
    ensures var t := RecordAll(s, ms);
      forall i :: 0 <= i < |ms| ==> ms[i].pid in t.keys && t.keys[ms[i].pid] == BuildMetaKey(ms[i])
  {
    if ms != [] {
      var init := ms[..|ms| - 1];
      var last := ms[|ms| - 1];
      assert DistinctPids(init);
      RecordAllKeys(s, init);
      var acc := RecordAll(s, init);
      forall i | 0 <= i < |ms|
        ensures ms[i].pid in RecordAll(s, ms).keys && RecordAll(s, ms).keys[ms[i].pid] == BuildMetaKey(ms[i])
      {
        if i < |init| {
          assert init[i] == ms[i];
          assert ms[i].pid != last.pid;
        }
      }
    }
  }

  /** With distinct pids, a process is reported iff it is new or its key
      changed, and only input processes are reported. */
  lemma {:induction false} ChangedExact(s: Store, ms: seq<ProcessInfo>)
    requires DistinctPids(ms)
    ensures forall i :: 0 <= i < |ms| ==> (Snap(ms[i]) in Changed(s, ms) <==> !Unchanged(s, ms[i]))
    ensures forall x :: x in Changed(s, ms) ==> exists i :: 0 <= i < |ms| && x == Snap(ms[i])
    ensures |Changed(s, ms)| <= |ms|
  {
    if ms != [] {
      var init := ms[..|ms| - 1];
      var last := ms[|ms| - 1];
      assert DistinctPids(init);
      ChangedExact(s, init);
      LastUnaffected(s, ms);
      var c := Changed(s, ms);
      forall i | 0 <= i < |ms|
        ensures Snap(ms[i]) in c <==> !Unchanged(s, ms[i])
      {
        if i < |init| {
          assert init[i] == ms[i];
          assert Snap(ms[i]) != Snap(last);
        }
      }
      forall x | x in c
        ensures exists i :: 0 <= i < |ms| && x == Snap(ms[i])
      {
        if x in Changed(s, init) {
          var i :| 0 <= i < |init| && x == Snap(init[i]);
          assert init[i] == ms[i];
        } else {
          assert x == Snap(ms[|ms| - 1]);
        }
      }
    }
  }

  /** The last process of a list with distinct pids sees the store as it
      was before the others were recorded. */
  lemma LastUnaffected(s: Store, ms: seq<ProcessInfo>)
    requires DistinctPids(ms) && ms != []
    ensures Unchanged(RecordAll(s, ms[..|ms| - 1]), ms[|ms| - 1]) <==> Unchanged(s, ms[|ms| - 1])
  {
    var init := ms[..|ms| - 1];
    var last := ms[|ms| - 1];
    RecordAllDomain(s, init);
    PidsMembership(init);
    assert last.pid !in Pids(init);
  }

  /** After an update the key dictionary holds exactly the input's pids,
      and so do the items when both dictionaries agreed before. */
  lemma UpdateDomain(s: Store, ms: seq<ProcessInfo>)
    ensures AfterUpdate(s, ms).keys.Keys == Pids(ms)
    ensures SameDomain(s) ==> SameDomain(AfterUpdate(s, ms))
  {
    RecordAllDomain(s, ms);
  }

  /** After an update every input process's stored snapshot has the
      process's current key. */
  lemma UpdateKeepsSnapshotsCurrent(s: Store, ms: seq<ProcessInfo>)
    requires Consistent(s) && DistinctPids(ms)
    ensures var t := AfterUpdate(s, ms);
      Consistent(t) && forall i :: 0 <= i < |ms| ==>
        ms[i].pid in t.items && SnapshotKey(t.items[ms[i].pid]) == BuildMetaKey(ms[i])
  {
    RecordAllConsistent(s, ms);
    RecordAllKeys(s, ms);
    PidsMembership(ms);
  }

  /** A new process is reported and stored, with null texts as "". */
  lemma NewProcessStored(s: Store, ms: seq<ProcessInfo>, i: nat)
    requires DistinctPids(ms) && i < |ms| && ms[i].pid !in s.keys
    ensures Snap(ms[i]) in Changed(s, ms)
    ensures var t := AfterUpdate(s, ms);
      ms[i].pid in t.items && t.items[ms[i].pid] == Snap(ms[i])
      && (ms[i].commandLine.None? ==> t.items[ms[i].pid].commandLine == "")
      && (ms[i].displayName.None? ==> t.items[ms[i].pid].displayName == "")
  {
    ChangedExact(s, ms);
    NewProcessStoredAt(s, ms, i);
    PidsMembership(ms);
  }

  lemma {:induction false} NewProcessStoredAt(s: Store, ms: seq<ProcessInfo>, i: nat)
    requires DistinctPids(ms) && i < |ms| && ms[i].pid !in s.keys
    ensures ms[i].pid in RecordAll(s, ms).items && RecordAll(s, ms).items[ms[i].pid] == Snap(ms[i])
  {
    var init := ms[..|ms| - 1];
    var last := ms[|ms| - 1];
    assert DistinctPids(init);
    RecordAllDomain(s, init);
    PidsMembership(init);
    if i < |ms| - 1 {
      NewProcessStoredAt(s, init, i);
      assert init[i] == ms[i];
    } else {
      assert forall j :: 0 <= j < |init| ==> init[j] == ms[j] && ms[j].pid != last.pid;
    }
  }

  /** If no process changed, recording changes nothing and reports nothing. */
  lemma {:induction false} AllUnchangedIsNoOp(t: Store, ms: seq<ProcessInfo>)
    requires forall i :: 0 <= i < |ms| ==> Unchanged(t, ms[i])
    ensures RecordAll(t, ms) == t && Changed(t, ms) == []
  {
    if ms != [] {
      var init := ms[..|ms| - 1];
      assert forall i :: 0 <= i < |init| ==> init[i] == ms[i];
      AllUnchangedIsNoOp(t, init);
    }
  }

  /** The same input twice: the second update reports nothing and leaves
      the store as it was. */
  lemma UpdateIdempotent(s: Store, ms: seq<ProcessInfo>)
    requires DistinctPids(ms)
    ensures Changed(AfterUpdate(s, ms), ms) == []
    ensures SameDomain(s) ==> AfterUpdate(AfterUpdate(s, ms), ms) == AfterUpdate(s, ms)
  {
    var t := AfterUpdate(s, ms);
    RecordAllKeys(s, ms);
    PidsMembership(ms);
    assert forall i :: 0 <= i < |ms| ==> Unchanged(t, ms[i]);
    AllUnchangedIsNoOp(t, ms);
    if SameDomain(s) {
      UpdateDomain(s, ms);
      assert (set p | p in t.keys && p !in Pids(ms)) == {};
    }
  }

  /** The key does not determine the snapshot: a command line holding a
      line feed can shift text into the display name and keep the key, and
      the stored snapshot then stays the earlier one. */
  lemma KeyCollisionKeepsStaleSnapshot()
    ensures var a := ProcessInfo(7, "app", Some("run\nx"), Some("y"));
      var b := ProcessInfo(7, "app", Some("run"), Some("x\ny"));
      var t := AfterUpdate(AfterUpdate(Store(map[], map[]), [a]), [b]);
      && BuildMetaKey(a) == BuildMetaKey(b) && Snap(a) != Snap(b)
      && 7 in t.items && t.items[7] == Snap(a)
      && Changed(AfterUpdate(Store(map[], map[]), [a]), [b]) == []
  {
    var a := ProcessInfo(7, "app", Some("run\nx"), Some("y"));
    var b := ProcessInfo(7, "app", Some("run"), Some("x\ny"));
    assert BuildMetaKey(a) == BuildMetaKey(b);
    assert [a][..0] == [] && [b][..0] == [];
    var e := Store(map[], map[]);
    assert Pids([a]) == {7} && Pids([b]) == {7};
    var r1 := RecordAll(e, [a]);
    assert r1 == Record(RecordAll(e, []), a);
    assert r1 == Store(map[7 := Snap(a)], map[7 := BuildMetaKey(a)]);
    var s1 := AfterUpdate(e, [a]);
    assert (set p | p in r1.keys && p !in {7}) == {};
    assert s1 == r1;
    assert Unchanged(s1, b);
    assert RecordAll(s1, [b]) == s1;
    assert (set p | p in s1.keys && p !in {7}) == {};
  }
}
