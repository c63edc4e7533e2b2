/** `ProcessScanner`: keeps the processes whose command line matches the
    configured keywords, caching command lines for 30 seconds. */
module ProcessScanner {
  import opened Common

  /** The lowercased includes and excludes keywords. */
  datatype KeywordLists = KeywordLists(includes: seq<string>, excludes: seq<string>)

  /** What reading the `DataCollection.ProcessKeywords` row gave: no row,
      its keywords (a JSON null being the empty list), or an exception. */
  datatype DbRead = NoSetting | Stored(keywords: seq<string>) | LoadFailed

  /** Reading a process's command line: a value (possibly null), or one
      of the exceptions that skip the process. */
  datatype CommandLineRead = ReadOk(commandLine: Option<string>) | ReadDenied

  /** A running process as the scan sees it, with what the command-line
      reader and the name resolver would return for it. */
  datatype Observation = Observation(pid: int, name: string, read: CommandLineRead, resolvedName: Option<string>)

  datatype CacheEntry = CacheEntry(commandLine: string, expiresAt: int)

  /** A kept process (`ProcessInfo`). */
  datatype ScannedProcess = ScannedProcess(pid: int, name: string, commandLine: string, displayName: string, matched: seq<string>)

  /** Time is in ticks of 100 ns; the cache keeps a command line 30 s. */
  const TicksPerSecond := 10_000_000
  const CommandLineCacheTtl := 30 * TicksPerSecond

  // ---------------------------------------------------------------------
  // Keywords

  predicate IsExclude(k: string) { StartsWith(k, "!") }

  function IncludeOf(k: string): Option<string>
  {
    if IsExclude(k) then None else Some(ToLower(k))
  }

  function ExcludeOf(k: string): Option<string>
  {
    if IsExclude(k) then Some(ToLower(k[1..])) else None
  }

  /** A keyword list split into includes and '!'-prefixed excludes. */
  function SplitKeywords(keywords: seq<string>): KeywordLists
  {
    KeywordLists(FilterMap(keywords, IncludeOf), FilterMap(keywords, ExcludeOf))
  }

  /** The merge of `LoadAndMergeKeywordsFromDatabaseAsync`: each side's
      keywords from both sources, minus the other side's database keywords. */
  function Merge(config: KeywordLists, db: KeywordLists): KeywordLists
  {
    KeywordLists(
      Except(Union(config.includes, db.includes), db.excludes),
      Except(Union(config.excludes, db.excludes), db.includes))
  }

  function ContainedIn(lower: string): string -> bool
  {
    k => Contains(lower, k)
  }

  function KeepIfContained(lower: string): string -> Option<string>
  {
    k => if Contains(lower, k) then Some(k) else None
  }

  /** `GetMatchedKeywords`: nothing when an excludes occurs in the
      lowercased command line or there are no includes, else the includes
      that occur in it. */
  function GetMatchedKeywords(lists: KeywordLists, commandLine: string): seq<string>
  {
    var lower := ToLower(commandLine);
    if Any(lists.excludes, ContainedIn(lower)) || |lists.includes| == 0 then []
    else FilterMap(lists.includes, KeepIfContained(lower))
  }

  /** The filter of `ProcessSingleProcess`. */
  predicate ShouldFilter(lists: KeywordLists, matched: seq<string>)
  {
    (|lists.includes| != 0 || |lists.excludes| != 0) && |matched| == 0
  }

  // ---------------------------------------------------------------------
  // One process, and a whole scan

  /** A cached command line that has not yet expired at the scan time. */
  function CachedCommandLine(cache: map<int, CacheEntry>, pid: int, now: int): Option<string>
  {
    if pid in cache && cache[pid].expiresAt > now then Some(cache[pid].commandLine) else None
  }

  /** The command line the visit works with; `None` skips the process. */
  function CommandLineOf(cache: map<int, CacheEntry>, o: Observation, now: int): Option<string>
  {
    var cached := CachedCommandLine(cache, o.pid, now);
    if cached.Some? then cached
    else if o.read.ReadOk? then o.read.commandLine
    else None
  }

  /** The cache after a visit: a command line read afresh is stored with
      an expiry 30 s after the scan time. */
  function CacheAfterVisit(cache: map<int, CacheEntry>, o: Observation, now: int): map<int, CacheEntry>
  {
    if CachedCommandLine(cache, o.pid, now).Some? then cache
    else if o.read.ReadOk? && o.read.commandLine.Some? then
      cache[o.pid := CacheEntry(o.read.commandLine.value, now + CommandLineCacheTtl)]
    else cache
  }

  /** The resolver's name, or the process name when it is null or empty. */
  function DisplayName(o: Observation): string
  {
    if o.resolvedName.Some? && o.resolvedName.value != "" then o.resolvedName.value else o.name
  }

  /** `ProcessSingleProcess`'s result. */
  function ScanOne(lists: KeywordLists, cache: map<int, CacheEntry>, o: Observation, now: int): Option<ScannedProcess>
  {
    var cmd := CommandLineOf(cache, o, now);
    if cmd.None? then None
    else
      var matched := GetMatchedKeywords(lists, cmd.value);
      if ShouldFilter(lists, matched) then None
      else Some(ScannedProcess(o.pid, o.name, cmd.value, DisplayName(o), matched))
  }

  datatype ScanState = ScanState(results: seq<ScannedProcess>, cache: map<int, CacheEntry>)

  /** Visiting the processes one after another. */
  function ScanAll(lists: KeywordLists, cache: map<int, CacheEntry>, os: seq<Observation>, now: int): ScanState
  {
    if os == [] then ScanState([], cache)
    else
      var acc := ScanAll(lists, cache, os[..|os| - 1], now);
      var o := os[|os| - 1];
      ScanState(acc.results + OptionToSeq(ScanOne(lists, acc.cache, o, now)), CacheAfterVisit(acc.cache, o, now))
  }

  function Pids(os: seq<Observation>): set<int>
  {
    set i | 0 <= i < |os| :: os[i].pid
  }

  /** An entry survives the clean-up while unexpired and its process live. */
  predicate KeepEntry(e: CacheEntry, pid: int, live: set<int>, now: int)
  {
    e.expiresAt > now && pid in live
  }

  function Cleanup(cache: map<int, CacheEntry>, live: set<int>, now: int): map<int, CacheEntry>
  {
    map p | p in cache && KeepEntry(cache[p], p, live, now) :: cache[p]
  }

  // ---------------------------------------------------------------------
  // The scanner object

  class Scanner {
    const configIncludes: seq<string>
    const configExcludes: seq<string>
    var includes: seq<string>
    var excludes: seq<string>
    var cache: map<int, CacheEntry>

    function Lists(): KeywordLists
      reads this
    {
      KeywordLists(includes, excludes)
    }

    function ConfigLists(): KeywordLists
    {
      KeywordLists(configIncludes, configExcludes)
    }

    /** The configured keywords become both the base and the runtime lists. */
    constructor(keywords: seq<string>)
      ensures ConfigLists() == SplitKeywords(keywords) && Lists() == ConfigLists()
      ensures cache == map[]
    {
      var split := SplitKeywords(keywords);
      configIncludes := split.includes;
      configExcludes := split.excludes;
      includes := split.includes;
      excludes := split.excludes;
      cache := map[];
    }

    /** `LoadAndMergeKeywordsFromDatabaseAsync` as `ReloadKeywordsAsync`
        runs it: without a row or on an exception the lists stay. */
    method ReloadKeywords(read: DbRead) returns (loaded: bool)
      modifies this
      ensures loaded <==> read.Stored?
      ensures Lists() == if loaded then Merge(ConfigLists(), SplitKeywords(read.keywords)) else old(Lists())
      ensures cache == old(cache)
    {
      if !read.Stored? {
        return false;
      }
      var db := SplitKeywords(read.keywords);
      var merged := Merge(ConfigLists(), db);
      includes := merged.includes;
      excludes := merged.excludes;
      return true;
    }

    method ProcessSingleProcess(o: Observation, now: int) returns (r: Option<ScannedProcess>)
      modifies this
      ensures r == ScanOne(Lists(), old(cache), o, now)
      ensures cache == CacheAfterVisit(old(cache), o, now)
      ensures Lists() == old(Lists())
    {
      var commandLine: Option<string> := None;
      if o.pid in cache && cache[o.pid].expiresAt > now {
        commandLine := Some(cache[o.pid].commandLine);
      } else {
        if o.read.ReadDenied? || o.read.commandLine.None? {
          return None;
        }
        commandLine := o.read.commandLine;
        cache := cache[o.pid := CacheEntry(commandLine.value, now + CommandLineCacheTtl)];
      }
      var matched := GetMatchedKeywords(Lists(), commandLine.value);
      if ShouldFilter(Lists(), matched) {
        return None;
      }
      var displayName := if o.resolvedName.Some? && o.resolvedName.value != "" then o.resolvedName.value else o.name;
      return Some(ScannedProcess(o.pid, o.name, commandLine.value, displayName, matched));
    }

    method CleanupCommandLineCache(live: set<int>, now: int)
      modifies this
      ensures cache == Cleanup(old(cache), live, now)
      ensures Lists() == old(Lists())
    {
      ghost var start := cache;
      var pending := cache.Keys;
      while pending != {}
        invariant pending <= start.Keys
        invariant cache == map p | p in start && (p in pending || KeepEntry(start[p], p, live, now)) :: start[p]
        invariant includes == old(includes) && excludes == old(excludes)
        decreases pending
      {
        var pid := Pick(pending);
        DropIfStale(pid, live, now);
        pending := pending - {pid};
      }
    }

    /** The body of the clean-up loop for one cached pid. */
    method DropIfStale(pid: int, live: set<int>, now: int)
      requires pid in cache
      modifies this
      ensures cache == if KeepEntry(old(cache)[pid], pid, live, now) then old(cache) else old(cache) - {pid}
      ensures includes == old(includes) && excludes == old(excludes)
    {
      if cache[pid].expiresAt <= now || pid !in live {
        cache := cache - {pid};
      }
    }

    /** `ScanProcesses`: visits every process, then cleans the cache
        against the live pids; a failed enumeration returns nothing. */
    method ScanProcesses(processes: Option<seq<Observation>>, now: int) returns (results: seq<ScannedProcess>)
      modifies this
      ensures processes.None? ==> results == [] && cache == old(cache)
      ensures processes.Some? ==>
        var s := ScanAll(Lists(), old(cache), processes.value, now);
        results == s.results && cache == Cleanup(s.cache, Pids(processes.value), now)
      ensures Lists() == old(Lists())
    {
      if processes.None? {
        return [];
      }
      var os := processes.value;
      var live: set<int> := {};
      results := [];
      ghost var start := cache;
      for i := 0 to |os|
        invariant ScanState(results, cache) == ScanAll(Lists(), start, os[..i], now)
        invariant live == Pids(os[..i])
        invariant Lists() == old(Lists())
      {
        PrefixOfPrefix(os, i);
        live := live + {os[i].pid};
        var r := ProcessSingleProcess(os[i], now);
        results := results + OptionToSeq(r);
      }
      assert os[..|os|] == os;
      CleanupCommandLineCache(live, now);
    }
  }

  // ---------------------------------------------------------------------
  // Properties

  /** '!'-prefixed keywords become lowercased excludes without the '!',
      all others lowercased includes. */
  lemma SplitKeywordsExact(keywords: seq<string>)
    ensures var l := SplitKeywords(keywords);
      && (forall x :: x in l.includes <==> exists i :: 0 <= i < |keywords| && !IsExclude(keywords[i]) && x == ToLower(keywords[i]))
      && (forall x :: x in l.excludes <==> exists i :: 0 <= i < |keywords| && IsExclude(keywords[i]) && x == ToLower(keywords[i][1..]))
  {
    FilterMapMembership(keywords, IncludeOf);
    FilterMapMembership(keywords, ExcludeOf);
  }

  /** Merging: each list is its sources' keywords minus the other side's
      database keywords, without repeats, so the database wins a conflict. */
  lemma MergeExact(config: KeywordLists, db: KeywordLists)
    ensures var m := Merge(config, db);
      && (forall x :: x in m.includes <==> (x in config.includes || x in db.includes) && x !in db.excludes)
      && (forall x :: x in m.excludes <==> (x in config.excludes || x in db.excludes) && x !in db.includes)
      && NoDuplicates(m.includes) && NoDuplicates(m.excludes)
  {
    DistinctFacts(config.includes + db.includes);
    DistinctFacts(config.excludes + db.excludes);
    var ui := Union(config.includes, db.includes);
    var ue := Union(config.excludes, db.excludes);
    WithoutMembership(ui, db.excludes);
    WithoutMembership(ue, db.includes);
    DistinctFacts(Without(ui, db.excludes));
    DistinctFacts(Without(ue, db.includes));
  }

  /** A keyword the database excludes is never included, and vice versa. */
  lemma DatabaseWins(config: KeywordLists, db: KeywordLists, x: string)
    ensures x in db.excludes && x !in db.includes ==> x in Merge(config, db).excludes && x !in Merge(config, db).includes
    ensures x in db.includes && x !in db.excludes ==> x in Merge(config, db).includes && x !in Merge(config, db).excludes
  {
    MergeExact(config, db);
  }

  /** The matched keywords are exactly the includes in the lowercased
      command line, and none when an excludes occurs in it. */
  lemma MatchedExact(lists: KeywordLists, commandLine: string)
    ensures var lower := ToLower(commandLine);
      var m := GetMatchedKeywords(lists, commandLine);
      && ((exists j :: 0 <= j < |lists.excludes| && Contains(lower, lists.excludes[j])) ==> m == [])
      && (forall x :: x in m <==>
            x in lists.includes && Contains(lower, x)
            && !exists j :: 0 <= j < |lists.excludes| && Contains(lower, lists.excludes[j]))
  {
    var lower := ToLower(commandLine);
    FilterMapMembership(lists.includes, KeepIfContained(lower));
    forall x ensures x in FilterMap(lists.includes, KeepIfContained(lower)) <==> x in lists.includes && Contains(lower, x)
    {
      if x in lists.includes && Contains(lower, x) {
        var i :| 0 <= i < |lists.includes| && lists.includes[i] == x;
        assert KeepIfContained(lower)(lists.includes[i]) == Some(x);
      }
    }
  }

  /** Without keywords every process with a command line is kept. */
  lemma NoKeywordsKeepsAll(cache: map<int, CacheEntry>, o: Observation, now: int)
    requires CommandLineOf(cache, o, now).Some?
    ensures ScanOne(KeywordLists([], []), cache, o, now).Some?
  {
  }

  /** With excludes but no includes nothing matches, so every process is
      dropped. */
  lemma ExcludesOnlyDropAll(lists: KeywordLists, cache: map<int, CacheEntry>, o: Observation, now: int)
    requires lists.includes == [] && lists.excludes != []
    ensures ScanOne(lists, cache, o, now).None?
  {
  }

  /** A kept process under non-empty lists matched some includes, occurring
      in its command line, and none of the excludes. */
  lemma KeptMatched(lists: KeywordLists, cache: map<int, CacheEntry>, o: Observation, now: int)
    requires lists.includes != [] || lists.excludes != []
    requires ScanOne(lists, cache, o, now).Some?
    ensures var r := ScanOne(lists, cache, o, now).value;
      var lower := ToLower(r.commandLine);
      && r.matched != []
      && (forall x :: x in r.matched ==> x in lists.includes && Contains(lower, x))
      && (forall j :: 0 <= j < |lists.excludes| ==> !Contains(lower, lists.excludes[j]))
      && r.displayName == DisplayName(o) && (r.displayName == "" ==> o.name == "")
  {
    var r := ScanOne(lists, cache, o, now).value;
    MatchedExact(lists, r.commandLine);
  }

  /** An unexpired cached command line is used without reading, and the
      cache stays as it is. */
  lemma CacheHit(cache: map<int, CacheEntry>, o: Observation, now: int)
    requires o.pid in cache && cache[o.pid].expiresAt > now
    ensures CommandLineOf(cache, o, now) == Some(cache[o.pid].commandLine)
    ensures CacheAfterVisit(cache, o, now) == cache
  {
  }

  /** On a miss, a command line read is cached for 30 s; a failed or null
      read skips the process and leaves the cache alone. */
  lemma CacheMiss(cache: map<int, CacheEntry>, o: Observation, now: int)
    requires !(o.pid in cache && cache[o.pid].expiresAt > now)
    ensures o.read.ReadOk? && o.read.commandLine.Some? ==>
      CacheAfterVisit(cache, o, now) == cache[o.pid := CacheEntry(o.read.commandLine.value, now + 300_000_000)]
    ensures !(o.read.ReadOk? && o.read.commandLine.Some?) ==>
      CacheAfterVisit(cache, o, now) == cache && ScanOne(KeywordLists([], []), cache, o, now).None?
  {
  }

  /** The clean-up removes exactly the expired entries and those of dead
      processes. */
  lemma CleanupExact(cache: map<int, CacheEntry>, live: set<int>, now: int)
    ensures var c := Cleanup(cache, live, now);
      forall p :: (p in c <==> p in cache && cache[p].expiresAt > now && p in live)
               && (p in c ==> c[p] == cache[p])
  {
  }

  /** After a scan every cached command line belongs to a live process and
      is still valid. */
  lemma ScanLeavesFreshCache(lists: KeywordLists, cache: map<int, CacheEntry>, os: seq<Observation>, now: int)
    ensures var c := Cleanup(ScanAll(lists, cache, os, now).cache, Pids(os), now);
      forall p :: p in c ==> c[p].expiresAt > now && exists i :: 0 <= i < |os| && os[i].pid == p
  {
  }
}
