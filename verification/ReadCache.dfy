/** The generation-guarded read cache of the queue. A read is one load of the table; callers that
    arrive while it is in flight share it. A write first invalidates the cache and commits later:
    the two are separate steps, with an await in between. */
module ReadCache {
  import opened Common

  type Path = string
  type ReadId = nat
  type CallerId = nat

  /** `generation` and `dbPath` are taken when the read starts; `result` is set when it looks at the
      table. */
  datatype Read<T> = Read(generation: nat, dbPath: Path, result: Option<T>)

  datatype Cache<T> = Cache(
    tables: map<Path, T>,
    path: Path,
    cached: Option<T>,
    cachedFrom: Path,
    generation: nat,
    inFlight: Option<ReadId>,
    started: seq<Read<T>>,
    callers: map<CallerId, ReadId>,
    pendingWrites: nat)

  datatype Step<T> =
    | Arrive(c: CallerId)
    | Look(r: ReadId)
    | ClearSlot(r: ReadId)
    | Fail(r: ReadId)
    | Resume(c: CallerId)
    | Invalidate
    | Commit(value: T)
    | SwapPath(path: Path)

  /** The database at the current path exists: opening it creates it. */
  function Cold<T>(tables: map<Path, T>, path: Path): Cache<T>
    requires path in tables
  {
    Cache(tables, path, None, path, 0, None, [], map[], 0)
  }

  predicate Outstanding<T>(s: Cache<T>, r: ReadId) { r < |s.started| && s.started[r].result.None? }

  predicate Enabled<T>(s: Cache<T>, step: Step<T>) {
    match step
    case Arrive(c) => c !in s.callers
    case Look(r) => Outstanding(s, r) && s.path in s.tables
    case ClearSlot(r) => r < |s.started| && s.started[r].result.Some?
    case Fail(r) => Outstanding(s, r)
    case Resume(c) => c in s.callers && s.callers[c] < |s.started| && s.started[s.callers[c]].result.Some?
    case Invalidate => true
    case Commit(_) => s.pendingWrites > 0
    case SwapPath(p) => p in s.tables
  }

  function Drop<T>(s: Cache<T>): Cache<T> {
    s.(cached := None, generation := s.generation + 1)
  }

  /** loadQueueForRead up to its await: a hit returns at once, a miss joins or starts a read. */
  function ArriveAt<T>(s: Cache<T>, c: CallerId): Cache<T> {
    var s := if s.cached.Some? && s.cachedFrom != s.path then Drop(s) else s;
    if s.cached.Some? then s
    else if s.inFlight.Some? then s.(callers := s.callers[c := s.inFlight.value])
    else s.(inFlight := Some(|s.started|), callers := s.callers[c := |s.started|],
            started := s.started + [Read(s.generation, s.path, None)])
  }

  /** The rest of loadQueueForRead: install the result unless something was written since the read
      started. */
  function ResumeCaller<T>(s: Cache<T>, c: CallerId): Cache<T>
    requires Enabled(s, Resume(c))
  {
    var read := s.started[s.callers[c]];
    var s := s.(callers := s.callers - {c});
    if read.generation == s.generation && read.dbPath == s.path
    then s.(cached := read.result, cachedFrom := read.dbPath)
    else s
  }

  function Apply<T>(s: Cache<T>, step: Step<T>): Cache<T>
    requires Enabled(s, step)
  {
    match step
    case Arrive(c) => ArriveAt(s, c)
    case Look(r) => s.(started := s.started[r := s.started[r].(result := Some(s.tables[s.path]))])
    case ClearSlot(r) => if s.inFlight == Some(r) then s.(inFlight := None) else s
    case Fail(r) =>
      s.(inFlight := if s.inFlight == Some(r) then None else s.inFlight,
         callers := map c | c in s.callers && s.callers[c] != r :: s.callers[c])
    case Resume(c) => ResumeCaller(s, c)
    case Invalidate => Drop(s).(pendingWrites := s.pendingWrites + 1)
    case Commit(value) => s.(tables := s.tables[s.path := value], pendingWrites := s.pendingWrites - 1)
    case SwapPath(p) => s.(path := p)
  }

  /** What a caller of loadQueueForRead is given: on a hit, and when its read is over. */
  function Returned<T>(s: Cache<T>, c: CallerId): Option<T>
    requires Enabled(s, Resume(c))
  {
    s.started[s.callers[c]].result
  }

  // ---- the invariant ----

  /** A cached list is the table it was read from, and no write is under way. */
  ghost predicate CacheInv<T>(s: Cache<T>) {
    s.cached.Some? ==> s.pendingWrites == 0 && s.cachedFrom in s.tables && s.cached.value == s.tables[s.cachedFrom]
  }

  /** The same for the result of a read that may still be installed. */
  ghost predicate ReadsInv<T>(s: Cache<T>) {
    && (forall r :: 0 <= r < |s.started| ==> s.started[r].generation <= s.generation)
    && (forall r :: 0 <= r < |s.started| && s.started[r].generation == s.generation && s.started[r].result.Some? ==>
          && s.pendingWrites == 0
          && s.started[r].dbPath in s.tables
          && s.started[r].result.value == s.tables[s.started[r].dbPath])
  }

  ghost predicate SlotInv<T>(s: Cache<T>) {
    && s.path in s.tables
    && (s.inFlight.Some? ==> s.inFlight.value < |s.started|)
    && (forall c :: c in s.callers ==> s.callers[c] < |s.started|)
    && (forall r :: 0 <= r < |s.started| ==> s.started[r].dbPath in s.tables)
  }

  ghost predicate Inv<T>(s: Cache<T>) { CacheInv(s) && ReadsInv(s) && SlotInv(s) }

  /** A read that may still be installed sees what its own database holds, and not while a write has
      invalidated the cache but not committed yet. A read looks at the database of the moment, so the
      path must be its own, or the two databases must hold the same. */
  predicate CleanLook<T(==)>(s: Cache<T>, step: Step<T>) {
    step.Look? && Outstanding(s, step.r) && s.started[step.r].generation == s.generation ==>
      s.pendingWrites == 0 && SeesItsOwn(s, step.r)
  }

  predicate SeesItsOwn<T(==)>(s: Cache<T>, r: ReadId)
    requires r < |s.started|
  {
    s.path in s.tables && s.started[r].dbPath in s.tables && s.tables[s.path] == s.tables[s.started[r].dbPath]
  }

  lemma StepKeepsInv<T>(s: Cache<T>, step: Step<T>)
    requires Inv(s) && Enabled(s, step) && CleanLook(s, step)
    ensures Inv(Apply(s, step))
  {
  }

  // ---- whole runs ----

  ghost predicate Legal<T>(s: Cache<T>, steps: seq<Step<T>>)
    decreases |steps|
  {
    steps == [] || (Enabled(s, steps[0]) && Legal(Apply(s, steps[0]), steps[1..]))
  }

  ghost function Outcome<T>(s: Cache<T>, steps: seq<Step<T>>): Cache<T>
    requires Legal(s, steps)
    decreases |steps|
  {
    if steps == [] then s else Outcome(Apply(s, steps[0]), steps[1..])
  }

  ghost predicate CleanAlong<T>(s: Cache<T>, steps: seq<Step<T>>)
    requires Legal(s, steps)
    decreases |steps|
  {
    steps == [] || (CleanLook(s, steps[0]) && CleanAlong(Apply(s, steps[0]), steps[1..]))
  }

  lemma {:induction false} RunKeepsInv<T>(s: Cache<T>, steps: seq<Step<T>>)
    requires Inv(s) && Legal(s, steps) && CleanAlong(s, steps)
    ensures Inv(Outcome(s, steps))
    decreases |steps|
  {
    if steps != [] {
      StepKeepsInv(s, steps[0]);
      RunKeepsInv(Apply(s, steps[0]), steps[1..]);
    }
  }

  ghost predicate Stale<T>(s: Cache<T>) {
    s.cached.Some? && s.cachedFrom == s.path && s.path in s.tables && s.cached.value != s.tables[s.path]
  }

  /** Under any interleaving of reads, piggybacked reads, path swaps and writes whose reads look at
      the table cleanly, a cache for the current database equals its table. */
  lemma CacheEqualsTable<T>(tables: map<Path, T>, path: Path, steps: seq<Step<T>>)
    requires path in tables && Legal(Cold(tables, path), steps) && CleanAlong(Cold(tables, path), steps)
    ensures var s := Outcome(Cold(tables, path), steps);
      s.cached.Some? && s.cachedFrom == s.path ==> s.path in s.tables && s.cached.value == s.tables[s.path]
  {
    RunKeepsInv(Cold(tables, path), steps);
  }

  /** Invalidate and commit as one step. */
  ghost predicate AtomicWrites<T>(steps: seq<Step<T>>) {
    && (forall i :: 0 <= i < |steps| && steps[i].Invalidate? ==> i + 1 < |steps| && steps[i + 1].Commit?)
    && (forall i :: 0 <= i < |steps| && steps[i].Commit? ==> 0 < i && steps[i - 1].Invalidate?)
  }

  /** Path swaps never make a read that may be installed see another database's content. */
  ghost predicate OwnDatabaseAlong<T>(s: Cache<T>, steps: seq<Step<T>>)
    requires Legal(s, steps)
    decreases |steps|
  {
    steps == [] || (OwnDatabase(s, steps[0]) && OwnDatabaseAlong(Apply(s, steps[0]), steps[1..]))
  }

  predicate OwnDatabase<T(==)>(s: Cache<T>, step: Step<T>) {
    step.Look? && Outstanding(s, step.r) && s.started[step.r].generation == s.generation ==> SeesItsOwn(s, step.r)
  }

  ghost predicate OnePath<T>(s: Cache<T>) {
    forall r :: 0 <= r < |s.started| ==> s.started[r].dbPath == s.path
  }

  /** Without path swaps that is so of itself. */
  lemma {:induction false} OnePathSeesItsOwn<T>(s: Cache<T>, steps: seq<Step<T>>)
    requires SlotInv(s) && OnePath(s) && Legal(s, steps) && forall i :: 0 <= i < |steps| ==> !steps[i].SwapPath?
    ensures OwnDatabaseAlong(s, steps)
    decreases |steps|
  {
    if steps != [] { OnePathSeesItsOwn(Apply(s, steps[0]), steps[1..]); }
  }

  lemma {:induction false} AtomicWritesAreClean<T>(s: Cache<T>, steps: seq<Step<T>>)
    requires Legal(s, steps) && AtomicWrites(steps) && OwnDatabaseAlong(s, steps) && s.pendingWrites == 0
    ensures CleanAlong(s, steps)
    decreases |steps|
  {
    if steps != [] {
      var k := Apply(s, steps[0]);
      assert CleanLook(s, steps[0]);
      if steps[0].Invalidate? {
        var m := Apply(k, steps[1]);
        assert steps[1..][0] == steps[1] && steps[1..][1..] == steps[2..];
        assert CleanLook(k, steps[1]);
        AtomicTail(steps, 2);
        AtomicWritesAreClean(m, steps[2..]);
        assert CleanAlong(k, steps[1..]);
      } else {
        assert !steps[0].Commit?;
        AtomicTail(steps, 1);
        AtomicWritesAreClean(k, steps[1..]);
      }
    }
  }

  lemma AtomicTail<T>(steps: seq<Step<T>>, k: nat)
    requires AtomicWrites(steps) && 0 < k <= |steps| && !steps[k - 1].Invalidate?
    ensures AtomicWrites(steps[k..])
  {
    var tail := steps[k..];
    assert forall i :: 0 <= i < |tail| ==> tail[i] == steps[i + k];
    forall i | 0 <= i < |tail| && tail[i].Commit? ensures 0 < i && tail[i - 1].Invalidate? {
      assert steps[i + k].Commit? && steps[i + k - 1].Invalidate?;
    }
    forall i | 0 <= i < |tail| && tail[i].Invalidate? ensures i + 1 < |tail| && tail[i + 1].Commit? {
      assert steps[i + k].Invalidate? && steps[i + k + 1].Commit?;
    }
  }

  /** So with each write taken as one step the cache always equals the table, path swaps included as
      long as no read is answered from another database that differs. */
  lemma AtomicWritesKeepCache<T>(tables: map<Path, T>, path: Path, steps: seq<Step<T>>)
    requires path in tables && Legal(Cold(tables, path), steps) && AtomicWrites(steps)
    requires OwnDatabaseAlong(Cold(tables, path), steps) || forall i :: 0 <= i < |steps| ==> !steps[i].SwapPath?
    ensures !Stale(Outcome(Cold(tables, path), steps))
  {
    if forall i :: 0 <= i < |steps| ==> !steps[i].SwapPath? { OnePathSeesItsOwn(Cold(tables, path), steps); }
    AtomicWritesAreClean(Cold(tables, path), steps);
    CacheEqualsTable(tables, path, steps);
  }

  // ---- superseded reads ----

  /** A read that a write or a path mismatch has superseded is returned but not installed. */
  lemma SupersededReadIsNotInstalled<T>(s: Cache<T>, c: CallerId)
    requires Enabled(s, Resume(c)) && s.started[s.callers[c]].generation != s.generation
    ensures var k := Apply(s, Resume(c));
      k.cached == s.cached && k.cachedFrom == s.cachedFrom && Returned(s, c).Some?
  {
  }

  /** Generations only grow, and every invalidation supersedes the reads before it. */
  lemma {:induction false} InvalidationSupersedes<T>(s: Cache<T>, steps: seq<Step<T>>, r: ReadId)
    requires Legal(s, steps) && r < |s.started| && s.started[r].generation <= s.generation
    ensures var k := Outcome(s, steps);
      && r < |k.started| && k.started[r].generation == s.started[r].generation && k.generation >= s.generation
      && ((exists i :: 0 <= i < |steps| && steps[i].Invalidate?) ==> k.started[r].generation < k.generation)
    decreases |steps|
  {
    if steps != [] {
      var k := Apply(s, steps[0]);
      InvalidationSupersedes(k, steps[1..], r);
      if i :| 0 <= i < |steps| && steps[i].Invalidate? {
        if i > 0 { assert steps[1..][i - 1].Invalidate?; }
      }
    }
  }

  /** What a read returns is what the current table held at some moment after the read started. */
  lemma {:induction false} ResultIsATableState<T>(s: Cache<T>, steps: seq<Step<T>>, r: ReadId) returns (n: nat)
    requires Legal(s, steps) && Outstanding(s, r)
    requires r < |Outcome(s, steps).started| && Outcome(s, steps).started[r].result.Some?
    ensures n <= |steps| && Legal(s, steps[..n])
    ensures var m := Outcome(s, steps[..n]);
      m.path in m.tables && Outcome(s, steps).started[r].result == Some(m.tables[m.path])
    decreases |steps|
  {
    var k := Apply(s, steps[0]);
    if steps[0] == Look(r) {
      n := 0;
      ResultStays(k, steps[1..], r);
    } else {
      assert Outstanding(k, r);
      var m := ResultIsATableState(k, steps[1..], r);
      n := m + 1;
      assert steps[..n][1..] == steps[1..][..m] && steps[..n][0] == steps[0];
    }
  }

  lemma {:induction false} ResultStays<T>(s: Cache<T>, steps: seq<Step<T>>, r: ReadId)
    requires Legal(s, steps) && r < |s.started| && s.started[r].result.Some?
    ensures r < |Outcome(s, steps).started| && Outcome(s, steps).started[r].result == s.started[r].result
    decreases |steps|
  {
    if steps != [] { ResultStays(Apply(s, steps[0]), steps[1..], r); }
  }

  /** A caller that waits can always be brought on: its read can look, or is over and the caller resumes. */
  lemma NoReaderIsStuck<T>(s: Cache<T>, c: CallerId)
    requires SlotInv(s) && c in s.callers
    ensures Enabled(s, Resume(c)) || Enabled(s, Look(s.callers[c]))
  {
  }

  // ---- the window between invalidating and committing ----

  ghost predicate CanGoStale<T(!new)>(s: Cache<T>) {
    exists steps: seq<Step<T>> :: Legal(s, steps) && CleanAlong(s, steps) && Stale(Outcome(s, steps))
  }

  /** The exact condition under which a read that looks at the table makes a stale cache possible, in
      some continuation whose other looks are clean: nothing has been invalidated since the read
      started, and either a write is between its invalidate and its commit, or the path was swapped and
      the database that the read sees differs from its own. */
  lemma LookHarmfulIff<T(!new)>(s: Cache<T>, c: CallerId, other: T)
    requires Inv(s) && c in s.callers && Outstanding(s, s.callers[c]) && other != s.tables[s.path]
    ensures CanGoStale(Apply(s, Look(s.callers[c]))) <==>
      s.started[s.callers[c]].generation == s.generation
        && (s.pendingWrites > 0 || s.tables[s.path] != s.tables[s.started[s.callers[c]].dbPath])
  {
    var r := s.callers[c];
    var k := Apply(s, Look(r));
    if CleanLook(s, Look(r)) {
      StepKeepsInv(s, Look(r));
      if CanGoStale(k) {
        var steps: seq<Step<T>> :| Legal(k, steps) && CleanAlong(k, steps) && Stale(Outcome(k, steps));
        RunKeepsInv(k, steps);
      }
    } else if s.tables[s.path] != s.tables[s.started[r].dbPath] {
      InstalledAtOnce(k, c);
    } else {
      InstalledAfterCommit(k, c, other);
    }
  }

  lemma FirstStep<T(!new)>(s: Cache<T>, a: Step<T>)
    requires Enabled(s, a) && !a.Look? && CanGoStale(Apply(s, a))
    ensures CanGoStale(s)
  {
    var k := Apply(s, a);
    var rest: seq<Step<T>> :| Legal(k, rest) && CleanAlong(k, rest) && Stale(Outcome(k, rest));
    var steps := [a] + rest;
    assert steps[0] == a && steps[1..] == rest;
    assert Legal(s, steps) && CleanAlong(s, steps) && Outcome(s, steps) == Outcome(k, rest);
  }

  lemma StaleNow<T(!new)>(s: Cache<T>)
    requires Stale(s)
    ensures CanGoStale(s)
  {
    assert Legal(s, []) && CleanAlong(s, []) && Outcome(s, []) == s;
  }

  /** The path is swapped back and the caller installs what it read elsewhere. */
  lemma InstalledAtOnce<T(!new)>(s: Cache<T>, c: CallerId)
    requires SlotInv(s) && Enabled(s, Resume(c)) && s.started[s.callers[c]].generation == s.generation
    requires s.started[s.callers[c]].result.value != s.tables[s.started[s.callers[c]].dbPath]
    ensures CanGoStale(s)
  {
    var d := s.started[s.callers[c]].dbPath;
    var k := Apply(s, SwapPath(d));
    StaleNow(Apply(k, Resume(c)));
    FirstStep(k, Resume(c));
    FirstStep(s, SwapPath(d));
  }

  /** The write commits after the look, and the caller installs what was there before. */
  lemma InstalledAfterCommit<T(!new)>(s: Cache<T>, c: CallerId, other: T)
    requires SlotInv(s) && Enabled(s, Resume(c)) && s.started[s.callers[c]].generation == s.generation
    requires s.pendingWrites > 0 && s.started[s.callers[c]].result.value != other
    ensures CanGoStale(s)
  {
    var d := s.started[s.callers[c]].dbPath;
    var k := Apply(s, SwapPath(d));
    var m := Apply(k, Commit(other));
    StaleNow(Apply(m, Resume(c)));
    FirstStep(m, Resume(c));
    FirstStep(k, Commit(other));
    FirstStep(s, SwapPath(d));
  }

  lemma OneStep<T>(s: Cache<T>, steps: seq<Step<T>>)
    requires steps != [] && Enabled(s, steps[0]) && Legal(Apply(s, steps[0]), steps[1..])
    ensures Legal(s, steps) && Outcome(s, steps) == Outcome(Apply(s, steps[0]), steps[1..])
  {
  }

  /** A run that goes stale without any write: the path is swapped while a read is waiting to look, and
      swapped back before its caller installs what it saw. */
  lemma SwapAloneGoesStale()
    ensures var cold := Cold(map["a" := 0, "b" := 1], "a");
      var steps := [Arrive(0), SwapPath("b"), Look(0), SwapPath("a"), Resume(0)];
      Legal(cold, steps) && Stale(Outcome(cold, steps))
  {
    var steps: seq<Step<int>> := [Arrive(0), SwapPath("b"), Look(0), SwapPath("a"), Resume(0)];
    var s0 := Cold(map["a" := 0, "b" := 1], "a");
    var s1 := Apply(s0, steps[0]);
    var s2 := Apply(s1, steps[1]);
    var s3 := Apply(s2, steps[2]);
    var s4 := Apply(s3, steps[3]);
    var s5 := Apply(s4, steps[4]);
    assert steps[1..][1..] == steps[2..] && steps[2..][1..] == steps[3..];
    assert steps[3..][1..] == steps[4..] && steps[4..][1..] == [];
    OneStep(s4, steps[4..]);
    OneStep(s3, steps[3..]);
    OneStep(s2, steps[2..]);
    OneStep(s1, steps[1..]);
  }

  /** As coded, such a look happens: the write invalidates, a reader starts and looks, the write
      commits, and the old list is installed. */
  lemma StaleCacheReachable(path: Path)
    ensures var steps := [Invalidate, Arrive(0), Look(0), Commit(1), Resume(0)];
      Legal(Cold(map[path := 0], path), steps) && Stale(Outcome(Cold(map[path := 0], path), steps))
  {
    var steps: seq<Step<int>> := [Invalidate, Arrive(0), Look(0), Commit(1), Resume(0)];
    var s0 := Cold(map[path := 0], path);
    var s1 := Apply(s0, steps[0]);
    var s2 := Apply(s1, steps[1]);
    var s3 := Apply(s2, steps[2]);
    var s4 := Apply(s3, steps[3]);
    var s5 := Apply(s4, steps[4]);
    assert steps[1..][1..] == steps[2..] && steps[2..][1..] == steps[3..];
    assert steps[3..][1..] == steps[4..] && steps[4..][1..] == [];
    OneStep(s4, steps[4..]);
    OneStep(s3, steps[3..]);
    OneStep(s2, steps[2..]);
    OneStep(s1, steps[1..]);
  }

  // ---- the module variables, updated in place ----

  class QueueReadCache<T(!new)> {
    var tables: map<Path, T>
    var path: Path
    var cachedQueue: Option<T>
    var cachedFromDbPath: Path
    var cacheGeneration: nat
    var inFlightRead: Option<ReadId>
    var started: seq<Read<T>>
    var callers: map<CallerId, ReadId>
    ghost var pendingWrites: nat

    ghost function View(): Cache<T>
      reads this
    {
      Cache(tables, path, cachedQueue, cachedFromDbPath, cacheGeneration, inFlightRead, started, callers, pendingWrites)
    }

    /** What is cached, or may still be installed, is what its database holds. */
    ghost predicate Valid()
      reads this
    {
      Inv(View())
    }

    constructor (tables: map<Path, T>, path: Path)
      requires path in tables
      ensures Valid() && View() == Cold(tables, path)
    {
      this.tables, this.path, cachedQueue, cachedFromDbPath := tables, path, None, path;
      cacheGeneration, inFlightRead, started, callers, pendingWrites := 0, None, [], map[], 0;
    }

    /** Supersedes every read started so far. */
    method InvalidateQueueReadCache()
      requires Valid()
      modifies this`cachedQueue, this`cacheGeneration
      ensures Valid() && View() == Drop(old(View()))
      ensures cachedQueue.None? && forall r :: 0 <= r < |started| ==> started[r].generation < cacheGeneration
    {
      cachedQueue := None;
      cacheGeneration := cacheGeneration + 1;
    }

    method BeginWrite()
      requires Valid()
      modifies this
      ensures Valid() && View() == Apply(old(View()), Invalidate)
    {
      InvalidateQueueReadCache();
      pendingWrites := pendingWrites + 1;
    }

    method CommitWrite(value: T)
      requires Valid() && Enabled(View(), Commit(value))
      modifies this
      ensures Valid() && View() == Apply(old(View()), Commit(value))
      ensures tables == old(tables)[path := value]
    {
      tables := tables[path := value];
      pendingWrites := pendingWrites - 1;
    }

    /** loadQueueForRead up to its await. A hit is returned without one and is the table of the current
        database; else the caller waits for a read. */
    method LoadQueueForRead(c: CallerId) returns (hit: Option<T>)
      requires Valid() && Enabled(View(), Arrive(c))
      modifies this
      ensures Valid() && View() == Apply(old(View()), Arrive(c))
      ensures hit.Some? ==> path in tables && hit.value == tables[path]
      ensures hit.Some? <==> old(cachedQueue.Some? && cachedFromDbPath == path)
      ensures hit.None? ==>
        && c in callers && callers[c] < |started| && inFlightRead == Some(callers[c])
        && callers[c] == (if old(inFlightRead).Some? then old(inFlightRead).value else |old(started)|)
        && (old(inFlightRead).None? ==> started == old(started) + [Read(cacheGeneration, path, None)])
    {
      if cachedQueue.Some? && cachedFromDbPath != path {
        InvalidateQueueReadCache();
      }
      if cachedQueue.Some? {
        return cachedQueue;
      }
      if inFlightRead.None? {
        inFlightRead := Some(|started|);
        started := started + [Read(cacheGeneration, path, None)];
      }
      callers := callers[c := inFlightRead.value];
      hit := None;
    }

    /** The one stretch that can spoil the cache, when it comes inside a write or after a path swap. */
    method ReadLooks(r: ReadId)
      requires Valid() && Enabled(View(), Look(r))
      modifies this`started
      ensures View() == Apply(old(View()), Look(r))
      ensures r < |started| && started[r].result == Some(tables[path])
      ensures old(CleanLook(View(), Look(r))) ==> Valid()
    {
      if CleanLook(View(), Look(r)) { StepKeepsInv(View(), Look(r)); }
      started := started[r := started[r].(result := Some(tables[path]))];
    }

    /** Nobody joins a read that is over, and a later read keeps its place. */
    method ReadSettles(r: ReadId)
      requires Valid() && Enabled(View(), ClearSlot(r))
      modifies this`inFlightRead
      ensures Valid() && View() == Apply(old(View()), ClearSlot(r))
      ensures inFlightRead != Some(r) && (old(inFlightRead) != Some(r) ==> inFlightRead == old(inFlightRead))
    {
      if inFlightRead == Some(r) {
        inFlightRead := None;
      }
    }

    /** A read that fails leaves the slot, takes the callers that wait for it with it and nobody else, and
        touches no cached value. */
    method ReadFails(r: ReadId)
      requires Valid() && Enabled(View(), Fail(r))
      modifies this`inFlightRead, this`callers
      ensures Valid() && View() == Apply(old(View()), Fail(r))
      ensures inFlightRead != Some(r) && (old(inFlightRead) != Some(r) ==> inFlightRead == old(inFlightRead))
      ensures forall c :: c in callers <==> c in old(callers) && old(callers)[c] != r
      ensures forall c :: c in callers ==> callers[c] == old(callers)[c]
    {
      if inFlightRead == Some(r) {
        inFlightRead := None;
      }
      callers := map c | c in callers && callers[c] != r :: callers[c];
    }

    /** The caller is given what its read saw; a read that a write has superseded is not installed, and
        what is installed is the current table. */
    method CallerResumes(c: CallerId) returns (queue: T)
      requires Valid() && Enabled(View(), Resume(c))
      modifies this
      ensures Valid() && View() == Apply(old(View()), Resume(c))
      ensures Some(queue) == Returned(old(View()), c)
      ensures old(started[callers[c]].generation == cacheGeneration && started[callers[c]].dbPath == path) ==>
        path in tables && cachedQueue == Some(queue) && queue == tables[path] && cachedFromDbPath == path
      ensures !old(started[callers[c]].generation == cacheGeneration && started[callers[c]].dbPath == path) ==>
        cachedQueue == old(cachedQueue) && cachedFromDbPath == old(cachedFromDbPath)
    {
      var read := started[callers[c]];
      queue := read.result.value;
      callers := callers - {c};
      if read.generation == cacheGeneration && read.dbPath == path {
        cachedQueue := Some(queue);
        cachedFromDbPath := read.dbPath;
      }
    }
  }
}
