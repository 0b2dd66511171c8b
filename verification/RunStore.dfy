/** The scheduler's run history: one retained document, newest first, in which the missed slots of a
    job collapse into one recovery entry. Times are milliseconds; fresh ids are parameters. */
module RunStore {
  import opened Common
  import PromiseChain

  datatype Status = Running | Success | Error | Skipped
  datatype Trigger = Schedule | Manual | Pipeline | Event
  datatype SkipReason = Missed | Overlap | NoWork

  datatype Attempt = Attempt(attempt: nat, status: Status, startedAt: int, finishedAt: int)

  datatype Run = Run(
    id: nat,
    job: string,
    modelAlias: string,
    trigger: Trigger,
    startedAt: int,
    finishedAt: Option<int>,
    status: Status,
    error: Option<string>,
    skipReason: Option<SkipReason>,
    missedSlotCount: Option<nat>,
    attempts: seq<Attempt>)

  const RETENTION: nat := 200

  function StartedAt(r: Run): int { r.startedAt }

  /** Loading and saving both sort the document and keep the newest records. */
  function Normalize(runs: seq<Run>): seq<Run> {
    Take(SortDesc(runs, StartedAt), RETENTION)
  }

  predicate Recoverable(r: Run) {
    r.status == Skipped && r.trigger == Schedule && r.skipReason == Some(Missed)
  }

  /** The recovery entries of one job, and all the other records. */
  function MissOf(job: string): Run -> bool { (r: Run) => Recoverable(r) && r.job == job }

  function NotMissOf(job: string): Run -> bool { (r: Run) => !(Recoverable(r) && r.job == job) }

  function Misses(runs: seq<Run>, job: string): seq<Run> { Filter(runs, MissOf(job)) }

  function Others(runs: seq<Run>, job: string): seq<Run> { Filter(runs, NotMissOf(job)) }

  function Slots(r: Run): nat { if r.missedSlotCount.Some? then r.missedSlotCount.value else 1 }

  function SlotSum(runs: seq<Run>): nat { if runs == [] then 0 else Slots(runs[0]) + SlotSum(runs[1..]) }

  /** Replacing the record with this id, wherever it is. */
  function Update(runs: seq<Run>, id: nat, f: Run -> Run): seq<Run> {
    if runs == [] then []
    else [if runs[0].id == id then f(runs[0]) else runs[0]] + Update(runs[1..], id, f)
  }

  predicate HasId(runs: seq<Run>, id: nat) { exists i :: 0 <= i < |runs| && runs[i].id == id }

  // ---- the operations, as functions of the loaded document ----

  datatype MissInput = MissInput(job: string, modelAlias: string, scheduledAt: int, recordedAt: int, error: string)

  datatype Op =
    | Start(id: nat, job: string, modelAlias: string, trigger: Trigger, startedAt: int)
    | RecordAttempt(id: nat, attempt: Attempt)
    | Finish(id: nat, finishedAt: int, status: Status, error: Option<string>, skipReason: Option<SkipReason>)
    | RecordMissed(id: nat, miss: MissInput)
    | Dismiss(id: nat)
    | DismissJobs(jobs: set<string>)
    | Abandon(finishedAt: int, reason: string)

  function NewRun(op: Op): Run
    requires op.Start?
  {
    Run(op.id, op.job, op.modelAlias, op.trigger, op.startedAt, None, Running, None, None, None, [])
  }

  function NewMiss(id: nat, m: MissInput): Run {
    Run(id, m.job, m.modelAlias, Schedule, m.scheduledAt, Some(m.recordedAt), Skipped, Some(m.error),
        Some(Missed), Some(1), [])
  }

  /** The entry that stands for all the job's entries and the new slot. */
  function Collapsed(entries: seq<Run>, m: MissInput): Run
    requires entries != []
  {
    var existing := entries[0];
    var isNewerSlot := m.scheduledAt > existing.startedAt;
    existing.(
      modelAlias := m.modelAlias,
      startedAt := if isNewerSlot then m.scheduledAt else existing.startedAt,
      finishedAt := Some(m.recordedAt),
      error := if isNewerSlot then Some(m.error) else existing.error,
      missedSlotCount := Some(1 + SlotSum(entries)))
  }

  function NotIn(ids: set<nat>): Run -> bool { (r: Run) => r.id !in ids }

  function Constant(r: Run): Run -> Run { (_: Run) => r }

  function IdsOf(runs: seq<Run>): set<nat> { set i | 0 <= i < |runs| :: runs[i].id }

  function CollapseList(runs: seq<Run>, m: MissInput): seq<Run>
    requires Misses(runs, m.job) != []
  {
    var entries := Misses(runs, m.job);
    Update(Filter(runs, NotIn(IdsOf(entries[1..]))), entries[0].id, Constant(Collapsed(entries, m)))
  }

  function InsertAttempt(a: Attempt, s: seq<Attempt>): seq<Attempt> {
    if s == [] || a.attempt < s[0].attempt then [a] + s
    else if s[0].attempt == a.attempt then InsertAttempt(a, s[1..])
    else [s[0]] + InsertAttempt(a, s[1..])
  }

  function WithAttempt(a: Attempt): Run -> Run {
    (r: Run) => r.(attempts := InsertAttempt(a, r.attempts))
  }

  function Finished(op: Op): Run -> Run
    requires op.Finish?
  {
    (r: Run) => r.(finishedAt := Some(op.finishedAt), status := op.status, error := op.error,
                   skipReason := if op.skipReason.Some? then op.skipReason else r.skipReason)
  }

  predicate IsUnfinished(r: Run) { r.status == Running && r.finishedAt.None? }

  function AbandonAll(runs: seq<Run>, finishedAt: int, error: string): seq<Run> {
    if runs == [] then []
    else [if IsUnfinished(runs[0])
          then runs[0].(finishedAt := Some(finishedAt), status := Error, error := Some(error))
          else runs[0]] + AbandonAll(runs[1..], finishedAt, error)
  }

  function KeptByDismiss(id: nat): Run -> bool { (r: Run) => !(r.id == id && Recoverable(r)) }

  function KeptByJobs(jobs: set<string>): Run -> bool { (r: Run) => !(Recoverable(r) && r.job in jobs) }

  /** The list that an operation saves, given the list it loaded. */
  function Saved(runs: seq<Run>, op: Op): seq<Run> {
    match op
    case Start(_, _, _, _, _) => [NewRun(op)] + runs
    case RecordAttempt(id, attempt) => Update(runs, id, WithAttempt(attempt))
    case Finish(id, _, _, _, _) => Update(runs, id, Finished(op))
    case RecordMissed(id, m) => if Misses(runs, m.job) != [] then CollapseList(runs, m) else [NewMiss(id, m)] + runs
    case Dismiss(id) => Filter(runs, KeptByDismiss(id))
    case DismissJobs(jobs) => Filter(runs, KeptByJobs(jobs))
    case Abandon(finishedAt, error) => AbandonAll(runs, finishedAt, error)
  }

  /** One whole load-modify-save operation. */
  function Perform(doc: seq<Run>, op: Op): seq<Run> {
    Normalize(Saved(Normalize(doc), op))
  }

  // ---- the invariant ----

  predicate DistinctIds(runs: seq<Run>) {
    runs == [] || (!HasId(runs[1..], runs[0].id) && DistinctIds(runs[1..]))
  }

  predicate AscendingAttempts(s: seq<Attempt>) {
    forall i, j :: 0 <= i < j < |s| ==> s[i].attempt < s[j].attempt
  }

  /** A record is running exactly while it has no finish time; a record marked missed is a recovery
      entry; its attempts are numbered in order. */
  predicate RecordOk(r: Run) {
    && (r.status == Running <==> r.finishedAt.None?)
    && (r.skipReason == Some(Missed) ==> Recoverable(r))
    && AscendingAttempts(r.attempts)
  }

  ghost predicate Ordered(runs: seq<Run>) {
    && SortedDesc(runs, StartedAt)
    && |runs| <= RETENTION
    && DistinctIds(runs)
    && forall r :: r in runs ==> RecordOk(r)
  }

  ghost predicate OneEntryPerJob(runs: seq<Run>) {
    forall job :: |Misses(runs, job)| <= 1
  }

  ghost predicate StoreInv(runs: seq<Run>) {
    Ordered(runs) && OneEntryPerJob(runs)
  }

  /** What the callers guarantee: new ids are fresh, and a run is finished by whoever started it, so
      never with the reason `missed` and never on a recovery entry. */
  predicate CallerOk(runs: seq<Run>, op: Op) {
    match op
    case Start(id, _, _, _, _) => !HasId(runs, id)
    case RecordMissed(id, _) => !HasId(runs, id)
    case Finish(id, _, status, _, skipReason) =>
      && status != Running
      && skipReason != Some(Missed)
      && forall i :: 0 <= i < |runs| && runs[i].id == id ==> runs[i].skipReason != Some(Missed)
    case _ => true
  }

  // ---- ids ----

  lemma {:induction false} InsertKeepsIds(x: Run, s: seq<Run>)
    ensures forall id :: HasId(InsertDesc(x, s, StartedAt), id) <==> id == x.id || HasId(s, id)
    ensures DistinctIds(s) && !HasId(s, x.id) ==> DistinctIds(InsertDesc(x, s, StartedAt))
  {
    var r := InsertDesc(x, s, StartedAt);
    forall id ensures HasId(r, id) <==> id == x.id || HasId(s, id) {
      if HasId(r, id) {
        var i :| 0 <= i < |r| && r[i].id == id;
        assert r[i] in r;
      }
      if HasId(s, id) {
        var i :| 0 <= i < |s| && s[i].id == id;
        assert s[i] in r;
        var k :| 0 <= k < |r| && r[k] == s[i];
      }
      assert x in r;
    }
    if s != [] && StartedAt(s[0]) > StartedAt(x) {
      InsertKeepsIds(x, s[1..]);
      assert r == [s[0]] + InsertDesc(x, s[1..], StartedAt);
      HasIdCons(s, x.id);
    } else {
      assert r == [x] + s && r[1..] == s;
    }
  }

  lemma {:induction false} SortKeepsIds(s: seq<Run>)
    ensures forall id :: HasId(SortDesc(s, StartedAt), id) <==> HasId(s, id)
    ensures DistinctIds(s) ==> DistinctIds(SortDesc(s, StartedAt))
  {
    if s != [] {
      SortKeepsIds(s[1..]);
      InsertKeepsIds(s[0], SortDesc(s[1..], StartedAt));
      forall id ensures HasId(s, id) <==> id == s[0].id || HasId(s[1..], id) {
        HasIdCons(s, id);
      }
    }
  }

  lemma HasIdCons(s: seq<Run>, id: nat)
    requires s != []
    ensures HasId(s, id) <==> id == s[0].id || HasId(s[1..], id)
  {
    if HasId(s, id) && id != s[0].id {
      var i :| 0 <= i < |s| && s[i].id == id;
      assert s[1..][i - 1].id == id;
    }
    if HasId(s[1..], id) {
      var i :| 0 <= i < |s[1..]| && s[1..][i].id == id;
      assert s[i + 1].id == id;
    }
  }

  lemma {:induction false} TakeKeepsIds(s: seq<Run>, n: nat)
    requires DistinctIds(s)
    ensures DistinctIds(Take(s, n))
  {
    if |s| > n && n > 0 {
      TakeKeepsIds(s[1..], n - 1);
      assert s[..n][1..] == s[1..][..n - 1] == Take(s[1..], n - 1);
      assert forall i :: 0 <= i < n - 1 ==> s[..n][1..][i] == s[1..][i];
    }
  }

  lemma {:induction false} FilterKeepsIds(s: seq<Run>, p: Run -> bool)
    requires DistinctIds(s)
    ensures DistinctIds(Filter(s, p))
    ensures forall id :: HasId(Filter(s, p), id) ==> HasId(s, id)
  {
    if s != [] {
      FilterKeepsIds(s[1..], p);
      var f := Filter(s[1..], p);
      forall id | HasId(Filter(s, p), id) ensures HasId(s, id) {
        HasIdCons(s, id);
        HasIdCons(Filter(s, p), id);
        if p(s[0]) { assert Filter(s, p)[1..] == f; }
      }
      if p(s[0]) { assert ([s[0]] + f)[1..] == f; }
    }
  }

  lemma {:induction false} UpdateKeepsIds(s: seq<Run>, id: nat, f: Run -> Run)
    requires forall r :: r in s && r.id == id ==> f(r).id == id
    ensures |Update(s, id, f)| == |s|
    ensures forall i :: 0 <= i < |s| ==> Update(s, id, f)[i] == if s[i].id == id then f(s[i]) else s[i]
    ensures DistinctIds(s) ==> DistinctIds(Update(s, id, f))
    ensures forall x :: HasId(Update(s, id, f), x) <==> HasId(s, x)
  {
    if s != [] {
      UpdateKeepsIds(s[1..], id, f);
    }
    var u := Update(s, id, f);
    forall x ensures HasId(u, x) <==> HasId(s, x) {
      if HasId(s, x) { var i :| 0 <= i < |s| && s[i].id == x; assert u[i].id == x; }
      if HasId(u, x) { var i :| 0 <= i < |u| && u[i].id == x; assert s[i].id == x; }
    }
  }

  // ---- normalising ----

  lemma NormalizeIdentity(runs: seq<Run>)
    requires Ordered(runs)
    ensures Normalize(runs) == runs
  {
    SortDescIdentity(runs, StartedAt);
  }

  lemma NormalizeOrders(runs: seq<Run>)
    requires DistinctIds(runs) && forall r :: r in runs ==> RecordOk(r)
    ensures Ordered(Normalize(runs))
  {
    SortDescSorted(runs, StartedAt);
    SortKeepsIds(runs);
    TakeKeepsIds(SortDesc(runs, StartedAt), RETENTION);
  }

  /** Records selected from a normalised list are the first of those selected and sorted. */
  lemma NormalizeSelects(runs: seq<Run>, p: Run -> bool)
    ensures Filter(Normalize(runs), p) <= SortDesc(Filter(runs, p), StartedAt)
    ensures |runs| <= RETENTION ==> Filter(Normalize(runs), p) == SortDesc(Filter(runs, p), StartedAt)
  {
    FilterSort(runs, StartedAt, p);
    FilterTake(SortDesc(runs, StartedAt), RETENTION, p);
  }

  lemma NormalizeCount(runs: seq<Run>, p: Run -> bool)
    ensures |Filter(Normalize(runs), p)| <= |Filter(runs, p)|
  {
    NormalizeSelects(runs, p);
  }

  lemma NormalizeKeepsEntries(runs: seq<Run>)
    requires OneEntryPerJob(runs)
    ensures OneEntryPerJob(Normalize(runs))
  {
    forall job ensures |Misses(Normalize(runs), job)| <= 1 {
      NormalizeCount(runs, MissOf(job));
      assert |Misses(runs, job)| <= 1;
    }
  }

  // ---- every operation keeps the store well formed ----

  lemma {:induction false} AttemptInserted(a: Attempt, s: seq<Attempt>)
    requires AscendingAttempts(s)
    ensures AscendingAttempts(InsertAttempt(a, s))
    ensures forall x :: x in InsertAttempt(a, s) <==> x == a || (x in s && x.attempt != a.attempt)
  {
    if s != [] {
      assert AscendingAttempts(s[1..]);
      AttemptInserted(a, s[1..]);
      assert forall x :: x in s <==> x == s[0] || x in s[1..];
      assert forall x :: x in s[1..] ==> x.attempt > s[0].attempt;
      if s[0].attempt < a.attempt { AttemptPrepended(s[0], InsertAttempt(a, s[1..])); }
      if a.attempt < s[0].attempt { AttemptPrepended(a, s); }
    }
  }

  lemma AttemptPrepended(a: Attempt, s: seq<Attempt>)
    requires AscendingAttempts(s) && forall x :: x in s ==> a.attempt < x.attempt
    ensures AscendingAttempts([a] + s)
    ensures forall x :: x in [a] + s <==> x == a || x in s
  {
    var r := [a] + s;
    forall i, j | 0 <= i < j < |r| ensures r[i].attempt < r[j].attempt {
      assert r[j] == s[j - 1] && s[j - 1] in s;
      if i > 0 { assert r[i] == s[i - 1]; }
    }
  }

  lemma {:induction false} UpdateSelects(runs: seq<Run>, id: nat, f: Run -> Run, p: Run -> bool)
    requires forall r :: r in runs && r.id == id ==> p(f(r)) == p(r) && !p(r)
    ensures Filter(Update(runs, id, f), p) == Filter(runs, p)
  {
    if runs != [] {
      UpdateSelects(runs[1..], id, f, p);
      assert Update(runs, id, f)[1..] == Update(runs[1..], id, f);
      assert runs[0] in runs;
    }
  }

  lemma {:induction false} UpdateCount(runs: seq<Run>, id: nat, f: Run -> Run, p: Run -> bool)
    requires forall r :: r in runs && r.id == id ==> p(f(r)) ==> p(r)
    ensures |Filter(Update(runs, id, f), p)| <= |Filter(runs, p)|
  {
    if runs != [] {
      UpdateCount(runs[1..], id, f, p);
      assert Update(runs, id, f)[1..] == Update(runs[1..], id, f);
      assert runs[0] in runs;
    }
  }

  lemma {:induction false} FilterCount(runs: seq<Run>, p: Run -> bool, q: Run -> bool)
    ensures |Filter(Filter(runs, p), q)| <= |Filter(runs, q)|
  {
    if runs != [] {
      FilterCount(runs[1..], p, q);
      if p(runs[0]) { assert Filter(runs, p)[1..] == Filter(runs[1..], p); }
    }
  }

  lemma {:induction false} AbandonKeeps(runs: seq<Run>, finishedAt: int, reason: string)
    requires forall r :: r in runs ==> RecordOk(r)
    ensures var a := AbandonAll(runs, finishedAt, reason);
      && |a| == |runs|
      && (forall i :: 0 <= i < |runs| ==> a[i].id == runs[i].id && RecordOk(a[i]) && a[i].status != Running)
      && (forall i :: 0 <= i < |runs| && runs[i].status != Running ==> a[i] == runs[i])
      && (forall job :: |Misses(a, job)| <= |Misses(runs, job)|)
  {
    if runs != [] {
      AbandonKeeps(runs[1..], finishedAt, reason);
      var a := AbandonAll(runs, finishedAt, reason);
      assert a[1..] == AbandonAll(runs[1..], finishedAt, reason);
      assert runs[0] in runs && RecordOk(runs[0]);
      forall job ensures |Misses(a, job)| <= |Misses(runs, job)| {
        assert |Misses(a[1..], job)| <= |Misses(runs[1..], job)|;
        assert MissOf(job)(a[0]) ==> MissOf(job)(runs[0]);
      }
    }
  }

  lemma {:induction false} SameIds(a: seq<Run>, b: seq<Run>)
    requires |a| == |b| && forall i :: 0 <= i < |a| ==> a[i].id == b[i].id
    ensures DistinctIds(a) ==> DistinctIds(b)
  {
    if a != [] {
      SameIds(a[1..], b[1..]);
      assert forall i :: 0 <= i < |a[1..]| ==> a[1..][i].id == b[1..][i].id;
    }
  }

  /** The saved list is well formed; see the operations one by one. */
  ghost predicate Sound(runs: seq<Run>) {
    DistinctIds(runs) && (forall r :: r in runs ==> RecordOk(r)) && OneEntryPerJob(runs)
  }

  lemma PrependKeeps(runs: seq<Run>, r: Run)
    requires StoreInv(runs) && !HasId(runs, r.id) && RecordOk(r)
    requires Recoverable(r) ==> Misses(runs, r.job) == []
    ensures Sound([r] + runs)
  {
    var s := [r] + runs;
    assert s[1..] == runs;
    forall job ensures |Misses(s, job)| <= 1 {
      assert |Misses(runs, job)| <= 1;
      assert Misses(s, job) == (if MissOf(job)(r) then [r] else []) + Misses(runs, job);
    }
  }

  lemma AttemptKeeps(runs: seq<Run>, id: nat, a: Attempt)
    requires StoreInv(runs)
    ensures Sound(Update(runs, id, WithAttempt(a)))
  {
    var f := WithAttempt(a);
    var s := Update(runs, id, f);
    UpdateKeepsIds(runs, id, f);
    forall r | r in s ensures RecordOk(r) {
      var i :| 0 <= i < |s| && s[i] == r;
      assert RecordOk(runs[i]);
      AttemptInserted(a, runs[i].attempts);
    }
    forall job ensures |Misses(s, job)| <= 1 {
      UpdateCount(runs, id, f, MissOf(job));
      assert |Misses(runs, job)| <= 1;
    }
  }

  lemma FinishKeeps(runs: seq<Run>, op: Op)
    requires StoreInv(runs) && op.Finish? && CallerOk(runs, op)
    ensures Sound(Update(runs, op.id, Finished(op)))
  {
    var f := Finished(op);
    var s := Update(runs, op.id, f);
    UpdateKeepsIds(runs, op.id, f);
    forall r | r in s ensures RecordOk(r) {
      var i :| 0 <= i < |s| && s[i] == r;
      assert RecordOk(runs[i]);
    }
    forall r | r in runs && r.id == op.id ensures !Recoverable(f(r)) {
      var i :| 0 <= i < |runs| && runs[i] == r;
    }
    forall job ensures |Misses(s, job)| <= 1 {
      UpdateCount(runs, op.id, f, MissOf(job));
      assert |Misses(runs, job)| <= 1;
    }
  }

  lemma SelectKeeps(runs: seq<Run>, p: Run -> bool)
    requires StoreInv(runs)
    ensures Sound(Filter(runs, p))
  {
    FilterKeepsIds(runs, p);
    forall job ensures |Misses(Filter(runs, p), job)| <= 1 {
      FilterCount(runs, p, MissOf(job));
      assert |Misses(runs, job)| <= 1;
    }
  }

  lemma AbandonSound(runs: seq<Run>, finishedAt: int, reason: string)
    requires StoreInv(runs)
    ensures Sound(AbandonAll(runs, finishedAt, reason))
  {
    var a := AbandonAll(runs, finishedAt, reason);
    AbandonKeeps(runs, finishedAt, reason);
    SameIds(runs, a);
    forall job ensures |Misses(a, job)| <= 1 {
      assert |Misses(runs, job)| <= 1;
    }
  }

  // ---- collapsing ----

  lemma {:induction false} FilterCommutes(s: seq<Run>, p: Run -> bool, q: Run -> bool)
    ensures Filter(Filter(s, p), q) == Filter(Filter(s, q), p)
  {
    if s != [] { FilterCommutes(s[1..], p, q); }
  }

  lemma {:induction false} FilterUpdate(s: seq<Run>, id: nat, f: Run -> Run, p: Run -> bool)
    requires forall r :: r in s && r.id == id ==> p(f(r)) == p(r)
    ensures Filter(Update(s, id, f), p) == Update(Filter(s, p), id, f)
  {
    if s != [] {
      FilterUpdate(s[1..], id, f, p);
      assert Update(s, id, f)[1..] == Update(s[1..], id, f);
      assert s[0] in s;
    }
  }

  lemma {:induction false} SameIdSameRun(s: seq<Run>, r: Run, q: Run)
    requires DistinctIds(s) && r in s && q in s && r.id == q.id
    ensures r == q
  {
    if r != s[0] && q != s[0] {
      SameIdSameRun(s[1..], r, q);
    } else {
      assert forall x :: x in s[1..] ==> HasId(s[1..], x.id);
    }
  }

  lemma {:induction false} FilterNone(s: seq<Run>, p: Run -> bool)
    requires forall r :: r in s ==> !p(r)
    ensures Filter(s, p) == []
  {
    if s != [] { FilterNone(s[1..], p); }
  }

  /** Ids absorbed by a collapse belong to entries of the job only. */
  lemma AbsorbedAreEntries(runs: seq<Run>, job: string, entries: seq<Run>, absorbed: set<nat>)
    requires DistinctIds(runs) && absorbed == IdsOf(entries)
    requires forall r :: r in entries ==> r in runs && MissOf(job)(r)
    ensures forall r :: r in runs && NotMissOf(job)(r) ==> NotIn(absorbed)(r)
  {
    forall r | r in runs && NotMissOf(job)(r) ensures NotIn(absorbed)(r) {
      if r.id in absorbed {
        var i :| 0 <= i < |entries| && entries[i].id == r.id;
        assert entries[i] in entries;
        SameIdSameRun(runs, r, entries[i]);
      }
    }
  }

  /** Of the job's entries only the newest is left once the others are absorbed. */
  lemma SurplusGone(entries: seq<Run>, absorbed: set<nat>)
    requires DistinctIds(entries) && entries != []
    requires absorbed == IdsOf(entries[1..])
    ensures Filter(entries, NotIn(absorbed)) == [entries[0]]
  {
    var surplus := entries[1..];
    assert entries[0].id !in absorbed;
    forall r | r in surplus ensures !NotIn(absorbed)(r) {
      var i :| 0 <= i < |surplus| && surplus[i] == r;
      assert surplus[i].id in absorbed;
    }
    FilterNone(surplus, NotIn(absorbed));
  }

  /** Replacing the one entry left. */
  lemma EntryReplaced(kept: seq<Run>, e: Run, c: Run, job: string)
    requires DistinctIds(kept) && Misses(kept, job) == [e] && c.id == e.id && MissOf(job)(c)
    ensures Misses(Update(kept, e.id, Constant(c)), job) == [c]
    ensures Others(Update(kept, e.id, Constant(c)), job) == Others(kept, job)
  {
    assert e in Misses(kept, job);
    forall r | r in kept && r.id == e.id ensures r == e {
      SameIdSameRun(kept, r, e);
    }
    FilterUpdate(kept, e.id, Constant(c), MissOf(job));
    assert Update([e], e.id, Constant(c)) == [c];
    UpdateSelects(kept, e.id, Constant(c), NotMissOf(job));
  }

  /** Collapsing leaves one entry of the job and touches no other record. */
  lemma CollapseSelects(runs: seq<Run>, m: MissInput)
    requires DistinctIds(runs) && Misses(runs, m.job) != []
    ensures Misses(CollapseList(runs, m), m.job) == [Collapsed(Misses(runs, m.job), m)]
    ensures Others(CollapseList(runs, m), m.job) == Others(runs, m.job)
    ensures |CollapseList(runs, m)| <= |runs|
    ensures DistinctIds(CollapseList(runs, m))
  {
    var entries := Misses(runs, m.job);
    var surplus := entries[1..];
    var e := entries[0];
    var absorbed := IdsOf(surplus);
    var kept := Filter(runs, NotIn(absorbed));
    var c := Collapsed(entries, m);
    AbsorbedAreEntries(runs, m.job, surplus, absorbed);
    FilterTwice(runs, NotIn(absorbed), NotMissOf(m.job));
    FilterCommutes(runs, NotIn(absorbed), MissOf(m.job));
    FilterKeepsIds(runs, MissOf(m.job));
    SurplusGone(entries, absorbed);
    FilterKeepsIds(runs, NotIn(absorbed));
    assert e in entries;
    EntryReplaced(kept, e, c, m.job);
    forall r | r in kept && r.id == e.id ensures Constant(c)(r).id == e.id {
    }
    UpdateKeepsIds(kept, e.id, Constant(c));
  }

  lemma SortOne(r: Run)
    ensures SortDesc([r], StartedAt) == [r]
  {
  }

  /** Selecting from an ordered document leaves nothing to sort. */
  lemma SortedSelection(doc: seq<Run>, p: Run -> bool)
    requires Ordered(doc)
    ensures SortDesc(Filter(doc, p), StartedAt) == Filter(doc, p)
  {
    NormalizeIdentity(doc);
    NormalizeSelects(doc, p);
  }

  lemma CollapseStored(doc: seq<Run>, id: nat, m: MissInput)
    requires Ordered(doc) && Misses(doc, m.job) != []
    ensures Misses(Perform(doc, RecordMissed(id, m)), m.job) == [Collapsed(Misses(doc, m.job), m)]
    ensures Others(Perform(doc, RecordMissed(id, m)), m.job) == Others(doc, m.job)
  {
    PerformOrdered(doc, RecordMissed(id, m));
    CollapseSelects(doc, m);
    var list := CollapseList(doc, m);
    NormalizeSelects(list, MissOf(m.job));
    SortOne(Collapsed(Misses(doc, m.job), m));
    NormalizeSelects(list, NotMissOf(m.job));
    SortedSelection(doc, NotMissOf(m.job));
  }

  /** A newly missed slot of a job that already has recovery entries, a backlog of them included:
      one entry is left, it keeps the id of the newest, moves to the later of the two slots, and
      stands for one slot more than all of them together; every other record stays as it is, in
      its place. */
  lemma MissCollapses(doc: seq<Run>, id: nat, m: MissInput)
    requires Ordered(doc) && Misses(doc, m.job) != []
    ensures var after := Perform(doc, RecordMissed(id, m));
      && |Misses(after, m.job)| == 1
      && StandsForAll(Misses(after, m.job)[0], Misses(doc, m.job), m)
      && Others(after, m.job) == Others(doc, m.job)
  {
    var entries := Misses(doc, m.job);
    CollapseStored(doc, id, m);
    NormalizeIdentity(doc);
    NormalizeSelects(doc, MissOf(m.job));
    SortDescSorted(entries, StartedAt);
    EntriesAre(doc, m.job);
    CollapsedStandsForAll(entries, m);
  }

  /** The entry of the newest of the given ones, moved to the later slot and counting one slot more than
      all of them. */
  ghost predicate StandsForAll(entry: Run, entries: seq<Run>, m: MissInput)
    requires entries != []
  {
    && entry.id == entries[0].id && entry.modelAlias == m.modelAlias && entry.attempts == entries[0].attempts
    && IsMissOf(entry, m.job) && entry.finishedAt == Some(m.recordedAt)
    && entry.startedAt == (if m.scheduledAt > entries[0].startedAt then m.scheduledAt else entries[0].startedAt)
    && (m.scheduledAt > entries[0].startedAt ==> entry.error == Some(m.error))
    && (m.scheduledAt <= entries[0].startedAt ==> entry.error == entries[0].error)
    && (forall e :: e in entries ==> e.startedAt <= entry.startedAt)
    && entry.missedSlotCount == Some(SlotSum(entries) + 1)
  }

  lemma CollapsedStandsForAll(entries: seq<Run>, m: MissInput)
    requires entries != [] && SortedDesc(entries, StartedAt)
    requires forall e :: e in entries ==> IsMissOf(e, m.job)
    ensures StandsForAll(Collapsed(entries, m), entries, m)
  {
    assert entries[0] in entries;
    forall e | e in entries ensures e.startedAt <= Collapsed(entries, m).startedAt {
      var i :| 0 <= i < |entries| && entries[i] == e;
      assert StartedAt(entries[0]) >= StartedAt(entries[i]);
    }
  }

  /** A recovery entry in plain terms, and how the document splits into those of a job and the rest. */
  predicate IsMissOf(r: Run, job: string) {
    r.job == job && r.status == Skipped && r.trigger == Schedule && r.skipReason == Some(Missed)
  }

  lemma EntriesAre(doc: seq<Run>, job: string)
    ensures forall r :: r in Misses(doc, job) <==> r in doc && IsMissOf(r, job)
    ensures forall r :: r in Others(doc, job) <==> r in doc && !IsMissOf(r, job)
    ensures InOrderOf(Misses(doc, job), doc) && InOrderOf(Others(doc, job), doc)
  {
    FilterKeepsOrder(doc, MissOf(job));
    FilterKeepsOrder(doc, NotMissOf(job));
  }

  /** What a sum of slots is: an entry counts for the slots it stands for, or for one if it does not say. */
  lemma SlotSumOne(r: Run)
    ensures SlotSum([]) == 0
    ensures r.missedSlotCount.Some? ==> SlotSum([r]) == r.missedSlotCount.value
    ensures r.missedSlotCount.None? ==> SlotSum([r]) == 1
  {
  }

  lemma {:induction false} SlotSumAppend(a: seq<Run>, b: seq<Run>)
    ensures SlotSum(a + b) == SlotSum(a) + SlotSum(b)
  {
    if a == [] {
      assert a + b == b;
    } else {
      assert (a + b)[1..] == a[1..] + b;
      SlotSumAppend(a[1..], b);
    }
  }

  /** The count of an entry, one if it does not say, plus one. */
  predicate CountsOneMore(after: Run, before: Run) {
    && (before.missedSlotCount.Some? ==> after.missedSlotCount == Some(before.missedSlotCount.value + 1))
    && (before.missedSlotCount.None? ==> after.missedSlotCount == Some(2))
  }

  lemma CollapsedCountsOneMore(e: Run, m: MissInput)
    ensures CountsOneMore(Collapsed([e], m), e)
  {
    SlotSumOne(e);
  }

  /** One more missed slot raises the count of a job's entry by one and touches none of the others. */
  lemma MissCountsOneMore(doc: seq<Run>, id: nat, m: MissInput, e: Run) returns (entry: Run)
    requires Ordered(doc) && Misses(doc, m.job) == [e]
    ensures Misses(Perform(doc, RecordMissed(id, m)), m.job) == [entry] && CountsOneMore(entry, e)
    ensures Others(Perform(doc, RecordMissed(id, m)), m.job) == Others(doc, m.job)
  {
    CollapseStored(doc, id, m);
    CollapsedCountsOneMore(e, m);
    entry := Collapsed([e], m);
  }

  lemma FirstMissIsOne(doc: seq<Run>, id: nat, m: MissInput)
    requires Ordered(doc) && |doc| < 200 && forall r :: r in doc ==> !IsMissOf(r, m.job)
    ensures Misses(Perform(doc, RecordMissed(id, m)), m.job) == [NewMiss(id, m)]
    ensures Others(Perform(doc, RecordMissed(id, m)), m.job) == Others(doc, m.job)
  {
    FilterNone(doc, MissOf(m.job));
    FirstMissAdds(doc, id, m);
  }

  /** However many slots of a job are missed from a history with room and without an entry for it: one
      entry is left, it counts all of them, and every other record is untouched. */
  lemma {:induction false} MissesAreCounted(doc: seq<Run>, job: string, ops: seq<Op>) returns (entry: Run)
    requires StoreInv(doc) && CallersOk(doc, ops) && |doc| < 200
    requires forall r :: r in doc ==> !IsMissOf(r, job)
    requires ops != [] && forall i :: 0 <= i < |ops| ==> ops[i].RecordMissed? && ops[i].miss.job == job
    ensures Misses(RunAll(doc, ops), job) == [entry] && entry.missedSlotCount == Some(|ops|)
    ensures Others(RunAll(doc, ops), job) == Others(doc, job)
    decreases |ops|
  {
    var n := |ops| - 1;
    var init, m := ops[..n], ops[n].miss;
    if n == 0 {
      assert RunAll(doc, init) == doc;
      FirstMissIsOne(doc, ops[0].id, m);
      entry := NewMiss(ops[0].id, m);
    } else {
      CallersOkPrefix(doc, ops, n);
      var e := MissesAreCounted(doc, job, init);
      RunAllKeepsInv(doc, init);
      entry := MissCountsOneMore(RunAll(doc, init), ops[n].id, m, e);
    }
  }

  lemma CallersOkPrefix(doc: seq<Run>, ops: seq<Op>, n: nat)
    requires CallersOk(doc, ops) && n <= |ops|
    ensures CallersOk(doc, ops[..n])
  {
    var init := ops[..n];
    forall i | 0 <= i < n ensures CallerOk(RunAll(doc, init[..i]), init[i]) {
      assert init[..i] == ops[..i];
    }
  }

  lemma FirstMissSelects(doc: seq<Run>, id: nat, m: MissInput)
    requires Misses(doc, m.job) == []
    ensures Misses([NewMiss(id, m)] + doc, m.job) == [NewMiss(id, m)]
    ensures Others([NewMiss(id, m)] + doc, m.job) == Others(doc, m.job)
  {
    assert ([NewMiss(id, m)] + doc)[1..] == doc;
  }

  /** The record of one missed slot: skipped as missed, by the schedule, at the time of the slot. */
  predicate IsFirstMiss(r: Run, id: nat, m: MissInput) {
    && r.id == id && IsMissOf(r, m.job) && r.modelAlias == m.modelAlias
    && r.startedAt == m.scheduledAt && r.finishedAt == Some(m.recordedAt)
    && r.error == Some(m.error) && r.missedSlotCount == Some(1) && r.attempts == []
  }

  /** The first miss of a job adds an entry for one slot; the rest can only lose its oldest records,
      and nothing is lost below the retention. */
  lemma FirstMissAdds(doc: seq<Run>, id: nat, m: MissInput)
    requires Ordered(doc) && Misses(doc, m.job) == []
    ensures IsFirstMiss(NewMiss(id, m), id, m)
    ensures var after := Perform(doc, RecordMissed(id, m));
      && Misses(after, m.job) <= [NewMiss(id, m)]
      && Others(after, m.job) <= Others(doc, m.job)
      && (|doc| < RETENTION ==> Misses(after, m.job) == [NewMiss(id, m)] && Others(after, m.job) == Others(doc, m.job))
  {
    FirstMissStored(doc, id, m);
    FirstMissSelects(doc, id, m);
    SelectedFromList(doc, [NewMiss(id, m)] + doc, MissOf(m.job));
    SelectedFromList(doc, [NewMiss(id, m)] + doc, NotMissOf(m.job));
    SortOne(NewMiss(id, m));
    SortedSelection(doc, NotMissOf(m.job));
  }

  lemma FirstMissStored(doc: seq<Run>, id: nat, m: MissInput)
    requires Ordered(doc) && Misses(doc, m.job) == []
    ensures Perform(doc, RecordMissed(id, m)) == Normalize([NewMiss(id, m)] + doc)
  {
    PerformOrdered(doc, RecordMissed(id, m));
  }

  lemma SelectedFromList(doc: seq<Run>, list: seq<Run>, p: Run -> bool)
    requires |list| == |doc| + 1
    ensures Filter(Normalize(list), p) <= SortDesc(Filter(list, p), StartedAt)
    ensures |doc| < RETENTION ==> Filter(Normalize(list), p) == SortDesc(Filter(list, p), StartedAt)
  {
    NormalizeSelects(list, p);
  }

  lemma RecordMissedKeeps(runs: seq<Run>, id: nat, m: MissInput)
    requires StoreInv(runs) && !HasId(runs, id)
    ensures Sound(Saved(runs, RecordMissed(id, m)))
  {
    if Misses(runs, m.job) == [] {
      PrependKeeps(runs, NewMiss(id, m));
    } else {
      CollapseSelects(runs, m);
      var list := CollapseList(runs, m);
      var c := Collapsed(Misses(runs, m.job), m);
      assert Misses(runs, m.job)[0] in Misses(runs, m.job);
      forall r | r in list ensures RecordOk(r) {
        if MissOf(m.job)(r) {
          assert r in Misses(list, m.job);
        } else {
          assert r in Others(list, m.job);
        }
      }
      forall job ensures |Misses(list, job)| <= 1 {
        if job != m.job {
          FilterTwice(list, NotMissOf(m.job), MissOf(job));
          FilterTwice(runs, NotMissOf(m.job), MissOf(job));
          assert |Misses(runs, job)| <= 1;
        }
      }
    }
  }

  /** Every operation keeps the list newest first, at most 200 long, with distinct ids, status
      running exactly when there is no finish time, and at most one recovery entry a job. */
  lemma PerformKeepsInv(doc: seq<Run>, op: Op)
    requires StoreInv(doc) && CallerOk(doc, op)
    ensures StoreInv(Perform(doc, op))
  {
    NormalizeIdentity(doc);
    match op {
      case Start(_, _, _, _, _) => PrependKeeps(doc, NewRun(op));
      case RecordAttempt(id, a) => AttemptKeeps(doc, id, a);
      case Finish(_, _, _, _, _) => FinishKeeps(doc, op);
      case RecordMissed(id, m) => RecordMissedKeeps(doc, id, m);
      case Dismiss(id) => SelectKeeps(doc, KeptByDismiss(id));
      case DismissJobs(jobs) => SelectKeeps(doc, KeptByJobs(jobs));
      case Abandon(finishedAt, reason) => AbandonSound(doc, finishedAt, reason);
    }
    NormalizeOrders(Saved(doc, op));
    NormalizeKeepsEntries(Saved(doc, op));
  }

  predicate AbandonedAs(before: Run, after: Run, finishedAt: int, reason: string) {
    after == before.(finishedAt := Some(finishedAt), status := Error, error := Some(reason))
  }

  lemma {:induction false} AbandonAt(runs: seq<Run>, finishedAt: int, reason: string, i: nat)
    requires i < |runs|
    ensures |AbandonAll(runs, finishedAt, reason)| == |runs|
    ensures var r := AbandonAll(runs, finishedAt, reason)[i];
      if IsUnfinished(runs[i]) then AbandonedAs(runs[i], r, finishedAt, reason) else r == runs[i]
  {
    if |runs| > 1 { AbandonAt(runs[1..], finishedAt, reason, if i == 0 then 0 else i - 1); }
  }

  /** After a restart no record is left running: those that were are ended as errors where they stand,
      and every other record is as it was. */
  lemma AbandonLeavesNoneRunning(doc: seq<Run>, finishedAt: int, reason: string)
    requires Ordered(doc)
    ensures var after := Perform(doc, Abandon(finishedAt, reason));
      && |after| == |doc|
      && (forall i :: 0 <= i < |doc| ==> after[i].status != Running)
      && forall i :: 0 <= i < |doc| ==>
        if doc[i].status == Running then AbandonedAs(doc[i], after[i], finishedAt, reason) else after[i] == doc[i]
  {
    var a := AbandonAll(doc, finishedAt, reason);
    PerformOrdered(doc, Abandon(finishedAt, reason));
    AbandonKeeps(doc, finishedAt, reason);
    forall i | 0 <= i < |doc|
      ensures RecordOk(doc[i]) && StartedAt(a[i]) == StartedAt(doc[i])
      ensures if doc[i].status == Running then AbandonedAs(doc[i], a[i], finishedAt, reason) else a[i] == doc[i]
    {
      assert doc[i] in doc;
      AbandonAt(doc, finishedAt, reason, i);
    }
    SortDescIdentity(a, StartedAt);
  }

  lemma PerformOrdered(doc: seq<Run>, op: Op)
    requires Ordered(doc)
    ensures Perform(doc, op) == Normalize(Saved(doc, op))
  {
    NormalizeIdentity(doc);
  }

  /** Dismissing removes that one recovery entry, or nothing, and leaves the rest as it is. */
  lemma DismissRemovesOneEntry(doc: seq<Run>, id: nat)
    requires Ordered(doc)
    ensures WithoutEntry(Perform(doc, Dismiss(id)), doc, id)
  {
    PerformSelects(doc, Dismiss(id), KeptByDismiss(id));
    DismissKeeps(doc, id);
  }

  /** An operation that selects records saves just the selection. */
  lemma PerformSelects(doc: seq<Run>, op: Op, p: Run -> bool)
    requires Ordered(doc) && Saved(doc, op) == Filter(doc, p)
    ensures Perform(doc, op) == Filter(doc, p)
  {
    PerformOrdered(doc, op);
    SortSelection(doc, p);
  }

  ghost predicate WithoutEntry(after: seq<Run>, doc: seq<Run>, id: nat) {
    && InOrderOf(after, doc) && |doc| - 1 <= |after|
    && forall r :: r in after <==> r in doc && !(r.id == id && IsMissOf(r, r.job))
  }

  lemma DismissKeeps(doc: seq<Run>, id: nat)
    requires Ordered(doc)
    ensures WithoutEntry(Filter(doc, KeptByDismiss(id)), doc, id)
  {
    AtMostOneDropped(doc, id);
    FilterKeepsOrder(doc, KeptByDismiss(id));
  }

  /** Dismissing for some jobs removes their recovery entries and nothing else. */
  lemma DismissJobsRemovesTheirs(doc: seq<Run>, jobs: set<string>)
    requires Ordered(doc)
    ensures WithoutEntriesOf(Perform(doc, DismissJobs(jobs)), doc, jobs)
  {
    PerformSelects(doc, DismissJobs(jobs), KeptByJobs(jobs));
    DismissJobsKeeps(doc, jobs);
  }

  ghost predicate WithoutEntriesOf(after: seq<Run>, doc: seq<Run>, jobs: set<string>) {
    InOrderOf(after, doc) && forall r :: r in after <==> r in doc && !(r.job in jobs && IsMissOf(r, r.job))
  }

  lemma DismissJobsKeeps(doc: seq<Run>, jobs: set<string>)
    ensures WithoutEntriesOf(Filter(doc, KeptByJobs(jobs)), doc, jobs)
  {
    FilterKeepsOrder(doc, KeptByJobs(jobs));
  }

  lemma SortSelection(doc: seq<Run>, p: Run -> bool)
    requires Ordered(doc)
    ensures Normalize(Filter(doc, p)) == Filter(doc, p)
  {
    NormalizeIdentity(doc);
    NormalizeSelects(doc, p);
  }

  lemma {:induction false} AtMostOneDropped(doc: seq<Run>, id: nat)
    requires DistinctIds(doc)
    ensures |Filter(doc, KeptByDismiss(id))| >= |doc| - 1
    ensures !HasId(doc, id) ==> Filter(doc, KeptByDismiss(id)) == doc
  {
    if doc != [] {
      AtMostOneDropped(doc[1..], id);
      HasIdCons(doc, id);
    }
  }

  // ---- what the other operations change ----

  /** An edit that keeps id and start time leaves every record at its place. */
  lemma EditStaysInPlace(doc: seq<Run>, id: nat, f: Run -> Run)
    requires Ordered(doc) && forall r :: r in doc && r.id == id ==> f(r).id == id && f(r).startedAt == r.startedAt
    ensures Normalize(Update(doc, id, f)) == Update(doc, id, f) && |Update(doc, id, f)| == |doc|
    ensures forall i :: 0 <= i < |doc| ==> Update(doc, id, f)[i] == if doc[i].id == id then f(doc[i]) else doc[i]
  {
    UpdateKeepsIds(doc, id, f);
    var u := Update(doc, id, f);
    assert forall i :: 0 <= i < |doc| ==> doc[i] in doc && StartedAt(u[i]) == StartedAt(doc[i]);
    SortDescIdentity(u, StartedAt);
  }

  /** The outcome is the one reported, a skip reason only if there is one; the rest is the run's. */
  predicate ClosedAs(before: Run, after: Run, op: Op)
    requires op.Finish?
  {
    && after.id == before.id && after.job == before.job && after.modelAlias == before.modelAlias
    && after.trigger == before.trigger && after.startedAt == before.startedAt
    && after.attempts == before.attempts && after.missedSlotCount == before.missedSlotCount
    && after.status == op.status && after.finishedAt == Some(op.finishedAt) && after.error == op.error
    && (op.skipReason.Some? ==> after.skipReason == op.skipReason)
    && (op.skipReason.None? ==> after.skipReason == before.skipReason)
  }

  /** Finishing a run sets its outcome where it stands, and touches no other record. */
  lemma FinishClosesOneRun(doc: seq<Run>, op: Op)
    requires Ordered(doc) && op.Finish?
    ensures var after := Perform(doc, op);
      && |after| == |doc|
      && forall i :: 0 <= i < |doc| ==>
        if doc[i].id == op.id then ClosedAs(doc[i], after[i], op) else after[i] == doc[i]
  {
    PerformOrdered(doc, op);
    EditStaysInPlace(doc, op.id, Finished(op));
  }

  ghost predicate AttemptSet(before: Run, after: Run, a: Attempt) {
    && after == before.(attempts := after.attempts) && AscendingAttempts(after.attempts)
    && forall x :: x in after.attempts <==> x == a || (x in before.attempts && x.attempt != a.attempt)
  }

  /** Recording an attempt replaces the one of that number or adds it, in order, and touches no other
      record. */
  lemma AttemptIsRecordedOnce(doc: seq<Run>, id: nat, a: Attempt)
    requires Ordered(doc)
    ensures var after := Perform(doc, RecordAttempt(id, a));
      && |after| == |doc|
      && forall i :: 0 <= i < |doc| ==>
        if doc[i].id == id then AttemptSet(doc[i], after[i], a) else after[i] == doc[i]
  {
    PerformOrdered(doc, RecordAttempt(id, a));
    EditStaysInPlace(doc, id, WithAttempt(a));
    forall i | 0 <= i < |doc|
      ensures AscendingAttempts(InsertAttempt(a, doc[i].attempts))
      ensures forall x :: x in InsertAttempt(a, doc[i].attempts) <==>
        x == a || (x in doc[i].attempts && x.attempt != a.attempt)
    {
      assert RecordOk(doc[i]);
      AttemptInserted(a, doc[i].attempts);
    }
  }

  /** Retention drops the oldest records only. */
  lemma RetentionDropsOldest(runs: seq<Run>, dropped: Run, kept: Run)
    requires dropped in runs && dropped !in Normalize(runs) && kept in Normalize(runs)
    ensures kept in runs && kept.startedAt >= dropped.startedAt
    ensures |Normalize(runs)| == 200
  {
    var sorted := SortDesc(runs, StartedAt);
    SortDescSorted(runs, StartedAt);
    var i :| 0 <= i < |sorted| && sorted[i] == dropped;
    var j :| 0 <= j < |Normalize(runs)| && Normalize(runs)[j] == kept;
    assert forall k :: 0 <= k < |Normalize(runs)| ==> Normalize(runs)[k] == sorted[k] && sorted[k] in Normalize(runs);
    assert StartedAt(sorted[j]) >= StartedAt(sorted[i]);
  }

  /** The record of a run that has just begun. */
  predicate IsStarted(r: Run, op: Op)
    requires op.Start?
  {
    && r.id == op.id && r.job == op.job && r.modelAlias == op.modelAlias && r.trigger == op.trigger
    && r.startedAt == op.startedAt && r.status == Running && r.attempts == []
    && r.finishedAt.None? && r.error.None? && r.skipReason.None? && r.missedSlotCount.None?
  }

  /** A started run joins the history as running; while there is room nothing is dropped for it. */
  lemma StartAddsOneRun(doc: seq<Run>, op: Op)
    requires Ordered(doc) && op.Start?
    ensures IsStarted(NewRun(op), op)
    ensures Perform(doc, op) == Normalize([NewRun(op)] + doc)
    ensures |doc| < 200 ==> multiset(Perform(doc, op)) == multiset(doc) + multiset{NewRun(op)}
  {
    PerformOrdered(doc, op);
    SortDescPermutes([NewRun(op)] + doc, StartedAt);
  }

  // ---- sequences of operations, and their interleavings ----

  function RunAll(doc: seq<Run>, ops: seq<Op>): seq<Run>
    decreases |ops|
  {
    if ops == [] then doc else Perform(RunAll(doc, ops[..|ops| - 1]), ops[|ops| - 1])
  }

  ghost predicate CallersOk(doc: seq<Run>, ops: seq<Op>) {
    forall i :: 0 <= i < |ops| ==> CallerOk(RunAll(doc, ops[..i]), ops[i])
  }

  lemma {:induction false} RunAllKeepsInv(doc: seq<Run>, ops: seq<Op>)
    requires StoreInv(doc) && CallersOk(doc, ops)
    ensures StoreInv(RunAll(doc, ops))
    decreases |ops|
  {
    if ops != [] {
      var init := ops[..|ops| - 1];
      forall i | 0 <= i < |init| ensures CallerOk(RunAll(doc, init[..i]), init[i]) {
        assert init[..i] == ops[..i];
      }
      RunAllKeepsInv(doc, init);
      PerformKeepsInv(RunAll(doc, init), ops[|ops| - 1]);
    }
  }

  /** A run-store call as an operation under the promise-chain lock. */
  function Performing(op: Op): seq<Run> -> seq<Run> { (doc: seq<Run>) => Perform(doc, op) }

  /** The operations whose tickets have saved, in submission order. */
  function SavedOps(tickets: seq<PromiseChain.Ticket<seq<Run>>>, ops: seq<Op>): seq<Op>
    requires |tickets| == |ops|
    decreases |ops|
  {
    if ops == [] then []
    else
      var n := |ops| - 1;
      SavedOps(tickets[..n], ops[..n]) + if PromiseChain.HasSaved(tickets[n]) then [ops[n]] else []
  }

  lemma RunAllSnoc(doc: seq<Run>, ops: seq<Op>, op: Op)
    ensures RunAll(doc, ops + [op]) == Perform(RunAll(doc, ops), op)
    ensures RunAll(doc, ops + []) == RunAll(doc, ops)
  {
    assert (ops + [op])[..|ops|] == ops;
    assert ops + [] == ops;
  }

  lemma {:induction false} SequentialIsRunAll(doc: seq<Run>, tickets: seq<PromiseChain.Ticket<seq<Run>>>, ops: seq<Op>)
    requires |tickets| == |ops| && forall i :: 0 <= i < |ops| ==> tickets[i].op == Performing(ops[i])
    ensures PromiseChain.Sequential(doc, tickets) == RunAll(doc, SavedOps(tickets, ops))
    decreases |ops|
  {
    if ops != [] {
      var n := |ops| - 1;
      SequentialIsRunAll(doc, tickets[..n], ops[..n]);
      RunAllSnoc(doc, SavedOps(tickets[..n], ops[..n]), ops[n]);
      assert tickets[n].op == Performing(ops[n]);
      PerformingIsPerform(ops[n], RunAll(doc, SavedOps(tickets[..n], ops[..n])));
    }
  }

  lemma PerformingIsPerform(op: Op, doc: seq<Run>)
    ensures Performing(op)(doc) == Perform(doc, op)
  {
  }

  /** However starting, finishing, missing and dismissing runs interleave, and whichever of the calls
      fail, the stored document is what the calls that saved give one after another, and so it
      satisfies the invariant. */
  lemma InterleavedStoreIsSequential(first: seq<Run>, steps: seq<PromiseChain.Step<seq<Run>>>, ops: seq<Op>)
    requires PromiseChain.Legal(PromiseChain.Initial(first), steps) && StoreInv(first)
    requires var tickets := PromiseChain.Outcome(PromiseChain.Initial(first), steps).tickets;
      && |tickets| == |ops|
      && (forall i :: 0 <= i < |ops| ==> tickets[i].op == Performing(ops[i]))
      && CallersOk(first, SavedOps(tickets, ops))
    ensures var end := PromiseChain.Outcome(PromiseChain.Initial(first), steps);
      end.doc == RunAll(first, SavedOps(end.tickets, ops)) && StoreInv(end.doc)
  {
    var end := PromiseChain.Outcome(PromiseChain.Initial(first), steps);
    PromiseChain.InterleavingEqualsSequential(first, steps);
    SequentialIsRunAll(first, end.tickets, ops);
    RunAllKeepsInv(first, SavedOps(end.tickets, ops));
  }

  lemma {:induction false} ApplyAllIsRunAll(doc: seq<Run>, fs: seq<seq<Run> -> seq<Run>>, ops: seq<Op>)
    requires |fs| == |ops| && forall i :: 0 <= i < |ops| ==> fs[i] == Performing(ops[i])
    ensures PromiseChain.ApplyAll(doc, fs) == RunAll(doc, ops)
    decreases |ops|
  {
    if ops != [] {
      var n := |ops| - 1;
      ApplyAllIsRunAll(doc, fs[..n], ops[..n]);
      PerformingIsPerform(ops[n], RunAll(doc, ops[..n]));
    }
  }

  /** And when all the calls save, none of them is lost, in whatever order their steps come. */
  lemma InterleavedStoreIsComplete(first: seq<Run>, steps: seq<PromiseChain.Step<seq<Run>>>, ops: seq<Op>)
    requires PromiseChain.Legal(PromiseChain.Initial(first), steps) && StoreInv(first) && CallersOk(first, ops)
    requires |PromiseChain.Submitted(steps)| == |ops|
    requires forall i :: 0 <= i < |ops| ==> PromiseChain.Submitted(steps)[i] == Performing(ops[i])
    requires forall i: nat :: i < |ops| ==> PromiseChain.Save(i) in steps
    ensures var end := PromiseChain.Outcome(PromiseChain.Initial(first), steps);
      end.doc == RunAll(first, ops) && StoreInv(end.doc)
  {
    PromiseChain.SavedRunsAreComplete(first, steps);
    ApplyAllIsRunAll(first, PromiseChain.Submitted(steps), ops);
    RunAllKeepsInv(first, ops);
  }

  // ---- the stored document, replaced by each operation ----

  class RunDocument {
    var stored: seq<Run>

    ghost predicate Valid()
      reads this
    {
      StoreInv(stored)
    }

    constructor ()
      ensures Valid() && stored == []
    {
      stored := [];
    }

    method Load(limit: nat) returns (runs: seq<Run>)
      requires Valid()
      ensures runs == Take(stored, if limit < 1 then 1 else if limit > 200 then 200 else limit)
    {
      NormalizeIdentity(stored);
      SortDescIdentity(stored, StartedAt);
      var sorted := SortDesc(stored, StartedAt);
      runs := Take(sorted, if limit < 1 then 1 else if limit > RETENTION then RETENTION else limit);
    }

    method Save(runs: seq<Run>)
      modifies this
      ensures stored == Normalize(runs)
    {
      stored := Take(SortDesc(runs, StartedAt), RETENTION);
    }

    method StartSchedulerRun(op: Op)
      requires Valid() && op.Start? && CallerOk(stored, op)
      modifies this
      ensures Valid() && stored == Perform(old(stored), op)
    {
      PerformKeepsInv(stored, op);
      NormalizeIdentity(stored);
      var runs := Load(RETENTION);
      Save([NewRun(op)] + runs);
    }

    method RecordMissedScheduledRun(id: nat, m: MissInput) returns (entry: Run)
      requires Valid() && CallerOk(stored, RecordMissed(id, m))
      modifies this
      ensures Valid() && stored == Perform(old(stored), RecordMissed(id, m))
      ensures var entries := Misses(old(stored), m.job);
        entry == if entries == [] then NewMiss(id, m) else Collapsed(entries, m)
      ensures (forall r :: r in old(stored) ==> !IsMissOf(r, m.job)) ==> IsFirstMiss(entry, id, m)
      ensures forall r :: r in old(stored) && IsMissOf(r, m.job) ==>
        entry.id == r.id && IsMissOf(entry, m.job) && CountsOneMore(entry, r)
    {
      ReturnedEntry(stored, id, m);
      PerformKeepsInv(stored, RecordMissed(id, m));
      NormalizeIdentity(stored);
      var runs := Load(RETENTION);
      var matches := Filter(runs, MissOf(m.job));
      if matches != [] {
        var surplus := matches[1..];
        entry := Collapsed(matches, m);
        var absorbed := IdsOf(surplus);
        Save(Update(Filter(runs, NotIn(absorbed)), matches[0].id, Constant(entry)));
      } else {
        entry := NewMiss(id, m);
        Save([entry] + runs);
      }
    }

    /** Replacing the document by what an operation saves, unless it changed nothing. */
    method SaveIf(changed: bool, op: Op)
      requires Valid() && CallerOk(stored, op)
      requires !changed ==> Saved(stored, op) == stored
      modifies this
      ensures Valid() && stored == Perform(old(stored), op)
    {
      PerformKeepsInv(stored, op);
      NormalizeIdentity(stored);
      if changed {
        Save(Saved(stored, op));
      }
    }

    method RecordSchedulerRunAttempt(id: nat, a: Attempt) returns (updated: bool)
      requires Valid()
      modifies this
      ensures Valid() && stored == Perform(old(stored), RecordAttempt(id, a))
      ensures updated == HasId(old(stored), id)
    {
      updated := HasId(stored, id);
      UpdateAbsent(stored, id, WithAttempt(a));
      SaveIf(updated, RecordAttempt(id, a));
    }

    method FinishSchedulerRun(op: Op) returns (updated: bool)
      requires Valid() && op.Finish? && CallerOk(stored, op)
      modifies this
      ensures Valid() && stored == Perform(old(stored), op)
      ensures updated == HasId(old(stored), op.id)
    {
      updated := HasId(stored, op.id);
      UpdateAbsent(stored, op.id, Finished(op));
      SaveIf(updated, op);
    }

    method DismissSkippedSchedulerRun(id: nat) returns (dismissed: bool)
      requires Valid()
      modifies this
      ensures Valid() && stored == Perform(old(stored), Dismiss(id))
      ensures dismissed <==> exists r :: r in old(stored) && r.id == id && IsMissOf(r, r.job)
    {
      dismissed := exists r :: r in stored && r.id == id && Recoverable(r);
      if !dismissed { FilterAll(stored, KeptByDismiss(id)); }
      SaveIf(dismissed, Dismiss(id));
    }

    method DismissSkippedScheduledRunsForJobs(jobs: set<string>) returns (dismissed: bool)
      requires Valid()
      modifies this
      ensures Valid() && stored == Perform(old(stored), DismissJobs(jobs))
      ensures dismissed <==> exists r :: r in old(stored) && r.job in jobs && IsMissOf(r, r.job)
    {
      dismissed := exists r :: r in stored && Recoverable(r) && r.job in jobs;
      if !dismissed { FilterAll(stored, KeptByJobs(jobs)); }
      SaveIf(dismissed, DismissJobs(jobs));
    }

    method AbandonRunningSchedulerRuns(finishedAt: int, reason: string) returns (abandoned: seq<Run>)
      requires Valid()
      modifies this
      ensures Valid() && stored == Perform(old(stored), Abandon(finishedAt, reason))
      ensures InOrderOf(abandoned, old(stored))
      ensures forall r :: r in abandoned <==> r in old(stored) && r.status == Running
    {
      FilterKeepsOrder(stored, IsUnfinished);
      abandoned := Filter(stored, IsUnfinished);
      if abandoned == [] { AbandonNone(stored, finishedAt, reason); }
      SaveIf(abandoned != [], Abandon(finishedAt, reason));
    }
  }

  /** What recording a miss returns, given that a job has at most one entry. */
  lemma ReturnedEntry(doc: seq<Run>, id: nat, m: MissInput)
    requires StoreInv(doc)
    ensures (forall r :: r in doc ==> !IsMissOf(r, m.job)) <==> Misses(doc, m.job) == []
    ensures IsFirstMiss(NewMiss(id, m), id, m)
    ensures forall r :: r in doc && IsMissOf(r, m.job) ==>
      && Misses(doc, m.job) != [] && Collapsed(Misses(doc, m.job), m).id == r.id
      && IsMissOf(Collapsed(Misses(doc, m.job), m), m.job)
      && CountsOneMore(Collapsed(Misses(doc, m.job), m), r)
  {
    var entries := Misses(doc, m.job);
    EntriesAre(doc, m.job);
    assert |Misses(doc, m.job)| <= 1;
    if entries != [] {
      assert entries == [entries[0]] && entries[0] in entries;
      CollapsedCountsOneMore(entries[0], m);
      forall r | r in doc && IsMissOf(r, m.job) ensures r == entries[0] {
        assert r in entries;
      }
    }
  }

  lemma {:induction false} UpdateAbsent(s: seq<Run>, id: nat, f: Run -> Run)
    ensures !HasId(s, id) ==> Update(s, id, f) == s
  {
    if s != [] {
      HasIdCons(s, id);
      UpdateAbsent(s[1..], id, f);
    }
  }

  lemma {:induction false} AbandonNone(runs: seq<Run>, finishedAt: int, reason: string)
    requires Filter(runs, IsUnfinished) == []
    ensures AbandonAll(runs, finishedAt, reason) == runs
  {
    if runs != [] { AbandonNone(runs[1..], finishedAt, reason); }
  }
}
