/** The bounded execution pool of the scheduler: a per-worker lock with direct hand-off in front
    of a FIFO pool of job slots.

    A run is one call of `enqueueJobExecution`; run ids are handed out in call order. Each stretch
    of code between two awaits is one step. `Pool` is the value of the module state, the class
    `JobPool` updates it in place, and the lemmas are about every interleaving of steps. */
module ExecutionPool {
  import opened Common

  type WorkerId = string
  type RunId = nat

  /** Which await a run is suspended on. A granted phase means that the promise has been resolved
      but the run has not been resumed yet. */
  datatype Phase = AwaitingLock | LockGranted | AwaitingSlot | SlotGranted | Working | Finished

  datatype Run = Run(worker: WorkerId, phase: Phase)

  /** `slotRequests` is history: the runs in the order in which they asked for a slot. */
  datatype Pool = Pool(
    active: nat,
    slotWaiters: seq<RunId>,
    busy: set<WorkerId>,
    lockWaiters: map<WorkerId, seq<RunId>>,
    runs: seq<Run>,
    slotRequests: seq<RunId>)

  const EMPTY: Pool := Pool(0, [], {}, map[], [], [])

  /** Resolving the promise of a run; every id ever queued denotes a run, see `Inv`. */
  function SetPhase(p: Pool, r: RunId, phase: Phase): Pool {
    if r < |p.runs| then p.(runs := p.runs[r := p.runs[r].(phase := phase)]) else p
  }

  function WaitersFor(p: Pool, w: WorkerId): seq<RunId> {
    if w in p.lockWaiters then p.lockWaiters[w] else []
  }

  function AcquireLock(p: Pool, r: RunId): Pool
    requires r < |p.runs|
  {
    var w := p.runs[r].worker;
    if w !in p.busy then
      SetPhase(p, r, LockGranted).(busy := p.busy + {w})
    else
      SetPhase(p, r, AwaitingLock).(lockWaiters := p.lockWaiters[w := WaitersFor(p, w) + [r]])
  }

  function ReleaseLock(p: Pool, w: WorkerId): Pool
  {
    var waiters := WaitersFor(p, w);
    if waiters == [] then
      p.(busy := p.busy - {w}, lockWaiters := p.lockWaiters - {w})
    else
      var next := waiters[0];
      var rest := waiters[1..];
      SetPhase(p, next, LockGranted).(
        lockWaiters := if rest == [] then p.lockWaiters - {w} else p.lockWaiters[w := rest])
  }

  function AcquireSlot(p: Pool, r: RunId, limit: nat): Pool {
    var p' := p.(slotRequests := p.slotRequests + [r]);
    if p.active < limit then
      SetPhase(p', r, SlotGranted).(active := p.active + 1)
    else
      SetPhase(p', r, AwaitingSlot).(slotWaiters := p.slotWaiters + [r])
  }

  function ReleaseSlot(p: Pool, limit: nat): Pool
  {
    var active := if p.active == 0 then 0 else p.active - 1;
    if active < limit && p.slotWaiters != [] then
      SetPhase(p, p.slotWaiters[0], SlotGranted).(active := active + 1, slotWaiters := p.slotWaiters[1..])
    else
      p.(active := active)
  }

  // ---- the steps of `enqueueJobExecution` ----

  /** The call itself, up to the first await. */
  function Enqueue(p: Pool, w: WorkerId): Pool {
    AcquireLock(p.(runs := p.runs + [Run(w, AwaitingLock)]), |p.runs|)
  }

  /** The run resumes holding its worker's lock and asks for a slot. */
  function TakeSlot(p: Pool, r: RunId, limit: nat): Pool {
    AcquireSlot(p, r, limit)
  }

  /** The run resumes holding a slot and starts its body. */
  function Begin(p: Pool, r: RunId): Pool {
    SetPhase(p, r, Working)
  }

  /** The body has settled, normally or not: both `finally` blocks run in one stretch. */
  function Finish(p: Pool, r: RunId, limit: nat): Pool
    requires r < |p.runs|
  {
    ReleaseLock(SetPhase(ReleaseSlot(p, limit), r, Finished), p.runs[r].worker)
  }

  datatype Step = Arrive(worker: WorkerId) | Resume(run: RunId) | Start(run: RunId) | Settle(run: RunId)

  ghost predicate Enabled(p: Pool, step: Step) {
    match step
    case Arrive(_) => true
    case Resume(r) => r < |p.runs| && p.runs[r].phase == LockGranted
    case Start(r) => r < |p.runs| && p.runs[r].phase == SlotGranted
    case Settle(r) => r < |p.runs| && p.runs[r].phase == Working
  }

  ghost function Apply(p: Pool, step: Step, limit: nat): Pool
    requires Enabled(p, step)
  {
    match step
    case Arrive(w) => Enqueue(p, w)
    case Resume(r) => TakeSlot(p, r, limit)
    case Start(r) => Begin(p, r)
    case Settle(r) => Finish(p, r, limit)
  }

  // ---- the invariant ----

  predicate HoldsLock(p: Pool, r: RunId, w: WorkerId) {
    && r < |p.runs|
    && p.runs[r].worker == w
    && p.runs[r].phase in {LockGranted, AwaitingSlot, SlotGranted, Working}
  }

  predicate AwaitsLock(p: Pool, r: RunId, w: WorkerId) {
    r < |p.runs| && p.runs[r].worker == w && p.runs[r].phase == AwaitingLock
  }

  predicate HoldsSlot(p: Pool, r: RunId) {
    r < |p.runs| && (p.runs[r].phase == SlotGranted || p.runs[r].phase == Working)
  }

  predicate AwaitsSlot(p: Pool, r: RunId) {
    r < |p.runs| && p.runs[r].phase == AwaitingSlot
  }

  predicate Done(p: Pool, r: RunId) {
    r < |p.runs| && p.runs[r].phase == Finished
  }

  ghost function SlotHolders(p: Pool): set<RunId> {
    set r | 0 <= r < |p.runs| && HoldsSlot(p, r)
  }

  predicate Ascending(s: seq<RunId>) {
    forall i, j :: 0 <= i < j < |s| ==> s[i] < s[j]
  }

  predicate Distinct(s: seq<RunId>) {
    forall i, j :: 0 <= i < j < |s| ==> s[i] != s[j]
  }

  /** A worker is marked busy exactly when one run holds its lock, and never more than one does. */
  ghost predicate LockInv(p: Pool) {
    && (forall r: RunId, w :: HoldsLock(p, r, w) ==> w in p.busy)
    && (forall w :: w in p.busy ==> exists r: RunId :: HoldsLock(p, r, w))
    && (forall r: RunId, r': RunId, w :: HoldsLock(p, r, w) && HoldsLock(p, r', w) ==> r == r')
  }

  /** Lock queues are never empty, stand only behind a holder and hold exactly the waiting runs. */
  ghost predicate LockQueueInv(p: Pool) {
    && (forall w :: w in p.lockWaiters ==> w in p.busy && p.lockWaiters[w] != [])
    && (forall w :: Ascending(WaitersFor(p, w)))
    && (forall r: RunId, w :: r in WaitersFor(p, w) <==> AwaitsLock(p, r, w))
  }

  predicate Served(p: Pool, r: RunId, w: WorkerId) {
    r < |p.runs| && p.runs[r].worker == w && p.runs[r].phase != AwaitingLock
  }

  /** The lock is granted in arrival order: whoever still waits arrived after everybody served. */
  ghost predicate LockFifo(p: Pool) {
    forall r: RunId, r': RunId, w :: AwaitsLock(p, r, w) && Served(p, r', w) ==> r' < r
  }

  /** The counter is exact and bounded, and runs queue for a slot only while the pool is full. */
  ghost predicate SlotInv(p: Pool, limit: nat) {
    && p.active == |SlotHolders(p)|
    && p.active <= limit
    && (p.slotWaiters != [] ==> p.active == limit)
    && (forall r: RunId :: r in p.slotWaiters <==> AwaitsSlot(p, r))
  }

  /** Slots are granted in request order: the waiters are a suffix of all requests, each made once,
      and everything requested before that suffix has been served. */
  ghost predicate SlotFifo(p: Pool) {
    && |p.slotWaiters| <= |p.slotRequests|
    && p.slotRequests[|p.slotRequests| - |p.slotWaiters|..] == p.slotWaiters
    && Distinct(p.slotRequests)
    && (forall i :: 0 <= i < |p.slotRequests| - |p.slotWaiters| ==>
          HoldsSlot(p, p.slotRequests[i]) || Done(p, p.slotRequests[i]))
    && (forall r: RunId :: r in p.slotRequests ==>
          AwaitsSlot(p, r) || HoldsSlot(p, r) || Done(p, r))
  }

  ghost predicate Inv(p: Pool, limit: nat) {
    LockInv(p) && LockQueueInv(p) && LockFifo(p) && SlotInv(p, limit) && SlotFifo(p)
  }

  lemma InitialInv(limit: nat)
    ensures Inv(EMPTY, limit)
  {
    assert SlotHolders(EMPTY) == {};
  }

  /** The part of the invariant that concerns the worker locks, and the part about the slots. */
  ghost predicate LocksInv(p: Pool) {
    LockInv(p) && LockQueueInv(p) && LockFifo(p)
  }

  ghost predicate SlotsInv(p: Pool, limit: nat) {
    SlotInv(p, limit) && SlotFifo(p)
  }

  /** Two pools in which the same runs hold and await the same worker locks. */
  ghost predicate SameLocks(p: Pool, q: Pool) {
    && p.busy == q.busy && p.lockWaiters == q.lockWaiters
    && (forall r: RunId, w :: HoldsLock(p, r, w) == HoldsLock(q, r, w))
    && (forall r: RunId, w :: AwaitsLock(p, r, w) == AwaitsLock(q, r, w))
    && (forall r: RunId, w :: Served(p, r, w) == Served(q, r, w))
  }

  lemma SameLocksInv(p: Pool, q: Pool)
    requires LocksInv(p) && SameLocks(p, q)
    ensures LocksInv(q)
  {
    assert forall w :: WaitersFor(q, w) == WaitersFor(p, w);
    forall w | w in q.busy ensures exists r: RunId :: HoldsLock(q, r, w) {
      var r: RunId :| HoldsLock(p, r, w);
      assert HoldsLock(q, r, w);
    }
  }

  /** Two pools in which the same runs hold and await slots. */
  ghost predicate SameSlots(p: Pool, q: Pool) {
    && p.active == q.active && p.slotWaiters == q.slotWaiters && p.slotRequests == q.slotRequests
    && (forall r: RunId :: HoldsSlot(p, r) == HoldsSlot(q, r))
    && (forall r: RunId :: AwaitsSlot(p, r) == AwaitsSlot(q, r))
    && (forall r: RunId :: Done(p, r) == Done(q, r))
  }

  lemma SameSlotsInv(p: Pool, q: Pool, limit: nat)
    requires SlotsInv(p, limit) && SameSlots(p, q)
    ensures SlotsInv(q, limit)
  {
    forall r: RunId ensures r in SlotHolders(p) <==> r in SlotHolders(q) {
      assert HoldsSlot(p, r) == HoldsSlot(q, r);
    }
    assert SlotHolders(p) == SlotHolders(q);
  }

  lemma ArriveFreeKeepsLocks(p: Pool, w: WorkerId)
    requires LocksInv(p) && w !in p.busy
    ensures LocksInv(Enqueue(p, w))
  {
    var n := |p.runs|;
    var q := Enqueue(p, w);
    forall r: RunId ensures !AwaitsLock(p, r, w) && !HoldsLock(p, r, w) {
      assert r in WaitersFor(p, w) <==> AwaitsLock(p, r, w);

    }
    assert forall v :: WaitersFor(q, v) == WaitersFor(p, v);
    assert forall r: RunId, v :: AwaitsLock(q, r, v) == AwaitsLock(p, r, v);
    assert forall r: RunId, v :: HoldsLock(q, r, v) == (HoldsLock(p, r, v) || (r == n && v == w));
    assert forall r: RunId, v :: Served(q, r, v) == (Served(p, r, v) || (r == n && v == w));
    assert HoldsLock(q, n, w);
    forall v | v in q.busy && v != w ensures exists r: RunId :: HoldsLock(q, r, v) {
      var r: RunId :| HoldsLock(p, r, v);
      assert HoldsLock(q, r, v);
    }
  }

  lemma AscendingSnoc(s: seq<RunId>, n: RunId)
    requires Ascending(s) && forall x :: x in s ==> x < n
    ensures Ascending(s + [n])
  {
    assert forall i :: 0 <= i < |s| ==> s[i] in s;
  }

  lemma ArriveBusyView(p: Pool, w: WorkerId)
    requires w in p.busy
    ensures var q := Enqueue(p, w);
      && q.busy == p.busy
      && (forall v :: v != w ==> WaitersFor(q, v) == WaitersFor(p, v))
      && WaitersFor(q, w) == WaitersFor(p, w) + [|p.runs|]
      && (forall v :: v in q.lockWaiters <==> v in p.lockWaiters || v == w)
      && (forall r: RunId, v :: AwaitsLock(q, r, v) == (AwaitsLock(p, r, v) || (r == |p.runs| && v == w)))
      && (forall r: RunId, v :: HoldsLock(q, r, v) == HoldsLock(p, r, v))
      && (forall r: RunId, v :: Served(q, r, v) == Served(p, r, v))
  {
  }

  lemma ArriveBusyKeepsLocks(p: Pool, w: WorkerId)
    requires LocksInv(p) && w in p.busy
    ensures LocksInv(Enqueue(p, w))
  {
    var n := |p.runs|;
    var q := Enqueue(p, w);
    ArriveBusyView(p, w);
    assert forall r: RunId :: r in WaitersFor(p, w) ==> AwaitsLock(p, r, w);
    AscendingSnoc(WaitersFor(p, w), n);
    forall r: RunId, v ensures r in WaitersFor(q, v) <==> AwaitsLock(q, r, v) {
      assert r in WaitersFor(p, v) <==> AwaitsLock(p, r, v);
    }
    forall v | v in q.lockWaiters ensures v in q.busy && q.lockWaiters[v] != [] {
      assert q.lockWaiters[v] == WaitersFor(q, v);
      assert v != w ==> p.lockWaiters[v] == WaitersFor(p, v);
    }
    assert LockInv(q) by {
      forall v | v in q.busy ensures exists r: RunId :: HoldsLock(q, r, v) {
        var r: RunId :| HoldsLock(p, r, v);
        assert HoldsLock(q, r, v);
      }
    }
  }

  lemma ArriveKeepsSlots(p: Pool, w: WorkerId, limit: nat)
    requires SlotsInv(p, limit)
    ensures SlotsInv(Enqueue(p, w), limit)
  {
    var q := Enqueue(p, w);
    assert forall r: RunId :: r < |p.runs| ==> q.runs[r] == p.runs[r];
    SameSlotsInv(p, q, limit);
  }

  lemma ResumeKeepsLocks(p: Pool, r: RunId, limit: nat)
    requires LocksInv(p) && Enabled(p, Resume(r))
    ensures LocksInv(TakeSlot(p, r, limit))
  {
    SameLocksInv(p, TakeSlot(p, r, limit));
  }

  /** What asking for a slot changes: only where run `r` stands. */
  lemma ResumeView(p: Pool, r: RunId, limit: nat)
    requires SlotsInv(p, limit) && Enabled(p, Resume(r))
    ensures var q := TakeSlot(p, r, limit);
      && r !in p.slotRequests && q.slotRequests == p.slotRequests + [r]
      && (forall x: RunId :: HoldsSlot(q, x) == if x == r then p.active < limit else HoldsSlot(p, x))
      && (forall x: RunId :: AwaitsSlot(q, x) == if x == r then p.active >= limit else AwaitsSlot(p, x))
      && (forall x: RunId :: Done(q, x) == Done(p, x))
  {
    assert !HoldsSlot(p, r) && !AwaitsSlot(p, r) && !Done(p, r);
  }

  lemma ResumeKeepsSlots(p: Pool, r: RunId, limit: nat)
    requires SlotsInv(p, limit) && Enabled(p, Resume(r))
    ensures SlotsInv(TakeSlot(p, r, limit), limit)
  {
    var q := TakeSlot(p, r, limit);
    ResumeView(p, r, limit);
    assert SlotInv(q, limit) by {
      assert SlotHolders(q) == SlotHolders(p) + if p.active < limit then {r} else {};
      assert r !in SlotHolders(p) by { assert !HoldsSlot(p, r); }
    }
    ResumeKeepsFifo(p, r, limit);
  }

  lemma ResumeKeepsFifo(p: Pool, r: RunId, limit: nat)
    requires SlotsInv(p, limit) && Enabled(p, Resume(r))
    ensures SlotFifo(TakeSlot(p, r, limit))
  {
    var q := TakeSlot(p, r, limit);
    ResumeView(p, r, limit);
    var k := |p.slotRequests| - |p.slotWaiters|;
    assert forall i :: 0 <= i < |p.slotRequests| ==> p.slotRequests[i] in p.slotRequests;
    if p.active < limit {
      assert p.slotWaiters == [];
      assert q.slotRequests[|q.slotRequests|..] == [];
    } else {
      assert q.slotRequests[k..] == p.slotRequests[k..] + [r];
    }
  }

  lemma StartKeepsInv(p: Pool, r: RunId, limit: nat)
    requires Inv(p, limit) && Enabled(p, Start(r))
    ensures Inv(Begin(p, r), limit)
  {
    SameLocksInv(p, Begin(p, r));
    SameSlotsInv(p, Begin(p, r), limit);
  }

  /** The pool half way through `Finish`: slot released, lock still to be handed on. */
  ghost function SlotReleased(p: Pool, r: RunId, limit: nat): Pool {
    SetPhase(ReleaseSlot(p, limit), r, Finished)
  }

  lemma SettleLastKeepsSlots(p: Pool, r: RunId, limit: nat)
    requires SlotsInv(p, limit) && Enabled(p, Settle(r)) && p.slotWaiters == []
    ensures SlotsInv(SlotReleased(p, r, limit), limit)
  {
    var q := SlotReleased(p, r, limit);
    assert r in SlotHolders(p);
    assert SlotHolders(q) == SlotHolders(p) - {r};
    assert forall x: RunId :: AwaitsSlot(q, x) == AwaitsSlot(p, x);
    assert forall x: RunId :: HoldsSlot(q, x) == (HoldsSlot(p, x) && x != r);
    assert forall x: RunId :: Done(q, x) == (Done(p, x) || x == r);
  }

  lemma SettleView(p: Pool, r: RunId, limit: nat)
    requires SlotsInv(p, limit) && Enabled(p, Settle(r)) && p.slotWaiters != []
    ensures var q := SlotReleased(p, r, limit);
      var n := p.slotWaiters[0];
      && n != r
      && AwaitsSlot(p, n) && HoldsSlot(p, r)
      && q.active == p.active && q.slotRequests == p.slotRequests && q.slotWaiters == p.slotWaiters[1..]
      && (forall x: RunId :: AwaitsSlot(q, x) == (AwaitsSlot(p, x) && x != n))
      && (forall x: RunId :: HoldsSlot(q, x) == ((HoldsSlot(p, x) && x != r) || x == n))
      && (forall x: RunId :: Done(q, x) == (Done(p, x) || x == r))
  {
    assert p.slotWaiters[0] in p.slotWaiters;
    assert r in SlotHolders(p);
  }

  lemma SettleKeepsSlots(p: Pool, r: RunId, limit: nat)
    requires SlotsInv(p, limit) && Enabled(p, Settle(r)) && p.slotWaiters != []
    ensures SlotsInv(SlotReleased(p, r, limit), limit)
  {
    SettleKeepsCount(p, r, limit);
    SettleKeepsFifo(p, r, limit);
  }

  lemma SettleKeepsCount(p: Pool, r: RunId, limit: nat)
    requires SlotsInv(p, limit) && Enabled(p, Settle(r)) && p.slotWaiters != []
    ensures SlotInv(SlotReleased(p, r, limit), limit)
  {
    var q := SlotReleased(p, r, limit);
    var n := p.slotWaiters[0];
    SettleView(p, r, limit);
    SuffixMembers(p.slotRequests, |p.slotRequests| - |p.slotWaiters|);
    assert n !in SlotHolders(p) && r in SlotHolders(p);
    assert SlotHolders(q) == SlotHolders(p) - {r} + {n};
  }

  lemma SettleKeepsFifo(p: Pool, r: RunId, limit: nat)
    requires SlotsInv(p, limit) && Enabled(p, Settle(r)) && p.slotWaiters != []
    ensures SlotFifo(SlotReleased(p, r, limit))
  {
    var k := |p.slotRequests| - |p.slotWaiters|;
    SettleView(p, r, limit);
    SuffixMembers(p.slotRequests, k);
    assert p.slotRequests[k] == p.slotWaiters[0];
    assert SlotReleased(p, r, limit).slotWaiters == p.slotRequests[k + 1..];
  }

  /** Dropping the first element of a suffix of distinct elements removes just that element. */
  lemma SuffixMembers(s: seq<RunId>, k: nat)
    requires Distinct(s) && k < |s|
    ensures s[k..][0] == s[k] && s[k..][1..] == s[k + 1..]
    ensures forall x :: x in s[k + 1..] <==> x in s[k..] && x != s[k]
  {
    forall x | x in s[k + 1..] ensures x in s[k..] && x != s[k] {
      var j :| 0 <= j < |s[k + 1..]| && s[k + 1..][j] == x;
      assert s[k..][j + 1] == x;
    }
    assert s[k..] == [s[k]] + s[k + 1..];
  }

  /** Releasing worker `w`'s lock once its holder `r` no longer counts as one. */
  lemma HandOffKeepsLocks(p: Pool, q: Pool, r: RunId, w: WorkerId)
    requires LocksInv(p) && HoldsLock(p, r, w)
    requires p.busy == q.busy && p.lockWaiters == q.lockWaiters
    requires forall x: RunId, v :: HoldsLock(q, x, v) == (HoldsLock(p, x, v) && x != r)
    requires forall x: RunId, v :: AwaitsLock(p, x, v) == AwaitsLock(q, x, v)
    requires forall x: RunId, v :: Served(p, x, v) == Served(q, x, v)
    ensures LocksInv(ReleaseLock(q, w))
  {
    var q' := ReleaseLock(q, w);
    var waiters := WaitersFor(q, w);
    assert waiters == WaitersFor(p, w);
    if waiters == [] {
      assert forall v :: WaitersFor(q', v) == WaitersFor(p, v);
      assert forall x: RunId, v :: HoldsLock(q', x, v) == HoldsLock(q, x, v);
      assert forall x: RunId, v :: AwaitsLock(q', x, v) == AwaitsLock(p, x, v);
      assert forall x: RunId, v :: Served(q', x, v) == Served(p, x, v);
      forall v | v in q'.busy ensures exists x: RunId :: HoldsLock(q', x, v) {
        var x: RunId :| HoldsLock(p, x, v);
        assert HoldsLock(q', x, v);
      }
    } else {
      var n := waiters[0];
      assert n in WaitersFor(p, w);
      assert AwaitsLock(q, n, w);
      HandOffToNext(p, q, r, w, n);
    }
  }

  /** Run `r` has let go of lock `w` and run `n` is next in its queue. */
  ghost predicate HandsOff(p: Pool, q: Pool, r: RunId, w: WorkerId, n: RunId) {
    && LocksInv(p) && HoldsLock(p, r, w)
    && p.busy == q.busy && p.lockWaiters == q.lockWaiters
    && (forall x: RunId, v :: HoldsLock(q, x, v) == (HoldsLock(p, x, v) && x != r))
    && (forall x: RunId, v :: AwaitsLock(p, x, v) == AwaitsLock(q, x, v))
    && (forall x: RunId, v :: Served(p, x, v) == Served(q, x, v))
    && WaitersFor(q, w) != [] && n == WaitersFor(q, w)[0] && AwaitsLock(q, n, w)
  }

  /** What changes for the others when the lock goes to `n`: nothing. */
  lemma HandOffView(p: Pool, q: Pool, r: RunId, w: WorkerId, n: RunId)
    requires HandsOff(p, q, r, w, n)
    ensures var q' := ReleaseLock(q, w);
      && q'.busy == p.busy
      && WaitersFor(q', w) == WaitersFor(p, w)[1..]
      && (forall v :: v != w ==> WaitersFor(q', v) == WaitersFor(p, v))
      && (forall v :: v in q'.lockWaiters ==> v in p.lockWaiters && q'.lockWaiters[v] != [])
      && (forall x: RunId, v :: HoldsLock(q', x, v) == if x == n then v == w else HoldsLock(p, x, v) && x != r)
      && (forall x: RunId, v :: AwaitsLock(q', x, v) == (AwaitsLock(p, x, v) && x != n))
      && (forall x: RunId, v :: Served(q', x, v) == if x == n then v == w else Served(p, x, v))
  {
    assert WaitersFor(q, w) == WaitersFor(p, w);
    assert AwaitsLock(p, n, w);
  }

  lemma HandOffToNext(p: Pool, q: Pool, r: RunId, w: WorkerId, n: RunId)
    requires HandsOff(p, q, r, w, n)
    ensures LocksInv(ReleaseLock(q, w))
  {
    HandOffView(p, q, r, w, n);
    assert AwaitsLock(p, n, w);
    HandOffKeepsHolders(p, ReleaseLock(q, w), r, w, n);
    HandOffKeepsQueues(p, q, r, w, n);
  }

  lemma HandOffKeepsHolders(p: Pool, q': Pool, r: RunId, w: WorkerId, n: RunId)
    requires LockInv(p) && HoldsLock(p, r, w) && q'.busy == p.busy && forall v :: !HoldsLock(p, n, v)
    requires forall x: RunId, v :: HoldsLock(q', x, v) == if x == n then v == w else HoldsLock(p, x, v) && x != r
    ensures LockInv(q')
  {
    assert HoldsLock(q', n, w);
    forall v | v in q'.busy ensures exists x: RunId :: HoldsLock(q', x, v) {
      if v != w {
        var x: RunId :| HoldsLock(p, x, v);
        assert x != n && x != r;
        assert HoldsLock(q', x, v);
      }
    }
  }

  lemma HandOffKeepsQueues(p: Pool, q: Pool, r: RunId, w: WorkerId, n: RunId)
    requires HandsOff(p, q, r, w, n)
    ensures LockQueueInv(ReleaseLock(q, w)) && LockFifo(ReleaseLock(q, w))
  {
    var q' := ReleaseLock(q, w);
    var waiters := WaitersFor(p, w);
    HandOffView(p, q, r, w, n);
    assert forall x: RunId :: x in waiters <==> x == n || x in waiters[1..];
    forall x: RunId, v ensures x in WaitersFor(q', v) <==> AwaitsLock(q', x, v) {
      assert x in WaitersFor(p, v) <==> AwaitsLock(p, x, v);
    }
    forall x: RunId, x': RunId, v | AwaitsLock(q', x, v) && Served(q', x', v) ensures x' < x {
      if x' == n { assert x in waiters[1..]; }
    }
  }

  lemma SettleKeepsInv(p: Pool, r: RunId, limit: nat)
    requires Inv(p, limit) && Enabled(p, Settle(r))
    ensures Inv(Finish(p, r, limit), limit)
  {
    var w := p.runs[r].worker;
    var q := SlotReleased(p, r, limit);
    if p.slotWaiters == [] { SettleLastKeepsSlots(p, r, limit); } else { SettleKeepsSlots(p, r, limit); }
    SettleLockView(p, r, limit);
    HandOffKeepsLocks(p, q, r, w);
    HandOffSlotView(q, w);
    SameSlotsInv(q, ReleaseLock(q, w), limit);
  }

  lemma SettleLockView(p: Pool, r: RunId, limit: nat)
    requires Inv(p, limit) && Enabled(p, Settle(r))
    ensures var q := SlotReleased(p, r, limit);
      && p.busy == q.busy && p.lockWaiters == q.lockWaiters
      && HoldsLock(p, r, p.runs[r].worker)
      && (forall x: RunId, v :: HoldsLock(q, x, v) == (HoldsLock(p, x, v) && x != r))
      && (forall x: RunId, v :: AwaitsLock(p, x, v) == AwaitsLock(q, x, v))
      && (forall x: RunId, v :: Served(p, x, v) == Served(q, x, v))
  {
    assert p.slotWaiters != [] ==> p.slotWaiters[0] in p.slotWaiters;
  }

  lemma HandOffSlotView(q: Pool, w: WorkerId)
    requires forall r: RunId :: r in WaitersFor(q, w) ==> AwaitsLock(q, r, w)
    ensures SameSlots(q, ReleaseLock(q, w))
  {
    assert WaitersFor(q, w) != [] ==> WaitersFor(q, w)[0] in WaitersFor(q, w);
  }

  /** Every step of every interleaving keeps the invariant. */
  lemma StepKeepsInv(p: Pool, step: Step, limit: nat)
    requires Inv(p, limit) && Enabled(p, step)
    ensures Inv(Apply(p, step, limit), limit)
  {
    match step
    case Arrive(w) =>
      if w in p.busy { ArriveBusyKeepsLocks(p, w); } else { ArriveFreeKeepsLocks(p, w); }
      ArriveKeepsSlots(p, w, limit);
    case Resume(r) =>
      ResumeKeepsLocks(p, r, limit);
      ResumeKeepsSlots(p, r, limit);
    case Start(r) => StartKeepsInv(p, r, limit);
    case Settle(r) => SettleKeepsInv(p, r, limit);
  }

  // ---- whole runs ----

  ghost predicate Legal(p: Pool, steps: seq<Step>, limit: nat)
    decreases |steps|
  {
    steps == [] || (Enabled(p, steps[0]) && Legal(Apply(p, steps[0], limit), steps[1..], limit))
  }

  ghost function Outcome(p: Pool, steps: seq<Step>, limit: nat): Pool
    requires Legal(p, steps, limit)
    decreases |steps|
  {
    if steps == [] then p else Outcome(Apply(p, steps[0], limit), steps[1..], limit)
  }

  /** The invariant holds after every interleaving of any number of runs. */
  lemma {:induction false} ReachableInv(p: Pool, steps: seq<Step>, limit: nat)
    requires Inv(p, limit) && Legal(p, steps, limit)
    ensures Inv(Outcome(p, steps, limit), limit)
    decreases |steps|
  {
    if steps != [] {
      StepKeepsInv(p, steps[0], limit);
      ReachableInv(Apply(p, steps[0], limit), steps[1..], limit);
    }
  }

  /** What the pool promises about bodies in progress, from a cold start: at most `limit` of them,
      counted exactly, and never two of the same worker. */
  lemma BodiesBoundedAndSerialPerWorker(steps: seq<Step>, limit: nat)
    requires Legal(EMPTY, steps, limit)
    ensures var p := Outcome(EMPTY, steps, limit);
      && p.active == |SlotHolders(p)| <= limit
      && forall r: RunId, r': RunId | r < |p.runs| && r' < |p.runs| ::
           p.runs[r] == p.runs[r'] == Run(p.runs[r].worker, Working) ==> r == r'
  {
    InitialInv(limit);
    ReachableInv(EMPTY, steps, limit);
    var p := Outcome(EMPTY, steps, limit);
    forall r: RunId, r': RunId |
      r < |p.runs| && r' < |p.runs| && p.runs[r] == p.runs[r'] == Run(p.runs[r].worker, Working)
      ensures r == r'
    {
      assert HoldsLock(p, r, p.runs[r].worker) && HoldsLock(p, r', p.runs[r].worker);
    }
  }

  // ---- progress ----

  ghost predicate AllFinished(p: Pool) {
    forall r: RunId :: r < |p.runs| ==> p.runs[r].phase == Finished
  }

  /** A step that belongs to a run already in the pool. */
  ghost predicate CanProceed(p: Pool) {
    exists step: Step :: !step.Arrive? && Enabled(p, step)
  }

  /** No deadlock: while some run is unfinished, a granted run can resume or a body can settle. */
  lemma NoDeadlock(p: Pool, limit: nat)
    requires Inv(p, limit) && limit >= 1 && !AllFinished(p)
    ensures CanProceed(p)
  {
    var r: RunId :| r < |p.runs| && p.runs[r].phase != Finished;
    var w := p.runs[r].worker;
    var h := r;
    if p.runs[r].phase == AwaitingLock {
      assert AwaitsLock(p, r, w);
      assert r in WaitersFor(p, w);
      h :| HoldsLock(p, h, w);
    }
    if p.runs[h].phase == AwaitingSlot {
      assert AwaitsSlot(p, h);
      assert h in p.slotWaiters;
      assert SlotHolders(p) != {};
      h :| h in SlotHolders(p);
    }
    var step := if p.runs[h].phase == LockGranted then Resume(h)
                else if p.runs[h].phase == SlotGranted then Start(h) else Settle(h);
    assert Enabled(p, step);
  }

  function Rank(phase: Phase): nat {
    match phase
    case AwaitingLock => 5
    case LockGranted => 4
    case AwaitingSlot => 3
    case SlotGranted => 2
    case Working => 1
    case Finished => 0
  }

  /** The work left in the pool: the sum of the ranks of its runs. */
  function Work(runs: seq<Run>): nat {
    if runs == [] then 0 else Rank(runs[0].phase) + Work(runs[1..])
  }

  lemma {:induction false} WorkBound(runs: seq<Run>)
    ensures Work(runs) <= 5 * |runs|
  {
    if runs != [] { WorkBound(runs[1..]); }
  }

  lemma {:induction false} WorkDecreases(a: seq<Run>, b: seq<Run>)
    requires |a| == |b| && forall i :: 0 <= i < |a| ==> Rank(b[i].phase) <= Rank(a[i].phase)
    ensures Work(b) <= Work(a)
    ensures (exists i :: 0 <= i < |a| && Rank(b[i].phase) < Rank(a[i].phase)) ==> Work(b) < Work(a)
  {
    if a != [] {
      WorkDecreases(a[1..], b[1..]);
      if i :| 0 <= i < |a| && Rank(b[i].phase) < Rank(a[i].phase) {
        if i > 0 {
          assert Rank(b[1..][i - 1].phase) < Rank(a[1..][i - 1].phase);
        }
      }
    }
  }

  /** Settling a run lowers its rank, and that of the runs it hands its slot and its lock to. */
  lemma SettleRanks(p: Pool, r: RunId, limit: nat)
    requires Inv(p, limit) && Enabled(p, Settle(r))
    ensures var q := Finish(p, r, limit);
      && |q.runs| == |p.runs| && q.runs[r].phase == Finished
      && forall i :: 0 <= i < |p.runs| ==> Rank(q.runs[i].phase) <= Rank(p.runs[i].phase)
  {
    var w := p.runs[r].worker;
    var m := ReleaseSlot(p, limit);
    assert |m.runs| == |p.runs| && forall i :: 0 <= i < |p.runs| ==> Rank(m.runs[i].phase) <= Rank(p.runs[i].phase) by {
      assert p.slotWaiters != [] ==> p.slotWaiters[0] in p.slotWaiters;
    }
    SettleLockView(p, r, limit);
    var n := SlotReleased(p, r, limit);
    if WaitersFor(n, w) != [] {
      assert WaitersFor(n, w)[0] in WaitersFor(p, w);
      assert AwaitsLock(n, WaitersFor(n, w)[0], w);
    }
  }

  lemma StepDoesWork(p: Pool, step: Step, limit: nat)
    requires Inv(p, limit) && Enabled(p, step) && !step.Arrive?
    ensures |Apply(p, step, limit).runs| == |p.runs|
    ensures Work(Apply(p, step, limit).runs) < Work(p.runs)
  {
    if step.Settle? { SettleRanks(p, step.run, limit); }
    var q := Apply(p, step, limit);
    assert Rank(q.runs[step.run].phase) < Rank(p.runs[step.run].phase);
    WorkDecreases(p.runs, q.runs);
  }

  /** Every run finishes: once calls stop arriving, each further step uses up work, so any
      interleaving is at most five steps a run long, and one that cannot be extended has finished
      every run. */
  lemma {:induction false} EveryRunFinishes(p: Pool, steps: seq<Step>, limit: nat)
    requires Inv(p, limit) && limit >= 1 && Legal(p, steps, limit)
    requires forall step :: step in steps ==> !step.Arrive?
    ensures |steps| + Work(Outcome(p, steps, limit).runs) <= Work(p.runs) <= 5 * |p.runs|
    ensures !CanProceed(Outcome(p, steps, limit)) ==> AllFinished(Outcome(p, steps, limit))
    decreases |steps|
  {
    WorkBound(p.runs);
    if steps == [] {
      if !AllFinished(p) { NoDeadlock(p, limit); }
    } else {
      assert steps[0] in steps;
      StepDoesWork(p, steps[0], limit);
      StepKeepsInv(p, steps[0], limit);
      EveryRunFinishes(Apply(p, steps[0], limit), steps[1..], limit);
    }
  }

  // ---- every body runs, and only once ----

  /** How far a run is with its own steps, whatever it is waiting for. */
  datatype Progress = Called | Resumed | Started | Settled

  function ProgressOf(phase: Phase): Progress {
    match phase
    case AwaitingLock => Called
    case LockGranted => Called
    case AwaitingSlot => Resumed
    case SlotGranted => Resumed
    case Working => Started
    case Finished => Settled
  }

  function After(step: Step, r: RunId, before: Progress): Progress {
    match step
    case Arrive(_) => before
    case Resume(run) => if run == r then Resumed else before
    case Start(run) => if run == r then Started else before
    case Settle(run) => if run == r then Settled else before
  }

  /** Two lists of runs that agree on the workers and on the progress of all runs but one. */
  ghost predicate SameBut(a: seq<Run>, b: seq<Run>, r: RunId) {
    && |a| == |b|
    && (forall i :: 0 <= i < |a| ==> a[i].worker == b[i].worker)
    && (forall i :: 0 <= i < |a| && i != r ==> ProgressOf(a[i].phase) == ProgressOf(b[i].phase))
  }

  lemma SettleProgress(p: Pool, r: RunId, limit: nat)
    requires Inv(p, limit) && Enabled(p, Settle(r))
    ensures SameBut(Finish(p, r, limit).runs, p.runs, r) && Finish(p, r, limit).runs[r].phase == Finished
  {
    var w := p.runs[r].worker;
    var n := SlotReleased(p, r, limit);
    assert p.slotWaiters != [] ==> p.slotWaiters[0] in p.slotWaiters && AwaitsSlot(p, p.slotWaiters[0]);
    assert SameBut(n.runs, p.runs, r) && n.runs[r].phase == Finished;
    SettleLockView(p, r, limit);
    if WaitersFor(n, w) != [] {
      assert WaitersFor(n, w)[0] in WaitersFor(p, w);
      assert AwaitsLock(n, WaitersFor(n, w)[0], w);
    }
  }

  /** Whoever is first in line for the slot and for the lock is given them. */
  lemma SettleHandsOn(p: Pool, r: RunId, limit: nat)
    requires Inv(p, limit) && Enabled(p, Settle(r))
    ensures var w := p.runs[r].worker;
      var q := Finish(p, r, limit);
      && Done(q, r)
      && (p.slotWaiters != [] ==> HoldsSlot(q, p.slotWaiters[0]))
      && (WaitersFor(p, w) != [] ==> HoldsLock(q, WaitersFor(p, w)[0], w))
  {
    var w := p.runs[r].worker;
    assert p.slotWaiters != [] ==> p.slotWaiters[0] in p.slotWaiters && AwaitsSlot(p, p.slotWaiters[0]);
    SettleLockView(p, r, limit);
    var n := SlotReleased(p, r, limit);
    assert r in SlotHolders(p);
    assert p.slotWaiters != [] ==> n.runs[p.slotWaiters[0]].phase == SlotGranted;
    if WaitersFor(n, w) != [] {
      assert WaitersFor(n, w)[0] in WaitersFor(p, w);
      assert AwaitsLock(n, WaitersFor(n, w)[0], w);
    }
  }

  /** A step moves the progress of its own run only. */
  lemma StepProgress(p: Pool, step: Step, limit: nat)
    requires Inv(p, limit) && Enabled(p, step)
    ensures var q := Apply(p, step, limit);
      && |q.runs| == |p.runs| + (if step.Arrive? then 1 else 0)
      && (forall i :: 0 <= i < |p.runs| ==> q.runs[i].worker == p.runs[i].worker)
      && (forall i :: 0 <= i < |p.runs| ==>
            ProgressOf(q.runs[i].phase) == After(step, i, ProgressOf(p.runs[i].phase)))
      && (step.Arrive? ==> q.runs[|p.runs|].worker == step.worker && ProgressOf(q.runs[|p.runs|].phase) == Called)
  {
    if step.Settle? { SettleProgress(p, step.run, limit); }
  }

  /** The workers of the calls made along a run. */
  function Arrivals(steps: seq<Step>): seq<WorkerId>
    decreases |steps|
  {
    if steps == [] then []
    else
      var last := steps[|steps| - 1];
      Arrivals(steps[..|steps| - 1]) + if last.Arrive? then [last.worker] else []
  }

  ghost predicate RunTruth(p: Pool, past: seq<Step>, r: RunId)
    requires r < |p.runs|
  {
    var progress := ProgressOf(p.runs[r].phase);
    && (Resume(r) in past <==> !progress.Called?)
    && (Start(r) in past <==> progress.Started? || progress.Settled?)
    && (Settle(r) in past <==> progress.Settled?)
  }

  /** The runs are those of the calls made, in the order of the calls, and they are where their own steps
      have brought them. */
  ghost predicate Truthful(p: Pool, past: seq<Step>) {
    && |p.runs| == |Arrivals(past)|
    && (forall r: RunId :: r < |p.runs| ==> p.runs[r].worker == Arrivals(past)[r] && RunTruth(p, past, r))
    && forall r: RunId :: Resume(r) in past || Start(r) in past || Settle(r) in past ==> r < |p.runs|
  }

  lemma StepStaysTrue(p: Pool, past: seq<Step>, step: Step, limit: nat)
    requires Inv(p, limit) && Truthful(p, past) && Enabled(p, step)
    ensures Truthful(Apply(p, step, limit), past + [step])
  {
    var q := Apply(p, step, limit);
    StepProgress(p, step, limit);
    assert (past + [step])[..|past|] == past;
    forall r: RunId | r < |q.runs|
      ensures q.runs[r].worker == Arrivals(past + [step])[r] && RunTruth(q, past + [step], r)
    {
      if r < |p.runs| { assert RunTruth(p, past, r); }
    }
  }

  lemma FirstStepStaysTrue(p: Pool, past: seq<Step>, steps: seq<Step>, limit: nat)
    requires Inv(p, limit) && Truthful(p, past) && Legal(p, steps, limit) && steps != []
    ensures Inv(Apply(p, steps[0], limit), limit)
    ensures Truthful(Apply(p, steps[0], limit), past + [steps[0]])
  {
    StepKeepsInv(p, steps[0], limit);
    StepStaysTrue(p, past, steps[0], limit);
  }

  lemma {:induction false} RunStaysTrue(p: Pool, past: seq<Step>, steps: seq<Step>, limit: nat)
    requires Inv(p, limit) && Truthful(p, past) && Legal(p, steps, limit)
    ensures Truthful(Outcome(p, steps, limit), past + steps)
    decreases |steps|
  {
    Regroup(past, steps);
    if steps != [] {
      FirstStepStaysTrue(p, past, steps, limit);
      RunStaysTrue(Apply(p, steps[0], limit), past + [steps[0]], steps[1..], limit);
    }
  }

  /** The runs of the pool are those of the calls, and once nothing can go on any more the body of every
      single one has been started and has settled. */
  lemma EveryBodyRuns(steps: seq<Step>, limit: nat)
    requires limit >= 1 && Legal(EMPTY, steps, limit)
    ensures |Outcome(EMPTY, steps, limit).runs| == |Arrivals(steps)|
    ensures !CanProceed(Outcome(EMPTY, steps, limit)) ==>
      forall r: RunId :: r < |Arrivals(steps)| ==> Start(r) in steps && Settle(r) in steps
  {
    InitialInv(limit);
    RunStaysTrue(EMPTY, [], steps, limit);
    assert [] + steps == steps;
    ReachableInv(EMPTY, steps, limit);
    var p := Outcome(EMPTY, steps, limit);
    if !CanProceed(p) {
      if !AllFinished(p) { NoDeadlock(p, limit); }
      FinishedRunsHaveRun(p, steps);
    }
  }

  lemma FinishedRunsHaveRun(p: Pool, past: seq<Step>)
    requires Truthful(p, past) && AllFinished(p)
    ensures forall r: RunId :: r < |Arrivals(past)| ==> Start(r) in past && Settle(r) in past
  {
    forall r: RunId | r < |p.runs| ensures Start(r) in past && Settle(r) in past {
      assert RunTruth(p, past, r);
    }
  }

  /** No body is ever started twice. */
  lemma {:induction false} NoBodyRunsTwice(steps: seq<Step>, limit: nat, i: nat, k: nat, r: RunId)
    requires Legal(EMPTY, steps, limit) && i < k < |steps| && steps[k] == Start(r)
    ensures steps[i] != Start(r)
  {
    LegalSplit(EMPTY, steps, k, limit);
    var p := Outcome(EMPTY, steps[..k], limit);
    InitialInv(limit);
    ReachableInv(EMPTY, steps[..k], limit);
    RunStaysTrue(EMPTY, [], steps[..k], limit);
    assert [] + steps[..k] == steps[..k];
    assert steps[k..][0] == steps[k] && Enabled(p, Start(r));
    assert RunTruth(p, steps[..k], r);
    assert steps[..k][i] == steps[i];
  }

  lemma {:induction false} LegalSplit(p: Pool, steps: seq<Step>, k: nat, limit: nat)
    requires Legal(p, steps, limit) && k <= |steps|
    ensures Legal(p, steps[..k], limit) && Legal(Outcome(p, steps[..k], limit), steps[k..], limit)
    decreases k
  {
    if k == 0 {
      assert steps[..0] == [] && steps[0..] == steps;
    } else {
      LegalSplit(Apply(p, steps[0], limit), steps[1..], k - 1, limit);
      assert steps[..k][0] == steps[0] && steps[..k][1..] == steps[1..][..k - 1] && steps[1..][k - 1..] == steps[k..];
    }
  }

  // ---- the module state, updated in place ----

  class JobPool {
    const limit: nat
    var activeJobCount: nat
    var jobSlotWaiters: seq<RunId>
    var busyWorkers: set<WorkerId>
    var workerLockWaiters: map<WorkerId, seq<RunId>>
    var runs: seq<Run>
    ghost var slotRequests: seq<RunId>

    ghost function View(): Pool
      reads this
    {
      Pool(activeJobCount, jobSlotWaiters, busyWorkers, workerLockWaiters, runs, slotRequests)
    }

    ghost predicate Valid()
      reads this
    {
      Inv(View(), limit) && limit >= 1
    }

    /** The configured concurrency is clamped to at least one. */
    constructor (jobMaxConcurrency: int)
      ensures View() == EMPTY && Valid()
      ensures limit == if jobMaxConcurrency < 1 then 1 else jobMaxConcurrency
    {
      limit := if jobMaxConcurrency < 1 then 1 else jobMaxConcurrency;
      activeJobCount, jobSlotWaiters, busyWorkers, workerLockWaiters := 0, [], {}, map[];
      runs, slotRequests := [], [];
      new;
      InitialInv(limit);
    }

    method Resolve(r: RunId, phase: Phase)
      modifies this`runs
      ensures View() == SetPhase(old(View()), r, phase)
    {
      if r < |runs| {
        runs := runs[r := runs[r].(phase := phase)];
      }
    }

    method AcquireWorkerLock(r: RunId)
      requires r < |runs|
      modifies this
      ensures View() == AcquireLock(old(View()), r)
    {
      var workerId := runs[r].worker;
      if workerId !in busyWorkers {
        busyWorkers := busyWorkers + {workerId};
        Resolve(r, LockGranted);
      } else {
        var waiters := if workerId in workerLockWaiters then workerLockWaiters[workerId] else [];
        workerLockWaiters := workerLockWaiters[workerId := waiters + [r]];
        Resolve(r, AwaitingLock);
      }
    }

    method ReleaseWorkerLock(workerId: WorkerId)
      modifies this
      ensures View() == ReleaseLock(old(View()), workerId)
    {
      var waiters := if workerId in workerLockWaiters then workerLockWaiters[workerId] else [];
      if |waiters| <= 1 {
        workerLockWaiters := workerLockWaiters - {workerId};
      } else {
        workerLockWaiters := workerLockWaiters[workerId := waiters[1..]];
      }
      if waiters != [] {
        Resolve(waiters[0], LockGranted);
      } else {
        busyWorkers := busyWorkers - {workerId};
      }
    }

    method AcquireJobSlot(r: RunId)
      modifies this
      ensures View() == AcquireSlot(old(View()), r, limit)
    {
      slotRequests := slotRequests + [r];
      if activeJobCount < limit {
        activeJobCount := activeJobCount + 1;
        Resolve(r, SlotGranted);
      } else {
        jobSlotWaiters := jobSlotWaiters + [r];
        Resolve(r, AwaitingSlot);
      }
    }

    method ReleaseJobSlot()
      modifies this
      ensures View() == ReleaseSlot(old(View()), limit)
    {
      activeJobCount := if activeJobCount == 0 then 0 else activeJobCount - 1;
      if activeJobCount < limit && jobSlotWaiters != [] {
        var next := jobSlotWaiters[0];
        jobSlotWaiters := jobSlotWaiters[1..];
        activeJobCount := activeJobCount + 1;
        Resolve(next, SlotGranted);
      }
    }

    /** `enqueueJobExecution` up to its first await. */
    method EnqueueJobExecution(workerId: WorkerId) returns (r: RunId)
      requires Valid()
      modifies this
      ensures Valid() && View() == Enqueue(old(View()), workerId) && r == |old(runs)|
      ensures |runs| == r + 1 && runs[r].worker == workerId
      ensures runs[r].phase == if workerId in old(busyWorkers) then AwaitingLock else LockGranted
    {
      StepKeepsInv(View(), Arrive(workerId), limit);
      r := |runs|;
      runs := runs + [Run(workerId, AwaitingLock)];
      AcquireWorkerLock(r);
    }

    method ResumeWithLock(r: RunId)
      requires Valid() && Enabled(View(), Resume(r))
      modifies this
      ensures Valid() && View() == TakeSlot(old(View()), r, limit)
      ensures runs[r].phase == if old(activeJobCount) < limit then SlotGranted else AwaitingSlot
    {
      StepKeepsInv(View(), Resume(r), limit);
      AcquireJobSlot(r);
    }

    method ResumeWithSlot(r: RunId)
      requires Valid() && Enabled(View(), Start(r))
      modifies this
      ensures Valid() && View() == Begin(old(View()), r)
      ensures runs == old(runs)[r := old(runs)[r].(phase := Working)]
    {
      StepKeepsInv(View(), Start(r), limit);
      Resolve(r, Working);
    }

    /** The two `finally` blocks, run whether the body resolved or threw. */
    method BodySettled(r: RunId)
      requires Valid() && Enabled(View(), Settle(r))
      modifies this
      ensures Valid() && View() == Finish(old(View()), r, limit)
      ensures Done(View(), r)
      ensures old(jobSlotWaiters) != [] ==> HoldsSlot(View(), old(jobSlotWaiters)[0])
      ensures var w := old(runs[r].worker);
        old(WaitersFor(View(), w)) != [] ==> HoldsLock(View(), old(WaitersFor(View(), w)[0]), w)
    {
      SettleHandsOn(View(), r, limit);
      StepKeepsInv(View(), Settle(r), limit);
      var workerId := runs[r].worker;
      ReleaseJobSlot();
      Resolve(r, Finished);
      ReleaseWorkerLock(workerId);
    }
  }
}
