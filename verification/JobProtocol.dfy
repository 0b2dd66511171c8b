/** How one scheduled job is triggered, claimed, executed, retried and timed out, together with the
    Item Bus wakes that trigger it.

    Many trigger calls can be in flight for the job at once. `Pc` says at which await a call is
    suspended; each stretch between two awaits is one step. Whether a worker is enabled, whether
    `hasWork` is true, whether an attempt is retried and when a deadline fires are left open. */
module JobProtocol {
  type TriggerId = nat

  /** An event trigger remembers the wake generation it was started for. */
  datatype Kind = Manual | Schedule | Pipeline | Event(generation: nat)

  datatype Pc =
    | Gate                    // a bus wake, before its own checks
    | Check                   // runJob, before its first busy check
    | Probing                 // runJob, awaiting hasWork
    | Ready                   // runJob, before its second busy check
    | Queued                  // marked queued, waiting for the execution pool
    | Preparing(next: nat)    // executing, attempt `next` not launched yet
    | Handling(attempt: nat)  // executing, the handler of `attempt` runs under its deadline
    | Settled                 // the last attempt settled, final runtime write to come
    | TimedOut                // the deadline fired, final runtime write to come
    | Finishing               // final write done, completion still to come
    | Refused                 // a bus wake whose runJob threw
    | Returned                // a bus wake whose runJob returned

  datatype Call = Call(kind: Kind, pc: Pc)

  /** One execution of the worker's handler. */
  datatype Handler = Handler(trigger: TriggerId, attempt: nat)

  /** `queued` and `running` are the flags saved in the runtime cache; `abandoned` is membership in
      the abandoned set; `live` are the handlers really executing. The last three fields are
      history: every wake generation up to `checked` had an eligibility check start after it, every
      one up to `waived` was seen by a wake that found the job or its worker disabled, and every one
      up to `deferred` by a wake that found the job in flight with no run behind it. */
  datatype Job = Job(
    queued: bool,
    running: bool,
    abandoned: bool,
    live: set<Handler>,
    calls: map<TriggerId, Call>,
    next: TriggerId,
    requested: nat,
    handled: nat,
    timer: bool,
    checked: nat,
    waived: nat,
    deferred: nat)

  const IDLE: Job := Job(false, false, false, {}, map[], 0, 0, 0, false, 0, 0, 0)

  /** What `buildJobState` reports as queued or running. */
  predicate Busy(j: Job) {
    j.queued || j.running || j.abandoned
  }

  function Max(a: nat, b: nat): nat {
    if a < b then b else a
  }

  function Spawn(j: Job, kind: Kind, pc: Pc): Job {
    j.(calls := j.calls[j.next := Call(kind, pc)], next := j.next + 1)
  }

  function Goto(j: Job, t: TriggerId, pc: Pc): Job
    requires t in j.calls
  {
    j.(calls := j.calls[t := j.calls[t].(pc := pc)])
  }

  function Drop(j: Job, t: TriggerId): Job {
    j.(calls := j.calls - {t})
  }

  // ---- bus wakes ----

  function SchedulePending(j: Job): Job {
    if j.requested <= j.handled then j else j.(timer := true)
  }

  function Publish(j: Job): Job {
    SchedulePending(j.(requested := j.requested + 1))
  }

  function TimerFires(j: Job): Job {
    var j' := j.(timer := false);
    if j.requested <= j.handled then j' else Spawn(j', Event(j.requested), Gate)
  }

  /** A call that runs to the end will reschedule a pending wake: it is past the wake's own gate. */
  predicate Reschedules(c: Call) {
    c.pc in {Queued, Settled, TimedOut, Finishing, Refused, Returned}
    || c.pc.Preparing? || c.pc.Handling?
    || (c.kind.Event? && c.pc in {Check, Probing, Ready})
  }

  predicate SomeCallReschedules(j: Job) {
    exists t :: t in j.calls && Reschedules(j.calls[t])
  }

  function PassGate(j: Job, t: TriggerId, enabled: bool): Job
    requires t in j.calls && j.calls[t].kind.Event?
  {
    var generation := j.calls[t].kind.generation;
    if !enabled then
      Drop(j, t).(handled := generation, waived := Max(j.waived, generation))
    else if Busy(j) then
      Drop(j, t).(deferred := if SomeCallReschedules(j) then j.deferred else Max(j.deferred, generation))
    else
      Goto(j, t, Check)
  }

  function WakeReturns(j: Job, t: TriggerId): Job
    requires t in j.calls && j.calls[t].kind.Event?
  {
    SchedulePending(Drop(j, t).(handled := j.calls[t].kind.generation))
  }

  function WakeRefused(j: Job, t: TriggerId): Job
    requires t in j.calls
  {
    SchedulePending(Drop(j, t))
  }

  // ---- runJob and triggerJobNow ----

  /** runJob throws: a bus wake catches it, any other caller is done. */
  function Refuse(j: Job, t: TriggerId): Job
    requires t in j.calls
  {
    if j.calls[t].kind.Event? then Goto(j, t, Refused) else Drop(j, t)
  }

  function FirstCheck(j: Job, t: TriggerId, workerEnabled: bool): Job
    requires t in j.calls
  {
    if Busy(j) || !workerEnabled then Refuse(j, t)
    else Goto(j, t, Probing).(checked := j.requested)
  }

  /** The runtime write of a skipped slot: it keeps `queued` and clears `running`. */
  function SkipWrite(j: Job): Job {
    j.(running := false)
  }

  function Probed(j: Job, t: TriggerId, ready: bool): Job
    requires t in j.calls
  {
    if ready then Goto(j, t, Ready)
    else match j.calls[t].kind
      case Event(_) => Goto(j, t, Returned)
      case Schedule => SkipWrite(Drop(j, t))
      case _ => Drop(j, t)
  }

  function SecondCheck(j: Job, t: TriggerId): Job
    requires t in j.calls
  {
    if Busy(j) then Refuse(j, t)
    else Goto(j, t, Queued).(queued := true, running := false)
  }

  function TriggerNow(j: Job): Job {
    if Busy(j) then j
    else Spawn(j, Manual, Queued).(queued := true, running := false)
  }

  // ---- execution ----

  function StartRun(j: Job, t: TriggerId): Job
    requires t in j.calls
  {
    Goto(j, t, Preparing(1)).(queued := false, running := true)
  }

  function Launch(j: Job, t: TriggerId): Job
    requires t in j.calls && j.calls[t].pc.Preparing?
  {
    var n := j.calls[t].pc.next;
    Goto(j, t, Handling(n)).(live := j.live + {Handler(t, n)})
  }

  function HandlerEnds(j: Job, t: TriggerId, retry: bool): Job
    requires t in j.calls && j.calls[t].pc.Handling?
  {
    var n := j.calls[t].pc.attempt;
    Goto(j, t, if retry then Preparing(n + 1) else Settled).(
      live := j.live - {Handler(t, n)}, abandoned := false)
  }

  function Deadline(j: Job, t: TriggerId): Job
    requires t in j.calls
  {
    Goto(j, t, TimedOut).(abandoned := true)
  }

  function OrphanEnds(j: Job, h: Handler): Job {
    j.(live := j.live - {h}, abandoned := false)
  }

  function FinalWrite(j: Job, t: TriggerId): Job
    requires t in j.calls
  {
    Goto(j, t, Finishing).(running := false)
  }

  function Complete(j: Job, t: TriggerId): Job
    requires t in j.calls
  {
    SchedulePending(if j.calls[t].kind.Event? then Goto(j, t, Returned) else Drop(j, t))
  }

  /** A missed or overlapping slot is recorded: the derived running flag is written back. */
  function RecordSlot(j: Job): Job {
    j.(running := j.running || j.abandoned)
  }

  // ---- the transition system ----

  datatype Step =
    | PublishItem
    | FireTimer
    | GateChecks(t: TriggerId, enabled: bool)
    | EndWake(t: TriggerId)
    | FireSlot
    | FireTick
    | RunNow
    | CheckFirst(t: TriggerId, enabled: bool)
    | ProbeDone(t: TriggerId, ready: bool)
    | CheckSecond(t: TriggerId)
    | BeginRun(t: TriggerId)
    | LaunchHandler(t: TriggerId)
    | EndHandler(t: TriggerId, retry: bool)
    | MissDeadline(t: TriggerId)
    | EndOrphan(h: Handler)
    | WriteResult(t: TriggerId)
    | CompleteRun(t: TriggerId)
    | SkipSlot
    | SweepSkip

  predicate At(j: Job, t: TriggerId, pc: Pc) {
    t in j.calls && j.calls[t].pc == pc
  }

  /** How far a call is with its claim on the job. */
  datatype Stage = Outside | Claimed | Preparation | Handled(attempt: nat) | Closing

  function StageOf(j: Job, t: TriggerId): Stage {
    if t !in j.calls then Outside
    else match j.calls[t].pc
      case Queued => Claimed
      case Preparing(_) => Preparation
      case Handling(n) => Handled(n)
      case Settled => Closing
      case TimedOut => Closing
      case Finishing => Closing
      case _ => Outside
  }

  /** A call that may still launch a handler. */
  predicate Claimant(j: Job, t: TriggerId) {
    StageOf(j, t).Claimed? || InProgress(j, t)
  }

  predicate InProgress(j: Job, t: TriggerId) {
    StageOf(j, t).Preparation? || StageOf(j, t).Handled?
  }

  /** The body of the run is in progress, so it holds its worker's lock (see ExecutionPool). */
  predicate Executing(j: Job, t: TriggerId) {
    InProgress(j, t) || StageOf(j, t).Closing?
  }

  /** A handler that outlived its deadline. */
  predicate Orphan(j: Job, h: Handler) {
    h in j.live && StageOf(j, h.trigger) != Handled(h.attempt)
  }

  ghost predicate Enabled(j: Job, step: Step) {
    match step
    case PublishItem => true
    case FireTimer => j.timer
    case GateChecks(t, _) => At(j, t, Gate) && j.calls[t].kind.Event?
    case EndWake(t) => (At(j, t, Refused) || At(j, t, Returned)) && j.calls[t].kind.Event?
    case FireSlot => true
    case FireTick => true
    case RunNow => true
    case CheckFirst(t, _) => At(j, t, Check)
    case ProbeDone(t, _) => At(j, t, Probing)
    case CheckSecond(t) => At(j, t, Ready)
    case BeginRun(t) => At(j, t, Queued) && forall u :: !Executing(j, u)
    case LaunchHandler(t) => t in j.calls && j.calls[t].pc.Preparing?
    case EndHandler(t, _) => t in j.calls && j.calls[t].pc.Handling?
    case MissDeadline(t) => t in j.calls && j.calls[t].pc.Handling?
    case EndOrphan(h) => Orphan(j, h)
    case WriteResult(t) => At(j, t, Settled) || At(j, t, TimedOut)
    case CompleteRun(t) => At(j, t, Finishing)
    case SkipSlot => true
    case SweepSkip => true
  }

  ghost function Apply(j: Job, step: Step): Job
    requires Enabled(j, step)
  {
    match step
    case PublishItem => Publish(j)
    case FireTimer => TimerFires(j)
    case GateChecks(t, enabled) => PassGate(j, t, enabled)
    case EndWake(t) => if j.calls[t].pc.Refused? then WakeRefused(j, t) else WakeReturns(j, t)
    case FireSlot => Spawn(j, Schedule, Check)
    case FireTick => Spawn(j, Pipeline, Check)
    case RunNow => TriggerNow(j)
    case CheckFirst(t, enabled) => FirstCheck(j, t, enabled)
    case ProbeDone(t, ready) => Probed(j, t, ready)
    case CheckSecond(t) => SecondCheck(j, t)
    case BeginRun(t) => StartRun(j, t)
    case LaunchHandler(t) => Launch(j, t)
    case EndHandler(t, retry) => HandlerEnds(j, t, retry)
    case MissDeadline(t) => Deadline(j, t)
    case EndOrphan(h) => OrphanEnds(j, h)
    case WriteResult(t) => FinalWrite(j, t)
    case CompleteRun(t) => Complete(j, t)
    case SkipSlot => RecordSlot(j)
    case SweepSkip => SkipWrite(j)
  }

  /** The steps of the wakes themselves. */
  predicate IsWakeStep(step: Step) {
    step.PublishItem? || step.FireTimer? || step.GateChecks? || step.EndWake?
  }

  /** The steps that start or check a call. */
  predicate IsTriggerStep(step: Step) {
    step.FireSlot? || step.FireTick? || step.RunNow? || step.CheckFirst? || step.ProbeDone? || step.CheckSecond?
  }

  /** The two steps that clear the running flag without looking at it. */
  ghost predicate ClearsRunning(j: Job, step: Step) {
    step.SweepSkip?
    || (step.ProbeDone? && !step.ready && step.t in j.calls && j.calls[step.t].kind.Schedule?)
  }

  // ---- one handler at a time ----

  ghost predicate ClaimInv(j: Job) {
    && (forall t, u :: Claimant(j, t) && Claimant(j, u) ==> t == u)
    && (forall t, u :: Executing(j, t) && Executing(j, u) ==> t == u)
    && (forall t :: StageOf(j, t).Claimed? ==> j.queued)
    && (forall t :: InProgress(j, t) ==> j.running)
    && (j.queued ==> exists t :: StageOf(j, t).Claimed?)
  }

  ghost predicate LiveInv(j: Job) {
    && (forall h, k :: h in j.live && k in j.live ==> h == k)
    && (forall t :: StageOf(j, t).Handled? ==> Handler(t, StageOf(j, t).attempt) in j.live)
    && (forall h :: Orphan(j, h) ==> j.abandoned)
    && (j.abandoned ==> (exists h :: Orphan(j, h)) && forall t :: !Claimant(j, t))
  }

  ghost predicate IdInv(j: Job) {
    && (forall t :: t in j.calls ==> t < j.next)
    && (forall h :: h in j.live ==> h.trigger < j.next)
  }

  ghost predicate Inv(j: Job) {
    ClaimInv(j) && LiveInv(j) && IdInv(j)
  }

  /** What the abandoned-run guard is for. */
  ghost predicate SingleHandler(j: Job) {
    && (forall h, k :: h in j.live && k in j.live ==> h == k)
    && (j.live != {} ==> Busy(j))
  }

  lemma InvMeansSingleHandler(j: Job)
    requires Inv(j)
    ensures SingleHandler(j)
  {
    if j.live != {} {
      var h :| h in j.live;
      if !Orphan(j, h) {
        assert InProgress(j, h.trigger);
      }
    }
  }

  /** `k` is `j` except that call `t` is now at stage `b`. */
  ghost predicate Moves(j: Job, k: Job, t: TriggerId, b: Stage) {
    StageOf(k, t) == b && forall u :: u != t ==> StageOf(k, u) == StageOf(j, u)
  }

  lemma StagesDecide(j: Job, k: Job)
    ensures forall u :: StageOf(k, u) == StageOf(j, u) ==>
      Claimant(k, u) == Claimant(j, u) && InProgress(k, u) == InProgress(j, u) && Executing(k, u) == Executing(j, u)
  {
  }

  ghost predicate SameFlags(j: Job, k: Job) {
    && j.queued == k.queued && j.running == k.running && j.abandoned == k.abandoned && j.live == k.live
    && j.next <= k.next && IdInv(k)
  }

  lemma SameStagesInv(j: Job, k: Job)
    requires Inv(j) && SameFlags(j, k) && forall t :: StageOf(k, t) == StageOf(j, t)
    ensures Inv(k)
  {
    StagesDecide(j, k);
    assert forall t :: Claimant(k, t) == Claimant(j, t);
    assert forall t :: Executing(k, t) == Executing(j, t);
    assert forall h :: Orphan(k, h) == Orphan(j, h);
  }

  lemma NewClaimKeepsInv(j: Job, k: Job, t: TriggerId)
    requires Inv(j) && !Busy(j) && k.live == j.live && IdInv(k)
    requires k.queued && !k.running && !k.abandoned
    requires StageOf(j, t) == Outside && Moves(j, k, t, Claimed)
    ensures Inv(k)
  {
    StagesDecide(j, k);
    InvMeansSingleHandler(j);
    forall u ensures StageOf(j, u) in {Outside, Closing} {
      assert !StageOf(j, u).Claimed? && !InProgress(j, u);
    }
    assert StageOf(k, t).Claimed?;
    assert forall u :: Claimant(k, u) == (u == t);
    assert forall u :: Executing(k, u) == Executing(j, u);
  }

  lemma BeginRunKeepsInv(j: Job, k: Job, t: TriggerId)
    requires Inv(j) && StageOf(j, t) == Claimed && (forall u :: !Executing(j, u))
    requires k.live == j.live && k.abandoned == j.abandoned && IdInv(k)
    requires !k.queued && k.running && Moves(j, k, t, Preparation)
    ensures Inv(k)
  {
    StagesDecide(j, k);
    assert Claimant(j, t);
    assert forall u :: Claimant(k, u) == (u == t);
    assert forall u :: Executing(k, u) == (u == t);
    assert forall h :: Orphan(k, h) == Orphan(j, h);
  }

  lemma LiveHaveStages(j: Job)
    requires LiveInv(j)
    ensures forall h :: h in j.live && !j.abandoned ==>
      Claimant(j, h.trigger) && StageOf(j, h.trigger) == Handled(h.attempt)
  {
    assert forall h :: h in j.live && !j.abandoned ==> !Orphan(j, h);
  }

  lemma LaunchKeepsInv(j: Job, k: Job, t: TriggerId, n: nat)
    requires Inv(j) && StageOf(j, t) == Preparation
    requires SameFlags(j, k.(live := j.live)) && k.live == j.live + {Handler(t, n)} && IdInv(k)
    requires Moves(j, k, t, Handled(n))
    ensures Inv(k)
  {
    StagesDecide(j, k);
    assert Claimant(j, t) && Executing(j, t);
    LiveHaveStages(j);
    assert forall h :: h !in j.live;
    assert forall u :: Claimant(k, u) == Claimant(j, u);
    assert forall u :: Executing(k, u) == Executing(j, u);
    if k.queued {
      var u :| StageOf(j, u).Claimed?;
      assert Claimant(j, u);
    }
  }

  lemma EndHandlerKeepsInv(j: Job, k: Job, t: TriggerId, retry: bool)
    requires Inv(j) && StageOf(j, t).Handled?
    requires SameFlags(j.(abandoned := false), k.(live := j.live)) && IdInv(k)
    requires k.live == j.live - {Handler(t, StageOf(j, t).attempt)}
    requires Moves(j, k, t, if retry then Preparation else Closing)
    ensures Inv(k)
  {
    StagesDecide(j, k);
    assert Claimant(j, t) && Executing(j, t);
    assert k.live == {};
    assert forall u :: u != t ==> Claimant(k, u) == Claimant(j, u);
    assert forall u :: Executing(k, u) == Executing(j, u);
    if k.queued {
      var u :| StageOf(j, u).Claimed?;
      assert Claimant(j, u);
    }
  }

  lemma DeadlineKeepsInv(j: Job, k: Job, t: TriggerId)
    requires Inv(j) && StageOf(j, t).Handled?
    requires SameFlags(j.(abandoned := true), k) && Moves(j, k, t, Closing)
    ensures Inv(k)
  {
    StagesDecide(j, k);
    var h := Handler(t, StageOf(j, t).attempt);
    assert Claimant(j, t) && Executing(j, t);
    assert Orphan(k, h);
    assert forall u :: !Claimant(k, u);
    assert forall u :: Executing(k, u) == Executing(j, u);
    assert forall u :: StageOf(j, u).Claimed? ==> Claimant(j, u);
  }

  lemma EndOrphanKeepsInv(j: Job, h: Handler)
    requires Inv(j) && Orphan(j, h)
    ensures Inv(OrphanEnds(j, h))
  {
    var k := OrphanEnds(j, h);
    StagesDecide(j, k);
    assert k.live == {};
    assert forall u :: StageOf(k, u) == StageOf(j, u);
    assert forall u :: Claimant(k, u) == Claimant(j, u);
    assert forall u :: Executing(k, u) == Executing(j, u);
  }

  lemma CloseKeepsInv(j: Job, k: Job, t: TriggerId)
    requires Inv(j) && StageOf(j, t) == Closing
    requires SameFlags(j, k) && Moves(j, k, t, Outside)
    ensures Inv(k)
  {
    StagesDecide(j, k);
    assert forall u :: Claimant(k, u) == Claimant(j, u);
    assert forall u :: Executing(k, u) == (Executing(j, u) && u != t);
    assert forall h :: Orphan(k, h) == Orphan(j, h);
    if k.queued {
      var u :| StageOf(j, u).Claimed?;
      assert StageOf(k, u).Claimed?;
    }
  }

  /** Rewriting the running flag is harmless if it stays set for a run in progress. */
  lemma RunningKeepsInv(j: Job, k: Job)
    requires Inv(j) && SameFlags(j, k.(running := j.running)) && IdInv(k)
    requires forall t :: StageOf(k, t) == StageOf(j, t)
    requires forall t :: InProgress(j, t) ==> k.running
    ensures Inv(k)
  {
    StagesDecide(j, k);
    assert forall t :: Claimant(k, t) == Claimant(j, t);
    assert forall t :: Executing(k, t) == Executing(j, t);
    assert forall h :: Orphan(k, h) == Orphan(j, h);
  }

  /** The running flag is cleared blindly only while no run is between its start and the end of its
      last attempt. */
  ghost predicate SkipsIdle(j: Job, step: Step) {
    ClearsRunning(j, step) ==> forall t :: !InProgress(j, t)
  }

  lemma CheckFirstKeepsInv(j: Job, t: TriggerId, enabled: bool)
    requires Inv(j) && At(j, t, Check)
    ensures Inv(FirstCheck(j, t, enabled))
  {
    SameStagesInv(j, FirstCheck(j, t, enabled));
  }

  lemma ProbeDoneKeepsInv(j: Job, t: TriggerId, ready: bool)
    requires Inv(j) && At(j, t, Probing) && SkipsIdle(j, ProbeDone(t, ready))
    ensures Inv(Probed(j, t, ready))
  {
    if ready {
      GotoKeepsInv(j, t, Ready);
    } else if j.calls[t].kind.Event? {
      GotoKeepsInv(j, t, Returned);
    } else {
      DropKeepsInv(j, t);
      if j.calls[t].kind.Schedule? { SkipKeepsInv(j, t); }
    }
  }

  /** A slot without work that meets no run in progress. */
  lemma SkipKeepsInv(j: Job, t: TriggerId)
    requires Inv(Drop(j, t)) && At(j, t, Probing) && forall u :: !InProgress(j, u)
    ensures Inv(SkipWrite(Drop(j, t)))
  {
    var k := Drop(j, t);
    assert forall u :: StageOf(k, u) == StageOf(j, u) == StageOf(SkipWrite(k), u);
    assert forall u :: InProgress(k, u) == InProgress(j, u);
    RunningKeepsInv(k, SkipWrite(k));
  }

  lemma CheckSecondKeepsInv(j: Job, t: TriggerId)
    requires Inv(j) && At(j, t, Ready)
    ensures Inv(SecondCheck(j, t))
  {
    var k := SecondCheck(j, t);
    if Busy(j) { SameStagesInv(j, k); } else { NewClaimKeepsInv(j, k, t); }
  }

  lemma RunNowKeepsInv(j: Job)
    requires Inv(j)
    ensures Inv(TriggerNow(j))
  {
    if !Busy(j) { NewClaimKeepsInv(j, TriggerNow(j), j.next); }
  }

  lemma WriteResultKeepsInv(j: Job, t: TriggerId)
    requires Inv(j) && Enabled(j, WriteResult(t))
    ensures Inv(FinalWrite(j, t))
  {
    var k := FinalWrite(j, t);
    assert Executing(j, t);
    forall u ensures !InProgress(j, u) {
      if InProgress(j, u) { assert Executing(j, u); }
    }
    assert forall u :: StageOf(k, u) == StageOf(j, u);
    RunningKeepsInv(j, k);
  }

  lemma LeaveKeepsInv(j: Job, t: TriggerId, k: Job)
    requires Inv(j) && At(j, t, Finishing)
    requires k == Drop(j, t) || k == Goto(j, t, Returned)
    ensures Inv(k)
  {
    assert Moves(j, k, t, Outside);
    CloseKeepsInv(j, k, t);
  }

  lemma CompleteKeepsInv(j: Job, t: TriggerId)
    requires Inv(j) && Enabled(j, CompleteRun(t))
    ensures Inv(Complete(j, t))
  {
    var k := if j.calls[t].kind.Event? then Goto(j, t, Returned) else Drop(j, t);
    LeaveKeepsInv(j, t, k);
    TimerKeepsInv(k, SchedulePending(k));
  }

  /** Wake bookkeeping does not matter to claims and handlers. */
  lemma TimerKeepsInv(j: Job, k: Job)
    requires Inv(j)
    requires k.calls == j.calls && k.next == j.next && SameFlags(j, k.(next := j.next, calls := j.calls))
    ensures Inv(k)
  {
    assert forall u :: StageOf(k, u) == StageOf(j, u);
    SameStagesInv(j, k);
  }

  /** So are a call that leaves without a claim and a new call. */
  lemma DropKeepsInv(j: Job, t: TriggerId)
    requires Inv(j) && StageOf(j, t) == Outside
    ensures Inv(Drop(j, t))
  {
    var k := Drop(j, t);
    assert forall u :: StageOf(k, u) == StageOf(j, u);
    SameStagesInv(j, k);
  }

  lemma GotoKeepsInv(j: Job, t: TriggerId, pc: Pc)
    requires Inv(j) && t in j.calls && StageOf(j, t) == Outside && StageOf(Goto(j, t, pc), t) == Outside
    ensures Inv(Goto(j, t, pc))
  {
    var k := Goto(j, t, pc);
    assert forall u :: StageOf(k, u) == StageOf(j, u);
    SameStagesInv(j, k);
  }

  lemma SpawnKeepsInv(j: Job, kind: Kind, pc: Pc)
    requires Inv(j) && pc in {Gate, Check}
    ensures Inv(Spawn(j, kind, pc))
  {
    var k := Spawn(j, kind, pc);
    assert forall u :: StageOf(k, u) == StageOf(j, u);
    SameStagesInv(j, k);
  }

  lemma FireTimerKeepsInv(j: Job)
    requires Inv(j)
    ensures Inv(TimerFires(j))
  {
    TimerKeepsInv(j, j.(timer := false));
    if j.requested > j.handled { SpawnKeepsInv(j.(timer := false), Event(j.requested), Gate); }
  }

  lemma GateKeepsInv(j: Job, t: TriggerId, enabled: bool)
    requires Inv(j) && At(j, t, Gate) && j.calls[t].kind.Event?
    ensures Inv(PassGate(j, t, enabled))
  {
    if enabled && !Busy(j) {
      GotoKeepsInv(j, t, Check);
    } else {
      DropKeepsInv(j, t);
      TimerKeepsInv(Drop(j, t), PassGate(j, t, enabled));
    }
  }

  lemma EndWakeKeepsInv(j: Job, t: TriggerId)
    requires Inv(j) && Enabled(j, EndWake(t))
    ensures Inv(Apply(j, EndWake(t)))
  {
    DropKeepsInv(j, t);
    TimerKeepsInv(Drop(j, t), Apply(j, EndWake(t)));
  }

  lemma RunStepKeepsInv(j: Job, step: Step)
    requires Inv(j) && Enabled(j, step)
    requires step.BeginRun? || step.LaunchHandler?
    ensures Inv(Apply(j, step))
  {
    var k := Apply(j, step);
    var t := step.t;
    if step.BeginRun? { BeginRunKeepsInv(j, k, t); } else { LaunchKeepsInv(j, k, t, j.calls[t].pc.next); }
  }

  lemma AttemptEndKeepsInv(j: Job, step: Step)
    requires Inv(j) && Enabled(j, step)
    requires step.EndHandler? || step.MissDeadline?
    ensures Inv(Apply(j, step))
  {
    var k := Apply(j, step);
    var t := step.t;
    if step.MissDeadline? { DeadlineKeepsInv(j, k, t); } else { EndHandlerKeepsInv(j, k, t, step.retry); }
  }

  /** Every step keeps the invariant, provided that the blind skip writes hit no run in progress. */
  lemma StepKeepsInv(j: Job, step: Step)
    requires Inv(j) && Enabled(j, step) && SkipsIdle(j, step)
    ensures Inv(Apply(j, step))
  {
    match step
    case CheckFirst(t, enabled) => CheckFirstKeepsInv(j, t, enabled);
    case ProbeDone(t, ready) => ProbeDoneKeepsInv(j, t, ready);
    case CheckSecond(t) => CheckSecondKeepsInv(j, t);
    case RunNow => RunNowKeepsInv(j);
    case EndOrphan(h) => EndOrphanKeepsInv(j, h);
    case WriteResult(t) => WriteResultKeepsInv(j, t);
    case CompleteRun(t) => CompleteKeepsInv(j, t);
    case SkipSlot => RunningKeepsInv(j, RecordSlot(j));
    case SweepSkip => RunningKeepsInv(j, SkipWrite(j));
    case BeginRun(_) => RunStepKeepsInv(j, step);
    case LaunchHandler(_) => RunStepKeepsInv(j, step);
    case EndHandler(_, _) => AttemptEndKeepsInv(j, step);
    case MissDeadline(_) => AttemptEndKeepsInv(j, step);
    case PublishItem => TimerKeepsInv(j, Publish(j));
    case FireTimer => FireTimerKeepsInv(j);
    case GateChecks(t, enabled) => GateKeepsInv(j, t, enabled);
    case EndWake(t) => EndWakeKeepsInv(j, t);
    case FireSlot => SpawnKeepsInv(j, Schedule, Check);
    case FireTick => SpawnKeepsInv(j, Pipeline, Check);
  }

  // ---- whole runs ----

  ghost predicate Legal(j: Job, steps: seq<Step>)
    decreases |steps|
  {
    steps == [] || (Enabled(j, steps[0]) && Legal(Apply(j, steps[0]), steps[1..]))
  }

  ghost function Outcome(j: Job, steps: seq<Step>): Job
    requires Legal(j, steps)
    decreases |steps|
  {
    if steps == [] then j else Outcome(Apply(j, steps[0]), steps[1..])
  }

  ghost predicate SkipsIdleAlong(j: Job, steps: seq<Step>)
    requires Legal(j, steps)
    decreases |steps|
  {
    steps == [] || (SkipsIdle(j, steps[0]) && SkipsIdleAlong(Apply(j, steps[0]), steps[1..]))
  }

  lemma {:induction false} RunKeepsInv(j: Job, steps: seq<Step>)
    requires Inv(j) && Legal(j, steps) && SkipsIdleAlong(j, steps)
    ensures Inv(Outcome(j, steps))
    decreases |steps|
  {
    if steps != [] {
      StepKeepsInv(j, steps[0]);
      RunKeepsInv(Apply(j, steps[0]), steps[1..]);
    }
  }

  /** Along every interleaving of triggers, wakes, retries and timeouts whose blind skip writes hit
      no run in progress, the job never has two live handlers, abandoned ones included, and a live
      handler makes the job report busy, so that every further trigger is refused. */
  lemma NeverTwoHandlers(steps: seq<Step>)
    requires Legal(IDLE, steps) && SkipsIdleAlong(IDLE, steps)
    ensures SingleHandler(Outcome(IDLE, steps))
  {
    RunKeepsInv(IDLE, steps);
    InvMeansSingleHandler(Outcome(IDLE, steps));
  }

  // ---- the skip writes that clear `running` without looking ----

  ghost predicate TwoHandlers(j: Job) {
    exists h, k :: h in j.live && k in j.live && h != k
  }

  /** Some continuation without further blind writes reaches two live handlers. */
  ghost predicate CanDouble(j: Job) {
    exists steps :: Legal(j, steps) && SkipsIdleAlong(j, steps) && TwoHandlers(Outcome(j, steps))
  }

  lemma Extend(j: Job, step: Step)
    requires Enabled(j, step) && !ClearsRunning(j, step) && CanDouble(Apply(j, step))
    ensures CanDouble(j)
  {
    var k := Apply(j, step);
    var steps :| Legal(k, steps) && SkipsIdleAlong(k, steps) && TwoHandlers(Outcome(k, steps));
    var all := [step] + steps;
    assert all[0] == step && all[1..] == steps;
    assert Legal(j, all) && SkipsIdleAlong(j, all) && Outcome(j, all) == Outcome(k, steps);
  }

  lemma DoubledNow(j: Job)
    requires TwoHandlers(j)
    ensures CanDouble(j)
  {
    assert Legal(j, []) && SkipsIdleAlong(j, []) && Outcome(j, []) == j;
  }

  /** The run of `u` has outlived its deadline and left, and `c` is claimed: `c` can start over it. */
  lemma ClaimedOverOrphan(j: Job, c: TriggerId, h: Handler)
    requires At(j, c, Queued) && (forall t :: !Executing(j, t)) && h in j.live && h.trigger != c
    ensures CanDouble(j)
  {
    var j1 := StartRun(j, c);
    assert At(j1, c, Preparing(1));
    var j2 := Launch(j1, c);
    assert h in j2.live && Handler(c, 1) in j2.live;
    DoubledNow(j2);
    Extend(j1, LaunchHandler(c));
    Extend(j, BeginRun(c));
  }

  lemma LeaveOverOrphan(j: Job, t: TriggerId, c: TriggerId, h: Handler)
    requires At(j, t, Finishing) && At(j, c, Queued) && h in j.live && h.trigger != c
    requires forall u :: Executing(j, u) ==> u == t
    ensures CanDouble(j)
  {
    var k := Complete(j, t);
    StagesDecide(j, k);
    forall u ensures !Executing(k, u) {
      assert u != t ==> StageOf(k, u) == StageOf(j, u);
    }
    ClaimedOverOrphan(k, c, h);
    Extend(j, CompleteRun(t));
  }

  lemma TimeOutOverOrphan(j: Job, t: TriggerId, c: TriggerId, h: Handler)
    requires At(j, t, TimedOut) && At(j, c, Queued) && h in j.live && h.trigger != c
    requires forall u :: Executing(j, u) ==> u == t
    ensures CanDouble(j)
  {
    var k := FinalWrite(j, t);
    StagesDecide(j, k);
    forall u ensures Executing(k, u) ==> u == t {
      assert u != t ==> StageOf(k, u) == StageOf(j, u);
    }
    LeaveOverOrphan(k, t, c, h);
    Extend(j, WriteResult(t));
  }

  lemma HandlingCanDouble(j: Job, t: TriggerId)
    requires Inv(j) && StageOf(j, t).Handled?
    ensures CanDouble(SkipWrite(j))
  {
    var k := SkipWrite(j);
    var h := Handler(t, StageOf(j, t).attempt);
    assert Claimant(j, t) && Executing(j, t);
    assert !Busy(k) by {
      if j.queued {
        var u :| StageOf(j, u).Claimed?;
        assert Claimant(j, u);
      }
    }
    var c := j.next;
    var j1 := TriggerNow(k);
    var j2 := Deadline(j1, t);
    forall u ensures Executing(j2, u) ==> u == t {
      if u != t && Executing(j2, u) { assert StageOf(j2, u) == StageOf(j, u); assert Executing(j, u); }
    }
    TimeOutOverOrphan(j2, t, c, h);
    Extend(j1, MissDeadline(t));
    Extend(k, RunNow);
  }

  /** The exact condition for a blind skip write to be harmful: it lets a second handler in, in some
      continuation, precisely when it hits a run between its start and the end of its last attempt. */
  lemma SkipWriteHarmfulIff(j: Job)
    requires Inv(j)
    ensures CanDouble(SkipWrite(j)) <==> exists t :: InProgress(j, t)
  {
    if t :| InProgress(j, t) {
      SkipOverRunDoubles(j, t);
    } else {
      var k := SkipWrite(j);
      assert forall t :: StageOf(k, t) == StageOf(j, t);
      RunningKeepsInv(j, k);
      if CanDouble(k) {
        var steps :| Legal(k, steps) && SkipsIdleAlong(k, steps) && TwoHandlers(Outcome(k, steps));
        RunKeepsInv(k, steps);
      }
    }
  }

  lemma SkipOverRunDoubles(j: Job, t: TriggerId)
    requires Inv(j) && InProgress(j, t)
    ensures CanDouble(SkipWrite(j))
  {
    if StageOf(j, t).Handled? {
      HandlingCanDouble(j, t);
    } else {
      var k := SkipWrite(j);
      LaunchKeepsInv(j, Launch(j, t), t, j.calls[t].pc.next);
      HandlingCanDouble(Launch(j, t), t);
      assert Launch(k, t) == SkipWrite(Launch(j, t));
      Extend(k, LaunchHandler(t));
    }
  }

  /** A job that reports idle has no run in progress, so checking before the write is enough. */
  lemma IdleJobSkipsSafely(j: Job)
    requires Inv(j) && !Busy(j)
    ensures SkipWrite(j) == j && !CanDouble(SkipWrite(j))
  {
    SkipWriteHarmfulIff(j);
  }

  lemma {:induction false} LegalAppend(j: Job, a: seq<Step>, b: seq<Step>)
    requires Legal(j, a) && Legal(Outcome(j, a), b)
    ensures Legal(j, a + b) && Outcome(j, a + b) == Outcome(Outcome(j, a), b)
    decreases |a|
  {
    if a == [] {
      assert a + b == b;
    } else {
      assert (a + b)[1..] == a[1..] + b;
      LegalAppend(Apply(j, a[0]), a[1..], b);
    }
  }

  lemma FirstStep(j: Job, a: Step, rest: seq<Step>)
    requires Enabled(j, a) && Legal(Apply(j, a), rest)
    ensures Legal(j, [a] + rest) && Outcome(j, [a] + rest) == Outcome(Apply(j, a), rest)
  {
    assert ([a] + rest)[1..] == rest;
  }

  lemma Lists(a: Step, b: Step, c: Step)
    ensures [c] + [] == [c] && [b] + [c] == [b, c] && [a] + [b, c] == [a, b, c]
  {
  }

  /** A slot probes hasWork on the idle job while a manual run is accepted ... */
  const ACCEPTED: seq<Step> := [FireSlot, CheckFirst(0, true), RunNow]
  /** ... and started; the slot then finds no work and clears the running flag of that run; ... */
  const CLOBBERED: seq<Step> := [BeginRun(1), LaunchHandler(1), ProbeDone(0, false)]
  /** ... a second manual run is accepted, the first one outlives its deadline, ... */
  const TIMED_OUT: seq<Step> := [RunNow, MissDeadline(1), WriteResult(1)]
  /** ... leaves, and the second one starts next to its handler. */
  const OVERLAPPED: seq<Step> := [CompleteRun(1), BeginRun(2), LaunchHandler(2)]

  /** The job with these flags, handlers and calls, and no wakes. */
  function Shot(queued: bool, running: bool, abandoned: bool, live: set<Handler>,
                calls: map<TriggerId, Call>, next: nat): Job {
    Job(queued, running, abandoned, live, calls, next, 0, 0, false, 0, 0, 0)
  }

  const PROBING: Call := Call(Schedule, Probing)

  function AfterAccepted(): Job { Shot(true, false, false, {}, map[0 := PROBING, 1 := Call(Manual, Queued)], 2) }

  function AfterClobbered(): Job { Shot(false, false, false, {Handler(1, 1)}, map[1 := Call(Manual, Handling(1))], 2) }

  function AfterTimedOut(): Job {
    Shot(true, false, true, {Handler(1, 1)}, map[1 := Call(Manual, Finishing), 2 := Call(Manual, Queued)], 3)
  }

  function AfterOverlapped(): Job {
    Shot(false, true, true, {Handler(1, 1), Handler(2, 1)}, map[2 := Call(Manual, Handling(1))], 3)
  }

  lemma AcceptedRuns()
    ensures Legal(IDLE, ACCEPTED) && Outcome(IDLE, ACCEPTED) == AfterAccepted()
  {
    var fired := Shot(false, false, false, {}, map[0 := Call(Schedule, Check)], 1);
    var probing := Shot(false, false, false, {}, map[0 := PROBING], 1);
    assert Apply(IDLE, FireSlot) == fired && Apply(fired, CheckFirst(0, true)) == probing;
    assert Apply(probing, RunNow) == AfterAccepted();
    Lists(FireSlot, CheckFirst(0, true), RunNow);
    FirstStep(probing, RunNow, []);
    FirstStep(fired, CheckFirst(0, true), [RunNow]);
    FirstStep(IDLE, FireSlot, [CheckFirst(0, true), RunNow]);
  }

  /** The only call past the queue is none, so a queued call may begin. */
  lemma Begins(j: Job, k: Job, t: TriggerId)
    requires At(j, t, Queued) && forall u :: u in j.calls && u != t ==> j.calls[u].pc in {Probing, Queued}
    requires k == j.(queued := false, running := true, calls := j.calls[t := Call(j.calls[t].kind, Preparing(1))])
    ensures Enabled(j, BeginRun(t)) && Apply(j, BeginRun(t)) == k
  {
  }

  lemma ClobberedRuns()
    ensures Legal(AfterAccepted(), CLOBBERED) && Outcome(AfterAccepted(), CLOBBERED) == AfterClobbered()
  {
    var j := AfterAccepted();
    var k := Shot(false, true, false, {}, map[0 := PROBING, 1 := Call(Manual, Preparing(1))], 2);
    Begins(j, k, 1);
    var l := Shot(false, true, false, {Handler(1, 1)}, map[0 := PROBING, 1 := Call(Manual, Handling(1))], 2);
    assert Apply(k, LaunchHandler(1)) == l;
    assert Apply(l, ProbeDone(0, false)) == AfterClobbered() by {
      assert l.calls - {0} == map[1 := Call(Manual, Handling(1))];
    }
    Lists(BeginRun(1), LaunchHandler(1), ProbeDone(0, false));
    FirstStep(l, ProbeDone(0, false), []);
    FirstStep(k, LaunchHandler(1), [ProbeDone(0, false)]);
    FirstStep(j, BeginRun(1), [LaunchHandler(1), ProbeDone(0, false)]);
  }

  lemma TimedOutRuns()
    ensures Legal(AfterClobbered(), TIMED_OUT) && Outcome(AfterClobbered(), TIMED_OUT) == AfterTimedOut()
  {
    var j := AfterClobbered();
    var calls := map[1 := Call(Manual, Handling(1)), 2 := Call(Manual, Queued)];
    var accepted := Shot(true, false, false, {Handler(1, 1)}, calls, 3);
    assert Apply(j, RunNow) == accepted;
    var k := Shot(true, false, true, {Handler(1, 1)}, calls[1 := Call(Manual, TimedOut)], 3);
    assert Apply(accepted, MissDeadline(1)) == k;
    assert Apply(k, WriteResult(1)) == AfterTimedOut();
    Lists(RunNow, MissDeadline(1), WriteResult(1));
    FirstStep(k, WriteResult(1), []);
    FirstStep(accepted, MissDeadline(1), [WriteResult(1)]);
    FirstStep(j, RunNow, [MissDeadline(1), WriteResult(1)]);
  }

  lemma OverlappedRuns()
    ensures Legal(AfterTimedOut(), OVERLAPPED) && Outcome(AfterTimedOut(), OVERLAPPED) == AfterOverlapped()
  {
    var j := AfterTimedOut();
    var left := Shot(true, false, true, {Handler(1, 1)}, map[2 := Call(Manual, Queued)], 3);
    assert j.calls - {1} == left.calls;
    assert Apply(j, CompleteRun(1)) == left;
    var begun := Shot(false, true, true, {Handler(1, 1)}, map[2 := Call(Manual, Preparing(1))], 3);
    Begins(left, begun, 2);
    assert Apply(begun, LaunchHandler(2)) == AfterOverlapped();
    Lists(CompleteRun(1), BeginRun(2), LaunchHandler(2));
    FirstStep(begun, LaunchHandler(2), []);
    FirstStep(left, BeginRun(2), [LaunchHandler(2)]);
    FirstStep(j, CompleteRun(1), [BeginRun(2), LaunchHandler(2)]);
  }

  /** As coded, two handlers of one job can be live at once: a slot that finds no work clears the
      running flag without checking that the job is still idle. */
  lemma BlindSkipAdmitsTwoHandlers()
    ensures Legal(IDLE, ACCEPTED + CLOBBERED + TIMED_OUT + OVERLAPPED)
    ensures TwoHandlers(Outcome(IDLE, ACCEPTED + CLOBBERED + TIMED_OUT + OVERLAPPED))
  {
    AcceptedRuns();
    ClobberedRuns();
    LegalAppend(IDLE, ACCEPTED, CLOBBERED);
    TimedOutRuns();
    LegalAppend(IDLE, ACCEPTED + CLOBBERED, TIMED_OUT);
    OverlappedRuns();
    LegalAppend(IDLE, ACCEPTED + CLOBBERED + TIMED_OUT, OVERLAPPED);
    assert Handler(1, 1) in AfterOverlapped().live && Handler(2, 1) in AfterOverlapped().live;
  }

  // ---- the running flag that is written back ----

  /** The final write of a run, which clears the running flag, is still to come. */
  predicate WriteDue(j: Job, t: TriggerId) {
    At(j, t, Settled) || At(j, t, TimedOut)
  }

  predicate WillClear(j: Job, t: TriggerId) {
    InProgress(j, t) || WriteDue(j, t)
  }

  /** Behind the saved running flag is a run that will clear it. */
  ghost predicate Backed(j: Job) {
    j.running ==> exists t :: WillClear(j, t)
  }

  /** The running flag is set although no run and no handler is behind it. */
  ghost predicate Wedged(j: Job) {
    j.running && j.live == {} && forall t :: !Claimant(j, t) && !WriteDue(j, t)
  }

  /** A record made now would set a flag that nothing is going to clear: the job only counts as running
      because of an abandoned handler, whose run has made its final write. */
  ghost predicate HollowRecord(j: Job) {
    j.abandoned && !j.running && forall t :: !WriteDue(j, t)
  }

  ghost predicate RecordsSafely(j: Job, step: Step) {
    step.SkipSlot? ==> !HollowRecord(j)
  }

  ghost predicate RecordsSafelyAlong(j: Job, steps: seq<Step>)
    requires Legal(j, steps)
    decreases |steps|
  {
    steps == [] || (RecordsSafely(j, steps[0]) && RecordsSafelyAlong(Apply(j, steps[0]), steps[1..]))
  }

  /** Some continuation without further hollow records reaches a wedge. */
  ghost predicate CanWedge(j: Job) {
    exists steps :: Legal(j, steps) && RecordsSafelyAlong(j, steps) && Wedged(Outcome(j, steps))
  }

  ghost predicate FreshIds(j: Job) {
    forall t :: t in j.calls ==> t < j.next
  }

  /** A run that will clear the flag either still will, or has done so. */
  lemma ClearerStays(j: Job, step: Step, t: TriggerId)
    requires FreshIds(j) && Enabled(j, step) && WillClear(j, t)
    ensures WillClear(Apply(j, step), t) || !Apply(j, step).running
  {
    if IsWakeStep(step) {
      ClearerStaysInWake(j, step, t);
    } else if IsTriggerStep(step) {
      ClearerStaysInTrigger(j, step, t);
    } else {
      ClearerStaysInRun(j, step, t);
    }
  }

  lemma ClearerStaysInWake(j: Job, step: Step, t: TriggerId)
    requires FreshIds(j) && Enabled(j, step) && WillClear(j, t) && IsWakeStep(step)
    ensures WillClear(Apply(j, step), t)
  {
  }

  lemma ClearerStaysInTrigger(j: Job, step: Step, t: TriggerId)
    requires FreshIds(j) && Enabled(j, step) && WillClear(j, t) && IsTriggerStep(step)
    ensures WillClear(Apply(j, step), t) || !Apply(j, step).running
  {
  }

  lemma ClearerStaysInRun(j: Job, step: Step, t: TriggerId)
    requires Enabled(j, step) && WillClear(j, t) && !IsWakeStep(step) && !IsTriggerStep(step)
    ensures WillClear(Apply(j, step), t) || !Apply(j, step).running
  {
  }

  lemma StepKeepsBacked(j: Job, step: Step)
    requires FreshIds(j) && Backed(j) && Enabled(j, step) && RecordsSafely(j, step)
    ensures FreshIds(Apply(j, step)) && Backed(Apply(j, step))
  {
    var k := Apply(j, step);
    StepKeepsFreshIds(j, step);
    if t :| WillClear(j, t) {
      ClearerStays(j, step, t);
    } else {
      assert forall t :: WriteDue(j, t) ==> WillClear(j, t);
      if step.BeginRun? { assert WillClear(k, step.t); }
    }
  }

  lemma StepKeepsFreshIds(j: Job, step: Step)
    requires FreshIds(j) && Enabled(j, step)
    ensures FreshIds(Apply(j, step))
  {
    if IsWakeStep(step) {
      WakeKeepsFreshIds(j, step);
    } else if IsTriggerStep(step) {
      TriggerKeepsFreshIds(j, step);
    } else {
      assert Apply(j, step).calls.Keys <= j.calls.Keys && Apply(j, step).next == j.next;
    }
  }

  lemma WakeKeepsFreshIds(j: Job, step: Step)
    requires FreshIds(j) && Enabled(j, step) && IsWakeStep(step)
    ensures FreshIds(Apply(j, step))
  {
  }

  lemma TriggerKeepsFreshIds(j: Job, step: Step)
    requires FreshIds(j) && Enabled(j, step) && IsTriggerStep(step)
    ensures FreshIds(Apply(j, step))
  {
  }

  lemma {:induction false} RunKeepsBacked(j: Job, steps: seq<Step>)
    requires FreshIds(j) && Backed(j) && Legal(j, steps) && RecordsSafelyAlong(j, steps)
    ensures Backed(Outcome(j, steps))
    decreases |steps|
  {
    if steps != [] {
      StepKeepsBacked(j, steps[0]);
      RunKeepsBacked(Apply(j, steps[0]), steps[1..]);
    }
  }

  /** Along every interleaving without hollow records and harmful skip writes, a job that reports
      busy has a claimant, a final write to come, or an abandoned handler that is still live. */
  lemma BusyMeansSomethingIsLeft(steps: seq<Step>)
    requires Legal(IDLE, steps) && SkipsIdleAlong(IDLE, steps) && RecordsSafelyAlong(IDLE, steps)
    ensures var j := Outcome(IDLE, steps);
      Busy(j) ==> (exists t :: Claimant(j, t) || WriteDue(j, t)) || (exists h :: Orphan(j, h))
  {
    RunKeepsInv(IDLE, steps);
    RunKeepsBacked(IDLE, steps);
    var j := Outcome(IDLE, steps);
    if j.queued {
      var t :| StageOf(j, t).Claimed?;
      assert Claimant(j, t);
    } else if j.running {
      var t :| WillClear(j, t);
      assert Claimant(j, t) || WriteDue(j, t);
    }
  }

  /** A hollow record becomes a wedge as soon as the abandoned handler ends. */
  lemma RecordedSlotWedges(j: Job, h: Handler)
    requires Inv(j) && HollowRecord(j) && h in j.live
    ensures Enabled(RecordSlot(j), EndOrphan(h)) && Wedged(OrphanEnds(RecordSlot(j), h))
  {
    var k := RecordSlot(j);
    assert forall t :: StageOf(k, t) == StageOf(j, t);
    assert !Claimant(j, h.trigger);
    assert forall g :: g in j.live ==> g == h;
    assert OrphanEnds(k, h).live == {};
    forall t ensures !Claimant(OrphanEnds(k, h), t) && !WriteDue(OrphanEnds(k, h), t) {
      assert !Claimant(j, t) && !WriteDue(j, t) && StageOf(OrphanEnds(k, h), t) == StageOf(j, t);
    }
  }

  /** The exact condition under which recording a slot can leave the job busy for nothing: the derived
      flag that it writes back comes from an abandoned handler alone. */
  lemma RecordHarmfulIff(j: Job)
    requires Inv(j) && Backed(j)
    ensures CanWedge(RecordSlot(j)) <==> HollowRecord(j)
  {
    var k := RecordSlot(j);
    if HollowRecord(j) {
      var h :| Orphan(j, h);
      RecordedSlotWedges(j, h);
      FirstStep(k, EndOrphan(h), []);
      assert [EndOrphan(h)] + [] == [EndOrphan(h)];
      assert RecordsSafelyAlong(k, [EndOrphan(h)]);
    } else {
      StepKeepsBacked(j, SkipSlot);
      if CanWedge(k) {
        var steps :| Legal(k, steps) && RecordsSafelyAlong(k, steps) && Wedged(Outcome(k, steps));
        RunKeepsBacked(k, steps);
        BackedIsNoWedge(Outcome(k, steps));
      }
    }
  }

  lemma BackedIsNoWedge(j: Job)
    requires Backed(j)
    ensures !Wedged(j)
  {
    if t :| WillClear(j, t) { assert Claimant(j, t) || WriteDue(j, t); }
  }

  /** No eligibility check is awaited whose answer could clear the running flag. */
  ghost predicate NothingProbes(j: Job) {
    forall t :: !At(j, t, Probing)
  }

  /** Where the calls of such a job can be. */
  ghost predicate AllAside(j: Job) {
    forall t :: t in j.calls ==> j.calls[t].pc in {Gate, Check, Ready, Finishing, Refused, Returned}
  }

  lemma WedgedMeansAside(j: Job)
    ensures Wedged(j) && NothingProbes(j) <==> j.running && j.live == {} && AllAside(j)
  {
    if Wedged(j) && NothingProbes(j) {
      forall t | t in j.calls ensures j.calls[t].pc in {Gate, Check, Ready, Finishing, Refused, Returned} {
        assert !Claimant(j, t) && !WriteDue(j, t) && !At(j, t, Probing);
      }
    }
  }

  lemma WedgedStep(j: Job, step: Step)
    requires Wedged(j) && NothingProbes(j) && Enabled(j, step) && !step.SweepSkip?
    ensures Wedged(Apply(j, step)) && NothingProbes(Apply(j, step))
  {
    WedgedMeansAside(j);
    AsideStep(j, step);
    WedgedMeansAside(Apply(j, step));
  }

  lemma AsideStep(j: Job, step: Step)
    requires j.running && j.live == {} && AllAside(j) && Enabled(j, step) && !step.SweepSkip?
    ensures Apply(j, step).running && Apply(j, step).live == {} && AllAside(Apply(j, step))
  {
    if IsWakeStep(step) {
      AsideInWake(j, step);
    } else if IsTriggerStep(step) {
      AsideInTrigger(j, step);
    } else {
      AsideInRun(j, step);
    }
  }

  lemma AsideInWake(j: Job, step: Step)
    requires j.running && j.live == {} && AllAside(j) && Enabled(j, step) && IsWakeStep(step)
    ensures Apply(j, step).running && Apply(j, step).live == {} && AllAside(Apply(j, step))
  {
  }

  lemma AsideInTrigger(j: Job, step: Step)
    requires j.running && j.live == {} && AllAside(j) && Enabled(j, step) && IsTriggerStep(step)
    ensures Apply(j, step).running && Apply(j, step).live == {} && AllAside(Apply(j, step))
  {
  }

  lemma AsideInRun(j: Job, step: Step)
    requires j.running && j.live == {} && AllAside(j) && Enabled(j, step)
    requires !IsWakeStep(step) && !IsTriggerStep(step) && !step.SweepSkip?
    ensures Apply(j, step).running && Apply(j, step).live == {} && AllAside(Apply(j, step))
  {
    assert step.CompleteRun? || step.SkipSlot?;
  }

  /** Nothing clears the flag of a wedged job: whatever the triggers do, no handler of the job starts
      again until a start-up sweep happens to reset it. */
  lemma {:induction false} WedgedJobNeverRuns(j: Job, steps: seq<Step>)
    requires Wedged(j) && NothingProbes(j) && Legal(j, steps)
    requires forall i :: 0 <= i < |steps| ==> !steps[i].SweepSkip?
    ensures Wedged(Outcome(j, steps))
    decreases |steps|
  {
    if steps != [] {
      WedgedStep(j, steps[0]);
      WedgedJobNeverRuns(Apply(j, steps[0]), steps[1..]);
    }
  }

  const OVERDUE: seq<Step> := [RunNow, BeginRun(0), LaunchHandler(0)]
  const LEFT: seq<Step> := [MissDeadline(0), WriteResult(0), CompleteRun(0)]
  const WEDGED: seq<Step> := [SkipSlot, EndOrphan(Handler(0, 1))]

  /** For example from the start: a manual run outlives its deadline and leaves, a missed slot is
      recorded, the handler ends. */
  lemma WedgeReachable()
    ensures Legal(IDLE, OVERDUE + LEFT + WEDGED) && Wedged(Outcome(IDLE, OVERDUE + LEFT + WEDGED))
  {
    OverdueRuns();
    LeftRuns();
    LegalAppend(IDLE, OVERDUE, LEFT);
    WedgedRuns();
    LegalAppend(IDLE, OVERDUE + LEFT, WEDGED);
  }

  function AfterOverdue(): Job { Shot(false, true, false, {Handler(0, 1)}, map[0 := Call(Manual, Handling(1))], 1) }

  function AfterLeft(): Job { Shot(false, false, true, {Handler(0, 1)}, map[], 1) }

  lemma OverdueRuns()
    ensures Legal(IDLE, OVERDUE) && Outcome(IDLE, OVERDUE) == AfterOverdue()
  {
    var j := Shot(true, false, false, {}, map[0 := Call(Manual, Queued)], 1);
    var k := Shot(false, true, false, {}, map[0 := Call(Manual, Preparing(1))], 1);
    assert Apply(IDLE, RunNow) == j;
    Begins(j, k, 0);
    assert Apply(k, LaunchHandler(0)) == AfterOverdue();
    Lists(RunNow, BeginRun(0), LaunchHandler(0));
    FirstStep(k, LaunchHandler(0), []);
    FirstStep(j, BeginRun(0), [LaunchHandler(0)]);
    FirstStep(IDLE, RunNow, [BeginRun(0), LaunchHandler(0)]);
  }

  lemma LeftRuns()
    ensures Legal(AfterOverdue(), LEFT) && Outcome(AfterOverdue(), LEFT) == AfterLeft()
  {
    var j := Shot(false, true, true, {Handler(0, 1)}, map[0 := Call(Manual, TimedOut)], 1);
    var k := Shot(false, false, true, {Handler(0, 1)}, map[0 := Call(Manual, Finishing)], 1);
    assert Apply(AfterOverdue(), MissDeadline(0)) == j && Apply(j, WriteResult(0)) == k;
    assert k.calls - {0} == map[];
    assert Apply(k, CompleteRun(0)) == AfterLeft();
    Lists(MissDeadline(0), WriteResult(0), CompleteRun(0));
    FirstStep(k, CompleteRun(0), []);
    FirstStep(j, WriteResult(0), [CompleteRun(0)]);
    FirstStep(AfterOverdue(), MissDeadline(0), [WriteResult(0), CompleteRun(0)]);
  }

  lemma WedgedRuns()
    ensures Legal(AfterLeft(), WEDGED) && Wedged(Outcome(AfterLeft(), WEDGED))
  {
    var h := Handler(0, 1);
    var j := RecordSlot(AfterLeft());
    assert Enabled(AfterLeft(), SkipSlot) && Enabled(j, EndOrphan(h));
    assert Wedged(Apply(j, EndOrphan(h)));
    assert [EndOrphan(h)] + [] == [EndOrphan(h)] && [SkipSlot] + [EndOrphan(h)] == WEDGED;
    FirstStep(j, EndOrphan(h), []);
    FirstStep(AfterLeft(), SkipSlot, [EndOrphan(h)]);
  }

  // ---- no wake is lost ----

  /** A call whose own eligibility check has started. */
  predicate PastCheck(pc: Pc) {
    pc in {Probing, Ready, Queued, Settled, TimedOut, Finishing, Returned} || pc.Preparing? || pc.Handling?
  }

  ghost predicate WakeCounters(j: Job) {
    && j.handled <= Max(j.checked, j.waived)
    && j.checked <= j.requested && j.waived <= j.requested && j.deferred <= j.requested
    && forall t :: t in j.calls ==> t < j.next
  }

  ghost predicate WakeCalls(j: Job) {
    forall t :: t in j.calls ==>
      && (j.calls[t].kind.Event? ==> j.calls[t].kind.generation <= j.requested)
      && (j.calls[t].kind.Event? && PastCheck(j.calls[t].pc) ==> j.calls[t].kind.generation <= j.checked)
      && (j.calls[t].pc in {Gate, Refused, Returned} ==> j.calls[t].kind.Event?)
  }

  predicate AtGateFor(j: Job, t: TriggerId, g: nat) {
    At(j, t, Gate) && j.calls[t].kind.Event? && g <= j.calls[t].kind.generation
  }

  /** Something will still look at generation `g`: a pending timer, a wake in flight that was started
      for it, or a call that reschedules pending wakes when it ends. */
  ghost predicate Pending(j: Job, g: nat) {
    j.timer || SomeCallReschedules(j) || exists t :: AtGateFor(j, t, g)
  }

  /** Generation `g` is accounted for: checked, waived because the job or its worker was disabled,
      left to the periodic tick, or still pending. */
  ghost predicate Covered(j: Job, g: nat) {
    g <= j.checked || g <= j.waived || g <= j.deferred || Pending(j, g)
  }

  ghost predicate WakeInv(j: Job) {
    WakeCounters(j) && WakeCalls(j) && Covered(j, j.requested)
  }

  /** `k` follows `j` without losing what is pending. */
  lemma StillCovered(j: Job, k: Job)
    requires Covered(j, j.requested) && k.requested == j.requested
    requires j.checked <= k.checked && j.waived <= k.waived && j.deferred <= k.deferred
    requires j.timer ==> k.timer
    requires forall t :: t in j.calls && (Reschedules(j.calls[t]) || j.calls[t].pc.Gate?) ==>
      t in k.calls && k.calls[t] == j.calls[t]
    ensures Covered(k, k.requested)
  {
    if SomeCallReschedules(j) {
      var t :| t in j.calls && Reschedules(j.calls[t]);
      assert t in k.calls && Reschedules(k.calls[t]);
    }
    if t :| AtGateFor(j, t, j.requested) {
      assert AtGateFor(k, t, k.requested);
    }
  }

  /** Rescheduling leaves nothing behind: whatever is unaccounted for gets a timer. */
  lemma ScheduledIsCovered(j: Job)
    requires j.handled <= Max(j.checked, j.waived)
    ensures Covered(SchedulePending(j), j.requested)
  {
  }

  lemma MoveKeepsCover(j: Job, t: TriggerId, c: Call, k: Job)
    requires Covered(j, j.requested) && t in j.calls && Reschedules(c)
    requires k.calls == j.calls[t := c]
    ensures Covered(k, k.requested)
  {
    assert t in k.calls && Reschedules(k.calls[t]);
  }

  lemma WakeTimerStep(j: Job)
    requires WakeInv(j)
    ensures WakeInv(TimerFires(j))
  {
    var k := TimerFires(j);
    if j.requested > j.handled {
      assert AtGateFor(k, j.next, k.requested);
    }
  }

  lemma WakeGateStep(j: Job, t: TriggerId, enabled: bool)
    requires WakeInv(j) && At(j, t, Gate) && j.calls[t].kind.Event?
    ensures WakeInv(PassGate(j, t, enabled))
  {
    var k := PassGate(j, t, enabled);
    if enabled && !Busy(j) {
      assert Reschedules(k.calls[t]);
    } else if SomeCallReschedules(j) {
      var u :| u in j.calls && Reschedules(j.calls[u]);
      assert u in k.calls && Reschedules(k.calls[u]);
    } else if u :| AtGateFor(j, u, j.requested) {
      if u != t { assert AtGateFor(k, u, k.requested); }
    }
  }

  lemma WakeRefusedStep(j: Job, t: TriggerId)
    requires WakeInv(j) && At(j, t, Refused)
    ensures WakeInv(WakeRefused(j, t))
  {
    ScheduledIsCovered(Drop(j, t));
  }

  lemma WakeReturnedStep(j: Job, t: TriggerId)
    requires WakeInv(j) && At(j, t, Returned)
    ensures WakeInv(WakeReturns(j, t))
  {
    ScheduledIsCovered(Drop(j, t).(handled := j.calls[t].kind.generation));
  }

  lemma SchedulingKeepsWakes(j: Job)
    requires WakeCounters(j) && WakeCalls(j)
    ensures WakeInv(SchedulePending(j))
  {
    ScheduledIsCovered(j);
  }

  lemma WakeCompleteStep(j: Job, t: TriggerId)
    requires WakeInv(j) && At(j, t, Finishing)
    ensures WakeInv(Complete(j, t))
  {
    if j.calls[t].kind.Event? {
      var k := Goto(j, t, Returned);
      assert WakeCalls(k) && WakeCounters(k);
      SchedulingKeepsWakes(k);
    } else {
      var k := Drop(j, t);
      assert WakeCalls(k) && WakeCounters(k);
      SchedulingKeepsWakes(k);
    }
  }

  lemma WakeRefuse(j: Job, t: TriggerId)
    requires WakeInv(j) && t in j.calls && j.calls[t].pc in {Check, Ready}
    ensures WakeInv(Refuse(j, t))
  {
    var k := Refuse(j, t);
    if j.calls[t].kind.Event? { MoveKeepsCover(j, t, k.calls[t], k); } else { StillCovered(j, k); }
  }

  lemma WakeProbeStep(j: Job, t: TriggerId, ready: bool)
    requires WakeInv(j) && At(j, t, Probing)
    ensures WakeInv(Probed(j, t, ready))
  {
    if j.calls[t].kind.Event? {
      WakeRunStep(j, t, if ready then Ready else Returned, Probed(j, t, ready));
    } else {
      WakeOtherProbe(j, t, ready);
    }
  }

  lemma WakeOtherProbe(j: Job, t: TriggerId, ready: bool)
    requires WakeInv(j) && At(j, t, Probing) && !j.calls[t].kind.Event?
    ensures WakeInv(Probed(j, t, ready))
  {
    var k := Probed(j, t, ready);
    assert !Reschedules(j.calls[t]);
    assert k.calls == (if ready then j.calls[t := j.calls[t].(pc := Ready)] else j.calls - {t});
    StillCovered(j, k);
  }

  /** Steps of a run before its end: the call keeps its duty to reschedule. */
  lemma WakeRunStep(j: Job, t: TriggerId, pc: Pc, k: Job)
    requires WakeInv(j) && t in j.calls && PastCheck(j.calls[t].pc) && Reschedules(Call(j.calls[t].kind, pc))
    requires PastCheck(pc) && (pc.Returned? ==> j.calls[t].kind.Event?)
    requires k.calls == j.calls[t := j.calls[t].(pc := pc)] && k.next == j.next
    requires k.(calls := j.calls, queued := j.queued, running := j.running,
                abandoned := j.abandoned, live := j.live) == j
    ensures WakeInv(k)
  {
    MoveKeepsCover(j, t, k.calls[t], k);
  }

  lemma WakeFlagStep(j: Job, k: Job)
    requires WakeInv(j)
    requires k.(queued := j.queued, running := j.running, abandoned := j.abandoned, live := j.live) == j
    ensures WakeInv(k)
  {
    StillCovered(j, k);
  }

  lemma WakeSpawnStep(j: Job, kind: Kind, pc: Pc)
    requires WakeInv(j) && !kind.Event? && pc in {Check, Queued}
    ensures WakeInv(Spawn(j, kind, pc))
  {
    StillCovered(j, Spawn(j, kind, pc));
  }

  lemma WakeOwnStep(j: Job, step: Step)
    requires WakeInv(j) && Enabled(j, step) && IsWakeStep(step)
    ensures WakeInv(Apply(j, step))
  {
    match step
    case PublishItem => ScheduledIsCovered(j.(requested := j.requested + 1));
    case FireTimer => WakeTimerStep(j);
    case GateChecks(t, enabled) => WakeGateStep(j, t, enabled);
    case EndWake(t) => if j.calls[t].pc.Refused? { WakeRefusedStep(j, t); } else { WakeReturnedStep(j, t); }
  }

  lemma WakeTriggerStep(j: Job, step: Step)
    requires WakeInv(j) && Enabled(j, step) && IsTriggerStep(step)
    ensures WakeInv(Apply(j, step))
  {
    var k := Apply(j, step);
    match step
    case FireSlot => WakeSpawnStep(j, Schedule, Check);
    case FireTick => WakeSpawnStep(j, Pipeline, Check);
    case RunNow =>
      if !Busy(j) {
        WakeSpawnStep(j, Manual, Queued);
        WakeFlagStep(Spawn(j, Manual, Queued), k);
      }
    case CheckFirst(t, enabled) => WakeFirstCheck(j, t, enabled);
    case ProbeDone(t, ready) => WakeProbeStep(j, t, ready);
    case CheckSecond(t) => if Busy(j) { WakeRefuse(j, t); } else { WakeRunStep(j, t, Queued, k); }
  }

  lemma WakeFirstCheck(j: Job, t: TriggerId, enabled: bool)
    requires WakeInv(j) && At(j, t, Check)
    ensures WakeInv(FirstCheck(j, t, enabled))
  {
    if Busy(j) || !enabled { WakeRefuse(j, t); }
  }

  lemma WakeOtherStep(j: Job, step: Step)
    requires WakeInv(j) && Enabled(j, step) && !IsWakeStep(step) && !IsTriggerStep(step)
    ensures WakeInv(Apply(j, step))
  {
    var k := Apply(j, step);
    match step
    case BeginRun(t) => WakeRunStep(j, t, Preparing(1), k);
    case LaunchHandler(t) => WakeRunStep(j, t, k.calls[t].pc, k);
    case EndHandler(t, _) => WakeRunStep(j, t, k.calls[t].pc, k);
    case MissDeadline(t) => WakeRunStep(j, t, TimedOut, k);
    case EndOrphan(_) => WakeFlagStep(j, k);
    case WriteResult(t) => WakeRunStep(j, t, Finishing, k);
    case CompleteRun(t) => WakeCompleteStep(j, t);
    case SkipSlot => WakeFlagStep(j, k);
    case SweepSkip => WakeFlagStep(j, k);
  }

  lemma WakeStep(j: Job, step: Step)
    requires WakeInv(j) && Enabled(j, step)
    ensures WakeInv(Apply(j, step))
  {
    if IsWakeStep(step) {
      WakeOwnStep(j, step);
    } else if IsTriggerStep(step) {
      WakeTriggerStep(j, step);
    } else {
      WakeOtherStep(j, step);
    }
  }

  lemma {:induction false} RunKeepsWakeInv(j: Job, steps: seq<Step>)
    requires WakeInv(j) && Legal(j, steps)
    ensures WakeInv(Outcome(j, steps))
    decreases |steps|
  {
    if steps != [] {
      WakeStep(j, steps[0]);
      RunKeepsWakeInv(Apply(j, steps[0]), steps[1..]);
    }
  }

  /** No published item's wake is lost: after any interleaving whatever, the handled counter has not
      passed the requested one, and every requested generation had an eligibility check start after
      it, was waived or deferred by a wake started after it, or is still pending. */
  lemma NoWakeIsLost(steps: seq<Step>, g: nat)
    requires Legal(IDLE, steps) && g <= Outcome(IDLE, steps).requested
    ensures var j := Outcome(IDLE, steps); j.handled <= j.requested && Covered(j, g)
  {
    RunKeepsWakeInv(IDLE, steps);
    var j := Outcome(IDLE, steps);
    if t :| AtGateFor(j, t, j.requested) {
      assert AtGateFor(j, t, g);
    }
  }

  /** Once all timers have fired and all calls have ended, nothing is left pending. */
  lemma QuietJobHasServedItsWakes(steps: seq<Step>, g: nat)
    requires Legal(IDLE, steps) && g <= Outcome(IDLE, steps).requested
    requires !Outcome(IDLE, steps).timer && Outcome(IDLE, steps).calls == map[]
    ensures var j := Outcome(IDLE, steps); g <= j.checked || g <= j.waived || g <= j.deferred
  {
    NoWakeIsLost(steps, g);
  }

  /** A wake is left to the tick only over a handler that outlived its deadline, or over a stale flag. */
  lemma OnlyRunlessJobsDefer(j: Job, t: TriggerId, enabled: bool)
    requires Inv(j) && At(j, t, Gate) && j.calls[t].kind.Event?
    requires PassGate(j, t, enabled).deferred != j.deferred
    ensures j.abandoned || (j.running && j.live == {})
    ensures forall u :: !Claimant(j, u)
  {
    assert forall u :: Claimant(j, u) ==> u in j.calls && Reschedules(j.calls[u]);
    assert j.queued ==> exists u :: StageOf(j, u).Claimed? && Claimant(j, u);
    if !j.abandoned && j.live != {} {
      var h :| h in j.live;
      assert !Orphan(j, h);
      assert Claimant(j, h.trigger);
    }
  }

  // ---- the module state, updated in place ----

  ghost predicate SomeRunInProgress(j: Job) {
    exists t :: InProgress(j, t)
  }

  lemma StepKeepsBoth(j: Job, step: Step)
    requires Inv(j) && WakeInv(j) && Enabled(j, step) && SkipsIdle(j, step)
    ensures Inv(Apply(j, step)) && WakeInv(Apply(j, step))
  {
    StepKeepsInv(j, step);
    WakeStep(j, step);
  }

  /** A claimed or prepared run has no handler beside it, its own or an abandoned one. */
  lemma NothingLiveBeforeLaunch(j: Job, t: TriggerId)
    requires Inv(j) && (StageOf(j, t).Claimed? || StageOf(j, t).Preparation?)
    ensures j.live == {} && !j.abandoned
  {
    assert Claimant(j, t);
    LiveHaveStages(j);
    assert forall h :: h !in j.live;
  }

  lemma IdleHasNothingLive(j: Job)
    requires Inv(j) && !Busy(j)
    ensures j.live == {}
  {
    InvMeansSingleHandler(j);
  }

  /** The same condition for a scheduled slot, whose call ends with the skip write. */
  lemma SkippedSlotHarmfulIff(j: Job, t: TriggerId)
    requires Inv(j) && At(j, t, Probing)
    ensures CanDouble(SkipWrite(Drop(j, t))) <==> SomeRunInProgress(j)
  {
    var k := Drop(j, t);
    DropKeepsInv(j, t);
    assert forall u :: StageOf(k, u) == StageOf(j, u);
    assert forall u :: InProgress(k, u) == InProgress(j, u);
    SkipWriteHarmfulIff(k);
  }

  /** What the end of a wake means for the counters. */
  lemma EndedWakeIsChecked(j: Job, t: TriggerId)
    requires WakeInv(j) && Enabled(j, EndWake(t))
    ensures var k := Apply(j, EndWake(t));
      (k.handled != j.handled ==> k.handled <= k.checked) && (k.requested > k.handled ==> k.timer)
  {
    var c := j.calls[t];
    assert c.pc.Returned? ==> PastCheck(c.pc) && c.kind.generation <= j.checked;
    PendingGetsTimer(if c.pc.Refused? then Drop(j, t) else Drop(j, t).(handled := c.kind.generation));
  }

  lemma PendingGetsTimer(j: Job)
    ensures SchedulePending(j) == j.(timer := SchedulePending(j).timer)
    ensures j.requested > j.handled ==> SchedulePending(j).timer
  {
  }

  /** What the gate of a wake means for the job. */
  lemma GateMeans(j: Job, t: TriggerId, enabled: bool)
    requires Inv(j) && At(j, t, Gate) && j.calls[t].kind.Event?
    ensures var k := PassGate(j, t, enabled);
      && (k.deferred != j.deferred ==> j.abandoned || (j.running && j.live == {}))
      && (t in k.calls ==> k.live == {} && k.handled == j.handled)
  {
    if PassGate(j, t, enabled).deferred != j.deferred { OnlyRunlessJobsDefer(j, t, enabled); }
    if !Busy(j) { IdleHasNothingLive(j); }
  }

  /** What an answer of hasWork means, the blind skip write included. */
  lemma ProbeMeans(j: Job, t: TriggerId, ready: bool)
    requires Inv(j) && WakeInv(j) && At(j, t, Probing)
    ensures WakeInv(Probed(j, t, ready))
    ensures SkipsIdle(j, ProbeDone(t, ready)) ==> Inv(Probed(j, t, ready))
    ensures ClearsRunning(j, ProbeDone(t, ready)) ==> (CanDouble(Probed(j, t, ready)) <==> SomeRunInProgress(j))
  {
    WakeProbeStep(j, t, ready);
    if SkipsIdle(j, ProbeDone(t, ready)) { ProbeDoneKeepsInv(j, t, ready); }
    if ClearsRunning(j, ProbeDone(t, ready)) { SkippedSlotHarmfulIff(j, t); }
  }

  /** An accepted claim meets nothing live and no other claim. */
  lemma AcceptedMeans(j: Job, k: Job, t: TriggerId)
    requires Inv(j) && !Busy(j) && Inv(k) && k.live == j.live && StageOf(k, t).Claimed?
    ensures k.live == {} && forall u :: Claimant(k, u) <==> u == t
  {
    IdleHasNothingLive(j);
    assert Claimant(k, t);
  }

  /** The entries of one job in the scheduler's module state, and its calls in flight. */
  class JobRuntime {
    var queued: bool
    var running: bool
    var abandoned: bool
    var busWakeTimer: bool
    var busWakeRequested: nat
    var busWakeHandled: nat
    var calls: map<TriggerId, Call>
    var next: TriggerId
    ghost var live: set<Handler>
    ghost var checked: nat
    ghost var waived: nat
    ghost var deferred: nat

    ghost function View(): Job
      reads this
    {
      Job(queued, running, abandoned, live, calls, next, busWakeRequested, busWakeHandled, busWakeTimer,
          checked, waived, deferred)
    }

    /** One claimant and one live handler at most, which the job then reports, and every requested
        wake accounted for. */
    ghost predicate Valid()
      reads this
    {
      Inv(View()) && WakeInv(View())
    }

    constructor ()
      ensures Valid() && View() == IDLE
    {
      queued, running, abandoned, busWakeTimer := false, false, false, false;
      busWakeRequested, busWakeHandled, calls, next := 0, 0, map[], 0;
      live, checked, waived, deferred := {}, 0, 0, 0;
    }

    /** A job that is not reported busy has no live handler, abandoned ones included. */
    method BuildJobState() returns (busy: bool)
      ensures busy == Busy(View())
      ensures Valid() && !busy ==> live == {}
    {
      busy := queued || running || abandoned;
      if !busy && Inv(View()) { IdleHasNothingLive(View()); }
    }

    /** Leaves no unhandled generation without a timer. */
    method SchedulePendingBusWake()
      modifies this`busWakeTimer
      ensures View() == SchedulePending(old(View()))
      ensures busWakeRequested > busWakeHandled ==> busWakeTimer
    {
      if busWakeRequested <= busWakeHandled {
        return;
      }
      busWakeTimer := true;
    }

    /** A published item always ends up with a timer, because nothing beyond it has been handled. */
    method ScheduleBusWake()
      requires Valid()
      modifies this
      ensures Valid() && View() == Apply(old(View()), PublishItem)
      ensures busWakeRequested == old(busWakeRequested) + 1 && busWakeHandled == old(busWakeHandled)
      ensures busWakeTimer && busWakeRequested > busWakeHandled
    {
      StepKeepsBoth(View(), PublishItem);
      busWakeRequested := busWakeRequested + 1;
      SchedulePendingBusWake();
    }

    method SpawnCall(kind: Kind, pc: Pc)
      modifies this`calls, this`next
      ensures View() == Spawn(old(View()), kind, pc)
    {
      calls := calls[next := Call(kind, pc)];
      next := next + 1;
    }

    method Move(t: TriggerId, pc: Pc)
      requires t in calls
      modifies this`calls
      ensures View() == Goto(old(View()), t, pc)
    {
      calls := calls[t := calls[t].(pc := pc)];
    }

    /** The generation that the timer stood for is now carried by a wake in flight. */
    method BusWakeTimerFires()
      requires Valid() && Enabled(View(), FireTimer)
      modifies this
      ensures Valid() && View() == Apply(old(View()), FireTimer)
      ensures busWakeRequested > busWakeHandled ==> AtGateFor(View(), old(next), busWakeRequested)
      ensures busWakeRequested <= busWakeHandled ==> calls == old(calls)
    {
      StepKeepsBoth(View(), FireTimer);
      busWakeTimer := false;
      if busWakeRequested > busWakeHandled {
        SpawnCall(Event(busWakeRequested), Gate);
      }
    }

    /** runBusWake once settings and worker state are loaded. A busy job's generation stays unhandled
        and is deferred only over an abandoned handler or a stale flag; a wake goes on to runJob only
        over a job with no live handler. */
    method BusWakeGate(t: TriggerId, enabled: bool)
      requires Valid() && Enabled(View(), GateChecks(t, enabled))
      modifies this
      ensures Valid() && View() == Apply(old(View()), GateChecks(t, enabled))
      ensures deferred != old(deferred) ==> old(abandoned || (running && live == {}))
      ensures enabled && !old(queued || running || abandoned) <==> At(View(), t, Check)
      ensures busWakeHandled == if enabled then old(busWakeHandled) else old(calls[t].kind.generation)
      ensures t in calls ==> live == {} && busWakeHandled == old(busWakeHandled)
    {
      StepKeepsBoth(View(), GateChecks(t, enabled));
      GateMeans(View(), t, enabled);
      DropOrPass(t, enabled);
    }

    method DropOrPass(t: TriggerId, enabled: bool)
      requires Enabled(View(), GateChecks(t, enabled))
      modifies this
      ensures View() == PassGate(old(View()), t, enabled)
    {
      var requestedVersion := calls[t].kind.generation;
      if !enabled {
        calls := calls - {t};
        busWakeHandled := requestedVersion;
        waived := Max(waived, requestedVersion);
        return;
      }
      var busy := BuildJobState();
      if busy {
        deferred := if SomeCallReschedules(View()) then deferred else Max(deferred, requestedVersion);
        calls := calls - {t};
        return;
      }
      Move(t, Check);
    }

    /** The tail of runBusWake: the `try` body's last line if runJob returned, then `finally`. What is
        marked handled has had its own eligibility check, and what is not has a timer. */
    method BusWakeEnds(t: TriggerId)
      requires Valid() && Enabled(View(), EndWake(t))
      modifies this
      ensures Valid() && View() == Apply(old(View()), EndWake(t))
      ensures busWakeHandled ==
        if old(At(View(), t, Returned)) then old(calls[t].kind.generation) else old(busWakeHandled)
      ensures busWakeHandled != old(busWakeHandled) ==> busWakeHandled <= checked
      ensures busWakeRequested > busWakeHandled ==> busWakeTimer
    {
      StepKeepsBoth(View(), EndWake(t));
      EndedWakeIsChecked(View(), t);
      CloseWake(t);
    }

    method CloseWake(t: TriggerId)
      requires Enabled(View(), EndWake(t))
      modifies this
      ensures View() == Apply(old(View()), EndWake(t))
    {
      if calls[t].pc.Returned? {
        busWakeHandled := calls[t].kind.generation;
      }
      calls := calls - {t};
      SchedulePendingBusWake();
    }

    method RunJobThrows(t: TriggerId)
      requires t in calls
      modifies this`calls
      ensures View() == Refuse(old(View()), t)
    {
      if calls[t].kind.Event? {
        Move(t, Refused);
      } else {
        calls := calls - {t};
      }
    }

    /** A cron slot comes up: `runJob` is called for it, whatever else is going on. */
    method SlotFires() returns (t: TriggerId)
      requires Valid()
      modifies this
      ensures Valid() && View() == Apply(old(View()), FireSlot)
      ensures t == old(next) && calls == old(calls)[t := Call(Schedule, Check)]
    {
      StepKeepsBoth(View(), FireSlot);
      t := next;
      SpawnCall(Schedule, Check);
    }

    /** The pipeline tick selects the job. */
    method TickSelects() returns (t: TriggerId)
      requires Valid()
      modifies this
      ensures Valid() && View() == Apply(old(View()), FireTick)
      ensures t == old(next) && calls == old(calls)[t := Call(Pipeline, Check)]
    {
      StepKeepsBoth(View(), FireTick);
      t := next;
      SpawnCall(Pipeline, Check);
    }

    /** Only a job with no live handler is probed, and the probe answers for every generation so far. */
    method RunJobFirstCheck(t: TriggerId, workerEnabled: bool)
      requires Valid() && Enabled(View(), CheckFirst(t, workerEnabled))
      modifies this
      ensures Valid() && View() == Apply(old(View()), CheckFirst(t, workerEnabled))
      ensures At(View(), t, Probing) ==> live == {} && checked == busWakeRequested
      ensures At(View(), t, Probing) <==> workerEnabled && !old(queued || running || abandoned)
      ensures At(View(), t, Refused) || t !in calls <==> !workerEnabled || old(queued || running || abandoned)
    {
      StepKeepsBoth(View(), CheckFirst(t, workerEnabled));
      var busy := BuildJobState();
      if busy || !workerEnabled {
        RunJobThrows(t);
      } else {
        Move(t, Probing);
        checked := busWakeRequested;
      }
    }

    /** shouldRunJob once hasWork has answered; an idle scheduled slot is recorded as skipped. No wake
        is lost by that, but it lets a second handler in exactly when it hits a run in progress. */
    method HasWorkAnswers(t: TriggerId, ready: bool)
      requires Valid() && Enabled(View(), ProbeDone(t, ready))
      modifies this
      ensures View() == Apply(old(View()), ProbeDone(t, ready)) && WakeInv(View())
      ensures ready ==> At(View(), t, Ready) && running == old(running)
      ensures !ready && old(calls[t].kind.Event?) ==> At(View(), t, Returned) && running == old(running)
      ensures !ready && !old(calls[t].kind.Event?) ==>
        t !in calls && running == (old(running) && !old(calls[t].kind.Schedule?))
      ensures old(SkipsIdle(View(), ProbeDone(t, ready))) ==> Valid()
      ensures old(ClearsRunning(View(), ProbeDone(t, ready))) ==>
        (CanDouble(View()) <==> old(SomeRunInProgress(View())))
    {
      ProbeMeans(View(), t, ready);
      ShouldRunJobReturns(t, ready);
    }

    method ShouldRunJobReturns(t: TriggerId, ready: bool)
      requires At(View(), t, Probing)
      modifies this
      ensures View() == Probed(old(View()), t, ready)
    {
      if ready {
        Move(t, Ready);
      } else if calls[t].kind.Event? {
        Move(t, Returned);
      } else {
        if calls[t].kind.Schedule? {
          running := false;
        }
        calls := calls - {t};
      }
    }

    /** The re-check and the synchronous part of markJobQueued: a claim is made only over a job with no
        live handler, and it is the only claim. */
    method RunJobSecondCheck(t: TriggerId)
      requires Valid() && Enabled(View(), CheckSecond(t))
      modifies this
      ensures Valid() && View() == Apply(old(View()), CheckSecond(t))
      ensures !old(queued || running || abandoned) ==>
        At(View(), t, Queued) && queued && live == {} && forall u :: Claimant(View(), u) <==> u == t
      ensures old(queued || running || abandoned) ==> At(View(), t, Refused) || t !in calls
    {
      ghost var j, k := View(), Apply(View(), CheckSecond(t));
      StepKeepsBoth(j, CheckSecond(t));
      if !Busy(j) { AcceptedMeans(j, k, t); }
      var busy := BuildJobState();
      if busy {
        RunJobThrows(t);
      } else {
        queued, running := true, false;
        Move(t, Queued);
      }
    }

    /** Refused over a live handler, abandoned or not; an accepted call is the only claimant. */
    method TriggerJobNow() returns (accepted: bool)
      requires Valid()
      modifies this
      ensures Valid() && View() == Apply(old(View()), RunNow)
      ensures accepted <==> !old(queued || running || abandoned)
      ensures accepted ==> At(View(), old(next), Queued) && queued
      ensures old(live) != {} ==> !accepted
      ensures accepted ==> forall u :: Claimant(View(), u) <==> u == old(next)
      ensures !accepted ==> unchanged(this)
    {
      ghost var j, k := View(), Apply(View(), RunNow);
      StepKeepsBoth(j, RunNow);
      if !Busy(j) { AcceptedMeans(j, k, next); }
      var busy := BuildJobState();
      accepted := !busy;
      if accepted {
        queued, running := true, false;
        SpawnCall(Manual, Queued);
      }
    }

    /** A run starts with no handler of the job live, and makes it report busy. */
    method ExecuteQueuedJob(t: TriggerId)
      requires Valid() && Enabled(View(), BeginRun(t))
      modifies this
      ensures Valid() && View() == Apply(old(View()), BeginRun(t))
      ensures At(View(), t, Preparing(1)) && live == {} && Busy(View())
    {
      StepKeepsBoth(View(), BeginRun(t));
      NothingLiveBeforeLaunch(View(), t);
      queued, running := false, true;
      Move(t, Preparing(1));
    }

    /** The launched handler is the only live one. */
    method LaunchAttempt(t: TriggerId)
      requires Valid() && Enabled(View(), LaunchHandler(t))
      modifies this
      ensures Valid() && View() == Apply(old(View()), LaunchHandler(t))
      ensures At(View(), t, Handling(old(calls[t].pc.next)))
      ensures live == {Handler(t, old(calls[t].pc.next))} && Busy(View())
    {
      StepKeepsBoth(View(), LaunchHandler(t));
      NothingLiveBeforeLaunch(View(), t);
      var attempt := calls[t].pc.next;
      live := live + {Handler(t, attempt)};
      Move(t, Handling(attempt));
      assert InProgress(View(), t);
    }

    /** With the handler that settled nothing is left live, so that a retry starts alone. */
    method AttemptSettles(t: TriggerId, retry: bool)
      requires Valid() && Enabled(View(), EndHandler(t, retry))
      modifies this
      ensures Valid() && View() == Apply(old(View()), EndHandler(t, retry))
      ensures At(View(), t, if retry then Preparing(old(calls[t].pc.attempt) + 1) else Settled)
      ensures live == {} && !abandoned
    {
      StepKeepsBoth(View(), EndHandler(t, retry));
      var attempt := calls[t].pc.attempt;
      assert StageOf(View(), t) == Handled(attempt) && Handler(t, attempt) in live;
      live := live - {Handler(t, attempt)};
      abandoned := false;
      Move(t, if retry then Preparing(attempt + 1) else Settled);
    }

    /** The handler stays live, the job stays busy over it, and nothing is left that could launch. */
    method DeadlineFires(t: TriggerId)
      requires Valid() && Enabled(View(), MissDeadline(t))
      modifies this
      ensures Valid() && View() == Apply(old(View()), MissDeadline(t))
      ensures live == {Handler(t, old(calls[t].pc.attempt))} && Busy(View())
      ensures At(View(), t, TimedOut) && abandoned && forall u :: !Claimant(View(), u)
    {
      StepKeepsBoth(View(), MissDeadline(t));
      var attempt := calls[t].pc.attempt;
      assert StageOf(View(), t) == Handled(attempt) && Handler(t, attempt) in live;
      abandoned := true;
      Move(t, TimedOut);
      assert forall h :: h in live ==> h == Handler(t, attempt);
    }

    /** Nothing is live any more when the guard is lifted. */
    method OrphanSettles(h: Handler)
      requires Valid() && Enabled(View(), EndOrphan(h))
      modifies this
      ensures Valid() && View() == Apply(old(View()), EndOrphan(h))
      ensures live == {} && !abandoned && calls == old(calls)
    {
      StepKeepsBoth(View(), EndOrphan(h));
      live := live - {h};
      abandoned := false;
    }

    /** Clearing the flag leaves the job idle, or busy over its abandoned handler or the next claim:
        the run that wrote was the only one in progress. */
    method WriteFinalState(t: TriggerId)
      requires Valid() && Enabled(View(), WriteResult(t))
      modifies this
      ensures Valid() && View() == Apply(old(View()), WriteResult(t))
      ensures At(View(), t, Finishing) && !running && queued == old(queued)
      ensures !SomeRunInProgress(View()) && (live != {} ==> abandoned)
    {
      StepKeepsBoth(View(), WriteResult(t));
      running := false;
      Move(t, Finishing);
      InvMeansSingleHandler(View());
      LiveHaveStages(View());
      assert Executing(View(), t);
      forall u ensures !InProgress(View(), u) {
        assert InProgress(View(), u) ==> Executing(View(), u) && u == t;
      }
    }

    /** A pass that ends leaves no unhandled generation without a timer. */
    method RunCompletes(t: TriggerId)
      requires Valid() && Enabled(View(), CompleteRun(t))
      modifies this
      ensures Valid() && View() == Apply(old(View()), CompleteRun(t))
      ensures if old(calls[t].kind.Event?) then At(View(), t, Returned) else t !in calls
      ensures busWakeRequested > busWakeHandled ==> busWakeTimer
    {
      StepKeepsBoth(View(), CompleteRun(t));
      PassEnds(t);
    }

    method PassEnds(t: TriggerId)
      requires t in calls
      modifies this
      ensures View() == Complete(old(View()), t)
    {
      if calls[t].kind.Event? {
        Move(t, Returned);
      } else {
        calls := calls - {t};
      }
      SchedulePendingBusWake();
    }

    /** The runtime write for a missed or overlapping slot: it stores the derived flags. It never admits
        a second handler, but wedges the job exactly when the flag comes from an abandoned handler
        alone. */
    method RecordSkippedSlot()
      requires Valid()
      modifies this`running
      ensures Valid() && View() == Apply(old(View()), SkipSlot)
      ensures running == old(running || abandoned)
      ensures old(Backed(View())) ==> (CanWedge(View()) <==> old(HollowRecord(View())))
    {
      StepKeepsBoth(View(), SkipSlot);
      if Backed(View()) { RecordHarmfulIff(View()); }
      running := running || abandoned;
    }

    /** The startup sweep's runtime write for a slot it does not recover: it lets a second handler in
        exactly when it hits a run in progress. */
    method RecordUnrecoveredSlot()
      requires Valid()
      modifies this`running
      ensures View() == Apply(old(View()), SweepSkip) && WakeInv(View())
      ensures !running
      ensures CanDouble(View()) <==> old(SomeRunInProgress(View()))
      ensures !old(SomeRunInProgress(View())) ==> Valid()
    {
      ghost var j := View();
      WakeStep(j, SweepSkip);
      SkipWriteHarmfulIff(j);
      if !SomeRunInProgress(j) { StepKeepsInv(j, SweepSkip); }
      running := false;
    }
  }
}
