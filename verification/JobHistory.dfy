/** Whole runs of the job protocol, read from the steps that were taken: a wake is only marked handled
    after its handler was launched or after it had nothing to do, and published work really runs. */
module JobHistory {
  import opened Common
  import opened JobProtocol

  /** The call that a step belongs to, for steps of a call. */
  function CallOf(step: Step): (t: int)
    ensures t >= -1
  {
    match step
    case GateChecks(t, _) => t
    case EndWake(t) => t
    case CheckFirst(t, _) => t
    case ProbeDone(t, _) => t
    case CheckSecond(t) => t
    case BeginRun(t) => t
    case LaunchHandler(t) => t
    case EndHandler(t, _) => t
    case MissDeadline(t) => t
    case WriteResult(t) => t
    case CompleteRun(t) => t
    case _ => -1
  }

  /** Past the launch of the first attempt. */
  predicate HasLaunched(pc: Pc) {
    pc.Handling? || pc.Settled? || pc.TimedOut? || pc.Finishing? || (pc.Preparing? && pc.next > 1)
  }

  /** Where a call is agrees with the steps that it has taken. */
  ghost predicate CallTruth(j: Job, past: seq<Step>, t: TriggerId)
    requires t in j.calls
  {
    var pc := j.calls[t].pc;
    && (HasLaunched(pc) ==> LaunchHandler(t) in past)
    && (pc.Returned? ==> LaunchHandler(t) in past || ProbeDone(t, false) in past)
    && (pc.Gate? || pc.Check? || pc.Probing? ==> ProbeDone(t, true) !in past)
    && (ProbeDone(t, false) in past ==> pc.Returned? && ProbeDone(t, true) !in past)
  }

  ghost predicate Truthful(j: Job, past: seq<Step>) {
    && (forall t :: t in j.calls ==> t < j.next && CallTruth(j, past, t))
    && (forall k :: 0 <= k < |past| ==> CallOf(past[k]) < j.next)
    && (forall h :: h in j.live ==> LaunchHandler(h.trigger) in past)
  }

  /** What a step does to the calls: it may start a new one, and it changes or ends its own. */
  ghost predicate TouchesOnly(j: Job, k: Job, own: int) {
    && (k.next == j.next || (k.next == j.next + 1 && j.next in k.calls && own == -1
          && k.calls[j.next].pc in {Gate, Check, Queued}))
    && (forall t :: t in k.calls && t != j.next ==> t in j.calls)
    && (k.next == j.next && j.next !in j.calls ==> j.next !in k.calls)
    && (forall t :: t in j.calls && t != own && t != j.next ==> t in k.calls && k.calls[t] == j.calls[t])
  }

  lemma WakeStepTouches(j: Job, step: Step)
    requires IsWakeStep(step) && Enabled(j, step)
    ensures TouchesOnly(j, Apply(j, step), CallOf(step))
  {
    if CallOf(step) >= 0 { GateTouches(j, step, step.t); }
  }

  lemma GateTouches(j: Job, step: Step, t: TriggerId)
    requires IsWakeStep(step) && Enabled(j, step) && CallOf(step) == t
    ensures TouchesOnly(j, Apply(j, step), t)
  {
    var k := Apply(j, step);
    assert k.calls == j.calls - {t} || (t in k.calls && k.calls == j.calls[t := k.calls[t]]);
  }

  lemma TriggerStepTouches(j: Job, step: Step)
    requires IsTriggerStep(step) && Enabled(j, step)
    ensures TouchesOnly(j, Apply(j, step), CallOf(step))
  {
    if CallOf(step) >= 0 { CheckTouches(j, step, step.t); }
  }

  lemma CheckTouches(j: Job, step: Step, t: TriggerId)
    requires IsTriggerStep(step) && Enabled(j, step) && CallOf(step) == t
    ensures TouchesOnly(j, Apply(j, step), t)
  {
    var k := Apply(j, step);
    assert k.calls == j.calls - {t} || (t in k.calls && k.calls == j.calls[t := k.calls[t]]);
  }

  lemma RunStepTouches(j: Job, step: Step)
    requires !IsWakeStep(step) && !IsTriggerStep(step) && Enabled(j, step)
    ensures TouchesOnly(j, Apply(j, step), CallOf(step))
  {
  }

  lemma StepTouches(j: Job, step: Step)
    requires Enabled(j, step)
    ensures TouchesOnly(j, Apply(j, step), CallOf(step))
  {
    if IsWakeStep(step) {
      WakeStepTouches(j, step);
    } else if IsTriggerStep(step) {
      TriggerStepTouches(j, step);
    } else {
      RunStepTouches(j, step);
    }
  }

  lemma OwnCallStaysTrue(j: Job, past: seq<Step>, step: Step, t: TriggerId)
    requires t in j.calls && CallTruth(j, past, t) && Enabled(j, step) && CallOf(step) == t
    ensures t in Apply(j, step).calls ==> CallTruth(Apply(j, step), past + [step], t)
  {
    if t in Apply(j, step).calls { OwnMove(j, step, t); }
  }

  /** Where its own steps bring a call. */
  predicate Moves(pc: Pc, pc': Pc, step: Step, t: TriggerId) {
    && (HasLaunched(pc') ==> HasLaunched(pc) || step == LaunchHandler(t))
    && (pc'.Returned? ==> HasLaunched(pc) || step == ProbeDone(t, false))
    && !pc'.Gate? && (pc'.Check? ==> pc.Gate?) && (pc'.Probing? ==> pc.Check?)
    && (step == ProbeDone(t, true) ==> pc'.Ready?)
    && (step == ProbeDone(t, false) ==> pc'.Returned? && pc.Probing?)
    && !pc.Returned?
  }

  lemma WakeMove(j: Job, step: Step, t: TriggerId)
    requires IsWakeStep(step) && Enabled(j, step) && CallOf(step) == t && t in Apply(j, step).calls
    ensures Moves(j.calls[t].pc, Apply(j, step).calls[t].pc, step, t)
  {
  }

  lemma TriggerMove(j: Job, step: Step, t: TriggerId)
    requires IsTriggerStep(step) && Enabled(j, step) && CallOf(step) == t && t in Apply(j, step).calls
    ensures Moves(j.calls[t].pc, Apply(j, step).calls[t].pc, step, t)
  {
    if step.ProbeDone? { ProbeMove(j, t, step.ready); }
  }

  lemma ProbeMove(j: Job, t: TriggerId, ready: bool)
    requires At(j, t, Probing) && t in Probed(j, t, ready).calls
    ensures Moves(Probing, Probed(j, t, ready).calls[t].pc, ProbeDone(t, ready), t)
  {
  }

  lemma RunMove(j: Job, step: Step, t: TriggerId)
    requires !IsWakeStep(step) && !IsTriggerStep(step)
    requires Enabled(j, step) && CallOf(step) == t && t in Apply(j, step).calls
    ensures Moves(j.calls[t].pc, Apply(j, step).calls[t].pc, step, t)
  {
  }

  lemma OwnMove(j: Job, step: Step, t: TriggerId)
    requires Enabled(j, step) && CallOf(step) == t && t in Apply(j, step).calls
    ensures t in j.calls && Moves(j.calls[t].pc, Apply(j, step).calls[t].pc, step, t)
  {
    if IsWakeStep(step) {
      WakeMove(j, step, t);
    } else if IsTriggerStep(step) {
      TriggerMove(j, step, t);
    } else {
      RunMove(j, step, t);
    }
  }

  lemma OtherCallStaysTrue(j: Job, past: seq<Step>, step: Step, t: TriggerId)
    requires t in j.calls && t < j.next && CallTruth(j, past, t) && Enabled(j, step) && CallOf(step) != t
    ensures t in Apply(j, step).calls && CallTruth(Apply(j, step), past + [step], t)
  {
    StepTouches(j, step);
  }

  /** A call that a step has started is new. */
  lemma NewCallIsTrue(j: Job, past: seq<Step>, step: Step, t: TriggerId)
    requires Truthful(j, past) && Enabled(j, step) && t in Apply(j, step).calls && t !in j.calls
    ensures t == j.next < Apply(j, step).next && CallTruth(Apply(j, step), past + [step], t)
  {
    StepTouches(j, step);
    assert ProbeDone(t, true) !in past && ProbeDone(t, false) !in past;
  }

  lemma HandlersStayTrue(j: Job, past: seq<Step>, step: Step)
    requires Truthful(j, past) && Enabled(j, step)
    ensures forall h :: h in Apply(j, step).live ==> LaunchHandler(h.trigger) in past + [step]
  {
    OnlyLaunchesAdd(j, step);
  }

  lemma OnlyLaunchesAdd(j: Job, step: Step)
    requires Enabled(j, step)
    ensures forall h :: h in Apply(j, step).live ==> h in j.live || step == LaunchHandler(h.trigger)
  {
  }

  lemma IdsStayTrue(j: Job, past: seq<Step>, step: Step)
    requires Truthful(j, past) && Enabled(j, step)
    ensures Apply(j, step).next >= j.next && CallOf(step) < j.next
  {
    StepTouches(j, step);
    if CallOf(step) >= 0 { assert CallOf(step) in j.calls; }
  }

  lemma StepStaysTrue(j: Job, past: seq<Step>, step: Step)
    requires Truthful(j, past) && Enabled(j, step)
    ensures Truthful(Apply(j, step), past + [step])
  {
    var k := Apply(j, step);
    IdsStayTrue(j, past, step);
    HandlersStayTrue(j, past, step);
    forall t | t in k.calls ensures t < k.next && CallTruth(k, past + [step], t) {
      if t !in j.calls {
        NewCallIsTrue(j, past, step, t);
      } else if CallOf(step) == t {
        OwnCallStaysTrue(j, past, step, t);
      } else {
        OtherCallStaysTrue(j, past, step, t);
      }
    }
  }

  lemma {:induction false} RunStaysTrue(j: Job, past: seq<Step>, steps: seq<Step>)
    requires Truthful(j, past) && Legal(j, steps)
    ensures Truthful(Outcome(j, steps), past + steps)
    decreases |steps|
  {
    Regroup(past, steps);
    if steps != [] {
      StepStaysTrue(j, past, steps[0]);
      RunStaysTrue(Apply(j, steps[0]), past + [steps[0]], steps[1..]);
    }
  }

  lemma {:induction false} LegalSplit(j: Job, steps: seq<Step>, k: nat)
    requires Legal(j, steps) && k <= |steps|
    ensures Legal(j, steps[..k]) && Legal(Outcome(j, steps[..k]), steps[k..])
    ensures Outcome(Outcome(j, steps[..k]), steps[k..]) == Outcome(j, steps)
    decreases k
  {
    if k == 0 {
      assert steps[..0] == [] && steps[0..] == steps;
    } else {
      LegalSplit(Apply(j, steps[0]), steps[1..], k - 1);
      assert steps[..k][0] == steps[0] && steps[..k][1..] == steps[1..][..k - 1] && steps[1..][k - 1..] == steps[k..];
    }
  }

  /** A call whose eligibility check found work never returns to its wake without having launched its
      handler: if it is marked handled, the handler ran. */
  lemma ReadyCallsLaunch(steps: seq<Step>, t: TriggerId)
    requires Legal(IDLE, steps) && At(Outcome(IDLE, steps), t, Returned) && ProbeDone(t, true) in steps
    ensures LaunchHandler(t) in steps
  {
    RunStaysTrue(IDLE, [], steps);
    assert [] + steps == steps;
    assert CallTruth(Outcome(IDLE, steps), steps, t);
  }

  /** No run settles, times out, retries or writes its result without having launched its handler, whatever
      started it. */
  lemma NoRunWithoutHandler(steps: seq<Step>, t: TriggerId)
    requires Legal(IDLE, steps) && t in Outcome(IDLE, steps).calls && HasLaunched(Outcome(IDLE, steps).calls[t].pc)
    ensures LaunchHandler(t) in steps
  {
    RunStaysTrue(IDLE, [], steps);
    assert [] + steps == steps;
    assert CallTruth(Outcome(IDLE, steps), steps, t);
  }

  // ---- what a handled generation has had ----

  /** Step `k` marks generation `g` handled, on behalf of call `t`: its job or worker was disabled, its
      eligibility check found no work, or its handler was launched. */
  ghost predicate Serves(steps: seq<Step>, k: nat, t: TriggerId, g: nat)
    requires Legal(IDLE, steps)
  {
    && k < |steps| && Legal(IDLE, steps[..k])
    && t in Outcome(IDLE, steps[..k]).calls && Outcome(IDLE, steps[..k]).calls[t].kind == Event(g)
    && (|| steps[k] == GateChecks(t, false)
        || (steps[k] == EndWake(t) && (LaunchHandler(t) in steps[..k] || ProbeDone(t, false) in steps[..k])))
  }

  lemma HandledChanges(j: Job, step: Step) returns (t: TriggerId)
    requires Enabled(j, step) && Apply(j, step).handled != j.handled
    ensures t in j.calls && j.calls[t].kind == Event(Apply(j, step).handled)
    ensures step == GateChecks(t, false) || (step == EndWake(t) && j.calls[t].pc.Returned?)
  {
    OnlyWakesHandle(j, step);
    t := step.t;
  }

  lemma TriggersKeepHandled(j: Job, step: Step)
    requires Enabled(j, step) && IsTriggerStep(step)
    ensures Apply(j, step).handled == j.handled
  {
  }

  lemma RunsKeepHandled(j: Job, step: Step)
    requires Enabled(j, step) && !IsTriggerStep(step) && !IsWakeStep(step)
    ensures Apply(j, step).handled == j.handled
  {
  }

  lemma OnlyWakesHandle(j: Job, step: Step)
    requires Enabled(j, step)
    ensures Apply(j, step).handled != j.handled ==> step.GateChecks? || step.EndWake?
  {
    if IsTriggerStep(step) {
      TriggersKeepHandled(j, step);
    } else if !IsWakeStep(step) {
      RunsKeepHandled(j, step);
    }
  }

  /** Whatever generation is marked handled after a run, some step of the run has marked it for one of
      these reasons: no published item is passed over. */
  lemma {:induction false} HandledWasServed(steps: seq<Step>) returns (k: nat, t: TriggerId)
    requires Legal(IDLE, steps) && Outcome(IDLE, steps).handled > 0
    ensures Serves(steps, k, t, Outcome(IDLE, steps).handled)
    decreases |steps|
  {
    var n := |steps| - 1;
    LegalSplit(IDLE, steps, n);
    var j := Outcome(IDLE, steps[..n]);
    assert steps[n..][1..] == [] && Outcome(IDLE, steps) == Apply(j, steps[n]);
    if Apply(j, steps[n]).handled != j.handled {
      k := n;
      t := HandledChanges(j, steps[n]);
      RunStaysTrue(IDLE, [], steps[..n]);
      assert [] + steps[..n] == steps[..n];
      assert CallTruth(j, steps[..n], t);
    } else {
      k, t := HandledWasServed(steps[..n]);
      assert steps[..n][..k] == steps[..k];
    }
  }

  // ---- published work runs ----

  /** From a published item to the running handler, and on to the end of the wake. */
  function ToTheHandler(t: TriggerId): seq<Step> {
    [PublishItem, FireTimer, GateChecks(t, true), CheckFirst(t, true), ProbeDone(t, true), CheckSecond(t),
     BeginRun(t), LaunchHandler(t)]
  }

  function ToTheEnd(t: TriggerId): seq<Step> {
    [EndHandler(t, false), WriteResult(t), CompleteRun(t), EndWake(t), FireTimer]
  }

  /** Nothing is going on, and no wake is pending. */
  predicate AtRest(j: Job) {
    !Busy(j) && j.live == {} && j.calls == map[] && !j.timer && j.handled == j.requested
  }

  lemma OneStep(j: Job, steps: seq<Step>)
    requires steps != [] && Enabled(j, steps[0]) && Legal(Apply(j, steps[0]), steps[1..])
    ensures Legal(j, steps) && Outcome(j, steps) == Outcome(Apply(j, steps[0]), steps[1..])
  {
  }

  /** An item published to an enabled job at rest that has work for it gets its handler launched ... */
  lemma PublishedWorkStarts(j: Job)
    requires AtRest(j)
    ensures var t := j.next;
      Legal(j, ToTheHandler(t)) && Outcome(j, ToTheHandler(t)) == Working(j, t)
  {
    var t := j.next;
    var s := ToTheHandler(t);
    var j1 := Apply(j, s[0]);
    var j2 := Apply(j1, s[1]);
    var j3 := Apply(j2, s[2]);
    var j4 := Apply(j3, s[3]);
    assert j4 == j.(requested := j.requested + 1, next := t + 1, checked := j.requested + 1,
                    calls := map[t := Call(Event(j.requested + 1), Probing)]);
    ReadyWorkStarts(j4, j, t);
    assert s[1..][1..] == s[2..] && s[2..][1..] == s[3..] && s[3..][1..] == s[4..];
    OneStep(j3, s[3..]);
    OneStep(j2, s[2..]);
    OneStep(j1, s[1..]);
  }

  /** The job with the handler of call `t` running for the item just published. */
  function Working(j: Job, t: TriggerId): Job {
    j.(requested := j.requested + 1, next := t + 1, checked := j.requested + 1, running := true,
       live := {Handler(t, 1)}, calls := map[t := Call(Event(j.requested + 1), Handling(1))])
  }

  lemma ReadyWorkStarts(j4: Job, j: Job, t: TriggerId)
    requires AtRest(j) && j4 == j.(requested := j.requested + 1, next := t + 1, checked := j.requested + 1,
                                   calls := map[t := Call(Event(j.requested + 1), Probing)])
    ensures Legal(j4, ToTheHandler(t)[4..]) && Outcome(j4, ToTheHandler(t)[4..]) == Working(j, t)
  {
    var s := ToTheHandler(t);
    var j5 := Apply(j4, s[4]);
    var j6 := Apply(j5, s[5]);
    ClaimedWorkStarts(j6, j, t);
    assert s[4..][1..] == s[5..] && s[5..][1..] == s[6..];
    OneStep(j5, s[5..]);
    OneStep(j4, s[4..]);
  }

  lemma ClaimedWorkStarts(j6: Job, j: Job, t: TriggerId)
    requires AtRest(j)
    requires j6 == j.(requested := j.requested + 1, next := t + 1, checked := j.requested + 1, queued := true,
                      calls := map[t := Call(Event(j.requested + 1), Queued)])
    ensures Legal(j6, ToTheHandler(t)[6..]) && Outcome(j6, ToTheHandler(t)[6..]) == Working(j, t)
  {
    var s := ToTheHandler(t);
    assert forall u :: !Executing(j6, u);
    var j7 := Apply(j6, s[6]);
    assert Apply(j7, s[7]) == Working(j, t);
    assert s[6..][1..] == s[7..] && s[7..][1..] == [];
    OneStep(j7, s[7..]);
    OneStep(j6, s[6..]);
  }

  /** ... and when the handler is done the item is handled and, once the timer has found nothing left to
      do, the job is at rest again. */
  lemma PublishedWorkEnds(j: Job)
    requires AtRest(j)
    ensures var t := j.next;
      Legal(Working(j, t), ToTheEnd(t)) && AtRest(Outcome(Working(j, t), ToTheEnd(t)))
      && Outcome(Working(j, t), ToTheEnd(t)).handled == j.requested + 1
  {
    var t := j.next;
    var s := ToTheEnd(t);
    var j1 := Apply(Working(j, t), s[0]);
    var j2 := Apply(j1, s[1]);
    FinishedWorkEnds(j2, j, t);
    assert s[1..][1..] == s[2..];
    OneStep(j1, s[1..]);
  }

  lemma FinishedWorkEnds(j2: Job, j: Job, t: TriggerId)
    requires AtRest(j)
    requires j2 == j.(requested := j.requested + 1, next := t + 1, checked := j.requested + 1,
                      calls := map[t := Call(Event(j.requested + 1), Finishing)])
    ensures Legal(j2, ToTheEnd(t)[2..]) && AtRest(Outcome(j2, ToTheEnd(t)[2..]))
    ensures Outcome(j2, ToTheEnd(t)[2..]).handled == j.requested + 1
  {
    var s := ToTheEnd(t);
    var j3 := Apply(j2, s[2]);
    var j4 := Apply(j3, s[3]);
    var j5 := Apply(j4, s[4]);
    assert s[2..][1..] == s[3..] && s[3..][1..] == s[4..] && s[4..][1..] == [];
    OneStep(j4, s[4..]);
    OneStep(j3, s[3..]);
    OneStep(j2, s[2..]);
  }

  // ---- no call is stuck ----

  /** The next step of a call, taken as successful where it can fail. */
  function NextOf(j: Job, t: TriggerId): Step
    requires t in j.calls
  {
    match j.calls[t].pc
    case Gate => GateChecks(t, true)
    case Check => CheckFirst(t, true)
    case Probing => ProbeDone(t, true)
    case Ready => CheckSecond(t)
    case Queued => BeginRun(t)
    case Preparing(_) => LaunchHandler(t)
    case Handling(_) => EndHandler(t, false)
    case Settled => WriteResult(t)
    case TimedOut => WriteResult(t)
    case Finishing => CompleteRun(t)
    case Refused => EndWake(t)
    case Returned => EndWake(t)
  }

  /** A call can always go on, unless it waits for its turn behind a run that can. */
  lemma NoCallIsStuck(j: Job, t: TriggerId)
    requires WakeInv(j) && t in j.calls
    ensures Enabled(j, NextOf(j, t))
      || (At(j, t, Queued) && exists u :: Executing(j, u) && u in j.calls && Enabled(j, NextOf(j, u)))
  {
    if At(j, t, Queued) && exists u :: Executing(j, u) {
      var u :| Executing(j, u);
      assert u in j.calls && Enabled(j, NextOf(j, u));
    }
  }
}
