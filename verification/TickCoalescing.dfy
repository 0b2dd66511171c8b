/** Pipeline ticks, coalesced: a request during a tick is answered with that tick's result, and the
    caller that started the tick starts one follow-up behind it.

    A tick ends in three stretches: its body settles, the `finally` clears the in-flight variable, and
    the call that started it goes on. Other calls can come in between. `now` counts the stretches. */
module TickCoalescing {
  import opened Common

  datatype Tick = Tick(started: nat, body: Option<bool>, cleared: bool, continued: bool)

  /** A request that found tick `during` in flight. */
  datatype Ask = Ask(at: nat, during: nat)

  datatype Ticks = Ticks(
    now: nat,
    queued: bool,
    inFlight: Option<nat>,
    ticks: seq<Tick>,
    asks: seq<Ask>,
    calls: nat)

  const IDLE: Ticks := Ticks(0, false, None, [], [], 0)

  datatype Step = Request | Settle(t: nat, ok: bool) | Clear(t: nat) | Continue(t: nat)

  predicate Enabled(s: Ticks, step: Step) {
    match step
    case Request => true
    case Settle(t, _) => t < |s.ticks| && s.ticks[t].body.None?
    case Clear(t) => t < |s.ticks| && s.ticks[t].body.Some? && !s.ticks[t].cleared
    case Continue(t) => t < |s.ticks| && s.ticks[t].cleared && !s.ticks[t].continued
  }

  /** `runPipelineTick` up to its await. */
  function RunTick(s: Ticks): Ticks {
    if s.inFlight.Some? then s.(queued := true, asks := s.asks + [Ask(s.now, s.inFlight.value)])
    else s.(inFlight := Some(|s.ticks|), ticks := s.ticks + [Tick(s.now, None, false, false)])
  }

  function Apply(s: Ticks, step: Step): Ticks
    requires Enabled(s, step)
  {
    var next :=
      match step
      case Request => RunTick(s.(calls := s.calls + 1))
      case Settle(t, ok) => s.(ticks := s.ticks[t := s.ticks[t].(body := Some(ok))])
      case Clear(t) => s.(inFlight := None, ticks := s.ticks[t := s.ticks[t].(cleared := true)])
      case Continue(t) =>
        var s' := s.(ticks := s.ticks[t := s.ticks[t].(continued := true)]);
        if s.ticks[t].body == Some(true) && s.queued then RunTick(s'.(queued := false)) else s';
    next.(now := s.now + 1)
  }

  // ---- the invariant ----

  /** The tick in flight is the latest one and the only one not yet cleared. */
  ghost predicate TickInv(s: Ticks) {
    && (s.inFlight.Some? ==> s.inFlight.value == |s.ticks| - 1)
    && (forall t :: 0 <= t < |s.ticks| ==>
          && (s.inFlight == Some(t) <==> !s.ticks[t].cleared)
          && (s.ticks[t].cleared ==> s.ticks[t].body.Some?)
          && (s.ticks[t].continued ==> s.ticks[t].cleared)
          && s.ticks[t].started < s.now)
  }

  /** Every tick after the one a request was made during starts after the request; until there is one
      the flag stays up, and it is not left to nobody when that tick has ended normally. */
  ghost predicate AskInv(s: Ticks) {
    forall k :: 0 <= k < |s.asks| ==>
      var ask := s.asks[k];
      && ask.during < |s.ticks| && ask.at < s.now
      && (forall t :: 0 <= t <= ask.during ==> s.ticks[t].started < ask.at)
      && (forall t :: ask.during < t < |s.ticks| ==> s.ticks[t].started > ask.at)
      && (ask.during + 1 == |s.ticks| ==> s.queued)
      && (ask.during + 1 == |s.ticks| && s.ticks[ask.during].continued ==> s.ticks[ask.during].body != Some(true))
  }

  ghost predicate CountInv(s: Ticks) {
    |s.ticks| + (if s.queued then 1 else 0) <= s.calls
  }

  ghost predicate Inv(s: Ticks) { TickInv(s) && AskInv(s) && CountInv(s) }

  lemma StepKeepsTicks(s: Ticks, step: Step)
    requires TickInv(s) && Enabled(s, step)
    ensures TickInv(Apply(s, step))
  {
  }

  lemma StepKeepsAsks(s: Ticks, step: Step)
    requires TickInv(s) && AskInv(s) && Enabled(s, step)
    ensures AskInv(Apply(s, step))
  {
  }

  lemma StepKeepsInv(s: Ticks, step: Step)
    requires Inv(s) && Enabled(s, step)
    ensures Inv(Apply(s, step))
  {
    StepKeepsTicks(s, step);
    StepKeepsAsks(s, step);
  }

  // ---- whole runs ----

  predicate Legal(s: Ticks, steps: seq<Step>)
    decreases |steps|
  {
    steps == [] || (Enabled(s, steps[0]) && Legal(Apply(s, steps[0]), steps[1..]))
  }

  function Run(s: Ticks, steps: seq<Step>): Ticks
    requires Legal(s, steps)
    decreases |steps|
  {
    if steps == [] then s else Run(Apply(s, steps[0]), steps[1..])
  }

  lemma {:induction false} RunKeepsInv(s: Ticks, steps: seq<Step>)
    requires Inv(s) && Legal(s, steps)
    ensures Inv(Run(s, steps))
    decreases |steps|
  {
    if steps != [] {
      StepKeepsInv(s, steps[0]);
      RunKeepsInv(Apply(s, steps[0]), steps[1..]);
    }
  }

  /** The bodies of two ticks never run at the same time. */
  lemma OneTickAtATime(steps: seq<Step>, t: nat, t': nat)
    requires Legal(IDLE, steps)
    requires var s := Run(IDLE, steps);
      t < |s.ticks| && t' < |s.ticks| && s.ticks[t].body.None? && s.ticks[t'].body.None?
    ensures t == t'
  {
    RunKeepsInv(IDLE, steps);
  }

  /** A request made during a tick that ends normally is followed by a tick that starts later, at the
      latest when the call that started the first one goes on. */
  lemma RequestsGetAFollowUp(steps: seq<Step>, k: nat)
    requires Legal(IDLE, steps) && k < |Run(IDLE, steps).asks|
    requires var s := Run(IDLE, steps);
      && s.asks[k].during < |s.ticks|
      && s.ticks[s.asks[k].during].continued
      && s.ticks[s.asks[k].during].body == Some(true)
    ensures var s := Run(IDLE, steps);
      exists t :: s.asks[k].during < t < |s.ticks| && s.ticks[t].started > s.asks[k].at
  {
    RunKeepsInv(IDLE, steps);
    var s := Run(IDLE, steps);
    assert s.ticks[s.asks[k].during + 1].started > s.asks[k].at;
  }

  // ---- what happens without a further call ----

  predicate NoRequests(steps: seq<Step>) {
    forall i :: 0 <= i < |steps| ==> !steps[i].Request?
  }

  ghost predicate Quiet(s: Ticks) {
    forall step: Step :: Enabled(s, step) ==> step.Request?
  }

  predicate StarterPends(s: Ticks, t: nat) {
    t < |s.ticks| && s.ticks[t].body == Some(true) && !s.ticks[t].continued
  }

  /** A tick has ended normally, the latest one or an earlier one, and the call that started it has
      still to go on. */
  ghost predicate SomeStarterPends(s: Ticks) {
    exists t :: StarterPends(s, t)
  }

  function Stretches(tick: Tick): nat {
    (if tick.body.Some? then 1 else 0) + (if tick.cleared then 1 else 0) + (if tick.continued then 1 else 0)
  }

  /** How many of their three stretches the ticks have behind them. */
  function Progress(ticks: seq<Tick>): nat
    decreases |ticks|
  {
    if ticks == [] then 0 else Progress(ticks[..|ticks| - 1]) + Stretches(ticks[|ticks| - 1])
  }

  lemma {:induction false} ProgressUpdate(ticks: seq<Tick>, t: nat, tick: Tick)
    requires t < |ticks|
    ensures Progress(ticks[t := tick]) == Progress(ticks) - Stretches(ticks[t]) + Stretches(tick)
    decreases |ticks|
  {
    var n := |ticks| - 1;
    if t < n {
      ProgressUpdate(ticks[..n], t, tick);
      assert ticks[t := tick][..n] == ticks[..n][t := tick];
    } else {
      assert ticks[t := tick][..n] == ticks[..n];
    }
  }

  lemma {:induction false} ProgressBound(ticks: seq<Tick>)
    ensures Progress(ticks) <= 3 * |ticks|
    decreases |ticks|
  {
    if ticks != [] { ProgressBound(ticks[..|ticks| - 1]); }
  }

  lemma StepMakesProgress(s: Ticks, step: Step)
    requires Enabled(s, step) && !step.Request?
    ensures Progress(Apply(s, step).ticks) == Progress(s.ticks) + 1 && Apply(s, step).calls == s.calls
  {
    var next := Apply(s, step);
    match step
    case Settle(t, ok) => ProgressUpdate(s.ticks, t, s.ticks[t].(body := Some(ok)));
    case Clear(t) => ProgressUpdate(s.ticks, t, s.ticks[t].(cleared := true));
    case Continue(t) =>
      var ticks := s.ticks[t := s.ticks[t].(continued := true)];
      ProgressUpdate(s.ticks, t, s.ticks[t].(continued := true));
      assert (ticks + [Tick(s.now, None, false, false)])[..|ticks|] == ticks;
  }

  /** Once calls stop, everything comes to rest: at most three further stretches for every call ever
      made, so follow-ups cannot chain on their own. */
  lemma {:induction false} ComesToRest(s: Ticks, steps: seq<Step>)
    requires Inv(s) && Legal(s, steps) && NoRequests(steps)
    ensures Progress(s.ticks) + |steps| == Progress(Run(s, steps).ticks) <= 3 * s.calls
    decreases |steps|
  {
    if steps == [] {
      ProgressBound(s.ticks);
    } else {
      StepKeepsInv(s, steps[0]);
      StepMakesProgress(s, steps[0]);
      ComesToRest(Apply(s, steps[0]), steps[1..]);
    }
  }

  lemma {:induction false} TicksStay(s: Ticks, steps: seq<Step>)
    requires Inv(s) && Legal(s, steps)
    ensures |s.ticks| <= |Run(s, steps).ticks|
    ensures forall t :: 0 <= t < |s.ticks| ==> Run(s, steps).ticks[t].started == s.ticks[t].started
    ensures |s.asks| <= |Run(s, steps).asks| && forall k :: 0 <= k < |s.asks| ==> Run(s, steps).asks[k] == s.asks[k]
    decreases |steps|
  {
    if steps != [] {
      StepKeepsInv(s, steps[0]);
      TicksStay(Apply(s, steps[0]), steps[1..]);
    }
  }

  /** With the last tick cleared and no starter pending, nothing starts a tick but a new call. */
  lemma {:induction false} WithoutStarterNoTick(s: Ticks, steps: seq<Step>)
    requires Inv(s) && s.inFlight.None? && !SomeStarterPends(s) && Legal(s, steps) && NoRequests(steps)
    ensures |Run(s, steps).ticks| == |s.ticks|
    decreases |steps|
  {
    if steps != [] {
      var k := Apply(s, steps[0]);
      StepKeepsInv(s, steps[0]);
      assert steps[0].Continue? && !StarterPends(s, steps[0].t);
      assert k.ticks == s.ticks[steps[0].t := s.ticks[steps[0].t].(continued := true)];
      assert forall t :: StarterPends(k, t) ==> StarterPends(s, t);
      WithoutStarterNoTick(k, steps[1..]);
    }
  }

  /** With a starter pending and a request waiting, a tick starts before everything is at rest. */
  lemma {:induction false} StarterStartsATick(s: Ticks, steps: seq<Step>)
    requires Inv(s) && s.inFlight.None? && s.queued && SomeStarterPends(s)
    requires Legal(s, steps) && NoRequests(steps) && Quiet(Run(s, steps))
    ensures |Run(s, steps).ticks| > |s.ticks|
    decreases |steps|
  {
    var t :| StarterPends(s, t);
    assert Enabled(s, Continue(t));
    if steps != [] {
      var k := Apply(s, steps[0]);
      StepKeepsInv(s, steps[0]);
      if |k.ticks| > |s.ticks| {
        TicksStay(k, steps[1..]);
      } else {
        assert steps[0].Continue? && StarterPends(k, t);
        StarterStartsATick(k, steps[1..]);
      }
    }
  }

  /** The exact condition. Take a request made during a tick that has since been cleared, before any
      later tick has started. If nobody calls again, then in whatever order the rest goes on, a tick
      that starts after the request follows if and only if some tick that ended normally, this one
      or an earlier one, has a starter that has still to go on. */
  lemma FollowedUpIff(s: Ticks, k: nat, steps: seq<Step>)
    requires Inv(s) && s.inFlight.None? && k < |s.asks| && s.asks[k].during == |s.ticks| - 1
    requires Legal(s, steps) && NoRequests(steps) && Quiet(Run(s, steps))
    ensures var end := Run(s, steps);
      (exists t :: 0 <= t < |end.ticks| && end.ticks[t].started > s.asks[k].at) <==> SomeStarterPends(s)
  {
    var end := Run(s, steps);
    RunKeepsInv(s, steps);
    TicksStay(s, steps);
    assert end.asks[k] == s.asks[k];
    if SomeStarterPends(s) {
      StarterStartsATick(s, steps);
      assert end.ticks[s.asks[k].during + 1].started > s.asks[k].at;
    } else {
      WithoutStarterNoTick(s, steps);
    }
  }

  /** A tick that fails drops the requests made during it exactly when every earlier tick that ended
      normally has been continued by its starter by then. */
  lemma FailedTickDropsIff(s: Ticks, k: nat, steps: seq<Step>)
    requires Inv(s) && s.inFlight.None? && k < |s.asks| && s.asks[k].during == |s.ticks| - 1
    requires s.ticks[s.asks[k].during].body == Some(false)
    requires Legal(s, steps) && NoRequests(steps) && Quiet(Run(s, steps))
    ensures var end := Run(s, steps);
      (forall t :: 0 <= t < |end.ticks| ==> end.ticks[t].started <= s.asks[k].at) <==>
        forall t :: 0 <= t < s.asks[k].during && s.ticks[t].body == Some(true) ==> s.ticks[t].continued
  {
    FollowedUpIff(s, k, steps);
    PendingIsEarlier(s, s.asks[k].during);
    var end := Run(s, steps);
    assert (exists t :: 0 <= t < |end.ticks| && end.ticks[t].started > s.asks[k].at) <==>
      !(forall t :: 0 <= t < |end.ticks| ==> end.ticks[t].started <= s.asks[k].at);
  }

  lemma PendingIsEarlier(s: Ticks, d: nat)
    requires d == |s.ticks| - 1 && s.ticks[d].body == Some(false)
    ensures SomeStarterPends(s) <==> !(forall t :: 0 <= t < d && s.ticks[t].body == Some(true) ==> s.ticks[t].continued)
  {
    if t: nat :| StarterPends(s, t) {
      assert t < d;
    }
    if t: nat :| t < d && s.ticks[t].body == Some(true) && !s.ticks[t].continued {
      assert StarterPends(s, t);
    }
  }

  /** A run in which a request made during a failing tick is not followed up: nothing is left to do,
      and the flag is still up. */
  lemma FailedTickDropsTheRequest()
    ensures var steps := [Request, Request, Settle(0, false), Clear(0), Continue(0)];
      Legal(IDLE, steps) && |Run(IDLE, steps).asks| == 1 && |Run(IDLE, steps).ticks| == 1 && Run(IDLE, steps).queued
      && forall step: Step :: Enabled(Run(IDLE, steps), step) ==> step.Request?
  {
    var s1 := Apply(IDLE, Request);
    var s2 := Apply(s1, Request);
    var s3 := Apply(s2, Settle(0, false));
    var s4 := Apply(s3, Clear(0));
    var s5 := Apply(s4, Continue(0));
    var e4 := [Continue(0)];
    var e3 := [Clear(0)] + e4;
    var e2 := [Settle(0, false)] + e3;
    var e1 := [Request] + e2;
    assert Legal(s4, e4) && Run(s4, e4) == s5;
    assert e3[1..] == e4 && Legal(s3, e3) && Run(s3, e3) == s5;
    assert e2[1..] == e3 && Legal(s2, e2) && Run(s2, e2) == s5;
    assert e1[1..] == e2 && Legal(s1, e1) && Run(s1, e1) == s5;
    var steps := [Request, Request, Settle(0, false), Clear(0), Continue(0)];
    assert steps[1..] == e1;
  }

  /** Follow-ups only chain when somebody asks: there are never more ticks than calls. */
  lemma NoMoreTicksThanCalls(steps: seq<Step>)
    requires Legal(IDLE, steps)
    ensures |Run(IDLE, steps).ticks| <= Run(IDLE, steps).calls
  {
    RunKeepsInv(IDLE, steps);
  }

  // ---- what the steps themselves say ----

  /** A tick began with a call or with a starter going on, and it is where its own steps have brought it. */
  ghost predicate TickTruth(s: Ticks, past: seq<Step>, t: nat)
    requires t < |s.ticks|
  {
    var tick := s.ticks[t];
    && tick.started < |past| && (past[tick.started].Request? || past[tick.started].Continue?)
    && (Settle(t, true) in past <==> tick.body == Some(true))
    && (Settle(t, false) in past <==> tick.body == Some(false))
    && (Clear(t) in past <==> tick.cleared)
    && (Continue(t) in past <==> tick.continued)
  }

  ghost predicate Recorded(s: Ticks, k: nat) {
    || (exists t: nat :: t < |s.ticks| && s.ticks[t].started == k)
    || (exists a: nat :: a < |s.asks| && s.asks[a].at == k)
  }

  function CallsIn(steps: seq<Step>): nat
    decreases |steps|
  {
    if steps == [] then 0
    else CallsIn(steps[..|steps| - 1]) + if steps[|steps| - 1].Request? then 1 else 0
  }

  ghost predicate Truthful(s: Ticks, past: seq<Step>) {
    && s.now == |past| && s.calls == CallsIn(past)
    && (forall t: nat :: t < |s.ticks| ==> TickTruth(s, past, t))
    && (forall k: nat :: k < |past| && past[k] == Request ==> Recorded(s, k))
    && (forall t: nat ::
          Settle(t, true) in past || Settle(t, false) in past || Clear(t) in past || Continue(t) in past ==>
          t < |s.ticks|)
  }

  /** What a step does to the ticks: it moves its own and may start one. */
  lemma TickChanges(s: Ticks, step: Step)
    requires Enabled(s, step)
    ensures var next := Apply(s, step);
      && |s.ticks| <= |next.ticks| <= |s.ticks| + 1
      && (|next.ticks| > |s.ticks| ==>
            next.ticks[|s.ticks|] == Tick(s.now, None, false, false) && (step.Request? || step.Continue?))
      && forall t: nat :: t < |s.ticks| ==>
        next.ticks[t] == match step
          case Request => s.ticks[t]
          case Settle(n, ok) => if n == t then s.ticks[t].(body := Some(ok)) else s.ticks[t]
          case Clear(n) => if n == t then s.ticks[t].(cleared := true) else s.ticks[t]
          case Continue(n) => if n == t then s.ticks[t].(continued := true) else s.ticks[t]
  {
  }

  lemma TicksStayTrue(s: Ticks, past: seq<Step>, step: Step, t: nat)
    requires Truthful(s, past) && Enabled(s, step) && t < |Apply(s, step).ticks|
    ensures TickTruth(Apply(s, step), past + [step], t)
  {
    TickChanges(s, step);
    if t < |s.ticks| { assert TickTruth(s, past, t); }
  }

  lemma RequestsStayRecorded(s: Ticks, past: seq<Step>, step: Step, k: nat)
    requires Truthful(s, past) && Enabled(s, step) && k <= |past| && (past + [step])[k] == Request
    ensures Recorded(Apply(s, step), k)
  {
    var next := Apply(s, step);
    TickChanges(s, step);
    if k < |past| {
      assert Recorded(s, k);
      if t: nat :| t < |s.ticks| && s.ticks[t].started == k {
        assert next.ticks[t].started == k;
      } else {
        var a: nat :| a < |s.asks| && s.asks[a].at == k;
        assert next.asks[a] == s.asks[a];
      }
    } else if s.inFlight.Some? {
      assert next.asks[|s.asks|].at == k;
    } else {
      assert next.ticks[|s.ticks|].started == k;
    }
  }

  lemma StepStaysTrue(s: Ticks, past: seq<Step>, step: Step)
    requires Truthful(s, past) && Enabled(s, step)
    ensures Truthful(Apply(s, step), past + [step])
  {
    var next, all := Apply(s, step), past + [step];
    TickChanges(s, step);
    assert all[..|past|] == past;
    forall t: nat | t < |next.ticks| ensures TickTruth(next, all, t) {
      TicksStayTrue(s, past, step, t);
    }
    forall k: nat | k < |all| && all[k] == Request ensures Recorded(next, k) {
      RequestsStayRecorded(s, past, step, k);
    }
  }

  lemma {:induction false} RunStaysTrue(s: Ticks, past: seq<Step>, steps: seq<Step>)
    requires Truthful(s, past) && Legal(s, steps)
    ensures Truthful(Run(s, steps), past + steps)
    decreases |steps|
  {
    Regroup(past, steps);
    if steps != [] {
      StepStaysTrue(s, past, steps[0]);
      RunStaysTrue(Apply(s, steps[0]), past + [steps[0]], steps[1..]);
    }
  }

  lemma NothingTakenIsTrue()
    ensures Inv(IDLE) && Truthful(IDLE, [])
  {
  }

  lemma TraceIsTrue(steps: seq<Step>)
    requires Legal(IDLE, steps)
    ensures Inv(Run(IDLE, steps)) && Truthful(Run(IDLE, steps), steps)
  {
    NothingTakenIsTrue();
    Regroup([], steps);
    RunKeepsInv(IDLE, steps);
    RunStaysTrue(IDLE, [], steps);
  }

  lemma DoneAtRest(s: Ticks, past: seq<Step>, t: nat)
    requires Quiet(s) && Truthful(s, past) && Settle(t, false) !in past && t < |s.ticks|
    ensures s.ticks[t].body == Some(true) && s.ticks[t].continued
  {
    assert TickTruth(s, past, t);
    assert !Enabled(s, Settle(t, true)) && !Enabled(s, Clear(t)) && !Enabled(s, Continue(t));
    var ok := s.ticks[t].body.value;
    assert ok == true ==> s.ticks[t].body == Some(true);
  }

  lemma ServedAtRest(s: Ticks, past: seq<Step>, k: nat) returns (t: nat)
    requires Inv(s) && Quiet(s) && Truthful(s, past) && forall n: nat :: Settle(n, false) !in past
    requires k < |past| && past[k] == Request
    ensures TickSince(past, s, t, k)
  {
    assert Recorded(s, k);
    if n: nat :| n < |s.ticks| && s.ticks[n].started == k {
      t := n;
    } else {
      var a: nat :| a < |s.asks| && s.asks[a].at == k;
      DoneAtRest(s, past, s.asks[a].during);
      t := s.asks[a].during + 1;
    }
    DoneAtRest(s, past, t);
    assert TickTruth(s, past, t);
  }

  /** Read from the steps alone: when everything has come to rest and no tick has failed, every call was
      followed by a whole tick that began no earlier than it. */
  lemma EveryRequestIsServed(steps: seq<Step>, k: nat)
    requires Legal(IDLE, steps) && Quiet(Run(IDLE, steps))
    requires k < |steps| && steps[k] == Request && forall t: nat :: Settle(t, false) !in steps
    ensures exists t: nat :: TickSince(steps, Run(IDLE, steps), t, k)
  {
    TraceIsTrue(steps);
    var t := ServedAtRest(Run(IDLE, steps), steps, k);
  }

  /** Tick `t` began no earlier than step `k`, with a call or with a starter going on, and ended normally. */
  ghost predicate TickSince(steps: seq<Step>, s: Ticks, t: nat, k: nat) {
    && t < |s.ticks| && k <= s.ticks[t].started < |steps|
    && (steps[s.ticks[t].started].Request? || steps[s.ticks[t].started].Continue?)
    && Settle(t, true) in steps
  }

  /** No more ticks than calls, both counted from the steps. */
  lemma TicksNeverOutnumberCalls(steps: seq<Step>)
    requires Legal(IDLE, steps)
    ensures |Run(IDLE, steps).ticks| <= CallsIn(steps)
  {
    TraceIsTrue(steps);
  }

  // ---- the module variables, updated in place ----

  class PipelineTicker {
    var pipelineTickQueued: bool
    var pipelineTickInFlight: Option<nat>
    var ticks: seq<Tick>
    ghost var asks: seq<Ask>
    ghost var calls: nat
    var now: nat

    ghost function View(): Ticks
      reads this
    {
      Ticks(now, pipelineTickQueued, pipelineTickInFlight, ticks, asks, calls)
    }

    ghost predicate Valid()
      reads this
    {
      Inv(View())
    }

    constructor ()
      ensures Valid() && View() == IDLE
    {
      pipelineTickQueued, pipelineTickInFlight, ticks, asks, calls, now := false, None, [], [], 0, 0;
    }

    /** Up to the await; returns the tick whose result the caller gets. */
    method StartOrJoin() returns (t: nat)
      requires TickInv(View())
      modifies this
      ensures View() == RunTick(old(View()))
      ensures t < |ticks| && pipelineTickInFlight == Some(t)
    {
      if pipelineTickInFlight.Some? {
        pipelineTickQueued := true;
        asks := asks + [Ask(now, pipelineTickInFlight.value)];
        return pipelineTickInFlight.value;
      }
      ticks := ticks + [Tick(now, None, false, false)];
      pipelineTickInFlight := Some(|ticks| - 1);
      t := |ticks| - 1;
    }

    method RunPipelineTick() returns (t: nat)
      requires Valid()
      modifies this
      ensures Valid() && View() == Apply(old(View()), Request) && pipelineTickInFlight == Some(t)
    {
      StepKeepsInv(View(), Request);
      calls := calls + 1;
      t := StartOrJoin();
      now := now + 1;
    }

    method BodySettles(t: nat, ok: bool)
      requires Valid() && Enabled(View(), Settle(t, ok))
      modifies this
      ensures Valid() && View() == Apply(old(View()), Settle(t, ok))
    {
      StepKeepsInv(View(), Settle(t, ok));
      ticks := ticks[t := ticks[t].(body := Some(ok))];
      now := now + 1;
    }

    method FinallyClears(t: nat)
      requires Valid() && Enabled(View(), Clear(t))
      modifies this
      ensures Valid() && View() == Apply(old(View()), Clear(t))
    {
      StepKeepsInv(View(), Clear(t));
      pipelineTickInFlight := None;
      ticks := ticks[t := ticks[t].(cleared := true)];
      now := now + 1;
    }

    /** The rest of the call that started tick `t`; a failed tick throws out of it. */
    method StarterContinues(t: nat)
      requires Valid() && Enabled(View(), Continue(t))
      modifies this
      ensures Valid() && View() == Apply(old(View()), Continue(t))
    {
      StepKeepsInv(View(), Continue(t));
      ticks := ticks[t := ticks[t].(continued := true)];
      if ticks[t].body == Some(true) && pipelineTickQueued {
        pipelineTickQueued := false;
        var _ := StartOrJoin();
      }
      now := now + 1;
    }
  }
}
