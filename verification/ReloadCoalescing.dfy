/** Schedule reloads, coalesced: a request during a reload makes the loop of that reload go round once
    more, and both callers wait for the same promise.

    A flight is one run of the reload loop, a round is one `doReloadSchedules` in it. Steps are the
    stretches between two awaits; `now` counts them. */
module ReloadCoalescing {
  import opened Common

  datatype Round = Round(started: nat, ended: Option<bool>)

  /** `settled` is how the promise of the flight settled, if it has. */
  datatype Flight = Flight(rounds: seq<Round>, settled: Option<bool>)

  datatype Outcome = Waiting | Returned | Threw

  /** One call of `reloadSchedules`, and the flight it awaits. */
  datatype Call = Call(at: nat, flight: nat, outcome: Outcome)

  datatype Reloads = Reloads(
    now: nat,
    queued: bool,
    inFlight: Option<nat>,
    flights: seq<Flight>,
    calls: seq<Call>,
    roundsStarted: nat)

  const IDLE: Reloads := Reloads(0, false, None, [], [], 0)

  datatype Step = Request | EndRound(f: nat, ok: bool) | Loop(f: nat) | Resume(c: nat)

  function LastRound(flight: Flight): Round
    requires flight.rounds != []
  {
    flight.rounds[|flight.rounds| - 1]
  }

  /** The loop of flight `f` has not returned. */
  predicate Open(s: Reloads, f: nat) {
    f < |s.flights| && s.flights[f].settled.None? && s.flights[f].rounds != []
  }

  predicate Enabled(s: Reloads, step: Step) {
    match step
    case Request => true
    case EndRound(f, _) => Open(s, f) && LastRound(s.flights[f]).ended.None?
    case Loop(f) => Open(s, f) && LastRound(s.flights[f]).ended.Some?
    case Resume(c) =>
      && c < |s.calls| && s.calls[c].outcome.Waiting?
      && s.calls[c].flight < |s.flights| && s.flights[s.calls[c].flight].settled.Some?
  }

  function AddRound(s: Reloads, f: nat): Reloads
    requires f < |s.flights|
  {
    s.(queued := false, roundsStarted := s.roundsStarted + 1,
      flights := s.flights[f := s.flights[f].(rounds := s.flights[f].rounds + [Round(s.now, None)])])
  }

  function Apply(s: Reloads, step: Step): Reloads
    requires Enabled(s, step)
  {
    var t :=
      match step
      case Request =>
        if s.inFlight.Some? then s.(queued := true, calls := s.calls + [Call(s.now, s.inFlight.value, Waiting)])
        else
          var f := |s.flights|;
          AddRound(s.(flights := s.flights + [Flight([], None)]), f).(
            inFlight := Some(f), calls := s.calls + [Call(s.now, f, Waiting)])
      case EndRound(f, ok) =>
        var rounds := s.flights[f].rounds;
        var ended := LastRound(s.flights[f]).(ended := Some(ok));
        s.(flights := s.flights[f := s.flights[f].(rounds := rounds[|rounds| - 1 := ended])])
      case Loop(f) =>
        var ok := LastRound(s.flights[f]).ended.value;
        if ok && s.queued then AddRound(s, f)
        else s.(inFlight := None, flights := s.flights[f := s.flights[f].(settled := Some(ok))])
      case Resume(c) =>
        var ok := s.flights[s.calls[c].flight].settled.value;
        s.(calls := s.calls[c := s.calls[c].(outcome := if ok then Returned else Threw)]);
    t.(now := s.now + 1)
  }

  // ---- the invariant ----

  /** Only the flight in flight is open, and within a flight only the last round can be going on. */
  ghost predicate FlightInv(s: Reloads) {
    && (s.inFlight.Some? ==> s.inFlight.value < |s.flights|)
    && (forall f :: 0 <= f < |s.flights| ==>
          s.flights[f].rounds != [] && (s.flights[f].settled.None? <==> s.inFlight == Some(f)))
    && (forall f :: 0 <= f < |s.flights| && s.flights[f].settled.Some? ==>
          LastRound(s.flights[f]).ended == s.flights[f].settled)
    && (forall f, r :: 0 <= f < |s.flights| && 0 <= r < |s.flights[f].rounds| - 1 ==>
          s.flights[f].rounds[r].ended == Some(true))
  }

  /** A call is covered by the last round of its flight, or another round will follow. */
  ghost predicate CallInv(s: Reloads) {
    forall c :: 0 <= c < |s.calls| ==>
      var call := s.calls[c];
      && call.at < s.now && call.flight < |s.flights| && s.flights[call.flight].rounds != []
      && (s.flights[call.flight].settled.None? ==> call.outcome.Waiting?)
      && (s.flights[call.flight].settled.None? && !s.queued ==> LastRound(s.flights[call.flight]).started >= call.at)
      && (s.flights[call.flight].settled == Some(true) ==> LastRound(s.flights[call.flight]).started >= call.at)
      && (call.outcome.Returned? ==> s.flights[call.flight].settled == Some(true))
      && (call.outcome.Threw? ==> s.flights[call.flight].settled == Some(false))
  }

  ghost predicate CountInv(s: Reloads) {
    s.roundsStarted + (if s.queued then 1 else 0) <= |s.calls|
  }

  ghost predicate Inv(s: Reloads) { FlightInv(s) && CallInv(s) && CountInv(s) }

  lemma StepKeepsFlights(s: Reloads, step: Step)
    requires FlightInv(s) && Enabled(s, step)
    ensures FlightInv(Apply(s, step))
  {
  }

  lemma StepKeepsCalls(s: Reloads, step: Step)
    requires FlightInv(s) && CallInv(s) && Enabled(s, step)
    ensures CallInv(Apply(s, step))
  {
    if step.Request? { RequestKeepsCalls(s); }
  }

  lemma RequestKeepsCalls(s: Reloads)
    requires FlightInv(s) && CallInv(s)
    ensures CallInv(Apply(s, Request))
  {
    var t := Apply(s, Request);
    assert forall c :: 0 <= c < |s.calls| ==> t.calls[c] == s.calls[c];
    assert forall f :: 0 <= f < |s.flights| ==> t.flights[f] == s.flights[f];
  }

  lemma StepKeepsInv(s: Reloads, step: Step)
    requires Inv(s) && Enabled(s, step)
    ensures Inv(Apply(s, step))
  {
    StepKeepsFlights(s, step);
    StepKeepsCalls(s, step);
  }

  // ---- whole runs ----

  predicate Legal(s: Reloads, steps: seq<Step>)
    decreases |steps|
  {
    steps == [] || (Enabled(s, steps[0]) && Legal(Apply(s, steps[0]), steps[1..]))
  }

  function Run(s: Reloads, steps: seq<Step>): Reloads
    requires Legal(s, steps)
    decreases |steps|
  {
    if steps == [] then s else Run(Apply(s, steps[0]), steps[1..])
  }

  lemma {:induction false} RunKeepsInv(s: Reloads, steps: seq<Step>)
    requires Inv(s) && Legal(s, steps)
    ensures Inv(Run(s, steps))
    decreases |steps|
  {
    if steps != [] {
      StepKeepsInv(s, steps[0]);
      RunKeepsInv(Apply(s, steps[0]), steps[1..]);
    }
  }

  predicate Ongoing(s: Reloads, f: nat, r: nat) {
    f < |s.flights| && r < |s.flights[f].rounds| && s.flights[f].rounds[r].ended.None?
  }

  /** At most one reload is ever going on. */
  lemma OneReloadAtATime(steps: seq<Step>, f: nat, r: nat, f': nat, r': nat)
    requires Legal(IDLE, steps)
    requires Ongoing(Run(IDLE, steps), f, r) && Ongoing(Run(IDLE, steps), f', r')
    ensures f == f' && r == r'
  {
    RunKeepsInv(IDLE, steps);
    OngoingIsLast(Run(IDLE, steps), f, r);
    OngoingIsLast(Run(IDLE, steps), f', r');
  }

  lemma OngoingIsLast(s: Reloads, f: nat, r: nat)
    requires FlightInv(s) && Ongoing(s, f, r)
    ensures s.inFlight == Some(f) && r == |s.flights[f].rounds| - 1
  {
    assert s.flights[f].settled.Some? ==> LastRound(s.flights[f]).ended.Some?;
  }

  predicate CompletedSince(s: Reloads, f: nat, r: nat, at: nat) {
    && f < |s.flights| && r < |s.flights[f].rounds|
    && s.flights[f].rounds[r].ended == Some(true)
    && s.flights[f].rounds[r].started >= at
  }

  predicate LastRoundFailed(s: Reloads, f: nat) {
    f < |s.flights| && s.flights[f].rounds != [] && LastRound(s.flights[f]).ended == Some(false)
  }

  /** A caller that `reloadSchedules` returns to normally has had a complete reload that began no
      earlier than its call; for a caller that threw, the last reload it waited for failed. */
  lemma ReturnedCallsAreServed(steps: seq<Step>, c: nat)
    requires Legal(IDLE, steps) && c < |Run(IDLE, steps).calls|
    ensures var s := Run(IDLE, steps);
      var call := s.calls[c];
      && (call.outcome.Returned? ==> exists f: nat, r: nat :: CompletedSince(s, f, r, call.at))
      && (call.outcome.Threw? ==> LastRoundFailed(s, call.flight))
  {
    RunKeepsInv(IDLE, steps);
    var s := Run(IDLE, steps);
    var call := s.calls[c];
    if call.outcome.Returned? {
      var r := |s.flights[call.flight].rounds| - 1;
      assert CompletedSince(s, call.flight, r, call.at);
    }
  }

  /** Requests are coalesced, never multiplied: there are no more reloads than calls. */
  lemma NoMoreReloadsThanCalls(steps: seq<Step>)
    requires Legal(IDLE, steps)
    ensures Run(IDLE, steps).roundsStarted <= |Run(IDLE, steps).calls|
  {
    RunKeepsInv(IDLE, steps);
  }

  /** The step that brings a waiting call on: its own reload ends, its own loop goes on, or it
      resumes. */
  function NextFor(s: Reloads, c: nat): Step
    requires c < |s.calls| && s.calls[c].flight < |s.flights| && s.flights[s.calls[c].flight].rounds != []
  {
    var f := s.calls[c].flight;
    if s.flights[f].settled.Some? then Resume(c)
    else if LastRound(s.flights[f]).ended.None? then EndRound(f, true)
    else Loop(f)
  }

  /** A waiting call is never stuck: the step that brings it on can be taken. */
  lemma NoCallIsStuck(s: Reloads, c: nat)
    requires Inv(s) && c < |s.calls| && s.calls[c].outcome.Waiting?
    ensures s.calls[c].flight < |s.flights| && s.flights[s.calls[c].flight].rounds != []
    ensures Enabled(s, NextFor(s, c))
  {
  }

  // ---- every call returns ----

  function WaitingCalls(calls: seq<Call>): nat
    decreases |calls|
  {
    if calls == [] then 0
    else WaitingCalls(calls[..|calls| - 1]) + if calls[|calls| - 1].outcome.Waiting? then 1 else 0
  }

  /** What is left to do once requests stop: a reload and a turn of the loop for the round that is
      going on, the same for a queued one, and a resumption for every waiting call. */
  function Work(s: Reloads): nat
    requires s.inFlight.Some? ==> s.inFlight.value < |s.flights| && s.flights[s.inFlight.value].rounds != []
  {
    var rounds :=
      if s.inFlight.None? then 0
      else (if LastRound(s.flights[s.inFlight.value]).ended.None? then 2 else 1) + if s.queued then 2 else 0;
    rounds + WaitingCalls(s.calls)
  }

  lemma {:induction false} ResumedCallWaitsNoMore(calls: seq<Call>, c: nat, call: Call)
    requires c < |calls| && calls[c].outcome.Waiting? && !call.outcome.Waiting?
    ensures WaitingCalls(calls[c := call]) == WaitingCalls(calls) - 1
    decreases |calls|
  {
    var n := |calls| - 1;
    if c < n {
      ResumedCallWaitsNoMore(calls[..n], c, call);
      assert calls[c := call][..n] == calls[..n][c := call];
    } else {
      assert calls[c := call][..n] == calls[..n];
    }
  }

  lemma {:induction false} WaitingBound(calls: seq<Call>)
    ensures WaitingCalls(calls) <= |calls|
    ensures WaitingCalls(calls) == 0 <==> forall c :: 0 <= c < |calls| ==> !calls[c].outcome.Waiting?
    decreases |calls|
  {
    if calls != [] {
      var n := |calls| - 1;
      WaitingBound(calls[..n]);
      assert forall c :: 0 <= c < n ==> calls[..n][c] == calls[c];
    }
  }

  lemma StepDoesWork(s: Reloads, step: Step)
    requires Inv(s) && Enabled(s, step) && !step.Request?
    ensures Inv(Apply(s, step)) && Work(Apply(s, step)) < Work(s)
  {
    StepKeepsInv(s, step);
    if step.Resume? { ResumedCallWaitsNoMore(s.calls, step.c, Apply(s, step).calls[step.c]); }
  }

  predicate NoRequests(steps: seq<Step>) {
    forall i :: 0 <= i < |steps| ==> !steps[i].Request?
  }

  ghost predicate Quiet(s: Reloads) {
    forall step: Step :: Enabled(s, step) ==> step.Request?
  }

  ghost predicate AllReturned(s: Reloads) {
    s.inFlight.None? && forall c :: 0 <= c < |s.calls| ==> !s.calls[c].outcome.Waiting?
  }

  /** Every call returns: once requests stop, every order of the remaining steps ends within four steps
      and one for each call, and when it ends no flight is open and no call is waiting. */
  lemma {:induction false} EveryCallReturns(s: Reloads, steps: seq<Step>)
    requires Inv(s) && Legal(s, steps) && NoRequests(steps)
    ensures |steps| <= 4 + |s.calls|
    ensures Inv(Run(s, steps)) && |steps| + Work(Run(s, steps)) <= Work(s)
    ensures Quiet(Run(s, steps)) ==> AllReturned(Run(s, steps))
    decreases |steps|
  {
    WaitingBound(s.calls);
    if steps == [] {
      if !AllReturned(s) { SomethingIsLeft(s); }
    } else {
      StepDoesWork(s, steps[0]);
      EveryCallReturns(Apply(s, steps[0]), steps[1..]);
    }
  }

  lemma SomethingIsLeft(s: Reloads)
    requires Inv(s) && !AllReturned(s)
    ensures !Quiet(s)
  {
    if s.inFlight.Some? {
      var f := s.inFlight.value;
      var step := if LastRound(s.flights[f]).ended.None? then EndRound(f, true) else Loop(f);
      assert Enabled(s, step);
    } else {
      var c :| 0 <= c < |s.calls| && s.calls[c].outcome.Waiting?;
      NoCallIsStuck(s, c);
      assert Enabled(s, NextFor(s, c));
    }
  }

  /** A request that comes while a reload is ending is not lost either: it is seen by the check of the
      loop, and a further round starts. */
  lemma LateRequestStartsARound(s: Reloads, f: nat)
    requires Inv(s) && s.inFlight == Some(f) && LastRound(s.flights[f]).ended == Some(true)
    ensures var t := Apply(s, Request);
      Enabled(t, Loop(f)) && Ongoing(Apply(t, Loop(f)), f, |s.flights[f].rounds|)
        && Apply(t, Loop(f)).flights[f].rounds[|s.flights[f].rounds|].started > t.calls[|s.calls|].at
  {
  }

  // ---- what the steps themselves say ----

  /** A call was made where it says, and has returned or thrown exactly if it has resumed. */
  ghost predicate CallTruth(s: Reloads, past: seq<Step>, c: nat)
    requires c < |s.calls|
  {
    && s.calls[c].at < |past| && past[s.calls[c].at] == Request
    && (s.calls[c].outcome.Waiting? <==> Resume(c) !in past)
  }

  /** A round began with a call or a turn of its loop, and ended as reported, after it began. */
  ghost predicate RoundTruth(s: Reloads, past: seq<Step>, f: nat, r: nat)
    requires f < |s.flights| && r < |s.flights[f].rounds|
  {
    var round := s.flights[f].rounds[r];
    && round.started < |past| && past[round.started] == (if r == 0 then Request else Loop(f))
    && (round.ended.Some? ==> EndedAs(past, f, round.started, round.ended.value))
  }

  ghost predicate EndedAs(past: seq<Step>, f: nat, started: nat, ok: bool) {
    exists k :: started < k < |past| && past[k] == EndRound(f, ok)
  }

  ghost predicate HasCall(s: Reloads, k: nat) {
    exists c: nat :: c < |s.calls| && s.calls[c].at == k
  }

  ghost predicate Truthful(s: Reloads, past: seq<Step>) {
    && s.now == |past|
    && (forall k: nat :: k < |past| && past[k] == Request ==> HasCall(s, k))
    && (forall c: nat :: c < |s.calls| ==> CallTruth(s, past, c))
    && (forall f: nat, r: nat :: f < |s.flights| && r < |s.flights[f].rounds| ==> RoundTruth(s, past, f, r))
    && (forall c: nat :: Resume(c) in past ==> c < |s.calls|)
    && (forall f: nat :: EndRound(f, false) in past ==>
          f < |s.flights| && s.flights[f].rounds != [] && LastRound(s.flights[f]).ended == Some(false))
  }

  lemma CallsStayTrue(s: Reloads, past: seq<Step>, step: Step)
    requires Inv(s) && Truthful(s, past) && Enabled(s, step)
    ensures var t := Apply(s, step);
      && (forall c: nat :: c < |t.calls| ==> CallTruth(t, past + [step], c))
      && (forall k: nat :: k < |past| + 1 && (past + [step])[k] == Request ==> HasCall(t, k))
  {
    var t := Apply(s, step);
    assert |t.calls| >= |s.calls| && forall c :: 0 <= c < |s.calls| ==> t.calls[c].at == s.calls[c].at;
    forall c: nat | c < |t.calls| ensures CallTruth(t, past + [step], c) {
      if c < |s.calls| { assert CallTruth(s, past, c); }
    }
    forall k: nat | k < |past| + 1 && (past + [step])[k] == Request ensures HasCall(t, k) {
      if k < |past| {
        assert HasCall(s, k);
        var c: nat :| c < |s.calls| && s.calls[c].at == k;
        assert t.calls[c].at == k;
      } else {
        assert t.calls[|s.calls|].at == k;
      }
    }
  }

  lemma EndedStays(past: seq<Step>, step: Step, f: nat, started: nat, ok: bool)
    requires EndedAs(past, f, started, ok)
    ensures EndedAs(past + [step], f, started, ok)
  {
    var k :| started < k < |past| && past[k] == EndRound(f, ok);
    assert (past + [step])[k] == EndRound(f, ok);
  }

  /** A round of the next state is an old one, unchanged or just ended, or has just begun. */
  lemma RoundChanges(s: Reloads, step: Step, f: nat, r: nat)
    requires Inv(s) && Enabled(s, step)
    requires f < |Apply(s, step).flights| && r < |Apply(s, step).flights[f].rounds|
    ensures var round := Apply(s, step).flights[f].rounds[r];
      if f < |s.flights| && r < |s.flights[f].rounds| then
        || round == s.flights[f].rounds[r]
        || (step.EndRound? && step.f == f && s.flights[f].rounds[r].ended.None?
            && round == s.flights[f].rounds[r].(ended := Some(step.ok)))
      else round == Round(s.now, None) && step == if r == 0 then Request else Loop(f)
  {
  }

  lemma RoundsStayTrue(s: Reloads, past: seq<Step>, step: Step, f: nat, r: nat)
    requires Inv(s) && Truthful(s, past) && Enabled(s, step)
    requires f < |Apply(s, step).flights| && r < |Apply(s, step).flights[f].rounds|
    ensures RoundTruth(Apply(s, step), past + [step], f, r)
  {
    RoundChanges(s, step, f, r);
    var all := past + [step];
    if f < |s.flights| && r < |s.flights[f].rounds| {
      var round := s.flights[f].rounds[r];
      assert RoundTruth(s, past, f, r);
      if round.ended.Some? { EndedStays(past, step, f, round.started, round.ended.value); }
      assert all[|past|] == step && all[round.started] == past[round.started];
    }
  }

  lemma FailuresStayTrue(s: Reloads, past: seq<Step>, step: Step)
    requires Inv(s) && Truthful(s, past) && Enabled(s, step)
    ensures forall f: nat :: EndRound(f, false) in past + [step] ==>
      && f < |Apply(s, step).flights| && Apply(s, step).flights[f].rounds != []
      && LastRound(Apply(s, step).flights[f]).ended == Some(false)
  {
  }

  lemma StepStaysTrue(s: Reloads, past: seq<Step>, step: Step)
    requires Inv(s) && Truthful(s, past) && Enabled(s, step)
    ensures Truthful(Apply(s, step), past + [step])
  {
    CallsStayTrue(s, past, step);
    FailuresStayTrue(s, past, step);
    var t := Apply(s, step);
    forall f: nat, r: nat | f < |t.flights| && r < |t.flights[f].rounds| ensures RoundTruth(t, past + [step], f, r) {
      RoundsStayTrue(s, past, step, f, r);
    }
  }

  lemma {:induction false} RunStaysTrue(s: Reloads, past: seq<Step>, steps: seq<Step>)
    requires Inv(s) && Truthful(s, past) && Legal(s, steps)
    ensures Inv(Run(s, steps)) && Truthful(Run(s, steps), past + steps)
    decreases |steps|
  {
    Regroup(past, steps);
    if steps != [] {
      StepKeepsInv(s, steps[0]);
      StepStaysTrue(s, past, steps[0]);
      RunStaysTrue(Apply(s, steps[0]), past + [steps[0]], steps[1..]);
    }
  }

  /** A reload of flight `f` began at a step no earlier than `at` and was reported as done after it. */
  ghost predicate ReloadedSince(steps: seq<Step>, f: nat, at: nat) {
    exists k :: at <= k < |steps| && (steps[k] == Request || steps[k] == Loop(f)) && EndedAs(steps, f, k, true)
  }

  ghost predicate EndsAsReported(steps: seq<Step>, call: Call) {
    && call.at < |steps| && steps[call.at] == Request
    && (call.outcome.Returned? ==>
          EndRound(call.flight, false) !in steps && ReloadedSince(steps, call.flight, call.at))
    && (call.outcome.Threw? ==> EndRound(call.flight, false) in steps)
  }

  lemma EndedCallIsTrue(s: Reloads, past: seq<Step>, c: nat)
    requires Inv(s) && Truthful(s, past) && c < |s.calls|
    ensures EndsAsReported(past, s.calls[c])
  {
    var call := s.calls[c];
    assert CallTruth(s, past, c);
    if !call.outcome.Waiting? {
      var r := |s.flights[call.flight].rounds| - 1;
      var round := s.flights[call.flight].rounds[r];
      assert round == LastRound(s.flights[call.flight]);
      assert RoundTruth(s, past, call.flight, r);
      assert EndedAs(past, call.flight, round.started, round.ended.value);
    }
  }

  lemma TraceIsTrue(steps: seq<Step>)
    requires Legal(IDLE, steps)
    ensures Inv(Run(IDLE, steps)) && Truthful(Run(IDLE, steps), steps)
  {
    Regroup([], steps);
    RunStaysTrue(IDLE, [], steps);
  }

  /** What a call gets, read from the steps alone: a call that returns normally comes before a reload that
      began after it and was reported as done, and none of its flight was reported as failed; a call that
      throws has seen such a report. */
  lemma CallsEndAsReported(steps: seq<Step>, c: nat)
    requires Legal(IDLE, steps) && c < |Run(IDLE, steps).calls|
    ensures EndsAsReported(steps, Run(IDLE, steps).calls[c])
  {
    TraceIsTrue(steps);
    EndedCallIsTrue(Run(IDLE, steps), steps, c);
  }

  // ---- the module variables, updated in place ----

  class ScheduleReloader {
    var reloadQueued: bool
    var reloadInFlight: Option<nat>
    var flights: seq<Flight>
    var calls: seq<Call>
    var now: nat
    ghost var roundsStarted: nat

    ghost function View(): Reloads
      reads this
    {
      Reloads(now, reloadQueued, reloadInFlight, flights, calls, roundsStarted)
    }

    ghost predicate Valid()
      reads this
    {
      Inv(View())
    }

    constructor ()
      ensures Valid() && View() == IDLE
    {
      reloadQueued, reloadInFlight, flights, calls, now, roundsStarted := false, None, [], [], 0, 0;
    }

    /** Up to the await: joins the flight, or opens one and starts its first round. */
    method ReloadSchedules() returns (c: nat)
      requires Valid()
      modifies this
      ensures Valid() && c == |old(calls)| && View() == Apply(old(View()), Request)
    {
      StepKeepsInv(View(), Request);
      c := |calls|;
      if reloadInFlight.Some? {
        reloadQueued := true;
        calls := calls + [Call(now, reloadInFlight.value, Waiting)];
      } else {
        OpenFlight();
        calls := calls + [Call(now, |flights| - 1, Waiting)];
      }
      now := now + 1;
    }

    /** The first round starts in the same stretch as the call. */
    method OpenFlight()
      modifies this
      ensures var s := old(View());
        View() == AddRound(s.(flights := s.flights + [Flight([], None)]), |s.flights|).(inFlight := Some(|s.flights|))
    {
      reloadQueued := false;
      roundsStarted := roundsStarted + 1;
      flights := flights + [Flight([], None)];
      flights := flights[|flights| - 1 := Flight([] + [Round(now, None)], None)];
      reloadInFlight := Some(|flights| - 1);
    }

    method ReloadEnds(f: nat, ok: bool)
      requires Valid() && Enabled(View(), EndRound(f, ok))
      modifies this
      ensures Valid() && View() == Apply(old(View()), EndRound(f, ok))
    {
      StepKeepsInv(View(), EndRound(f, ok));
      var rounds := flights[f].rounds;
      flights := flights[f := flights[f].(rounds := rounds[|rounds| - 1 := rounds[|rounds| - 1].(ended := Some(ok))])];
      now := now + 1;
    }

    /** The test of the loop, and the `finally` behind it. */
    method LoopGoesOn(f: nat)
      requires Valid() && Enabled(View(), Loop(f))
      modifies this
      ensures Valid() && View() == Apply(old(View()), Loop(f))
    {
      StepKeepsInv(View(), Loop(f));
      var ok := flights[f].rounds[|flights[f].rounds| - 1].ended.value;
      if ok && reloadQueued {
        reloadQueued := false;
        roundsStarted := roundsStarted + 1;
        flights := flights[f := flights[f].(rounds := flights[f].rounds + [Round(now, None)])];
      } else {
        reloadInFlight := None;
        flights := flights[f := flights[f].(settled := Some(ok))];
      }
      now := now + 1;
    }

    method CallerResumes(c: nat)
      requires Valid() && Enabled(View(), Resume(c))
      modifies this
      ensures Valid() && View() == Apply(old(View()), Resume(c))
    {
      StepKeepsInv(View(), Resume(c));
      var ok := flights[calls[c].flight].settled.value;
      calls := calls[c := calls[c].(outcome := if ok then Returned else Threw)];
      now := now + 1;
    }
  }
}
