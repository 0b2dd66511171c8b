/** The promise-chain lock: each caller waits for the gate of the previous caller and publishes its
    own. The run store, the Item Bus queue and the local model runtime are all serialised this way.

    A ticket is one call. Its operation loads the document, computes, and saves; between any two of
    its steps other tickets may step. A body that fails leaves without saving. The queue version
    also takes a file lock, which can time out, and passes nested calls straight through. */
module PromiseChain {
  import opened Common

  datatype Phase<+D> =
    | Waiting
    | Acquiring
    | Inside(depth: nat, snapshot: Option<D>, saved: bool)
    | Released(saved: bool)

  /** `previous` is what the chain variable held when the call was made. */
  datatype Ticket<!D> = Ticket(previous: Option<nat>, op: D -> D, phase: Phase<D>)

  /** `chain` is the chain variable: the gate of the latest caller. */
  datatype Chain<!D> = Chain(doc: D, chain: Option<nat>, tickets: seq<Ticket<D>>)

  datatype Step<!D> =
    | Submit(op: D -> D)
    | Admit(i: nat)
    | TakeFileLock(i: nat, acquired: bool)
    | Nest(i: nat)
    | Unnest(i: nat)
    | Load(i: nat)
    | Save(i: nat)
    | Leave(i: nat)

  function Initial<D>(doc: D): Chain<D> {
    Chain(doc, None, [])
  }

  predicate GateOpen<D>(c: Chain<D>, gate: Option<nat>) {
    gate.None? || (gate.value < |c.tickets| && c.tickets[gate.value].phase.Released?)
  }

  predicate IsInside<D>(c: Chain<D>, i: nat) {
    i < |c.tickets| && c.tickets[i].phase.Inside?
  }

  ghost predicate Enabled<D(!new)>(c: Chain<D>, step: Step<D>) {
    match step
    case Submit(_) => true
    case Admit(i) => i < |c.tickets| && c.tickets[i].phase.Waiting? && GateOpen(c, c.tickets[i].previous)
    case TakeFileLock(i, _) => i < |c.tickets| && c.tickets[i].phase.Acquiring?
    case Nest(i) => IsInside(c, i)
    case Unnest(i) => IsInside(c, i) && c.tickets[i].phase.depth > 0
    case Load(i) => IsInside(c, i) && c.tickets[i].phase.snapshot.None?
    case Save(i) => IsInside(c, i) && c.tickets[i].phase.snapshot.Some? && !c.tickets[i].phase.saved
    case Leave(i) => IsInside(c, i) && c.tickets[i].phase.depth == 0
  }

  function SetPhase<D>(c: Chain<D>, i: nat, phase: Phase<D>): Chain<D>
    requires i < |c.tickets|
  {
    c.(tickets := c.tickets[i := c.tickets[i].(phase := phase)])
  }

  ghost function Apply<D(!new)>(c: Chain<D>, step: Step<D>): Chain<D>
    requires Enabled(c, step)
  {
    match step
    case Submit(op) => c.(chain := Some(|c.tickets|), tickets := c.tickets + [Ticket(c.chain, op, Waiting)])
    case Admit(i) => SetPhase(c, i, Acquiring)
    case TakeFileLock(i, acquired) => SetPhase(c, i, if acquired then Inside(0, None, false) else Released(false))
    case Nest(i) => SetPhase(c, i, c.tickets[i].phase.(depth := c.tickets[i].phase.depth + 1))
    case Unnest(i) => SetPhase(c, i, c.tickets[i].phase.(depth := c.tickets[i].phase.depth - 1))
    case Load(i) => SetPhase(c, i, c.tickets[i].phase.(snapshot := Some(c.doc)))
    case Save(i) =>
      SetPhase(c, i, c.tickets[i].phase.(saved := true)).(doc := c.tickets[i].op(c.tickets[i].phase.snapshot.value))
    case Leave(i) => SetPhase(c, i, Released(c.tickets[i].phase.saved))
  }

  // ---- the sequential meaning ----

  predicate HasSaved<D>(t: Ticket<D>) {
    (t.phase.Inside? || t.phase.Released?) && t.phase.saved
  }

  /** The operations that saved, run one after another in submission order. */
  function Sequential<D>(doc: D, tickets: seq<Ticket<D>>): D
    decreases |tickets|
  {
    if tickets == [] then doc
    else
      var before := Sequential(doc, tickets[..|tickets| - 1]);
      var last := tickets[|tickets| - 1];
      if HasSaved(last) then last.op(before) else before
  }

  // ---- the invariant ----

  ghost predicate ChainInv<D>(c: Chain<D>) {
    && c.chain == (if c.tickets == [] then None else Some(|c.tickets| - 1))
    && (forall i :: 0 <= i < |c.tickets| ==> c.tickets[i].previous == if i == 0 then None else Some(i - 1))
    && (forall i, k :: 0 <= i < k < |c.tickets| && !c.tickets[i].phase.Released? ==> c.tickets[k].phase.Waiting?)
  }

  ghost predicate DocInv<D(!new)>(first: D, c: Chain<D>) {
    && c.doc == Sequential(first, c.tickets)
    && (forall i :: 0 <= i < |c.tickets| && c.tickets[i].phase.Inside? && c.tickets[i].phase.snapshot.Some? ==>
          c.tickets[i].phase.snapshot.value == Sequential(first, c.tickets[..i]))
    && (forall i :: 0 <= i < |c.tickets| && c.tickets[i].phase.Inside? && c.tickets[i].phase.saved ==>
          c.tickets[i].phase.snapshot.Some?)
  }

  /** A ticket that has not saved contributes nothing, and neither does a suffix of them. */
  lemma {:induction false} UnsavedSuffix<D>(doc: D, tickets: seq<Ticket<D>>, k: nat)
    requires k <= |tickets| && forall i :: k <= i < |tickets| ==> !HasSaved(tickets[i])
    ensures Sequential(doc, tickets) == Sequential(doc, tickets[..k])
    decreases |tickets|
  {
    if k < |tickets| {
      var n := |tickets| - 1;
      UnsavedSuffix(doc, tickets[..n], k);
      assert tickets[..n][..k] == tickets[..k];
    } else {
      assert tickets[..k] == tickets;
    }
  }

  /** The sequential meaning only depends on the operations and on which of them saved. */
  lemma {:induction false} SameSequential<D>(doc: D, a: seq<Ticket<D>>, b: seq<Ticket<D>>)
    requires |a| == |b|
    requires forall i :: 0 <= i < |a| ==> a[i].op == b[i].op && HasSaved(a[i]) == HasSaved(b[i])
    ensures Sequential(doc, a) == Sequential(doc, b)
    decreases |a|
  {
    if a != [] {
      SameSequential(doc, a[..|a| - 1], b[..|b| - 1]);
    }
  }

  lemma StepKeepsChain<D(!new)>(c: Chain<D>, step: Step<D>)
    requires ChainInv(c) && Enabled(c, step)
    ensures ChainInv(Apply(c, step))
  {
  }

  /** Steps that neither load nor save. */
  lemma OtherStepKeepsDoc<D(!new)>(first: D, c: Chain<D>, step: Step<D>)
    requires ChainInv(c) && DocInv(first, c) && Enabled(c, step) && !step.Load? && !step.Save? && !step.Submit?
    ensures DocInv(first, Apply(c, step))
  {
    var k := Apply(c, step);
    SameSequential(first, c.tickets, k.tickets);
    forall i | 0 <= i < |k.tickets| ensures Sequential(first, k.tickets[..i]) == Sequential(first, c.tickets[..i]) {
      SameSequential(first, c.tickets[..i], k.tickets[..i]);
    }
  }

  lemma SubmitKeepsDoc<D(!new)>(first: D, c: Chain<D>, op: D -> D)
    requires ChainInv(c) && DocInv(first, c)
    ensures DocInv(first, Apply(c, Submit(op)))
  {
    var k := Apply(c, Submit(op));
    assert k.tickets[..|c.tickets|] == c.tickets;
    forall i | 0 <= i < |c.tickets| ensures k.tickets[..i] == c.tickets[..i] {
    }
  }

  lemma LoadKeepsDoc<D(!new)>(first: D, c: Chain<D>, i: nat)
    requires ChainInv(c) && DocInv(first, c) && Enabled(c, Load(i))
    ensures DocInv(first, Apply(c, Load(i)))
  {
    var k := Apply(c, Load(i));
    UnsavedSuffix(first, c.tickets, i);
    SameSequential(first, c.tickets, k.tickets);
    forall m | 0 <= m < |k.tickets| ensures Sequential(first, k.tickets[..m]) == Sequential(first, c.tickets[..m]) {
      SameSequential(first, c.tickets[..m], k.tickets[..m]);
    }
  }

  /** Nothing is saved between a ticket's load and its own save. */
  lemma SnapshotIsCurrent<D(!new)>(first: D, c: Chain<D>, i: nat)
    requires ChainInv(c) && DocInv(first, c) && Enabled(c, Save(i))
    ensures c.tickets[i].phase.snapshot == Some(c.doc)
  {
    UnsavedSuffix(first, c.tickets, i);
  }

  lemma SaveKeepsDoc<D(!new)>(first: D, c: Chain<D>, i: nat)
    requires ChainInv(c) && DocInv(first, c) && Enabled(c, Save(i))
    ensures DocInv(first, Apply(c, Save(i)))
  {
    var k := Apply(c, Save(i));
    UnsavedSuffix(first, k.tickets, i + 1);
    assert k.tickets[..i + 1][..i] == k.tickets[..i] == c.tickets[..i];
    assert Sequential(first, k.tickets) == k.tickets[i].op(Sequential(first, c.tickets[..i]));
  }

  lemma StepKeepsInv<D(!new)>(first: D, c: Chain<D>, step: Step<D>)
    requires ChainInv(c) && DocInv(first, c) && Enabled(c, step)
    ensures ChainInv(Apply(c, step)) && DocInv(first, Apply(c, step))
  {
    StepKeepsChain(c, step);
    match step
    case Submit(op) => SubmitKeepsDoc(first, c, op);
    case Load(i) => LoadKeepsDoc(first, c, i);
    case Save(i) => SaveKeepsDoc(first, c, i);
    case _ => OtherStepKeepsDoc(first, c, step);
  }

  // ---- whole runs ----

  ghost predicate Legal<D(!new)>(c: Chain<D>, steps: seq<Step<D>>)
    decreases |steps|
  {
    steps == [] || (Enabled(c, steps[0]) && Legal(Apply(c, steps[0]), steps[1..]))
  }

  ghost function Outcome<D(!new)>(c: Chain<D>, steps: seq<Step<D>>): Chain<D>
    requires Legal(c, steps)
    decreases |steps|
  {
    if steps == [] then c else Outcome(Apply(c, steps[0]), steps[1..])
  }

  lemma {:induction false} RunKeepsInv<D(!new)>(first: D, c: Chain<D>, steps: seq<Step<D>>)
    requires ChainInv(c) && DocInv(first, c) && Legal(c, steps)
    ensures ChainInv(Outcome(c, steps)) && DocInv(first, Outcome(c, steps))
    decreases |steps|
  {
    if steps != [] {
      StepKeepsInv(first, c, steps[0]);
      RunKeepsInv(first, Apply(c, steps[0]), steps[1..]);
    }
  }

  /** Mutual exclusion in arrival order: whoever is past its gate comes after released tickets only. */
  lemma MutualExclusionInArrivalOrder<D(!new)>(first: D, steps: seq<Step<D>>)
    requires Legal(Initial(first), steps)
    ensures var c := Outcome(Initial(first), steps);
      && (forall i: nat, k: nat :: IsInside(c, i) && IsInside(c, k) ==> i == k)
      && (forall i, k :: 0 <= i < k < |c.tickets| && !c.tickets[k].phase.Waiting? ==> c.tickets[i].phase.Released?)
  {
    RunKeepsInv(first, Initial(first), steps);
  }

  /** However the operations interleave, at any moment the document is what the operations that
      have saved so far give when run one after another in submission order. */
  lemma InterleavingEqualsSequential<D(!new)>(first: D, steps: seq<Step<D>>)
    requires Legal(Initial(first), steps)
    ensures var c := Outcome(Initial(first), steps); c.doc == Sequential(first, c.tickets)
    ensures Outcome(Initial(first), steps).doc == Replay(first, steps, |Submitted(steps)|)
  {
    RunKeepsInv(first, Initial(first), steps);
    RunStaysTrue(Initial(first), [], steps);
    assert [] + steps == steps;
    var c := Outcome(Initial(first), steps);
    ReplayIsSequential(first, c, steps, |c.tickets|);
    assert c.tickets[..|c.tickets|] == c.tickets;
  }

  // ---- what the steps themselves say ----

  /** The operations of the calls made along a run, in the order of the calls. */
  ghost function Submitted<D(!new)>(steps: seq<Step<D>>): seq<D -> D>
    decreases |steps|
  {
    if steps == [] then []
    else
      var last := steps[|steps| - 1];
      Submitted(steps[..|steps| - 1]) + if last.Submit? then [last.op] else []
  }

  /** A step of ticket `i` itself. */
  predicate StepOf<D>(step: Step<D>, i: nat) {
    match step
    case Submit(_) => false
    case _ => step.i == i
  }

  /** What ticket `i` is, according to the steps taken so far. */
  ghost predicate TicketTruth<D(!new)>(c: Chain<D>, steps: seq<Step<D>>, i: nat)
    requires i < |c.tickets|
  {
    var phase := c.tickets[i].phase;
    && (HasSaved(c.tickets[i]) <==> Save(i) in steps)
    && (phase.Released? <==> Leave(i) in steps || TakeFileLock(i, false) in steps)
    && (phase.Inside? || Leave(i) in steps <==> TakeFileLock(i, true) in steps)
    && (phase.Inside? && phase.snapshot.Some? ==> Load(i) in steps)
  }

  /** The tickets are those of the calls made, and they are where their own steps have brought them. */
  ghost predicate Truthful<D(!new)>(c: Chain<D>, steps: seq<Step<D>>) {
    && |c.tickets| == |Submitted(steps)|
    && (forall i :: 0 <= i < |c.tickets| ==> c.tickets[i].op == Submitted(steps)[i])
    && (forall i: nat :: i < |c.tickets| ==> TicketTruth(c, steps, i))
    && (forall i: nat, k :: 0 <= k < |steps| && StepOf(steps[k], i) ==> i < |c.tickets|)
  }

  lemma TicketStaysTrue<D(!new)>(c: Chain<D>, steps: seq<Step<D>>, step: Step<D>, i: nat)
    requires i < |c.tickets| && TicketTruth(c, steps, i) && Enabled(c, step)
    ensures TicketTruth(Apply(c, step), steps + [step], i)
  {
    assert !StepOf(step, i) ==> Apply(c, step).tickets[i] == c.tickets[i];
  }

  lemma NewTicketIsTrue<D(!new)>(c: Chain<D>, steps: seq<Step<D>>, op: D -> D)
    requires Truthful(c, steps)
    ensures TicketTruth(Apply(c, Submit(op)), steps + [Submit(op)], |c.tickets|)
  {
    var n := |c.tickets|;
    forall s: Step<D> | StepOf(s, n) ensures s !in steps {
    }
    assert Save(n) !in steps && Leave(n) !in steps;
    assert TakeFileLock(n, true) !in steps && TakeFileLock(n, false) !in steps;
  }

  lemma StepStaysTrue<D(!new)>(c: Chain<D>, steps: seq<Step<D>>, step: Step<D>)
    requires Truthful(c, steps) && Enabled(c, step)
    ensures Truthful(Apply(c, step), steps + [step])
  {
    var k := Apply(c, step);
    assert (steps + [step])[..|steps|] == steps;
    forall i: nat | i < |k.tickets| ensures TicketTruth(k, steps + [step], i) {
      if i < |c.tickets| { TicketStaysTrue(c, steps, step, i); } else { NewTicketIsTrue(c, steps, step.op); }
    }
  }

  lemma {:induction false} RunStaysTrue<D(!new)>(c: Chain<D>, before: seq<Step<D>>, steps: seq<Step<D>>)
    requires Truthful(c, before) && Legal(c, steps)
    ensures Truthful(Outcome(c, steps), before + steps)
    decreases |steps|
  {
    Regroup(before, steps);
    if steps != [] {
      StepStaysTrue(c, before, steps[0]);
      RunStaysTrue(Apply(c, steps[0]), before + [steps[0]], steps[1..]);
    }
  }

  /** Replaying a run one call after another: every call that took the step of saving contributes. */
  ghost function Replay<D(!new)>(doc: D, steps: seq<Step<D>>, n: nat): D
    requires n <= |Submitted(steps)|
  {
    if n == 0 then doc
    else
      var before := Replay(doc, steps, n - 1);
      if Save(n - 1) in steps then Submitted(steps)[n - 1](before) else before
  }

  lemma {:induction false} ReplayIsSequential<D(!new)>(doc: D, c: Chain<D>, steps: seq<Step<D>>, n: nat)
    requires Truthful(c, steps) && n <= |c.tickets|
    ensures Sequential(doc, c.tickets[..n]) == Replay(doc, steps, n)
  {
    if n > 0 {
      ReplayIsSequential(doc, c, steps, n - 1);
      assert c.tickets[..n][..n - 1] == c.tickets[..n - 1];
      assert TicketTruth(c, steps, n - 1);
    }
  }

  /** One operation after another, none left out. */
  ghost function ApplyAll<D(!new)>(doc: D, ops: seq<D -> D>): D
    decreases |ops|
  {
    if ops == [] then doc else ops[|ops| - 1](ApplyAll(doc, ops[..|ops| - 1]))
  }

  lemma {:induction false} ReplayAll<D(!new)>(doc: D, steps: seq<Step<D>>, n: nat)
    requires n <= |Submitted(steps)| && forall i: nat :: i < n ==> Save(i) in steps
    ensures Replay(doc, steps, n) == ApplyAll(doc, Submitted(steps)[..n])
  {
    if n > 0 {
      ReplayAll(doc, steps, n - 1);
      assert Submitted(steps)[..n][..n - 1] == Submitted(steps)[..n - 1];
      assert Save(n - 1) in steps;
    }
  }

  /** Nothing is left out: once every call of a run has saved, whatever the interleaving, the document is
      what all the operations give one after another in the order of the calls. */
  lemma SavedRunsAreComplete<D(!new)>(first: D, steps: seq<Step<D>>)
    requires Legal(Initial(first), steps)
    requires forall i: nat :: i < |Submitted(steps)| ==> Save(i) in steps
    ensures Outcome(Initial(first), steps).doc == ApplyAll(first, Submitted(steps))
  {
    InterleavingEqualsSequential(first, steps);
    ReplayAll(first, steps, |Submitted(steps)|);
    assert Submitted(steps)[..|Submitted(steps)|] == Submitted(steps);
  }

  /** A call that is done without having saved was refused the file lock or left its body early. */
  lemma UnsavedWasRefusedOrFailed<D(!new)>(first: D, steps: seq<Step<D>>, i: nat)
    requires Legal(Initial(first), steps) && i < |Outcome(Initial(first), steps).tickets|
    ensures var c := Outcome(Initial(first), steps);
      && (c.tickets[i].phase.Released? && TakeFileLock(i, false) !in steps ==>
            TakeFileLock(i, true) in steps && Leave(i) in steps)
      && (TakeFileLock(i, true) in steps && Leave(i) !in steps ==> IsInside(c, i))
  {
    RunStaysTrue(Initial(first), [], steps);
    assert [] + steps == steps;
    assert TicketTruth(Outcome(Initial(first), steps), steps, i);
  }

  // ---- and such runs exist ----

  lemma {:induction false} RunsAppend<D(!new)>(c: Chain<D>, a: seq<Step<D>>, b: seq<Step<D>>)
    requires Legal(c, a) && Legal(Outcome(c, a), b)
    ensures Legal(c, a + b) && Outcome(c, a + b) == Outcome(Outcome(c, a), b)
    decreases |a|
  {
    if a == [] {
      assert a + b == b;
    } else {
      RunsAppend(Apply(c, a[0]), a[1..], b);
      assert (a + b)[0] == a[0] && (a + b)[1..] == a[1..] + b;
    }
  }

  lemma {:induction false} SubmittedAppend<D(!new)>(a: seq<Step<D>>, b: seq<Step<D>>)
    ensures Submitted(a + b) == Submitted(a) + Submitted(b)
    decreases |b|
  {
    if b == [] {
      assert a + b == a;
    } else {
      var n := |b| - 1;
      SubmittedAppend(a, b[..n]);
      assert (a + b)[..|a + b| - 1] == a + b[..n];
    }
  }

  /** One call from its beginning to its end. */
  function WholeCall<D>(i: nat, op: D -> D): seq<Step<D>> {
    [Submit(op), Admit(i), TakeFileLock(i, true), Load(i), Save(i), Leave(i)]
  }

  ghost predicate AllReleased<D>(c: Chain<D>) {
    forall i :: 0 <= i < |c.tickets| ==> c.tickets[i].phase.Released?
  }

  lemma WholeCallRuns<D(!new)>(c: Chain<D>, op: D -> D)
    requires ChainInv(c) && AllReleased(c)
    ensures var steps := WholeCall(|c.tickets|, op);
      Legal(c, steps) && ChainInv(Outcome(c, steps)) && AllReleased(Outcome(c, steps))
      && |Outcome(c, steps).tickets| == |c.tickets| + 1
  {
    var n := |c.tickets|;
    var c1 := Apply(c, Submit(op));
    var c2 := Apply(c1, Admit(n));
    var c3 := Apply(c2, TakeFileLock(n, true));
    var c4 := Apply(c3, Load(n));
    var c5 := Apply(c4, Save(n));
    var c6 := Apply(c5, Leave(n));
    var steps := WholeCall(n, op);
    assert steps[1..][1..] == steps[2..] && steps[2..][1..] == steps[3..] && steps[3..][1..] == steps[4..];
    assert steps[4..][1..] == steps[5..] && steps[5..][1..] == [];
    OneStep(c5, steps[5..]);
    OneStep(c4, steps[4..]);
    OneStep(c3, steps[3..]);
    OneStep(c2, steps[2..]);
    OneStep(c1, steps[1..]);
    assert forall i :: 0 <= i < n ==> c6.tickets[i] == c.tickets[i];
  }

  lemma OneStep<D(!new)>(c: Chain<D>, steps: seq<Step<D>>)
    requires steps != [] && Enabled(c, steps[0]) && Legal(Apply(c, steps[0]), steps[1..])
    ensures Legal(c, steps) && Outcome(c, steps) == Outcome(Apply(c, steps[0]), steps[1..])
  {
  }

  lemma {:induction false} NoCallsMade<D(!new)>(steps: seq<Step<D>>)
    requires forall k :: 0 <= k < |steps| ==> !steps[k].Submit?
    ensures Submitted(steps) == []
    decreases |steps|
  {
    if steps != [] { NoCallsMade(steps[..|steps| - 1]); }
  }

  lemma WholeCallSubmits<D(!new)>(i: nat, op: D -> D)
    ensures Submitted(WholeCall(i, op)) == [op] && Save(i) in WholeCall(i, op)
  {
    var steps := WholeCall(i, op);
    var call: seq<Step<D>> := [Submit(op)];
    assert steps == call + steps[1..];
    NoCallsMade(steps[1..]);
    SubmittedAppend(call, steps[1..]);
    assert call[..0] == [] && Submitted(call) == [] + [op];
    assert steps[4] == Save(i);
  }

  /** For any operations there is a run in which all of them are called and save. */
  lemma {:induction false} CompleteRunExists<D(!new)>(first: D, ops: seq<D -> D>) returns (steps: seq<Step<D>>)
    ensures Legal(Initial(first), steps) && Submitted(steps) == ops
    ensures forall i: nat :: i < |ops| ==> Save(i) in steps
    ensures var c := Outcome(Initial(first), steps); AllReleased(c) && ChainInv(c) && |c.tickets| == |ops|
    ensures Outcome(Initial(first), steps).doc == ApplyAll(first, ops)
    decreases |ops|
  {
    if ops == [] {
      steps := [];
    } else {
      var n := |ops| - 1;
      var before := CompleteRunExists(first, ops[..n]);
      steps := before + WholeCall(n, ops[n]);
      OneMoreCall(first, before, ops[n]);
      SavedRunsAreComplete(first, steps);
    }
  }

  lemma OneMoreCall<D(!new)>(first: D, before: seq<Step<D>>, op: D -> D)
    requires Legal(Initial(first), before)
    requires AllReleased(Outcome(Initial(first), before)) && ChainInv(Outcome(Initial(first), before))
    ensures var n := |Outcome(Initial(first), before).tickets|;
      var steps := before + WholeCall(n, op);
      && Legal(Initial(first), steps)
      && AllReleased(Outcome(Initial(first), steps)) && ChainInv(Outcome(Initial(first), steps))
      && |Outcome(Initial(first), steps).tickets| == n + 1
      && Submitted(steps) == Submitted(before) + [op] && Save(n) in steps
  {
    var c := Outcome(Initial(first), before);
    var call := WholeCall(|c.tickets|, op);
    WholeCallRuns(c, op);
    RunsAppend(Initial(first), before, call);
    SubmittedAppend(before, call);
    WholeCallSubmits(|c.tickets|, op);
  }

  /** No deadlock, nested calls and failing bodies included: while a ticket is unreleased, one of
      the tickets in the chain can step. */
  lemma NoDeadlock<D(!new)>(c: Chain<D>, i: nat)
    requires ChainInv(c) && i < |c.tickets| && !c.tickets[i].phase.Released?
    ensures exists step: Step<D> :: !step.Submit? && !step.Nest? && Enabled(c, step)
  {
    var first := FirstUnreleased(c, i);
    var step := match c.tickets[first].phase
      case Waiting => Admit(first)
      case Acquiring => TakeFileLock(first, true)
      case Inside(depth, _, _) => if depth > 0 then Unnest(first) else Leave(first)
      case Released(_) => Leave(first);
    assert Enabled(c, step);
  }

  lemma {:induction false} FirstUnreleased<D>(c: Chain<D>, i: nat) returns (first: nat)
    requires i < |c.tickets| && !c.tickets[i].phase.Released?
    ensures first <= i && !c.tickets[first].phase.Released?
    ensures forall k :: 0 <= k < first ==> c.tickets[k].phase.Released?
  {
    first := i;
    if k :| 0 <= k < i && !c.tickets[k].phase.Released? {
      first := FirstUnreleased(c, k);
    }
  }

  /** A nested call passes straight through: it changes nothing but that its caller stays inside until it is
      back, and nobody else gets in meanwhile. */
  lemma NestedCallsHoldTheGate<D(!new)>(c: Chain<D>, i: nat)
    requires ChainInv(c) && IsInside(c, i)
    ensures var nested := Apply(c, Nest(i));
      && nested.doc == c.doc && |nested.tickets| == |c.tickets| && IsInside(nested, i)
      && !Enabled(nested, Leave(i)) && Enabled(nested, Unnest(i)) && Apply(nested, Unnest(i)) == c
      && forall k :: 0 <= k < |c.tickets| && k != i ==> nested.tickets[k] == c.tickets[k] && !Enabled(nested, Admit(k))
  {
    var nested := Apply(c, Nest(i));
    assert Apply(nested, Unnest(i)).tickets[i] == c.tickets[i];
    assert Apply(nested, Unnest(i)).tickets == c.tickets;
  }

  /** Why a nested call must pass straight through: one that queued behind its own caller could
      never be admitted while that caller is inside, and the caller would be waiting for it. */
  lemma NestedTicketWouldWait<D(!new)>(c: Chain<D>, i: nat, op: D -> D, steps: seq<Step<D>>)
    requires ChainInv(c) && IsInside(c, i)
    requires var queued := Apply(c, Submit(op));
      Legal(queued, steps) && forall step :: step in steps ==> step != Leave(i)
    ensures var end := Outcome(Apply(c, Submit(op)), steps);
      |c.tickets| < |end.tickets| && end.tickets[|c.tickets|].phase.Waiting?
  {
    StuckBehind(Apply(c, Submit(op)), i, |c.tickets|, steps);
  }

  lemma {:induction false} StuckBehind<D(!new)>(c: Chain<D>, i: nat, n: nat, steps: seq<Step<D>>)
    requires ChainInv(c) && IsInside(c, i) && i < n < |c.tickets|
    requires Legal(c, steps) && forall step :: step in steps ==> step != Leave(i)
    ensures n < |Outcome(c, steps).tickets| && Outcome(c, steps).tickets[n].phase.Waiting?
    decreases |steps|
  {
    if steps != [] {
      assert steps[0] in steps;
      StepKeepsChain(c, steps[0]);
      assert forall step :: step in steps[1..] ==> step in steps;
      StuckBehind(Apply(c, steps[0]), i, n, steps[1..]);
    }
  }

  // ---- the chain variable and the document, updated in place ----

  class ChainLock<D(!new)> {
    var doc: D
    var chain: Option<nat>
    var tickets: seq<Ticket<D>>
    ghost const first: D

    ghost function View(): Chain<D>
      reads this
    {
      Chain(doc, chain, tickets)
    }

    ghost predicate Valid()
      reads this
    {
      ChainInv(View()) && DocInv(first, View())
    }

    constructor (doc: D)
      ensures Valid() && View() == Initial(doc) && first == doc
    {
      this.doc, this.first, chain, tickets := doc, doc, None, [];
    }

    method Enter(op: D -> D) returns (i: nat)
      requires Valid()
      modifies this
      ensures Valid() && View() == Apply(old(View()), Submit(op)) && i == |old(tickets)|
      ensures tickets == old(tickets) + [Ticket(if i == 0 then None else Some(i - 1), op, Waiting)]
    {
      StepKeepsInv(first, View(), Submit(op));
      i := |tickets|;
      var previous := chain;
      chain := Some(i);
      tickets := tickets + [Ticket(previous, op, Waiting)];
    }

    method PreviousGateOpens(i: nat)
      requires Valid() && Enabled(View(), Admit(i))
      modifies this`tickets
      ensures Valid() && View() == Apply(old(View()), Admit(i))
      ensures Enabled(View(), TakeFileLock(i, true)) && Enabled(View(), TakeFileLock(i, false))
    {
      StepKeepsInv(first, View(), Admit(i));
      tickets := tickets[i := tickets[i].(phase := Acquiring)];
    }

    /** Failing to get the file lock within the deadline throws, and the `finally` opens the gate. */
    method AcquireFileLock(i: nat, acquired: bool)
      requires Valid() && Enabled(View(), TakeFileLock(i, acquired))
      modifies this`tickets
      ensures Valid() && View() == Apply(old(View()), TakeFileLock(i, acquired))
      ensures acquired ==> IsInside(View(), i) && Enabled(View(), Load(i)) && !HasSaved(tickets[i])
      ensures !acquired ==> tickets[i].phase == Released(false)
    {
      StepKeepsInv(first, View(), TakeFileLock(i, acquired));
      tickets := tickets[i := tickets[i].(phase := if acquired then Inside(0, None, false) else Released(false))];
    }

    method LoadDocument(i: nat)
      requires Valid() && Enabled(View(), Load(i))
      modifies this`tickets
      ensures Valid() && View() == Apply(old(View()), Load(i))
      ensures IsInside(View(), i) && tickets[i].phase.snapshot == Some(doc)
    {
      StepKeepsInv(first, View(), Load(i));
      tickets := tickets[i := tickets[i].(phase := tickets[i].phase.(snapshot := Some(doc)))];
    }

    method SaveDocument(i: nat)
      requires Valid() && Enabled(View(), Save(i))
      modifies this`tickets, this`doc
      ensures Valid() && View() == Apply(old(View()), Save(i))
      ensures IsInside(View(), i) && HasSaved(tickets[i]) && doc == tickets[i].op(old(doc))
    {
      StepKeepsInv(first, View(), Save(i));
      SnapshotIsCurrent(first, View(), i);
      doc := tickets[i].op(tickets[i].phase.snapshot.value);
      tickets := tickets[i := tickets[i].(phase := tickets[i].phase.(saved := true))];
    }

    /** The `finally` of the outermost body, after success or failure alike. */
    method OpenGate(i: nat)
      requires Valid() && Enabled(View(), Leave(i))
      modifies this`tickets
      ensures Valid() && View() == Apply(old(View()), Leave(i))
      ensures tickets[i].phase.Released? && HasSaved(tickets[i]) == old(HasSaved(tickets[i]))
    {
      StepKeepsInv(first, View(), Leave(i));
      tickets := tickets[i := tickets[i].(phase := Released(tickets[i].phase.saved))];
    }
  }
}
