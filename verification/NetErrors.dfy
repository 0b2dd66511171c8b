/** Deciding whether a failed request is worth another attempt: a search through the graph of causes
    and child errors, which may be shared and cyclic. */
module NetErrors {
  import opened Common

  /** What a cause or a child can be: any thrown value, and errors have an identity. */
  datatype Value = Undefined | ErrorAt(id: nat) | Other(text: string)

  /** `code` is nothing when missing or not a string, `children` is empty when not an array. */
  datatype ErrorNode = ErrorNode(marked: bool, code: Option<string>, name: string, children: seq<Value>, cause: Value)

  type Graph = map<nat, ErrorNode>

  const TRANSIENT_CODES: set<string> := {
    "UND_ERR_CONNECT_TIMEOUT", "UND_ERR_SOCKET", "UND_ERR_HEADERS_TIMEOUT", "UND_ERR_BODY_TIMEOUT",
    "ETIMEDOUT", "ECONNRESET", "ECONNREFUSED", "ECONNABORTED", "EPIPE", "EAI_AGAIN", "ENOTFOUND",
    "ENETUNREACH", "ENETDOWN", "EHOSTUNREACH", "EHOSTDOWN", "ERR_SOCKET_CONNECTION_TIMEOUT"}

  const TRANSIENT_NAMES: set<string> := {"TimeoutError", "ConnectTimeoutError", "SocketError", "AbortError"}

  function CodeOf(e: ErrorNode): Option<string> {
    if e.code.Some? && e.code.value != "" then e.code else None
  }

  predicate LooksTransient(e: ErrorNode) {
    e.marked || (CodeOf(e).Some? && CodeOf(e).value in TRANSIENT_CODES) || e.name in TRANSIENT_NAMES
  }

  // ---- reachability ----

  predicate Known(g: Graph, v: Value) { v.ErrorAt? ==> v.id in g }

  /** Every error that is mentioned exists. */
  predicate Closed(g: Graph) {
    forall a :: a in g ==> Known(g, g[a].cause) && forall v :: v in g[a].children ==> Known(g, v)
  }

  predicate Edge(g: Graph, a: nat, b: nat) {
    a in g && b in g && (ErrorAt(b) in g[a].children || g[a].cause == ErrorAt(b))
  }

  /** A walk along child and cause edges through errors only. */
  predicate Walk(g: Graph, path: seq<nat>) {
    path != [] && path[0] in g && forall i :: 0 < i < |path| ==> Edge(g, path[i - 1], path[i])
  }

  ghost predicate Reaches(g: Graph, a: nat, b: nat) {
    exists path :: Walk(g, path) && path[0] == a && path[|path| - 1] == b
  }

  /** Some error reachable from the value looks transient. */
  ghost predicate Transient(g: Graph, v: Value) {
    v.ErrorAt? && exists b :: b in g && LooksTransient(g[b]) && Reaches(g, v.id, b)
  }

  lemma ReachesItself(g: Graph, a: nat)
    requires a in g
    ensures Reaches(g, a, a)
  {
    assert Walk(g, [a]);
  }

  lemma ReachesFurther(g: Graph, a: nat, b: nat, c: nat)
    requires Reaches(g, a, b) && Edge(g, b, c)
    ensures Reaches(g, a, c)
  {
    var path :| Walk(g, path) && path[0] == a && path[|path| - 1] == b;
    assert Walk(g, path + [c]);
    assert (path + [c])[0] == a;
  }

  ghost predicate EdgeClosed(g: Graph, s: set<nat>) {
    forall a, b :: a in s && Edge(g, a, b) ==> b in s
  }

  lemma {:induction false} WalkStays(g: Graph, s: set<nat>, path: seq<nat>)
    requires EdgeClosed(g, s) && Walk(g, path) && path[0] in s
    ensures path[|path| - 1] in s
    decreases |path|
  {
    if |path| > 1 {
      var init := path[..|path| - 1];
      assert Walk(g, init);
      WalkStays(g, s, init);
      assert Edge(g, path[|path| - 2], path[|path| - 1]);
    }
  }

  /** What is reachable from a set with no edges out of it lies in the set. */
  lemma ReachStays(g: Graph, s: set<nat>, a: nat)
    requires EdgeClosed(g, s) && a in s
    ensures forall b :: Reaches(g, a, b) ==> b in s
  {
    forall b | Reaches(g, a, b) ensures b in s {
      var path :| Walk(g, path) && path[0] == a && path[|path| - 1] == b;
      WalkStays(g, s, path);
    }
  }

  // ---- the search ----

  function IdsIn(queue: seq<Value>): set<nat> { set v | v in queue && v.ErrorAt? :: v.id }

  /** What has been seen or waits came from the start, and nothing seen points past them. */
  ghost predicate SearchInv(g: Graph, root: nat, waiting: set<nat>, seen: set<nat>) {
    && root in waiting + seen
    && (forall b :: b in waiting + seen ==> b in g && Reaches(g, root, b))
    && (forall a :: a in seen ==> a in g && !LooksTransient(g[a]))
    && (forall a, b :: a in seen && Edge(g, a, b) ==> b in waiting + seen)
  }

  /** The errors that one error points to. */
  function Targets(e: ErrorNode): set<nat> {
    IdsIn(e.children) + IdsIn([e.cause])
  }

  lemma TargetsAreEdges(g: Graph, a: nat)
    requires Closed(g) && a in g
    ensures forall b :: b in Targets(g[a]) <==> Edge(g, a, b)
  {
    forall b ensures b in Targets(g[a]) <==> Edge(g, a, b) {
      if b in IdsIn(g[a].children) {
        assert ErrorAt(b) in g[a].children && Known(g, ErrorAt(b));
      } else if b in IdsIn([g[a].cause]) {
        assert g[a].cause == ErrorAt(b) && Known(g, ErrorAt(b));
      }
    }
  }

  lemma IdsAppend(p: seq<Value>, q: seq<Value>)
    ensures IdsIn(p + q) == IdsIn(p) + IdsIn(q)
  {
    forall v ensures v in p + q <==> v in p || v in q {
    }
    assert forall b :: b in IdsIn(p + q) <==> ErrorAt(b) in p + q;
    assert forall b :: b in IdsIn(p) <==> ErrorAt(b) in p;
    assert forall b :: b in IdsIn(q) <==> ErrorAt(b) in q;
  }

  lemma PopIds(queue: seq<Value>)
    requires queue != []
    ensures IdsIn(queue) == IdsIn(queue[1..]) + if queue[0].ErrorAt? then {queue[0].id} else {}
  {
    assert queue == [queue[0]] + queue[1..];
    IdsAppend([queue[0]], queue[1..]);
  }

  lemma PushIds(queue: seq<Value>, e: ErrorNode)
    ensures IdsIn(queue + e.children + if e.cause == Undefined then [] else [e.cause]) == IdsIn(queue) + Targets(e)
    ensures e.cause == Undefined ==> IdsIn(queue + e.children) == IdsIn(queue) + Targets(e)
  {
    IdsAppend(queue, e.children);
    IdsAppend(queue + e.children, [e.cause]);
    assert queue + e.children + [] == queue + e.children;
  }

  lemma SkipKeepsInv(g: Graph, root: nat, waiting: set<nat>, rest: set<nat>, seen: set<nat>, v: Value)
    requires SearchInv(g, root, waiting, seen) && waiting == rest + (if v.ErrorAt? then {v.id} else {})
    requires v.ErrorAt? ==> v.id in seen
    ensures SearchInv(g, root, rest, seen)
  {
    assert waiting + seen == rest + seen;
  }

  lemma VisitKeepsInv(g: Graph, root: nat, waiting: set<nat>, rest: set<nat>, seen: set<nat>, a: nat)
    requires Closed(g) && SearchInv(g, root, waiting, seen)
    requires waiting == rest + {a} && a in g && !LooksTransient(g[a])
    ensures SearchInv(g, root, rest + Targets(g[a]), seen + {a})
  {
    TargetsAreEdges(g, a);
    forall b | b in Targets(g[a]) ensures Reaches(g, root, b) {
      ReachesFurther(g, root, a, b);
    }
  }

  /** Terminates on every graph: each round visits a new error or shortens the queue. */
  method IsTransientFetchFailure(g: Graph, err: Value) returns (transient: bool)
    requires Closed(g) && Known(g, err)
    ensures transient <==> Transient(g, err)
  {
    if !err.ErrorAt? {
      return false;
    }
    var queue: seq<Value>, seen: set<nat> := [err], {};
    ReachesItself(g, err.id);
    assert IdsIn([err]) == {err.id};
    while |queue| > 0
      invariant SearchInv(g, err.id, IdsIn(queue), seen)
      decreases g.Keys - seen, |queue|
    {
      var current := queue[0];
      PopIds(queue);
      ghost var waiting := IdsIn(queue);
      queue := queue[1..];
      if !current.ErrorAt? || current.id in seen {
        SkipKeepsInv(g, err.id, waiting, IdsIn(queue), seen, current);
        continue;
      }
      var e := g[current.id];
      if e.marked {
        return true;
      }
      var code := CodeOf(e);
      if code.Some? && code.value in TRANSIENT_CODES {
        return true;
      }
      if e.name in TRANSIENT_NAMES {
        return true;
      }
      VisitKeepsInv(g, err.id, waiting, IdsIn(queue), seen, current.id);
      PushIds(queue, e);
      seen := seen + {current.id};
      queue := queue + e.children;
      if e.cause != Undefined {
        queue := queue + [e.cause];
      }
    }
    ReachStays(g, seen, err.id);
    return false;
  }

  // ---- the verdict, one error at a time ----

  /** In plain terms, for an error by itself. */
  lemma LooksTransientIff(e: ErrorNode)
    ensures LooksTransient(e) <==>
      e.marked || (exists code :: e.code == Some(code) && code in TRANSIENT_CODES) || e.name in TRANSIENT_NAMES
  {
  }

  lemma ReachesOnward(g: Graph, a: nat, c: nat) returns (b: nat)
    requires a != c && Reaches(g, a, c)
    ensures Edge(g, a, b) && Reaches(g, b, c)
  {
    var path :| Walk(g, path) && path[0] == a && path[|path| - 1] == c;
    b := path[1];
    var rest := path[1..];
    assert Edge(g, path[0], path[1]);
    assert forall i :: 0 < i < |rest| ==> Edge(g, path[i], path[i + 1]);
    assert Walk(g, rest) && rest[0] == b && rest[|rest| - 1] == c;
  }

  /** An error is transient exactly if it looks so itself, or its cause is, or one of its children is. */
  lemma VerdictRecurrence(g: Graph, a: nat)
    requires Closed(g) && a in g
    ensures Transient(g, ErrorAt(a)) <==>
      LooksTransient(g[a]) || Transient(g, g[a].cause) || exists v :: v in g[a].children && Transient(g, v)
  {
    if Transient(g, ErrorAt(a)) && !LooksTransient(g[a]) {
      var c :| c in g && LooksTransient(g[c]) && Reaches(g, a, c);
      var b := ReachesOnward(g, a, c);
      assert Transient(g, ErrorAt(b));
    }
    if LooksTransient(g[a]) { ReachesItself(g, a); }
    if Transient(g, g[a].cause) { EdgePassesVerdict(g, a, g[a].cause); }
    forall v | v in g[a].children && Transient(g, v) ensures Transient(g, ErrorAt(a)) {
      EdgePassesVerdict(g, a, v);
    }
  }

  lemma EdgePassesVerdict(g: Graph, a: nat, v: Value)
    requires Closed(g) && a in g && (v == g[a].cause || v in g[a].children) && Transient(g, v)
    ensures Transient(g, ErrorAt(a))
  {
    var c :| c in g && LooksTransient(g[c]) && Reaches(g, v.id, c);
    assert Known(g, v) && Edge(g, a, v.id);
    ReachesBefore(g, a, v.id, c);
  }

  // ---- wrapping and marking ----

  /** The error thrown in place of another: its context in the message, the original as its cause. */
  function Wrapper(err: Value): ErrorNode { ErrorNode(false, None, "Error", [], err) }

  /** Wrapping keeps the verdict, so whoever classifies further up still sees the real failure; and
      it changes no other verdict. */
  lemma WrappingKeepsVerdict(g: Graph, err: Value, id: nat)
    requires Closed(g) && Known(g, err) && id !in g
    ensures Transient(g[id := Wrapper(err)], ErrorAt(id)) <==> Transient(g, err)
    ensures forall v :: Known(g, v) ==> (Transient(g[id := Wrapper(err)], v) <==> Transient(g, v))
  {
    var w := g[id := Wrapper(err)];
    forall v | Known(g, v) ensures Transient(w, v) <==> Transient(g, v) {
      if v.ErrorAt? { ExtensionKeepsVerdict(g, w, v.id); }
    }
    WrapperPassesOn(g, err, id);
  }

  lemma WrapperPassesOn(g: Graph, err: Value, id: nat)
    requires Known(g, err) && id !in g
    ensures var w := g[id := Wrapper(err)]; Transient(w, ErrorAt(id)) <==> Transient(w, err)
  {
    var w := g[id := Wrapper(err)];
    if Transient(w, err) {
      var b :| b in w && LooksTransient(w[b]) && Reaches(w, err.id, b);
      assert w[id].cause == err && Edge(w, id, err.id);
      ReachesBefore(w, id, err.id, b);
    }
    if Transient(w, ErrorAt(id)) {
      var b :| b in w && LooksTransient(w[b]) && Reaches(w, id, b);
      WrapperLooksPlain(err);
      assert w[id] == Wrapper(err);
      WrapperLeadsTo(g, err, id, b);
    }
  }

  lemma WrapperLooksPlain(err: Value)
    ensures !LooksTransient(Wrapper(err))
  {
  }

  lemma WrapperLeadsTo(g: Graph, err: Value, id: nat, b: nat)
    requires id !in g && b != id && Reaches(g[id := Wrapper(err)], id, b)
    ensures err.ErrorAt? && Reaches(g[id := Wrapper(err)], err.id, b)
  {
    var w := g[id := Wrapper(err)];
    var path :| Walk(w, path) && path[0] == id && path[|path| - 1] == b;
    var rest := path[1..];
    assert Edge(w, path[0], path[1]);
    assert w[id] == Wrapper(err) && err == ErrorAt(path[1]);
    assert forall i :: 0 < i < |rest| ==> Edge(w, path[i], path[i + 1]);
    assert Walk(w, rest) && rest[0] == err.id && rest[|rest| - 1] == b;
  }

  lemma ExtensionKeepsVerdict(g: Graph, w: Graph, a: nat)
    requires Closed(g) && a in g && (forall x :: x in g ==> x in w && w[x] == g[x])
    ensures Transient(w, ErrorAt(a)) <==> Transient(g, ErrorAt(a))
  {
    ExtensionKeepsReach(g, w, a);
  }

  lemma ReachesBefore(g: Graph, a: nat, b: nat, c: nat)
    requires Edge(g, a, b) && Reaches(g, b, c)
    ensures Reaches(g, a, c)
  {
    var path :| Walk(g, path) && path[0] == b && path[|path| - 1] == c;
    var longer := [a] + path;
    assert forall i :: 0 < i < |longer| ==> longer[i] == path[i - 1];
    assert Walk(g, longer);
    assert longer[0] == a;
  }

  /** Errors that nothing known refers to do not change what the known ones reach. */
  lemma ExtensionKeepsReach(g: Graph, w: Graph, a: nat)
    requires Closed(g) && a in g && (forall x :: x in g ==> x in w && w[x] == g[x])
    ensures forall b :: Reaches(w, a, b) <==> Reaches(g, a, b)
    ensures forall b :: Reaches(w, a, b) ==> b in g
  {
    forall x, y ensures x in g ==> (Edge(w, x, y) <==> Edge(g, x, y)) {
      if x in g && Edge(w, x, y) { assert Known(g, ErrorAt(y)); }
    }
    assert EdgeClosed(w, g.Keys);
    ReachStays(w, g.Keys, a);
    forall b | Reaches(w, a, b) ensures Reaches(g, a, b) {
      var path :| Walk(w, path) && path[0] == a && path[|path| - 1] == b;
      WalkInside(g, w, path);
    }
    forall b | Reaches(g, a, b) ensures Reaches(w, a, b) {
      var path :| Walk(g, path) && path[0] == a && path[|path| - 1] == b;
      assert Walk(w, path);
    }
  }

  lemma {:induction false} WalkInside(g: Graph, w: Graph, path: seq<nat>)
    requires forall x, y :: x in g ==> (Edge(w, x, y) <==> Edge(g, x, y))
    requires Walk(w, path) && path[0] in g
    ensures Walk(g, path) && path[|path| - 1] in g
    decreases |path|
  {
    if |path| > 1 {
      var init := path[..|path| - 1];
      assert Walk(w, init);
      WalkInside(g, w, init);
      assert Edge(w, path[|path| - 2], path[|path| - 1]);
      assert forall i :: 0 < i < |init| ==> Edge(g, init[i - 1], init[i]);
    }
  }

  /** Marking one error makes exactly the errors that reach it transient, besides those that were. */
  lemma MarkingReachesUpwards(g: Graph, marked: nat, v: Value)
    requires Closed(g) && Known(g, v) && marked in g
    ensures Transient(g[marked := g[marked].(marked := true)], v) <==>
      Transient(g, v) || (v.ErrorAt? && Reaches(g, v.id, marked))
  {
    var m := g[marked := g[marked].(marked := true)];
    assert forall x, y :: Edge(g, x, y) <==> Edge(m, x, y);
    assert forall path :: Walk(g, path) <==> Walk(m, path);
    assert forall x, y :: Reaches(g, x, y) <==> Reaches(m, x, y);
    if Transient(m, v) {
      var b :| b in m && LooksTransient(m[b]) && Reaches(m, v.id, b);
      assert b == marked || LooksTransient(g[b]);
    }
    if Transient(g, v) {
      var b :| b in g && LooksTransient(g[b]) && Reaches(g, v.id, b);
      assert LooksTransient(m[b]);
    }
    if v.ErrorAt? && Reaches(g, v.id, marked) {
      assert LooksTransient(m[marked]);
    }
  }
}
