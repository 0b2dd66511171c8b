/** The check of worker API routes at load time, and its agreement with the router the routes are
    later added to. */
module RouteValidation {
  import opened Common
  import opened Routing

  // ---- patterns up to parameter names ----

  function Slot(part: string): Option<string>
    requires PlainPart(part)
  {
    if part[0] == ':' then None else Some(part)
  }

  function Slots(path: string): seq<Option<string>> {
    var parts := SplitPath(path);
    seq(|parts|, i requires 0 <= i < |parts| => assert PlainPart(parts[i]); Slot(parts[i]))
  }

  /** The same method and, part by part, the same literal or a parameter on both sides. */
  predicate SamePattern(a: RouteSpec, b: RouteSpec) {
    Upper(a.verb) == Upper(b.verb) && Slots(a.path) == Slots(b.path)
  }

  function AdminToken(part: string): string
    requires PlainPart(part)
  {
    if part[0] == ':' then ":" else part
  }

  function AdminTokens(path: string): (tokens: seq<string>)
    ensures PlainParts(tokens)
  {
    var parts := SplitPath(path);
    seq(|parts|, i requires 0 <= i < |parts| => assert PlainPart(parts[i]); AdminToken(parts[i]))
  }

  function AdminRoutePatternKey(spec: RouteSpec): string {
    Upper(spec.verb) + " " + Join(AdminTokens(spec.path))
  }

  function RouterTokens(path: string): seq<string> {
    Tokens(Compile(SplitPath(path)), RouterToken)
  }

  lemma TokensDetermineSlots(p: string, q: string)
    requires PlainPart(p) && PlainPart(q)
    ensures Slot(p) == Slot(q) <==> AdminToken(p) == AdminToken(q)
    ensures Slot(p) == Slot(q) <==> RouterToken(CompileSegment(p)) == RouterToken(CompileSegment(q))
    ensures PlainPart(RouterToken(CompileSegment(p)))
  {
    assert ("L:" + p)[2..] == p && ("L:" + q)[2..] == q;
  }

  lemma PathKeysDetermineSlots(a: string, b: string)
    ensures Join(AdminTokens(a)) == Join(AdminTokens(b)) <==> Slots(a) == Slots(b)
    ensures Join(RouterTokens(a)) == Join(RouterTokens(b)) <==> Slots(a) == Slots(b)
  {
    var ps, qs := SplitPath(a), SplitPath(b);
    forall i | 0 <= i < |ps| ensures PlainPart(RouterTokens(a)[i]) {
      TokensDetermineSlots(ps[i], ps[i]);
    }
    forall i | 0 <= i < |qs| ensures PlainPart(RouterTokens(b)[i]) {
      TokensDetermineSlots(qs[i], qs[i]);
    }
    JoinInjective(AdminTokens(a), AdminTokens(b));
    JoinInjective(RouterTokens(a), RouterTokens(b));
    if |ps| == |qs| {
      forall i | 0 <= i < |ps|
        ensures Slots(a)[i] == Slots(b)[i] <==> AdminTokens(a)[i] == AdminTokens(b)[i]
        ensures Slots(a)[i] == Slots(b)[i] <==> RouterTokens(a)[i] == RouterTokens(b)[i]
      {
        TokensDetermineSlots(ps[i], qs[i]);
      }
      Pointwise(Slots(a), Slots(b), AdminTokens(a), AdminTokens(b));
      Pointwise(Slots(a), Slots(b), RouterTokens(a), RouterTokens(b));
    }
  }

  lemma Pointwise<S, T>(a: seq<S>, b: seq<S>, c: seq<T>, d: seq<T>)
    requires |a| == |b| == |c| == |d|
    requires forall i :: 0 <= i < |a| ==> (a[i] == b[i] <==> c[i] == d[i])
    ensures a == b <==> c == d
  {
  }

  // ---- when keys collide ----

  /** `m2` is `m1`, a separator and more, and `k1` makes up for it. */
  predicate Clash(m1: string, k1: string, m2: string, k2: string, sep: char) {
    VerbExtends(m1, m2, sep) && k1 == m2[|m1| + 1..] + [sep] + k2
  }

  predicate VerbExtends(m1: string, m2: string, sep: char) {
    m1 < m2 && m2[|m1|] == sep
  }

  lemma KeySplitShorter(m1: string, k1: string, m2: string, k2: string, sep: char)
    requires |m1| < |m2|
    ensures m1 + [sep] + k1 == m2 + [sep] + k2 <==> Clash(m1, k1, m2, k2, sep)
  {
    var a, b := m1 + [sep] + k1, m2 + [sep] + k2;
    assert a[..|m1|] == m1 && b[..|m1|] == m2[..|m1|];
    assert a[|m1|] == sep && b[|m1|] == m2[|m1|];
    assert a[|m1| + 1..] == k1 && b[|m1| + 1..] == m2[|m1| + 1..] + [sep] + k2;
    assert a == a[..|m1|] + [a[|m1|]] + a[|m1| + 1..];
    assert b == b[..|m1|] + [b[|m1|]] + b[|m1| + 1..];
  }

  lemma KeySplit(m1: string, k1: string, m2: string, k2: string, sep: char)
    ensures m1 + [sep] + k1 == m2 + [sep] + k2 <==>
      (m1 == m2 && k1 == k2) || Clash(m1, k1, m2, k2, sep) || Clash(m2, k2, m1, k1, sep)
  {
    if |m1| < |m2| {
      KeySplitShorter(m1, k1, m2, k2, sep);
    } else if |m2| < |m1| {
      KeySplitShorter(m2, k2, m1, k1, sep);
    } else {
      var a, b := m1 + [sep] + k1, m2 + [sep] + k2;
      assert a[..|m1|] == m1 && b[..|m1|] == m2;
      assert a[|m1| + 1..] == k1 && b[|m1| + 1..] == k2;
    }
  }

  predicate RouterClash(a: RouteSpec, b: RouteSpec) {
    Clash(Upper(a.verb), Join(RouterTokens(a.path)), Upper(b.verb), Join(RouterTokens(b.path)), ':')
  }

  predicate AdminClash(a: RouteSpec, b: RouteSpec) {
    Clash(Upper(a.verb), Join(AdminTokens(a.path)), Upper(b.verb), Join(AdminTokens(b.path)), ' ')
  }

  /** Exactly when the router takes two routes for duplicates: the same pattern, or a method that
      extends the other by a colon where the other's pattern continues with the rest. */
  lemma RouterDuplicateIff(a: RouteSpec, b: RouteSpec)
    ensures KeyOf(CompiledRoute(a)) == KeyOf(CompiledRoute(b)) <==>
      SamePattern(a, b) || RouterClash(a, b) || RouterClash(b, a)
  {
    KeySplit(Upper(a.verb), Join(RouterTokens(a.path)), Upper(b.verb), Join(RouterTokens(b.path)), ':');
    PathKeysDetermineSlots(a.path, b.path);
  }

  /** And exactly when the validator does: the same with a space. */
  lemma AdminDuplicateIff(a: RouteSpec, b: RouteSpec)
    ensures AdminRoutePatternKey(a) == AdminRoutePatternKey(b) <==>
      SamePattern(a, b) || AdminClash(a, b) || AdminClash(b, a)
  {
    KeySplit(Upper(a.verb), Join(AdminTokens(a.path)), Upper(b.verb), Join(AdminTokens(b.path)), ' ');
    PathKeysDetermineSlots(a.path, b.path);
  }

  /** So the two agree on a pair of routes if and only if the pattern is the same or both or neither
      of the separators clash. */
  lemma DuplicateChecksAgreeIff(a: RouteSpec, b: RouteSpec)
    ensures (AdminRoutePatternKey(a) == AdminRoutePatternKey(b) <==> KeyOf(CompiledRoute(a)) == KeyOf(CompiledRoute(b)))
      <==> SamePattern(a, b) || ((RouterClash(a, b) || RouterClash(b, a)) <==> (AdminClash(a, b) || AdminClash(b, a)))
  {
    RouterDuplicateIff(a, b);
    AdminDuplicateIff(a, b);
  }

  /** A method with a colon: the validator lets the pair pass, and adding it throws. */
  lemma ColonMethodsCollide()
    ensures var a, b := RouteSpec("GET", "P", 0), RouteSpec("GET:L", ":x", 1);
      KeyOf(CompiledRoute(a)) == KeyOf(CompiledRoute(b)) && AdminRoutePatternKey(a) != AdminRoutePatternKey(b)
  {
    var a, b := RouteSpec("GET", "P", 0), RouteSpec("GET:L", ":x", 1);
    assert Upper("GET") == "GET" && Upper("GET:L") == "GET:L";
    OnePart("P");
    OnePart(":x");
    assert RouterTokens("P") == ["L:" + "P"] && RouterTokens(":x") == ["P"];
    assert KeyOf(CompiledRoute(a)) == "GET" + ":" + "L:P";
    assert KeyOf(CompiledRoute(b)) == "GET:L" + ":" + "P";
    assert AdminRoutePatternKey(a)[3] == ' ' && AdminRoutePatternKey(b)[3] == ':';
  }

  lemma OnePart(part: string)
    requires PlainPart(part)
    ensures SplitPath(part) == [part] && RouterTokens(part) == [RouterToken(CompileSegment(part))]
  {
    SplitJoin([part]);
  }

  // ---- when the two agree on a list ----

  ghost predicate AdminKeysDistinct(specs: seq<RouteSpec>) {
    forall i, j :: 0 <= i < j < |specs| ==> AdminRoutePatternKey(specs[i]) != AdminRoutePatternKey(specs[j])
  }

  ghost predicate HasSamePattern(specs: seq<RouteSpec>) {
    exists i, j :: 0 <= i < j < |specs| && SamePattern(specs[i], specs[j])
  }

  ghost predicate HasRouterClash(specs: seq<RouteSpec>) {
    exists i, j :: 0 <= i < |specs| && 0 <= j < |specs| && RouterClash(specs[i], specs[j])
  }

  ghost predicate HasAdminClash(specs: seq<RouteSpec>) {
    exists i, j :: 0 <= i < |specs| && 0 <= j < |specs| && AdminClash(specs[i], specs[j])
  }

  lemma RouterDistinctIff(specs: seq<RouteSpec>)
    ensures RouterKeysDistinct(specs) <==> !HasSamePattern(specs) && !HasRouterClash(specs)
  {
    forall i, j | 0 <= i < j < |specs|
      ensures KeyOf(CompiledRoute(specs[i])) == KeyOf(CompiledRoute(specs[j])) <==>
        SamePattern(specs[i], specs[j]) || RouterClash(specs[i], specs[j]) || RouterClash(specs[j], specs[i])
    {
      RouterDuplicateIff(specs[i], specs[j]);
    }
    if i, j :| 0 <= i < |specs| && 0 <= j < |specs| && RouterClash(specs[i], specs[j]) {
      assert i < j || j < i;
    }
  }

  lemma AdminDistinctIff(specs: seq<RouteSpec>)
    ensures AdminKeysDistinct(specs) <==> !HasSamePattern(specs) && !HasAdminClash(specs)
  {
    forall i, j | 0 <= i < j < |specs|
      ensures AdminRoutePatternKey(specs[i]) == AdminRoutePatternKey(specs[j]) <==>
        SamePattern(specs[i], specs[j]) || AdminClash(specs[i], specs[j]) || AdminClash(specs[j], specs[i])
    {
      AdminDuplicateIff(specs[i], specs[j]);
    }
    if i, j :| 0 <= i < |specs| && 0 <= j < |specs| && AdminClash(specs[i], specs[j]) {
      assert i < j || j < i;
    }
  }

  /** For every list, whatever its methods: the validator's pattern check accepts it exactly when adding
      it to an empty router never throws, if and only if two of its patterns are the same, or the
      methods clash by a colon and by a space in some pair each, or in none. */
  lemma PatternCheckAgreesIff(specs: seq<RouteSpec>)
    ensures (AdminKeysDistinct(specs) <==> AddAll(specs).Some?) <==>
      HasSamePattern(specs) || (HasRouterClash(specs) <==> HasAdminClash(specs))
  {
    AddAllIff(specs);
    RouterDistinctIff(specs);
    AdminDistinctIff(specs);
  }

  /** No method is another one continued by a colon or a space. A method that is a token in the sense
      of section 5.6.2 of RFC 9110 contains neither. */
  ghost predicate SeparableVerbs(specs: seq<RouteSpec>) {
    forall a, b :: a in specs && b in specs ==>
      !VerbExtends(Upper(a.verb), Upper(b.verb), ':') && !VerbExtends(Upper(a.verb), Upper(b.verb), ' ')
  }

  lemma SeparableVerbsDoNotClash(specs: seq<RouteSpec>)
    requires SeparableVerbs(specs)
    ensures !HasRouterClash(specs) && !HasAdminClash(specs)
  {
    forall i, j | 0 <= i < |specs| && 0 <= j < |specs|
      ensures !RouterClash(specs[i], specs[j]) && !AdminClash(specs[i], specs[j])
    {
      assert specs[i] in specs && specs[j] in specs;
    }
  }

  /** So for such methods the validator's pattern check and the router agree, and both refuse exactly
      the repeated patterns. */
  lemma PatternCheckAgreesWithRouter(specs: seq<RouteSpec>)
    requires SeparableVerbs(specs)
    ensures AdminKeysDistinct(specs) <==> AddAll(specs).Some?
    ensures AdminKeysDistinct(specs) <==> !HasSamePattern(specs)
  {
    SeparableVerbsDoNotClash(specs);
    PatternCheckAgreesIff(specs);
    AdminDistinctIff(specs);
  }

  // ---- the whole validation ----

  datatype AdminApiRoute = AdminApiRoute(spec: RouteSpec, workerIds: seq<string>)

  datatype ValidationError =
    | DuplicateRoute(i: nat)
    | DuplicatePattern(i: nat)
    | NoOwner(i: nat)
    | UnknownOwner(i: nat, workerId: string)

  function RouteKey(spec: RouteSpec): string { Upper(spec.verb) + " " + spec.path }

  predicate RepeatsKey(routes: seq<AdminApiRoute>, i: nat)
    requires i < |routes|
  {
    exists j :: 0 <= j < i && RouteKey(routes[j].spec) == RouteKey(routes[i].spec)
  }

  predicate RepeatsPattern(routes: seq<AdminApiRoute>, i: nat)
    requires i < |routes|
  {
    exists j :: 0 <= j < i && AdminRoutePatternKey(routes[j].spec) == AdminRoutePatternKey(routes[i].spec)
  }

  ghost predicate FirstUnknown(workerIds: seq<string>, known: set<string>, workerId: string) {
    exists k :: 0 <= k < |workerIds| && workerIds[k] == workerId && workerId !in known
      && forall j :: 0 <= j < k ==> workerIds[j] in known
  }

  /** The error that route `i` is rejected with, once the routes before it have passed. */
  ghost predicate Rejects(routes: seq<AdminApiRoute>, known: set<string>, i: nat, error: ValidationError)
    requires i < |routes|
  {
    var owners := routes[i].workerIds;
    if RepeatsKey(routes, i) then error == DuplicateRoute(i)
    else if RepeatsPattern(routes, i) then error == DuplicatePattern(i)
    else if owners == [] then error == NoOwner(i)
    else error.UnknownOwner? && error.i == i && FirstUnknown(owners, known, error.workerId)
  }

  predicate Passes(routes: seq<AdminApiRoute>, known: set<string>, i: nat)
    requires i < |routes|
  {
    && !RepeatsKey(routes, i) && !RepeatsPattern(routes, i) && routes[i].workerIds != []
    && forall w :: w in routes[i].workerIds ==> w in known
  }

  /** The raw keys of two routes agree although their methods differ. */
  predicate RawClash(a: RouteSpec, b: RouteSpec) {
    Clash(Upper(a.verb), a.path, Upper(b.verb), b.path, ' ')
  }

  /** The second of two routes is refused because of the first: they have the same pattern, or their
      methods make one of the keys ambiguous. */
  ghost predicate Refused(a: RouteSpec, b: RouteSpec) {
    SamePattern(a, b) || AdminClash(a, b) || AdminClash(b, a) || RawClash(a, b) || RawClash(b, a)
  }

  lemma RefusedIff(a: RouteSpec, b: RouteSpec)
    ensures RouteKey(a) == RouteKey(b) || AdminRoutePatternKey(a) == AdminRoutePatternKey(b) <==> Refused(a, b)
  {
    KeySplit(Upper(a.verb), a.path, Upper(b.verb), b.path, ' ');
    AdminDuplicateIff(a, b);
  }

  function KnownIds(workerIds: seq<string>): set<string> { set w | w in workerIds }

  /** The route has an owner, all its owners are known, and no earlier route is in its way. */
  ghost predicate Acceptable(routes: seq<AdminApiRoute>, workerIds: seq<string>, i: nat)
    requires i < |routes|
  {
    && routes[i].workerIds != []
    && (forall w :: w in routes[i].workerIds ==> w in workerIds)
    && forall j :: 0 <= j < i ==> !Refused(routes[j].spec, routes[i].spec)
  }

  lemma AcceptableIff(routes: seq<AdminApiRoute>, workerIds: seq<string>, i: nat)
    requires i < |routes|
    ensures Acceptable(routes, workerIds, i) <==> Passes(routes, KnownIds(workerIds), i)
  {
    forall j | 0 <= j < i
      ensures RouteKey(routes[j].spec) == RouteKey(routes[i].spec)
        || AdminRoutePatternKey(routes[j].spec) == AdminRoutePatternKey(routes[i].spec)
        <==> Refused(routes[j].spec, routes[i].spec)
    {
      RefusedIff(routes[j].spec, routes[i].spec);
    }
  }

  /** What a reported error says about the route it names. */
  ghost predicate Justified(routes: seq<AdminApiRoute>, workerIds: seq<string>, error: ValidationError) {
    && error.i < |routes|
    && var route := routes[error.i];
      match error
      case DuplicateRoute(i) => exists j :: 0 <= j < i && Refused(routes[j].spec, route.spec)
      case DuplicatePattern(i) => exists j :: 0 <= j < i && Refused(routes[j].spec, route.spec)
      case NoOwner(_) => route.workerIds == []
      case UnknownOwner(_, workerId) => workerId in route.workerIds && workerId !in workerIds
  }

  lemma RejectionIsJustified(routes: seq<AdminApiRoute>, workerIds: seq<string>, error: ValidationError)
    requires error.i < |routes| && !Passes(routes, KnownIds(workerIds), error.i)
    requires Rejects(routes, KnownIds(workerIds), error.i, error)
    ensures Justified(routes, workerIds, error)
  {
    forall j | 0 <= j < error.i {
      RefusedIff(routes[j].spec, routes[error.i].spec);
    }
  }

  method ValidateAdminApiRoutes(routes: seq<AdminApiRoute>, workerIds: seq<string>)
    returns (error: Option<ValidationError>)
    ensures var known := KnownIds(workerIds);
      && (error.None? ==> forall i :: 0 <= i < |routes| ==> Passes(routes, known, i))
      && (error.Some? ==>
            && error.value.i < |routes| && !Passes(routes, known, error.value.i)
            && Rejects(routes, known, error.value.i, error.value)
            && forall i :: 0 <= i < error.value.i ==> Passes(routes, known, i))
    ensures error.None? <==> forall i :: 0 <= i < |routes| ==> Acceptable(routes, workerIds, i)
    ensures error.Some? ==> Justified(routes, workerIds, error.value)
  {
    var known := KnownIds(workerIds);
    forall i | 0 <= i < |routes| ensures Acceptable(routes, workerIds, i) <==> Passes(routes, known, i) {
      AcceptableIff(routes, workerIds, i);
    }
    var routeKeys: set<string>, routePatterns: set<string> := {}, {};
    for i := 0 to |routes|
      invariant forall j :: 0 <= j < i ==> Passes(routes, known, j)
      invariant forall k :: k in routeKeys <==> exists j :: 0 <= j < i && RouteKey(routes[j].spec) == k
      invariant forall k :: k in routePatterns <==> exists j :: 0 <= j < i && AdminRoutePatternKey(routes[j].spec) == k
    {
      var key := RouteKey(routes[i].spec);
      assert key in routeKeys <==> RepeatsKey(routes, i);
      if key in routeKeys {
        RejectionIsJustified(routes, workerIds, DuplicateRoute(i));
        return Some(DuplicateRoute(i));
      }
      routeKeys := routeKeys + {key};
      var pattern := AdminRoutePatternKey(routes[i].spec);
      assert pattern in routePatterns <==> RepeatsPattern(routes, i);
      if pattern in routePatterns {
        RejectionIsJustified(routes, workerIds, DuplicatePattern(i));
        return Some(DuplicatePattern(i));
      }
      routePatterns := routePatterns + {pattern};
      if |routes[i].workerIds| == 0 {
        RejectionIsJustified(routes, workerIds, NoOwner(i));
        return Some(NoOwner(i));
      }
      for n := 0 to |routes[i].workerIds|
        invariant forall k :: 0 <= k < n ==> routes[i].workerIds[k] in known
      {
        var workerId := routes[i].workerIds[n];
        if workerId !in known {
          assert FirstUnknown(routes[i].workerIds, known, workerId);
          assert !Passes(routes, known, i);
          RejectionIsJustified(routes, workerIds, UnknownOwner(i, workerId));
          return Some(UnknownOwner(i, workerId));
        }
      }
    }
    return None;
  }

  function SpecsOf(routes: seq<AdminApiRoute>): seq<RouteSpec> {
    seq(|routes|, i requires 0 <= i < |routes| => routes[i].spec)
  }

  ghost predicate HasRawClash(specs: seq<RouteSpec>) {
    exists i, j :: 0 <= i < |specs| && 0 <= j < |specs| && RawClash(specs[i], specs[j])
  }

  ghost predicate RawKeysDistinct(specs: seq<RouteSpec>) {
    forall i, j :: 0 <= i < j < |specs| ==> RouteKey(specs[i]) != RouteKey(specs[j])
  }

  lemma RawDistinctIff(specs: seq<RouteSpec>)
    ensures RawKeysDistinct(specs) || HasSamePattern(specs) <==> !HasRawClash(specs) || HasSamePattern(specs)
  {
    forall i, j | 0 <= i < j < |specs|
      ensures RawClash(specs[i], specs[j]) || RawClash(specs[j], specs[i]) ==> RouteKey(specs[i]) == RouteKey(specs[j])
      ensures RouteKey(specs[i]) == RouteKey(specs[j]) ==>
        SamePattern(specs[i], specs[j]) || RawClash(specs[i], specs[j]) || RawClash(specs[j], specs[i])
    {
      KeySplit(Upper(specs[i].verb), specs[i].path, Upper(specs[j].verb), specs[j].path, ' ');
    }
    if i, j :| 0 <= i < |specs| && 0 <= j < |specs| && RawClash(specs[i], specs[j]) {
      assert i < j || j < i;
    }
  }

  /** No route of the list is rejected as a duplicate. */
  ghost predicate NoDuplicates(routes: seq<AdminApiRoute>) {
    forall i :: 0 <= i < |routes| ==> !RepeatsKey(routes, i) && !RepeatsPattern(routes, i)
  }

  lemma NoDuplicatesIff(routes: seq<AdminApiRoute>)
    ensures NoDuplicates(routes) <==> RawKeysDistinct(SpecsOf(routes)) && AdminKeysDistinct(SpecsOf(routes))
  {
    var specs := SpecsOf(routes);
    assert forall i :: 0 <= i < |routes| ==> routes[i].spec == specs[i];
    if NoDuplicates(routes) {
      forall i, j | 0 <= i < j < |specs|
        ensures RouteKey(specs[i]) != RouteKey(specs[j])
        ensures AdminRoutePatternKey(specs[i]) != AdminRoutePatternKey(specs[j])
      {
        assert !RepeatsKey(routes, j) && !RepeatsPattern(routes, j);
        assert RouteKey(routes[i].spec) != RouteKey(routes[j].spec);
        assert AdminRoutePatternKey(routes[i].spec) != AdminRoutePatternKey(routes[j].spec);
      }
    }
  }

  /** The same for the whole duplicate check, raw keys first: it rejects exactly the lists that cannot
      be added to an empty router if and only if two patterns are the same, or the methods clash for
      the router exactly when they clash for the validator. */
  lemma DuplicateCheckAgreesIff(routes: seq<AdminApiRoute>)
    ensures var specs := SpecsOf(routes);
      (NoDuplicates(routes) <==> AddAll(specs).Some?) <==>
        HasSamePattern(specs) || (HasRouterClash(specs) <==> HasAdminClash(specs) || HasRawClash(specs))
  {
    var specs := SpecsOf(routes);
    NoDuplicatesIff(routes);
    AddAllIff(specs);
    RouterDistinctIff(specs);
    AdminDistinctIff(specs);
    RawDistinctIff(specs);
  }

  /** So with separable methods what passes validation can be added without a throw, and what cannot be
      added is rejected as a duplicate. */
  lemma ValidatedRoutesCanBeAdded(routes: seq<AdminApiRoute>)
    requires SeparableVerbs(SpecsOf(routes))
    ensures AddAll(SpecsOf(routes)).Some? <==> NoDuplicates(routes)
  {
    var specs := SpecsOf(routes);
    SeparableVerbsDoNotClash(specs);
    forall i, j | 0 <= i < |specs| && 0 <= j < |specs| ensures !RawClash(specs[i], specs[j]) {
      assert specs[i] in specs && specs[j] in specs;
    }
    DuplicateCheckAgreesIff(routes);
  }
}
