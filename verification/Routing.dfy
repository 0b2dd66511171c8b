/** The HTTP router: literal and parameter segments, most specific route first. Upper-casing is that
    of ASCII letters. */
module Routing {
  import opened Common

  // ---- paths ----

  predicate PlainPart(part: string) { part != "" && '/' !in part }

  predicate PlainParts(parts: seq<string>) {
    forall i :: 0 <= i < |parts| ==> PlainPart(parts[i])
  }

  /** The parts between slashes, empty ones dropped. */
  function SplitPath(path: string): (parts: seq<string>)
    ensures PlainParts(parts)
  {
    SplitFrom(path, "")
  }

  function SplitFrom(path: string, part: string): (parts: seq<string>)
    requires '/' !in part
    ensures PlainParts(parts)
    decreases |path|
  {
    var head := if part == "" then [] else [part];
    if path == "" then head
    else if path[0] == '/' then head + SplitFrom(path[1..], "")
    else SplitFrom(path[1..], part + [path[0]])
  }

  function Join(parts: seq<string>): string {
    if parts == [] then "" else if |parts| == 1 then parts[0] else parts[0] + "/" + Join(parts[1..])
  }

  lemma {:induction false} SplitPart(p: string, part: string, rest: string)
    requires '/' !in p && '/' !in part
    ensures '/' !in part + p && SplitFrom(p + rest, part) == SplitFrom(rest, part + p)
  {
    if p == "" {
      assert part + p == part && p + rest == rest;
    } else {
      assert (p + rest)[1..] == p[1..] + rest && (p + rest)[0] == p[0];
      SplitPart(p[1..], part + [p[0]], rest);
      assert part + [p[0]] + p[1..] == part + p;
    }
  }

  /** Splitting is the inverse of joining plain parts, so a joined text determines its parts. */
  lemma {:induction false} SplitJoin(parts: seq<string>)
    requires PlainParts(parts)
    ensures SplitPath(Join(parts)) == parts
  {
    if |parts| == 1 {
      assert PlainPart(parts[0]);
      SplitPart(parts[0], "", "");
      assert parts[0] + "" == parts[0] && "" + parts[0] == parts[0];
      assert SplitFrom("", parts[0]) == [parts[0]];
    } else if parts != [] {
      assert PlainPart(parts[0]);
      SplitJoin(parts[1..]);
      var rest := "/" + Join(parts[1..]);
      SplitPart(parts[0], "", rest);
      assert "" + parts[0] == parts[0];
      assert rest[1..] == Join(parts[1..]);
      assert parts[0] + "/" + Join(parts[1..]) == parts[0] + rest;
      assert SplitFrom(rest, parts[0]) == [parts[0]] + SplitFrom(rest[1..], "");
    }
  }

  /** A slash separates, wherever it stands: what is before it and what is after it split on their own. */
  lemma {:induction false} SplitFromConcat(a: string, b: string, part: string)
    requires '/' !in part
    ensures SplitFrom(a + "/" + b, part) == SplitFrom(a, part) + SplitFrom(b, "")
    decreases |a|
  {
    var path := a + "/" + b;
    if a == "" {
      assert path == "/" + b && path[1..] == b;
    } else {
      assert path[0] == a[0] && path[1..] == a[1..] + "/" + b;
      SplitFromConcat(a[1..], b, if a[0] == '/' then "" else part + [a[0]]);
    }
  }

  lemma SplitConcat(a: string, b: string)
    ensures SplitPath(a + "/" + b) == SplitPath(a) + SplitPath(b)
  {
    SplitFromConcat(a, b, "");
  }

  lemma SplitPlain(part: string)
    requires PlainPart(part)
    ensures SplitPath(part) == [part] && SplitPath("") == []
  {
    SplitJoin([part]);
    assert Join([part]) == part;
  }

  /** These laws say all there is to know: whatever splits like this is the same function. */
  lemma {:induction false} SplitIsDetermined(f: string -> seq<string>, path: string)
    requires f("") == [] && (forall part :: PlainPart(part) ==> f(part) == [part])
    requires forall a, b :: f(a + "/" + b) == f(a) + f(b)
    ensures f(path) == SplitPath(path)
    decreases |path|
  {
    if '/' in path {
      var i :| 0 <= i < |path| && path[i] == '/';
      var a, b := path[..i], path[i + 1..];
      assert path == a + "/" + b;
      assert f(a + "/" + b) == f(a) + f(b);
      SplitIsDetermined(f, a);
      SplitIsDetermined(f, b);
      SplitConcat(a, b);
    } else if path != "" {
      assert PlainPart(path);
      SplitPlain(path);
    } else {
      SplitPlain("x");
    }
  }

  /** So an absolute path has the parts it was joined from. */
  lemma SplitAbsolute(parts: seq<string>)
    requires PlainParts(parts)
    ensures SplitPath("/" + Join(parts)) == parts
  {
    SplitConcat("", Join(parts));
    SplitJoin(parts);
    SplitPlain("x");
    assert "" + "/" + Join(parts) == "/" + Join(parts);
  }

  lemma JoinInjective(a: seq<string>, b: seq<string>)
    requires PlainParts(a) && PlainParts(b)
    ensures Join(a) == Join(b) <==> a == b
  {
    SplitJoin(a);
    SplitJoin(b);
  }

  // ---- compiled routes ----

  datatype Segment = Literal(value: string) | Param(name: string)

  function CompileSegment(part: string): Segment
    requires part != ""
  {
    if part[0] == ':' then Param(part[1..]) else Literal(part)
  }

  function Compile(parts: seq<string>): (segments: seq<Segment>)
    requires PlainParts(parts)
    ensures |segments| == |parts|
    ensures forall i :: 0 <= i < |parts| ==> PlainPart(parts[i]) && segments[i] == CompileSegment(parts[i])
  {
    seq(|parts|, i requires 0 <= i < |parts| => assert PlainPart(parts[i]); CompileSegment(parts[i]))
  }

  function LiteralCount(segments: seq<Segment>): nat
    decreases |segments|
  {
    if segments == [] then 0
    else LiteralCount(segments[..|segments| - 1]) + if segments[|segments| - 1].Literal? then 1 else 0
  }

  predicate IsParam(part: string) { part != "" && part[0] == ':' }

  /** The places of a pattern that are not parameters. */
  ghost function LiteralPlaces(parts: seq<string>): set<nat> {
    set i: nat | i < |parts| && !IsParam(parts[i])
  }

  lemma {:induction false} LiteralCountIs(parts: seq<string>)
    requires PlainParts(parts)
    ensures LiteralCount(Compile(parts)) == |LiteralPlaces(parts)|
    decreases |parts|
  {
    if parts != [] {
      var n := |parts| - 1;
      assert PlainPart(parts[n]);
      LiteralCountIs(parts[..n]);
      assert Compile(parts)[..n] == Compile(parts[..n]);
      assert LiteralPlaces(parts) == LiteralPlaces(parts[..n]) + if IsParam(parts[n]) then {} else {n};
      assert n !in LiteralPlaces(parts[..n]);
    }
  }

  method CompilePath(path: string) returns (segments: seq<Segment>, literalCount: nat)
    ensures segments == Compile(SplitPath(path)) && literalCount == LiteralCount(segments)
    ensures |segments| == |SplitPath(path)|
    ensures forall i :: 0 <= i < |segments| ==>
      segments[i] == if IsParam(SplitPath(path)[i]) then Param(SplitPath(path)[i][1..]) else Literal(SplitPath(path)[i])
    ensures literalCount == |LiteralPlaces(SplitPath(path))|
  {
    segments, literalCount := [], 0;
    var parts := SplitPath(path);
    LiteralCountIs(parts);
    for i := 0 to |parts|
      invariant segments == Compile(parts)[..i] && literalCount == LiteralCount(segments)
    {
      assert PlainPart(parts[i]);
      var before := segments;
      if parts[i][0] == ':' {
        segments := segments + [Param(parts[i][1..])];
      } else {
        segments := segments + [Literal(parts[i])];
        literalCount := literalCount + 1;
      }
      assert segments[..|segments| - 1] == before;
    }
  }

  function UpperChar(c: char): char { if 'a' <= c <= 'z' then c - 'a' + 'A' else c }

  function Upper(s: string): string { seq(|s|, i requires 0 <= i < |s| => UpperChar(s[i])) }

  /** The same letter, in whatever case. */
  predicate SameLetter(a: char, b: char) {
    a == b || ('a' <= a <= 'z' && b as int == a as int - 32) || ('a' <= b <= 'z' && a as int == b as int - 32)
  }

  /** Methods are compared up to the case of their letters, and upper-case ones are left alone. */
  lemma UpperFoldsCase(a: string, b: string)
    ensures Upper(a) == Upper(b) <==> |a| == |b| && forall i :: 0 <= i < |a| ==> SameLetter(a[i], b[i])
    ensures Upper(a) == a <==> forall c :: c in a ==> !('a' <= c <= 'z')
  {
    if |a| == |b| {
      forall i | 0 <= i < |a| ensures Upper(a)[i] == Upper(b)[i] <==> SameLetter(a[i], b[i]) {
      }
    }
    if c :| c in a && 'a' <= c <= 'z' {
      var i :| 0 <= i < |a| && a[i] == c;
      assert Upper(a)[i] != a[i];
    } else {
      forall i | 0 <= i < |a| ensures Upper(a)[i] == a[i] {
        assert a[i] in a;
      }
    }
  }

  /** A registration, and the compiled route it becomes. */
  datatype RouteSpec = RouteSpec(verb: string, path: string, handler: nat)

  datatype Route = Route(verb: string, segments: seq<Segment>, literalCount: nat, handler: nat)

  function Literals(r: Route): int { r.literalCount }

  function CompiledRoute(spec: RouteSpec): Route {
    var segments := Compile(SplitPath(spec.path));
    Route(Upper(spec.verb), segments, LiteralCount(segments), spec.handler)
  }

  function RouterToken(s: Segment): string { if s.Literal? then "L:" + s.value else "P" }

  function Tokens(segments: seq<Segment>, token: Segment -> string): seq<string> {
    seq(|segments|, i requires 0 <= i < |segments| => token(segments[i]))
  }

  function PatternKey(verb: string, segments: seq<Segment>): string {
    verb + ":" + Join(Tokens(segments, RouterToken))
  }

  function KeyOf(r: Route): string { PatternKey(r.verb, r.segments) }

  // ---- trying one route ----

  type Decoder = string -> Option<string>

  datatype Attempt = Miss | Hit(params: map<string, string>) | Throws

  /** The segment loop of `match` from index `i` on; decoding a malformed part throws. */
  function Scan(segments: seq<Segment>, parts: seq<string>, i: nat, decode: Decoder,
                params: map<string, string>): Attempt
    requires |segments| == |parts| && i <= |parts|
    decreases |parts| - i
  {
    if i == |parts| then Hit(params)
    else match segments[i]
      case Literal(value) => if value != parts[i] then Miss else Scan(segments, parts, i + 1, decode, params)
      case Param(name) =>
        match decode(parts[i])
        case None => Throws
        case Some(value) => Scan(segments, parts, i + 1, decode, params[name := value])
  }

  function TryRoute(r: Route, verb: string, parts: seq<string>, decode: Decoder): Attempt {
    if r.verb != verb || |r.segments| != |parts| then Miss else Scan(r.segments, parts, 0, decode, map[])
  }

  /** The route and the path agree on method, length and every literal. */
  predicate Fits(r: Route, verb: string, parts: seq<string>) {
    && r.verb == verb && |r.segments| == |parts|
    && forall i :: 0 <= i < |parts| && r.segments[i].Literal? ==> r.segments[i].value == parts[i]
  }

  predicate Trouble(segments: seq<Segment>, parts: seq<string>, decode: Decoder, i: nat)
    requires |segments| == |parts|
  {
    i < |parts| && if segments[i].Literal? then segments[i].value != parts[i] else decode(parts[i]).None?
  }

  ghost predicate FirstTrouble(segments: seq<Segment>, parts: seq<string>, decode: Decoder, from: nat, i: nat)
    requires |segments| == |parts|
  {
    && from <= i && Trouble(segments, parts, decode, i)
    && forall k: nat :: from <= k < i ==> !Trouble(segments, parts, decode, k)
  }

  /** The earliest trouble decides: a wrong literal is a miss, a malformed parameter throws. */
  lemma {:induction false} ScanByTrouble(segments: seq<Segment>, parts: seq<string>, i: nat, decode: Decoder,
                                         params: map<string, string>)
    requires |segments| == |parts| && i <= |parts|
    ensures var a := Scan(segments, parts, i, decode, params);
      && (a.Miss? <==> exists k: nat :: FirstTrouble(segments, parts, decode, i, k) && segments[k].Literal?)
      && (a.Throws? <==> exists k: nat :: FirstTrouble(segments, parts, decode, i, k) && segments[k].Param?)
      && (a.Hit? <==> forall k: nat :: i <= k ==> !Trouble(segments, parts, decode, k))
    decreases |parts| - i
  {
    if i == |parts| {
    } else if Trouble(segments, parts, decode, i) {
      assert FirstTrouble(segments, parts, decode, i, i);
      assert forall k: nat :: FirstTrouble(segments, parts, decode, i, k) ==> k == i;
    } else {
      var params' := if segments[i].Param? then params[segments[i].name := decode(parts[i]).value] else params;
      ScanByTrouble(segments, parts, i + 1, decode, params');
      assert Scan(segments, parts, i, decode, params) == Scan(segments, parts, i + 1, decode, params');
      forall k: nat
        ensures FirstTrouble(segments, parts, decode, i, k) <==> FirstTrouble(segments, parts, decode, i + 1, k)
      {
        assert i <= k && k != i ==> i + 1 <= k;
      }
    }
  }

  /** With a path whose parts all decode, the route is hit exactly when it fits, and never throws. */
  lemma HitIffFits(r: Route, verb: string, parts: seq<string>, decode: Decoder)
    requires forall i :: 0 <= i < |parts| ==> decode(parts[i]).Some?
    ensures TryRoute(r, verb, parts, decode).Hit? <==> Fits(r, verb, parts)
    ensures !TryRoute(r, verb, parts, decode).Throws?
  {
    if r.verb == verb && |r.segments| == |parts| {
      ScanByTrouble(r.segments, parts, 0, decode, map[]);
      if forall k: nat :: !Trouble(r.segments, parts, decode, k) {
        forall i | 0 <= i < |parts| && r.segments[i].Literal? ensures r.segments[i].value == parts[i] {
          assert !Trouble(r.segments, parts, decode, i);
        }
      }
    }
  }

  /** The last segment, from index `i` on, that has this name. */
  function LastNamed(segments: seq<Segment>, i: nat, name: string): (k: Option<nat>)
    requires i <= |segments|
    ensures k.Some? ==> i <= k.value < |segments| && segments[k.value] == Param(name)
    ensures forall j :: (if k.Some? then k.value + 1 else i) <= j < |segments| ==> segments[j] != Param(name)
    decreases |segments| - i
  {
    if i == |segments| then None
    else if LastNamed(segments, i + 1, name).Some? then LastNamed(segments, i + 1, name)
    else if segments[i] == Param(name) then Some(i) else None
  }

  function Lookup(params: map<string, string>, name: string): Option<string> {
    if name in params then Some(params[name]) else None
  }

  /** The parameters of a hit: every name of the route, with the decoded part of its last occurrence,
      and no other name. */
  lemma HitParams(r: Route, verb: string, parts: seq<string>, decode: Decoder, name: string)
    requires TryRoute(r, verb, parts, decode).Hit?
    ensures var k := LastNamed(r.segments, 0, name);
      Lookup(TryRoute(r, verb, parts, decode).params, name) == if k.None? then None else decode(parts[k.value])
  {
    ScanParams(r.segments, parts, 0, decode, map[], name);
  }

  lemma {:induction false} ScanParams(segments: seq<Segment>, parts: seq<string>, i: nat, decode: Decoder,
                                      params: map<string, string>, name: string)
    requires |segments| == |parts| && i <= |parts| && Scan(segments, parts, i, decode, params).Hit?
    ensures var k := LastNamed(segments, i, name);
      Lookup(Scan(segments, parts, i, decode, params).params, name) ==
        if k.None? then Lookup(params, name) else decode(parts[k.value])
    decreases |parts| - i
  {
    if i < |parts| {
      var params' := if segments[i].Param? then params[segments[i].name := decode(parts[i]).value] else params;
      assert Scan(segments, parts, i, decode, params) == Scan(segments, parts, i + 1, decode, params');
      ScanParams(segments, parts, i + 1, decode, params', name);
    }
  }

  lemma {:induction false} HitDecodes(segments: seq<Segment>, parts: seq<string>, i: nat, decode: Decoder,
                                      params: map<string, string>, k: nat)
    requires |segments| == |parts| && i <= k < |parts| && segments[k].Param?
    requires Scan(segments, parts, i, decode, params).Hit?
    ensures decode(parts[k]).Some?
    decreases |parts| - i
  {
    if i < k {
      var params' := if segments[i].Param? then params[segments[i].name := decode(parts[i]).value] else params;
      HitDecodes(segments, parts, i + 1, decode, params', k);
    }
  }

  // ---- the router ----

  datatype Dispatch = NoRoute | Found(handler: nat, params: map<string, string>) | Malformed

  function Report(r: Route, verb: string, parts: seq<string>, decode: Decoder): Dispatch {
    match TryRoute(r, verb, parts, decode)
    case Miss => NoRoute
    case Hit(params) => Found(r.handler, params)
    case Throws => Malformed
  }

  function Reacts(verb: string, parts: seq<string>, decode: Decoder): Route -> bool {
    (r: Route) => TryRoute(r, verb, parts, decode) != Miss
  }

  /** The first route in the table that does not miss decides. */
  function FirstReport(routes: seq<Route>, verb: string, parts: seq<string>, decode: Decoder): Dispatch {
    var reacting := Filter(routes, Reacts(verb, parts, decode));
    if reacting == [] then NoRoute else Report(reacting[0], verb, parts, decode)
  }

  ghost function Sorted(registered: seq<Route>): seq<Route> { SortDesc(registered, Literals) }

  /** For any registrations and any path: nothing is found exactly when every route misses, and else
      the outcome is that of the earliest-registered reacting route with the most literals. */
  lemma MatchIsMostSpecific(registered: seq<Route>, verb: string, parts: seq<string>, decode: Decoder)
    ensures FirstReport(Sorted(registered), verb, parts, decode).NoRoute? <==>
      forall r :: r in registered ==> TryRoute(r, verb, parts, decode).Miss?
    ensures !FirstReport(Sorted(registered), verb, parts, decode).NoRoute? ==>
      exists k: nat :: EarliestLargest(registered, Reacts(verb, parts, decode), Literals, k)
        && FirstReport(Sorted(registered), verb, parts, decode) == Report(registered[k], verb, parts, decode)
  {
    var p := Reacts(verb, parts, decode);
    var reacting := Filter(Sorted(registered), p);
    assert forall r :: r in reacting <==> r in registered && p(r);
    if reacting != [] {
      assert reacting[0] in reacting;
      var k := FirstOfSorted(registered, p, Literals);
      assert EarliestLargest(registered, p, Literals, k) && reacting[0] == registered[k];
    }
  }

  function FitsPath(verb: string, parts: seq<string>): Route -> bool {
    (r: Route) => Fits(r, verb, parts)
  }

  /** The documented rule: null when no route fits, and else the earliest-registered fitting route with
      the most literals. */
  ghost predicate BestFit(registered: seq<Route>, verb: string, parts: seq<string>, decode: Decoder, result: Dispatch) {
    if forall r :: r in registered ==> !Fits(r, verb, parts) then result == NoRoute
    else exists k: nat ::
      && EarliestLargest(registered, FitsPath(verb, parts), Literals, k)
      && TryRoute(registered[k], verb, parts, decode).Hit?
      && result == Found(registered[k].handler, TryRoute(registered[k], verb, parts, decode).params)
  }

  /** The route agrees with the path up to a parameter whose part does not decode. */
  ghost predicate ThrowsOn(r: Route, verb: string, parts: seq<string>, decode: Decoder) {
    && r.verb == verb && |r.segments| == |parts|
    && exists i: nat :: FirstTrouble(r.segments, parts, decode, 0, i) && r.segments[i].Param?
  }

  lemma AttemptMeans(r: Route, verb: string, parts: seq<string>, decode: Decoder)
    ensures TryRoute(r, verb, parts, decode).Throws? <==> ThrowsOn(r, verb, parts, decode)
    ensures TryRoute(r, verb, parts, decode).Hit? ==> Fits(r, verb, parts)
    ensures Fits(r, verb, parts) ==> !TryRoute(r, verb, parts, decode).Miss?
  {
    if r.verb == verb && |r.segments| == |parts| {
      ScanByTrouble(r.segments, parts, 0, decode, map[]);
      if TryRoute(r, verb, parts, decode).Hit? {
        forall i | 0 <= i < |parts| && r.segments[i].Literal? ensures r.segments[i].value == parts[i] {
          assert !Trouble(r.segments, parts, decode, i);
        }
      }
    }
  }

  /** Without any condition on the path: `match` obeys the documented rule if and only if it does not
      throw ... */
  lemma MatchFindsBestFitIff(registered: seq<Route>, verb: string, parts: seq<string>, decode: Decoder)
    ensures var result := FirstReport(Sorted(registered), verb, parts, decode);
      BestFit(registered, verb, parts, decode, result) <==> !result.Malformed?
  {
    MatchIsMostSpecific(registered, verb, parts, decode);
    var p, q := Reacts(verb, parts, decode), FitsPath(verb, parts);
    var result := FirstReport(Sorted(registered), verb, parts, decode);
    forall r: Route
      ensures TryRoute(r, verb, parts, decode).Hit? ==> q(r)
      ensures q(r) ==> p(r) && Fits(r, verb, parts)
    {
      AttemptMeans(r, verb, parts, decode);
    }
    if result.Found? {
      var k: nat :| EarliestLargest(registered, p, Literals, k) && result == Report(registered[k], verb, parts, decode);
      assert registered[k] in registered && Fits(registered[k], verb, parts);
      assert EarliestLargest(registered, q, Literals, k);
    } else if result.NoRoute? {
      forall r | r in registered ensures !Fits(r, verb, parts) {
        AttemptMeans(r, verb, parts, decode);
      }
    }
  }

  /** ... and it throws if and only if the earliest-registered route with the most literals, among those
      that fit or agree up to a malformed parameter, is one of the latter. */
  lemma MatchThrowsIff(registered: seq<Route>, verb: string, parts: seq<string>, decode: Decoder)
    ensures FirstReport(Sorted(registered), verb, parts, decode).Malformed? <==>
      exists k: nat :: EarliestLargest(registered, Reacts(verb, parts, decode), Literals, k)
        && ThrowsOn(registered[k], verb, parts, decode)
  {
    MatchIsMostSpecific(registered, verb, parts, decode);
    var p := Reacts(verb, parts, decode);
    forall r: Route ensures TryRoute(r, verb, parts, decode).Throws? <==> ThrowsOn(r, verb, parts, decode) {
      AttemptMeans(r, verb, parts, decode);
    }
    if k: nat :| EarliestLargest(registered, p, Literals, k) && ThrowsOn(registered[k], verb, parts, decode) {
      assert registered[k] in registered;
      var n: nat :| EarliestLargest(registered, p, Literals, n)
        && FirstReport(Sorted(registered), verb, parts, decode) == Report(registered[n], verb, parts, decode);
      assert n == k;
    }
  }

  /** In particular it never throws on a path whose parts all decode. */
  lemma DecodablePathsMatchBestFit(registered: seq<Route>, verb: string, parts: seq<string>, decode: Decoder)
    requires forall i :: 0 <= i < |parts| ==> decode(parts[i]).Some?
    ensures BestFit(registered, verb, parts, decode, FirstReport(Sorted(registered), verb, parts, decode))
  {
    MatchThrowsIff(registered, verb, parts, decode);
    MatchFindsBestFitIff(registered, verb, parts, decode);
    forall r: Route ensures !ThrowsOn(r, verb, parts, decode) {
      HitIffFits(r, verb, parts, decode);
      AttemptMeans(r, verb, parts, decode);
    }
  }

  /** An input on which it throws: the second route fits the path and the first does not, but the first
      has the earlier registration and throws on the malformed part. */
  lemma MalformedPartHidesAFit(decode: Decoder)
    requires decode("%").None?
    ensures var first := Route("GET", [Param("a"), Literal("x")], 1, 0);
      var second := Route("GET", [Literal("%"), Param("b")], 1, 1);
      !Fits(first, "GET", ["%", "y"]) && Fits(second, "GET", ["%", "y"])
      && FirstReport(Sorted([first, second]), "GET", ["%", "y"], decode) == Malformed
  {
    var first := Route("GET", [Param("a"), Literal("x")], 1, 0);
    var second := Route("GET", [Literal("%"), Param("b")], 1, 1);
    assert SortedDesc([first, second], Literals);
    SortDescIdentity([first, second], Literals);
    assert first.segments[1].value != ["%", "y"][1];
    assert TryRoute(first, "GET", ["%", "y"], decode) == Throws;
  }

  function KeysOf(routes: seq<Route>): set<string> { set r | r in routes :: KeyOf(r) }

  /** `add` on the registrations so far; nothing stands for a thrown duplicate-route error. */
  function AddRoute(registered: seq<Route>, spec: RouteSpec): Option<seq<Route>> {
    if KeyOf(CompiledRoute(spec)) in KeysOf(registered) then None else Some(registered + [CompiledRoute(spec)])
  }

  lemma KeysOfPush(routes: seq<Route>, r: Route)
    ensures KeysOf(routes + [r]) == KeysOf(routes) + {KeyOf(r)}
  {
    var s := routes + [r];
    assert s[|routes|] == r;
    assert forall x :: x in s <==> x in routes || x == r;
    assert KeyOf(r) in KeysOf(s);
    forall k | k in KeysOf(routes) ensures k in KeysOf(s) {
      var x :| x in routes && KeyOf(x) == k;
      assert x in s;
    }
  }

  // ---- whole route lists ----

  /** Adding a list to an empty router, one by one; nothing stands for a throw. */
  function AddAll(specs: seq<RouteSpec>): Option<seq<Route>>
    decreases |specs|
  {
    if specs == [] then Some([])
    else
      match AddAll(specs[..|specs| - 1])
      case None => None
      case Some(registered) => AddRoute(registered, specs[|specs| - 1])
  }

  function Compiled(specs: seq<RouteSpec>): seq<Route> {
    seq(|specs|, i requires 0 <= i < |specs| => CompiledRoute(specs[i]))
  }

  ghost predicate RouterKeysDistinct(specs: seq<RouteSpec>) {
    forall i, j :: 0 <= i < j < |specs| ==> KeyOf(CompiledRoute(specs[i])) != KeyOf(CompiledRoute(specs[j]))
  }

  /** Adding never throws exactly for distinct keys, and then every route is registered, in order. */
  lemma {:induction false} AddAllIff(specs: seq<RouteSpec>)
    ensures AddAll(specs).Some? <==> RouterKeysDistinct(specs)
    ensures AddAll(specs).Some? ==> AddAll(specs).value == Compiled(specs)
    decreases |specs|
  {
    if specs != [] {
      var init := specs[..|specs| - 1];
      AddAllIff(init);
      DistinctSnoc(specs);
      NewKeyIff(init, specs[|specs| - 1]);
      assert Compiled(specs) == Compiled(init) + [CompiledRoute(specs[|specs| - 1])];
    }
  }

  lemma AddAllSnoc(specs: seq<RouteSpec>, spec: RouteSpec)
    requires AddAll(specs).Some?
    ensures AddAll(specs + [spec]) == AddRoute(AddAll(specs).value, spec)
  {
    assert (specs + [spec])[..|specs|] == specs;
  }

  /** The last route repeats no key of the others. */
  ghost predicate NewKey(specs: seq<RouteSpec>, spec: RouteSpec) {
    forall i :: 0 <= i < |specs| ==> KeyOf(CompiledRoute(specs[i])) != KeyOf(CompiledRoute(spec))
  }

  lemma DistinctSnoc(specs: seq<RouteSpec>)
    requires specs != []
    ensures var n := |specs| - 1;
      RouterKeysDistinct(specs) <==> RouterKeysDistinct(specs[..n]) && NewKey(specs[..n], specs[n])
  {
    var n := |specs| - 1;
    assert forall i :: 0 <= i < n ==> specs[..n][i] == specs[i];
  }

  lemma NewKeyIff(specs: seq<RouteSpec>, spec: RouteSpec)
    ensures AddRoute(Compiled(specs), spec).Some? <==> NewKey(specs, spec)
  {
    var routes := Compiled(specs);
    var k := KeyOf(CompiledRoute(spec));
    assert forall i :: 0 <= i < |specs| ==> routes[i] in routes && KeyOf(routes[i]) == KeyOf(CompiledRoute(specs[i]));
    if k in KeysOf(routes) {
      var r :| r in routes && KeyOf(r) == k;
      var i :| 0 <= i < |specs| && routes[i] == r;
    }
  }

  // ---- what a router answers, in terms of what was added ----

  /** The method is the same up to case, and the pattern agrees with the path part by part. */
  ghost predicate Answers(spec: RouteSpec, verb: string, path: string) {
    && Upper(spec.verb) == Upper(verb)
    && |SplitPath(spec.path)| == |SplitPath(path)|
    && forall i :: 0 <= i < |SplitPath(path)| ==>
      IsParam(SplitPath(spec.path)[i]) || SplitPath(spec.path)[i] == SplitPath(path)[i]
  }

  lemma FitsIffAnswers(spec: RouteSpec, verb: string, path: string)
    ensures Fits(CompiledRoute(spec), Upper(verb), SplitPath(path)) <==> Answers(spec, verb, path)
  {
    var pattern, parts := SplitPath(spec.path), SplitPath(path);
    var segments := CompiledRoute(spec).segments;
    forall i | 0 <= i < |pattern|
      ensures segments[i] == if IsParam(pattern[i]) then Param(pattern[i][1..]) else Literal(pattern[i])
    {
      assert PlainPart(pattern[i]) && segments[i] == CompileSegment(pattern[i]);
    }
  }

  /** The parameters are the pattern's names, each with the decoded part of its last occurrence. */
  ghost predicate HasParams(spec: RouteSpec, path: string, decode: Decoder, params: map<string, string>) {
    var pattern, parts := SplitPath(spec.path), SplitPath(path);
    && |pattern| == |parts|
    && (forall name :: name in params ==> ":" + name in pattern)
    && forall i :: 0 <= i < |pattern| && IsParam(pattern[i]) && pattern[i] !in pattern[i + 1..] ==>
      pattern[i][1..] in params && Some(params[pattern[i][1..]]) == decode(parts[i])
  }

  lemma HitHasParams(spec: RouteSpec, verb: string, path: string, decode: Decoder)
    requires TryRoute(CompiledRoute(spec), Upper(verb), SplitPath(path), decode).Hit?
    ensures HasParams(spec, path, decode, TryRoute(CompiledRoute(spec), Upper(verb), SplitPath(path), decode).params)
  {
    var pattern, parts := SplitPath(spec.path), SplitPath(path);
    var route := CompiledRoute(spec);
    var params := TryRoute(route, Upper(verb), parts, decode).params;
    SegmentsOf(pattern);
    forall name | name in params ensures ":" + name in pattern {
      HitParams(route, Upper(verb), parts, decode, name);
      var k := LastNamed(route.segments, 0, name).value;
      assert pattern[k] == ":" + name;
    }
    forall i | 0 <= i < |pattern| && IsParam(pattern[i]) && pattern[i] !in pattern[i + 1..]
      ensures pattern[i][1..] in params && Some(params[pattern[i][1..]]) == decode(parts[i])
    {
      HitParams(route, Upper(verb), parts, decode, pattern[i][1..]);
      LastOccurrence(pattern, i);
      assert LastNamed(route.segments, 0, pattern[i][1..]) == Some(i);
      assert decode(parts[i]).Some? by { HitDecodes(route.segments, parts, 0, decode, map[], i); }
    }
  }

  lemma SegmentsOf(pattern: seq<string>)
    requires PlainParts(pattern)
    ensures forall i :: 0 <= i < |pattern| ==>
      Compile(pattern)[i] == if IsParam(pattern[i]) then Param(pattern[i][1..]) else Literal(pattern[i])
    ensures forall i, name: string :: 0 <= i < |pattern| ==>
      (Compile(pattern)[i] == Param(name) <==> pattern[i] == ":" + name)
  {
    forall i | 0 <= i < |pattern|
      ensures Compile(pattern)[i] == if IsParam(pattern[i]) then Param(pattern[i][1..]) else Literal(pattern[i])
    {
      assert PlainPart(pattern[i]);
    }
    forall i, name: string | 0 <= i < |pattern|
      ensures Compile(pattern)[i] == Param(name) <==> pattern[i] == ":" + name
    {
      assert PlainPart(pattern[i]) && (":" + name)[1..] == name;
      assert IsParam(pattern[i]) ==> pattern[i] == ":" + pattern[i][1..];
    }
  }

  lemma LastOccurrence(pattern: seq<string>, i: nat)
    requires PlainParts(pattern) && i < |pattern| && IsParam(pattern[i]) && pattern[i] !in pattern[i + 1..]
    ensures LastNamed(Compile(pattern), 0, pattern[i][1..]) == Some(i)
  {
    SegmentsOf(pattern);
    var name := pattern[i][1..];
    assert pattern[i] == ":" + name;
    var k := LastNamed(Compile(pattern), 0, name);
    forall j | i < j < |pattern| ensures Compile(pattern)[j] != Param(name) {
      assert pattern[j] == pattern[i + 1..][j - i - 1];
    }
  }

  /** Among the routes that answer, the one with the most literal parts, added first among equals. */
  ghost predicate IsBest(specs: seq<RouteSpec>, verb: string, path: string, k: nat) {
    && k < |specs| && Answers(specs[k], verb, path)
    && forall j :: 0 <= j < |specs| && Answers(specs[j], verb, path) ==>
      || |LiteralPlaces(SplitPath(specs[j].path))| < |LiteralPlaces(SplitPath(specs[k].path))|
      || (|LiteralPlaces(SplitPath(specs[j].path))| == |LiteralPlaces(SplitPath(specs[k].path))| && k <= j)
  }

  lemma EarliestLargestIsBest(specs: seq<RouteSpec>, verb: string, path: string, k: nat)
    requires EarliestLargest(Compiled(specs), FitsPath(Upper(verb), SplitPath(path)), Literals, k)
    ensures IsBest(specs, verb, path, k)
  {
    forall j | 0 <= j < |specs|
      ensures Fits(Compiled(specs)[j], Upper(verb), SplitPath(path)) <==> Answers(specs[j], verb, path)
      ensures Literals(Compiled(specs)[j]) == |LiteralPlaces(SplitPath(specs[j].path))|
    {
      FitsIffAnswers(specs[j], verb, path);
      LiteralCountIs(SplitPath(specs[j].path));
    }
  }

  ghost predicate IsAnswer(spec: RouteSpec, path: string, decode: Decoder, result: Dispatch) {
    result.Found? && result.handler == spec.handler && HasParams(spec, path, decode, result.params)
  }

  predicate Decodes(path: string, decode: Decoder) {
    forall i :: 0 <= i < |SplitPath(path)| ==> decode(SplitPath(path)[i]).Some?
  }

  /** The best of the routes that answer is found, or nothing when none answers. */
  ghost predicate BestAnswer(specs: seq<RouteSpec>, verb: string, path: string, decode: Decoder, result: Dispatch) {
    && (result.NoRoute? <==> forall i :: 0 <= i < |specs| ==> !Answers(specs[i], verb, path))
    && (!result.NoRoute? ==> exists k: nat :: IsBest(specs, verb, path, k) && IsAnswer(specs[k], path, decode, result))
  }

  lemma NoneAnswers(specs: seq<RouteSpec>, verb: string, path: string)
    ensures (forall r :: r in Compiled(specs) ==> !Fits(r, Upper(verb), SplitPath(path))) <==>
      forall i :: 0 <= i < |specs| ==> !Answers(specs[i], verb, path)
  {
    forall i | 0 <= i < |specs|
      ensures Fits(Compiled(specs)[i], Upper(verb), SplitPath(path)) <==> Answers(specs[i], verb, path)
    {
      FitsIffAnswers(specs[i], verb, path);
    }
    assert forall i :: 0 <= i < |specs| ==> Compiled(specs)[i] in Compiled(specs);
  }

  /** The router from end to end: for routes that could be added and a path whose parts decode, the best
      of the routes that answer is found, with the path's values for its parameters, and nothing is
      found exactly when none answers. */
  lemma RouterAnswers(specs: seq<RouteSpec>, verb: string, path: string, decode: Decoder)
    requires AddAll(specs).Some? && Decodes(path, decode)
    ensures BestAnswer(specs, verb, path, decode,
                       FirstReport(Sorted(AddAll(specs).value), Upper(verb), SplitPath(path), decode))
  {
    var routes, wanted, parts := Compiled(specs), Upper(verb), SplitPath(path);
    AddAllIff(specs);
    var result := FirstReport(Sorted(routes), wanted, parts, decode);
    DecodablePathsMatchBestFit(routes, wanted, parts, decode);
    NoneAnswers(specs, verb, path);
    if exists r :: r in routes && Fits(r, wanted, parts) {
      var k := BestFitIsBest(specs, verb, path, decode, result);
    }
  }

  lemma BestFitIsBest(specs: seq<RouteSpec>, verb: string, path: string, decode: Decoder, result: Dispatch)
    returns (k: nat)
    requires BestFit(Compiled(specs), Upper(verb), SplitPath(path), decode, result)
    requires exists r :: r in Compiled(specs) && Fits(r, Upper(verb), SplitPath(path))
    ensures IsBest(specs, verb, path, k) && IsAnswer(specs[k], path, decode, result)
  {
    var routes, wanted, parts := Compiled(specs), Upper(verb), SplitPath(path);
    k :| && EarliestLargest(routes, FitsPath(wanted, parts), Literals, k)
         && TryRoute(routes[k], wanted, parts, decode).Hit?
         && result == Found(routes[k].handler, TryRoute(routes[k], wanted, parts, decode).params);
    EarliestLargestIsBest(specs, verb, path, k);
    HitHasParams(specs[k], verb, path, decode);
  }

  // ---- the router, updated in place ----

  class HttpRouter {
    var routes: seq<Route>
    var patternSigs: set<string>
    /** Every route added so far, in registration order, as handed in and as compiled. */
    ghost var specs: seq<RouteSpec>
    ghost var registered: seq<Route>

    ghost predicate Valid()
      reads this
    {
      && routes == Sorted(registered)
      && patternSigs == KeysOf(registered)
      && AddAll(specs) == Some(registered)
    }

    constructor ()
      ensures Valid() && specs == []
    {
      routes, patternSigs, specs, registered := [], {}, [], [];
    }

    /** Not added means that a duplicate-route error was thrown. */
    method Add(spec: RouteSpec) returns (added: bool)
      requires Valid()
      modifies this
      ensures Valid()
      ensures AddRoute(old(registered), spec) == if added then Some(registered) else None
      ensures added <==> NewKey(old(specs), spec)
      ensures added ==> specs == old(specs) + [spec]
      ensures !added ==> unchanged(this)
    {
      var segments, literalCount := CompilePath(spec.path);
      var sig := PatternKey(Upper(spec.verb), segments);
      var route := Route(Upper(spec.verb), segments, literalCount, spec.handler);
      assert route == CompiledRoute(spec) && KeyOf(route) == sig;
      AddAllIff(specs);
      NewKeyIff(specs, spec);
      if sig in patternSigs {
        return false;
      }
      AddAllSnoc(specs, spec);
      ResortAfterPush(registered, route, Literals);
      KeysOfPush(registered, route);
      patternSigs := patternSigs + {sig};
      routes := routes + [route];
      routes := SortDesc(routes, Literals);
      registered := registered + [route];
      specs := specs + [spec];
      added := true;
    }

    method Match(verb: string, pathname: string, decode: Decoder) returns (result: Dispatch)
      requires Valid()
      ensures result == FirstReport(Sorted(registered), Upper(verb), SplitPath(pathname), decode)
      ensures Decodes(pathname, decode) ==> BestAnswer(specs, verb, pathname, decode, result)
    {
      if Decodes(pathname, decode) { RouterAnswers(specs, verb, pathname, decode); }
      result := FirstMatch(verb, pathname, decode);
    }

    /** The loop over the routes. */
    method FirstMatch(verb: string, pathname: string, decode: Decoder) returns (result: Dispatch)
      requires Valid()
      ensures result == FirstReport(Sorted(registered), Upper(verb), SplitPath(pathname), decode)
    {
      var wanted := Upper(verb);
      var parts := SplitPath(pathname);
      var p := Reacts(wanted, parts, decode);
      for n := 0 to |routes|
        invariant Filter(routes[..n], p) == []
      {
        var route := routes[n];
        FilterAppend(routes[..n], routes[n..], p);
        assert routes == routes[..n] + routes[n..] && routes[n..][0] == route;
        var attempt := MatchRoute(route, wanted, parts, decode);
        match attempt {
          case Hit(params) => return Found(route.handler, params);
          case Throws => return Malformed;
          case Miss =>
            FilterAppend(routes[..n], [route], p);
            assert routes[..n + 1] == routes[..n] + [route];
        }
      }
      assert routes[..|routes|] == routes;
      return NoRoute;
    }

    /** The body of the loop over the routes. */
    method MatchRoute(route: Route, wanted: string, parts: seq<string>, decode: Decoder) returns (attempt: Attempt)
      ensures attempt == TryRoute(route, wanted, parts, decode)
    {
      if route.verb != wanted || |route.segments| != |parts| {
        return Miss;
      }
      var params: map<string, string> := map[];
      for i := 0 to |route.segments|
        invariant Scan(route.segments, parts, 0, decode, map[]) == Scan(route.segments, parts, i, decode, params)
      {
        match route.segments[i] {
          case Literal(value) =>
            if value != parts[i] {
              return Miss;
            }
          case Param(name) =>
            var decoded := decode(parts[i]);
            if decoded.None? {
              return Throws;
            }
            params := params[name := decoded.value];
        }
      }
      return Hit(params);
    }
  }
}
