/** The review diff of a proposed file write: a two-cursor alignment with a lookahead of two lines,
    shown as one hunk with three lines of context. */
module ApprovalDiff {
  datatype Mark = Added | Removed | Kept

  datatype Change = Change(mark: Mark, line: string)

  /** What is shown below the header: no changes, or one hunk at a line number counted from one. */
  datatype Diff = NoChanges | Hunk(line: nat, changes: seq<Change>)

  const MAX_CONTEXT: nat := 3

  // ---- what a list of changes says ----

  /** The kept and removed lines spell one side, the kept and added ones the other. */
  function OldSide(changes: seq<Change>): seq<string> {
    if changes == [] then []
    else (if changes[0].mark == Added then [] else [changes[0].line]) + OldSide(changes[1..])
  }

  function NewSide(changes: seq<Change>): seq<string> {
    if changes == [] then []
    else (if changes[0].mark == Removed then [] else [changes[0].line]) + NewSide(changes[1..])
  }

  predicate AllKept(changes: seq<Change>) {
    forall i :: 0 <= i < |changes| ==> changes[i].mark == Kept
  }

  lemma {:induction false} SidesAppend(a: seq<Change>, b: seq<Change>)
    ensures OldSide(a + b) == OldSide(a) + OldSide(b)
    ensures NewSide(a + b) == NewSide(a) + NewSide(b)
  {
    if a == [] {
      assert a + b == b;
    } else {
      assert (a + b)[0] == a[0] && (a + b)[1..] == a[1..] + b;
      SidesAppend(a[1..], b);
      var o := if a[0].mark == Added then [] else [a[0].line];
      var n := if a[0].mark == Removed then [] else [a[0].line];
      assert OldSide(a + b) == o + (OldSide(a[1..]) + OldSide(b)) == (o + OldSide(a[1..])) + OldSide(b);
      assert NewSide(a + b) == n + (NewSide(a[1..]) + NewSide(b)) == (n + NewSide(a[1..])) + NewSide(b);
    }
  }

  lemma {:induction false} KeptSides(changes: seq<Change>)
    requires AllKept(changes)
    ensures OldSide(changes) == NewSide(changes) && |OldSide(changes)| == |changes|
  {
    if changes != [] { KeptSides(changes[1..]); }
  }

  function Marked(mark: Mark, lines: seq<string>): seq<Change> {
    if lines == [] then [] else [Change(mark, lines[0])] + Marked(mark, lines[1..])
  }

  lemma {:induction false} MarkedSides(mark: Mark, lines: seq<string>)
    ensures OldSide(Marked(mark, lines)) == if mark == Added then [] else lines
    ensures NewSide(Marked(mark, lines)) == if mark == Removed then [] else lines
  {
    if lines != [] {
      MarkedSides(mark, lines[1..]);
      assert Marked(mark, lines)[1..] == Marked(mark, lines[1..]);
      assert lines == [lines[0]] + lines[1..];
    }
  }

  // ---- the alignment ----

  /** Reading past the end gives undefined, which equals no line. */
  predicate LineIs(lines: seq<string>, i: nat, line: string) {
    i < |lines| && lines[i] == line
  }

  /** How many lines to skip on the new side, or else on the old side, to find the other's line. */
  datatype Skip = SkipNew(count: nat) | SkipOld(count: nat) | NoMatch

  function Lookahead(oldLines: seq<string>, newLines: seq<string>, i: nat, j: nat, look: nat): (skip: Skip)
    requires i < |oldLines| && j < |newLines|
    ensures skip.SkipNew? ==> look <= skip.count <= 2 && LineIs(newLines, j + skip.count, oldLines[i])
    ensures skip.SkipOld? ==> look <= skip.count <= 2 && LineIs(oldLines, i + skip.count, newLines[j])
    decreases 3 - look
  {
    if look > 2 then NoMatch
    else if LineIs(newLines, j + look, oldLines[i]) then SkipNew(look)
    else if LineIs(oldLines, i + look, newLines[j]) then SkipOld(look)
    else Lookahead(oldLines, newLines, i, j, look + 1)
  }

  /** One round of the loop: the changes it pushes, and where it leaves the two cursors. */
  datatype Stretch = Stretch(changes: seq<Change>, i: nat, j: nat)

  function Round(oldLines: seq<string>, newLines: seq<string>, i: nat, j: nat): (r: Stretch)
    requires i <= |oldLines| && j <= |newLines| && i + j < |oldLines| + |newLines|
    ensures i <= r.i <= |oldLines| && j <= r.j <= |newLines| && i + j < r.i + r.j
  {
    if i >= |oldLines| then Stretch(Marked(Added, newLines[j..j + 1]), i, j + 1)
    else if j >= |newLines| then Stretch(Marked(Removed, oldLines[i..i + 1]), i + 1, j)
    else if oldLines[i] == newLines[j] then Stretch(Marked(Kept, oldLines[i..i + 1]), i + 1, j + 1)
    else match Lookahead(oldLines, newLines, i, j, 1)
      case SkipNew(n) => Stretch(Marked(Added, newLines[j..j + n]), i, j + n)
      case SkipOld(n) => Stretch(Marked(Removed, oldLines[i..i + n]), i + n, j)
      case NoMatch =>
        Stretch(Marked(Removed, oldLines[i..i + 1]) + Marked(Added, newLines[j..j + 1]), i + 1, j + 1)
  }

  /** The changes for what is left of the files. */
  function Script(oldLines: seq<string>, newLines: seq<string>, i: nat, j: nat): seq<Change>
    requires i <= |oldLines| && j <= |newLines|
    decreases |oldLines| - i + |newLines| - j
  {
    if i + j == |oldLines| + |newLines| then []
    else
      var r := Round(oldLines, newLines, i, j);
      r.changes + Script(oldLines, newLines, r.i, r.j)
  }

  /** A stretch of changes and a script for the rest. */
  lemma Joins(c: seq<Change>, rest: seq<Change>, oldLines: seq<string>, newLines: seq<string>,
              i: nat, j: nat, i': nat, j': nat)
    requires i <= i' <= |oldLines| && j <= j' <= |newLines|
    requires OldSide(c) == oldLines[i..i'] && NewSide(c) == newLines[j..j']
    requires OldSide(rest) == oldLines[i'..] && NewSide(rest) == newLines[j'..]
    ensures OldSide(c + rest) == oldLines[i..] && NewSide(c + rest) == newLines[j..]
  {
    SidesAppend(c, rest);
    Glue(oldLines, i, i');
    Glue(newLines, j, j');
  }

  lemma Glue(lines: seq<string>, i: nat, i': nat)
    requires i <= i' <= |lines|
    ensures lines[i..i'] + lines[i'..] == lines[i..] && lines[i..i] == []
  {
  }

  /** One line, marked. */
  lemma OneMarked(mark: Mark, lines: seq<string>, i: nat)
    requires i < |lines|
    ensures Marked(mark, lines[i..i + 1]) == [Change(mark, lines[i])]
  {
    assert lines[i..i + 1][1..] == [];
  }

  lemma ReplacementSides(removed: seq<string>, added: seq<string>)
    ensures var c := Marked(Removed, removed) + Marked(Added, added); OldSide(c) == removed && NewSide(c) == added
  {
    MarkedSides(Removed, removed);
    MarkedSides(Added, added);
    SidesAppend(Marked(Removed, removed), Marked(Added, added));
  }

  /** The changes of a stretch spell the lines it passes, on both sides. */
  ghost predicate Spells(r: Stretch, oldLines: seq<string>, newLines: seq<string>, i: nat, j: nat) {
    i <= r.i <= |oldLines| && j <= r.j <= |newLines|
    && OldSide(r.changes) == oldLines[i..r.i] && NewSide(r.changes) == newLines[j..r.j]
  }

  lemma AddedSpells(oldLines: seq<string>, newLines: seq<string>, i: nat, j: nat, n: nat)
    requires i <= |oldLines| && j + n <= |newLines|
    ensures Spells(Stretch(Marked(Added, newLines[j..j + n]), i, j + n), oldLines, newLines, i, j)
  {
    Glue(oldLines, i, i);
    MarkedSides(Added, newLines[j..j + n]);
  }

  lemma RemovedSpells(oldLines: seq<string>, newLines: seq<string>, i: nat, j: nat, n: nat)
    requires i + n <= |oldLines| && j <= |newLines|
    ensures Spells(Stretch(Marked(Removed, oldLines[i..i + n]), i + n, j), oldLines, newLines, i, j)
  {
    Glue(newLines, j, j);
    MarkedSides(Removed, oldLines[i..i + n]);
  }

  lemma KeptSpells(oldLines: seq<string>, newLines: seq<string>, i: nat, j: nat)
    requires i < |oldLines| && j < |newLines| && oldLines[i] == newLines[j]
    ensures Spells(Stretch(Marked(Kept, oldLines[i..i + 1]), i + 1, j + 1), oldLines, newLines, i, j)
  {
    MarkedSides(Kept, oldLines[i..i + 1]);
    assert oldLines[i..i + 1] == [oldLines[i]] && newLines[j..j + 1] == [newLines[j]];
  }

  lemma RoundSpells(oldLines: seq<string>, newLines: seq<string>, i: nat, j: nat)
    requires i <= |oldLines| && j <= |newLines| && i + j < |oldLines| + |newLines|
    ensures Spells(Round(oldLines, newLines, i, j), oldLines, newLines, i, j)
  {
    if i >= |oldLines| {
      AddedSpells(oldLines, newLines, i, j, 1);
    } else if j >= |newLines| {
      RemovedSpells(oldLines, newLines, i, j, 1);
    } else if oldLines[i] == newLines[j] {
      KeptSpells(oldLines, newLines, i, j);
    } else {
      match Lookahead(oldLines, newLines, i, j, 1)
      case SkipNew(n) => AddedSpells(oldLines, newLines, i, j, n);
      case SkipOld(n) => RemovedSpells(oldLines, newLines, i, j, n);
      case NoMatch => ReplacementSides(oldLines[i..i + 1], newLines[j..j + 1]);
    }
  }

  /** The alignment spells both files, whatever they are. */
  lemma {:induction false} ScriptSpellsBothFiles(oldLines: seq<string>, newLines: seq<string>, i: nat, j: nat)
    requires i <= |oldLines| && j <= |newLines|
    ensures OldSide(Script(oldLines, newLines, i, j)) == oldLines[i..]
    ensures NewSide(Script(oldLines, newLines, i, j)) == newLines[j..]
    decreases |oldLines| - i + |newLines| - j
  {
    if i + j < |oldLines| + |newLines| {
      var r := Round(oldLines, newLines, i, j);
      RoundSpells(oldLines, newLines, i, j);
      ScriptSpellsBothFiles(oldLines, newLines, r.i, r.j);
      Joins(r.changes, Script(oldLines, newLines, r.i, r.j), oldLines, newLines, i, j, r.i, r.j);
    }
  }

  /** Equal files are kept line by line. */
  lemma {:induction false} EqualFilesAreKept(lines: seq<string>, i: nat)
    requires i <= |lines|
    ensures AllKept(Script(lines, lines, i, i))
    decreases |lines| - i
  {
    if i < |lines| {
      EqualFilesAreKept(lines, i + 1);
      OneMarked(Kept, lines, i);
      assert Round(lines, lines, i, i) == Stretch([Change(Kept, lines[i])], i + 1, i + 1);
    }
  }

  lemma KeptIffEqual(oldLines: seq<string>, newLines: seq<string>)
    ensures AllKept(Script(oldLines, newLines, 0, 0)) <==> oldLines == newLines
  {
    ScriptSpellsBothFiles(oldLines, newLines, 0, 0);
    if oldLines == newLines { EqualFilesAreKept(oldLines, 0); }
    if AllKept(Script(oldLines, newLines, 0, 0)) { KeptSides(Script(oldLines, newLines, 0, 0)); }
  }

  // ---- small edits are shown as they are ----

  /** What the lookahead finds: the nearest match within two lines, on the new side first. */
  lemma LookaheadFindsNearest(oldLines: seq<string>, newLines: seq<string>, i: nat, j: nat)
    requires i < |oldLines| && j < |newLines|
    ensures var skip := Lookahead(oldLines, newLines, i, j, 1);
      var onNew := (n: nat) => LineIs(newLines, j + n, oldLines[i]);
      var onOld := (n: nat) => LineIs(oldLines, i + n, newLines[j]);
      if onNew(1) then skip == SkipNew(1)
      else if onOld(1) then skip == SkipOld(1)
      else if onNew(2) then skip == SkipNew(2)
      else if onOld(2) then skip == SkipOld(2)
      else skip == NoMatch
  {
    assert Lookahead(oldLines, newLines, i, j, 3) == NoMatch;
    assert Lookahead(oldLines, newLines, i, j, 2) ==
      if LineIs(newLines, j + 2, oldLines[i]) then SkipNew(2)
      else if LineIs(oldLines, i + 2, newLines[j]) then SkipOld(2) else NoMatch;
  }

  lemma OneRound(oldLines: seq<string>, newLines: seq<string>, i: nat, j: nat, r: Stretch)
    requires i <= |oldLines| && j <= |newLines| && i + j < |oldLines| + |newLines|
    requires r == Round(oldLines, newLines, i, j)
    ensures Script(oldLines, newLines, i, j) == r.changes + Script(oldLines, newLines, r.i, r.j)
  {
  }

  lemma KeptRound(oldLines: seq<string>, newLines: seq<string>, i: nat, j: nat)
    requires i < |oldLines| && j < |newLines| && oldLines[i] == newLines[j]
    ensures Script(oldLines, newLines, i, j) ==
      [Change(Kept, oldLines[i])] + Script(oldLines, newLines, i + 1, j + 1)
  {
    OneMarked(Kept, oldLines, i);
    OneRound(oldLines, newLines, i, j, Stretch([Change(Kept, oldLines[i])], i + 1, j + 1));
  }

  lemma MarkedFrom(mark: Mark, lines: seq<string>, i: nat, end: nat)
    requires i < end <= |lines|
    ensures Marked(mark, lines[i..end]) == [Change(mark, lines[i])] + Marked(mark, lines[i + 1..end])
  {
    assert lines[i..end][1..] == lines[i + 1..end];
  }

  /** The lines stand in the file from this index on. */
  predicate StandsAt(lines: seq<string>, i: nat, part: seq<string>) {
    i + |part| <= |lines| && lines[i..i + |part|] == part
  }

  lemma StandsTail(lines: seq<string>, i: nat, part: seq<string>)
    requires StandsAt(lines, i, part) && part != []
    ensures lines[i] == part[0] && StandsAt(lines, i + 1, part[1..])
  {
    assert lines[i..i + |part|][0] == part[0] && lines[i..i + |part|][1..] == lines[i + 1..i + |part|];
  }

  /** Lines that agree from the cursors on are kept. */
  lemma {:induction false} CommonLinesAreKept(oldLines: seq<string>, newLines: seq<string>, i: nat, j: nat,
                                              common: seq<string>)
    requires StandsAt(oldLines, i, common) && StandsAt(newLines, j, common)
    ensures Script(oldLines, newLines, i, j) ==
      Marked(Kept, common) + Script(oldLines, newLines, i + |common|, j + |common|)
    decreases |common|
  {
    if common != [] {
      StandsTail(oldLines, i, common);
      StandsTail(newLines, j, common);
      CommonLinesAreKept(oldLines, newLines, i + 1, j + 1, common[1..]);
      KeptRound(oldLines, newLines, i, j);
    }
  }

  lemma AddingRound(oldLines: seq<string>, newLines: seq<string>, i: nat, j: nat, n: nat)
    requires i < |oldLines| && j + n < |newLines| && 1 <= n <= 2 && oldLines[i] != newLines[j]
    requires newLines[j + n] == oldLines[i]
    requires n == 2 ==> !LineIs(newLines, j + 1, oldLines[i]) && !LineIs(oldLines, i + 1, newLines[j])
    ensures Script(oldLines, newLines, i, j) ==
      Marked(Added, newLines[j..j + n]) + Script(oldLines, newLines, i, j + n)
  {
    LookaheadFindsNearest(oldLines, newLines, i, j);
    OneRound(oldLines, newLines, i, j, Stretch(Marked(Added, newLines[j..j + n]), i, j + n));
  }

  lemma RemovingRound(oldLines: seq<string>, newLines: seq<string>, i: nat, j: nat, n: nat)
    requires i + n < |oldLines| && j < |newLines| && 1 <= n <= 2 && oldLines[i] != newLines[j]
    requires oldLines[i + n] == newLines[j] && !LineIs(newLines, j + 1, oldLines[i])
    requires n == 2 ==> !LineIs(oldLines, i + 1, newLines[j]) && !LineIs(newLines, j + 2, oldLines[i])
    ensures Script(oldLines, newLines, i, j) ==
      Marked(Removed, oldLines[i..i + n]) + Script(oldLines, newLines, i + n, j)
  {
    LookaheadFindsNearest(oldLines, newLines, i, j);
    OneRound(oldLines, newLines, i, j, Stretch(Marked(Removed, oldLines[i..i + n]), i + n, j));
  }

  lemma ReplacingRound(oldLines: seq<string>, newLines: seq<string>, i: nat, j: nat)
    requires i < |oldLines| && j < |newLines| && oldLines[i] != newLines[j]
    requires !LineIs(newLines, j + 1, oldLines[i]) && !LineIs(oldLines, i + 1, newLines[j])
    requires !LineIs(newLines, j + 2, oldLines[i]) && !LineIs(oldLines, i + 2, newLines[j])
    ensures Script(oldLines, newLines, i, j) ==
      [Change(Removed, oldLines[i]), Change(Added, newLines[j])] + Script(oldLines, newLines, i + 1, j + 1)
  {
    LookaheadFindsNearest(oldLines, newLines, i, j);
    OneMarked(Removed, oldLines, i);
    OneMarked(Added, newLines, j);
    OneRound(oldLines, newLines, i, j,
             Stretch([Change(Removed, oldLines[i]), Change(Added, newLines[j])], i + 1, j + 1));
  }

  lemma {:induction false} AddedAtTheEnd(oldLines: seq<string>, newLines: seq<string>, j: nat)
    requires j <= |newLines|
    ensures Script(oldLines, newLines, |oldLines|, j) == Marked(Added, newLines[j..])
    decreases |newLines| - j
  {
    if j < |newLines| {
      AddedAtTheEnd(oldLines, newLines, j + 1);
      OneMarked(Added, newLines, j);
      MarkedFrom(Added, newLines, j, |newLines|);
      OneRound(oldLines, newLines, |oldLines|, j, Stretch([Change(Added, newLines[j])], |oldLines|, j + 1));
      assert newLines[j..] == newLines[j..|newLines|];
    }
  }

  lemma {:induction false} RemovedAtTheEnd(oldLines: seq<string>, newLines: seq<string>, i: nat)
    requires i <= |oldLines|
    ensures Script(oldLines, newLines, i, |newLines|) == Marked(Removed, oldLines[i..])
    decreases |oldLines| - i
  {
    if i < |oldLines| {
      RemovedAtTheEnd(oldLines, newLines, i + 1);
      OneMarked(Removed, oldLines, i);
      MarkedFrom(Removed, oldLines, i, |oldLines|);
      OneRound(oldLines, newLines, i, |newLines|, Stretch([Change(Removed, oldLines[i])], i + 1, |newLines|));
      assert oldLines[i..] == oldLines[i..|oldLines|];
    }
  }

  /** None of the lines is among the first three after them. */
  predicate Unlike(lines: seq<string>, after: seq<string>) {
    forall m :: 0 <= m < |lines| ==> NotSoon(lines[m], after)
  }

  predicate NotSoon(line: string, after: seq<string>) {
    && (|after| > 0 ==> line != after[0])
    && (|after| > 1 ==> line != after[1])
    && (|after| > 2 ==> line != after[2])
  }

  /** The file is these three parts. */
  predicate Parts(lines: seq<string>, before: seq<string>, middle: seq<string>, after: seq<string>) {
    && |lines| == |before| + |middle| + |after|
    && StandsAt(lines, 0, before) && StandsAt(lines, |before|, middle) && StandsAt(lines, |before| + |middle|, after)
  }

  lemma PartsOf(before: seq<string>, middle: seq<string>, after: seq<string>)
    ensures Parts(before + middle + after, before, middle, after)
  {
  }

  lemma PartLine(lines: seq<string>, i: nat, part: seq<string>, k: nat)
    requires StandsAt(lines, i, part) && k < |part|
    ensures i + k < |lines| && lines[i + k] == part[k]
  {
    assert lines[i..i + |part|][k] == part[k];
  }

  /** The first lines of a part: the only ones that one round looks at. */
  lemma FirstLines(lines: seq<string>, i: nat, part: seq<string>)
    requires StandsAt(lines, i, part)
    ensures |part| > 0 ==> i < |lines| && lines[i] == part[0]
    ensures |part| > 1 ==> i + 1 < |lines| && lines[i + 1] == part[1]
    ensures |part| > 2 ==> i + 2 < |lines| && lines[i + 2] == part[2]
  {
    if |part| > 0 { PartLine(lines, i, part, 0); }
    if |part| > 1 { PartLine(lines, i, part, 1); }
    if |part| > 2 { PartLine(lines, i, part, 2); }
  }

  /** What two files share before and after a place is kept. */
  lemma KeptBefore(oldLines: seq<string>, newLines: seq<string>, before: seq<string>)
    requires StandsAt(oldLines, 0, before) && StandsAt(newLines, 0, before)
    ensures Script(oldLines, newLines, 0, 0) ==
      Marked(Kept, before) + Script(oldLines, newLines, |before|, |before|)
  {
    CommonLinesAreKept(oldLines, newLines, 0, 0, before);
  }

  lemma KeptAfter(oldLines: seq<string>, newLines: seq<string>, i: nat, j: nat, after: seq<string>)
    requires StandsAt(oldLines, i, after) && i + |after| == |oldLines|
    requires StandsAt(newLines, j, after) && j + |after| == |newLines|
    ensures Script(oldLines, newLines, i, j) == Marked(Kept, after)
  {
    CommonLinesAreKept(oldLines, newLines, i, j, after);
  }

  /** The changes at the place where one or two lines are put in. */
  lemma InsertedHere(oldLines: seq<string>, newLines: seq<string>, i: nat, lines: seq<string>, after: seq<string>)
    requires 1 <= |lines| <= 2 && Unlike(lines, after)
    requires StandsAt(oldLines, i, after) && i + |after| == |oldLines|
    requires StandsAt(newLines, i, lines) && StandsAt(newLines, i + |lines|, after)
    requires i + |lines| + |after| == |newLines|
    ensures Script(oldLines, newLines, i, i) == Marked(Added, lines) + Script(oldLines, newLines, i, i + |lines|)
  {
    if after == [] {
      InsertedAtTheEnd(oldLines, newLines, i, lines);
    } else {
      FirstLines(oldLines, i, after);
      FirstLines(newLines, i, lines);
      FirstLines(newLines, i + |lines|, after);
      assert NotSoon(lines[0], after) && NotSoon(lines[|lines| - 1], after);
      AddingRound(oldLines, newLines, i, i, |lines|);
    }
  }

  lemma InsertedAtTheEnd(oldLines: seq<string>, newLines: seq<string>, i: nat, lines: seq<string>)
    requires i == |oldLines| && StandsAt(newLines, i, lines) && i + |lines| == |newLines|
    ensures Script(oldLines, newLines, i, i) == Marked(Added, lines) + Script(oldLines, newLines, i, i + |lines|)
  {
    AddedAtTheEnd(oldLines, newLines, i);
    AddedAtTheEnd(oldLines, newLines, i + |lines|);
    assert newLines[i..] == lines && newLines[i + |lines|..] == [];
  }

  lemma DeletedHere(oldLines: seq<string>, newLines: seq<string>, i: nat, lines: seq<string>, after: seq<string>)
    requires 1 <= |lines| <= 2 && Unlike(lines, after)
    requires StandsAt(newLines, i, after) && i + |after| == |newLines|
    requires StandsAt(oldLines, i, lines) && StandsAt(oldLines, i + |lines|, after)
    requires i + |lines| + |after| == |oldLines|
    ensures Script(oldLines, newLines, i, i) == Marked(Removed, lines) + Script(oldLines, newLines, i + |lines|, i)
  {
    if after == [] {
      DeletedAtTheEnd(oldLines, newLines, i, lines);
    } else {
      FirstLines(newLines, i, after);
      FirstLines(oldLines, i, lines);
      FirstLines(oldLines, i + |lines|, after);
      assert NotSoon(lines[0], after) && NotSoon(lines[|lines| - 1], after);
      RemovingRound(oldLines, newLines, i, i, |lines|);
    }
  }

  lemma DeletedAtTheEnd(oldLines: seq<string>, newLines: seq<string>, i: nat, lines: seq<string>)
    requires i == |newLines| && StandsAt(oldLines, i, lines) && i + |lines| == |oldLines|
    ensures Script(oldLines, newLines, i, i) == Marked(Removed, lines) + Script(oldLines, newLines, i + |lines|, i)
  {
    RemovedAtTheEnd(oldLines, newLines, i);
    RemovedAtTheEnd(oldLines, newLines, i + |lines|);
    assert oldLines[i..] == lines && oldLines[i + |lines|..] == [];
  }

  lemma ReplacedHere(oldLines: seq<string>, newLines: seq<string>, i: nat, x: string, y: string, after: seq<string>)
    requires x != y && NotSoon(x, after) && NotSoon(y, after)
    requires StandsAt(oldLines, i, [x]) && StandsAt(oldLines, i + 1, after) && i + 1 + |after| == |oldLines|
    requires StandsAt(newLines, i, [y]) && StandsAt(newLines, i + 1, after) && i + 1 + |after| == |newLines|
    ensures Script(oldLines, newLines, i, i) ==
      [Change(Removed, x), Change(Added, y)] + Script(oldLines, newLines, i + 1, i + 1)
  {
    FirstLines(oldLines, i, [x]);
    FirstLines(newLines, i, [y]);
    FirstLines(oldLines, i + 1, after);
    FirstLines(newLines, i + 1, after);
    ReplacingRound(oldLines, newLines, i, i);
  }

  lemma InsertedThenKept(oldLines: seq<string>, newLines: seq<string>, i: nat, lines: seq<string>, after: seq<string>)
    requires 1 <= |lines| <= 2 && Unlike(lines, after)
    requires StandsAt(oldLines, i, after) && i + |after| == |oldLines|
    requires StandsAt(newLines, i, lines) && StandsAt(newLines, i + |lines|, after)
    requires i + |lines| + |after| == |newLines|
    ensures Script(oldLines, newLines, i, i) == Marked(Added, lines) + Marked(Kept, after)
  {
    InsertedHere(oldLines, newLines, i, lines, after);
    KeptAfter(oldLines, newLines, i, i + |lines|, after);
  }

  lemma DeletedThenKept(oldLines: seq<string>, newLines: seq<string>, i: nat, lines: seq<string>, after: seq<string>)
    requires 1 <= |lines| <= 2 && Unlike(lines, after)
    requires StandsAt(newLines, i, after) && i + |after| == |newLines|
    requires StandsAt(oldLines, i, lines) && StandsAt(oldLines, i + |lines|, after)
    requires i + |lines| + |after| == |oldLines|
    ensures Script(oldLines, newLines, i, i) == Marked(Removed, lines) + Marked(Kept, after)
  {
    DeletedHere(oldLines, newLines, i, lines, after);
    KeptAfter(oldLines, newLines, i + |lines|, i, after);
  }

  /** One or two lines put in are shown as added and everything else as kept, if they are unlike the three
      lines after them. */
  lemma InsertionIsShown(before: seq<string>, lines: seq<string>, after: seq<string>)
    requires 1 <= |lines| <= 2 && Unlike(lines, after)
    ensures Script(before + [] + after, before + lines + after, 0, 0) ==
      Marked(Kept, before) + (Marked(Added, lines) + Marked(Kept, after))
  {
    var a, b := before + [] + after, before + lines + after;
    PartsOf(before, [], after);
    PartsOf(before, lines, after);
    InsertedThenKept(a, b, |before|, lines, after);
    KeptBefore(a, b, before);
  }

  /** One or two lines taken out are shown as removed and everything else as kept, if they are unlike the
      three lines after them. */
  lemma DeletionIsShown(before: seq<string>, lines: seq<string>, after: seq<string>)
    requires 1 <= |lines| <= 2 && Unlike(lines, after)
    ensures Script(before + lines + after, before + [] + after, 0, 0) ==
      Marked(Kept, before) + (Marked(Removed, lines) + Marked(Kept, after))
  {
    var a, b := before + lines + after, before + [] + after;
    PartsOf(before, [], after);
    PartsOf(before, lines, after);
    DeletedThenKept(a, b, |before|, lines, after);
    KeptBefore(a, b, before);
  }

  /** A replaced line is shown as removed and added and everything else as kept, if neither version is like
      one of the three lines after it. */
  lemma ReplacementIsShown(before: seq<string>, x: string, y: string, after: seq<string>)
    requires x != y && NotSoon(x, after) && NotSoon(y, after)
    ensures Script(before + [x] + after, before + [y] + after, 0, 0) ==
      Marked(Kept, before) + ([Change(Removed, x), Change(Added, y)] + Marked(Kept, after))
  {
    var a, b := before + [x] + after, before + [y] + after;
    PartsOf(before, [x], after);
    PartsOf(before, [y], after);
    KeptBefore(a, b, before);
    ReplacedHere(a, b, |before|, x, y, after);
    KeptAfter(a, b, |before| + 1, |before| + 1, after);
  }

  lemma ScriptGoesOn(oldLines: seq<string>, newLines: seq<string>, i: nat, j: nat, before: seq<Change>)
    requires i <= |oldLines| && j <= |newLines| && i + j < |oldLines| + |newLines|
    ensures var r := Round(oldLines, newLines, i, j);
      before + Script(oldLines, newLines, i, j) == (before + r.changes) + Script(oldLines, newLines, r.i, r.j)
  {
    var r := Round(oldLines, newLines, i, j);
    assert Script(oldLines, newLines, i, j) == r.changes + Script(oldLines, newLines, r.i, r.j);
  }

  /** The alignment loop. */
  method Align(oldLines: seq<string>, newLines: seq<string>) returns (changes: seq<Change>)
    ensures changes == Script(oldLines, newLines, 0, 0)
  {
    changes := [];
    var i: nat, j: nat := 0, 0;
    while i < |oldLines| || j < |newLines|
      invariant i <= |oldLines| && j <= |newLines|
      invariant changes + Script(oldLines, newLines, i, j) == Script(oldLines, newLines, 0, 0)
      decreases |oldLines| - i + |newLines| - j
    {
      var r := AlignRound(oldLines, newLines, i, j);
      ScriptGoesOn(oldLines, newLines, i, j, changes);
      changes, i, j := changes + r.changes, r.i, r.j;
    }
  }

  method AlignRound(oldLines: seq<string>, newLines: seq<string>, i: nat, j: nat) returns (r: Stretch)
    requires i <= |oldLines| && j <= |newLines| && i + j < |oldLines| + |newLines|
    ensures r == Round(oldLines, newLines, i, j)
  {
    if i >= |oldLines| {
      OneMarked(Added, newLines, j);
      return Stretch([Change(Added, newLines[j])], i, j + 1);
    }
    OneMarked(Removed, oldLines, i);
    if j >= |newLines| {
      return Stretch([Change(Removed, oldLines[i])], i + 1, j);
    }
    OneMarked(Added, newLines, j);
    if oldLines[i] == newLines[j] {
      OneMarked(Kept, oldLines, i);
      return Stretch([Change(Kept, oldLines[i])], i + 1, j + 1);
    }
    // Try a lookahead of two lines to find a match.
    for look := 1 to 3
      invariant Lookahead(oldLines, newLines, i, j, 1) == Lookahead(oldLines, newLines, i, j, look)
    {
      if LineIs(newLines, j + look, oldLines[i]) {
        return Stretch(Marked(Added, newLines[j..j + look]), i, j + look);
      }
      if LineIs(oldLines, i + look, newLines[j]) {
        return Stretch(Marked(Removed, oldLines[i..i + look]), i + look, j);
      }
    }
    return Stretch([Change(Removed, oldLines[i]), Change(Added, newLines[j])], i + 1, j + 1);
  }

  // ---- the hunk ----

  predicate Changed(changes: seq<Change>, k: nat) { k < |changes| && changes[k].mark != Kept }

  /** `first` and `last` are the indices of the first and the last changed line. */
  ghost predicate ChangedRange(changes: seq<Change>, first: nat, last: nat) {
    Changed(changes, first) && Changed(changes, last) && forall k: nat :: Changed(changes, k) ==> first <= k <= last
  }

  /** The single hunk runs from three lines before the first changed line to three lines after the
      last one, or as far as there are lines. */
  ghost predicate IsHunkOf(changes: seq<Change>, start: nat, hunk: seq<Change>) {
    exists first: nat, last: nat :: HunkAround(changes, first, last, start, hunk)
  }

  ghost predicate HunkAround(changes: seq<Change>, first: nat, last: nat, start: nat, hunk: seq<Change>) {
    && ChangedRange(changes, first, last)
    && start == (if first < MAX_CONTEXT then 0 else first - MAX_CONTEXT)
    && hunk == changes[start..HunkEnd(changes, last)]
  }

  function HunkEnd(changes: seq<Change>, last: nat): (end: nat)
    requires last < |changes|
    ensures last < end <= |changes|
  {
    if last + MAX_CONTEXT < |changes| then last + MAX_CONTEXT + 1 else |changes|
  }

  /** A hunk shows three kept lines before its first change and after its last one, fewer only where the
      file begins or ends. */
  lemma HunkShowsThreeLines(changes: seq<Change>, start: nat, hunk: seq<Change>) returns (lead: nat, trail: nat)
    requires IsHunkOf(changes, start, hunk)
    ensures lead + trail < |hunk| && lead <= 3 && trail <= 3
    ensures AllKept(hunk[..lead]) && hunk[lead].mark != Kept && (lead < 3 ==> start == 0)
    ensures AllKept(hunk[|hunk| - trail..]) && hunk[|hunk| - trail - 1].mark != Kept
    ensures trail < 3 ==> start + |hunk| == |changes|
  {
    var first: nat, last: nat :| HunkAround(changes, first, last, start, hunk);
    lead := first - start;
    trail := start + |hunk| - 1 - last;
    forall k | 0 <= k < lead ensures hunk[..lead][k].mark == Kept {
      assert !Changed(changes, start + k);
    }
    var tail := hunk[|hunk| - trail..];
    forall k | 0 <= k < trail ensures tail[k].mark == Kept {
      assert !Changed(changes, last + 1 + k);
    }
  }

  /** The first and last of the changed indices, if there are any. */
  method ChangedIndices(changes: seq<Change>) returns (first: nat, last: nat)
    ensures first == |changes| ==> AllKept(changes)
    ensures first != |changes| ==> ChangedRange(changes, first, last)
  {
    first, last := |changes|, 0;
    for k := 0 to |changes|
      invariant first == |changes| ==> forall n: nat :: n < k ==> !Changed(changes, n)
      invariant first != |changes| ==> Changed(changes, first) && Changed(changes, last) && last < k
      invariant first != |changes| ==> forall n: nat :: n < k && Changed(changes, n) ==> first <= n <= last
    {
      if changes[k].mark != Kept {
        if first == |changes| { first := k; }
        last := k;
      }
    }
    forall n | 0 <= n < |changes| && first == |changes| ensures changes[n].mark == Kept {
      assert !Changed(changes, n);
    }
  }

  method BuildDiff(oldLines: seq<string>, newLines: seq<string>) returns (diff: Diff)
    ensures diff.NoChanges? <==> oldLines == newLines
    ensures diff.Hunk? ==> diff.line >= 1 && IsHunkOf(Script(oldLines, newLines, 0, 0), diff.line - 1, diff.changes)
  {
    var changes := Align(oldLines, newLines);
    var first, last := ChangedIndices(changes);
    KeptIffEqual(oldLines, newLines);
    if first == |changes| {
      return NoChanges;
    }
    var hunkStart := if first < MAX_CONTEXT then 0 else first - MAX_CONTEXT;
    var hunkEnd := if last + MAX_CONTEXT < |changes| then last + MAX_CONTEXT else |changes| - 1;
    assert hunkEnd + 1 == HunkEnd(changes, last);
    diff := Hunk(hunkStart + 1, changes[hunkStart..hunkEnd + 1]);
    assert HunkAround(changes, first, last, hunkStart, diff.changes);
  }

  /** Replacing the hunk's old lines, at its stated line number, by its new lines. */
  function Patch(oldLines: seq<string>, diff: Diff): seq<string>
    requires diff.Hunk? ==> 1 <= diff.line && diff.line - 1 + |OldSide(diff.changes)| <= |oldLines|
  {
    match diff
    case NoChanges => oldLines
    case Hunk(line, changes) =>
      oldLines[..line - 1] + NewSide(changes) + oldLines[line - 1 + |OldSide(changes)|..]
  }

  /** What the operator approves is what will be written: the hunk's old lines stand in the old file
      at the stated line, and patching them gives the proposed file. */
  lemma DiffIsFaithful(oldLines: seq<string>, newLines: seq<string>, line: nat, hunk: seq<Change>)
    requires line >= 1 && IsHunkOf(Script(oldLines, newLines, 0, 0), line - 1, hunk)
    ensures line - 1 + |OldSide(hunk)| <= |oldLines|
    ensures oldLines[line - 1..line - 1 + |OldSide(hunk)|] == OldSide(hunk)
    ensures Patch(oldLines, Hunk(line, hunk)) == newLines
    ensures line - 1 + |NewSide(hunk)| <= |newLines|
    ensures newLines[line - 1..line - 1 + |NewSide(hunk)|] == NewSide(hunk)
  {
    var changes := Script(oldLines, newLines, 0, 0);
    var before, after := HunkParts(changes, line - 1, hunk);
    ScriptSpellsBothFiles(oldLines, newLines, 0, 0);
    ThreeParts(changes, before, hunk, after);
    KeptSides(before);
    KeptSides(after);
    Splice(oldLines, OldSide(before), OldSide(hunk), OldSide(after));
    Splice(newLines, NewSide(before), NewSide(hunk), NewSide(after));
    PatchSplices(oldLines, newLines, line, hunk, OldSide(before), OldSide(after));
  }

  lemma PatchSplices(oldLines: seq<string>, newLines: seq<string>, line: nat, hunk: seq<Change>,
                     a: seq<string>, c: seq<string>)
    requires line >= 1 && |a| == line - 1
    requires oldLines == a + OldSide(hunk) + c && newLines == a + NewSide(hunk) + c
    ensures line - 1 + |OldSide(hunk)| <= |oldLines| && Patch(oldLines, Hunk(line, hunk)) == newLines
  {
    Splice(oldLines, a, OldSide(hunk), c);
  }

  /** Nothing outside the hunk is changed. */
  lemma HunkParts(changes: seq<Change>, start: nat, hunk: seq<Change>) returns (before: seq<Change>, after: seq<Change>)
    requires IsHunkOf(changes, start, hunk)
    ensures changes == before + hunk + after && |before| == start
    ensures AllKept(before) && AllKept(after)
  {
    var first: nat, last: nat :| HunkAround(changes, first, last, start, hunk);
    var end := HunkEnd(changes, last);
    before, after := changes[..start], changes[end..];
    Cut(changes, start, end);
    KeptOutside(changes, first, last, start, end);
  }

  lemma KeptOutside(changes: seq<Change>, first: nat, last: nat, start: nat, end: nat)
    requires ChangedRange(changes, first, last) && start <= first && last < end <= |changes|
    ensures AllKept(changes[..start]) && AllKept(changes[end..])
  {
    forall k | 0 <= k < start ensures changes[..start][k].mark == Kept {
      assert !Changed(changes, k);
    }
    var after := changes[end..];
    forall k | 0 <= k < |after| ensures after[k].mark == Kept {
      assert !Changed(changes, end + k);
    }
  }

  lemma Cut(changes: seq<Change>, start: nat, end: nat)
    requires start <= end <= |changes|
    ensures changes[..start] + changes[start..end] + changes[end..] == changes
  {
  }

  lemma ThreeParts(changes: seq<Change>, before: seq<Change>, hunk: seq<Change>, after: seq<Change>)
    requires changes == before + hunk + after
    ensures OldSide(changes) == OldSide(before) + OldSide(hunk) + OldSide(after)
    ensures NewSide(changes) == NewSide(before) + NewSide(hunk) + NewSide(after)
  {
    SidesAppend(before + hunk, after);
    SidesAppend(before, hunk);
  }

  lemma Splice(whole: seq<string>, a: seq<string>, b: seq<string>, c: seq<string>)
    requires whole == a + b + c
    ensures whole[..|a|] == a && whole[|a|..|a| + |b|] == b && whole[|a| + |b|..] == c
  {
  }
}
