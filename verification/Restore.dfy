/** Restoring a backup at start-up, before the application opens its database. Every file-system call
    is one step, copying a file is two, and the process may die between any two steps and be started
    again. A completed call is durable; an integrity check accepts exactly the whole files. */
module Restore {
  import opened Common

  datatype File = Whole(image: nat) | Broken

  datatype Marker = NoMarker | Unreadable | Pending

  /** `backup` is the file the marker names. `wal` and `shm` say whether the sidecars of the outgoing
      database are there. `swapped` is history: the staged copy has been renamed into place. */
  datatype Disk = Disk(
    marker: Marker,
    backup: Option<File>,
    main: Option<File>,
    wal: bool,
    shm: bool,
    staging: Option<File>,
    preRestore: Option<File>,
    swapped: bool)

  /** The call that is next. `Done` returns to the caller, `Thrown` lets an error escape. */
  datatype Pc =
    | ReadMarker | StatBackup | CheckBackup | MakeDir | CopyOutgoing | FillOutgoing | ClearStaging | CopyStaging
    | FillStaging | VerifyStaged | RemoveWal | RemoveShm | Rename | Cleanup | DropMarker | Done | Thrown

  /** What becomes of a call: it works, it works but writes damaged data, it fails, or the process
      dies before it. */
  datatype Event = Go | Corrupting | Fail | Crash

  datatype Boot = Boot(pc: Pc, disk: Disk)

  predicate IntactBackup(d: Disk) { d.backup.Some? && d.backup.value.Whole? }

  /** One step of a boot; a crash starts the next one. Once done, the application runs. */
  function Step(s: Boot, e: Event): Boot {
    var d := s.disk;
    if s.pc == Done then s
    else if e == Crash then Boot(ReadMarker, d)
    else
      var failed := e == Fail;
      match s.pc
      case ReadMarker => Boot(if failed || d.marker != Pending then Done else StatBackup, d)
      case StatBackup => Boot(if failed || d.backup.None? then DropMarker else CheckBackup, d)
      case CheckBackup => Boot(if failed || !IntactBackup(d) then DropMarker else MakeDir, d)
      case MakeDir => Boot(if failed then Thrown else CopyOutgoing, d)
      case CopyOutgoing =>
        if failed || d.main.None? then Boot(ClearStaging, d) else Boot(FillOutgoing, d.(preRestore := Some(Broken)))
      case FillOutgoing => Boot(ClearStaging, if e == Go then d.(preRestore := d.main) else d)
      case ClearStaging => if failed then Boot(Cleanup, d) else Boot(CopyStaging, d.(staging := None))
      case CopyStaging => if failed then Boot(Cleanup, d) else Boot(FillStaging, d.(staging := Some(Broken)))
      case FillStaging =>
        if failed then Boot(Cleanup, d) else Boot(VerifyStaged, if e == Go then d.(staging := d.backup) else d)
      case VerifyStaged => Boot(if failed || d.staging.None? || d.staging.value.Broken? then Cleanup else RemoveWal, d)
      case RemoveWal => if failed then Boot(Cleanup, d) else Boot(RemoveShm, d.(wal := false))
      case RemoveShm => if failed then Boot(Cleanup, d) else Boot(Rename, d.(shm := false))
      case Rename =>
        if failed then Boot(Cleanup, d) else Boot(DropMarker, d.(main := d.staging, staging := None, swapped := true))
      case Cleanup => if failed then Boot(Thrown, d) else Boot(DropMarker, d.(staging := None))
      case DropMarker => if failed then Boot(Thrown, d) else Boot(Done, d.(marker := NoMarker))
      case Done => s
      case Thrown => s
  }

  function Run(s: Boot, events: seq<Event>): Boot
    decreases |events|
  {
    if events == [] then s else Step(Run(s, events[..|events| - 1]), events[|events| - 1])
  }

  /** A disk as the application left it, with a restore scheduled or not. */
  predicate Fresh(d: Disk) { !d.swapped }

  // ---- crash safety ----

  predicate Checked(pc: Pc) {
    || pc.MakeDir? || pc.CopyOutgoing? || pc.FillOutgoing?
    || pc.ClearStaging? || pc.CopyStaging? || pc.FillStaging? || pc.VerifyStaged?
  }

  /** What is known of the staging file and the sidecars at each call. */
  ghost predicate StageInv(s: Boot) {
    var d := s.disk;
    && (Checked(s.pc) ==> IntactBackup(d))
    && (s.pc.FillStaging? ==> d.staging == Some(Broken))
    && (s.pc.VerifyStaged? ==> d.staging == d.backup || d.staging == Some(Broken))
    && (s.pc.RemoveWal? || s.pc.RemoveShm? || s.pc.Rename? ==> IntactBackup(d) && d.staging == d.backup)
    && (s.pc.RemoveShm? || s.pc.Rename? ==> !d.wal)
    && (s.pc.Rename? ==> !d.shm)
  }

  ghost predicate DiskInv(first: Disk, d: Disk) {
    && d.backup == first.backup
    && (if d.swapped then IntactBackup(d) && d.main == d.backup && !d.wal && !d.shm else d.main == first.main)
    && (d.wal ==> first.wal) && (d.shm ==> first.shm)
    && (d.marker == first.marker || d.marker == NoMarker)
  }

  ghost predicate SafeInv(first: Disk, s: Boot) {
    StageInv(s) && DiskInv(first, s.disk)
  }

  lemma StepKeepsStage(s: Boot, e: Event)
    requires StageInv(s)
    ensures StageInv(Step(s, e))
  {
  }

  lemma StepKeepsDisk(first: Disk, s: Boot, e: Event)
    requires StageInv(s) && DiskInv(first, s.disk)
    ensures DiskInv(first, Step(s, e).disk)
  {
  }

  lemma StepKeepsSafe(first: Disk, s: Boot, e: Event)
    requires SafeInv(first, s)
    ensures SafeInv(first, Step(s, e))
  {
    StepKeepsStage(s, e);
    StepKeepsDisk(first, s, e);
  }

  lemma {:induction false} RunKeepsSafe(first: Disk, events: seq<Event>)
    requires Fresh(first)
    ensures SafeInv(first, Run(Boot(ReadMarker, first), events))
    decreases |events|
  {
    if events != [] {
      var init := events[..|events| - 1];
      RunKeepsSafe(first, init);
      StepKeepsSafe(first, Run(Boot(ReadMarker, first), init), events[|events| - 1]);
    }
  }

  /** At every moment of every run, with crashes and I/O errors anywhere: the live file is the old one
      or the whole verified backup, and when it is the backup no old sidecar lies beside it. The
      backup itself is never touched. */
  lemma CrashSafe(first: Disk, events: seq<Event>)
    requires Fresh(first)
    ensures var d := Run(Boot(ReadMarker, first), events).disk;
      && d.backup == first.backup
      && (if d.swapped then IntactBackup(first) && d.main == first.backup && !d.wal && !d.shm else d.main == first.main)
  {
    RunKeepsSafe(first, events);
  }

  // ---- one boot that is not interrupted ----

  /** How each call of a boot turns out. */
  type Faults = Pc -> Event

  ghost predicate NoCrash(f: Faults) { forall pc :: f(pc) != Crash }

  function Rank(pc: Pc): nat {
    match pc
    case ReadMarker => 15 case StatBackup => 14 case CheckBackup => 13 case MakeDir => 12
    case CopyOutgoing => 11 case FillOutgoing => 10 case ClearStaging => 9 case CopyStaging => 8
    case FillStaging => 7 case VerifyStaged => 6 case RemoveWal => 5 case RemoveShm => 4 case Rename => 3
    case Cleanup => 2 case DropMarker => 1 case Done => 0 case Thrown => 0
  }

  ghost function Finish(s: Boot, f: Faults): Boot
    requires NoCrash(f)
    decreases Rank(s.pc)
  {
    if Rank(s.pc) == 0 then s else Finish(Step(s, f(s.pc)), f)
  }

  function AllGo(): Faults { (pc: Pc) => Go }

  /** Where an uninterrupted boot without errors ends. */
  function Restored(d: Disk): Disk {
    if d.marker != Pending then d
    else if !IntactBackup(d) then d.(marker := NoMarker)
    else
      d.(marker := NoMarker, main := d.backup, wal := false, shm := false, staging := None, swapped := true,
        preRestore := if d.main.Some? then d.main else d.preRestore)
  }

  lemma GoOn(s: Boot)
    requires Rank(s.pc) != 0
    ensures Finish(s, AllGo()) == Finish(Step(s, Go), AllGo())
  {
  }

  lemma StageBoot(d: Disk)
    ensures Finish(Boot(ClearStaging, d), AllGo()) == Finish(Boot(VerifyStaged, d.(staging := d.backup)), AllGo())
  {
    GoOn(Boot(ClearStaging, d));
    GoOn(Boot(CopyStaging, d.(staging := None)));
    GoOn(Boot(FillStaging, d.(staging := Some(Broken))));
  }

  lemma VerifiedBoot(d: Disk)
    requires IntactBackup(d) && d.staging == d.backup
    ensures var swapped := d.(main := d.backup, wal := false, shm := false, staging := None, swapped := true);
      Finish(Boot(VerifyStaged, d), AllGo()) == Finish(Boot(DropMarker, swapped), AllGo())
  {
    GoOn(Boot(VerifyStaged, d));
    GoOn(Boot(RemoveWal, d));
    GoOn(Boot(RemoveShm, d.(wal := false)));
    GoOn(Boot(Rename, d.(wal := false, shm := false)));
  }

  lemma SwapBoot(d: Disk)
    requires IntactBackup(d)
    ensures Finish(Boot(ClearStaging, d), AllGo()) == Boot(Done, d.(marker := NoMarker, main := d.backup, wal := false,
        shm := false, staging := None, swapped := true))
  {
    StageBoot(d);
    VerifiedBoot(d.(staging := d.backup));
    GoOn(Boot(DropMarker, d.(main := d.backup, wal := false, shm := false, staging := None, swapped := true)));
  }

  lemma GoodBoot(d: Disk)
    ensures Finish(Boot(ReadMarker, d), AllGo()) == Boot(Done, Restored(d))
  {
    GoOn(Boot(ReadMarker, d));
    if d.marker == Pending {
      GoOn(Boot(StatBackup, d));
      if IntactBackup(d) {
        GoOn(Boot(CheckBackup, d));
        GoOn(Boot(MakeDir, d));
        GoOn(Boot(CopyOutgoing, d));
        if d.main.Some? { GoOn(Boot(FillOutgoing, d.(preRestore := Some(Broken)))); }
        SwapBoot(if d.main.Some? then d.(preRestore := d.main) else d);
      } else {
        if d.backup.Some? { GoOn(Boot(CheckBackup, d)); }
        GoOn(Boot(DropMarker, d));
      }
    }
  }

  /** Runs with crashes but no I/O errors keep the marker until the swap is done. */
  ghost predicate PendingInv(s: Boot) {
    IntactBackup(s.disk) && s.pc != Thrown && s.pc != Cleanup
    && (s.pc.VerifyStaged? || s.pc.RemoveWal? || s.pc.RemoveShm? || s.pc.Rename? ==> s.disk.staging == s.disk.backup)
    && (s.pc.DropMarker? ==> s.disk.swapped)
    && (s.pc.DropMarker? || s.pc.Done? ==> s.disk.staging.None?)
    && (if s.pc.Done? then s.disk.swapped && s.disk.marker == NoMarker else s.disk.marker == Pending)
  }

  predicate OnlyCrashes(events: seq<Event>) {
    forall i :: 0 <= i < |events| ==> events[i] == Go || events[i] == Crash
  }

  lemma CrashKeepsPending(s: Boot, e: Event)
    requires PendingInv(s) && (e == Go || e == Crash)
    ensures PendingInv(Step(s, e)) && Step(s, e).disk.backup == s.disk.backup
  {
  }

  lemma {:induction false} CrashesKeepPending(d: Disk, events: seq<Event>)
    requires d.marker == Pending && IntactBackup(d) && OnlyCrashes(events)
    ensures PendingInv(Run(Boot(ReadMarker, d), events)) && Run(Boot(ReadMarker, d), events).disk.backup == d.backup
    decreases |events|
  {
    if events != [] {
      CrashesKeepPending(d, events[..|events| - 1]);
      CrashKeepsPending(Run(Boot(ReadMarker, d), events[..|events| - 1]), events[|events| - 1]);
    }
  }

  /** After any number of crashes at any moments, one uninterrupted boot puts an intact backup live,
      alone, and drops the marker and the staging file. */
  lemma EventuallyRestored(first: Disk, events: seq<Event>)
    requires Fresh(first) && first.marker == Pending && IntactBackup(first) && OnlyCrashes(events)
    ensures var last := Finish(Step(Run(Boot(ReadMarker, first), events), Crash), AllGo());
      && last.pc == Done && last.disk.marker == NoMarker && last.disk.staging == None
      && last.disk.main == first.backup && !last.disk.wal && !last.disk.shm
  {
    var s := Run(Boot(ReadMarker, first), events);
    CrashesKeepPending(first, events);
    CrashSafe(first, events);
    if s.pc != Done { GoodBoot(s.disk); }
  }

  /** A backup that is missing or does not pass its check leaves the installation as it was, whatever
      else happens; a boot without errors also drops the marker. */
  lemma BadBackupChangesNothing(first: Disk, events: seq<Event>)
    requires !IntactBackup(first)
    ensures Run(Boot(ReadMarker, first), events).disk in {first, first.(marker := NoMarker)}
    ensures first.marker == Pending ==>
      Finish(Boot(ReadMarker, first), AllGo()) == Boot(Done, first.(marker := NoMarker))
  {
    GoodBoot(first);
    BadBackupRun(first, events);
  }

  lemma {:induction false} BadBackupRun(first: Disk, events: seq<Event>)
    requires !IntactBackup(first)
    ensures var s := Run(Boot(ReadMarker, first), events);
      && (s.disk == first || s.disk == first.(marker := NoMarker))
      && (s.pc.ReadMarker? || s.pc.StatBackup? || s.pc.CheckBackup? || s.pc.DropMarker? || s.pc.Done? || s.pc.Thrown?)
    decreases |events|
  {
    if events != [] { BadBackupRun(first, events[..|events| - 1]); }
  }

  // ---- what a failed restore leaves behind ----

  predicate SameInstallation(a: Disk, b: Disk) { a.main == b.main && a.wal == b.wal && a.shm == b.shm }

  predicate BeforeSwap(pc: Pc) {
    pc.ReadMarker? || pc.StatBackup? || pc.CheckBackup? || Checked(pc) || pc.RemoveWal?
  }

  /** Whether the call lets the boot go on towards the swap; keeping the outgoing database is
      optional. */
  predicate Passes(f: Faults, pc: Pc) {
    pc.CopyOutgoing? || pc.FillOutgoing? || f(pc) == Go || (f(pc) == Corrupting && !pc.FillStaging?)
  }

  ghost predicate PassesFrom(f: Faults, from: Pc) {
    forall pc :: BeforeSwap(pc) && Rank(pc) <= Rank(from) ==> Passes(f, pc)
  }

  lemma {:induction false} AbandonedBoot(s: Boot, f: Faults)
    requires NoCrash(f) && (s.pc.Cleanup? || s.pc.DropMarker? || Rank(s.pc) == 0)
    ensures SameInstallation(Finish(s, f).disk, s.disk) && Finish(s, f).disk.swapped == s.disk.swapped
    decreases Rank(s.pc)
  {
    if Rank(s.pc) != 0 { AbandonedBoot(Step(s, f(s.pc)), f); }
  }

  /** A boot on its way to the swap. */
  ghost predicate OnTheWay(s: Boot) {
    BeforeSwap(s.pc) && StageInv(s) && IntactBackup(s.disk) && s.disk.marker == Pending
    && (s.pc.VerifyStaged? ==> s.disk.staging == s.disk.backup)
  }

  lemma PassingStep(s: Boot, e: Event)
    requires OnTheWay(s) && e != Crash && Passes((pc: Pc) => e, s.pc)
    ensures var t := Step(s, e);
      && t.disk.swapped == s.disk.swapped && t.disk.backup == s.disk.backup && Rank(t.pc) < Rank(s.pc)
      && (forall pc :: BeforeSwap(pc) && Rank(t.pc) < Rank(pc) < Rank(s.pc) ==> pc.FillOutgoing?)
      && (if s.pc.RemoveWal? then t == Boot(RemoveShm, s.disk.(wal := false)) && t.disk.staging == t.disk.backup
          else OnTheWay(t) && SameInstallation(t.disk, s.disk))
  {
  }

  lemma FailingStep(s: Boot, f: Faults)
    requires OnTheWay(s) && NoCrash(f) && !Passes(f, s.pc)
    ensures SameInstallation(Finish(s, f).disk, s.disk) && Finish(s, f).disk.swapped == s.disk.swapped
  {
    var next := Step(s, f(s.pc));
    if s.pc.FillStaging? && f(s.pc) == Corrupting {
      assert Finish(next, f) == Finish(Step(next, f(next.pc)), f);
      AbandonedBoot(Step(next, f(next.pc)), f);
    } else {
      AbandonedBoot(next, f);
    }
  }

  /** A boot reaches the removal of the first sidecar, or else gives up with nothing changed. */
  lemma {:induction false} UntilSwap(s: Boot, f: Faults) returns (t: Boot)
    requires NoCrash(f) && OnTheWay(s)
    ensures PassesFrom(f, s.pc) ==> (
      && Finish(s, f) == Finish(t, f) && t.pc.RemoveShm?
      && SameInstallation(t.disk.(wal := s.disk.wal), s.disk) && !t.disk.wal
      && t.disk.staging == s.disk.backup == t.disk.backup && t.disk.swapped == s.disk.swapped)
    ensures !PassesFrom(f, s.pc) ==>
      SameInstallation(Finish(s, f).disk, s.disk) && Finish(s, f).disk.swapped == s.disk.swapped
    decreases Rank(s.pc)
  {
    if !Passes(f, s.pc) {
      t := s;
      FailingStep(s, f);
    } else {
      t := Step(s, f(s.pc));
      PassingStep(s, f(s.pc));
      PassesSplit(f, s.pc, t.pc);
      if !s.pc.RemoveWal? {
        t := UntilSwap(t, f);
      }
    }
  }

  lemma PassesSplit(f: Faults, from: Pc, next: Pc)
    requires Passes(f, from) && BeforeSwap(from) && Rank(next) < Rank(from)
    requires forall pc :: BeforeSwap(pc) && Rank(next) < Rank(pc) < Rank(from) ==> pc.FillOutgoing?
    ensures PassesFrom(f, from) <==> PassesFrom(f, next)
  {
    forall pc | BeforeSwap(pc) && Rank(next) < Rank(pc) <= Rank(from) && PassesFrom(f, next) ensures Passes(f, pc) {
    }
  }

  /** The code and its error message say that a failed restore leaves the installation exactly as it
      was. That holds if and only if it failed before a sidecar that existed was removed: afterwards the
      old main file is left without the write-ahead log that belongs to it. */
  lemma FailedRestoreIsHarmlessIff(d: Disk, f: Faults)
    requires NoCrash(f) && Fresh(d) && d.marker == Pending && IntactBackup(d)
    ensures Finish(Boot(ReadMarker, d), f).disk.swapped <==>
      PassesFrom(f, ReadMarker) && f(RemoveShm) != Fail && f(Rename) != Fail
    ensures !Finish(Boot(ReadMarker, d), f).disk.swapped ==>
      (SameInstallation(Finish(Boot(ReadMarker, d), f).disk, d) <==>
        !PassesFrom(f, ReadMarker) || (!d.wal && (!d.shm || f(RemoveShm) == Fail)))
  {
    var t := UntilSwap(Boot(ReadMarker, d), f);
    if PassesFrom(f, ReadMarker) {
      var u := Step(t, f(RemoveShm));
      if f(RemoveShm) == Fail {
        AbandonedBoot(u, f);
      } else {
        assert Finish(t, f) == Finish(u, f) == Finish(Step(u, f(Rename)), f);
        AbandonedBoot(Step(u, f(Rename)), f);
      }
    }
  }

  // ---- how a boot ends ----

  /** Inside the try block. */
  predicate Trying(pc: Pc) {
    || pc.CopyOutgoing? || pc.FillOutgoing? || pc.ClearStaging? || pc.CopyStaging? || pc.FillStaging?
    || pc.VerifyStaged? || pc.RemoveWal? || pc.RemoveShm? || pc.Rename?
  }

  /** The try block ends with the swap and the marker to drop, or without it and the clean-up to do. */
  lemma {:induction false} TryEnds(s: Boot, f: Faults) returns (t: Boot)
    requires NoCrash(f) && Trying(s.pc) && !s.disk.swapped
    ensures Finish(s, f) == Finish(t, f) && t.disk.marker == s.disk.marker
    ensures (t.pc.DropMarker? && t.disk.swapped && t.disk.staging.None?) || (t.pc.Cleanup? && !t.disk.swapped)
    decreases Rank(s.pc)
  {
    t := Step(s, f(s.pc));
    if Trying(t.pc) { t := TryEnds(t, f); }
  }

  lemma FinishStep(s: Boot, f: Faults)
    requires NoCrash(f) && Rank(s.pc) != 0
    ensures Finish(s, f) == Finish(Step(s, f(s.pc)), f)
  {
  }

  lemma DropEnds(s: Boot, f: Faults)
    requires NoCrash(f) && s.pc.DropMarker?
    ensures f(DropMarker) == Fail ==> Finish(s, f) == Boot(Thrown, s.disk)
    ensures f(DropMarker) != Fail ==> Finish(s, f) == Boot(Done, s.disk.(marker := NoMarker))
  {
    FinishStep(s, f);
  }

  /** The boot finds a restore to do, and a backup that is there and whole. */
  predicate Considered(d: Disk, f: Faults) { d.marker == Pending && f(ReadMarker) != Fail }

  predicate Usable(d: Disk, f: Faults) { f(StatBackup) != Fail && f(CheckBackup) != Fail && IntactBackup(d) }

  lemma FirstCalls(d: Disk, f: Faults)
    requires NoCrash(f)
    ensures Finish(Boot(ReadMarker, d), f) ==
      if !Considered(d, f) then Boot(Done, d)
      else if !Usable(d, f) then Finish(Boot(DropMarker, d), f)
      else if f(MakeDir) == Fail then Boot(Thrown, d)
      else Finish(Boot(CopyOutgoing, d), f)
  {
    FinishStep(Boot(ReadMarker, d), f);
    FinishStep(Boot(StatBackup, d), f);
    FinishStep(Boot(CheckBackup, d), f);
    FinishStep(Boot(MakeDir, d), f);
  }

  predicate SomeErrorEscapes(d: Disk, f: Faults, swapped: bool) {
    || (Usable(d, f) && f(MakeDir) == Fail)
    || (Usable(d, f) && !swapped && f(Cleanup) == Fail)
    || f(DropMarker) == Fail
  }

  /** When an error escapes, and what becomes of the marker: the boot throws exactly if it has a restore to
      do and making the directory, the clean-up after a failed swap or dropping the marker fails. The
      marker is dropped exactly by a boot that has a restore to do and does not throw, whether the restore
      worked or not; and such a boot leaves no staged copy. */
  lemma BootEndsIff(d: Disk, f: Faults)
    requires NoCrash(f) && Fresh(d)
    ensures var last := Finish(Boot(ReadMarker, d), f);
      && (last.pc.Done? || last.pc.Thrown?)
      && (last.pc.Thrown? <==> Considered(d, f) && SomeErrorEscapes(d, f, last.disk.swapped))
      && last.disk.marker == (if Considered(d, f) && last.pc.Done? then NoMarker else d.marker)
      && (Considered(d, f) && Usable(d, f) && last.pc.Done? ==> last.disk.staging.None?)
  {
    FirstCalls(d, f);
    DropEnds(Boot(DropMarker, d), f);
    if Considered(d, f) && Usable(d, f) && f(MakeDir) != Fail {
      var t := TryEnds(Boot(CopyOutgoing, d), f);
      if t.pc.Cleanup? {
        FinishStep(t, f);
        DropEnds(Boot(DropMarker, t.disk.(staging := None)), f);
      } else {
        DropEnds(t, f);
      }
    }
  }

  /** A failing rename does it. */
  lemma FailedRenameLosesTheLog(d: Disk)
    requires Fresh(d) && d.marker == Pending && IntactBackup(d) && d.wal
    ensures var f: Faults := (pc: Pc) => if pc == Rename then Fail else Go;
      var last := Finish(Boot(ReadMarker, d), f);
      !last.disk.swapped && last.disk.main == d.main && !last.disk.wal
  {
    var f: Faults := (pc: Pc) => if pc == Rename then Fail else Go;
    var t := UntilSwap(Boot(ReadMarker, d), f);
    var u := Step(t, Go);
    assert Finish(t, f) == Finish(u, f) == Finish(Step(u, Fail), f);
    AbandonedBoot(Step(u, Fail), f);
  }

  /** The copy of the outgoing database: after any crashes it is kept by the final boot if and only if
      no earlier boot had got as far as the swap, or there is nothing to tell apart. Otherwise the
      restored database is copied over it. */
  lemma OutgoingKeptIff(first: Disk, events: seq<Event>)
    requires Fresh(first) && first.marker == Pending && IntactBackup(first) && OnlyCrashes(events) && first.main.Some?
    requires Run(Boot(ReadMarker, first), events).pc != Done
    ensures var s := Run(Boot(ReadMarker, first), events);
      Finish(Step(s, Crash), AllGo()).disk.preRestore == first.main <==> !s.disk.swapped || first.main == first.backup
  {
    CrashesKeepPending(first, events);
    CrashSafe(first, events);
    GoodBoot(Run(Boot(ReadMarker, first), events).disk);
  }

  // ---- the boot itself, on the files ----

  class AppFiles {
    var marker: Marker
    var backup: Option<File>
    var main: Option<File>
    var wal: bool
    var shm: bool
    var staging: Option<File>
    var preRestore: Option<File>
    ghost var swapped: bool

    ghost function View(): Disk
      reads this
    {
      Disk(marker, backup, main, wal, shm, staging, preRestore, swapped)
    }

    ghost function Ending(pc: Pc, f: Faults): Boot
      requires NoCrash(f)
      reads this
    {
      Finish(Boot(pc, View()), f)
    }

    /** Returned means that no error escaped. */
    method ApplyPendingRestoreIfAny(f: Faults) returns (returned: bool)
      requires NoCrash(f)
      modifies this
      ensures Boot(if returned then Done else Thrown, View()) == old(Ending(ReadMarker, f))
    {
      if f(ReadMarker) == Fail || marker != Pending {
        assert Ending(ReadMarker, f) == Ending(Done, f);
        return true;
      }
      assert Ending(ReadMarker, f) == Ending(StatBackup, f);
      if f(StatBackup) == Fail || backup.None? {
        assert Ending(StatBackup, f) == Ending(DropMarker, f);
        returned := CancelPendingRestore(f);
        return;
      }
      assert Ending(StatBackup, f) == Ending(CheckBackup, f);
      // Verify the backup's integrity before touching the live database.
      if f(CheckBackup) == Fail || backup.value.Broken? {
        assert Ending(CheckBackup, f) == Ending(DropMarker, f);
        returned := CancelPendingRestore(f);
        return;
      }
      assert Ending(CheckBackup, f) == Ending(MakeDir, f);
      if f(MakeDir) == Fail {
        assert Ending(MakeDir, f) == Ending(Thrown, f);
        return false;
      }
      assert Ending(MakeDir, f) == Ending(CopyOutgoing, f);
      KeepOutgoing(f);
      var swappedIn := StageAndSwap(f);
      if !swappedIn {
        if f(Cleanup) == Fail {
          assert Ending(Cleanup, f) == Ending(Thrown, f);
          return false;
        }
        label L:
        staging := None;
        assert old@L(Ending(Cleanup, f)) == Ending(DropMarker, f);
      }
      returned := CancelPendingRestore(f);
    }

    /** Errors are ignored. */
    method KeepOutgoing(f: Faults)
      requires NoCrash(f)
      modifies this`preRestore
      ensures Ending(ClearStaging, f) == old(Ending(CopyOutgoing, f))
    {
      if f(CopyOutgoing) == Fail || main.None? {
        return;
      }
      preRestore := Some(Broken);
      assert Ending(FillOutgoing, f) == old(Ending(CopyOutgoing, f));
      label L:
      if f(FillOutgoing) == Go {
        preRestore := main;
      }
      assert Ending(ClearStaging, f) == old@L(Ending(FillOutgoing, f));
    }

    /** The body of the `try`; not swapped means that it threw. */
    method StageAndSwap(f: Faults) returns (swappedIn: bool)
      requires NoCrash(f)
      modifies this
      ensures Ending(if swappedIn then DropMarker else Cleanup, f) == old(Ending(ClearStaging, f))
    {
      if f(ClearStaging) == Fail {
        return false;
      }
      staging := None;
      assert Ending(CopyStaging, f) == old(Ending(ClearStaging, f));
      label A:
      if f(CopyStaging) == Fail {
        return false;
      }
      staging := Some(Broken);
      assert Ending(FillStaging, f) == old@A(Ending(CopyStaging, f));
      label B:
      if f(FillStaging) == Fail {
        return false;
      }
      if f(FillStaging) == Go {
        staging := backup;
      }
      assert Ending(VerifyStaged, f) == old@B(Ending(FillStaging, f));
      if f(VerifyStaged) == Fail || staging.None? || staging.value.Broken? {
        return false;
      }
      assert Ending(VerifyStaged, f) == Ending(RemoveWal, f);
      swappedIn := SwapIn(f);
    }

    method SwapIn(f: Faults) returns (swappedIn: bool)
      requires NoCrash(f)
      modifies this
      ensures Ending(if swappedIn then DropMarker else Cleanup, f) == old(Ending(RemoveWal, f))
    {
      if f(RemoveWal) == Fail {
        return false;
      }
      wal := false;
      assert Ending(RemoveShm, f) == old(Ending(RemoveWal, f));
      label A:
      if f(RemoveShm) == Fail {
        return false;
      }
      shm := false;
      assert Ending(Rename, f) == old@A(Ending(RemoveShm, f));
      label B:
      if f(Rename) == Fail {
        return false;
      }
      main, staging, swapped := staging, None, true;
      assert Ending(DropMarker, f) == old@B(Ending(Rename, f));
      return true;
    }

    method CancelPendingRestore(f: Faults) returns (returned: bool)
      requires NoCrash(f)
      modifies this`marker
      ensures Boot(if returned then Done else Thrown, View()) == old(Ending(DropMarker, f))
    {
      if f(DropMarker) == Fail {
        assert Ending(DropMarker, f) == Ending(Thrown, f);
        return false;
      }
      marker := NoMarker;
      assert Ending(Done, f) == old(Ending(DropMarker, f));
      return true;
    }
  }
}
