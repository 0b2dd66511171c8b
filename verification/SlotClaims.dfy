/** The claim table that lets each scheduled slot of a job execute at most once, although every claim
    first prunes the rows of old slots. Slots and clocks are milliseconds. */
module SlotClaims {
  const LOCK_RETENTION_MS: int := 14 * 24 * 60 * 60 * 1000

  // ---- the key of a row ----

  /** `command@slot` */
  function LockKey(command: string, scheduledAt: string): string { command + "@" + scheduledAt }

  /** The key determines command and slot, because a slot's ISO text contains no '@'. The command
      may contain any number of them. */
  lemma LockKeyInjective(c1: string, s1: string, c2: string, s2: string)
    requires '@' !in s1 && '@' !in s2 && LockKey(c1, s1) == LockKey(c2, s2)
    ensures c1 == c2 && s1 == s2
  {
    var k := LockKey(c1, s1);
    assert k[|c1|] == '@' && k[|c2|] == '@';
    assert k[|c1| + 1..] == s1 && k[|c2| + 1..] == s2;
    if |c1| < |c2| { LaterAt(c1, s1, c2, s2); }
    if |c2| < |c1| { LaterAt(c2, s2, c1, s1); }
    assert c1 == k[..|c1|] && c2 == k[..|c2|];
  }

  lemma LaterAt(c1: string, s1: string, c2: string, s2: string)
    requires LockKey(c1, s1) == LockKey(c2, s2) && |c1| < |c2|
    ensures '@' in s1
  {
    var k := LockKey(c1, s1);
    assert k == LockKey(c2, s2) && k[|c2|] == '@';
    assert s1[|c2| - |c1| - 1] == k[|c2|];
  }

  /** Without that condition two different claims can share a key. */
  lemma LockKeyNeedsPlainSlots()
    ensures LockKey("a", "b@c") == LockKey("a@b", "c")
  {
    assert LockKey("a", "b@c") == ['a', '@', 'b', '@', 'c'];
    assert LockKey("a@b", "c") == ['a', '@', 'b', '@', 'c'];
  }

  // ---- claims ----

  /** A claim of one slot of one command at some clock reading; rows are keyed by the pair. */
  datatype Claim = Claim(command: string, slot: int, now: int)

  type Table = set<(string, int)>

  function Prune(rows: Table, now: int): Table {
    set row | row in rows && row.1 >= now - LOCK_RETENTION_MS
  }

  predicate Granted(rows: Table, claim: Claim) {
    (claim.command, claim.slot) !in Prune(rows, claim.now)
  }

  function AfterClaim(rows: Table, claim: Claim): Table {
    Prune(rows, claim.now) + {(claim.command, claim.slot)}
  }

  function Rows(rows: Table, claims: seq<Claim>): Table
    decreases |claims|
  {
    if claims == [] then rows else AfterClaim(Rows(rows, claims[..|claims| - 1]), claims[|claims| - 1])
  }

  /** Whether the claim at index `i` of a run is granted. */
  predicate GrantedAt(rows: Table, claims: seq<Claim>, i: nat)
    requires i < |claims|
  {
    Granted(Rows(rows, claims[..i]), claims[i])
  }

  predicate ClockNeverGoesBack(claims: seq<Claim>) {
    forall i, j :: 0 <= i < j < |claims| ==> claims[i].now <= claims[j].now
  }

  predicate SameSlot(a: Claim, b: Claim) { a.command == b.command && a.slot == b.slot }

  /** Once claimed, a row stays exactly until its slot is out of retention. */
  lemma {:induction false} RowStays(rows: Table, claims: seq<Claim>, i: nat)
    requires i < |claims| && ClockNeverGoesBack(claims)
    requires claims[i].slot >= claims[|claims| - 1].now - LOCK_RETENTION_MS
    ensures (claims[i].command, claims[i].slot) in Rows(rows, claims)
    decreases |claims|
  {
    var n := |claims| - 1;
    if i < n {
      assert claims[..n][i] == claims[i] && claims[..n][n - 1] == claims[n - 1];
      RowStays(rows, claims[..n], i);
    }
  }

  /** A slot that has been claimed is granted again if and only if it is by then older than the
      retention: every claim in between prunes, and so does the claim itself. */
  lemma RegrantedIff(rows: Table, claims: seq<Claim>, i: nat, j: nat)
    requires i < j < |claims| && ClockNeverGoesBack(claims) && SameSlot(claims[i], claims[j])
    ensures GrantedAt(rows, claims, j) <==> claims[j].slot < claims[j].now - LOCK_RETENTION_MS
  {
    var before := claims[..j];
    if claims[j].slot >= claims[j].now - LOCK_RETENTION_MS {
      assert before[i] == claims[i] && before[|before| - 1] == claims[j - 1];
      assert forall a, b :: 0 <= a < b < |before| ==> before[a].now <= before[b].now;
      RowStays(rows, before, i);
    }
  }

  /** Each slot is granted at most once over any run of claims whose clock never goes back and whose
      slots are no older than the retention when claimed. */
  lemma AtMostOnce(claims: seq<Claim>, i: nat, j: nat)
    requires i < |claims| && j < |claims| && ClockNeverGoesBack(claims)
    requires forall k :: 0 <= k < |claims| ==> claims[k].slot >= claims[k].now - LOCK_RETENTION_MS
    requires SameSlot(claims[i], claims[j]) && GrantedAt({}, claims, i) && GrantedAt({}, claims, j)
    ensures i == j
  {
    if i < j { RegrantedIff({}, claims, i, j); }
    if j < i { RegrantedIff({}, claims, j, i); }
  }

  /** And the first claim of a slot is always granted, so each claimed slot runs exactly once. */
  lemma FirstClaimGranted(claims: seq<Claim>, i: nat)
    requires i < |claims| && forall k :: 0 <= k < i ==> !SameSlot(claims[k], claims[i])
    ensures GrantedAt({}, claims, i)
  {
    OnlyClaimedRows(claims[..i], (claims[i].command, claims[i].slot));
  }

  lemma {:induction false} OnlyClaimedRows(claims: seq<Claim>, row: (string, int))
    requires forall k :: 0 <= k < |claims| ==> (claims[k].command, claims[k].slot) != row
    ensures row !in Rows({}, claims)
    decreases |claims|
  {
    if claims != [] {
      OnlyClaimedRows(claims[..|claims| - 1], row);
    }
  }

  /** The retention matters: a slot older than it is granted on every claim. */
  lemma StaleSlotGrantedTwice(command: string, now: int)
    ensures var claim := Claim(command, now - LOCK_RETENTION_MS - 1, now);
      GrantedAt({}, [claim, claim], 0) && GrantedAt({}, [claim, claim], 1)
  {
    var claim := Claim(command, now - LOCK_RETENTION_MS - 1, now);
    RegrantedIff({}, [claim, claim], 0, 1);
  }

  /** Which claims are granted, in terms of the earlier claims alone: those of a slot that nobody has
      claimed before, or that is out of retention by now. */
  lemma GrantedIff(claims: seq<Claim>, claim: Claim)
    requires ClockNeverGoesBack(claims + [claim])
    ensures Granted(Rows({}, claims), claim) <==>
      forall i :: 0 <= i < |claims| && claims[i].command == claim.command && claims[i].slot == claim.slot ==>
        claim.slot < claim.now - 14 * 24 * 60 * 60 * 1000
  {
    var all, n := claims + [claim], |claims|;
    assert all[..n] == claims;
    if i :| 0 <= i < n && SameSlot(claims[i], claim) {
      assert all[i] == claims[i] && all[n] == claim;
      RegrantedIff({}, all, i, n);
    } else {
      OnlyClaimedRows(claims, (claim.command, claim.slot));
    }
  }

  /** Pruning earlier than a claim prunes makes no difference to that claim, to its verdict or to the
      table after it. */
  lemma EarlierPruneIsInvisible(rows: Table, now: int, claim: Claim)
    requires claim.now >= now
    ensures Granted(Prune(rows, now), claim) == Granted(rows, claim)
    ensures AfterClaim(Prune(rows, now), claim) == AfterClaim(rows, claim)
  {
    assert Prune(Prune(rows, now), claim.now) == Prune(rows, claim.now);
  }

  // ---- the table, updated in place ----

  class ClaimTable {
    var rows: Table
    /** Every claim made so far, granted or not. */
    ghost var claims: seq<Claim>

    /** The rows are what the claims have left. */
    ghost predicate Valid()
      reads this
    {
      rows == Rows({}, claims)
    }

    constructor ()
      ensures Valid() && claims == []
    {
      rows, claims := {}, [];
    }

    /** Drops rows, but none that a claim at this or a later clock reading would have kept. */
    method PruneSchedulerExecutionLocks(now: int)
      modifies this`rows
      ensures rows == Prune(old(rows), now)
      ensures forall claim: Claim :: claim.now >= now ==>
        Granted(rows, claim) == Granted(old(rows), claim) && AfterClaim(rows, claim) == AfterClaim(old(rows), claim)
    {
      forall claim: Claim | claim.now >= now
        ensures Granted(Prune(rows, now), claim) == Granted(rows, claim)
        ensures AfterClaim(Prune(rows, now), claim) == AfterClaim(rows, claim)
      {
        EarlierPruneIsInvisible(rows, now, claim);
      }
      rows := set row | row in rows && row.1 >= now - LOCK_RETENTION_MS;
    }

    /** With a clock that never goes back: granted exactly if the slot has never been claimed before or
        is out of retention. So no slot within the retention is granted twice. */
    method AcquireSchedulerExecutionLock(claim: Claim) returns (granted: bool)
      requires Valid()
      modifies this
      ensures Valid() && claims == old(claims) + [claim]
      ensures ClockNeverGoesBack(claims) ==> (granted <==>
        forall i :: 0 <= i < |old(claims)| ==>
          old(claims)[i].command == claim.command && old(claims)[i].slot == claim.slot ==>
          claim.slot < claim.now - 14 * 24 * 60 * 60 * 1000)
    {
      if ClockNeverGoesBack(claims + [claim]) { GrantedIff(claims, claim); }
      PruneSchedulerExecutionLocks(claim.now);
      granted := (claim.command, claim.slot) !in rows;
      rows := rows + {(claim.command, claim.slot)};
      claims := claims + [claim];
      assert claims[..|claims| - 1] == old(claims);
    }
  }
}
