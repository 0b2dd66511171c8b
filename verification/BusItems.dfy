/** Item Bus items, and the merge of copies that share an id. */
module BusItems {
  import opened Common

  /** A stored timestamp text: empty, or a text with its rank in text order and the instant that
      `Date.parse` reads from it, if any. */
  datatype Stamp = Blank | Text(rank: int, parsed: Option<int>)

  /** The ISO texts written by the platform order like the instants they denote. */
  function Iso(ms: int): Stamp { Text(ms, Some(ms)) }

  predicate Canonical(s: Stamp) { s.Text? && s.parsed == Some(s.rank) }

  datatype State = Seen | Rejected | Queued | Approved | Posted | Failed

  type Namespace = map<string, string>

  /** Absent metadata is the empty map; an absent timestamp is `Blank`. */
  datatype Item = Item(
    id: string,
    producer: Option<string>,
    itemType: Option<string>,
    tags: seq<string>,
    state: State,
    stateChangedAt: Stamp,
    postedAt: Stamp,
    lastAttemptAt: Stamp,
    addedAt: Stamp,
    payload: string,
    metadata: map<string, Namespace>)

  /** The first timestamp present orders an item's life cycle. */
  function AnchorStamp(item: Item): Stamp {
    if !item.stateChangedAt.Blank? then item.stateChangedAt
    else if !item.postedAt.Blank? then item.postedAt
    else if !item.lastAttemptAt.Blank? then item.lastAttemptAt
    else item.addedAt
  }

  function Parse(s: Stamp): Option<int> { if s.Blank? then None else s.parsed }

  function AnchorMs(item: Item): int {
    match Parse(AnchorStamp(item)) case None => 0 case Some(ms) => ms
  }

  /** The four timestamps in the order in which they count. */
  function Timestamps(item: Item): seq<Stamp> {
    [item.stateChangedAt, item.postedAt, item.lastAttemptAt, item.addedAt]
  }

  /** The anchor is the first timestamp that is not empty, and zero if it cannot be read or all are. */
  lemma AnchorIsFirstGiven(item: Item)
    ensures forall k ::
      0 <= k < 4 && Timestamps(item)[k].Text? && (forall j :: 0 <= j < k ==> Timestamps(item)[j].Blank?) ==>
      AnchorStamp(item) == Timestamps(item)[k] && AnchorMs(item) == OrElse(Timestamps(item)[k].parsed, 0)
    ensures (forall k :: 0 <= k < 4 ==> Timestamps(item)[k].Blank?) ==> AnchorStamp(item).Blank? && AnchorMs(item) == 0
  {
    var all := Timestamps(item);
    forall k | 0 <= k < 4 && all[k].Text? && forall j :: 0 <= j < k ==> all[j].Blank?
      ensures AnchorStamp(item) == all[k] && AnchorMs(item) == OrElse(all[k].parsed, 0)
    {
      assert k > 0 ==> all[0].Blank?;
      assert k > 1 ==> all[1].Blank?;
      assert k > 2 ==> all[2].Blank?;
    }
    assert all[0] == item.stateChangedAt && all[1] == item.postedAt;
    assert all[2] == item.lastAttemptAt && all[3] == item.addedAt;
  }

  predicate ContainsId(queue: seq<Item>, id: string) { exists i :: 0 <= i < |queue| && queue[i].id == id }

  predicate DistinctIds(queue: seq<Item>) {
    forall i, j :: 0 <= i < j < |queue| ==> queue[i].id != queue[j].id
  }

  // ---- normalising ----

  /** An item as a caller may hand it in, with fields left out. `item` holds the other fields,
      `hasFailed` says that it carries an error or attempts, `derivedId` is the hash of its url, time
      and title. */
  datatype Draft = Draft(
    item: Item,
    id: Option<string>,
    state: Option<State>,
    stateChangedAt: Option<Stamp>,
    postedAt: Option<Stamp>,
    lastAttemptAt: Option<Stamp>,
    hasFailed: bool,
    derivedId: string)

  function OrElse<T>(a: Option<T>, b: T): T { if a.Some? then a.value else b }

  function NormalizeQueueItem(d: Draft): Item {
    d.item.(
      id := OrElse(d.id, d.derivedId),
      state := OrElse(d.state,
        if !OrElse(d.postedAt, Blank).Blank? then Posted else if d.hasFailed then Failed else Queued),
      stateChangedAt := OrElse(d.stateChangedAt, OrElse(d.postedAt, OrElse(d.lastAttemptAt, d.item.addedAt))),
      postedAt := OrElse(d.postedAt, Blank),
      lastAttemptAt := OrElse(d.lastAttemptAt, Blank))
  }

  function NormalizeAll(queue: seq<Draft>): (items: seq<Item>)
    ensures |items| == |queue| && forall i :: 0 <= i < |queue| ==> items[i] == NormalizeQueueItem(queue[i])
  {
    seq(|queue|, i requires 0 <= i < |queue| => NormalizeQueueItem(queue[i]))
  }

  /** An item as it is stored, with nothing left out. */
  function Complete(item: Item, hasFailed: bool, derivedId: string): Draft {
    Draft(item, Some(item.id), Some(item.state), Some(item.stateChangedAt), Some(item.postedAt),
          Some(item.lastAttemptAt), hasFailed, derivedId)
  }

  /** The draft's own life cycle, where what is left out counts as empty. */
  function AnchorOfDraft(d: Draft): Stamp {
    AnchorStamp(d.item.(
      stateChangedAt := OrElse(d.stateChangedAt, Blank),
      postedAt := OrElse(d.postedAt, Blank),
      lastAttemptAt := OrElse(d.lastAttemptAt, Blank)))
  }

  /** Filling in the state-change time never moves an item in its life cycle; and the filled-in time is
      the anchor itself, which the indexed queries rely on, exactly unless the first time given is an
      empty text and a later one is not. */
  lemma NormalizingKeepsAnchor(d: Draft)
    ensures AnchorStamp(NormalizeQueueItem(d)) == AnchorOfDraft(d)
    ensures NormalizeQueueItem(d).stateChangedAt == AnchorOfDraft(d) <==>
      !NormalizeQueueItem(d).stateChangedAt.Blank? || AnchorOfDraft(d).Blank?
  {
  }

  /** What is filled in, and that nothing that is given is changed. */
  lemma NormalizingFillsIn(d: Draft)
    ensures var item := NormalizeQueueItem(d);
      && (d.id.Some? ==> item.id == d.id.value) && (d.id.None? ==> item.id == d.derivedId)
      && (d.state.Some? ==> item.state == d.state.value)
      && (d.state.None? ==> (item.state == Posted <==> d.postedAt.Some? && d.postedAt.value.Text?))
      && (d.state.None? && item.state != Posted ==> item.state == if d.hasFailed then Failed else Queued)
      && (d.stateChangedAt.Some? ==> item.stateChangedAt == d.stateChangedAt.value)
      && (d.stateChangedAt.None? && d.postedAt.Some? ==> item.stateChangedAt == d.postedAt.value)
      && (d.stateChangedAt == d.postedAt == None && d.lastAttemptAt.Some? ==>
            item.stateChangedAt == d.lastAttemptAt.value)
      && (d.stateChangedAt == d.postedAt == d.lastAttemptAt == None ==> item.stateChangedAt == item.addedAt)
      && item.producer == d.item.producer && item.itemType == d.item.itemType && item.tags == d.item.tags
      && item.addedAt == d.item.addedAt && item.payload == d.item.payload && item.metadata == d.item.metadata
  {
  }

  /** Stored items are normal already, so normalising twice is normalising once. */
  lemma NormalizingStoredItems(items: seq<Item>, queue: seq<Draft>)
    requires |queue| == |items|
    requires forall i :: 0 <= i < |items| ==> queue[i] == Complete(items[i], queue[i].hasFailed, queue[i].derivedId)
    ensures NormalizeAll(queue) == items
  {
    forall i | 0 <= i < |items| ensures NormalizeAll(queue)[i] == items[i] {
      assert queue[i] == Complete(items[i], queue[i].hasFailed, queue[i].derivedId);
    }
  }

  // ---- merging the copies of one id ----

  /** The newer copy, or the later one on a tie, keeps its own fields and metadata; namespaces only
      the other one carries are added. */
  function Merge(existing: Item, item: Item): Item {
    var newer := if AnchorMs(item) >= AnchorMs(existing) then item else existing;
    var older := if AnchorMs(item) >= AnchorMs(existing) then existing else item;
    newer.(metadata := older.metadata + newer.metadata)
  }

  function MergeAll(copies: seq<Item>): Item
    requires copies != []
    decreases |copies|
  {
    if |copies| == 1 then copies[0] else Merge(MergeAll(copies[..|copies| - 1]), copies[|copies| - 1])
  }

  function SameId(id: string): Item -> bool { (item: Item) => item.id == id }

  function Copies(queue: seq<Item>, id: string): seq<Item> { Filter(queue, SameId(id)) }

  /** The ids of a queue in order of first appearance. */
  function FirstIds(queue: seq<Item>): seq<string>
    decreases |queue|
  {
    if queue == [] then []
    else
      var init := queue[..|queue| - 1];
      var last := queue[|queue| - 1];
      FirstIds(init) + if ContainsId(init, last.id) then [] else [last.id]
  }

  ghost function Dedupe(queue: seq<Item>): (r: seq<Item>)
    ensures |r| == |FirstIds(queue)|
    ensures forall i :: 0 <= i < |r| ==>
      Copies(queue, FirstIds(queue)[i]) != [] && r[i] == MergeAll(Copies(queue, FirstIds(queue)[i]))
  {
    var ids := FirstIds(queue);
    FirstIdsAre(queue);
    CopiesFound(queue);
    seq(|ids|, i requires 0 <= i < |ids| && Copies(queue, ids[i]) != [] => MergeAll(Copies(queue, ids[i])))
  }

  /** The ids in order of first appearance are each id of the queue, once. */
  lemma {:induction false} FirstIdsAre(queue: seq<Item>)
    ensures forall id :: id in FirstIds(queue) <==> ContainsId(queue, id)
    ensures forall i, j :: 0 <= i < j < |FirstIds(queue)| ==> FirstIds(queue)[i] != FirstIds(queue)[j]
    decreases |queue|
  {
    if queue != [] {
      var init := queue[..|queue| - 1];
      var last := queue[|queue| - 1];
      FirstIdsAre(init);
      forall id ensures ContainsId(queue, id) <==> ContainsId(init, id) || id == last.id {
        if ContainsId(init, id) {
          var i :| 0 <= i < |init| && init[i].id == id;
          assert queue[i].id == id;
        }
        assert queue[|queue| - 1] == last;
      }
    }
  }

  lemma CopiesFound(queue: seq<Item>)
    ensures forall id :: ContainsId(queue, id) <==> Copies(queue, id) != []
  {
    forall id ensures ContainsId(queue, id) <==> Copies(queue, id) != [] {
      if ContainsId(queue, id) {
        var i :| 0 <= i < |queue| && queue[i].id == id;
        assert queue[i] in queue;
        assert queue[i] in Copies(queue, id);
      }
      if Copies(queue, id) != [] {
        assert Copies(queue, id)[0] in Copies(queue, id);
      }
    }
  }

  lemma {:induction false} MergeAllKeepsId(copies: seq<Item>, id: string)
    requires copies != [] && forall c :: c in copies ==> c.id == id
    ensures MergeAll(copies).id == id
    decreases |copies|
  {
    if |copies| > 1 {
      MergeAllKeepsId(copies[..|copies| - 1], id);
    }
  }

  function IdsOf(queue: seq<Item>): seq<string> { seq(|queue|, i requires 0 <= i < |queue| => queue[i].id) }

  /** Exactly the input ids survive, once each, in order of first appearance. */
  lemma DedupeIds(queue: seq<Item>)
    ensures IdsOf(Dedupe(queue)) == FirstIds(queue)
    ensures DistinctIds(Dedupe(queue))
    ensures forall id :: ContainsId(Dedupe(queue), id) <==> ContainsId(queue, id)
  {
    FirstIdsAre(queue);
    var r := Dedupe(queue);
    forall i | 0 <= i < |r| ensures r[i].id == FirstIds(queue)[i] {
      MergeAllKeepsId(Copies(queue, FirstIds(queue)[i]), FirstIds(queue)[i]);
    }
    forall id ensures ContainsId(r, id) <==> ContainsId(queue, id) {
      if id in FirstIds(queue) {
        var i :| 0 <= i < |FirstIds(queue)| && FirstIds(queue)[i] == id;
        assert r[i].id == id;
      }
    }
  }

  lemma {:induction false} DistinctFirstIds(queue: seq<Item>)
    requires DistinctIds(queue)
    ensures FirstIds(queue) == IdsOf(queue)
    decreases |queue|
  {
    if queue != [] {
      var n := |queue| - 1;
      DistinctFirstIds(queue[..n]);
      assert IdsOf(queue) == IdsOf(queue[..n]) + [queue[n].id];
    }
  }

  lemma {:induction false} DistinctCopies(queue: seq<Item>, i: nat)
    requires DistinctIds(queue) && i < |queue|
    ensures Copies(queue, queue[i].id) == [queue[i]]
  {
    var p := SameId(queue[i].id);
    if i == 0 {
      NoCopies(queue[1..], queue[0].id);
    } else {
      DistinctCopies(queue[1..], i - 1);
      assert queue[1..][i - 1] == queue[i];
    }
  }

  lemma {:induction false} NoCopies(queue: seq<Item>, id: string)
    requires !ContainsId(queue, id)
    ensures Copies(queue, id) == []
  {
    CopiesFound(queue);
  }

  /** A duplicate-free queue is left alone. */
  lemma DedupeIdentity(queue: seq<Item>)
    requires DistinctIds(queue)
    ensures Dedupe(queue) == queue
  {
    DistinctFirstIds(queue);
    forall i | 0 <= i < |queue| ensures Dedupe(queue)[i] == queue[i] {
      DistinctCopies(queue, i);
    }
  }

  lemma DedupeIdempotent(queue: seq<Item>)
    ensures Dedupe(Dedupe(queue)) == Dedupe(queue)
  {
    DedupeIds(queue);
    DedupeIdentity(Dedupe(queue));
  }

  // ---- whose fields and whose metadata survive ----

  /** No earlier copy is newer. */
  ghost predicate Latest(copies: seq<Item>, i: nat) {
    i < |copies| && forall k :: 0 <= k < i ==> AnchorMs(copies[k]) <= AnchorMs(copies[i])
  }

  /** The last copy of maximal anchor. */
  ghost predicate Winner(copies: seq<Item>, w: nat) {
    && Latest(copies, w)
    && forall k :: w < k < |copies| ==> AnchorMs(copies[k]) < AnchorMs(copies[w])
  }

  lemma WinnerExtends(copies: seq<Item>, v: nat)
    requires |copies| > 1 && Winner(copies[..|copies| - 1], v)
    ensures var n := |copies| - 1;
      Winner(copies, if AnchorMs(copies[n]) >= AnchorMs(copies[v]) then n else v)
  {
    var n := |copies| - 1;
    forall k | 0 <= k < n
      ensures AnchorMs(copies[k]) <= AnchorMs(copies[v]) && (v < k ==> AnchorMs(copies[k]) < AnchorMs(copies[v]))
    {
      assert copies[..n][k] == copies[k];
    }
  }

  lemma AnchorIgnoresMetadata(item: Item, metadata: map<string, Namespace>)
    ensures AnchorMs(item.(metadata := metadata)) == AnchorMs(item)
  {
  }

  /** Every field but the metadata is the winner's. */
  lemma {:induction false} WinnerKeepsFields(copies: seq<Item>) returns (w: nat)
    requires copies != []
    ensures Winner(copies, w)
    ensures MergeAll(copies) == copies[w].(metadata := MergeAll(copies).metadata)
    ensures AnchorMs(MergeAll(copies)) == AnchorMs(copies[w])
    decreases |copies|
  {
    if |copies| == 1 {
      w := 0;
    } else {
      var n := |copies| - 1;
      var v := WinnerKeepsFields(copies[..n]);
      WinnerExtends(copies, v);
      w := if AnchorMs(copies[n]) >= AnchorMs(copies[v]) then n else v;
      assert MergeAll(copies) == Merge(MergeAll(copies[..n]), copies[n]);
      AnchorIgnoresMetadata(copies[w], MergeAll(copies).metadata);
    }
  }

  predicate Carries(copies: seq<Item>, i: nat, ns: string) {
    i < |copies| && ns in copies[i].metadata
  }

  /** Whose entry survives for a namespace: the last carrier that no earlier copy outdates, and if
      there is no such carrier the first carrier of all. */
  ghost predicate Source(copies: seq<Item>, ns: string, p: nat) {
    && Carries(copies, p, ns)
    && if Latest(copies, p) then forall k: nat :: p < k && Carries(copies, k, ns) ==> !Latest(copies, k)
       else forall k: nat :: Carries(copies, k, ns) ==> !Latest(copies, k) && p <= k
  }

  /** The merged namespaces are those of all the copies together. */
  lemma {:induction false} MetadataIsUnion(copies: seq<Item>, ns: string)
    requires copies != []
    ensures ns in MergeAll(copies).metadata <==> exists i: nat :: Carries(copies, i, ns)
    decreases |copies|
  {
    var n := |copies| - 1;
    if |copies| > 1 {
      MetadataIsUnion(copies[..n], ns);
      if i: nat :| Carries(copies[..n], i, ns) {
        assert Carries(copies, i, ns);
      }
      if i: nat :| Carries(copies, i, ns) {
        if i < n { assert Carries(copies[..n], i, ns); }
      }
      assert Carries(copies, n, ns) == (ns in copies[n].metadata);
    } else {
      assert Carries(copies, 0, ns) == (ns in copies[0].metadata);
    }
  }

  lemma PrefixViews(copies: seq<Item>, n: nat, ns: string)
    requires n <= |copies|
    ensures forall k: nat :: k < n ==> Carries(copies[..n], k, ns) == Carries(copies, k, ns)
    ensures forall k: nat :: k < n ==> Latest(copies[..n], k) == Latest(copies, k)
  {
    assert forall k :: 0 <= k < n ==> copies[..n][k] == copies[k];
  }

  /** A source among the first copies stays one if the last copy does not take over. */
  lemma SourceStays(copies: seq<Item>, ns: string, p: nat)
    requires copies != [] && Source(copies[..|copies| - 1], ns, p)
    requires !(Latest(copies, |copies| - 1) && Carries(copies, |copies| - 1, ns))
    ensures Source(copies, ns, p)
  {
    PrefixViews(copies, |copies| - 1, ns);
  }

  lemma LastIsLatestIff(copies: seq<Item>, w: nat)
    requires |copies| > 1 && Winner(copies[..|copies| - 1], w)
    ensures Latest(copies, |copies| - 1) <==> AnchorMs(copies[|copies| - 1]) >= AnchorMs(copies[w])
  {
    var n := |copies| - 1;
    forall k | 0 <= k < n ensures AnchorMs(copies[k]) <= AnchorMs(copies[w]) {
      assert copies[..n][k] == copies[k] && copies[..n][w] == copies[w];
    }
  }

  /** Where each namespace's entry comes from, for any number of copies. */
  lemma {:induction false} MetadataSource(copies: seq<Item>, ns: string) returns (p: nat)
    requires copies != [] && ns in MergeAll(copies).metadata
    ensures Source(copies, ns, p)
    ensures MergeAll(copies).metadata[ns] == copies[p].metadata[ns]
    decreases |copies|
  {
    var n := |copies| - 1;
    if n == 0 {
      p := 0;
      return;
    }
    var init := copies[..n];
    var w := WinnerKeepsFields(init);
    LastIsLatestIff(copies, w);
    if ns in MergeAll(init).metadata && !(Latest(copies, n) && Carries(copies, n, ns)) {
      p := MetadataSource(init, ns);
      SourceStays(copies, ns, p);
    } else {
      p := n;
      if ns !in MergeAll(init).metadata { MetadataIsUnion(init, ns); }
      PrefixViews(copies, n, ns);
    }
  }

  lemma SourceUnique(copies: seq<Item>, ns: string, p: nat, q: nat)
    requires Source(copies, ns, p) && Source(copies, ns, q)
    ensures p == q
  {
  }

  /** The winning copy's own metadata survives intact. */
  lemma WinnerKeepsMetadata(copies: seq<Item>, w: nat, ns: string)
    requires Winner(copies, w) && ns in copies[w].metadata
    ensures ns in MergeAll(copies).metadata && MergeAll(copies).metadata[ns] == copies[w].metadata[ns]
  {
    assert Carries(copies, w, ns);
    MetadataIsUnion(copies, ns);
    var p := MetadataSource(copies, ns);
    assert Source(copies, ns, w);
    SourceUnique(copies, ns, p, w);
  }

  /** The newest copy that carries a namespace, the later one on a tie. */
  ghost predicate NewestCarrier(copies: seq<Item>, ns: string, m: nat) {
    && Carries(copies, m, ns)
    && forall k: nat :: Carries(copies, k, ns) ==>
         AnchorMs(copies[k]) < AnchorMs(copies[m]) || (AnchorMs(copies[k]) == AnchorMs(copies[m]) && k <= m)
  }

  /** The newest carrier's entry is the one that survives exactly when no earlier copy is newer than
      it, or no earlier copy carries the namespace at all. */
  lemma NewestCarrierWinsIff(copies: seq<Item>, ns: string, m: nat)
    requires NewestCarrier(copies, ns, m)
    ensures Source(copies, ns, m) <==>
      Latest(copies, m) || forall k: nat :: k < m ==> !Carries(copies, k, ns)
  {
    if Latest(copies, m) {
    } else if forall k: nat :: k < m ==> !Carries(copies, k, ns) {
      var i :| 0 <= i < m && AnchorMs(copies[i]) > AnchorMs(copies[m]);
      forall k: nat | Carries(copies, k, ns) ensures !Latest(copies, k) {
        assert i < k && AnchorMs(copies[k]) < AnchorMs(copies[i]);
      }
    }
  }

  /** With two copies the condition always holds. */
  lemma NewestCarrierWinsAmongTwo(copies: seq<Item>, ns: string, m: nat)
    requires |copies| == 2 && NewestCarrier(copies, ns, m)
    ensures Source(copies, ns, m) && ns in MergeAll(copies).metadata
    ensures MergeAll(copies).metadata[ns] == copies[m].metadata[ns]
  {
    if m == 1 && Carries(copies, 0, ns) { assert Latest(copies, m); }
    NewestCarrierWinsIff(copies, ns, m);
    MetadataIsUnion(copies, ns);
    var p := MetadataSource(copies, ns);
    SourceUnique(copies, ns, p, m);
  }

  function Copy(at: int, metadata: map<string, Namespace>): Item {
    Item("q", None, None, [], Queued, Iso(at), Blank, Blank, Iso(at), "", metadata)
  }

  /** With three it need not: of copies stamped 1, 3 and 2, the first and the last carry the
      namespace, and the entry of the first and oldest one survives. */
  lemma NewestCarrierCanLose(a: Namespace, b: Namespace)
    requires a != b
    ensures var copies := [Copy(1, map["x" := a]), Copy(3, map[]), Copy(2, map["x" := b])];
      NewestCarrier(copies, "x", 2) && "x" in MergeAll(copies).metadata && MergeAll(copies).metadata["x"] == a
  {
    var copies := [Copy(1, map["x" := a]), Copy(3, map[]), Copy(2, map["x" := b])];
    assert copies[..2] == [copies[0], copies[1]] && copies[..2][..1] == [copies[0]];
    assert MergeAll(copies[..2]) == Merge(copies[0], copies[1]);
  }

  // ---- the loop over the queue ----

  /** What the loop has collected after reading a queue. */
  ghost predicate Collected(queue: seq<Item>, byId: map<string, Item>) {
    && (forall id :: id in byId <==> ContainsId(queue, id))
    && (forall id :: id in byId ==> Copies(queue, id) != [] && byId[id] == MergeAll(Copies(queue, id)))
  }

  lemma CollectOne(queue: seq<Item>, n: nat, byId: map<string, Item>)
    requires n < |queue| && Collected(queue[..n], byId)
    ensures Collected(queue[..n + 1],
      byId[queue[n].id := if queue[n].id in byId then Merge(byId[queue[n].id], queue[n]) else queue[n]])
  {
    var item := queue[n];
    var byId' := byId[item.id := if item.id in byId then Merge(byId[item.id], item) else item];
    forall id ensures id in byId' <==> ContainsId(queue[..n + 1], id) {
      CopiesExtend(queue, n, id);
    }
    forall id | id in byId'
      ensures Copies(queue[..n + 1], id) != [] && byId'[id] == MergeAll(Copies(queue[..n + 1], id))
    {
      CopiesExtend(queue, n, id);
      assert id == item.id ==> (ContainsId(queue[..n], id) <==> id in byId);
    }
  }

  lemma CollectedIsDedupe(queue: seq<Item>, byId: map<string, Item>)
    requires Collected(queue, byId)
    ensures var order := FirstIds(queue);
      && |Dedupe(queue)| == |order|
      && forall i :: 0 <= i < |order| ==> order[i] in byId && Dedupe(queue)[i] == byId[order[i]]
  {
    var order := FirstIds(queue);
    FirstIdsAre(queue);
    assert forall i :: 0 <= i < |order| ==> order[i] in order;
  }

  method DedupeQueueById(queue: seq<Item>) returns (r: seq<Item>)
    ensures r == Dedupe(queue)
  {
    var byId: map<string, Item> := map[];
    var order: seq<string> := [];
    for n := 0 to |queue|
      invariant order == FirstIds(queue[..n])
      invariant Collected(queue[..n], byId)
    {
      var item := queue[n];
      CollectOne(queue, n, byId);
      assert queue[..n + 1][..n] == queue[..n];
      if item.id !in byId {
        byId := byId[item.id := item];
        order := order + [item.id];
      } else {
        var existing := byId[item.id];
        var newer := if AnchorMs(item) >= AnchorMs(existing) then item else existing;
        var older := if AnchorMs(item) >= AnchorMs(existing) then existing else item;
        byId := byId[item.id := newer.(metadata := older.metadata + newer.metadata)];
      }
    }
    assert queue[..|queue|] == queue;
    CollectedIsDedupe(queue, byId);
    r := seq(|order|, i requires 0 <= i < |order| && order[i] in byId => byId[order[i]]);
  }

  lemma CopiesExtend(queue: seq<Item>, n: nat, id: string)
    requires n < |queue|
    ensures ContainsId(queue[..n + 1], id) <==> ContainsId(queue[..n], id) || id == queue[n].id
    ensures id != queue[n].id ==> Copies(queue[..n + 1], id) == Copies(queue[..n], id)
    ensures id == queue[n].id && !ContainsId(queue[..n], id) ==> Copies(queue[..n + 1], id) == [queue[n]]
    ensures id == queue[n].id && ContainsId(queue[..n], id) ==>
              && Copies(queue[..n], id) != [] && Copies(queue[..n + 1], id) != []
              && MergeAll(Copies(queue[..n + 1], id)) == Merge(MergeAll(Copies(queue[..n], id)), queue[n])
  {
    var a := queue[..n];
    var b := queue[..n + 1];
    assert b == a + [queue[n]];
    FilterAppend(a, [queue[n]], SameId(id));
    if ContainsId(a, id) {
      var i :| 0 <= i < |a| && a[i].id == id;
      assert b[i].id == id;
    }
    assert b[n] == queue[n];
    CopiesFound(a);
    var before := Copies(a, id);
    assert (before + [queue[n]])[..|before|] == before;
  }
}
