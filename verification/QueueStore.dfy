/** The Item Bus table: rows keyed by id with a sort number, standing for an ordered list without
    duplicates. A transaction is one step. */
module QueueStore {
  import opened Common
  import opened BusItems

  const QUEUE_TTL_MS: int := 7 * 24 * 60 * 60 * 1000

  datatype Row = Row(item: Item, sortOrder: int)

  /** The table stands for this list: each row once, in the order of the sort numbers. */
  ghost predicate Represents(rows: map<string, Row>, list: seq<Item>) {
    && (forall i :: 0 <= i < |list| ==> list[i].id in rows && rows[list[i].id].item == list[i])
    && (forall i, j :: 0 <= i < j < |list| && list[i].id in rows && list[j].id in rows ==>
          rows[list[i].id].sortOrder < rows[list[j].id].sortOrder)
    && (forall id {:trigger ContainsId(list, id)} :: id in rows ==> ContainsId(list, id))
  }

  /** The ids of the list are distinct, and so are the sort numbers of the table. */
  lemma RepresentsDistinct(rows: map<string, Row>, list: seq<Item>)
    requires Represents(rows, list)
    ensures DistinctIds(list)
    ensures forall a, b :: a in rows && b in rows && rows[a].sortOrder == rows[b].sortOrder ==> a == b
  {
    forall a, b | a in rows && b in rows && rows[a].sortOrder == rows[b].sortOrder ensures a == b {
      assert ContainsId(list, a);
      var i :| 0 <= i < |list| && list[i].id == a;
      assert ContainsId(list, b);
      var j :| 0 <= j < |list| && list[j].id == b;
    }
  }

  lemma HeadsAgree(rows: map<string, Row>, a: seq<Item>, b: seq<Item>)
    requires Represents(rows, a) && Represents(rows, b) && a != []
    ensures b != [] && a[0] == b[0]
  {
    assert ContainsId(b, a[0].id);
    var j :| 0 <= j < |b| && b[j].id == a[0].id;
    assert ContainsId(a, b[0].id);
    var i :| 0 <= i < |a| && a[i].id == b[0].id;
    assert rows[a[0].id].sortOrder <= rows[a[i].id].sortOrder;
  }

  /** A table stands for one list only. */
  lemma {:induction false} RepresentsOne(rows: map<string, Row>, a: seq<Item>, b: seq<Item>)
    requires Represents(rows, a) && Represents(rows, b)
    ensures a == b
    decreases |a|
  {
    if b != [] { HeadsAgree(rows, b, a); }
    if a != [] {
      HeadsAgree(rows, a, b);
      TailRepresents(rows, a);
      TailRepresents(rows, b);
      RepresentsOne(rows - {a[0].id}, a[1..], b[1..]);
      assert a == [a[0]] + a[1..] && b == [b[0]] + b[1..];
    }
  }

  lemma TailRepresents(rows: map<string, Row>, list: seq<Item>)
    requires Represents(rows, list) && list != []
    ensures Represents(rows - {list[0].id}, list[1..])
  {
    RepresentsDistinct(rows, list);
    var rest := rows - {list[0].id};
    assert forall i :: 0 <= i < |list[1..]| ==> list[1..][i] == list[i + 1];
    forall id | id in rest ensures ContainsId(list[1..], id) {
      assert ContainsId(list, id);
      var i :| 0 <= i < |list| && list[i].id == id;
      assert list[1..][i - 1].id == id;
    }
  }

  // ---- the operations on the list ----

  function Upsert(list: seq<Item>, item: Item): seq<Item> {
    if list == [] then [item]
    else if list[0].id == item.id then [item] + list[1..]
    else [list[0]] + Upsert(list[1..], item)
  }

  function UpsertAll(list: seq<Item>, items: seq<Item>): seq<Item>
    decreases |items|
  {
    if items == [] then list else Upsert(UpsertAll(list, items[..|items| - 1]), items[|items| - 1])
  }

  function IdNotIn(ids: seq<string>): Item -> bool { (item: Item) => item.id !in ids }

  function IdIn(ids: seq<string>): Item -> bool { (item: Item) => item.id in ids }

  /** The ids that a deletion finds. */
  ghost function FoundIds(list: seq<Item>, ids: seq<string>): set<string> {
    set id | id in ids && ContainsId(list, id)
  }

  /** A deletion drops exactly one item for each of the ids that are there. */
  lemma {:induction false} DeletedCount(list: seq<Item>, ids: seq<string>)
    requires DistinctIds(list)
    ensures |list| - |Filter(list, IdNotIn(ids))| == |FoundIds(list, ids)|
  {
    if list != [] {
      DeletedCount(list[1..], ids);
      forall id ensures ContainsId(list, id) <==> list[0].id == id || ContainsId(list[1..], id) {
        ContainsCons(list, id);
      }
      assert !ContainsId(list[1..], list[0].id);
      var head := if list[0].id in ids then {list[0].id} else {};
      assert FoundIds(list, ids) == FoundIds(list[1..], ids) + head;
    }
  }

  lemma DeletedIds(list: seq<Item>, ids: seq<string>)
    ensures forall id :: ContainsId(Filter(list, IdNotIn(ids)), id) <==> ContainsId(list, id) && id !in ids
  {
    var kept := Filter(list, IdNotIn(ids));
    forall id ensures ContainsId(kept, id) <==> ContainsId(list, id) && id !in ids {
      if ContainsId(kept, id) {
        var i :| 0 <= i < |kept| && kept[i].id == id;
        assert kept[i] in kept;
        var k :| 0 <= k < |list| && list[k] == kept[i];
      }
      if ContainsId(list, id) && id !in ids {
        var i :| 0 <= i < |list| && list[i].id == id;
        assert list[i] in list && list[i] in kept;
        var k :| 0 <= k < |kept| && kept[k] == list[i];
      }
    }
  }

  /** Ids that are distinct and all there are all counted. */
  lemma {:induction false} AllFound(list: seq<Item>, ids: seq<string>)
    requires forall i, j :: 0 <= i < j < |ids| ==> ids[i] != ids[j]
    requires forall id :: id in ids ==> ContainsId(list, id)
    ensures |set id | id in ids && ContainsId(list, id)| == |ids|
  {
    if ids != [] {
      AllFound(list, ids[1..]);
      assert ids[0] in ids && ids[0] !in ids[1..];
      assert FoundIds(list, ids) == FoundIds(list, ids[1..]) + {ids[0]};
    }
  }

  /** The first place of an id in a list, or its length. */
  function PlaceOf(list: seq<Item>, id: string): (i: nat)
    ensures i <= |list| && (i < |list| ==> list[i].id == id)
    ensures forall k :: 0 <= k < i ==> list[k].id != id
  {
    if list == [] || list[0].id == id then 0 else 1 + PlaceOf(list[1..], id)
  }

  lemma {:induction false} UpsertAtPlace(list: seq<Item>, item: Item)
    ensures var i := PlaceOf(list, item.id);
      Upsert(list, item) == if i < |list| then list[i := item] else list + [item]
  {
    if list != [] && list[0].id != item.id {
      UpsertAtPlace(list[1..], item);
      assert list == [list[0]] + list[1..];
    }
  }

  /** An upsert replaces the item of that id where it stands, or appends it; nothing else moves. */
  lemma UpsertInPlace(list: seq<Item>, item: Item)
    ensures var r := Upsert(list, item);
      && |r| == |list| + (if ContainsId(list, item.id) then 0 else 1)
      && (!ContainsId(list, item.id) ==> r == list + [item])
      && (forall i :: 0 <= i < |list| && list[i].id != item.id ==> r[i] == list[i])
      && (DistinctIds(list) ==> forall i :: 0 <= i < |list| && list[i].id == item.id ==> r == list[i := item])
      && (forall id :: ContainsId(r, id) <==> ContainsId(list, id) || id == item.id)
  {
    UpsertAtPlace(list, item);
    UpsertContains(list, item);
    var i := PlaceOf(list, item.id);
    assert ContainsId(list, item.id) <==> i < |list|;
  }

  lemma UpsertContains(list: seq<Item>, item: Item)
    ensures forall id :: ContainsId(Upsert(list, item), id) <==> ContainsId(list, id) || id == item.id
  {
    var r := Upsert(list, item);
    UpsertAtPlace(list, item);
    assert r[PlaceOf(list, item.id)].id == item.id;
    forall id | ContainsId(list, id) ensures ContainsId(r, id) {
      var k :| 0 <= k < |list| && list[k].id == id;
      assert r[k].id == id;
    }
    forall id | ContainsId(r, id) && id != item.id ensures ContainsId(list, id) {
      var k :| 0 <= k < |r| && r[k].id == id;
      assert list[k].id == id;
    }
  }

  lemma ContainsCons(list: seq<Item>, id: string)
    requires list != []
    ensures ContainsId(list, id) <==> list[0].id == id || ContainsId(list[1..], id)
  {
    if ContainsId(list, id) && list[0].id != id {
      var i :| 0 <= i < |list| && list[i].id == id;
      assert list[1..][i - 1].id == id;
    }
    if ContainsId(list[1..], id) {
      var i :| 0 <= i < |list[1..]| && list[1..][i].id == id;
      assert list[i + 1].id == id;
    }
  }

  // ---- and on the table ----

  lemma AppendRepresents(rows: map<string, Row>, list: seq<Item>, item: Item, order: int)
    requires Represents(rows, list) && item.id !in rows
    requires forall id :: id in rows ==> rows[id].sortOrder < order
    ensures Represents(rows[item.id := Row(item, order)], list + [item])
  {
    var rows' := rows[item.id := Row(item, order)];
    var list' := list + [item];
    forall id | id in rows' ensures ContainsId(list', id) {
      if id == item.id {
        assert list'[|list|].id == id;
      } else {
        assert ContainsId(list, id);
        var i :| 0 <= i < |list| && list[i].id == id;
        assert list'[i].id == id;
      }
    }
  }

  lemma ReplaceRepresents(rows: map<string, Row>, list: seq<Item>, item: Item)
    requires Represents(rows, list) && item.id in rows
    ensures Represents(rows[item.id := Row(item, rows[item.id].sortOrder)], Upsert(list, item))
  {
    RepresentsDistinct(rows, list);
    UpsertInPlace(list, item);
    var i :| 0 <= i < |list| && list[i].id == item.id;
    ReplaceAt(rows, list, i, item);
  }

  lemma ReplaceAt(rows: map<string, Row>, list: seq<Item>, i: nat, item: Item)
    requires Represents(rows, list) && DistinctIds(list) && i < |list| && list[i].id == item.id
    ensures Represents(rows[item.id := Row(item, rows[item.id].sortOrder)], list[i := item])
  {
    var rows' := rows[item.id := Row(item, rows[item.id].sortOrder)];
    var list' := list[i := item];
    assert forall k :: 0 <= k < |list| && k != i ==> list[k].id != item.id && rows'[list[k].id] == rows[list[k].id];
    assert forall k :: 0 <= k < |list| ==> list'[k].id == list[k].id;
    assert forall id :: id in rows ==> id in rows' && rows'[id].sortOrder == rows[id].sortOrder;
    forall id | id in rows' ensures ContainsId(list', id) {
      assert ContainsId(list, id);
      var k :| 0 <= k < |list| && list[k].id == id;
      assert list'[k].id == id;
    }
  }

  /** The sort number as a descending key. */
  function OrderKey(rows: map<string, Row>): Item -> int {
    (item: Item) => if item.id in rows then -rows[item.id].sortOrder else 0
  }

  lemma {:induction false} FilterDistinct(list: seq<Item>, p: Item -> bool)
    requires DistinctIds(list)
    ensures DistinctIds(Filter(list, p))
  {
    if list != [] {
      FilterDistinct(list[1..], p);
      var f := Filter(list[1..], p);
      forall i | 0 <= i < |f| ensures f[i].id != list[0].id {
        assert f[i] in f;
        var k :| 0 <= k < |list[1..]| && list[1..][k] == f[i];
        assert list[k + 1] == f[i];
      }
    }
  }

  /** Deleting rows drops exactly their items from the list. */
  lemma FilterRepresents(rows: map<string, Row>, list: seq<Item>, p: Item -> bool)
    requires Represents(rows, list)
    ensures Represents(rows - (set id | id in rows && !p(rows[id].item)), Filter(list, p))
  {
    var kept := rows - (set id | id in rows && !p(rows[id].item));
    var f := Filter(list, p);
    RepresentsDistinct(rows, list);
    FilterOrdered(rows, list, p);
    forall i | 0 <= i < |f| ensures f[i].id in kept && kept[f[i].id].item == f[i] {
      assert f[i] in f;
    }
    assert forall i :: 0 <= i < |f| ==> f[i].id in kept && kept[f[i].id] == rows[f[i].id];
    assert Ascends(kept, f);
    forall id | id in kept ensures ContainsId(f, id) {
      KeptIsListed(rows, list, p, id);
    }
  }

  lemma KeptIsListed(rows: map<string, Row>, list: seq<Item>, p: Item -> bool, id: string)
    requires Represents(rows, list) && id in rows && p(rows[id].item)
    ensures ContainsId(Filter(list, p), id)
  {
    assert ContainsId(list, id);
    var i :| 0 <= i < |list| && list[i].id == id;
    assert list[i] in list && list[i] in Filter(list, p);
  }

  ghost predicate Ascends(rows: map<string, Row>, list: seq<Item>) {
    && (forall i :: 0 <= i < |list| ==> list[i].id in rows)
    && forall i, j :: 0 <= i < j < |list| ==> rows[list[i].id].sortOrder < rows[list[j].id].sortOrder
  }

  lemma FilterOrdered(rows: map<string, Row>, list: seq<Item>, p: Item -> bool)
    requires Represents(rows, list) && DistinctIds(list)
    ensures Ascends(rows, Filter(list, p))
  {
    var key := OrderKey(rows);
    var f := Filter(list, p);
    SortDescIdentity(list, key);
    FilterSort(list, key, p);
    SortDescSorted(f, key);
    FilterDistinct(list, p);
    RepresentsDistinct(rows, list);
    forall i | 0 <= i < |f| ensures f[i].id in rows && key(f[i]) == -rows[f[i].id].sortOrder {
      assert f[i] in f;
    }
  }

  // ---- the time to live ----

  /** What readers hide: the life-cycle anchor is unreadable or a week old. */
  predicate Alive(item: Item, now: int) {
    var anchor := Parse(AnchorStamp(item));
    anchor.Some? && now - anchor.value < QUEUE_TTL_MS
  }

  /** In other words: the first timestamp that is not empty can be read and is less than seven days old. */
  lemma AliveIff(item: Item, now: int)
    ensures Alive(item, now) <==> exists k ::
      && 0 <= k < 4 && YoungerThan(Timestamps(item)[k], now, 604_800_000)
      && forall j :: 0 <= j < k ==> Timestamps(item)[j].Blank?
  {
    AnchorIsFirstGiven(item);
    var all := Timestamps(item);
    if Alive(item, now) {
      var k := if all[0].Text? then 0 else if all[1].Text? then 1 else if all[2].Text? then 2 else 3;
      assert AnchorStamp(item) == all[k];
    }
  }

  function AliveAt(now: int): Item -> bool { (item: Item) => Alive(item, now) }

  function PruneQueue(list: seq<Item>, now: int): seq<Item> { Filter(list, AliveAt(now)) }

  /** The timestamp can be read and is less than so many milliseconds old. */
  predicate YoungerThan(s: Stamp, now: int, age: int) {
    s.Text? && s.parsed.Some? && now - s.parsed.value < age
  }

  /** What the reaper keeps: it reads only the state-change time. */
  predicate Unexpired(item: Item, now: int) {
    var anchor := Parse(item.stateChangedAt);
    anchor.Some? && now - anchor.value < QUEUE_TTL_MS
  }

  function UnexpiredAt(now: int): Item -> bool { (item: Item) => Unexpired(item, now) }

  /** The reaper keeps exactly what readers would show, if and only if no item without a state-change
      time is alive by one of its other timestamps. */
  lemma {:induction false} ReaperAgreesIff(list: seq<Item>, now: int)
    ensures Filter(list, UnexpiredAt(now)) == PruneQueue(list, now) <==>
      forall item :: item in list && item.stateChangedAt.Blank? ==> !Alive(item, now)
  {
    if list != [] {
      ReaperAgreesIff(list[1..], now);
      var item := list[0];
      assert Unexpired(item, now) == (Alive(item, now) && !item.stateChangedAt.Blank?);
      assert forall x :: x in list <==> x == item || x in list[1..];
      if item.stateChangedAt.Blank? && Alive(item, now) {
        ReaperKeepsFewer(list[1..], now);
      }
    }
  }

  lemma {:induction false} ReaperKeepsFewer(list: seq<Item>, now: int)
    ensures |Filter(list, UnexpiredAt(now))| <= |PruneQueue(list, now)|
  {
    if list != [] { ReaperKeepsFewer(list[1..], now); }
  }

  // ---- the table, updated in place ----

  class QueueTable {
    var rows: map<string, Row>
    ghost var list: seq<Item>

    ghost predicate Valid()
      reads this
    {
      Represents(rows, list)
    }

    constructor ()
      ensures Valid() && list == []
    {
      rows, list := map[], [];
    }

    /** SELECT ... ORDER BY sort_order over the rows that satisfy a condition. */
    method Select(p: Item -> bool) returns (items: seq<Item>)
      requires Valid()
      ensures items == Filter(list, p)
    {
      items := [];
      var rest := rows;
      ghost var todo := list;
      while rest != map[]
        invariant Represents(rest, todo)
        invariant items + Filter(todo, p) == Filter(list, p)
        decreases |todo|
      {
        LeastExists(rest, todo);
        var id :| id in rest && IsFirst(rest, id);
        LeastIsFirst(rest, todo, id);
        TailRepresents(rest, todo);
        if p(rest[id].item) {
          items := items + [rest[id].item];
        }
        rest := rest - {id};
        todo := todo[1..];
      }
      EmptyTable(rest, todo);
    }

    method LoadQueue() returns (items: seq<Item>)
      requires Valid()
      ensures items == list
    {
      items := Select((_: Item) => true);
      FilterAll(list, (_: Item) => true);
    }

    /** coalesce(max(sort_order), -1) + 1 */
    method NextOrder() returns (next: int)
      ensures forall id :: id in rows ==> rows[id].sortOrder < next
      ensures rows == map[] ==> next == 0
    {
      next := 0;
      var rest := rows.Keys;
      if id0 :| id0 in rest {
        next := rows[id0].sortOrder + 1;
      }
      while rest != {}
        invariant rest <= rows.Keys
        invariant forall id :: id in rows && id !in rest ==> rows[id].sortOrder < next
        invariant rows == map[] ==> next == 0
        decreases rest
      {
        var id :| id in rest;
        if rows[id].sortOrder >= next {
          next := rows[id].sortOrder + 1;
        }
        rest := rest - {id};
      }
    }

    method InsertQueueItem(item: Item) returns (stored: Item, inserted: bool)
      requires Valid()
      modifies this
      ensures Valid()
      ensures inserted == !ContainsId(old(list), item.id)
      ensures inserted ==> list == old(list) + [item] && stored == item
      ensures !inserted ==> list == old(list) && stored in list && stored.id == item.id
    {
      if item.id in rows {
        stored, inserted := rows[item.id].item, false;
        assert ContainsId(list, item.id);
        ghost var i :| 0 <= i < |list| && list[i].id == item.id;
        return;
      }
      var next := NextOrder();
      AppendRepresents(rows, list, item, next);
      rows := rows[item.id := Row(item, next)];
      list := list + [item];
      stored, inserted := item, true;
    }

    method UpsertQueueItems(items: seq<Item>)
      requires Valid()
      modifies this
      ensures Valid() && list == UpsertAll(old(list), items)
      ensures forall x :: x in list <==> LastOf(items, x) || (x in old(list) && !ContainsId(items, x.id))
    {
      RepresentsDistinct(rows, list);
      UpsertAllItems(list, items);
      var nextOrder := NextOrder();
      for n := 0 to |items|
        invariant Valid() && list == UpsertAll(old(list), items[..n])
        invariant forall id :: id in rows ==> rows[id].sortOrder < nextOrder
      {
        assert items[..n + 1][..n] == items[..n];
        nextOrder := UpsertRow(items[n], nextOrder);
      }
      assert items[..|items|] == items;
    }

    /** A known row keeps its sort number, a new one takes the next. */
    method UpsertRow(item: Item, nextOrder: int) returns (order: int)
      requires Valid() && forall id :: id in rows ==> rows[id].sortOrder < nextOrder
      modifies this
      ensures Valid() && list == Upsert(old(list), item)
      ensures forall id :: id in rows ==> rows[id].sortOrder < order
    {
      UpsertInPlace(list, item);
      order := nextOrder;
      if item.id in rows {
        ReplaceRepresents(rows, list, item);
        rows := rows[item.id := Row(item, rows[item.id].sortOrder)];
      } else {
        AppendRepresents(rows, list, item, nextOrder);
        assert !ContainsId(list, item.id);
        rows := rows[item.id := Row(item, nextOrder)];
        order := nextOrder + 1;
      }
      list := Upsert(list, item);
    }

    method DeleteWhere(p: Item -> bool)
      requires Valid()
      modifies this
      ensures Valid() && list == Filter(old(list), p)
    {
      FilterRepresents(rows, list, p);
      rows := rows - (set id | id in rows && !p(rows[id].item));
      list := Filter(list, p);
    }

    method DeleteQueueItems(ids: seq<string>) returns (changes: nat)
      requires Valid()
      modifies this
      ensures Valid() && list == Filter(old(list), IdNotIn(ids))
      ensures forall item :: item in list <==> item in old(list) && item.id !in ids
      ensures forall id :: ContainsId(list, id) <==> ContainsId(old(list), id) && id !in ids
      ensures InOrderOf(list, old(list))
      ensures changes == |set id | id in ids && ContainsId(old(list), id)|
    {
      RepresentsDistinct(rows, list);
      DeletedCount(list, ids);
      DeletedIds(list, ids);
      FilterKeepsOrder(list, IdNotIn(ids));
      var before := LoadQueue();
      DeleteWhere(IdNotIn(ids));
      var after := LoadQueue();
      changes := |before| - |after|;
    }

    /** The whole list is replaced by the given one, normalised and with copies merged. */
    method SaveQueue(queue: seq<Draft>)
      requires Valid()
      modifies this
      ensures Valid() && list == Dedupe(NormalizeAll(queue))
    {
      var items := NormalizeAll(queue);
      var normalized := DedupeQueueById(items);
      DedupeIds(items);
      ReplaceRows(normalized);
    }

    method ReplaceRows(normalized: seq<Item>)
      requires DistinctIds(normalized)
      modifies this
      ensures Valid() && list == normalized
    {
      rows, list := map[], [];
      for n := 0 to |normalized|
        invariant Valid() && list == normalized[..n]
        invariant forall id :: id in rows ==> rows[id].sortOrder < n
      {
        var item := normalized[n];
        NotYetStored(rows, normalized, n);
        AppendRepresents(rows, list, item, n);
        rows := rows[item.id := Row(item, n)];
        list := list + [item];
        assert normalized[..n + 1] == normalized[..n] + [item];
      }
      assert normalized[..|normalized|] == normalized;
    }

    /** A callback that rewrites an id adds or replaces the item of the new id and keeps the old one. */
    method UpdateQueueItems(ids: seq<string>, update: Item -> Item) returns (items: seq<Item>)
      requires Valid()
      modifies this
      ensures Valid()
      ensures items == MapAll(Filter(old(list), IdIn(ids)), update)
      ensures list == UpsertAll(old(list), items)
      ensures (forall item :: update(item).id == item.id) ==>
        && |list| == |old(list)|
        && forall i :: 0 <= i < |list| ==>
          list[i] == if old(list)[i].id in ids then update(old(list)[i]) else old(list)[i]
    {
      UpdateInAt(list, ids, update);
      items := Select(IdIn(ids));
      items := MapAll(items, update);
      RepresentsDistinct(rows, list);
      if forall item :: update(item).id == item.id { UpdateIsUpsert(list, ids, update); }
      UpsertQueueItems(items);
    }

    method ReapExpiredQueueItems(now: int) returns (changes: nat)
      requires Valid()
      modifies this
      ensures Valid() && list == Filter(old(list), UnexpiredAt(now)) && InOrderOf(list, old(list))
      ensures forall item :: item in list <==> item in old(list) && YoungerThan(item.stateChangedAt, now, 604_800_000)
      ensures changes == |old(list)| - |list|
    {
      FilterKeepsOrder(list, UnexpiredAt(now));
      assert forall item :: Unexpired(item, now) <==> YoungerThan(item.stateChangedAt, now, 604_800_000);
      changes := DeleteExpired(now);
    }

    method DeleteExpired(now: int) returns (changes: nat)
      requires Valid()
      modifies this
      ensures Valid() && list == Filter(old(list), UnexpiredAt(now))
      ensures changes == |old(list)| - |list|
    {
      var before := LoadQueue();
      DeleteWhere(UnexpiredAt(now));
      var after := LoadQueue();
      changes := |before| - |after|;
    }
  }

  lemma NotYetStored(rows: map<string, Row>, list: seq<Item>, n: nat)
    requires n < |list| && DistinctIds(list) && Represents(rows, list[..n])
    ensures list[n].id !in rows
  {
    assert forall i :: 0 <= i < n ==> list[..n][i].id != list[n].id;
    assert !ContainsId(list[..n], list[n].id);
  }

  predicate IsFirst(rows: map<string, Row>, id: string) {
    id in rows && forall other :: other in rows ==> rows[id].sortOrder <= rows[other].sortOrder
  }

  lemma EmptyTable(rows: map<string, Row>, list: seq<Item>)
    requires Represents(rows, list)
    ensures rows == map[] <==> list == []
  {
    if list == [] {
      assert forall id :: id in rows ==> ContainsId(list, id);
    } else {
      assert list[0].id in rows;
    }
  }

  lemma LeastExists(rows: map<string, Row>, list: seq<Item>)
    requires Represents(rows, list) && rows != map[]
    ensures list != [] && IsFirst(rows, list[0].id)
  {
    EmptyTable(rows, list);
    forall other | other in rows ensures rows[list[0].id].sortOrder <= rows[other].sortOrder {
      assert ContainsId(list, other);
      var i :| 0 <= i < |list| && list[i].id == other;
    }
  }

  lemma LeastIsFirst(rows: map<string, Row>, list: seq<Item>, id: string)
    requires Represents(rows, list) && list != [] && IsFirst(rows, id)
    ensures id == list[0].id && rows[id].item == list[0]
  {
    assert ContainsId(list, id);
    var i :| 0 <= i < |list| && list[i].id == id;
  }

  function MapAll(items: seq<Item>, f: Item -> Item): seq<Item> {
    if items == [] then [] else [f(items[0])] + MapAll(items[1..], f)
  }

  /** The list in which exactly the items of these ids are updated, each where it stands. */
  function UpdateIn(list: seq<Item>, ids: seq<string>, f: Item -> Item): seq<Item> {
    if list == [] then []
    else [if list[0].id in ids then f(list[0]) else list[0]] + UpdateIn(list[1..], ids, f)
  }

  lemma {:induction false} UpdateInAt(list: seq<Item>, ids: seq<string>, f: Item -> Item)
    ensures |UpdateIn(list, ids, f)| == |list|
    ensures forall i :: 0 <= i < |list| ==>
      UpdateIn(list, ids, f)[i] == if list[i].id in ids then f(list[i]) else list[i]
  {
    if list != [] { UpdateInAt(list[1..], ids, f); }
  }

  lemma {:induction false} UpdateIsUpsert(list: seq<Item>, ids: seq<string>, f: Item -> Item)
    requires DistinctIds(list) && forall item :: f(item).id == item.id
    ensures UpsertAll(list, MapAll(Filter(list, IdIn(ids)), f)) == UpdateIn(list, ids, f)
  {
    if list != [] {
      var tail := list[1..];
      var items := MapAll(Filter(tail, IdIn(ids)), f);
      UpdateIsUpsert(tail, ids, f);
      MapFilterIds(tail, ids, f);
      var head := list[0];
      if head.id in ids {
        UpsertAllCons(list, f(head), items);
        assert Upsert(list, f(head)) == [f(head)] + tail;
        UpsertAllTail(f(head), tail, items);
      } else {
        UpsertAllTail(head, tail, items);
        assert list == [head] + tail;
      }
    }
  }

  lemma {:induction false} MapFilterIds(list: seq<Item>, ids: seq<string>, f: Item -> Item)
    requires forall item :: f(item).id == item.id
    ensures forall x :: x in MapAll(Filter(list, IdIn(ids)), f) ==> ContainsId(list, x.id)
  {
    if list != [] {
      MapFilterIds(list[1..], ids, f);
      forall x | x in MapAll(Filter(list, IdIn(ids)), f) ensures ContainsId(list, x.id) {
        ContainsCons(list, x.id);
      }
    }
  }

  lemma {:induction false} UpsertAllCons(list: seq<Item>, first: Item, rest: seq<Item>)
    ensures UpsertAll(list, [first] + rest) == UpsertAll(Upsert(list, first), rest)
    decreases |rest|
  {
    var all := [first] + rest;
    if rest == [] {
      assert all[..0] == [];
    } else {
      assert all[..|all| - 1] == [first] + rest[..|rest| - 1];
      UpsertAllCons(list, first, rest[..|rest| - 1]);
    }
  }

  /** Upserting items of other ids leaves the head alone. */
  lemma {:induction false} UpsertAllTail(head: Item, tail: seq<Item>, items: seq<Item>)
    requires forall x :: x in items ==> x.id != head.id
    ensures UpsertAll([head] + tail, items) == [head] + UpsertAll(tail, items)
    decreases |items|
  {
    if items != [] {
      var init := items[..|items| - 1];
      UpsertAllTail(head, tail, init);
      var t := UpsertAll(tail, init);
      assert items[|items| - 1] in items;
      assert ([head] + t)[1..] == t;
    }
  }

  /** Upserting never reorders: the ids already there keep their places and new ones follow in
      argument order. */
  lemma {:induction false} UpsertAllIds(list: seq<Item>, items: seq<Item>)
    requires DistinctIds(list)
    ensures DistinctIds(UpsertAll(list, items))
    ensures IdsOf(UpsertAll(list, items)) == FirstIds(list + items)
    decreases |items|
  {
    if items == [] {
      assert list + [] == list;
      DistinctFirstIds(list);
    } else {
      var n := |items| - 1;
      var before := UpsertAll(list, items[..n]);
      UpsertAllIds(list, items[..n]);
      UpsertIds(before, items[n]);
      IdsOfContains(before, items[n].id);
      FirstIdsPush(list + items[..n], items[n]);
      assert list + items == list + items[..n] + [items[n]];
    }
  }

  lemma UpsertMembers(list: seq<Item>, item: Item)
    requires DistinctIds(list)
    ensures forall x :: x in Upsert(list, item) <==> x == item || (x in list && x.id != item.id)
  {
    UpsertAtPlace(list, item);
    var r, n := Upsert(list, item), PlaceOf(list, item.id);
    assert r[n] == item;
    forall x | x in list && x.id != item.id ensures x in r {
      var k :| 0 <= k < |list| && list[k] == x;
      assert r[k] == x;
    }
    forall x | x in r && x != item ensures x in list && x.id != item.id {
      var k :| 0 <= k < |r| && r[k] == x;
      assert list[k] == x;
    }
  }

  /** The item is handed in, and none of its id is handed in after it. */
  ghost predicate LastOf(items: seq<Item>, x: Item) {
    exists k :: 0 <= k < |items| && items[k] == x && forall n :: k < n < |items| ==> items[n].id != x.id
  }

  /** Of the items of one id the last one handed in is stored, and items of other ids are kept. */
  lemma {:induction false} UpsertAllItems(list: seq<Item>, items: seq<Item>)
    requires DistinctIds(list)
    ensures forall x :: x in UpsertAll(list, items) <==>
      LastOf(items, x) || (x in list && !ContainsId(items, x.id))
    decreases |items|
  {
    if items != [] {
      var n := |items| - 1;
      var init, last := items[..n], items[n];
      UpsertAllItems(list, init);
      UpsertAllIds(list, init);
      UpsertMembers(UpsertAll(list, init), last);
      forall x
        ensures LastOf(items, x) <==> x == last || (LastOf(init, x) && x.id != last.id)
        ensures ContainsId(items, x.id) <==> ContainsId(init, x.id) || x.id == last.id
      {
        LastOfSnoc(items, x);
      }
    }
  }

  lemma LastOfSnoc(items: seq<Item>, x: Item)
    requires items != []
    ensures var n := |items| - 1;
      && (LastOf(items, x) <==> x == items[n] || (LastOf(items[..n], x) && x.id != items[n].id))
      && (ContainsId(items, x.id) <==> ContainsId(items[..n], x.id) || x.id == items[n].id)
  {
    var n := |items| - 1;
    var init := items[..n];
    if k :| 0 <= k < n && items[k] == x && forall m :: k < m < |items| ==> items[m].id != x.id {
      assert init[k] == x && x.id != items[n].id;
    }
    if k :| 0 <= k < n && init[k] == x && (forall m :: k < m < n ==> init[m].id != x.id) && x.id != items[n].id {
      assert items[k] == x && forall m :: k < m < n ==> items[m] == init[m];
    }
    if i :| 0 <= i < n && items[i].id == x.id {
      assert init[i].id == x.id;
    }
    if i :| 0 <= i < n && init[i].id == x.id {
      assert items[i].id == x.id;
    }
  }

  lemma FirstIdsPush(queue: seq<Item>, item: Item)
    ensures FirstIds(queue + [item]) == FirstIds(queue) + if item.id in FirstIds(queue) then [] else [item.id]
  {
    var all := queue + [item];
    assert all[..|all| - 1] == queue && all[|all| - 1] == item;
    FirstIdsAre(queue);
  }

  lemma UpsertIds(list: seq<Item>, item: Item)
    requires DistinctIds(list)
    ensures DistinctIds(Upsert(list, item))
    ensures IdsOf(Upsert(list, item)) == IdsOf(list) + if ContainsId(list, item.id) then [] else [item.id]
  {
    UpsertAtPlace(list, item);
    var i := PlaceOf(list, item.id);
    assert ContainsId(list, item.id) <==> i < |list|;
    if i < |list| {
      assert IdsOf(list[i := item]) == IdsOf(list);
    } else {
      assert IdsOf(list + [item]) == IdsOf(list) + [item.id];
    }
  }

  lemma IdsOfContains(list: seq<Item>, id: string)
    ensures id in IdsOf(list) <==> ContainsId(list, id)
  {
    if ContainsId(list, id) {
      var i :| 0 <= i < |list| && list[i].id == id;
      assert IdsOf(list)[i] == id;
    }
  }
}
