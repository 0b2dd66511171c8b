/** Producers and consumers of items: publishing an id once, and consumer metadata that neither
    another consumer nor the merge of copies takes away. */
module ItemBus {
  import opened Common
  import opened BusItems
  import opened QueueStore
  import opened ConsumerQuery

  // ---- publishing ----

  /** Listeners are told the type, the producer and the state of a new item; `id` is history. */
  datatype Published = Published(id: string, itemType: Option<string>, producer: Option<string>, state: State)

  datatype PublishResult = Stored(item: Item) | IdCollision

  predicate SameOwner(a: Item, b: Item) { a.producer == b.producer && a.itemType == b.itemType }

  function EventFor(item: Item): Published { Published(item.id, item.itemType, item.producer, item.state) }

  datatype Bus = Bus(list: seq<Item>, events: seq<Published>)

  function Publish(bus: Bus, item: Item): Bus {
    if ContainsId(bus.list, item.id) then bus else Bus(bus.list + [item], bus.events + [EventFor(item)])
  }

  function PublishAll(bus: Bus, items: seq<Item>): Bus
    decreases |items|
  {
    if items == [] then bus else Publish(PublishAll(bus, items[..|items| - 1]), items[|items| - 1])
  }

  /** The item is published, and none of its id is published before it. */
  ghost predicate FirstOf(items: seq<Item>, x: Item) {
    exists k :: 0 <= k < |items| && items[k] == x && forall n :: 0 <= n < k ==> items[n].id != x.id
  }

  /** The item was stored as first published, and the event tells its type, producer and state. */
  ghost predicate Announced(items: seq<Item>, item: Item, event: Published) {
    FirstOf(items, item) && event == Published(item.id, item.itemType, item.producer, item.state)
  }

  lemma FirstOfSnoc(list: seq<Item>, items: seq<Item>)
    requires items != []
    ensures var n := |items| - 1;
      && (forall x :: FirstOf(items[..n], x) ==> FirstOf(items, x))
      && (!ContainsId(list + items[..n], items[n].id) ==> FirstOf(items, items[n]))
  {
    var n := |items| - 1;
    forall x | FirstOf(items[..n], x) ensures FirstOf(items, x) {
      var k :| 0 <= k < n && items[..n][k] == x && forall m :: 0 <= m < k ==> items[..n][m].id != x.id;
      assert items[k] == x && forall m :: 0 <= m < k ==> items[m] == items[..n][m];
    }
    if !ContainsId(list + items[..n], items[n].id) {
      forall m | 0 <= m < n ensures items[m].id != items[n].id {
        assert (list + items[..n])[|list| + m] == items[m];
      }
    }
  }

  /** Whatever is published, and however often: each id that was not on the bus is stored and
      announced exactly once, in order of first publication, as it was first published; what was
      there before is untouched. */
  lemma {:induction false} PublishedOnce(list: seq<Item>, items: seq<Item>)
    requires DistinctIds(list)
    ensures var after := PublishAll(Bus(list, []), items);
      && DistinctIds(after.list) && list <= after.list
      && IdsOf(after.list) == FirstIds(list + items)
      && |after.events| == |after.list| - |list|
      && forall i :: 0 <= i < |after.events| ==>
        Announced(items, after.list[|list| + i], after.events[i])
    decreases |items|
  {
    if items == [] {
      assert list + [] == list;
      DistinctFirstIds(list);
    } else {
      var n := |items| - 1;
      var before := PublishAll(Bus(list, []), items[..n]);
      PublishedOnce(list, items[..n]);
      assert list + items == list + items[..n] + [items[n]];
      FirstIdsPush(list + items[..n], items[n]);
      IdsOfContains(before.list, items[n].id);
      PushKeepsDistinct(before.list, items[n]);
      FirstIdsAre(list + items[..n]);
      FirstOfSnoc(list, items);
      assert items[n].id in IdsOf(before.list) <==> ContainsId(list + items[..n], items[n].id);
      var after := Publish(before, items[n]);
      forall i | 0 <= i < |after.events| ensures Announced(items, after.list[|list| + i], after.events[i]) {
        if i < |before.events| {
          assert Announced(items[..n], before.list[|list| + i], before.events[i]);
        }
      }
    }
  }

  lemma PushKeepsDistinct(list: seq<Item>, item: Item)
    requires DistinctIds(list)
    ensures IdsOf(list + [item]) == IdsOf(list) + [item.id]
    ensures !ContainsId(list, item.id) ==> DistinctIds(list + [item])
  {
    assert forall i :: 0 <= i < |list| && list[i].id == item.id ==> ContainsId(list, item.id);
  }

  class ItemBus {
    const table: QueueTable
    var events: seq<Published>

    constructor (table: QueueTable)
      ensures this.table == table && events == []
    {
      this.table, events := table, [];
    }

    /** An id that is taken by another producer or type is refused and changes nothing; one that is
        taken by the same fact returns the stored item. Neither is announced. */
    method PublishItem(item: Item) returns (result: PublishResult)
      requires table.Valid()
      modifies this, table
      ensures table.Valid()
      ensures Bus(table.list, events) == Publish(Bus(old(table.list), old(events)), item)
      ensures result.IdCollision? <==> exists x ::
        x in old(table.list) && x.id == item.id && (x.producer != item.producer || x.itemType != item.itemType)
      ensures result.Stored? ==> result.item.id == item.id && result.item in table.list
      ensures !ContainsId(old(table.list), item.id) ==>
        && table.list == old(table.list) + [item] && result == Stored(item)
        && events == old(events) + [Published(item.id, item.itemType, item.producer, item.state)]
      ensures ContainsId(old(table.list), item.id) ==> table.list == old(table.list) && events == old(events)
    {
      ghost var list := table.list;
      RepresentsDistinct(table.rows, list);
      var stored, inserted := table.InsertQueueItem(item);
      if !inserted {
        forall x | x in list && x.id == item.id ensures x == stored {
          OneItemPerId(list, x, stored);
        }
        if !SameOwner(stored, item) {
          return IdCollision;
        }
        return Stored(stored);
      }
      assert table.list[|list|] == item;
      events := events + [EventFor(item)];
      return Stored(stored);
    }
  }

  lemma OneItemPerId(list: seq<Item>, a: Item, b: Item)
    requires DistinctIds(list) && a in list && b in list && a.id == b.id
    ensures a == b
  {
  }

  // ---- consumer metadata ----

  function SetConsumerMetadata(item: Item, consumer: string, fragment: Namespace): Item {
    var existing := if consumer in item.metadata then item.metadata[consumer] else map[];
    item.(metadata := item.metadata[consumer := existing + fragment])
  }

  function Setter(consumer: string, fragment: Namespace): Item -> Item {
    (item: Item) => SetConsumerMetadata(item, consumer, fragment)
  }

  /** Writing merges: what is written replaces the consumer's entries of those keys, its other entries
      and all other namespaces stay, and so does the rest of the item. */
  lemma WritingMerges(item: Item, consumer: string, fragment: Namespace)
    ensures var after := SetConsumerMetadata(item, consumer, fragment);
      && after == item.(metadata := after.metadata)
      && after.metadata.Keys == item.metadata.Keys + {consumer}
      && (forall ns :: ns in item.metadata && ns != consumer ==> after.metadata[ns] == item.metadata[ns])
      && (forall key :: key in fragment ==>
            key in after.metadata[consumer] && after.metadata[consumer][key] == fragment[key])
      && forall key :: key !in fragment ==>
        && (key in after.metadata[consumer] <==> consumer in item.metadata && key in item.metadata[consumer])
        && (key in after.metadata[consumer] ==> after.metadata[consumer][key] == item.metadata[consumer][key])
  {
  }

  /** Two consumers of the same item never overwrite each other, in whatever order they write. */
  lemma ConsumersDoNotInterfere(item: Item, a: string, b: string, fa: Namespace, fb: Namespace)
    requires a != b
    ensures SetConsumerMetadata(SetConsumerMetadata(item, a, fa), b, fb)
      == SetConsumerMetadata(SetConsumerMetadata(item, b, fb), a, fa)
  {
    var ab := SetConsumerMetadata(SetConsumerMetadata(item, a, fa), b, fb);
    var ba := SetConsumerMetadata(SetConsumerMetadata(item, b, fb), a, fa);
    assert ab.metadata == ba.metadata;
  }

  /** An update of some ids that a selection does not see passes through the selection. */
  lemma {:induction false} SelectionIgnores(list: seq<Item>, ids: seq<string>, f: Item -> Item, p: Item -> bool)
    requires forall item: Item :: p(f(item)) == p(item)
    ensures Filter(UpdateIn(list, ids, f), p) == UpdateIn(Filter(list, p), ids, f)
  {
    if list != [] {
      SelectionIgnores(list[1..], ids, f, p);
      var head := if list[0].id in ids then f(list[0]) else list[0];
      assert UpdateIn(list, ids, f) == [head] + UpdateIn(list[1..], ids, f);
      assert ([head] + UpdateIn(list[1..], ids, f))[1..] == UpdateIn(list[1..], ids, f);
      if p(list[0]) {
        var kept := [list[0]] + Filter(list[1..], p);
        assert kept[1..] == Filter(list[1..], p) && UpdateIn(kept, ids, f) == [head] + UpdateIn(kept[1..], ids, f);
      }
    }
  }

  /** What one consumer writes changes neither which items another consumer is shown nor their order,
      and on them nothing but the first one's namespace. */
  lemma OtherConsumersSeeTheSame(list: seq<Item>, ids: seq<string>, a: string, fragment: Namespace,
                                 b: string, filter: ConsumerFilter, now: int)
    requires a != b
    ensures IndexedScan(UpdateIn(list, ids, Setter(a, fragment)), b, filter, now)
      == UpdateIn(IndexedScan(list, b, filter, now), ids, Setter(a, fragment))
  {
    var f := Setter(a, fragment);
    var q := ConsumerSelection(b, filter, now);
    forall item: Item
      ensures Matches(q, f(item)) == Matches(q, item)
      ensures Alive(f(item), now) == Alive(item, now)
      ensures Accepts(b, filter, f(item)) == Accepts(b, filter, item)
    {
      assert Handled(f(item), b) == Handled(item, b);
    }
    SelectionIgnores(list, ids, f, Matching(q));
    SelectionIgnores(Filter(list, Matching(q)), ids, f, AliveAt(now));
    SelectionIgnores(PruneQueue(Filter(list, Matching(q)), now), ids, f, Accepting(b, filter));
  }

  /** A consumer that excludes what it has handled is not shown the items it has stamped again. */
  lemma StampedItemsAreNotListedAgain(list: seq<Item>, ids: seq<string>, consumer: string, fragment: Namespace,
                                      filter: ConsumerFilter, now: int)
    requires fragment != map[] && filter.excludeAlreadyHandled
    ensures var after := UpdateIn(list, ids, Setter(consumer, fragment));
      forall item :: item in IndexedScan(after, consumer, filter, now) ==> item.id !in ids
  {
    var f := Setter(consumer, fragment);
    forall item | item in UpdateIn(list, ids, f) && item.id in ids ensures Handled(item, consumer) {
      UpdatedItem(list, ids, f, item);
      var original :| f(original) == item;
      StampHandles(original, consumer, fragment);
    }
  }

  lemma StampHandles(item: Item, consumer: string, fragment: Namespace)
    requires fragment != map[]
    ensures Handled(SetConsumerMetadata(item, consumer, fragment), consumer)
  {
    var key :| key in fragment;
    assert key in SetConsumerMetadata(item, consumer, fragment).metadata[consumer];
  }

  lemma {:induction false} UpdatedItem(list: seq<Item>, ids: seq<string>, f: Item -> Item, item: Item)
    requires item in UpdateIn(list, ids, f) && item.id in ids
    requires forall x: Item :: f(x).id == x.id
    ensures exists original: Item :: f(original) == item
  {
    if list[0].id in ids && f(list[0]) == item {
    } else {
      assert item in UpdateIn(list[1..], ids, f);
      UpdatedItem(list[1..], ids, f, item);
    }
  }

  // ---- merging must not un-handle ----

  /** The merge of the copies of an id is handled by a consumer exactly when the entry that survives
      for it is not empty. */
  lemma MergedHandledIff(copies: seq<Item>, consumer: string)
    requires copies != []
    ensures Handled(MergeAll(copies), consumer) <==>
      exists p: nat :: Source(copies, consumer, p) && copies[p].metadata[consumer] != map[]
  {
    if consumer in MergeAll(copies).metadata {
      var p := MetadataSource(copies, consumer);
      forall q: nat | Source(copies, consumer, q) ensures q == p {
        SourceUnique(copies, consumer, p, q);
      }
    } else {
      MetadataIsUnion(copies, consumer);
      assert forall p: nat :: Source(copies, consumer, p) ==> Carries(copies, p, consumer);
    }
  }

  /** Where no copy carries an empty entry for the consumer, merging keeps the handled stamp of any
      copy, and invents none. */
  lemma MergeKeepsHandled(copies: seq<Item>, consumer: string)
    requires copies != [] && forall i: nat :: Carries(copies, i, consumer) ==> copies[i].metadata[consumer] != map[]
    ensures Handled(MergeAll(copies), consumer) <==> exists i: nat :: i < |copies| && Handled(copies[i], consumer)
  {
    MetadataIsUnion(copies, consumer);
    if exists i: nat :: i < |copies| && Handled(copies[i], consumer) {
      var i: nat :| i < |copies| && Handled(copies[i], consumer);
      assert Carries(copies, i, consumer);
      var p := MetadataSource(copies, consumer);
      assert Carries(copies, p, consumer);
    }
    if Handled(MergeAll(copies), consumer) {
      var i: nat :| Carries(copies, i, consumer);
      assert Handled(copies[i], consumer);
    }
  }

  /** Two copies lose a stamp if and only if the newer one carries an empty entry for the consumer
      over a handled older one. */
  lemma MergeUnhandlesIff(existing: Item, item: Item, consumer: string)
    ensures var newer := if AnchorMs(item) >= AnchorMs(existing) then item else existing;
      var older := if AnchorMs(item) >= AnchorMs(existing) then existing else item;
      (Handled(existing, consumer) || Handled(item, consumer)) && !Handled(Merge(existing, item), consumer) <==>
        Handled(older, consumer) && consumer in newer.metadata && newer.metadata[consumer] == map[]
  {
  }
}
