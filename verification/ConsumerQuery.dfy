/** Selective Item Bus queries, and the consumer listing built on one: an indexed prefilter followed
    by the in-memory prune and filter must return what a full scan returns. */
module ConsumerQuery {
  import opened Common
  import opened BusItems
  import opened QueueStore

  /** An absent list does not constrain; an empty one matches nothing; an empty consumer id is no
      constraint. */
  datatype Query = Query(
    ids: Option<seq<string>>,
    itemTypes: Option<seq<string>>,
    states: Option<seq<State>>,
    unhandledBy: string,
    activeAfter: Option<Stamp>)

  datatype ConsumerFilter = ConsumerFilter(
    itemType: Option<string>,
    itemTypes: Option<seq<string>>,
    tags: Option<seq<string>>,
    states: Option<seq<State>>,
    excludeAlreadyHandled: bool)

  predicate Handled(item: Item, consumer: string) {
    consumer in item.metadata && item.metadata[consumer] != map[]
  }

  /** Timestamps compare as texts in the database; the empty text comes first. */
  predicate AtOrAfter(s: Stamp, cutoff: Stamp) {
    cutoff.Blank? || (s.Text? && s.rank >= cutoff.rank)
  }

  /** The WHERE clause; a NULL type is in no list. */
  predicate Matches(q: Query, item: Item) {
    && (q.ids.Some? ==> item.id in q.ids.value)
    && (q.itemTypes.Some? ==> item.itemType.Some? && item.itemType.value in q.itemTypes.value)
    && (q.states.Some? ==> item.state in q.states.value)
    && (q.unhandledBy != "" ==> !Handled(item, q.unhandledBy))
    && (q.activeAfter.Some? ==> AtOrAfter(item.stateChangedAt, q.activeAfter.value))
  }

  function Matching(q: Query): Item -> bool { (item: Item) => Matches(q, item) }

  function Types(f: ConsumerFilter): Option<seq<string>> {
    if f.itemTypes.Some? then f.itemTypes
    else if f.itemType.Some? && f.itemType.value != "" then Some([f.itemType.value])
    else None
  }

  predicate Accepts(consumer: string, f: ConsumerFilter, item: Item) {
    var types := Types(f);
    && (types.Some? ==> item.itemType.Some? && item.itemType.value != "" && item.itemType.value in types.value)
    && (f.tags.Some? && f.tags.value != [] ==> exists tag :: tag in f.tags.value && tag in item.tags)
    && (f.states.Some? ==> item.state in f.states.value)
    && (f.excludeAlreadyHandled ==> !Handled(item, consumer))
  }

  function Accepting(consumer: string, f: ConsumerFilter): Item -> bool {
    (item: Item) => Accepts(consumer, f, item)
  }

  function QueueActiveAfterIso(now: int): Stamp { Iso(now - QUEUE_TTL_MS) }

  function ConsumerSelection(consumer: string, f: ConsumerFilter, now: int): Query {
    Query(None, Types(f), f.states, if f.excludeAlreadyHandled then consumer else "", Some(QueueActiveAfterIso(now)))
  }

  /** Loading everything, pruning and filtering. */
  function FullScan(list: seq<Item>, consumer: string, f: ConsumerFilter, now: int): seq<Item> {
    Filter(PruneQueue(list, now), Accepting(consumer, f))
  }

  /** Selecting first, then pruning and filtering. */
  function IndexedScan(list: seq<Item>, consumer: string, f: ConsumerFilter, now: int): seq<Item> {
    FullScan(Filter(list, Matching(ConsumerSelection(consumer, f, now))), consumer, f, now)
  }

  /** Selecting by one more condition changes a scan exactly if it drops something the scan keeps. */
  lemma {:induction false} PrefilterIff(list: seq<Item>, p: Item -> bool, alive: Item -> bool, accept: Item -> bool)
    ensures Filter(Filter(Filter(list, p), alive), accept) == Filter(Filter(list, alive), accept) <==>
      forall item :: item in list && alive(item) && accept(item) ==> p(item)
  {
    if list != [] {
      var item := list[0];
      PrefilterIff(list[1..], p, alive, accept);
      PrefilterKeepsFewer(list[1..], p, alive, accept);
      assert forall x :: x in list <==> x == item || x in list[1..];
      FilterHead(list, p);
      FilterHead(list, alive);
      FilterHead([item] + Filter(list[1..], p), alive);
      FilterHead([item] + Filter(list[1..], alive), accept);
      FilterHead([item] + Filter(Filter(list[1..], p), alive), accept);
    }
  }

  lemma {:induction false} PrefilterKeepsFewer(list: seq<Item>, p: Item -> bool,
                                               alive: Item -> bool, accept: Item -> bool)
    ensures |Filter(Filter(Filter(list, p), alive), accept)| <= |Filter(Filter(list, alive), accept)|
  {
    if list != [] {
      var item := list[0];
      PrefilterKeepsFewer(list[1..], p, alive, accept);
      FilterHead([item] + Filter(list[1..], p), alive);
      FilterHead([item] + Filter(list[1..], alive), accept);
      FilterHead([item] + Filter(Filter(list[1..], p), alive), accept);
    }
  }

  /** The indexed listing agrees with the full scan if and only if no live item the consumer accepts
      has a state-change text that is empty or sorts before the cutoff. */
  lemma ListingAgreesIff(list: seq<Item>, consumer: string, f: ConsumerFilter, now: int)
    ensures IndexedScan(list, consumer, f, now) == FullScan(list, consumer, f, now) <==>
      forall item :: item in list && Alive(item, now) && Accepts(consumer, f, item) ==>
        AtOrAfter(item.stateChangedAt, QueueActiveAfterIso(now))
  {
    var q := ConsumerSelection(consumer, f, now);
    PrefilterIff(list, Matching(q), AliveAt(now), Accepting(consumer, f));
    forall item | Accepts(consumer, f, item)
      ensures Matches(q, item) <==> AtOrAfter(item.stateChangedAt, QueueActiveAfterIso(now))
    {
    }
  }

  /** With canonical state-change times it always agrees. */
  lemma CanonicalListingAgrees(list: seq<Item>, consumer: string, f: ConsumerFilter, now: int)
    requires forall item :: item in list ==> Canonical(item.stateChangedAt)
    ensures IndexedScan(list, consumer, f, now) == FullScan(list, consumer, f, now)
  {
    ListingAgreesIff(list, consumer, f, now);
  }

  /** And then the reaper deletes only what no consumer could have been shown. */
  lemma ReaperHidesNothing(list: seq<Item>, consumer: string, f: ConsumerFilter, now: int)
    requires forall item :: item in list ==> Canonical(item.stateChangedAt)
    ensures FullScan(Filter(list, UnexpiredAt(now)), consumer, f, now) == FullScan(list, consumer, f, now)
  {
    ReaperAgreesIff(list, now);
    FilterTwice(list, AliveAt(now), AliveAt(now));
  }

  /** The listing in plain terms: the items of an accepted type, tag and state that are not handled, if
      asked for, that are alive and whose state-change text is not before the cutoff. */
  lemma ListedIff(list: seq<Item>, consumer: string, f: ConsumerFilter, now: int, item: Item)
    ensures item in IndexedScan(list, consumer, f, now) <==>
      && item in list && Alive(item, now)
      && item.stateChangedAt.Text? && item.stateChangedAt.rank >= now - 604_800_000
      && (f.itemTypes.Some? ==>
            item.itemType.Some? && item.itemType.value != "" && item.itemType.value in f.itemTypes.value)
      && (f.itemTypes.None? && f.itemType.Some? && f.itemType.value != "" ==> item.itemType == f.itemType)
      && (f.tags.Some? && f.tags.value != [] ==> exists tag :: tag in f.tags.value && tag in item.tags)
      && (f.states.Some? ==> item.state in f.states.value)
      && (f.excludeAlreadyHandled ==> consumer !in item.metadata || item.metadata[consumer] == map[])
  {
    var q := ConsumerSelection(consumer, f, now);
    if Accepts(consumer, f, item) {
      assert Matches(q, item) <==> AtOrAfter(item.stateChangedAt, QueueActiveAfterIso(now));
    }
  }

  lemma ListingKeepsOrder(list: seq<Item>, consumer: string, f: ConsumerFilter, now: int)
    ensures InOrderOf(IndexedScan(list, consumer, f, now), list)
  {
    var p := ListedBy(list, consumer, f, now);
    var selected := Filter(list, Matching(ConsumerSelection(consumer, f, now)));
    FilterThrice(list, Matching(ConsumerSelection(consumer, f, now)), AliveAt(now), Accepting(consumer, f), p);
    FilterKeepsOrder(list, p);
  }

  ghost function ListedBy(list: seq<Item>, consumer: string, f: ConsumerFilter, now: int): Item -> bool {
    (item: Item) => Matches(ConsumerSelection(consumer, f, now), item) && Alive(item, now) && Accepts(consumer, f, item)
  }

  lemma {:induction false} FilterThrice(list: seq<Item>, p: Item -> bool, q: Item -> bool,
                                      s: Item -> bool, all: Item -> bool)
    requires forall item :: all(item) <==> p(item) && q(item) && s(item)
    ensures Filter(Filter(Filter(list, p), q), s) == Filter(list, all)
  {
    if list != [] {
      FilterThrice(list[1..], p, q, s, all);
      FilterHead(list, p);
      FilterHead([list[0]] + Filter(list[1..], p), q);
      FilterHead([list[0]] + Filter(Filter(list[1..], p), q), s);
    }
  }

  method QueryQueue(table: QueueTable, q: Query) returns (items: seq<Item>)
    requires table.Valid()
    ensures items == Filter(table.list, Matching(q))
    ensures InOrderOf(items, table.list)
    ensures forall item :: item in items <==>
      && item in table.list
      && (q.ids.Some? ==> item.id in q.ids.value)
      && (q.itemTypes.Some? ==> exists t :: item.itemType == Some(t) && t in q.itemTypes.value)
      && (q.states.Some? ==> item.state in q.states.value)
      && (q.unhandledBy != "" ==> q.unhandledBy !in item.metadata || item.metadata[q.unhandledBy] == map[])
      && (q.activeAfter.Some? && q.activeAfter.value.Text? ==>
            item.stateChangedAt.Text? && item.stateChangedAt.rank >= q.activeAfter.value.rank)
  {
    FilterKeepsOrder(table.list, Matching(q));
    items := table.Select(Matching(q));
  }

  method ListItemsForConsumer(table: QueueTable, consumer: string, f: ConsumerFilter, now: int)
    returns (items: seq<Item>)
    requires table.Valid()
    ensures items == IndexedScan(table.list, consumer, f, now) && InOrderOf(items, table.list)
  {
    ListingKeepsOrder(table.list, consumer, f, now);
    items := QueryQueue(table, ConsumerSelection(consumer, f, now));
    items := PruneQueue(items, now);
    items := Filter(items, Accepting(consumer, f));
  }
}
