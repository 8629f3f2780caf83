/** The seller inbox (apps/orders/selectors.py, `inbox`): keyset polling over the pair (created_at, id). */
module Inbox {
  import opened Basics
  import opened Ordering
  import opened Schema
  import opened Writes
  import opened Coherence
  import opened Isolation
  import opened Ledger

  /** Where a poller stands: the newest order it has seen. */
  datatype Cursor = Cursor(since: Time, sinceId: Id)

  /** `created_at > since or (created_at == since and id > since_id)` */
  predicate Above(order: Order, id: Id, c: Cursor) {
    order.createdAt > c.since || (order.createdAt == c.since && id > c.sinceId)
  }

  /** The query: each argument that is given rebinds it with one more filter; `since_id` alone filters nothing. */
  function InboxRows(orders: map<Id, Order>, store: Id, since: Option<Time>, sinceId: Option<Id>,
                     status: Option<Status>): set<Id> {
    var atStore := set o | o in orders && orders[o].store == store;
    var inStatus := if status.Some? then set o | o in atStore && orders[o].status == status.value else atStore;
    if since.None? then inStatus
    else if sinceId.Some? then
      set o | o in inStatus && (orders[o].createdAt > since.value ||
                                (orders[o].createdAt == since.value && o > sinceId.value))
    else set o | o in inStatus && orders[o].createdAt > since.value
  }

  function Everything(orders: map<Id, Order>, store: Id): set<Id> {
    set o | o in orders && orders[o].store == store
  }

  /** Newest first; as in every query, rows created at the same time follow in a fixed order. */
  function Newest(orders: map<Id, Order>): Rank {
    o => (if o in orders then -orders[o].createdAt else 0, -o, 0)
  }

  // ----- one fixed table -----

  /** With or without a status: what the pair cursor keeps and what it drops make up the store's orders of that status,
      and it drops exactly the cursor's order and those listed after it. With the timestamp alone, exactly the unseen
      orders created at that very time are lost too; the id alone loses none. */
  lemma {:induction false} CursorSplits(orders: map<Id, Order>, store: Id, seen: Id, status: Option<Status>)
    requires seen in Everything(orders, store)
    ensures var at := orders[seen].createdAt;
            var whole, unseen, coarse := InboxRows(orders, store, None, None, status),
              InboxRows(orders, store, Some(at), Some(seen), status), InboxRows(orders, store, Some(at), None, status);
            && (forall o :: o in whole <==> o in orders && orders[o].store == store &&
                                            (status.Some? ==> orders[o].status == status.value))
            && InboxRows(orders, store, None, Some(seen), status) == whole
            && unseen <= whole && seen !in unseen
            && (forall o :: o in whole - unseen ==> o == seen || Before(Newest(orders), seen, o))
            && (forall o :: o in unseen ==> Before(Newest(orders), o, seen))
            && (forall since: Time :: InboxRows(orders, store, Some(since), None, status) ==
                                      set o | o in whole && orders[o].createdAt > since)
            && unseen - coarse == (set o | o in whole && orders[o].createdAt == at && o > seen)
            && coarse <= unseen
  {
  }

  /** Another store's orders never reach it. */
  lemma {:induction false} InboxAtHome(orders: map<Id, Order>, store: Id, since: Option<Time>, sinceId: Option<Id>,
                                       status: Option<Status>)
    ensures InboxRows(orders, store, since, sinceId, status) ==
            InboxRows(OrdersIn(orders, store), store, since, sinceId, status)
  {
  }

  /** `Count("items")`: the rows of an order left-joined with its lines that have a line. */
  function CountedLines(items: map<Id, Item>, order: Id): set<Option<Id>> {
    var side := set i | i in items && items[i].order == order :: Some(i);
    var joined := if side == {} then {None} else side;
    set row | row in joined && row.Some?
  }

  /** An order is shown with the number of its lines, zero when it has none. */
  lemma {:induction false} ItemCount(items: map<Id, Item>, order: Id)
    ensures |CountedLines(items, order)| == |LinesOf(items, order)|
  {
    WrappedSize(LinesOf(items, order));
    assert CountedLines(items, order) == Wrapped(LinesOf(items, order));
  }

  /** A customer's own orders at one store. */
  function CustomerOrders(orders: map<Id, Order>, store: Id, customer: Id): set<Id> {
    set o | o in orders && orders[o].store == store && orders[o].customer == customer
  }

  /** Another store's writes reach neither the history nor the line counts shown in it. */
  lemma {:induction false} HistoryAtHome(t: Tables, store: Id, customer: Id)
    requires ItemsOk(t.items, t.orders, t.products)
    ensures CustomerOrders(t.orders, store, customer) == CustomerOrders(OrdersIn(t.orders, store), store, customer)
    ensures forall o :: o in CustomerOrders(t.orders, store, customer) ==>
              |CountedLines(t.items, o)| == |CountedLines(ItemsIn(t.items, store), o)|
  {
    hide CountedLines;
    forall o | o in CustomerOrders(t.orders, store, customer)
      ensures |CountedLines(t.items, o)| == |CountedLines(ItemsIn(t.items, store), o)|
    {
      ItemCount(t.items, o);
      ItemCount(ItemsIn(t.items, store), o);
      assert LinesOf(t.items, o) == LinesOf(ItemsIn(t.items, store), o);
    }
  }

  // ----- polling while orders arrive and change status -----

  /** `missed` are the orders that came to match the poller's filter at or below the cursor of the moment,
      undelivered. */
  datatype Feed = Feed(tables: Tables, cursor: Option<Cursor>, delivered: seq<Id>, missed: set<Id>)

  datatype FeedStep = Land(write: Write) | Poll

  /** What a poller asks for: one store's orders, all of them or those of one status. */
  datatype Filter = Filter(store: Id, status: Option<Status>)

  predicate Wants(filter: Filter, order: Order) {
    order.store == filter.store && (filter.status.Some? ==> order.status == filter.status.value)
  }

  function Wanted(orders: map<Id, Order>, filter: Filter): set<Id> {
    set o | o in orders && Wants(filter, orders[o])
  }

  predicate Reaches(order: Order, id: Id, cursor: Option<Cursor>) {
    cursor.None? || Above(order, id, cursor.value)
  }

  /** Orders that a write makes match, by landing or by changing status, at or below the cursor. */
  function Late(before: map<Id, Order>, after: map<Id, Order>, filter: Filter, cursor: Option<Cursor>,
                delivered: seq<Id>): set<Id> {
    set o | o in Wanted(after, filter) - Wanted(before, filter) && !Reaches(after[o], o, cursor) && o !in delivered
  }

  function Polled(orders: map<Id, Order>, filter: Filter, cursor: Option<Cursor>): set<Id> {
    if cursor.None? then InboxRows(orders, filter.store, None, None, filter.status)
    else InboxRows(orders, filter.store, Some(cursor.value.since), Some(cursor.value.sinceId), filter.status)
  }

  /** The poller appends the page and remembers the newest order it has seen. */
  function Advance(f: Feed, filter: Filter, step: FeedStep): Feed {
    match step
    case Land(w) =>
      var after := Apply(f.tables, w);
      f.(tables := after, missed := f.missed + Late(f.tables.orders, after.orders, filter, f.cursor, f.delivered))
    case Poll =>
      var orders := f.tables.orders;
      var page := Polled(orders, filter, f.cursor);
      if page == {} then f else
        var top := First(Newest(orders), page);
        assert top in orders;
        f.(cursor := Some(Cursor(orders[top].createdAt, top)),
           delivered := f.delivered + Arranged(Newest(orders), page))
  }

  function AdvanceAll(f: Feed, filter: Filter, steps: seq<FeedStep>): Feed {
    if steps == [] then f else Advance(AdvanceAll(f, filter, steps[..|steps| - 1]), filter, steps[|steps| - 1])
  }

  function Opened(t: Tables): Feed {
    Feed(t, None, [], {})
  }

  /** Delivered and missed orders are apart, of the store and below the cursor; a matching order is above the cursor
      exactly when it is neither. */
  ghost predicate Consistent(orders: map<Id, Order>, filter: Filter, cursor: Option<Cursor>, delivered: seq<Id>,
                             missed: set<Id>) {
    && Distinct(delivered)
    && (forall o :: o in delivered ==> Passed(orders, filter, cursor, o) && o !in missed)
    && (forall o :: o in missed ==> Passed(orders, filter, cursor, o))
    && (forall o :: o in Wanted(orders, filter) ==>
          (Reaches(orders[o], o, cursor) <==> o !in delivered && o !in missed))
  }

  predicate Passed(orders: map<Id, Order>, filter: Filter, cursor: Option<Cursor>, o: Id) {
    o in Everything(orders, filter.store) && !Reaches(orders[o], o, cursor)
  }

  /** Orders are never deleted, moved to another store or redated. */
  ghost predicate Grown(before: map<Id, Order>, after: map<Id, Order>) {
    forall o :: o in before ==>
      o in after && after[o].store == before[o].store && after[o].createdAt == before[o].createdAt
  }

  lemma {:induction false} LandKeeps(before: map<Id, Order>, after: map<Id, Order>, filter: Filter,
                                     cursor: Option<Cursor>, delivered: seq<Id>, missed: set<Id>)
    requires Grown(before, after) && Consistent(before, filter, cursor, delivered, missed)
    ensures Consistent(after, filter, cursor, delivered, missed + Late(before, after, filter, cursor, delivered))
  {
    hide Wants;
    var late := Late(before, after, filter, cursor, delivered);
    forall o ensures Passed(before, filter, cursor, o) ==> Passed(after, filter, cursor, o) {
      assert o in before ==> (Reaches(after[o], o, cursor) <==> Reaches(before[o], o, cursor));
    }
    forall o | o in late ensures Passed(after, filter, cursor, o) {
      WantedAtStore(after, filter, o);
    }
    forall o | o in Wanted(after, filter)
      ensures Reaches(after[o], o, cursor) <==> o !in delivered && o !in missed + late
    {
      if o in Wanted(before, filter) {
        assert Reaches(after[o], o, cursor) <==> Reaches(before[o], o, cursor);
      } else if Reaches(after[o], o, cursor) {
        assert !Passed(after, filter, cursor, o);
      }
    }
  }

  lemma WantedAtStore(orders: map<Id, Order>, filter: Filter, o: Id)
    requires o in Wanted(orders, filter)
    ensures o in Everything(orders, filter.store)
  {
  }

  lemma {:induction false} PageIsPending(orders: map<Id, Order>, filter: Filter, cursor: Option<Cursor>)
    ensures Polled(orders, filter, cursor) == set o | o in Wanted(orders, filter) && Reaches(orders[o], o, cursor)
  {
  }

  lemma {:induction false} JoinDistinct<T>(a: seq<T>, b: seq<T>)
    requires Distinct(a) && Distinct(b) && forall x :: x in a ==> x !in b
    ensures Distinct(a + b)
  {
    forall i, j | 0 <= i < j < |a + b| ensures (a + b)[i] != (a + b)[j] {
      assert (a + b)[i] == if i < |a| then a[i] else b[i - |a|];
      assert (a + b)[j] == if j < |a| then a[j] else b[j - |a|];
      assert j >= |a| ==> b[j - |a|] in b;
    }
  }

  lemma {:induction false} PollKeeps(orders: map<Id, Order>, filter: Filter, cursor: Option<Cursor>, delivered: seq<Id>,
                                     missed: set<Id>)
    requires Consistent(orders, filter, cursor, delivered, missed) && Polled(orders, filter, cursor) != {}
    ensures var page := Polled(orders, filter, cursor);
            var top := First(Newest(orders), page);
            top in orders &&
            Consistent(orders, filter, Some(Cursor(orders[top].createdAt, top)),
                       delivered + Arranged(Newest(orders), page), missed)
  {
    hide Arranged, Polled, Wants;
    var page := Polled(orders, filter, cursor);
    PageIsPending(orders, filter, cursor);
    var list := Arranged(Newest(orders), page);
    ArrangedExactly(Newest(orders), page);
    assert forall o :: o in list <==> o in ToSet(list);
    JoinDistinct(delivered, list);
    var top := First(Newest(orders), page);
    var now := Some(Cursor(orders[top].createdAt, top));
    forall o | o in orders
      ensures o in page ==> Passed(orders, filter, now, o)
      ensures Passed(orders, filter, cursor, o) ==> Passed(orders, filter, now, o)
    {
      TopCovers(orders, page, top, o);
      BelowStaysBelow(orders, cursor, top, o);
      if o in page {
        WantedAtStore(orders, filter, o);
      }
    }
  }

  lemma {:induction false} TopCovers(orders: map<Id, Order>, page: set<Id>, top: Id, o: Id)
    requires page <= orders.Keys && IsFirst(Newest(orders), page, top)
    ensures o in page ==> !Above(orders[o], o, Cursor(orders[top].createdAt, top))
  {
    if o in page {
      assert o == top || Before(Newest(orders), top, o);
    }
  }

  /** The cursor only moves up. */
  lemma {:induction false} BelowStaysBelow(orders: map<Id, Order>, cursor: Option<Cursor>, top: Id, o: Id)
    requires o in orders && top in orders && Reaches(orders[top], top, cursor)
    ensures !Reaches(orders[o], o, cursor) ==> !Above(orders[o], o, Cursor(orders[top].createdAt, top))
  {
  }

  /** Every write of the run keeps its lines at home. */
  ghost predicate FeedAtHome(f: Feed, filter: Filter, steps: seq<FeedStep>) {
    forall i :: 0 <= i < |steps| && steps[i].Land? ==> AtHome(AdvanceAll(f, filter, steps[..i]).tables, steps[i].write)
  }

  ghost predicate Sound(f: Feed, filter: Filter) {
    Coherent(f.tables) && Consistent(f.tables.orders, filter, f.cursor, f.delivered, f.missed)
  }

  lemma {:induction false} StepKeeps(f: Feed, filter: Filter, step: FeedStep)
    requires Sound(f, filter) && (step.Land? ==> AtHome(f.tables, step.write))
    ensures Sound(Advance(f, filter, step), filter)
  {
    hide RowsIssued, CatalogOk, ActivityOk, Consistent, Apply, Late, Polled, Arranged;
    match step
    case Land(w) =>
      EveryWriteKeepsCoherence(f.tables, w);
      EveryWriteFreezesOrders(f.tables, w);
      FrozenGrown(f.tables, Apply(f.tables, w));
      LandKeeps(f.tables.orders, Apply(f.tables, w).orders, filter, f.cursor, f.delivered, f.missed);
    case Poll =>
      if Polled(f.tables.orders, filter, f.cursor) != {} {
        PollKeeps(f.tables.orders, filter, f.cursor, f.delivered, f.missed);
      }
  }

  lemma {:induction false} FrozenGrown(before: Tables, after: Tables)
    requires Frozen(before, after)
    ensures Grown(before.orders, after.orders)
  {
    hide NeverReissued, LinesFrozen;
    assert forall o :: o in before.orders ==> Restated(before.orders[o], after.orders[o]);
  }

  lemma {:induction false} FrontAtHome(t: Tables, filter: Filter, steps: seq<FeedStep>)
    requires steps != [] && FeedAtHome(Opened(t), filter, steps)
    ensures FeedAtHome(Opened(t), filter, steps[..|steps| - 1])
  {
    hide AtHome, Advance;
    var front := steps[..|steps| - 1];
    forall i | 0 <= i < |front| && front[i].Land?
      ensures AtHome(AdvanceAll(Opened(t), filter, front[..i]).tables, front[i].write)
    {
      assert front[..i] == steps[..i] && front[i] == steps[i];
    }
  }

  lemma {:induction false} FeedSound(t: Tables, filter: Filter, steps: seq<FeedStep>)
    requires Coherent(t) && FeedAtHome(Opened(t), filter, steps)
    ensures Sound(AdvanceAll(Opened(t), filter, steps), filter)
  {
    hide Coherent, AtHome, Advance, Sound;
    if steps == [] {
      OpenedSound(t, filter);
    } else {
      var front := steps[..|steps| - 1];
      FrontAtHome(t, filter, steps);
      FeedSound(t, filter, front);
      StepKeeps(AdvanceAll(Opened(t), filter, front), filter, steps[|steps| - 1]);
    }
  }

  lemma OpenedSound(t: Tables, filter: Filter)
    requires Coherent(t)
    ensures Sound(Opened(t), filter)
  {
  }

  lemma {:induction false} PageCompletes(orders: map<Id, Order>, filter: Filter, cursor: Option<Cursor>,
                                         delivered: seq<Id>, missed: set<Id>)
    requires Consistent(orders, filter, cursor, delivered, missed)
    ensures var page := Polled(orders, filter, cursor);
            (page == {} ==> Wanted(orders, filter) * ToSet(delivered) == Wanted(orders, filter) - missed) &&
            Wanted(orders, filter) * ToSet(delivered + Arranged(Newest(orders), page)) ==
              Wanted(orders, filter) - missed
  {
    hide Arranged, Polled, Newest, Consistent, Wanted, ToSet;
    var page := Polled(orders, filter, cursor);
    PendingRows(orders, filter, cursor, delivered, missed);
    ArrangedRows(Newest(orders), page);
    JoinedRows(delivered, Arranged(Newest(orders), page));
  }

  lemma JoinedRows(a: seq<Id>, b: seq<Id>)
    ensures ToSet(a + b) == ToSet(a) + ToSet(b)
  {
  }

  lemma {:induction false} PendingRows(orders: map<Id, Order>, filter: Filter, cursor: Option<Cursor>,
                                       delivered: seq<Id>, missed: set<Id>)
    requires Consistent(orders, filter, cursor, delivered, missed)
    ensures Polled(orders, filter, cursor) == Wanted(orders, filter) - ToSet(delivered) - missed
    ensures ToSet(delivered) !! missed
  {
    hide Polled, Wants, Passed, Reaches;
    PageIsPending(orders, filter, cursor);
  }

  /** A poll leaves nothing pending. */
  lemma {:induction false} PollDrains(f: Feed, filter: Filter)
    requires Sound(f, filter)
    ensures var wanted := Wanted(f.tables.orders, filter);
            wanted * ToSet(Advance(f, filter, Poll).delivered) == wanted - f.missed
  {
    hide Coherent, Arranged, Consistent, Polled, Wanted, ToSet;
    PageCompletes(f.tables.orders, filter, f.cursor, f.delivered, f.missed);
  }

  /** Over any run of writes and polls, with or without a status filter: no order is delivered twice, delivered and
      missed orders are the store's and apart, and just after a poll the matching orders delivered are exactly those
      that are not missed. Without a status filter an order is missed only by landing at or below the cursor of its
      moment, so every order of the store is delivered exactly once if and only if each one landed above it. */
  lemma {:induction false} PollingDelivers(t: Tables, filter: Filter, steps: seq<FeedStep>)
    requires Coherent(t) && FeedAtHome(Opened(t), filter, steps)
    ensures var f := AdvanceAll(Opened(t), filter, steps);
            var all, wanted := Everything(f.tables.orders, filter.store), Wanted(f.tables.orders, filter);
            && Distinct(f.delivered) && f.missed <= all && ToSet(f.delivered) <= all - f.missed
            && (steps != [] && steps[|steps| - 1].Poll? ==>
                 && wanted * ToSet(f.delivered) == wanted - f.missed
                 && (wanted <= ToSet(f.delivered) <==> wanted !! f.missed)
                 && (filter.status.None? ==>
                      ToSet(f.delivered) == all - f.missed && (ToSet(f.delivered) == all <==> f.missed == {})))
  {
    hide Coherent, AtHome, Advance, Reaches, Wants, Everything, Wanted, ToSet, Distinct;
    FeedSound(t, filter, steps);
    var f := AdvanceAll(Opened(t), filter, steps);
    SoundRows(f, filter);
    NoStatusWantsAll(f.tables.orders, filter);
    if steps != [] && steps[|steps| - 1].Poll? {
      var before := AdvanceAll(Opened(t), filter, steps[..|steps| - 1]);
      FrontAtHome(t, filter, steps);
      FeedSound(t, filter, steps[..|steps| - 1]);
      PollDrains(before, filter);
      PollReadsOnly(before, filter);
      Accounted(Everything(f.tables.orders, filter.store), Wanted(f.tables.orders, filter), ToSet(f.delivered),
                f.missed);
    }
  }

  lemma SoundRows(f: Feed, filter: Filter)
    requires Sound(f, filter)
    ensures var all := Everything(f.tables.orders, filter.store);
            Distinct(f.delivered) && f.missed <= all && ToSet(f.delivered) <= all - f.missed
  {
    hide Coherent, Reaches, Wanted;
  }

  lemma Accounted(all: set<Id>, wanted: set<Id>, delivered: set<Id>, missed: set<Id>)
    requires wanted * delivered == wanted - missed && delivered <= all - missed && missed <= all
    ensures wanted <= delivered <==> wanted !! missed
    ensures wanted == all ==> delivered == all - missed && (delivered == all <==> missed == {})
  {
    assert wanted <= delivered <==> wanted * delivered == wanted;
    assert wanted == all ==> wanted * delivered == delivered;
  }

  lemma NoStatusWantsAll(orders: map<Id, Order>, filter: Filter)
    ensures filter.status.None? ==> Wanted(orders, filter) == Everything(orders, filter.store)
  {
  }

  lemma PollReadsOnly(f: Feed, filter: Filter)
    ensures Advance(f, filter, Poll).tables == f.tables && Advance(f, filter, Poll).missed == f.missed
  {
  }

  // ----- a run that loses an order -----

  /** Two orders of one store; the second was dated first but commits after a poll has seen the other. */
  lemma {:induction false} LateOrderMissed(t: Tables, filter: Filter, first: Write, second: Write)
    requires Coherent(t) && Everything(t.orders, filter.store) == {} && filter.status.None?
    requires Publishes(t, filter, first) && Publishes(Apply(t, first), filter, second)
    requires second.draft.createdAt < first.draft.createdAt
    ensures var f := AdvanceAll(Opened(t), filter, [Land(first), Poll, Land(second), Poll]);
            f.delivered == [first.id] && f.missed == {second.id} &&
              second.id in Everything(f.tables.orders, filter.store)
  {
    hide Coherent, Apply, CanPublish, Polled, Late, Everything, First, Arranged;
    var f0 := Opened(t);
    var f1 := Advance(f0, filter, Land(first));
    PublishedOne(t, filter, first);
    NothingLate(f0.tables.orders, f1.tables.orders, filter);
    OnePolled(t.orders, filter, first.id, first.draft.(store := first.store));
    var f2 := Advance(f1, filter, Poll);
    OneRow(Newest(f1.tables.orders), first.id);
    assert f2 == Feed(f1.tables, Some(Cursor(first.draft.createdAt, first.id)), [first.id], {}) by {
      assert [] + [first.id] == [first.id];
    }
    PublishedOne(f1.tables, filter, second);
    var f3 := Advance(f2, filter, Land(second));
    OneLate(f2.tables.orders, filter, f2.cursor, [first.id], second.id, second.draft.(store := second.store));
    NothingAbove(t.orders, filter, first.id, first.draft.(store := first.store), second.id,
                 second.draft.(store := second.store));
    FourSteps(f0, filter, Land(first), Poll, Land(second), Poll);
  }

  lemma NothingLate(before: map<Id, Order>, after: map<Id, Order>, filter: Filter)
    ensures Late(before, after, filter, None, []) == {}
  {
  }

  lemma OnePolled(orders: map<Id, Order>, filter: Filter, id: Id, row: Order)
    requires Everything(orders, filter.store) == {} && id !in orders && row.store == filter.store && filter.status.None?
    ensures Polled(orders[id := row], filter, None) == {id}
  {
    assert forall o :: o in orders && orders[o].store == filter.store ==> o in Everything(orders, filter.store);
  }

  lemma OneLate(orders: map<Id, Order>, filter: Filter, cursor: Option<Cursor>, delivered: seq<Id>, id: Id, row: Order)
    requires id !in orders && row.store == filter.store && filter.status.None? && !Reaches(row, id, cursor)
    requires id !in delivered
    ensures Late(orders, orders[id := row], filter, cursor, delivered) == {id}
    ensures id in Everything(orders[id := row], filter.store)
  {
  }

  lemma NothingAbove(orders: map<Id, Order>, filter: Filter, a: Id, first: Order, b: Id, second: Order)
    requires Everything(orders, filter.store) == {} && a !in orders && b !in orders[a := first]
    requires second.createdAt < first.createdAt
    ensures Polled(orders[a := first][b := second], filter, Some(Cursor(first.createdAt, a))) == {}
  {
    assert forall o :: o in orders && orders[o].store == filter.store ==> o in Everything(orders, filter.store);
  }

  ghost predicate Publishes(t: Tables, filter: Filter, w: Write) {
    w.PublishOrder? && w.store == filter.store && CanPublish(t, w.id, w.draft.(store := w.store), w.lines) &&
    w.id !in t.orders
  }

  lemma PublishedOne(t: Tables, filter: Filter, w: Write)
    requires Publishes(t, filter, w)
    ensures Apply(t, w).orders == t.orders[w.id := w.draft.(store := w.store)]
  {
    hide CanPublish, WithItems;
  }

  lemma {:induction false} OneRow(rank: Rank, row: Id)
    ensures First(rank, {row}) == row && Arranged(rank, {row}) == [row]
  {
    assert {row} - {row} == {};
    assert Arranged(rank, {row} - {row}) == [];
  }

  lemma FourSteps(f: Feed, filter: Filter, a: FeedStep, b: FeedStep, c: FeedStep, d: FeedStep)
    ensures AdvanceAll(f, filter, [a, b, c, d]) ==
            Advance(Advance(Advance(Advance(f, filter, a), filter, b), filter, c), filter, d)
  {
    hide Advance;
    assert [a, b, c, d][..3] == [a, b, c] && [a, b, c][..2] == [a, b] && [a, b][..1] == [a] && [a][..0] == [];
    assert AdvanceAll(f, filter, [a]) == Advance(AdvanceAll(f, filter, [a][..0]), filter, a);
    assert AdvanceAll(f, filter, [a, b]) == Advance(Advance(f, filter, a), filter, b);
  }

  /** Two customers of a new store: the order dated 1 commits after the order dated 2 was delivered. */
  function NewStore(): Tables {
    Tables(map[], map[], map[], map[], map[], map[], map[], map[], map[], {})
  }

  function Placing(id: Id, customer: Id, createdAt: Time): Write {
    PublishOrder(7, id, Order(7, customer, "key", New, Contact("", "", "", ""), 0, createdAt, createdAt), [])
  }

  /** No poll ever returns the late one. */
  lemma {:induction false} LateOrderExample()
    ensures var f := AdvanceAll(Opened(NewStore()), Filter(7, None),
                                [Land(Placing(10, 1, 2)), Poll, Land(Placing(11, 2, 1)), Poll]);
            f.delivered == [10] && f.missed == {11}
  {
    hide NewStore, Apply, AdvanceAll, Publishes, Coherent, Opened, Advance, Late, Polled, Distinct;
    NewStoreCoherent();
    PlacingPublishes(NewStore(), 10, 1, 2);
    var after := Apply(NewStore(), Placing(10, 1, 2));
    assert forall o :: o in after.orders ==> o == 10 && after.orders[o].customer == 1;
    PlacingPublishes(after, 11, 2, 1);
    LateOrderMissed(NewStore(), Filter(7, None), Placing(10, 1, 2), Placing(11, 2, 1));
  }

  lemma NewStoreCoherent()
    ensures Coherent(NewStore()) && NewStore().orders == map[] && NewStore().issued == {}
  {
  }

  lemma {:induction false} PlacingPublishes(t: Tables, id: Id, customer: Id, createdAt: Time)
    requires id !in t.issued && id !in t.orders && forall o :: o in t.orders ==> t.orders[o].customer != customer
    ensures var w := Placing(id, customer, createdAt);
            && Publishes(t, Filter(7, None), w)
            && Apply(t, w).orders == t.orders[id := w.draft] && Apply(t, w).issued == t.issued + {id}
  {
    assert [id] + LineIds([]) == [id];
    PublishedOne(t, Filter(7, None), Placing(id, customer, createdAt));
  }
}
