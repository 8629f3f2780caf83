/** What happens to orders after they are committed: totals stay the sum of the lines, lines stay as they were
    snapshotted, and only status and updated_at of an order ever move. */
module Ledger {
  import opened Basics
  import opened Schema
  import opened Catalog
  import opened Writes
  import opened BuildExact
  import opened Coherence

  function Amounts(items: map<Id, Item>): map<Id, int> {
    map i | i in items :: items[i].unitPrice * items[i].quantity
  }

  function LinesOf(items: map<Id, Item>, order: Id): set<Id> {
    set i | i in items && items[i].order == order
  }

  ghost function Owed(items: map<Id, Item>, order: Id): int {
    Sum(Amounts(items), LinesOf(items, order))
  }

  /** Every committed total is the sum of unit price times quantity over the order's lines. */
  ghost predicate Balanced(t: Tables) {
    forall o :: o in t.orders ==> t.orders[o].total == Owed(t.items, o)
  }

  /** One more row of an order adds its amount. */
  lemma {:induction false} OwedGrows(m: map<Id, Item>, id: Id, row: Item)
    requires id !in m
    ensures Owed(m[id := row], row.order) == Owed(m, row.order) + row.unitPrice * row.quantity
  {
    var after := m[id := row];
    assert LinesOf(after, row.order) - {id} == LinesOf(m, row.order);
    assert id in LinesOf(after, row.order);
    SumSplit(Amounts(after), LinesOf(after, row.order), id);
    SumAgree(Amounts(m), Amounts(after), LinesOf(m, row.order));
  }

  lemma {:induction false} OwedByLines(m: map<Id, Item>, store: Id, order: Id, lines: seq<Line>)
    requires NewTo(m, LineIds(lines)) && LinesOf(m, order) == {}
    ensures Owed(WithItems(m, store, order, lines), order) == LinesTotal(lines)
  {
    if lines != [] {
      var front, last := lines[..|lines| - 1], lines[|lines| - 1];
      assert LineIds(lines) == LineIds(front) + [last.id];
      DistinctParts(LineIds(front), [last.id]);
      assert forall id :: id in LineIds(front) ==> id in LineIds(lines);
      assert last.id in LineIds(lines);
      OwedByLines(m, store, order, front);
      ItemsExact(m, store, order, front);
      LineIdsMembers(front);
      OwedGrows(WithItems(m, store, order, front), last.id, ItemRow(store, order, last));
    }
  }

  /** Rows that charge the same for the same order add up to the same. */
  lemma {:induction false} OwedAgree(a: map<Id, Item>, b: map<Id, Item>, order: Id)
    requires LinesOf(a, order) == LinesOf(b, order)
    requires forall i :: i in LinesOf(a, order) ==> a[i].unitPrice == b[i].unitPrice && a[i].quantity == b[i].quantity
    ensures Owed(a, order) == Owed(b, order)
  {
    SumAgree(Amounts(a), Amounts(b), LinesOf(a, order));
  }

  /** Published lines are all of the new order's, so other orders owe what they owed. */
  lemma {:induction false} OwedByOthers(m: map<Id, Item>, after: map<Id, Item>, store: Id, id: Id, lines: seq<Line>,
                                        other: Id)
    requires ItemsAdded(m, after, store, id, lines) && other != id
    ensures Owed(after, other) == Owed(m, other)
  {
    forall i | i in after && i !in m ensures after[i].order == id {
      var l :| l in lines && l.id == i;
    }
    assert LinesOf(after, other) == LinesOf(m, other);
    OwedAgree(m, after, other);
  }

  lemma {:induction false} PublishOrderBalances(t: Tables, id: Id, order: Order, lines: seq<Line>)
    requires RowsIssued(t) && ItemsOk(t.items, t.orders, t.products) && Balanced(t)
    requires order.total == LinesTotal(lines)
    ensures Balanced(PublishOrderIn(t, id, order, lines))
  {
    if CanPublish(t, id, order, lines) {
      var after := Published(t, id, order, lines);
      PublishedItems(t, id, order, lines);
      assert LinesOf(t.items, id) == {};
      assert forall x :: x in LineIds(lines) ==> x in [id] + LineIds(lines);
      OwedByLines(t.items, order.store, id, lines);
      forall o | o in t.orders ensures Owed(after.items, o) == Owed(t.items, o) {
        OwedByOthers(t.items, after.items, order.store, id, lines, o);
      }
    }
  }

  lemma {:induction false} DeleteProductBalances(t: Tables, store: Id, product: Id)
    requires Balanced(t)
    ensures Balanced(DeleteProductIn(t, store, product))
  {
    if ProductOf(t, store, product) {
      forall o | o in t.orders ensures Owed(Unlinked(t.items, product), o) == Owed(t.items, o) {
        assert LinesOf(Unlinked(t.items, product), o) == LinesOf(t.items, o);
        OwedAgree(Unlinked(t.items, product), t.items, o);
      }
    }
  }

  lemma {:induction false} SetStatusBalances(t: Tables, store: Id, order: Id, status: Status, now: Time)
    requires Balanced(t)
    ensures Balanced(SetStatusIn(t, store, order, status, now))
  {
  }

  ghost predicate Priced(w: Write) {
    w.PublishOrder? ==> w.draft.total == LinesTotal(w.lines)
  }

  /** Money conservation is kept by every write. */
  lemma {:induction false} EveryWriteKeepsBalance(t: Tables, w: Write)
    requires Coherent(t) && Balanced(t) && Priced(w)
    ensures Balanced(Apply(t, w))
  {
    match w
    case PublishOrder(store, id, draft, lines) => PublishOrderBalances(t, id, draft.(store := store), lines);
    case DeleteProduct(store, product) => DeleteProductBalances(t, store, product);
    case SetStatus(store, order, status, now) => SetStatusBalances(t, store, order, status, now);
    case _ => OtherWritesLeaveOrders(t, w);
  }

  lemma {:induction false} OtherWritesLeaveOrders(t: Tables, w: Write)
    requires !w.PublishOrder? && !w.DeleteProduct? && !w.SetStatus?
    ensures Apply(t, w).items == t.items && Apply(t, w).orders == t.orders
    ensures t.issued <= Apply(t, w).issued
  {
    hide CreateCategoryIn, CreateProductIn, UpdateProductIn, AddFavoriteIn, RemoveFavoriteIn, SubscribeIn,
      UnsubscribeIn, PruneIn;
  }

  // ----- snapshots -----

  function Kept(link: Option<Id>, products: map<Id, Product>): Option<Id> {
    if link.Some? && link.value in products then link else None
  }

  ghost predicate LinesFrozen(before: map<Id, Item>, after: map<Id, Item>, products: map<Id, Product>) {
    forall i :: i in before ==> i in after && after[i] == before[i].(product := Kept(before[i].product, products))
  }

  ghost predicate OrdersFrozen(before: map<Id, Order>, after: map<Id, Order>) {
    forall o :: o in before ==> o in after && Restated(before[o], after[o])
  }

  predicate Restated(before: Order, after: Order) {
    after == before.(status := after.status, updatedAt := after.updatedAt)
  }

  /** No id is ever handed out twice, so a row that is gone stays gone. */
  ghost predicate ProductsNotReissued(before: map<Id, Product>, after: map<Id, Product>, issued: set<Id>) {
    && (forall p :: p in after && p in issued ==> p in before)
    && (forall p :: p in after && p in before ==> after[p].store == before[p].store)
  }

  ghost predicate OrdersNotReissued(before: map<Id, Order>, after: map<Id, Order>, issued: set<Id>) {
    forall o :: o in after && o in issued ==> o in before
  }

  ghost predicate NeverReissued(before: Tables, after: Tables) {
    && before.issued <= after.issued
    && ProductsNotReissued(before.products, after.products, before.issued)
    && OrdersNotReissued(before.orders, after.orders, before.issued)
  }

  /** A line keeps everything but its product link, and loses the link exactly when the product is gone;
      an order keeps everything but status and updated_at. */
  ghost predicate Frozen(before: Tables, after: Tables) {
    && NeverReissued(before, after) && LinesFrozen(before.items, after.items, after.products)
    && OrdersFrozen(before.orders, after.orders)
  }

  lemma {:induction false} ReissueTransitive(a: Tables, b: Tables, c: Tables)
    requires NeverReissued(a, b) && NeverReissued(b, c) && RowsIssued(a)
    ensures NeverReissued(a, c)
  {
  }

  lemma {:induction false} LinesFrozenTransitive(a: Tables, b: Tables, c: Tables)
    requires LinesFrozen(a.items, b.items, b.products) && LinesFrozen(b.items, c.items, c.products)
    requires NeverReissued(a, b) && NeverReissued(b, c) && RowsIssued(a) && ItemsOk(a.items, a.orders, a.products)
    ensures LinesFrozen(a.items, c.items, c.products)
  {
    forall i | i in a.items
      ensures i in c.items && c.items[i] == a.items[i].(product := Kept(a.items[i].product, c.products))
    {
      assert i in b.items && i in c.items;
      var link := a.items[i].product;
      if link.Some? && link.value in c.products {
        assert link.value in b.products;
      }
    }
  }

  lemma {:induction false} FrozenTransitive(a: Tables, b: Tables, c: Tables)
    requires Frozen(a, b) && Frozen(b, c) && RowsIssued(a) && ItemsOk(a.items, a.orders, a.products)
    ensures Frozen(a, c)
  {
    ReissueTransitive(a, b, c);
    LinesFrozenTransitive(a, b, c);
  }

  lemma {:induction false} UntouchedFrozen(t: Tables, after: Tables)
    requires ItemsOk(t.items, t.orders, t.products) && t.issued <= after.issued
    requires after.items == t.items && after.orders == t.orders && after.products.Keys == t.products.Keys
    requires forall p :: p in t.products ==> after.products[p].store == t.products[p].store
    ensures Frozen(t, after)
  {
    LinkedLinesFrozen(t.items, t.orders, t.products);
    assert forall i :: i in t.items ==>
             Kept(t.items[i].product, after.products) == Kept(t.items[i].product, t.products);
  }

  lemma {:induction false} UpdateProductFreezes(t: Tables, store: Id, product: Id, patch: Patch, now: Time)
    requires ItemsOk(t.items, t.orders, t.products)
    ensures Frozen(t, UpdateProductIn(t, store, product, patch, now))
  {
    hide ItemsOk, Frozen;
    var patched := Patched(t, store, product, patch, now);
    if patched.Ok? {
      UntouchedFrozen(t, t.(products := t.products[product := patched.value]));
    } else {
      UntouchedFrozen(t, t);
    }
  }

  lemma {:induction false} PublishFreezes(t: Tables, id: Id, order: Order, lines: seq<Line>)
    requires RowsIssued(t) && ItemsOk(t.items, t.orders, t.products)
    ensures Frozen(t, PublishOrderIn(t, id, order, lines))
  {
    if CanPublish(t, id, order, lines) {
      PublishedItems(t, id, order, lines);
    }
  }

  lemma {:induction false} CreateProductFreezes(t: Tables, store: Id, category: Id, slug: string, p: ProductIn,
                                                now: Time)
    requires RowsIssued(t) && ItemsOk(t.items, t.orders, t.products)
    ensures Frozen(t, CreateProductIn(t, store, category, slug, p, now))
  {
    if BuildFault(t, store, category, slug, p).None? {
      BuiltIdsNew(t, p);
    }
  }

  lemma {:induction false} DeleteProductFreezes(t: Tables, store: Id, product: Id)
    requires ItemsOk(t.items, t.orders, t.products)
    ensures Frozen(t, DeleteProductIn(t, store, product))
  {
  }

  lemma {:induction false} LinkedLinesFrozen(items: map<Id, Item>, orders: map<Id, Order>, products: map<Id, Product>)
    requires ItemsOk(items, orders, products)
    ensures LinesFrozen(items, items, products)
  {
  }

  lemma {:induction false} SameFrozen(orders: map<Id, Order>, products: map<Id, Product>, issued: set<Id>)
    ensures OrdersFrozen(orders, orders) && OrdersNotReissued(orders, orders, issued)
    ensures ProductsNotReissued(products, products, issued)
  {
  }

  lemma {:induction false} RestatedFrozen(orders: map<Id, Order>, o: Id, row: Order, issued: set<Id>)
    requires o in orders && Restated(orders[o], row)
    ensures OrdersFrozen(orders, orders[o := row]) && OrdersNotReissued(orders, orders[o := row], issued)
  {
  }

  lemma {:induction false} SetStatusFreezes(t: Tables, store: Id, order: Id, status: Status, now: Time)
    requires ItemsOk(t.items, t.orders, t.products)
    ensures Frozen(t, SetStatusIn(t, store, order, status, now))
  {
    hide LinesFrozen, ItemsOk, OrdersFrozen, ProductsNotReissued, OrdersNotReissued;
    LinkedLinesFrozen(t.items, t.orders, t.products);
    SameFrozen(t.orders, t.products, t.issued);
    if OrderOf(t, store, order) {
      RestatedFrozen(t.orders, order, t.orders[order].(status := status, updatedAt := now), t.issued);
    }
  }

  /** One write of any service leaves committed orders and lines frozen. */
  lemma {:induction false} EveryWriteFreezesOrders(t: Tables, w: Write)
    requires Coherent(t)
    ensures Frozen(t, Apply(t, w))
  {
    hide CreateCategoryIn, CreateProductIn, UpdateProductIn, DeleteProductIn, PublishOrderIn, SetStatusIn,
      AddFavoriteIn, RemoveFavoriteIn, SubscribeIn, UnsubscribeIn, PruneIn, Frozen;
    match w
    case PublishOrder(store, id, draft, lines) => PublishFreezes(t, id, draft.(store := store), lines);
    case CreateProduct(store, category, slug, payload, now) =>
      CreateProductFreezes(t, store, category, slug, payload, now);
    case UpdateProduct(store, product, patch, now) => UpdateProductFreezes(t, store, product, patch, now);
    case DeleteProduct(store, product) => DeleteProductFreezes(t, store, product);
    case SetStatus(store, order, status, now) => SetStatusFreezes(t, store, order, status, now);
    case _ =>
      UntouchedFrozen(t, Apply(t, w));
  }
}
