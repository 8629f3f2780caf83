/** Every committed write of the services as one datatype, with its effect on the tables.
    A write that the service refuses leaves the tables as they were. */
module Writes {
  import opened Basics
  import opened Schema
  import opened Catalog
  import opened Slugs

  /** One order line as it is snapshotted; `id` is the uuid drawn for its row. */
  datatype Line = Line(id: Id, product: Id, quantity: int, unitPrice: int, name: string, imageUrl: string,
                       options: map<string, string>)

  function LineIds(lines: seq<Line>): seq<Id> {
    seq(|lines|, i requires 0 <= i < |lines| => lines[i].id)
  }

  function LineTotal(line: Line): int {
    line.unitPrice * line.quantity
  }

  function LinesTotal(lines: seq<Line>): int {
    if lines == [] then 0 else LinesTotal(lines[..|lines| - 1]) + LineTotal(lines[|lines| - 1])
  }

  function ItemRow(store: Id, order: Id, line: Line): Item {
    Item(store, order, Some(line.product), line.quantity, line.unitPrice, line.name, line.imageUrl, line.options)
  }

  function WithItems(m: map<Id, Item>, store: Id, order: Id, lines: seq<Line>): map<Id, Item> {
    if lines == [] then m else
      var last := lines[|lines| - 1];
      WithItems(m, store, order, lines[..|lines| - 1])[last.id := ItemRow(store, order, last)]
  }

  /** Product foreign keys are deferred, so they are checked when the transaction commits. */
  predicate CanPublish(t: Tables, id: Id, order: Order, lines: seq<Line>) {
    && Fresh(t, [id] + LineIds(lines))
    && !KeyTaken(t.orders, order.store, order.customer, order.key)
    && forall i :: 0 <= i < |lines| ==> lines[i].product in t.products
  }

  function Published(t: Tables, id: Id, order: Order, lines: seq<Line>): Tables {
    t.(orders := t.orders[id := order],
       items := WithItems(t.items, order.store, id, lines),
       issued := t.issued + ToSet([id] + LineIds(lines)))
  }

  datatype Write =
    | CreateCategory(store: Id, id: Id, name: string, slugified: string, suffix: nat, position: int)
    | CreateProduct(store: Id, category: Id, slug: string, payload: ProductIn, now: Time)
    | UpdateProduct(store: Id, product: Id, patch: Patch, now: Time)
    | DeleteProduct(store: Id, product: Id)
    | PublishOrder(store: Id, id: Id, draft: Order, lines: seq<Line>)
    | SetStatus(store: Id, order: Id, status: Status, now: Time)
    | AddFavorite(store: Id, id: Id, customer: Id, product: Id, now: Time)
    | RemoveFavorite(store: Id, customer: Id, product: Id)
    | Subscribe(store: Id, id: Id, user: Id, endpoint: string, p256dh: string, auth: string)
    | Unsubscribe(store: Id, user: Id, endpoint: string)
    | Prune(store: Id, subscription: Id)

  function CreateCategoryIn(t: Tables, store: Id, id: Id, name: string, slugified: string, suffix: nat, position: int)
    : (after: Tables)
    ensures after == t.(categories := after.categories, issued := after.issued) && t.issued <= after.issued
  {
    var slug := Candidate(BaseSlug(slugified), suffix);
    if CategoryFault(t, store, id, name, slug, position).None? then WithCategory(t, store, id, name, slug, position)
      else t
  }

  function CreateProductIn(t: Tables, store: Id, category: Id, slug: string, p: ProductIn, now: Time): (after: Tables)
    ensures after == t.(products := after.products, images := after.images, groups := after.groups,
                         choices := after.choices, issued := after.issued) && t.issued <= after.issued
  {
    if BuildFault(t, store, category, slug, p).None? then Built(t, store, category, slug, p, now) else t
  }

  function UpdateProductIn(t: Tables, store: Id, product: Id, patch: Patch, now: Time): (after: Tables)
    ensures after == t.(products := after.products)
  {
    var patched := Patched(t, store, product, patch, now);
    if patched.Ok? then t.(products := t.products[product := patched.value]) else t
  }

  function DeleteProductIn(t: Tables, store: Id, product: Id): Tables {
    if ProductOf(t, store, product) then Deleted(t, product) else t
  }

  function PublishOrderIn(t: Tables, id: Id, order: Order, lines: seq<Line>): (after: Tables)
    ensures after == t.(orders := after.orders, items := after.items, issued := after.issued)
    ensures t.issued <= after.issued
  {
    if CanPublish(t, id, order, lines) then Published(t, id, order, lines) else t
  }

  predicate OrderOf(t: Tables, store: Id, order: Id) {
    order in t.orders && t.orders[order].store == store
  }

  function SetStatusIn(t: Tables, store: Id, order: Id, status: Status, now: Time): (after: Tables)
    ensures after == t.(orders := after.orders)
  {
    if OrderOf(t, store, order)
    then t.(orders := t.orders[order := t.orders[order].(status := status, updatedAt := now)])
    else t
  }

  predicate Favored(favorites: map<Id, Favorite>, store: Id, customer: Id, product: Id) {
    exists f :: f in favorites && favorites[f].store == store && favorites[f].customer == customer &&
                favorites[f].product == product
  }

  /** The row get_or_create inserts unless it is there; the product is looked up beforehand. */
  function AddFavoriteIn(t: Tables, store: Id, id: Id, customer: Id, product: Id, now: Time): (after: Tables)
    ensures after == t.(favorites := after.favorites, issued := after.issued) && t.issued <= after.issued
  {
    if ProductOf(t, store, product) && !Favored(t.favorites, store, customer, product) && Fresh(t, [id])
    then t.(favorites := t.favorites[id := Favorite(store, customer, product, now)], issued := t.issued + {id})
    else t
  }

  function RemoveFavoriteIn(t: Tables, store: Id, customer: Id, product: Id): (after: Tables)
    ensures after == t.(favorites := after.favorites)
  {
    t.(favorites := map f | f in t.favorites &&
                            !(t.favorites[f].store == store && t.favorites[f].customer == customer &&
                              t.favorites[f].product == product)
                        :: t.favorites[f])
  }

  function Registrations(subscriptions: map<Id, Subscription>, store: Id, endpoint: string): set<Id> {
    set s | s in subscriptions && subscriptions[s].store == store && subscriptions[s].endpoint == endpoint
  }

  /** update_or_create on (store, endpoint). */
  function SubscribeIn(t: Tables, store: Id, id: Id, user: Id, endpoint: string, p256dh: string, auth: string)
    : (after: Tables)
    ensures after == t.(subscriptions := after.subscriptions, issued := after.issued) && t.issued <= after.issued
  {
    var found := Registrations(t.subscriptions, store, endpoint);
    var row := Subscription(store, user, endpoint, p256dh, auth);
    if found != {} then t.(subscriptions := t.subscriptions[Least(found) := row])
    else if Fresh(t, [id]) then t.(subscriptions := t.subscriptions[id := row], issued := t.issued + {id})
    else t
  }

  function SubscriptionsLess(m: map<Id, Subscription>, store: Id, user: Id, endpoint: string): map<Id, Subscription> {
    map s | s in m && !(m[s].store == store && m[s].user == user && m[s].endpoint == endpoint) :: m[s]
  }

  function UnsubscribeIn(t: Tables, store: Id, user: Id, endpoint: string): (after: Tables)
    ensures after == t.(subscriptions := after.subscriptions)
  {
    t.(subscriptions := SubscriptionsLess(t.subscriptions, store, user, endpoint))
  }

  function PruneIn(t: Tables, store: Id, subscription: Id): (after: Tables)
    ensures after == t.(subscriptions := after.subscriptions)
  {
    if subscription in t.subscriptions && t.subscriptions[subscription].store == store
    then t.(subscriptions := t.subscriptions - {subscription})
    else t
  }

  function Apply(t: Tables, w: Write): Tables {
    match w
    case CreateCategory(store, id, name, slugified, suffix, position) =>
      CreateCategoryIn(t, store, id, name, slugified, suffix, position)
    case CreateProduct(store, category, slug, payload, now) => CreateProductIn(t, store, category, slug, payload, now)
    case UpdateProduct(store, product, patch, now) => UpdateProductIn(t, store, product, patch, now)
    case DeleteProduct(store, product) => DeleteProductIn(t, store, product)
    case PublishOrder(store, id, draft, lines) => PublishOrderIn(t, id, draft.(store := store), lines)
    case SetStatus(store, order, status, now) => SetStatusIn(t, store, order, status, now)
    case AddFavorite(store, id, customer, product, now) => AddFavoriteIn(t, store, id, customer, product, now)
    case RemoveFavorite(store, customer, product) => RemoveFavoriteIn(t, store, customer, product)
    case Subscribe(store, id, user, endpoint, p256dh, auth) => SubscribeIn(t, store, id, user, endpoint, p256dh, auth)
    case Unsubscribe(store, user, endpoint) => UnsubscribeIn(t, store, user, endpoint)
    case Prune(store, subscription) => PruneIn(t, store, subscription)
  }

  /** The tables after a list of writes, oldest first. */
  function ApplyAll(t: Tables, ws: seq<Write>): Tables {
    if ws == [] then t else Apply(ApplyAll(t, ws[..|ws| - 1]), ws[|ws| - 1])
  }

  lemma {:induction false} ApplyAllConcat(t: Tables, a: seq<Write>, b: seq<Write>)
    ensures ApplyAll(t, a + b) == ApplyAll(ApplyAll(t, a), b)
    decreases |b|
  {
    if b == [] {
      assert a + b == a;
    } else {
      var front := b[..|b| - 1];
      ApplyAllConcat(t, a, front);
      assert (a + b)[..|a + b| - 1] == a + front;
    }
  }
}
