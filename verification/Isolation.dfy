/** Tenant isolation: a write at one store leaves every row of every other store as it was. */
module Isolation {
  import opened Schema
  import opened Catalog
  import opened Writes
  import opened BuildExact
  import opened Coherence

  function CategoriesIn(m: map<Id, Category>, store: Id): map<Id, Category> {
    map k | k in m && m[k].store == store :: m[k]
  }

  function ProductsIn(m: map<Id, Product>, store: Id): map<Id, Product> {
    map k | k in m && m[k].store == store :: m[k]
  }

  function ImagesIn(m: map<Id, Image>, store: Id): map<Id, Image> {
    map k | k in m && m[k].store == store :: m[k]
  }

  function GroupsIn(m: map<Id, Group>, store: Id): map<Id, Group> {
    map k | k in m && m[k].store == store :: m[k]
  }

  function ChoicesIn(m: map<Id, Choice>, store: Id): map<Id, Choice> {
    map k | k in m && m[k].store == store :: m[k]
  }

  function OrdersIn(m: map<Id, Order>, store: Id): map<Id, Order> {
    map k | k in m && m[k].store == store :: m[k]
  }

  function ItemsIn(m: map<Id, Item>, store: Id): map<Id, Item> {
    map k | k in m && m[k].store == store :: m[k]
  }

  function FavoritesIn(m: map<Id, Favorite>, store: Id): map<Id, Favorite> {
    map k | k in m && m[k].store == store :: m[k]
  }

  function SubscriptionsIn(m: map<Id, Subscription>, store: Id): map<Id, Subscription> {
    map k | k in m && m[k].store == store :: m[k]
  }

  /** One store's rows, table by table; handed-out ids belong to no store. */
  function View(t: Tables, store: Id): Tables {
    Tables(CategoriesIn(t.categories, store), ProductsIn(t.products, store), ImagesIn(t.images, store),
           GroupsIn(t.groups, store), ChoicesIn(t.choices, store), OrdersIn(t.orders, store), ItemsIn(t.items, store),
           FavoritesIn(t.favorites, store), SubscriptionsIn(t.subscriptions, store), {})
  }

  lemma {:induction false} BuiltElsewhere(t: Tables, after: Tables, store: Id, category: Id, slug: string, p: ProductIn,
                                          now: Time, other: Id)
    requires RowsIssued(t) && ExactlyBuilt(t, after, store, category, slug, p, now) && other != store
    ensures View(after, other) == View(t, other)
  {
    hide ImagesAdded, GroupsAdded, GroupChoicesAdded, ImagesIn, GroupsIn, ChoicesIn;
    assert ProductsIn(after.products, other) == ProductsIn(t.products, other);
    BuiltRowsElsewhere(t, after, store, p, other);
  }

  lemma {:induction false} BuiltRowsElsewhere(t: Tables, after: Tables, store: Id, p: ProductIn, other: Id)
    requires ImagesAdded(t.images, after.images, store, p.id, p.images) && other != store
    requires GroupsAdded(t.groups, after.groups, store, p.id, p.groups)
    requires GroupChoicesAdded(t.choices, after.choices, store, p.groups)
    ensures ImagesIn(after.images, other) == ImagesIn(t.images, other)
    ensures GroupsIn(after.groups, other) == GroupsIn(t.groups, other)
    ensures ChoicesIn(after.choices, other) == ChoicesIn(t.choices, other)
  {
  }

  lemma {:induction false} CreateProductElsewhere(t: Tables, store: Id, category: Id, slug: string, p: ProductIn,
                                                  now: Time, other: Id)
    requires RowsIssued(t) && other != store
    ensures View(CreateProductIn(t, store, category, slug, p, now), other) == View(t, other)
  {
    if BuildFault(t, store, category, slug, p).None? {
      BuiltExactly(t, store, category, slug, p, now);
      BuiltElsewhere(t, Built(t, store, category, slug, p, now), store, category, slug, p, now, other);
    }
  }

  /** What a cascade removes belongs to the product's store. */
  lemma {:induction false} CascadeElsewhere(products: map<Id, Product>, images: map<Id, Image>, groups: map<Id, Group>,
                                            choices: map<Id, Choice>, product: Id, other: Id)
    requires ImagesOk(images, products) && GroupsOk(groups, products) && ChoicesOk(choices, groups)
    requires product in products && products[product].store != other
    ensures ProductsIn(products - {product}, other) == ProductsIn(products, other)
    ensures ImagesIn(ImagesLess(images, product), other) == ImagesIn(images, other)
    ensures GroupsIn(GroupsLess(groups, product), other) == GroupsIn(groups, other)
    ensures ChoicesIn(ChoicesLess(choices, groups, product), other) == ChoicesIn(choices, other)
  {
  }

  lemma {:induction false} UnlinkElsewhere(products: map<Id, Product>, orders: map<Id, Order>, items: map<Id, Item>,
                                           favorites: map<Id, Favorite>, product: Id, other: Id)
    requires ItemsOk(items, orders, products) && FavoritesOk(favorites, products)
    requires product in products && products[product].store != other
    ensures ItemsIn(Unlinked(items, product), other) == ItemsIn(items, other)
    ensures FavoritesIn(FavoritesLess(favorites, product), other) == FavoritesIn(favorites, other)
  {
  }

  lemma {:induction false} DeleteProductElsewhere(t: Tables, store: Id, product: Id, other: Id)
    requires Coherent(t) && other != store
    ensures View(DeleteProductIn(t, store, product), other) == View(t, other)
  {
    if ProductOf(t, store, product) {
      CascadeElsewhere(t.products, t.images, t.groups, t.choices, product, other);
      UnlinkElsewhere(t.products, t.orders, t.items, t.favorites, product, other);
    }
  }

  lemma {:induction false} ItemsElsewhere(m: map<Id, Item>, after: map<Id, Item>, store: Id, id: Id, lines: seq<Line>,
                                          other: Id)
    requires ItemsAdded(m, after, store, id, lines) && other != store
    ensures ItemsIn(after, other) == ItemsIn(m, other)
  {
  }

  lemma {:induction false} PublishElsewhere(t: Tables, id: Id, order: Order, lines: seq<Line>, other: Id)
    requires RowsIssued(t) && other != order.store
    ensures View(PublishOrderIn(t, id, order, lines), other) == View(t, other)
  {
    if CanPublish(t, id, order, lines) {
      var after := Published(t, id, order, lines);
      PublishedItems(t, id, order, lines);
      ItemsElsewhere(t.items, after.items, order.store, id, lines, other);
      assert OrdersIn(after.orders, other) == OrdersIn(t.orders, other);
    }
  }

  lemma {:induction false} CreateCategoryElsewhere(t: Tables, store: Id, id: Id, name: string, slugified: string,
                                                   suffix: nat, position: int, other: Id)
    requires RowsIssued(t) && other != store
    ensures View(CreateCategoryIn(t, store, id, name, slugified, suffix, position), other) == View(t, other)
  {
    var after := CreateCategoryIn(t, store, id, name, slugified, suffix, position);
    assert id in [id];
    assert CategoriesIn(after.categories, other) == CategoriesIn(t.categories, other);
  }

  lemma {:induction false} UpdateProductElsewhere(t: Tables, store: Id, product: Id, patch: Patch, now: Time, other: Id)
    requires other != store
    ensures View(UpdateProductIn(t, store, product, patch, now), other) == View(t, other)
  {
    var after := UpdateProductIn(t, store, product, patch, now);
    assert ProductsIn(after.products, other) == ProductsIn(t.products, other);
  }

  lemma {:induction false} SetStatusElsewhere(t: Tables, store: Id, order: Id, status: Status, now: Time, other: Id)
    requires other != store
    ensures View(SetStatusIn(t, store, order, status, now), other) == View(t, other)
  {
    assert OrdersIn(SetStatusIn(t, store, order, status, now).orders, other) == OrdersIn(t.orders, other);
  }

  lemma {:induction false} AddFavoriteElsewhere(t: Tables, store: Id, id: Id, customer: Id, product: Id, now: Time,
                                                other: Id)
    requires RowsIssued(t) && other != store
    ensures View(AddFavoriteIn(t, store, id, customer, product, now), other) == View(t, other)
  {
    assert id in [id];
    assert FavoritesIn(AddFavoriteIn(t, store, id, customer, product, now).favorites, other) ==
           FavoritesIn(t.favorites, other);
  }

  lemma {:induction false} RemoveFavoriteElsewhere(t: Tables, store: Id, customer: Id, product: Id, other: Id)
    requires other != store
    ensures View(RemoveFavoriteIn(t, store, customer, product), other) == View(t, other)
  {
    assert FavoritesIn(RemoveFavoriteIn(t, store, customer, product).favorites, other) ==
             FavoritesIn(t.favorites, other);
  }

  lemma {:induction false} RegisterElsewhere(m: map<Id, Subscription>, id: Id, row: Subscription, other: Id)
    requires row.store != other && (id in m ==> m[id].store != other)
    ensures SubscriptionsIn(m[id := row], other) == SubscriptionsIn(m, other)
  {
  }

  lemma {:induction false} SubscribeElsewhere(t: Tables, store: Id, id: Id, user: Id, endpoint: string, p256dh: string,
                                              auth: string, other: Id)
    requires RowsIssued(t) && other != store
    ensures View(SubscribeIn(t, store, id, user, endpoint, p256dh, auth), other) == View(t, other)
  {
    assert id in [id];
    var row := Subscription(store, user, endpoint, p256dh, auth);
    var found := Registrations(t.subscriptions, store, endpoint);
    if found != {} {
      RegisterElsewhere(t.subscriptions, Least(found), row, other);
    } else if Fresh(t, [id]) {
      RegisterElsewhere(t.subscriptions, id, row, other);
    }
  }

  lemma {:induction false} DropSubscriptionElsewhere(t: Tables, store: Id, user: Id, endpoint: string, subscription: Id,
                                                     other: Id)
    requires other != store
    ensures View(UnsubscribeIn(t, store, user, endpoint), other) == View(t, other)
    ensures View(PruneIn(t, store, subscription), other) == View(t, other)
  {
    assert SubscriptionsIn(UnsubscribeIn(t, store, user, endpoint).subscriptions, other) ==
           SubscriptionsIn(t.subscriptions, other);
    assert SubscriptionsIn(PruneIn(t, store, subscription).subscriptions, other) ==
             SubscriptionsIn(t.subscriptions, other);
  }

  /** No write reaches beyond the store it is addressed to. */
  lemma {:induction false} WritesStayHome(t: Tables, w: Write, other: Id)
    requires Coherent(t) && other != w.store
    ensures View(Apply(t, w), other) == View(t, other)
  {
    hide CreateCategoryIn, CreateProductIn, UpdateProductIn, DeleteProductIn, PublishOrderIn, SetStatusIn,
      AddFavoriteIn, RemoveFavoriteIn, SubscribeIn, UnsubscribeIn, PruneIn, View;
    match w
    case CreateCategory(store, id, name, slugified, suffix, position) =>
      CreateCategoryElsewhere(t, store, id, name, slugified, suffix, position, other);
    case CreateProduct(store, category, slug, payload, now) =>
      CreateProductElsewhere(t, store, category, slug, payload, now, other);
    case UpdateProduct(store, product, patch, now) => UpdateProductElsewhere(t, store, product, patch, now, other);
    case DeleteProduct(store, product) => DeleteProductElsewhere(t, store, product, other);
    case PublishOrder(store, id, draft, lines) => PublishElsewhere(t, id, draft.(store := store), lines, other);
    case SetStatus(store, order, status, now) => SetStatusElsewhere(t, store, order, status, now, other);
    case AddFavorite(store, id, customer, product, now) =>
      AddFavoriteElsewhere(t, store, id, customer, product, now, other);
    case RemoveFavorite(store, customer, product) => RemoveFavoriteElsewhere(t, store, customer, product, other);
    case Subscribe(store, id, user, endpoint, p256dh, auth) =>
      SubscribeElsewhere(t, store, id, user, endpoint, p256dh, auth, other);
    case Unsubscribe(store, user, endpoint) => DropSubscriptionElsewhere(t, store, user, endpoint, 0, other);
    case Prune(store, subscription) => DropSubscriptionElsewhere(t, store, 0, "", subscription, other);
  }
}
