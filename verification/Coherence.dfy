/** The invariant the read side relies on: every row hangs off a row of its own store, the unique constraints
    hold, category slugs are not empty and every order's total is the sum of its lines. Each write keeps it. */
module Coherence {
  import opened Basics
  import opened Schema
  import opened Slugs
  import opened Catalog
  import opened Writes
  import opened BuildExact

  // ----- the parts, each over the tables it speaks of -----

  ghost predicate CategoriesOk(categories: map<Id, Category>) {
    && (forall c :: c in categories ==> categories[c].slug != "")
    && (forall a, b :: a in categories && b in categories && SameCategorySlug(categories[a], categories[b]) ==> a == b)
  }

  ghost predicate ProductsOk(products: map<Id, Product>, categories: map<Id, Category>) {
    && (forall p :: p in products ==>
          products[p].category in categories && categories[products[p].category].store == products[p].store &&
          0 <= products[p].price <= MAX_INT)
    && (forall a, b :: a in products && b in products && SameProductSlug(products[a], products[b]) ==> a == b)
  }

  ghost predicate ImagesOk(images: map<Id, Image>, products: map<Id, Product>) {
    forall i :: i in images ==> images[i].product in products && products[images[i].product].store == images[i].store
  }

  ghost predicate GroupsOk(groups: map<Id, Group>, products: map<Id, Product>) {
    && (forall g :: g in groups ==>
          groups[g].product in products && products[groups[g].product].store == groups[g].store)
    && (forall a, b :: a in groups && b in groups && SameAxis(groups[a], groups[b]) ==> a == b)
  }

  ghost predicate ChoicesOk(choices: map<Id, Choice>, groups: map<Id, Group>) {
    && (forall c :: c in choices ==> choices[c].group in groups && groups[choices[c].group].store == choices[c].store)
    && (forall a, b :: a in choices && b in choices && SameValue(choices[a], choices[b]) ==> a == b)
  }

  ghost predicate OrdersOk(orders: map<Id, Order>) {
    forall a, b :: a in orders && b in orders && SameKey(orders[a], orders[b]) ==> a == b
  }

  ghost predicate ItemsOk(items: map<Id, Item>, orders: map<Id, Order>, products: map<Id, Product>) {
    && (forall i :: i in items ==> items[i].order in orders && orders[items[i].order].store == items[i].store)
    && (forall i :: i in items && items[i].product.Some? ==>
          items[i].product.value in products && products[items[i].product.value].store == items[i].store)
  }

  ghost predicate FavoritesOk(favorites: map<Id, Favorite>, products: map<Id, Product>) {
    && (forall f :: f in favorites ==>
          favorites[f].product in products && products[favorites[f].product].store == favorites[f].store)
    && (forall a, b :: a in favorites && b in favorites && SameFavorite(favorites[a], favorites[b]) ==> a == b)
  }

  ghost predicate SubscriptionsOk(subscriptions: map<Id, Subscription>) {
    forall a, b :: a in subscriptions && b in subscriptions && SameBrowser(subscriptions[a], subscriptions[b]) ==>
      a == b
  }

  predicate SameCategorySlug(a: Category, b: Category) { a.store == b.store && a.slug == b.slug }
  predicate SameProductSlug(a: Product, b: Product) { a.store == b.store && a.slug == b.slug }
  predicate SameAxis(a: Group, b: Group) { a.product == b.product && a.name == b.name }
  predicate SameValue(a: Choice, b: Choice) { a.group == b.group && a.value == b.value }
  predicate SameKey(a: Order, b: Order) { a.store == b.store && a.customer == b.customer && a.key == b.key }
  predicate SameFavorite(a: Favorite, b: Favorite) {
    a.store == b.store && a.customer == b.customer && a.product == b.product
  }
  predicate SameBrowser(a: Subscription, b: Subscription) { a.store == b.store && a.endpoint == b.endpoint }

  ghost predicate RowsIssued(t: Tables) {
    && t.categories.Keys <= t.issued && t.products.Keys <= t.issued && t.images.Keys <= t.issued
    && t.groups.Keys <= t.issued && t.choices.Keys <= t.issued && t.orders.Keys <= t.issued
    && t.items.Keys <= t.issued && t.favorites.Keys <= t.issued && t.subscriptions.Keys <= t.issued
  }

  ghost predicate CatalogOk(t: Tables) {
    && CategoriesOk(t.categories) && ProductsOk(t.products, t.categories) && ImagesOk(t.images, t.products)
    && GroupsOk(t.groups, t.products) && ChoicesOk(t.choices, t.groups)
  }

  ghost predicate ActivityOk(t: Tables) {
    && OrdersOk(t.orders) && ItemsOk(t.items, t.orders, t.products) && FavoritesOk(t.favorites, t.products)
    && SubscriptionsOk(t.subscriptions)
  }

  ghost predicate Coherent(t: Tables) {
    RowsIssued(t) && CatalogOk(t) && ActivityOk(t)
  }

  // ----- each catalog write keeps it -----

  lemma {:induction false} CreateCategoryKeeps(t: Tables, store: Id, id: Id, name: string, slugified: string,
                                               suffix: nat, position: int)
    requires Coherent(t)
    ensures Coherent(CreateCategoryIn(t, store, id, name, slugified, suffix, position))
  {
    var slug := Candidate(BaseSlug(slugified), suffix);
    assert id in [id];
    if CategoryFault(t, store, id, name, slug, position).None? {
      var after := WithCategory(t, store, id, name, slug, position);
      assert CategoriesOk(after.categories);
      assert ProductsOk(after.products, after.categories);
    }
  }

  /** Rows that hang off products notice an update of a product only through its store, which never changes. */
  lemma {:induction false} RepricedOk(t: Tables, product: Id, row: Product)
    requires CatalogOk(t) && ActivityOk(t) && product in t.products && row.store == t.products[product].store
    ensures ImagesOk(t.images, t.products[product := row]) && GroupsOk(t.groups, t.products[product := row])
    ensures ItemsOk(t.items, t.orders, t.products[product := row])
    ensures FavoritesOk(t.favorites, t.products[product := row])
  {
  }

  lemma {:induction false} UpdateProductKeeps(t: Tables, store: Id, product: Id, patch: Patch, now: Time)
    requires Coherent(t)
    ensures Coherent(UpdateProductIn(t, store, product, patch, now))
  {
    var patched := Patched(t, store, product, patch, now);
    if patched.Ok? {
      var row, was := patched.value, t.products[product];
      assert row.slug == was.slug && row.store == was.store && CategoryOf(t, store, row.category);
      RepricedOk(t, product, row);
      assert ProductsOk(t.products[product := row], t.categories);
    }
  }

  lemma {:induction false} DeletedCatalogOk(products: map<Id, Product>, categories: map<Id, Category>,
                                            images: map<Id, Image>, groups: map<Id, Group>, product: Id)
    requires ProductsOk(products, categories) && ImagesOk(images, products) && GroupsOk(groups, products)
    ensures ProductsOk(products - {product}, categories) && ImagesOk(ImagesLess(images, product), products - {product})
    ensures GroupsOk(GroupsLess(groups, product), products - {product})
  {
  }

  lemma {:induction false} DeletedChoicesOk(choices: map<Id, Choice>, groups: map<Id, Group>, product: Id)
    requires ChoicesOk(choices, groups)
    ensures ChoicesOk(ChoicesLess(choices, groups, product), GroupsLess(groups, product))
  {
  }

  lemma {:induction false} DeletedActivityOk(items: map<Id, Item>, orders: map<Id, Order>, favorites: map<Id, Favorite>,
                                             products: map<Id, Product>, product: Id)
    requires ItemsOk(items, orders, products) && FavoritesOk(favorites, products)
    ensures ItemsOk(Unlinked(items, product), orders, products - {product})
    ensures FavoritesOk(FavoritesLess(favorites, product), products - {product})
  {
  }

  lemma {:induction false} DeleteProductKeeps(t: Tables, store: Id, product: Id)
    requires Coherent(t)
    ensures Coherent(DeleteProductIn(t, store, product))
  {
    if ProductOf(t, store, product) {
      DeletedCatalogOk(t.products, t.categories, t.images, t.groups, product);
      DeletedChoicesOk(t.choices, t.groups, product);
      DeletedActivityOk(t.items, t.orders, t.favorites, t.products, product);
    }
  }

  lemma {:induction false} BuiltIdsNew(t: Tables, p: ProductIn)
    requires RowsIssued(t) && Fresh(t, RowIds(p))
    ensures p.id !in t.issued
    ensures NewTo(t.images, ImageIds(p.images))
    ensures NewTo(t.groups, GroupRowIds(p.groups)) && NewTo(t.choices, GroupRowIds(p.groups))
  {
    DistinctParts([p.id] + ImageIds(p.images), GroupRowIds(p.groups));
    DistinctParts([p.id], ImageIds(p.images));
    assert forall id :: id in ImageIds(p.images) ==> id in RowIds(p);
    assert forall id :: id in GroupRowIds(p.groups) ==> id in RowIds(p);
    assert p.id in RowIds(p);
  }

  /** What a successful `create_product` leaves behind, table by table. */
  ghost predicate ExactlyBuilt(t: Tables, after: Tables, store: Id, category: Id, slug: string, p: ProductIn,
                               now: Time) {
    && p.id !in t.issued
    && after.products == t.products[p.id := Product(store, category, p.name, slug, p.description, p.price, p.visible,
                                                    p.featured, now, now)]
    && ImagesAdded(t.images, after.images, store, p.id, p.images)
    && GroupsAdded(t.groups, after.groups, store, p.id, p.groups)
    && GroupChoicesAdded(t.choices, after.choices, store, p.groups)
    && after == t.(products := after.products, images := after.images, groups := after.groups,
                   choices := after.choices, issued := after.issued)
  }

  lemma {:induction false} BuiltExactly(t: Tables, store: Id, category: Id, slug: string, p: ProductIn, now: Time)
    requires RowsIssued(t) && BuildFault(t, store, category, slug, p).None?
    ensures ExactlyBuilt(t, Built(t, store, category, slug, p, now), store, category, slug, p, now)
    ensures !SlugTaken(t.products, store, slug) && CategoryOf(t, store, category)
  {
    BuiltIdsNew(t, p);
    ImagesExact(t.images, store, p.id, p.images);
    GroupsExact(t.groups, store, p.id, p.groups);
    GroupChoicesExact(t.choices, store, p.groups);
  }

  /** A payload the database accepts names each axis once, and each value once per axis. */
  lemma {:induction false} AcceptedGroups(groups: seq<GroupIn>)
    requires GroupsFault(groups).None?
    ensures forall g :: g in groups ==> ChoicesFault(g.choices).None?
    ensures forall g, h :: g in groups && h in groups && g.name == h.name ==> g == h
  {
    if groups != [] {
      var front, last := groups[..|groups| - 1], groups[|groups| - 1];
      assert groups == front + [last];
      AcceptedGroups(front);
      forall g | g in front ensures g.name != last.name {
        var i :| 0 <= i < |front| && front[i] == g;
      }
    }
  }

  lemma {:induction false} AcceptedChoices(choices: seq<ChoiceIn>)
    requires ChoicesFault(choices).None?
    ensures forall c, d :: c in choices && d in choices && c.value == d.value ==> c == d
  {
    forall c, d | c in choices && d in choices && c.value == d.value ensures c == d {
      var i :| 0 <= i < |choices| && choices[i] == c;
      var j :| 0 <= j < |choices| && choices[j] == d;
      assert !(i < j) && !(j < i);
    }
  }

  lemma {:induction false} GroupIdsApart(groups: seq<GroupIn>)
    requires Distinct(GroupRowIds(groups))
    ensures forall g, h :: g in groups && h in groups && g.id == h.id ==> g == h
  {
    if groups != [] {
      var front, last := groups[..|groups| - 1], groups[|groups| - 1];
      assert groups == front + [last];
      PeelGroup({}, groups);
      GroupIdsApart(front);
      GroupRowIdsMembers(front);
    }
  }

  /** New rows on a fresh product join the old ones without touching them. */
  lemma {:induction false} BuiltImagesOk(images: map<Id, Image>, after: map<Id, Image>, products: map<Id, Product>,
                                         id: Id, row: Product, ins: seq<ImageIn>)
    requires ImagesOk(images, products) && id !in products && ImagesAdded(images, after, row.store, id, ins)
    ensures ImagesOk(after, products[id := row])
  {
  }

  lemma {:induction false} BuiltGroupsOk(groups: map<Id, Group>, after: map<Id, Group>, products: map<Id, Product>,
                                         id: Id, row: Product, ins: seq<GroupIn>)
    requires GroupsOk(groups, products) && id !in products && GroupsAdded(groups, after, row.store, id, ins)
    requires GroupsFault(ins).None?
    ensures GroupsOk(after, products[id := row])
  {
    AcceptedGroups(ins);
  }

  lemma {:induction false} BuiltChoicesOk(choices: map<Id, Choice>, after: map<Id, Choice>, groups: map<Id, Group>,
                                          groupsAfter: map<Id, Group>, store: Id, product: Id, ins: seq<GroupIn>)
    requires ChoicesOk(choices, groups) && GroupChoicesAdded(choices, after, store, ins)
    requires GroupsAdded(groups, groupsAfter, store, product, ins)
    requires GroupsFault(ins).None? && Distinct(GroupRowIds(ins))
    ensures ChoicesOk(after, groupsAfter)
  {
    forall c | c in after ensures after[c].group in groupsAfter && groupsAfter[after[c].group].store == after[c].store {
      if c !in choices {
        var g, d :| g in ins && d in g.choices && d.id == c;
      }
    }
    BuiltValuesUnique(choices, after, groups, groupsAfter, store, product, ins);
  }

  lemma {:induction false} BuiltValuesUnique(choices: map<Id, Choice>, after: map<Id, Choice>, groups: map<Id, Group>,
                                             groupsAfter: map<Id, Group>, store: Id, product: Id, ins: seq<GroupIn>)
    requires ChoicesOk(choices, groups) && GroupChoicesAdded(choices, after, store, ins)
    requires GroupsAdded(groups, groupsAfter, store, product, ins)
    requires GroupsFault(ins).None? && Distinct(GroupRowIds(ins))
    ensures forall a, b :: a in after && b in after && SameValue(after[a], after[b]) ==> a == b
  {
    forall a, b | a in after && b in after && SameValue(after[a], after[b]) ensures a == b {
      if a !in choices && b !in choices {
        NewValuesApart(choices, after, store, ins, a, b);
      }
    }
  }

  lemma {:induction false} NewValuesApart(choices: map<Id, Choice>, after: map<Id, Choice>, store: Id,
                                          ins: seq<GroupIn>, a: Id, b: Id)
    requires GroupChoicesAdded(choices, after, store, ins)
    requires GroupsFault(ins).None? && Distinct(GroupRowIds(ins))
    requires a in after && b in after && a !in choices && b !in choices && SameValue(after[a], after[b])
    ensures a == b
  {
    AcceptedGroups(ins);
    GroupIdsApart(ins);
    var g, c :| g in ins && c in g.choices && c.id == a;
    var h, d :| h in ins && d in h.choices && d.id == b;
    AcceptedChoices(g.choices);
  }

  lemma {:induction false} BuiltActivityOk(t: Tables, id: Id, row: Product)
    requires ActivityOk(t) && id !in t.products
    ensures ItemsOk(t.items, t.orders, t.products[id := row]) && FavoritesOk(t.favorites, t.products[id := row])
  {
  }

  lemma {:induction false} CreateProductKeeps(t: Tables, store: Id, category: Id, slug: string, p: ProductIn, now: Time)
    requires Coherent(t)
    ensures Coherent(CreateProductIn(t, store, category, slug, p, now))
  {
    if BuildFault(t, store, category, slug, p).None? {
      var after := Built(t, store, category, slug, p, now);
      var row := ProductRow(store, category, slug, p, now);
      BuiltExactly(t, store, category, slug, p, now);
      BuiltIssued(t, store, category, slug, p, now);
      DistinctParts([p.id] + ImageIds(p.images), GroupRowIds(p.groups));
      BuiltProductsOk(t.products, t.categories, p.id, row);
      BuiltImagesOk(t.images, after.images, t.products, p.id, row, p.images);
      BuiltGroupsOk(t.groups, after.groups, t.products, p.id, row, p.groups);
      BuiltChoicesOk(t.choices, after.choices, t.groups, after.groups, store, p.id, p.groups);
      BuiltActivityOk(t, p.id, row);
    }
  }

  lemma {:induction false} BuiltProductsOk(products: map<Id, Product>, categories: map<Id, Category>, id: Id,
                                           row: Product)
    requires ProductsOk(products, categories) && id !in products
    requires row.category in categories && categories[row.category].store == row.store
    requires !SlugTaken(products, row.store, row.slug) && 0 <= row.price <= MAX_INT
    ensures ProductsOk(products[id := row], categories)
  {
  }

  lemma {:induction false} BuiltIssued(t: Tables, store: Id, category: Id, slug: string, p: ProductIn, now: Time)
    requires RowsIssued(t) && BuildFault(t, store, category, slug, p).None?
    ensures RowsIssued(Built(t, store, category, slug, p, now))
  {
    var after := Built(t, store, category, slug, p, now);
    BuiltExactly(t, store, category, slug, p, now);
    ImageIdsMembers(p.images);
    GroupRowIdsMembers(p.groups);
    assert forall id :: id in ImageIds(p.images) ==> id in RowIds(p);
    assert forall id :: id in GroupRowIds(p.groups) ==> id in RowIds(p);
    assert p.id in RowIds(p);
  }

  // ----- each order, favorite and push write keeps it -----

  ghost predicate ItemsAdded(m: map<Id, Item>, after: map<Id, Item>, store: Id, order: Id, lines: seq<Line>) {
    && (forall k :: k in m ==> k in after && after[k] == m[k])
    && (forall k :: k in after && k !in m ==> exists l :: l in lines && l.id == k)
    && (forall l :: l in lines ==> l.id in after && l.id !in m && after[l.id] == ItemRow(store, order, l))
  }

  lemma {:induction false} LineIdsMembers(lines: seq<Line>)
    ensures forall l :: l in lines ==> l.id in LineIds(lines)
  {
    forall l | l in lines ensures l.id in LineIds(lines) {
      var i :| 0 <= i < |lines| && lines[i] == l;
      assert LineIds(lines)[i] == l.id;
    }
  }

  lemma {:induction false} ItemsExact(m: map<Id, Item>, store: Id, order: Id, lines: seq<Line>)
    requires NewTo(m, LineIds(lines))
    ensures ItemsAdded(m, WithItems(m, store, order, lines), store, order, lines)
  {
    if lines != [] {
      var front, last := lines[..|lines| - 1], lines[|lines| - 1];
      assert lines == front + [last];
      assert LineIds(lines) == LineIds(front) + [last.id];
      DistinctParts(LineIds(front), [last.id]);
      assert forall id :: id in LineIds(front) ==> id in LineIds(lines);
      assert last.id in LineIds(lines);
      ItemsExact(m, store, order, front);
      LineIdsMembers(front);
    }
  }

  /** A line may name a product of another store only if that product is gone. */
  ghost predicate LinesAtHome(t: Tables, store: Id, lines: seq<Line>) {
    forall l :: l in lines && l.product in t.products ==> t.products[l.product].store == store
  }

  lemma {:induction false} PublishedItems(t: Tables, id: Id, order: Order, lines: seq<Line>)
    requires RowsIssued(t) && CanPublish(t, id, order, lines)
    ensures ItemsAdded(t.items, Published(t, id, order, lines).items, order.store, id, lines)
    ensures id !in t.issued && Distinct(LineIds(lines))
  {
    DistinctParts([id], LineIds(lines));
    assert forall x :: x in LineIds(lines) ==> x in [id] + LineIds(lines);
    assert id in [id] + LineIds(lines);
    ItemsExact(t.items, order.store, id, lines);
  }

  lemma {:induction false} PublishedOk(t: Tables, after: map<Id, Item>, id: Id, order: Order, lines: seq<Line>)
    requires ActivityOk(t) && id !in t.orders && LinesAtHome(t, order.store, lines)
    requires !KeyTaken(t.orders, order.store, order.customer, order.key)
    requires forall l :: l in lines ==> l.product in t.products
    requires ItemsAdded(t.items, after, order.store, id, lines)
    ensures OrdersOk(t.orders[id := order]) && ItemsOk(after, t.orders[id := order], t.products)
  {
    assert OrdersOk(t.orders[id := order]);
  }

  lemma {:induction false} PublishOrderKeeps(t: Tables, id: Id, order: Order, lines: seq<Line>)
    requires Coherent(t) && LinesAtHome(t, order.store, lines)
    ensures Coherent(PublishOrderIn(t, id, order, lines))
  {
    if CanPublish(t, id, order, lines) {
      var after := Published(t, id, order, lines);
      PublishedItems(t, id, order, lines);
      forall l | l in lines ensures l.product in t.products {
        var k :| 0 <= k < |lines| && lines[k] == l;
      }
      PublishedOk(t, after.items, id, order, lines);
      PublishedIssued(t, id, order, lines);
    }
  }

  lemma {:induction false} PublishedIssued(t: Tables, id: Id, order: Order, lines: seq<Line>)
    requires RowsIssued(t) && CanPublish(t, id, order, lines)
    ensures RowsIssued(Published(t, id, order, lines))
  {
    PublishedItems(t, id, order, lines);
    LineIdsMembers(lines);
    assert forall x :: x in LineIds(lines) ==> x in [id] + LineIds(lines);
    assert id in [id] + LineIds(lines);
  }

  lemma {:induction false} RestatedOk(orders: map<Id, Order>, items: map<Id, Item>, products: map<Id, Product>,
                                      order: Id, row: Order)
    requires OrdersOk(orders) && ItemsOk(items, orders, products) && order in orders
    requires SameKey(orders[order], row)
    ensures OrdersOk(orders[order := row]) && ItemsOk(items, orders[order := row], products)
  {
  }

  lemma {:induction false} SetStatusKeeps(t: Tables, store: Id, order: Id, status: Status, now: Time)
    requires Coherent(t)
    ensures Coherent(SetStatusIn(t, store, order, status, now))
  {
    if OrderOf(t, store, order) {
      RestatedOk(t.orders, t.items, t.products, order, t.orders[order].(status := status, updatedAt := now));
    }
  }

  lemma {:induction false} AddFavoriteKeeps(t: Tables, store: Id, id: Id, customer: Id, product: Id, now: Time)
    requires Coherent(t)
    ensures Coherent(AddFavoriteIn(t, store, id, customer, product, now))
  {
    hide CategoriesOk, ProductsOk, ImagesOk, GroupsOk, ChoicesOk, OrdersOk, ItemsOk, FavoritesOk, SubscriptionsOk;
    assert id in [id];
    if ProductOf(t, store, product) && !Favored(t.favorites, store, customer, product) && id !in t.favorites {
      FavoredOk(t.favorites, t.products, id, Favorite(store, customer, product, now));
    }
  }

  lemma {:induction false} FavoredOk(favorites: map<Id, Favorite>, products: map<Id, Product>, id: Id, row: Favorite)
    requires FavoritesOk(favorites, products) && row.product in products && products[row.product].store == row.store
    requires id !in favorites && !Favored(favorites, row.store, row.customer, row.product)
    ensures FavoritesOk(favorites[id := row], products)
  {
  }

  lemma {:induction false} RemoveFavoriteKeeps(t: Tables, store: Id, customer: Id, product: Id)
    requires Coherent(t)
    ensures Coherent(RemoveFavoriteIn(t, store, customer, product))
  {
    var after := RemoveFavoriteIn(t, store, customer, product);
    assert FavoritesOk(after.favorites, after.products);
  }

  lemma {:induction false} RegisteredOk(m: map<Id, Subscription>, id: Id, row: Subscription)
    requires SubscriptionsOk(m)
    requires forall s :: s in m && SameBrowser(m[s], row) ==> s == id
    ensures SubscriptionsOk(m[id := row])
  {
  }

  lemma {:induction false} RegisterKeeps(t: Tables, id: Id, row: Subscription, issued: set<Id>)
    requires Coherent(t) && t.issued <= issued && id in issued
    requires forall s :: s in t.subscriptions && SameBrowser(t.subscriptions[s], row) ==> s == id
    ensures Coherent(t.(subscriptions := t.subscriptions[id := row], issued := issued))
  {
    hide CategoriesOk, ProductsOk, ImagesOk, GroupsOk, ChoicesOk, OrdersOk, ItemsOk, FavoritesOk, SubscriptionsOk;
    RegisteredOk(t.subscriptions, id, row);
  }

  lemma {:induction false} SubscribeKeeps(t: Tables, store: Id, id: Id, user: Id, endpoint: string, p256dh: string,
                                          auth: string)
    requires Coherent(t)
    ensures Coherent(SubscribeIn(t, store, id, user, endpoint, p256dh, auth))
  {
    var found := Registrations(t.subscriptions, store, endpoint);
    var row := Subscription(store, user, endpoint, p256dh, auth);
    RegisteredOnce(t.subscriptions, row);
    RegistrationsRows(t.subscriptions, store, endpoint);
    hide Coherent, Registrations, Fresh;
    if found != {} {
      assert Least(found) in t.issued by {
        CoherentIssued(t);
      }
      RegisterKeeps(t, Least(found), row, t.issued);
    } else if Fresh(t, [id]) {
      RegisterKeeps(t, id, row, t.issued + {id});
    }
  }

  lemma CoherentIssued(t: Tables)
    requires Coherent(t)
    ensures t.subscriptions.Keys <= t.issued
  {
  }

  lemma RegistrationsRows(m: map<Id, Subscription>, store: Id, endpoint: string)
    ensures Registrations(m, store, endpoint) <= m.Keys
  {
  }

  lemma {:induction false} RegisteredOnce(m: map<Id, Subscription>, row: Subscription)
    requires SubscriptionsOk(m)
    ensures var found := Registrations(m, row.store, row.endpoint);
            forall s :: s in m && SameBrowser(m[s], row) ==> found != {} && s == Least(found)
  {
    var found := Registrations(m, row.store, row.endpoint);
    forall s | s in m && SameBrowser(m[s], row) ensures found != {} && s == Least(found) {
      assert s in found;
      assert SameBrowser(m[s], m[Least(found)]);
    }
  }

  lemma {:induction false} FewerSubscriptionsOk(m: map<Id, Subscription>, fewer: map<Id, Subscription>)
    requires SubscriptionsOk(m)
    requires forall s :: s in fewer ==> s in m && fewer[s] == m[s]
    ensures SubscriptionsOk(fewer)
  {
  }

  lemma {:induction false} DropSubscriptionKeeps(t: Tables, store: Id, user: Id, endpoint: string, subscription: Id)
    requires Coherent(t)
    ensures Coherent(UnsubscribeIn(t, store, user, endpoint))
    ensures Coherent(PruneIn(t, store, subscription))
  {
    FewerSubscriptionsOk(t.subscriptions, SubscriptionsLess(t.subscriptions, store, user, endpoint));
    FewerSubscriptionsOk(t.subscriptions, t.subscriptions - {subscription});
  }

  ghost predicate AtHome(t: Tables, w: Write) {
    w.PublishOrder? ==> LinesAtHome(t, w.store, w.lines)
  }

  /** Store coherence is kept by every write of every service. */
  lemma {:induction false} EveryWriteKeepsCoherence(t: Tables, w: Write)
    requires Coherent(t) && AtHome(t, w)
    ensures Coherent(Apply(t, w))
  {
    hide CreateCategoryIn, CreateProductIn, UpdateProductIn, DeleteProductIn, PublishOrderIn, SetStatusIn,
      AddFavoriteIn, RemoveFavoriteIn, SubscribeIn, UnsubscribeIn, PruneIn, Coherent;
    match w
    case CreateCategory(store, id, name, slugified, suffix, position) =>
      CreateCategoryKeeps(t, store, id, name, slugified, suffix, position);
    case CreateProduct(store, category, slug, payload, now) =>
      CreateProductKeeps(t, store, category, slug, payload, now);
    case UpdateProduct(store, product, patch, now) => UpdateProductKeeps(t, store, product, patch, now);
    case DeleteProduct(store, product) => DeleteProductKeeps(t, store, product);
    case PublishOrder(store, id, draft, lines) => PublishOrderKeeps(t, id, draft.(store := store), lines);
    case SetStatus(store, order, status, now) => SetStatusKeeps(t, store, order, status, now);
    case AddFavorite(store, id, customer, product, now) => AddFavoriteKeeps(t, store, id, customer, product, now);
    case RemoveFavorite(store, customer, product) => RemoveFavoriteKeeps(t, store, customer, product);
    case Subscribe(store, id, user, endpoint, p256dh, auth) =>
      SubscribeKeeps(t, store, id, user, endpoint, p256dh, auth);
    case Unsubscribe(store, user, endpoint) => DropSubscriptionKeeps(t, store, user, endpoint, 0);
    case Prune(store, subscription) => DropSubscriptionKeeps(t, store, 0, "", subscription);
  }

  /** Every write of a run, at its turn, puts no foreign product on an order line. */
  ghost predicate AllAtHome(t: Tables, ws: seq<Write>) {
    forall i :: 0 <= i < |ws| ==> AtHome(ApplyAll(t, ws[..i]), ws[i])
  }

  lemma {:induction false} WritesKeepCoherence(t: Tables, ws: seq<Write>)
    requires Coherent(t) && AllAtHome(t, ws)
    ensures Coherent(ApplyAll(t, ws))
  {
    hide Coherent, Apply, AtHome;
    if ws != [] {
      var front := ws[..|ws| - 1];
      forall i | 0 <= i < |front| ensures AtHome(ApplyAll(t, front[..i]), front[i]) {
        assert front[..i] == ws[..i] && front[i] == ws[i];
      }
      WritesKeepCoherence(t, front);
      assert AtHome(ApplyAll(t, ws[..|ws| - 1]), ws[|ws| - 1]);
      EveryWriteKeepsCoherence(ApplyAll(t, front), ws[|ws| - 1]);
    }
  }
}
