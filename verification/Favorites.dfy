/** Favorites (apps/favorites/services.py and selectors.py): adding is idempotent, removing undoes it, and the list a
    customer sees needs no store filter on products because every favorite hangs off a product of its own store. */
module Favorites {
  import opened Basics
  import opened Ordering
  import opened Schema
  import opened Catalog
  import opened Writes
  import opened Coherence
  import opened Isolation
  import opened Databases

  predicate Shown(t: Tables, store: Id, product: Id) {
    ProductOf(t, store, product) && t.products[product].visible
  }

  /** Favorites a visible product; `id` is the uuid drawn in case a row is created. Other requests run between the
      lookup of the product, the lookup of the favorite, its insert, and the lookup that follows a refused insert.
      `trial` is the moment the call settles. A refused insert is an error only if the favorite is not there by then
      either: the product was deleted, the uuid is used up, or a rival's favorite came and went. */
  method AddFavorite(db: Database, store: Id, id: Id, customer: Id, product: Id, now: Time)
    returns (outcome: Outcome<()>, ghost refused: Moment, ghost trial: Moment)
    modifies db
    ensures outcome == NotFound <==>
            !(product in old(db.products) && old(db.products)[product].store == store &&
              old(db.products)[product].visible)
    ensures outcome == NotFound ==> db.Now() == old(db.Now())
    ensures outcome != NotFound ==> Ran(old(db.Now()), trial)
    ensures outcome.Ok? ==> Favored(db.favorites, store, customer, product)
    ensures outcome.Ok? ==> FavoredOnce(trial.tables, db.favorites, store, id, customer, product, now)
    ensures outcome.Ok? ==>
              db.Now() == trial.(tables := AddFavoriteIn(trial.tables, store, id, customer, product, now))
    ensures !outcome.Ok? && outcome != NotFound ==>
              && outcome == Failed(IntegrityError) && db.Now() == trial
              && !Favored(db.favorites, store, customer, product)
              && Ran(old(db.Now()), refused) && Ran(refused, trial)
              && (!ProductOf(refused.tables, store, product) || id in refused.tables.issued ||
                  Favored(refused.tables.favorites, store, customer, product))
    ensures old(db.rivals) == [] && outcome != NotFound ==>
              && db.Snapshot() == AddFavoriteIn(old(db.Snapshot()), store, id, customer, product, now)
              && (outcome.Ok? <==> Favored(old(db.favorites), store, customer, product) || id !in old(db.issued))
  {
    hide Favored, Ran, AddFavoriteIn, FavoredOnce;
    ghost var start := db.Now();
    refused, trial := start, start;
    if !Shown(db.Snapshot(), store, product) {
      return NotFound, refused, trial;
    }
    db.Yield();
    trial := db.Now();
    NobodyRan(start, trial);
    AddSettles(trial.tables, store, id, customer, product, now);
    if Favored(db.favorites, store, customer, product) {
      return Ok(()), refused, trial;
    }
    db.Yield();
    RanOn(start, trial, db.Now());
    trial := db.Now();
    NobodyRan(start, trial);
    AddSettles(trial.tables, store, id, customer, product, now);
    if ProductOf(db.Snapshot(), store, product) && !Favored(db.favorites, store, customer, product) &&
      id !in db.issued {
      db.favorites := db.favorites[id := Favorite(store, customer, product, now)];
      db.issued := db.issued + {id};
      NewlyFavored(db.favorites, id);
      return Ok(()), refused, trial;
    }
    refused := trial;
    db.Yield();
    trial := db.Now();
    RanOn(start, refused, trial);
    NobodyRan(start, trial);
    AddSettles(trial.tables, store, id, customer, product, now);
    if Favored(db.favorites, store, customer, product) {
      return Ok(()), refused, trial;
    }
    return Failed(IntegrityError), refused, trial;
  }

  /** The customer keeps the product at the store, by a row that was there or by the new one. */
  ghost predicate FavoredOnce(t: Tables, after: map<Id, Favorite>, store: Id, id: Id, customer: Id, product: Id,
                              now: Time) {
    if exists f :: f in t.favorites && t.favorites[f].store == store && t.favorites[f].customer == customer &&
                   t.favorites[f].product == product
    then after == t.favorites
    else id !in t.issued && after == t.favorites[id := Favorite(store, customer, product, now)]
  }

  lemma AddSettles(t: Tables, store: Id, id: Id, customer: Id, product: Id, now: Time)
    ensures AddFavoriteIn(t, store, id, customer, product, now) ==
            if ProductOf(t, store, product) && !Favored(t.favorites, store, customer, product) && id !in t.issued
            then t.(favorites := t.favorites[id := Favorite(store, customer, product, now)], issued := t.issued + {id})
            else t
    ensures Favored(t.favorites, store, customer, product) ==>
              FavoredOnce(t, t.favorites, store, id, customer, product, now)
    ensures !Favored(t.favorites, store, customer, product) && id !in t.issued ==>
              FavoredOnce(t, t.favorites[id := Favorite(store, customer, product, now)], store, id, customer, product,
                          now)
  {
    assert id in [id];
  }

  lemma NewlyFavored(favorites: map<Id, Favorite>, id: Id)
    requires id in favorites
    ensures Favored(favorites, favorites[id].store, favorites[id].customer, favorites[id].product)
  {
  }

  method RemoveFavorite(db: Database, store: Id, customer: Id, product: Id)
    modifies db`favorites
    ensures db.Snapshot() == RemoveFavoriteIn(old(db.Snapshot()), store, customer, product)
    ensures !Favored(db.favorites, store, customer, product)
    ensures forall f :: f in db.favorites <==>
              f in old(db.favorites) && (old(db.favorites)[f].store != store ||
                                         old(db.favorites)[f].customer != customer ||
                                         old(db.favorites)[f].product != product)
    ensures forall f :: f in db.favorites ==> db.favorites[f] == old(db.favorites)[f]
  {
    db.favorites := RemoveFavoriteIn(db.Snapshot(), store, customer, product).favorites;
  }

  /** Favoriting twice is favoriting once. */
  lemma {:induction false} AddTwice(t: Tables, store: Id, customer: Id, product: Id, id: Id, now: Time, id': Id,
                                    now': Time)
    requires Fresh(t, [id])
    ensures var once := AddFavoriteIn(t, store, id, customer, product, now);
            AddFavoriteIn(once, store, id', customer, product, now') == once
  {
    var once := AddFavoriteIn(t, store, id, customer, product, now);
    if once != t {
      NewlyFavored(once.favorites, id);
    }
  }

  /** Removing takes back exactly what adding put there; only the row id stays used up. */
  lemma {:induction false} RemoveUndoesAdd(t: Tables, store: Id, customer: Id, product: Id, id: Id, now: Time)
    requires Coherent(t) && !Favored(t.favorites, store, customer, product)
    ensures var added := AddFavoriteIn(t, store, id, customer, product, now);
            RemoveFavoriteIn(added, store, customer, product) == t.(issued := added.issued)
  {
    hide CatalogOk, ActivityOk;
    var added := AddFavoriteIn(t, store, id, customer, product, now);
    assert id in [id];
    assert RemoveFavoriteIn(added, store, customer, product).favorites == t.favorites;
  }

  // ----- the list -----

  /** The rows of products joined with favorites that pass the filter, which does not look at the product's store. */
  function FavoriteRows(t: Tables, store: Id, customer: Id): set<(Id, Id)> {
    set f | f in t.favorites && t.favorites[f].customer == customer && t.favorites[f].store == store &&
            t.favorites[f].product in t.products && t.products[t.favorites[f].product].visible
          :: (t.favorites[f].product, f)
  }

  predicate ShownFavorite(t: Tables, store: Id, customer: Id, product: Id) {
    Shown(t, store, product) && Favored(t.favorites, store, customer, product)
  }

  predicate Listed(t: Tables, store: Id, customer: Id, product: Id) {
    exists row :: row in FavoriteRows(t, store, customer) && row.0 == product
  }

  predicate OncePerProduct(rows: set<(Id, Id)>) {
    forall r, s :: r in rows && s in rows && r.0 == s.0 ==> r == s
  }

  /** The join yields the store's own visible favorited products, each in exactly one row. */
  lemma {:induction false} FavoriteProducts(t: Tables, store: Id, customer: Id)
    requires Coherent(t)
    ensures forall p: Id :: ShownFavorite(t, store, customer, p) <==> Listed(t, store, customer, p)
    ensures OncePerProduct(FavoriteRows(t, store, customer))
  {
    hide CatalogOk, OrdersOk, ItemsOk, SubscriptionsOk;
    forall p: Id | ShownFavorite(t, store, customer, p) ensures Listed(t, store, customer, p) {
      var f :| f in t.favorites && t.favorites[f].store == store && t.favorites[f].customer == customer &&
               t.favorites[f].product == p;
      assert (p, f) in FavoriteRows(t, store, customer);
    }
    forall r, s | r in FavoriteRows(t, store, customer) && s in FavoriteRows(t, store, customer) && r.0 == s.0
      ensures r == s
    {
      assert SameFavorite(t.favorites[r.1], t.favorites[s.1]);
    }
  }

  /** Newest favorite first. */
  function NewestFavorite(favorites: map<Id, Favorite>): Rank {
    f => (if f in favorites then -favorites[f].createdAt else 0, 0, 0)
  }

  function FavoritesShown(t: Tables, store: Id, customer: Id): set<Id> {
    set row | row in FavoriteRows(t, store, customer) :: row.1
  }

  function ProductsFavored(favorites: map<Id, Favorite>, list: seq<Id>): seq<Id>
    requires forall f :: f in list ==> f in favorites
  {
    seq(|list|, i requires 0 <= i < |list| => favorites[list[i]].product)
  }

  /** The visible products a customer has favorited at a store, in the order the customer sees them. */
  function FavoriteList(t: Tables, store: Id, customer: Id): seq<Id> {
    var list := Arranged(NewestFavorite(t.favorites), FavoritesShown(t, store, customer));
    ArrangedRows(NewestFavorite(t.favorites), FavoritesShown(t, store, customer));
    assert forall f :: f in list ==> f in ToSet(list);
    ProductsFavored(t.favorites, list)
  }

  /** When a customer favorited what. */
  predicate FavoredAt(favorites: map<Id, Favorite>, store: Id, customer: Id, product: Id, at: Time) {
    exists f :: f in favorites && favorites[f] == Favorite(store, customer, product, at)
  }

  /** Each visible product the customer favorited is listed exactly once, and none that was favorited earlier comes
      before one that was favorited later. */
  lemma {:induction false} FavoriteOrder(t: Tables, store: Id, customer: Id)
    requires Coherent(t)
    ensures var list := FavoriteList(t, store, customer);
            && Distinct(list) && (forall p :: p in list <==> ShownFavorite(t, store, customer, p))
            && forall i, j, a, b :: (0 <= i < j < |list| && FavoredAt(t.favorites, store, customer, list[i], a) &&
                                     FavoredAt(t.favorites, store, customer, list[j], b)) ==> a >= b
  {
    hide Coherent, ShownFavorite, Arranged, FavoritesShown, FavoriteList, FavoredAt;
    var rank := NewestFavorite(t.favorites);
    var ids := Arranged(rank, FavoritesShown(t, store, customer));
    ArrangedExactly(rank, FavoritesShown(t, store, customer));
    var list := FavoriteList(t, store, customer);
    ListEntries(t, store, customer);
    forall p ensures p in list <==> ShownFavorite(t, store, customer, p) {
      ListedIsShown(t, store, customer, p);
    }
    forall i, j | 0 <= i < j < |list| ensures list[i] != list[j] {
      OneFavorite(t, store, customer, ids[i], ids[j]);
    }
    forall i, j, a, b | (0 <= i < j < |list| && FavoredAt(t.favorites, store, customer, list[i], a) &&
                         FavoredAt(t.favorites, store, customer, list[j], b)) ensures a >= b {
      DatedOnce(t, store, customer, ids[i], a);
      DatedOnce(t, store, customer, ids[j], b);
      assert Before(rank, ids[i], ids[j]);
    }
  }

  /** The favorite behind each entry of the list. */
  ghost predicate FavoriteAt(t: Tables, store: Id, customer: Id, f: Id) {
    f in t.favorites && t.favorites[f].store == store && t.favorites[f].customer == customer
  }

  lemma {:induction false} ListEntries(t: Tables, store: Id, customer: Id)
    ensures var ids := Arranged(NewestFavorite(t.favorites), FavoritesShown(t, store, customer));
            var list := FavoriteList(t, store, customer);
            |list| == |ids| && forall i :: 0 <= i < |ids| ==>
              FavoriteAt(t, store, customer, ids[i]) && list[i] == t.favorites[ids[i]].product
  {
    hide Arranged;
    var rows := FavoritesShown(t, store, customer);
    var ids := Arranged(NewestFavorite(t.favorites), rows);
    ArrangedRows(NewestFavorite(t.favorites), rows);
    forall i | 0 <= i < |ids| ensures FavoriteAt(t, store, customer, ids[i]) {
      assert ids[i] in ToSet(ids);
    }
  }

  lemma {:induction false} OneFavorite(t: Tables, store: Id, customer: Id, f: Id, g: Id)
    requires Coherent(t) && FavoriteAt(t, store, customer, f) && FavoriteAt(t, store, customer, g)
    ensures t.favorites[f].product == t.favorites[g].product ==> f == g
  {
    hide CatalogOk, OrdersOk, ItemsOk, SubscriptionsOk;
    assert t.favorites[f].product == t.favorites[g].product ==> SameFavorite(t.favorites[f], t.favorites[g]);
  }

  lemma {:induction false} DatedOnce(t: Tables, store: Id, customer: Id, f: Id, at: Time)
    requires Coherent(t) && FavoriteAt(t, store, customer, f)
    requires FavoredAt(t.favorites, store, customer, t.favorites[f].product, at)
    ensures at == t.favorites[f].createdAt
  {
    hide Coherent;
    var g :| g in t.favorites && t.favorites[g] == Favorite(store, customer, t.favorites[f].product, at);
    OneFavorite(t, store, customer, f, g);
  }

  lemma {:induction false} ListedIsShown(t: Tables, store: Id, customer: Id, p: Id)
    requires Coherent(t)
    ensures p in FavoriteList(t, store, customer) <==> ShownFavorite(t, store, customer, p)
  {
    hide Coherent, Arranged, ShownFavorite, Listed;
    var rows, rank := FavoritesShown(t, store, customer), NewestFavorite(t.favorites);
    var ids := Arranged(rank, rows);
    ArrangedExactly(rank, rows);
    assert forall f :: f in ids <==> f in ToSet(ids);
    FavoriteProducts(t, store, customer);
    ListedRow(t, store, customer, p);
    if Listed(t, store, customer, p) {
      var f :| (p, f) in FavoriteRows(t, store, customer);
      assert f in rows;
      var i :| 0 <= i < |ids| && ids[i] == f;
      assert FavoriteList(t, store, customer)[i] == p;
    }
    if p in FavoriteList(t, store, customer) {
      var i :| 0 <= i < |ids| && FavoriteList(t, store, customer)[i] == p;
      assert ids[i] in rows;
      assert (p, ids[i]) in FavoriteRows(t, store, customer);
    }
  }

  lemma ListedRow(t: Tables, store: Id, customer: Id, p: Id)
    ensures Listed(t, store, customer, p) <==> exists f: Id :: (p, f) in FavoriteRows(t, store, customer)
  {
    if row :| row in FavoriteRows(t, store, customer) && row.0 == p {
      assert (p, row.1) in FavoriteRows(t, store, customer);
    }
    if f: Id :| (p, f) in FavoriteRows(t, store, customer) {
      assert (p, f).0 == p;
    }
  }

  /** Though the filter never mentions the product's store, the list reads that store's rows only. */
  lemma {:induction false} FavoritesAtHome(t: Tables, store: Id, customer: Id)
    requires FavoritesOk(t.favorites, t.products)
    ensures FavoriteRows(t, store, customer) == FavoriteRows(View(t, store), store, customer)
  {
    hide SameFavorite;
    var h := View(t, store);
    forall row ensures row in FavoriteRows(t, store, customer) <==> row in FavoriteRows(h, store, customer) {
      assert row.1 in t.favorites && t.favorites[row.1].store == store ==> row.1 in h.favorites;
    }
  }
}
