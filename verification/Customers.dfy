/** The customers an admin may see (apps/boutiques/selectors.py, `store_customers`): users left-joined with all their
    orders and all their favorites, filtered, grouped by user, counted with DISTINCT. */
module Customers {
  import opened Basics
  import opened Ordering
  import opened Schema
  import opened Texts
  import opened Isolation

  /** One row of the join; a missing side is NULL. */
  datatype Row = Row(user: Id, order: Option<Id>, favorite: Option<Id>)

  function OrdersBy(orders: map<Id, Order>, user: Id): set<Option<Id>> {
    set o | o in orders && orders[o].customer == user :: Some(o)
  }

  function FavoritesBy(favorites: map<Id, Favorite>, user: Id): set<Option<Id>> {
    set f | f in favorites && favorites[f].customer == user :: Some(f)
  }

  /** A LEFT JOIN never drops the row on its left. */
  function LeftJoin(side: set<Option<Id>>): set<Option<Id>> {
    if side == {} then {None} else side
  }

  predicate OrderAt(t: Tables, store: Id, order: Option<Id>) {
    order.Some? && order.value in t.orders && t.orders[order.value].store == store
  }

  predicate FavoriteAt(t: Tables, store: Id, favorite: Option<Id>) {
    favorite.Some? && favorite.value in t.favorites && t.favorites[favorite.value].store == store
  }

  /** The fan-out: every order of a user next to every favorite of that user, at whichever store they are. */
  function Joined(t: Tables, users: set<Id>): set<Row> {
    set u, o, f | u in users && o in LeftJoin(OrdersBy(t.orders, u)) && f in LeftJoin(FavoritesBy(t.favorites, u)) ::
      Row(u, o, f)
  }

  function Active(t: Tables, users: set<Id>, store: Id): set<Row> {
    set row | row in Joined(t, users) && (OrderAt(t, store, row.order) || FavoriteAt(t, store, row.favorite))
  }

  /** GROUP BY user. */
  function StoreCustomers(t: Tables, users: set<Id>, store: Id): set<Id> {
    set row | row in Active(t, users, store) :: row.user
  }

  function CountedOrders(t: Tables, users: set<Id>, store: Id, user: Id): set<Option<Id>> {
    set row | row in Active(t, users, store) && row.user == user && OrderAt(t, store, row.order) :: row.order
  }

  function CountedFavorites(t: Tables, users: set<Id>, store: Id, user: Id): set<Option<Id>> {
    set row | row in Active(t, users, store) && row.user == user && FavoriteAt(t, store, row.favorite) :: row.favorite
  }

  // ----- the plain meaning -----

  function OwnOrders(t: Tables, store: Id, user: Id): set<Id> {
    set o | o in t.orders && t.orders[o].store == store && t.orders[o].customer == user
  }

  function OwnFavorites(t: Tables, store: Id, user: Id): set<Id> {
    set f | f in t.favorites && t.favorites[f].store == store && t.favorites[f].customer == user
  }

  lemma {:induction false} LeftSideStays(side: set<Option<Id>>)
    ensures exists x :: x in LeftJoin(side)
    ensures side <= LeftJoin(side)
  {
    if side == {} {
      assert None in LeftJoin(side);
    } else {
      var x :| x in side;
      assert x in LeftJoin(side);
    }
  }

  lemma {:induction false} CountedAreOwn(t: Tables, users: set<Id>, store: Id, user: Id)
    requires user in users
    ensures CountedOrders(t, users, store, user) == Wrapped(OwnOrders(t, store, user))
    ensures CountedFavorites(t, users, store, user) == Wrapped(OwnFavorites(t, store, user))
  {
    hide LeftJoin;
    LeftSideStays(OrdersBy(t.orders, user));
    LeftSideStays(FavoritesBy(t.favorites, user));
    forall o | o in OwnOrders(t, store, user) ensures Some(o) in CountedOrders(t, users, store, user) {
      var f :| f in LeftJoin(FavoritesBy(t.favorites, user));
      assert Some(o) in OrdersBy(t.orders, user);
      assert Row(user, Some(o), f) in Active(t, users, store);
    }
    forall f | f in OwnFavorites(t, store, user) ensures Some(f) in CountedFavorites(t, users, store, user) {
      var o :| o in LeftJoin(OrdersBy(t.orders, user));
      assert Some(f) in FavoritesBy(t.favorites, user);
      assert Row(user, o, Some(f)) in Active(t, users, store);
    }
    SidesAreOwn(t, users, store, user);
  }

  lemma {:induction false} SidesAreOwn(t: Tables, users: set<Id>, store: Id, user: Id)
    ensures CountedOrders(t, users, store, user) <= Wrapped(OwnOrders(t, store, user))
    ensures CountedFavorites(t, users, store, user) <= Wrapped(OwnFavorites(t, store, user))
  {
  }

  /** Exactly the users with activity at the store appear, whether they only ordered, only favorited, or both, and each
      count is that user's own number of rows there: the fan-out between orders and favorites cancels out. */
  lemma {:induction false} CustomersAndCounts(t: Tables, users: set<Id>, store: Id, user: Id)
    ensures user in StoreCustomers(t, users, store) <==>
            user in users && (OwnOrders(t, store, user) != {} || OwnFavorites(t, store, user) != {})
    ensures user in users ==>
              |CountedOrders(t, users, store, user)| == |OwnOrders(t, store, user)| &&
              |CountedFavorites(t, users, store, user)| == |OwnFavorites(t, store, user)|
  {
    hide Active, OwnOrders, OwnFavorites;
    ActiveRows(t, users, store, user);
    if user in users {
      CountedAreOwn(t, users, store, user);
      WrappedSize(OwnOrders(t, store, user));
      WrappedSize(OwnFavorites(t, store, user));
    }
  }

  lemma {:induction false} ActiveRows(t: Tables, users: set<Id>, store: Id, user: Id)
    ensures user in StoreCustomers(t, users, store) <==>
            CountedOrders(t, users, store, user) != {} || CountedFavorites(t, users, store, user) != {}
    ensures user in StoreCustomers(t, users, store) ==> user in users
  {
    hide Joined, OrderAt, FavoriteAt;
    if user in StoreCustomers(t, users, store) {
      var row :| row in Active(t, users, store) && row.user == user;
      assert OrderAt(t, store, row.order) ==> row.order in CountedOrders(t, users, store, user);
      assert FavoriteAt(t, store, row.favorite) ==> row.favorite in CountedFavorites(t, users, store, user);
      JoinedUsers(t, users, row);
    }
  }

  lemma JoinedUsers(t: Tables, users: set<Id>, row: Row)
    requires row in Joined(t, users)
    ensures row.user in users
  {
  }

  // ----- nothing is lost between the customers -----

  function OrdersAmong(t: Tables, store: Id, users: set<Id>): set<Id> {
    set o | o in t.orders && t.orders[o].store == store && t.orders[o].customer in users
  }

  ghost function OrderCounts(t: Tables, users: set<Id>, store: Id): map<Id, int> {
    map u | u in users :: |CountedOrders(t, users, store, u)|
  }

  lemma {:induction false} CountsAmong(t: Tables, users: set<Id>, store: Id, some: set<Id>)
    requires some <= users
    ensures Sum(OrderCounts(t, users, store), some) == |OrdersAmong(t, store, some)|
    decreases |some|
  {
    hide CountedOrders, OwnOrders, OwnFavorites, StoreCustomers, OrdersAmong;
    if some == {} {
      NoneAmong(t, store);
    } else {
      var u :| u in some;
      SumSplit(OrderCounts(t, users, store), some, u);
      CountsAmong(t, users, store, some - {u});
      CustomersAndCounts(t, users, store, u);
      PeelCustomer(t, store, some, u);
    }
  }

  lemma NoneAmong(t: Tables, store: Id)
    ensures OrdersAmong(t, store, {}) == {}
  {
  }

  lemma {:induction false} PeelCustomer(t: Tables, store: Id, some: set<Id>, u: Id)
    requires u in some
    ensures |OrdersAmong(t, store, some)| == |OwnOrders(t, store, u)| + |OrdersAmong(t, store, some - {u})|
  {
    assert OrdersAmong(t, store, some) == OwnOrders(t, store, u) + OrdersAmong(t, store, some - {u});
    assert OwnOrders(t, store, u) !! OrdersAmong(t, store, some - {u});
  }

  /** The order counts of the listed customers add up to the store's orders. */
  lemma {:induction false} CountsAddUp(t: Tables, users: set<Id>, store: Id)
    requires forall o :: o in t.orders ==> t.orders[o].customer in users
    ensures StoreCustomers(t, users, store) <= users
    ensures Sum(OrderCounts(t, users, store), StoreCustomers(t, users, store)) ==
            |set o | o in t.orders && t.orders[o].store == store|
  {
    hide StoreCustomers, CountedOrders;
    forall u ensures u in StoreCustomers(t, users, store) ==> u in users {
      ActiveRows(t, users, store, u);
    }
    CountsAmong(t, users, store, StoreCustomers(t, users, store));
    forall o | o in t.orders && t.orders[o].store == store
      ensures t.orders[o].customer in StoreCustomers(t, users, store)
    {
      CustomersAndCounts(t, users, store, t.orders[o].customer);
      assert o in OwnOrders(t, store, t.orders[o].customer);
    }
    assert OrdersAmong(t, store, StoreCustomers(t, users, store)) ==
           set o | o in t.orders && t.orders[o].store == store;
  }

  /** Listed by name, each once. */
  lemma {:induction false} CustomerList(t: Tables, users: map<Id, string>, text: Text, store: Id)
    ensures var list := Arranged(ByName(users, text), StoreCustomers(t, users.Keys, store));
            ToSet(list) == StoreCustomers(t, users.Keys, store) && Distinct(list) &&
            forall i, j :: 0 <= i < j < |list| ==>
              list[i] in users && list[j] in users && text.place(users[list[i]]) <= text.place(users[list[j]])
  {
    hide StoreCustomers;
    var rank, rows := ByName(users, text), StoreCustomers(t, users.Keys, store);
    var list := Arranged(rank, rows);
    ArrangedExactly(rank, rows);
    forall i, j | 0 <= i < j < |list|
      ensures list[i] in users && list[j] in users && text.place(users[list[i]]) <= text.place(users[list[j]])
    {
      assert list[i] in ToSet(list) && list[j] in ToSet(list);
      ActiveRows(t, users.Keys, store, list[i]);
      ActiveRows(t, users.Keys, store, list[j]);
      assert Before(rank, list[i], list[j]);
    }
  }

  function ByName(users: map<Id, string>, text: Text): Rank {
    u => (if u in users then text.place(users[u]) else 0, 0, 0)
  }

  /** Another store's activity never shows: the answer is that of the store's own rows. */
  lemma {:induction false} CustomersAtHome(t: Tables, users: set<Id>, store: Id)
    ensures StoreCustomers(t, users, store) == StoreCustomers(View(t, store), users, store)
    ensures forall u :: u in users ==>
              |CountedOrders(t, users, store, u)| == |CountedOrders(View(t, store), users, store, u)| &&
              |CountedFavorites(t, users, store, u)| == |CountedFavorites(View(t, store), users, store, u)|
  {
    hide StoreCustomers, CountedOrders, CountedFavorites;
    var h := View(t, store);
    forall u ensures u in StoreCustomers(t, users, store) <==> u in StoreCustomers(h, users, store)
             ensures u in users ==> |CountedOrders(t, users, store, u)| == |CountedOrders(h, users, store, u)| &&
                                    |CountedFavorites(t, users, store, u)| == |CountedFavorites(h, users, store, u)|
    {
      CustomersAndCounts(t, users, store, u);
      CustomersAndCounts(h, users, store, u);
      assert OwnOrders(t, store, u) == OwnOrders(h, store, u);
      assert OwnFavorites(t, store, u) == OwnFavorites(h, store, u);
    }
  }
}
