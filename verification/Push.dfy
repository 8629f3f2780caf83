/** Web push (apps/push/services.py): the subscription table and the loops that send and prune. The network call is
    any function from a subscription to an outcome. */
module Push {
  import opened Basics
  import opened Ordering
  import opened Schema
  import opened Catalog
  import opened Writes
  import opened Coherence
  import opened Databases

  /** What `webpush` does: it returns, raises WebPushException with or without a response, or raises anything else. */
  datatype Delivery = Delivered | Rejected(status: Option<int>) | Uncaught

  predicate Dead(delivery: Delivery) {
    delivery.Rejected? && (delivery.status == Some(404) || delivery.status == Some(410))
  }

  // ----- rows and their ids -----

  /** An id that was read in a store: whatever subscription it names now is that store's. */
  predicate Pinned(t: Tables, store: Id, s: Id) {
    s in t.issued && (s in t.subscriptions ==> t.subscriptions[s].store == store)
  }

  /** A row that was deleted; no id is handed out twice. */
  predicate Absent(t: Tables, s: Id) {
    s in t.issued && s !in t.subscriptions
  }

  function RowFor(w: Write): Subscription
    requires w.Subscribe?
  {
    Subscription(w.store, w.user, w.endpoint, w.p256dh, w.auth)
  }

  lemma RegisteringCases(t: Tables, w: Write)
    requires w.Subscribe?
    ensures var found := Registrations(t.subscriptions, w.store, w.endpoint);
            Apply(t, w) ==
            (if found != {} then t.(subscriptions := t.subscriptions[Least(found) := RowFor(w)])
             else if Fresh(t, [w.id])
             then t.(subscriptions := t.subscriptions[w.id := RowFor(w)], issued := t.issued + {w.id})
             else t)
  {
    hide Fresh, Registrations, Least;
  }

  lemma RegisteringRows(t: Tables, w: Write)
    requires w.Subscribe?
    ensures var found := Registrations(t.subscriptions, w.store, w.endpoint);
            && (found != {} ==> Apply(t, w).subscriptions == t.subscriptions[Least(found) := RowFor(w)])
            && (found == {} && Fresh(t, [w.id]) ==> Apply(t, w).subscriptions == t.subscriptions[w.id := RowFor(w)])
            && (found == {} && !Fresh(t, [w.id]) ==> Apply(t, w).subscriptions == t.subscriptions)
  {
    hide Apply, Registrations, Least, Fresh;
    RegisteringCases(t, w);
  }

  /** A registration renews the browser's row, adds a row under a fresh id, or is refused for its id. */
  lemma {:induction false} Registering(t: Tables, w: Write) returns (changed: bool, key: Id)
    requires w.Subscribe?
    ensures !changed ==> Apply(t, w) == t
    ensures changed ==> Apply(t, w).subscriptions == t.subscriptions[key := RowFor(w)]
    ensures changed ==> (key in t.subscriptions && SameBrowser(t.subscriptions[key], RowFor(w)) &&
                         Apply(t, w).issued == t.issued) ||
                        (Registrations(t.subscriptions, w.store, w.endpoint) == {} && key !in t.issued &&
                         Apply(t, w).issued == t.issued + {key})
  {
    hide Apply, Fresh, Registrations;
    RegisteringCases(t, w);
    var found := Registrations(t.subscriptions, w.store, w.endpoint);
    if found != {} {
      changed, key := true, Least(found);
      RegistrationIs(t.subscriptions, w.store, w.endpoint, key);
    } else {
      changed, key := Fresh(t, [w.id]), w.id;
      FreshId(t, w.id);
    }
  }

  lemma RegistrationIs(m: map<Id, Subscription>, store: Id, endpoint: string, s: Id)
    requires s in Registrations(m, store, endpoint)
    ensures s in m && m[s].store == store && m[s].endpoint == endpoint
  {
  }

  lemma FreshId(t: Tables, id: Id)
    ensures Fresh(t, [id]) ==> id !in t.issued
  {
    assert id in [id];
  }

  lemma {:induction false} RegisteringPins(t: Tables, w: Write, store: Id, s: Id)
    requires w.Subscribe?
    ensures Pinned(t, store, s) ==> Pinned(Apply(t, w), store, s)
    ensures Absent(t, s) ==> Absent(Apply(t, w), s)
  {
    hide Apply, Registrations;
    var changed, key := Registering(t, w);
  }

  lemma {:induction false} WritePins(t: Tables, w: Write, store: Id, s: Id)
    ensures Pinned(t, store, s) ==> Pinned(Apply(t, w), store, s)
    ensures Absent(t, s) ==> Absent(Apply(t, w), s)
  {
    hide Apply, Registrations;
    IdsGrow(t, w);
    match w
    case Subscribe(_, _, _, _, _, _) => RegisteringPins(t, w, store, s);
    case Unsubscribe(_, _, _) => LeavingPins(t, w);
    case Prune(_, _) => LeavingPins(t, w);
    case _ => OtherWritesKeepSubscriptions(t, w);
  }

  lemma {:induction false} LeavingPins(t: Tables, w: Write)
    requires w.Unsubscribe? || w.Prune?
    ensures forall s :: s in Apply(t, w).subscriptions ==>
              s in t.subscriptions && Apply(t, w).subscriptions[s] == t.subscriptions[s]
  {
  }

  lemma {:induction false} IdsGrow(t: Tables, w: Write)
    ensures t.issued <= Apply(t, w).issued
  {
    hide CreateCategoryIn, CreateProductIn, UpdateProductIn, PublishOrderIn, SetStatusIn, AddFavoriteIn,
      RemoveFavoriteIn, SubscribeIn, UnsubscribeIn, PruneIn, ImagesLess, GroupsLess, ChoicesLess, FavoritesLess,
      Unlinked;
  }

  lemma {:induction false} WritesPin(t: Tables, ws: seq<Write>, store: Id, s: Id)
    ensures Pinned(t, store, s) ==> Pinned(ApplyAll(t, ws), store, s)
    ensures Absent(t, s) ==> Absent(ApplyAll(t, ws), s)
  {
    hide Apply, Pinned, Absent;
    if ws != [] {
      WritesPin(t, ws[..|ws| - 1], store, s);
      WritePins(ApplyAll(t, ws[..|ws| - 1]), ws[|ws| - 1], store, s);
    }
  }

  /** Deleting by primary key is the store's own prune. */
  lemma PruneById(t: Tables, store: Id, s: Id)
    requires Pinned(t, store, s)
    ensures Apply(t, Prune(store, s)) == t.(subscriptions := t.subscriptions - {s})
  {
    assert s !in t.subscriptions ==> t.subscriptions - {s} == t.subscriptions;
  }

  // ----- sending -----

  function Gone(tried: seq<Id>, deliver: Id -> Delivery): set<Id> {
    set s | s in tried && Dead(deliver(s))
  }

  function Pruned(store: Id, s: Id, delivery: Delivery): seq<Write> {
    if Dead(delivery) then [Prune(store, s)] else []
  }

  /** A push loop as a list of writes: `rounds[i]` is what other requests wrote before the i-th send. */
  function Sent(store: Id, tried: seq<Id>, deliver: Id -> Delivery, rounds: seq<seq<Write>>): seq<Write>
    requires |rounds| == |tried|
  {
    if tried == [] then [] else
      var last := |tried| - 1;
      Sent(store, tried[..last], deliver, rounds[..last]) + rounds[last] +
        Pruned(store, tried[last], deliver(tried[last]))
  }

  function Flat(rounds: seq<seq<Write>>): seq<Write> {
    if rounds == [] then [] else Flat(rounds[..|rounds| - 1]) + rounds[|rounds| - 1]
  }

  /** Between the two moments the loop sent to `tried` and other requests wrote what `rounds` says, nothing else. */
  ghost predicate Pushed(a: Moment, b: Moment, store: Id, tried: seq<Id>, deliver: Id -> Delivery,
                         rounds: seq<seq<Write>>) {
    && |rounds| == |tried|
    && b.tables == ApplyAll(a.tables, Sent(store, tried, deliver, rounds))
    && b.landed == a.landed + Flat(rounds) && a.rivals == Flat(rounds) + b.rivals
  }

  lemma PushedNothing(a: Moment, store: Id, deliver: Id -> Delivery)
    ensures Pushed(a, a, store, [], deliver, [])
  {
  }

  lemma {:induction false} PushOneMore(a: Moment, b: Moment, c: Moment, d: Moment, store: Id, tried: seq<Id>,
                                       deliver: Id -> Delivery, rounds: seq<seq<Write>>, s: Id)
    requires Pushed(a, b, store, tried, deliver, rounds) && Ran(b, c)
    requires d == c.(tables := ApplyAll(c.tables, Pruned(store, s, deliver(s))))
    ensures Pushed(a, d, store, tried + [s], deliver, rounds + [Between(b, c)])
  {
    hide Apply, Pruned, ApplyAll;
    var more, all := rounds + [Between(b, c)], tried + [s];
    assert more[..|rounds|] == rounds && all[..|tried|] == tried;
    var sent := Sent(store, tried, deliver, rounds);
    ApplyAllConcat(a.tables, sent, Between(b, c));
    ApplyAllConcat(a.tables, sent + Between(b, c), Pruned(store, s, deliver(s)));
    assert Flat(more) == Flat(rounds) + Between(b, c);
    assert a.landed + Flat(rounds) + Between(b, c) == a.landed + (Flat(rounds) + Between(b, c));
    assert Flat(rounds) + (Between(b, c) + c.rivals) == Flat(rounds) + Between(b, c) + c.rivals;
  }

  ghost predicate AllPinned(t: Tables, store: Id, list: seq<Id>) {
    forall s :: s in list ==> Pinned(t, store, s)
  }

  lemma {:induction false} ListStaysPinned(a: Moment, b: Moment, c: Moment, store: Id, tried: seq<Id>,
                                           deliver: Id -> Delivery, rounds: seq<seq<Write>>, list: seq<Id>)
    requires AllPinned(a.tables, store, list) && Pushed(a, b, store, tried, deliver, rounds) && Ran(b, c)
    ensures AllPinned(c.tables, store, list)
  {
    hide Pinned, Absent, ApplyAll, Sent;
    forall s | s in list ensures Pinned(c.tables, store, s) {
      WritesPin(a.tables, Sent(store, tried, deliver, rounds), store, s);
      WritesPin(b.tables, Between(b, c), store, s);
    }
  }

  /** Delivers one push, deleting the row of a browser that has dropped it. */
  method Send(db: Database, ghost store: Id, subscription: Id, delivery: Delivery) returns (raised: bool)
    requires Pinned(db.Snapshot(), store, subscription)
    modifies db`subscriptions
    ensures raised <==> delivery.Uncaught?
    ensures db.Snapshot() == ApplyAll(old(db.Snapshot()), Pruned(store, subscription, delivery))
  {
    hide Pinned, Apply;
    PruneById(db.Snapshot(), store, subscription);
    OneOrNone(db.Snapshot(), store, subscription, delivery);
    match delivery
    case Delivered => return false;
    case Uncaught => return true;
    case Rejected(status) =>
      if status == Some(404) || status == Some(410) {
        db.subscriptions := db.subscriptions - {subscription};
      }
      return false;
  }

  lemma OneOrNone(t: Tables, store: Id, s: Id, delivery: Delivery)
    ensures ApplyAll(t, Pruned(store, s, delivery)) == if Dead(delivery) then Apply(t, Prune(store, s)) else t
  {
    hide Apply;
    assert [Prune(store, s)][..0] == [];
  }

  /** The loop over a materialised list. Other requests run before every send; it stops at the first uncaught error. */
  method SendEach(db: Database, ghost store: Id, list: seq<Id>, deliver: Id -> Delivery)
    returns (tried: seq<Id>, raised: bool, ghost rounds: seq<seq<Write>>)
    requires AllPinned(db.Snapshot(), store, list)
    modifies db
    ensures tried <= list
    ensures !raised ==> tried == list && forall s :: s in list ==> !deliver(s).Uncaught?
    ensures raised ==> tried != [] && deliver(tried[|tried| - 1]).Uncaught? &&
                       forall s :: s in tried[..|tried| - 1] ==> !deliver(s).Uncaught?
    ensures Pushed(old(db.Now()), db.Now(), store, tried, deliver, rounds)
  {
    hide Pinned, Pushed, Ran, ApplyAll;
    ghost var start := db.Now();
    tried, rounds := [], [];
    PushedNothing(start, store, deliver);
    for i := 0 to |list|
      invariant tried == list[..i]
      invariant forall s :: s in list[..i] ==> !deliver(s).Uncaught?
      invariant Pushed(start, db.Now(), store, tried, deliver, rounds)
    {
      ghost var before := db.Now();
      db.Yield();
      ghost var later := db.Now();
      ListStaysPinned(start, before, later, store, tried, deliver, rounds, list);
      raised := Send(db, store, list[i], deliver(list[i]));
      PushOneMore(start, before, later, db.Now(), store, tried, deliver, rounds, list[i]);
      tried, rounds := tried + [list[i]], rounds + [Between(before, later)];
      assert tried == list[..i + 1];
      if raised {
        assert tried[..|tried| - 1] == list[..i];
        return;
      }
    }
    assert list[..|list|] == list;
    raised := false;
  }

  // ----- what a loop of sends comes to -----

  /** A row answered 404 or 410 is gone for good, whatever other requests do. */
  lemma {:induction false} DeadRowsGone(t: Tables, store: Id, tried: seq<Id>, deliver: Id -> Delivery,
                                        rounds: seq<seq<Write>>, s: Id)
    requires |rounds| == |tried| && Pinned(t, store, s) && s in Gone(tried, deliver)
    ensures Absent(ApplyAll(t, Sent(store, tried, deliver, rounds)), s)
  {
    hide Apply, ApplyAll, Pinned, Absent;
    var last := |tried| - 1;
    var sent, s' := Sent(store, tried[..last], deliver, rounds[..last]), tried[last];
    var written := sent + rounds[last];
    ApplyAllConcat(t, written, Pruned(store, s', deliver(s')));
    ApplyAllConcat(t, sent, rounds[last]);
    if s == s' {
      WritesPin(t, written, store, s);
      OneOrNone(ApplyAll(t, written), store, s, deliver(s));
      PruneLeaves(ApplyAll(t, written), store, s);
    } else {
      assert s in tried[..last];
      DeadRowsGone(t, store, tried[..last], deliver, rounds[..last], s);
      WritesPin(ApplyAll(t, sent), rounds[last], store, s);
      WritesPin(ApplyAll(t, written), Pruned(store, s', deliver(s')), store, s);
    }
  }

  lemma PruneLeaves(t: Tables, store: Id, s: Id)
    requires Pinned(t, store, s)
    ensures Absent(Apply(t, Prune(store, s)), s)
  {
    PruneById(t, store, s);
  }

  /** With nobody else writing, exactly the dead rows go. */
  lemma {:induction false} OnlyDeadRowsGo(t: Tables, store: Id, tried: seq<Id>, deliver: Id -> Delivery,
                                          rounds: seq<seq<Write>>)
    requires |rounds| == |tried| && Flat(rounds) == [] && AllPinned(t, store, tried)
    ensures ApplyAll(t, Sent(store, tried, deliver, rounds)) ==
            t.(subscriptions := t.subscriptions - Gone(tried, deliver))
  {
    hide Apply, ApplyAll, Pinned, Absent, Pruned, Gone, Sent, Flat;
    if tried == [] {
      NothingSent(t, store, deliver);
    } else {
      var last := |tried| - 1;
      var s, sent := tried[last], Sent(store, tried[..last], deliver, rounds[..last]);
      LastSent(store, tried, deliver, rounds);
      OnlyDeadRowsGo(t, store, tried[..last], deliver, rounds[..last]);
      ApplyAllConcat(t, sent, Pruned(store, s, deliver(s)));
      WritesPin(t, sent, store, s);
      OneOrNone(ApplyAll(t, sent), store, s, deliver(s));
      PruneById(ApplyAll(t, sent), store, s);
    }
  }

  lemma NothingSent(t: Tables, store: Id, deliver: Id -> Delivery)
    ensures ApplyAll(t, Sent(store, [], deliver, [])) == t
    ensures Gone([], deliver) == {}
    ensures t.subscriptions - {} == t.subscriptions
  {
  }

  lemma {:induction false} LastSent(store: Id, tried: seq<Id>, deliver: Id -> Delivery, rounds: seq<seq<Write>>)
    requires |rounds| == |tried| && tried != [] && Flat(rounds) == []
    ensures var last := |tried| - 1;
            var s := tried[last];
            && Flat(rounds[..last]) == []
            && Sent(store, tried, deliver, rounds) ==
               Sent(store, tried[..last], deliver, rounds[..last]) + Pruned(store, s, deliver(s))
            && Gone(tried, deliver) == Gone(tried[..last], deliver) + (if Dead(deliver(s)) then {s} else {})
  {
    hide Pruned;
    var last := |tried| - 1;
    assert Flat(rounds) == Flat(rounds[..last]) + rounds[last];
    assert Sent(store, tried[..last], deliver, rounds[..last]) + rounds[last] ==
           Sent(store, tried[..last], deliver, rounds[..last]);
    assert tried == tried[..last] + [tried[last]];
  }

  function StoreRows(m: map<Id, Subscription>, store: Id): set<Id> {
    set s | s in m && m[s].store == store
  }

  function CustomerRows(m: map<Id, Subscription>, store: Id, customer: Id): set<Id> {
    set s | s in m && m[s].store == store && m[s].user == customer
  }

  /** The rows tried and answered 404 or 410. */
  ghost predicate Refused(tried: seq<Id>, deliver: Id -> Delivery, s: Id) {
    s in tried && (deliver(s) == Rejected(Some(404)) || deliver(s) == Rejected(Some(410)))
  }

  /** What a whole loop over the rows found at one moment guarantees at its end: no row is tried twice; without an
      uncaught error every row is tried; a row answered 404 or 410 is gone for good; every other change of the tables
      is another request's write, and with none of those exactly the rows so answered go. */
  ghost predicate PushedTo(rows: set<Id>, a: Moment, b: Moment, store: Id, tried: seq<Id>, raised: bool,
                           deliver: Id -> Delivery, rounds: seq<seq<Write>>) {
    && Distinct(tried) && ToSet(tried) <= rows && (!raised ==> ToSet(tried) == rows)
    && (raised <==> exists s :: s in tried && deliver(s).Uncaught?)
    && Pushed(a, b, store, tried, deliver, rounds)
    && (forall s :: Refused(tried, deliver, s) ==> s !in b.tables.subscriptions)
    && (a.rivals == [] ==>
         && b.tables == a.tables.(subscriptions := b.tables.subscriptions)
         && (forall s :: s in b.tables.subscriptions <==>
                         s in a.tables.subscriptions && !Refused(tried, deliver, s))
         && (forall s :: s in b.tables.subscriptions ==> b.tables.subscriptions[s] == a.tables.subscriptions[s]))
  }

  lemma {:induction false} LoopPushed(rows: set<Id>, a: Moment, b: Moment, store: Id, list: seq<Id>, tried: seq<Id>,
                                      raised: bool, deliver: Id -> Delivery, rounds: seq<seq<Write>>)
    requires ToSet(list) == rows && Distinct(list) && AllPinned(a.tables, store, list) && tried <= list
    requires !raised ==> tried == list && forall s :: s in list ==> !deliver(s).Uncaught?
    requires raised ==> tried != [] && deliver(tried[|tried| - 1]).Uncaught?
    requires Pushed(a, b, store, tried, deliver, rounds)
    ensures PushedTo(rows, a, b, store, tried, raised, deliver, rounds)
  {
    hide Pinned, Apply, ApplyAll, Sent;
    assert forall s :: s in tried ==> s in list;
    assert forall s :: s in list ==> s in ToSet(list);
    if raised {
      assert tried[|tried| - 1] in tried;
    }
    forall s | Refused(tried, deliver, s) ensures s !in b.tables.subscriptions {
      DeadRowsGone(a.tables, store, tried, deliver, rounds, s);
    }
    if a.rivals == [] {
      assert Flat(rounds) == [];
      OnlyDeadRowsGo(a.tables, store, tried, deliver, rounds);
    }
  }

  /** Announces a new arrival to every subscriber of a store. `rank` is the order the database lists them in. */
  method BroadcastNewArrival(db: Database, store: Id, rank: Rank, deliver: Id -> Delivery)
    returns (tried: seq<Id>, raised: bool, ghost rounds: seq<seq<Write>>)
    requires db.subscriptions.Keys <= db.issued
    modifies db
    ensures var m := old(db.subscriptions);
            var rows := set s | s in m && m[s].store == store;
            PushedTo(rows, old(db.Now()), db.Now(), store, tried, raised, deliver, rounds)
  {
    hide PushedTo, Pushed, ApplyAll;
    ghost var start := db.Now();
    var rows := StoreRows(db.subscriptions, store);
    var list := Arranged(rank, rows);
    ArrangedExactly(rank, rows);
    assert forall s :: s in list ==> s in ToSet(list);
    tried, raised, rounds := SendEach(db, store, list, deliver);
    LoopPushed(rows, start, db.Now(), store, list, tried, raised, deliver, rounds);
  }

  /** Tells one customer that an order moved; other customers' rows are never tried. */
  method NotifyOrderStatus(db: Database, store: Id, customer: Id, rank: Rank, deliver: Id -> Delivery)
    returns (tried: seq<Id>, raised: bool, ghost rounds: seq<seq<Write>>)
    requires db.subscriptions.Keys <= db.issued
    modifies db
    ensures var m := old(db.subscriptions);
            var rows := set s | s in m && m[s].store == store && m[s].user == customer;
            PushedTo(rows, old(db.Now()), db.Now(), store, tried, raised, deliver, rounds)
  {
    hide PushedTo, Pushed, ApplyAll;
    ghost var start := db.Now();
    var rows := CustomerRows(db.subscriptions, store, customer);
    var list := Arranged(rank, rows);
    ArrangedExactly(rank, rows);
    assert forall s :: s in list ==> s in ToSet(list);
    tried, raised, rounds := SendEach(db, store, list, deliver);
    LoopPushed(rows, start, db.Now(), store, list, tried, raised, deliver, rounds);
  }

  /** Moves an order to a new status, then pushes to the customer's subscriptions as they are by then, at `listed`. The
      status is saved first and stays saved even when the push raises; nothing else of the order moves. */
  method SetStatus(db: Database, store: Id, order: Id, status: Status, now: Time, rank: Rank, deliver: Id -> Delivery)
    returns (outcome: Outcome<()>, tried: seq<Id>, raised: bool, ghost saved: Moment, ghost listed: Moment,
             ghost rounds: seq<seq<Write>>)
    requires db.subscriptions.Keys <= db.issued
    modifies db
    ensures outcome == if order in old(db.orders) && old(db.orders)[order].store == store then Ok(()) else NotFound
    ensures !outcome.Ok? ==> !raised && db.Now() == old(db.Now())
    ensures outcome.Ok? ==> OnlyMoved(old(db.Snapshot()), saved.tables, order, status, now) && Ran(saved, listed)
    ensures outcome.Ok? ==> saved.rivals == old(db.rivals) && saved.landed == old(db.landed) &&
                            saved.tables == SetStatusIn(old(db.Snapshot()), store, order, status, now)
    ensures outcome.Ok? ==>
              var m := listed.tables.subscriptions;
              var rows := set s | s in m && m[s].store == store && m[s].user == old(db.orders)[order].customer;
              PushedTo(rows, listed, db.Now(), store, tried, raised, deliver, rounds)
    ensures outcome.Ok? && old(db.rivals) == [] ==>
              order in db.orders && db.orders[order].status == status && db.orders[order].updatedAt == now
  {
    hide PushedTo, ApplyAll, Ran, OnlyMoved;
    saved, tried, listed, rounds := db.Now(), [], db.Now(), [];
    if !(order in db.orders && db.orders[order].store == store) {
      return NotFound, tried, false, saved, listed, rounds;
    }
    var row := db.orders[order];
    db.orders := db.orders[order := row.(status := status, updatedAt := now)];
    saved := db.Now();
    MovedAlone(old(db.Snapshot()), order, status, now);
    db.Yield();
    listed := db.Now();
    NobodyRan(saved, listed);
    RowsStayIssued(saved, listed);
    tried, raised, rounds := NotifyOrderStatus(db, store, row.customer, rank, deliver);
    PushKeepsOrders(listed, db.Now(), store, tried, raised, deliver, rounds);
    outcome := Ok(());
  }

  /** The order has the new status and time, every other field and every other row is as it was. */
  ghost predicate OnlyMoved(t: Tables, after: Tables, order: Id, status: Status, now: Time)
    requires order in t.orders
  {
    && order in after.orders && after.orders[order].status == status && after.orders[order].updatedAt == now
    && after.orders[order] == t.orders[order].(status := after.orders[order].status,
                                               updatedAt := after.orders[order].updatedAt)
    && after.orders.Keys == t.orders.Keys
    && (forall o :: o in t.orders && o != order ==> after.orders[o] == t.orders[o])
    && after == t.(orders := after.orders)
  }

  lemma MovedAlone(t: Tables, order: Id, status: Status, now: Time)
    requires order in t.orders
    ensures OnlyMoved(t, t.(orders := t.orders[order := t.orders[order].(status := status, updatedAt := now)]), order,
                      status, now)
  {
  }

  lemma PushKeepsOrders(a: Moment, b: Moment, store: Id, tried: seq<Id>, raised: bool, deliver: Id -> Delivery,
                        rounds: seq<seq<Write>>)
    requires exists rows :: PushedTo(rows, a, b, store, tried, raised, deliver, rounds)
    ensures a.rivals == [] ==> b.tables.orders == a.tables.orders
  {
    hide Pushed;
  }

  lemma {:induction false} RowsStayIssued(a: Moment, b: Moment)
    requires Ran(a, b) && a.tables.subscriptions.Keys <= a.tables.issued
    ensures b.tables.subscriptions.Keys <= b.tables.issued
  {
    hide ApplyAll;
    WritesKeepIssued(a.tables, Between(a, b));
  }

  lemma {:induction false} WritesKeepIssued(t: Tables, ws: seq<Write>)
    requires t.subscriptions.Keys <= t.issued
    ensures ApplyAll(t, ws).subscriptions.Keys <= ApplyAll(t, ws).issued
  {
    hide Apply;
    if ws != [] {
      WritesKeepIssued(t, ws[..|ws| - 1]);
      WriteKeepsIssued(ApplyAll(t, ws[..|ws| - 1]), ws[|ws| - 1]);
    }
  }

  lemma {:induction false} WriteKeepsIssued(t: Tables, w: Write)
    requires t.subscriptions.Keys <= t.issued
    ensures Apply(t, w).subscriptions.Keys <= Apply(t, w).issued
  {
    hide Apply;
    IdsGrow(t, w);
    match w
    case Subscribe(_, _, _, _, _, _) => RegisteringIssued(t, w);
    case Unsubscribe(_, _, _) => LeavingPins(t, w);
    case Prune(_, _) => LeavingPins(t, w);
    case _ => OtherWritesKeepSubscriptions(t, w);
  }

  lemma {:induction false} RegisteringIssued(t: Tables, w: Write)
    requires w.Subscribe? && t.subscriptions.Keys <= t.issued
    ensures Apply(t, w).subscriptions.Keys <= Apply(t, w).issued
  {
    hide Apply, Registrations;
    var changed, key := Registering(t, w);
  }

  // ----- subscribing -----

  /** Registers a browser, or refreshes its row. Other requests run between the lookup, the insert, and the lookup
      that follows a refused insert; a row that is found is locked until it is saved. `trial` is the moment the call
      settles. A refused insert is an error only if the browser has no row by then either: the uuid is used up, or a
      rival registration came and went. */
  method Subscribe(db: Database, store: Id, id: Id, user: Id, endpoint: string, p256dh: string, auth: string)
    returns (outcome: Outcome<()>, ghost refused: Moment, ghost trial: Moment)
    modifies db
    ensures Ran(old(db.Now()), trial)
    ensures outcome.Ok? ==>
              db.Now() == trial.(tables := SubscribeIn(trial.tables, store, id, user, endpoint, p256dh, auth))
    ensures outcome.Ok? ==> exists s :: s in db.subscriptions &&
                                        db.subscriptions[s] == Subscription(store, user, endpoint, p256dh, auth)
    ensures !outcome.Ok? ==>
              && outcome == Failed(IntegrityError) && db.Now() == trial
              && Registrations(db.subscriptions, store, endpoint) == {}
              && Ran(old(db.Now()), refused) && Ran(refused, trial)
              && (id in refused.tables.issued || Registrations(refused.tables.subscriptions, store, endpoint) != {})
    ensures old(db.rivals) == [] ==>
              && db.Snapshot() == SubscribeIn(old(db.Snapshot()), store, id, user, endpoint, p256dh, auth)
              && (outcome.Ok? <==> Registrations(old(db.subscriptions), store, endpoint) != {} || id !in old(db.issued))
  {
    hide Ran, SubscribeIn, Registrations;
    ghost var start := db.Now();
    refused, trial := start, start;
    RanNowhere(start);
    var row := Subscription(store, user, endpoint, p256dh, auth);
    SubscribeSettles(trial.tables, store, id, row);
    var found := Registrations(db.subscriptions, store, endpoint);
    if found != {} {
      db.subscriptions := db.subscriptions[Least(found) := row];
      assert Least(found) in db.subscriptions;
      return Ok(()), refused, trial;
    }
    db.Yield();
    trial := db.Now();
    NobodyRan(start, trial);
    SubscribeSettles(trial.tables, store, id, row);
    if Registrations(db.subscriptions, store, endpoint) == {} && id !in db.issued {
      db.subscriptions := db.subscriptions[id := row];
      db.issued := db.issued + {id};
      assert id in db.subscriptions;
      return Ok(()), refused, trial;
    }
    refused := trial;
    db.Yield();
    trial := db.Now();
    RanOn(start, refused, trial);
    NobodyRan(start, trial);
    SubscribeSettles(trial.tables, store, id, row);
    found := Registrations(db.subscriptions, store, endpoint);
    if found == {} {
      return Failed(IntegrityError), refused, trial;
    }
    db.subscriptions := db.subscriptions[Least(found) := row];
    assert Least(found) in db.subscriptions;
    outcome := Ok(());
  }

  lemma SubscribeSettles(t: Tables, store: Id, id: Id, row: Subscription)
    requires row.store == store
    ensures var found := Registrations(t.subscriptions, store, row.endpoint);
            SubscribeIn(t, store, id, row.user, row.endpoint, row.p256dh, row.auth) ==
            (if found != {} then t.(subscriptions := t.subscriptions[Least(found) := row])
             else if id !in t.issued then t.(subscriptions := t.subscriptions[id := row], issued := t.issued + {id})
             else t)
  {
    hide Registrations, Least;
    assert id in [id];
  }

  method Unsubscribe(db: Database, store: Id, user: Id, endpoint: string)
    modifies db
    ensures db.Snapshot() == UnsubscribeIn(old(db.Snapshot()), store, user, endpoint)
  {
    db.subscriptions := SubscriptionsLess(db.subscriptions, store, user, endpoint);
  }

  // ----- the table as a map from (store, endpoint) to its latest subscriber -----

  datatype Subscriber = Subscriber(user: Id, p256dh: string, auth: string)

  type Browser = (Id, string)

  function BrowserOf(row: Subscription): Browser {
    (row.store, row.endpoint)
  }

  function SubscriberOf(row: Subscription): Subscriber {
    Subscriber(row.user, row.p256dh, row.auth)
  }

  /** The map and the table agree: one row per registered browser, carrying its subscriber and keys. */
  ghost predicate Represents(m: map<Id, Subscription>, latest: map<Browser, Subscriber>) {
    && (forall s :: s in m ==> BrowserOf(m[s]) in latest && latest[BrowserOf(m[s])] == SubscriberOf(m[s]))
    && (forall b :: b in latest ==> exists s :: s in m && BrowserOf(m[s]) == b)
  }

  /** What each write means for the map. A subscribe overwrites, an unsubscribe removes only its own user's entry, and
      a prune removes the browser of the pruned row. */
  function Remember(latest: map<Browser, Subscriber>, t: Tables, w: Write): map<Browser, Subscriber> {
    match w
    case Subscribe(store, id, user, endpoint, p256dh, auth) =>
      if (store, endpoint) in latest || Fresh(t, [id])
      then latest[(store, endpoint) := Subscriber(user, p256dh, auth)] else latest
    case Unsubscribe(store, user, endpoint) =>
      if (store, endpoint) in latest && latest[(store, endpoint)].user == user then latest - {(store, endpoint)}
        else latest
    case Prune(store, subscription) =>
      if subscription in t.subscriptions && t.subscriptions[subscription].store == store
      then latest - {BrowserOf(t.subscriptions[subscription])} else latest
    case _ => latest
  }

  lemma {:induction false} RegisterRepresents(m: map<Id, Subscription>, latest: map<Browser, Subscriber>, id: Id,
                                              row: Subscription)
    requires SubscriptionsOk(m) && Represents(m, latest)
    requires id in m ==> BrowserOf(m[id]) == BrowserOf(row)
    requires forall s :: s in m && SameBrowser(m[s], row) ==> s == id
    ensures Represents(m[id := row], latest[BrowserOf(row) := SubscriberOf(row)])
  {
    hide SubscriptionsOk;
    var after, more := m[id := row], latest[BrowserOf(row) := SubscriberOf(row)];
    forall b | b in more ensures exists s :: s in after && BrowserOf(after[s]) == b {
      if b == BrowserOf(row) {
        assert BrowserOf(after[id]) == b;
      } else {
        var s :| s in m && BrowserOf(m[s]) == b;
        assert s != id && after[s] == m[s];
      }
    }
  }

  lemma {:induction false} SubscribeRepresents(t: Tables, latest: map<Browser, Subscriber>, w: Write)
    requires w.Subscribe? && Keyed(t) && Represents(t.subscriptions, latest)
    ensures Represents(Apply(t, w).subscriptions, Remember(latest, t, w))
  {
    hide Represents, Fresh, SubscriptionsOk, Registrations, Apply, Least;
    RegisteringRows(t, w);
    var row := RowFor(w);
    var found := Registrations(t.subscriptions, w.store, w.endpoint);
    RegisteredOnce(t.subscriptions, row);
    FoundRegistered(t.subscriptions, latest, row);
    if found != {} {
      RegistrationIs(t.subscriptions, w.store, w.endpoint, Least(found));
      RegisterRepresents(t.subscriptions, latest, Least(found), row);
    } else if Fresh(t, [w.id]) {
      FreshRow(t, w.id);
      RegisterRepresents(t.subscriptions, latest, w.id, row);
    }
  }

  lemma FreshRow(t: Tables, id: Id)
    requires Keyed(t) && Fresh(t, [id])
    ensures id !in t.subscriptions
  {
    assert id in [id];
  }

  lemma {:induction false} FoundRegistered(m: map<Id, Subscription>, latest: map<Browser, Subscriber>,
                                           row: Subscription)
    requires Represents(m, latest)
    ensures Registrations(m, row.store, row.endpoint) != {} <==> BrowserOf(row) in latest
  {
    var found := Registrations(m, row.store, row.endpoint);
    if BrowserOf(row) in latest {
      var s :| s in m && BrowserOf(m[s]) == BrowserOf(row);
      assert s in found;
    }
    if found != {} {
      var s :| s in found;
    }
  }

  /** Dropping some rows of a table with one row per browser drops exactly their browsers. */
  lemma {:induction false} DropRepresents(m: map<Id, Subscription>, fewer: map<Id, Subscription>,
                                          latest: map<Browser, Subscriber>, gone: set<Browser>)
    requires SubscriptionsOk(m) && Represents(m, latest)
    requires forall s :: s in fewer <==> s in m && BrowserOf(m[s]) !in gone
    requires forall s :: s in fewer ==> fewer[s] == m[s]
    ensures Represents(fewer, latest - gone)
  {
    forall b | b in latest - gone ensures exists s :: s in fewer && BrowserOf(fewer[s]) == b {
      var s :| s in m && BrowserOf(m[s]) == b;
      assert s in fewer;
    }
  }

  lemma {:induction false} LeavingRepresents(m: map<Id, Subscription>, latest: map<Browser, Subscriber>, store: Id,
                                             user: Id, endpoint: string)
    requires SubscriptionsOk(m) && Represents(m, latest)
    ensures var b := (store, endpoint);
            Represents(SubscriptionsLess(m, store, user, endpoint),
                       if b in latest && latest[b].user == user then latest - {b} else latest)
  {
    hide SubscriptionsOk;
    var after, b := SubscriptionsLess(m, store, user, endpoint), (store, endpoint);
    if b in latest && latest[b].user == user {
      assert forall s :: s in after <==> s in m && BrowserOf(m[s]) !in {b};
      DropRepresents(m, after, latest, {b});
    } else {
      assert forall s :: s in m ==> s in after;
      assert after == m;
    }
  }

  lemma {:induction false} UnsubscribeRepresents(t: Tables, latest: map<Browser, Subscriber>, w: Write)
    requires w.Unsubscribe? && SubscriptionsOk(t.subscriptions) && Represents(t.subscriptions, latest)
    ensures Represents(Apply(t, w).subscriptions, Remember(latest, t, w))
  {
    hide Represents, SubscriptionsOk, SubscriptionsLess;
    LeavingRepresents(t.subscriptions, latest, w.store, w.user, w.endpoint);
  }

  lemma {:induction false} PruneRepresents(t: Tables, latest: map<Browser, Subscriber>, w: Write)
    requires w.Prune? && SubscriptionsOk(t.subscriptions) && Represents(t.subscriptions, latest)
    ensures Represents(Apply(t, w).subscriptions, Remember(latest, t, w))
  {
    var m, id := t.subscriptions, w.subscription;
    if id in m && m[id].store == w.store {
      forall s | s in m && BrowserOf(m[s]) == BrowserOf(m[id]) ensures s == id {
        assert SameBrowser(m[s], m[id]);
      }
      DropRepresents(m, m - {id}, latest, {BrowserOf(m[id])});
    }
  }

  lemma {:induction false} OtherWritesKeepSubscriptions(t: Tables, w: Write)
    requires !w.Subscribe? && !w.Unsubscribe? && !w.Prune?
    ensures Apply(t, w).subscriptions == t.subscriptions
  {
    hide CreateCategoryIn, CreateProductIn, UpdateProductIn, AddFavoriteIn, RemoveFavoriteIn, PublishOrderIn,
      SetStatusIn;
  }

  /** One row per browser, and every row's id handed out. */
  ghost predicate Keyed(t: Tables) {
    SubscriptionsOk(t.subscriptions) && t.subscriptions.Keys <= t.issued
  }

  lemma {:induction false} WriteRepresents(t: Tables, latest: map<Browser, Subscriber>, w: Write)
    requires Keyed(t) && Represents(t.subscriptions, latest)
    ensures Represents(Apply(t, w).subscriptions, Remember(latest, t, w))
  {
    hide Apply, Represents, SubscriptionsOk;
    match w
    case Subscribe(_, _, _, _, _, _) => SubscribeRepresents(t, latest, w);
    case Unsubscribe(_, _, _) => UnsubscribeRepresents(t, latest, w);
    case Prune(_, _) => PruneRepresents(t, latest, w);
    case _ => OtherWritesKeepSubscriptions(t, w);
  }

  lemma {:induction false} WriteKeepsKeyed(t: Tables, w: Write)
    requires Keyed(t)
    ensures Keyed(Apply(t, w))
  {
    hide Apply, SubscriptionsOk;
    WriteKeepsIssued(t, w);
    match w
    case Subscribe(_, _, _, _, _, _) => RegisteringKeepsOne(t, w);
    case Unsubscribe(_, _, _) =>
      LeavingPins(t, w);
      FewerSubscriptionsOk(t.subscriptions, Apply(t, w).subscriptions);
    case Prune(_, _) =>
      LeavingPins(t, w);
      FewerSubscriptionsOk(t.subscriptions, Apply(t, w).subscriptions);
    case _ => OtherWritesKeepSubscriptions(t, w);
  }

  lemma {:induction false} RegisteringKeepsOne(t: Tables, w: Write)
    requires w.Subscribe? && SubscriptionsOk(t.subscriptions)
    ensures SubscriptionsOk(Apply(t, w).subscriptions)
  {
    hide Apply, SubscriptionsOk, Registrations;
    var changed, key := Registering(t, w);
    RegisteredOnce(t.subscriptions, RowFor(w));
    if changed {
      RegisteredOk(t.subscriptions, key, RowFor(w));
    }
  }

  /** The map after a run of writes, remembered write by write. */
  function RememberAll(latest: map<Browser, Subscriber>, t: Tables, ws: seq<Write>): map<Browser, Subscriber> {
    if ws == [] then latest else
      var front := ws[..|ws| - 1];
      Remember(RememberAll(latest, t, front), ApplyAll(t, front), ws[|ws| - 1])
  }

  /** Over any run of writes the table stays a map from (store, endpoint) to the latest subscriber and keys. */
  lemma {:induction false} TableIsLatestMap(t: Tables, latest: map<Browser, Subscriber>, ws: seq<Write>)
    requires Keyed(t) && Represents(t.subscriptions, latest)
    ensures Keyed(ApplyAll(t, ws)) && Represents(ApplyAll(t, ws).subscriptions, RememberAll(latest, t, ws))
  {
    hide Keyed, Apply, Represents, Remember;
    if ws != [] {
      var front := ws[..|ws| - 1];
      TableIsLatestMap(t, latest, front);
      WriteRepresents(ApplyAll(t, front), RememberAll(latest, t, front), ws[|ws| - 1]);
      WriteKeepsKeyed(ApplyAll(t, front), ws[|ws| - 1]);
    }
  }

  /** And so it does over a push loop, whoever writes between two sends. */
  lemma {:induction false} PushKeepsLatestMap(a: Moment, b: Moment, latest: map<Browser, Subscriber>, store: Id,
                                              tried: seq<Id>, deliver: Id -> Delivery, rounds: seq<seq<Write>>)
    requires Keyed(a.tables) && Represents(a.tables.subscriptions, latest)
    requires Pushed(a, b, store, tried, deliver, rounds)
    ensures Represents(b.tables.subscriptions, RememberAll(latest, a.tables, Sent(store, tried, deliver, rounds)))
  {
    hide Keyed, Represents, ApplyAll, Sent, RememberAll;
    TableIsLatestMap(a.tables, latest, Sent(store, tried, deliver, rounds));
  }

  // ----- which registration a send removes -----

  /** What a browser's row becomes over a list of writes as long as it stays: its last registration. */
  function Latest(row: Subscription, ws: seq<Write>): Subscription {
    if ws == [] then row else
      var before, w := Latest(row, ws[..|ws| - 1]), ws[|ws| - 1];
      if w.Subscribe? && SameBrowser(RowFor(w), before) then RowFor(w) else before
  }

  lemma {:induction false} RowStep(t: Tables, w: Write, s: Id)
    requires Keyed(t) && s in t.subscriptions && s in Apply(t, w).subscriptions
    ensures Apply(t, w).subscriptions[s] == Latest(t.subscriptions[s], [w])
  {
    hide Apply, SubscriptionsOk;
    assert [w][..0] == [];
    match w
    case Subscribe(_, _, _, _, _, _) => RegisteringStep(t, w, s);
    case Unsubscribe(_, _, _) => LeavingPins(t, w);
    case Prune(_, _) => LeavingPins(t, w);
    case _ => OtherWritesKeepSubscriptions(t, w);
  }

  lemma {:induction false} RegisteringStep(t: Tables, w: Write, s: Id)
    requires Keyed(t) && w.Subscribe? && s in t.subscriptions
    ensures s in Apply(t, w).subscriptions
    ensures Apply(t, w).subscriptions[s] ==
            if SameBrowser(RowFor(w), t.subscriptions[s]) then RowFor(w) else t.subscriptions[s]
  {
    hide Apply, SubscriptionsOk, Least, Registrations, Fresh, SameBrowser;
    RegisteringRows(t, w);
    RegisteredAt(t.subscriptions, RowFor(w), s);
    FreshId(t, w.id);
  }

  /** A registration concerns a row exactly when it is the browser's. */
  lemma {:induction false} RegisteredAt(m: map<Id, Subscription>, row: Subscription, s: Id)
    requires SubscriptionsOk(m) && s in m
    ensures var found := Registrations(m, row.store, row.endpoint);
            && (SameBrowser(row, m[s]) ==> found != {})
            && (found != {} ==> (Least(found) == s <==> SameBrowser(row, m[s])))
  {
    hide Least;
    RegisteredOnce(m, row);
    var found := Registrations(m, row.store, row.endpoint);
    if SameBrowser(row, m[s]) {
      assert s in found;
    }
    if found != {} {
      RegistrationIs(m, row.store, row.endpoint, Least(found));
    }
  }

  lemma {:induction false} LatestOnce(row: Subscription, ws: seq<Write>, w: Write)
    ensures Latest(row, ws + [w]) == Latest(Latest(row, ws), [w])
  {
    assert (ws + [w])[..|ws|] == ws && [w][..0] == [];
  }

  /** A row that is still there carries its browser's last registration. */
  lemma {:induction false} RowFollows(t: Tables, ws: seq<Write>, s: Id)
    requires Keyed(t) && s in t.subscriptions
    ensures Keyed(ApplyAll(t, ws))
    ensures s in ApplyAll(t, ws).subscriptions ==> ApplyAll(t, ws).subscriptions[s] == Latest(t.subscriptions[s], ws)
  {
    hide Keyed, Apply, Pinned, Absent;
    if ws != [] {
      var front, w := ws[..|ws| - 1], ws[|ws| - 1];
      assert ws == front + [w];
      RowFollows(t, front, s);
      WriteKeepsKeyed(ApplyAll(t, front), w);
      LatestOnce(t.subscriptions[s], front, w);
      if s in ApplyAll(t, ws).subscriptions {
        NeverBack(t, front, w, s);
        RowStep(ApplyAll(t, front), w, s);
      }
    }
  }

  /** A row that is there after a write of the run was there before it. */
  lemma {:induction false} NeverBack(t: Tables, ws: seq<Write>, w: Write, s: Id)
    requires Keyed(t) && s in t.subscriptions && s in Apply(ApplyAll(t, ws), w).subscriptions
    ensures s in ApplyAll(t, ws).subscriptions
  {
    hide Apply, SubscriptionsOk;
    IdsOnlyGrow(t, ws);
    WritePins(ApplyAll(t, ws), w, t.subscriptions[s].store, s);
  }

  lemma {:induction false} IdsOnlyGrow(t: Tables, ws: seq<Write>)
    ensures t.issued <= ApplyAll(t, ws).issued
  {
    hide Apply;
    if ws != [] {
      IdsOnlyGrow(t, ws[..|ws| - 1]);
      IdsGrow(ApplyAll(t, ws[..|ws| - 1]), ws[|ws| - 1]);
    }
  }

  /** What the loop and the others have written when the i-th send is answered. */
  function WrittenBefore(store: Id, tried: seq<Id>, deliver: Id -> Delivery, rounds: seq<seq<Write>>, i: nat)
    : seq<Write>
    requires i < |tried| == |rounds|
  {
    Sent(store, tried[..i], deliver, rounds[..i]) + rounds[i]
  }

  /** The i-th send of a loop deletes a row that is no longer the one it was addressed to. */
  ghost predicate PrunesAnother(t: Tables, store: Id, tried: seq<Id>, deliver: Id -> Delivery, rounds: seq<seq<Write>>,
                                i: nat)
    requires i < |tried| == |rounds| && tried[i] in t.subscriptions
  {
    var s := tried[i];
    var before := ApplyAll(t, WrittenBefore(store, tried, deliver, rounds, i));
    var after := ApplyAll(before, Pruned(store, s, deliver(s)));
    s in before.subscriptions && s !in after.subscriptions && before.subscriptions[s] != t.subscriptions[s]
  }

  /** Renewed since it was listed: its last registration differs from the listed row. */
  ghost predicate RenewedBefore(t: Tables, store: Id, tried: seq<Id>, deliver: Id -> Delivery, rounds: seq<seq<Write>>,
                                i: nat)
    requires i < |tried| == |rounds| && tried[i] in t.subscriptions
  {
    Latest(t.subscriptions[tried[i]], WrittenBefore(store, tried, deliver, rounds, i)) != t.subscriptions[tried[i]]
  }

  /** Exactly when a push loop prunes a registration it was not addressed to, for any loop over rows listed in `t`, any
      writes of others and any of its sends: the send is answered 404 or 410, the listed row is still there, and the
      browser's last registration since the listing differs from it. What the send removes is that row and nothing else,
      so a browser that left and registered again, under a new row, keeps its registration. */
  lemma {:induction false} PrunesAnotherExactly(t: Tables, store: Id, tried: seq<Id>, deliver: Id -> Delivery,
                                                rounds: seq<seq<Write>>, i: nat)
    requires Keyed(t) && i < |tried| == |rounds|
    requires tried[i] in t.subscriptions && t.subscriptions[tried[i]].store == store
    ensures var s := tried[i];
            var before := ApplyAll(t, WrittenBefore(store, tried, deliver, rounds, i));
            var after := ApplyAll(before, Pruned(store, s, deliver(s)));
            && (PrunesAnother(t, store, tried, deliver, rounds, i) <==>
                Refused(tried, deliver, s) && s in before.subscriptions &&
                RenewedBefore(t, store, tried, deliver, rounds, i))
            && after.subscriptions ==
               (if Refused(tried, deliver, s) then before.subscriptions - {s} else before.subscriptions)
            && after == ApplyAll(t, Sent(store, tried[..i + 1], deliver, rounds[..i + 1]))
  {
    hide Keyed, Apply, ApplyAll, Latest;
    var s := tried[i];
    var ws := WrittenBefore(store, tried, deliver, rounds, i);
    RowFollows(t, ws, s);
    ListedPinned(t, store, s);
    WritesPin(t, ws, store, s);
    OneOrNone(ApplyAll(t, ws), store, s, deliver(s));
    PruneById(ApplyAll(t, ws), store, s);
    assert tried[..i + 1][..i] == tried[..i] && rounds[..i + 1][..i] == rounds[..i];
    ApplyAllConcat(t, ws, Pruned(store, s, deliver(s)));
  }

  lemma ListedPinned(t: Tables, store: Id, s: Id)
    requires Keyed(t) && s in t.subscriptions && t.subscriptions[s].store == store
    ensures Pinned(t, store, s)
  {
  }

  /** One such loop, over any row: a single push, sent with the old keys while its browser renews and answered 404 or
      410, leaves that browser without a registration. */
  lemma {:induction false} RenewalPruned(t: Tables, s: Id, deliver: Id -> Delivery, id: Id, user: Id, p256dh: string,
                                         auth: string)
    requires Keyed(t) && s in t.subscriptions && Refused([s], deliver, s)
    ensures var row := t.subscriptions[s];
            var renewal := Write.Subscribe(row.store, id, user, row.endpoint, p256dh, auth);
            && Apply(t, renewal).subscriptions == t.subscriptions[s := RowFor(renewal)]
            && (PrunesAnother(t, row.store, [s], deliver, [[renewal]], 0) <==> RowFor(renewal) != row)
            && Registrations(ApplyAll(t, Sent(row.store, [s], deliver, [[renewal]])).subscriptions, row.store,
                             row.endpoint) == {}
  {
    hide Sent, ApplyAll, Apply, Keyed, PrunesAnother, Latest;
    var row := t.subscriptions[s];
    var renewal := Write.Subscribe(row.store, id, user, row.endpoint, p256dh, auth);
    OnlyRenewal(row.store, s, deliver, renewal);
    assert [renewal][..0] == [];
    RenewedStays(t, renewal, s);
    PrunesAnotherExactly(t, row.store, [s], deliver, [[renewal]], 0);
    assert [s][..1] == [s] && [[renewal]][..1] == [[renewal]];
    RowFollows(t, [renewal], s);
    RenewalRow(t, renewal, s);
    OneRegistration(ApplyAll(t, [renewal]), s);
  }

  lemma {:induction false} RenewalRow(t: Tables, w: Write, s: Id)
    requires Keyed(t) && w.Subscribe? && s in t.subscriptions && SameBrowser(RowFor(w), t.subscriptions[s])
    ensures Apply(t, w).subscriptions == t.subscriptions[s := RowFor(w)]
    ensures Latest(t.subscriptions[s], [w]) == RowFor(w)
  {
    hide Apply, SubscriptionsOk, Least;
    RegisteringCases(t, w);
    RegisteredOnce(t.subscriptions, RowFor(w));
    assert s in Registrations(t.subscriptions, w.store, w.endpoint);
    assert [w][..0] == [];
  }

  lemma OnlyRenewal(store: Id, s: Id, deliver: Id -> Delivery, w: Write)
    ensures WrittenBefore(store, [s], deliver, [[w]], 0) == [w]
  {
    assert [s][..0] == [] && [[w]][..0] == [];
    assert Sent(store, [], deliver, []) == [];
  }

  lemma {:induction false} RenewedStays(t: Tables, w: Write, s: Id)
    requires Keyed(t) && w.Subscribe? && s in t.subscriptions
    ensures ApplyAll(t, [w]) == Apply(t, w) && s in ApplyAll(t, [w]).subscriptions
  {
    hide Apply, Keyed;
    assert [w][..0] == [];
    RegisteringStep(t, w, s);
  }

  lemma {:induction false} OneRegistration(t: Tables, s: Id)
    requires Keyed(t) && s in t.subscriptions
    ensures var row := t.subscriptions[s];
            Registrations(t.subscriptions - {s}, row.store, row.endpoint) == {}
  {
    forall r | r in t.subscriptions && SameBrowser(t.subscriptions[r], t.subscriptions[s]) ensures r == s {
    }
  }
}
