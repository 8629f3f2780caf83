/** What every interleaving of placements guarantees: idempotency, all-or-nothing, conservation, faithful snapshots
    and progress. */
module PlacementResults {
  import opened Schema
  import opened Writes
  import opened Coherence
  import opened Ledger
  import opened Orders
  import opened Placement

  // ----- idempotency -----

  predicate Answered(w: World, j: Id) {
    j in w.jobs && w.jobs[j].phase.Done? && w.jobs[j].phase.outcome.Ok?
  }

  function ReceiptOf(w: World, j: Id): Receipt
    requires Answered(w, j)
  {
    w.jobs[j].phase.outcome.value
  }

  /** In every run, two requests of one (store, customer, key) that are answered with an order are answered with the
      same one, at most one of them with created = True, and that order is the only one of its key. */
  lemma {:induction false} OneOrderPerKey(w: World, es: seq<Event>, a: Id, b: Id)
    requires Inv(w)
    requires Answered(Run(w, es), a) && Answered(Run(w, es), b)
    requires Rivals(Run(w, es).jobs[a].request, Run(w, es).jobs[b].request)
    ensures var v := Run(w, es);
            && ReceiptOf(v, a).order == ReceiptOf(v, b).order
            && (ReceiptOf(v, a).created && ReceiptOf(v, b).created ==> a == b)
            && (forall o :: Holds(v.db.orders, o, v.jobs[a].request) <==> o == ReceiptOf(v, a).order)
  {
    hide Run, Frozen, Balanced;
    var v := Run(w, es);
    RunKeeps(w, es);
    assert JobSound(v.db, v.jobs[a]) && JobSound(v.db, v.jobs[b]);
    var request, order := v.jobs[a].request, ReceiptOf(v, a).order;
    CoherentOrders(v.db);
    forall o | Holds(v.db.orders, o, request) ensures o == order {
      assert SameKey(v.db.orders[o], v.db.orders[order]);
    }
    if ReceiptOf(v, a).created && ReceiptOf(v, b).created {
      assert ShareOrder(v.jobs[a], v.jobs[b]);
    }
  }

  lemma CoherentOrders(t: Tables)
    requires Coherent(t)
    ensures OrdersOk(t.orders)
  {
  }

  /** A new order as it first appears: untouched since the date its transaction took, with the request's contact. */
  predicate FirstSeen(row: Order, request: Request, createdAt: Time) {
    row.status == New && row.createdAt == createdAt && row.updatedAt == createdAt &&
    row.contact == request.payload.contact
  }

  /** A request that answers created = False reads an order that was committed before that step; a request that
      answers created = True commits its order in that very step, under its own uuid and as a new one. */
  lemma {:induction false} AnswersFollowCommits(w: World, j: Id, now: Time)
    requires Inv(w) && j in w.jobs && !w.jobs[j].phase.Done? && Answered(Next(w, Advance(j, now)), j)
    ensures var v := Next(w, Advance(j, now));
            var receipt := ReceiptOf(v, j);
            && Holds(v.db.orders, receipt.order, w.jobs[j].request)
            && (receipt.order in w.db.orders <==> !receipt.created)
            && (!receipt.created ==> v.db == w.db)
            && (receipt.created ==>
                 receipt.order == w.jobs[j].request.payload.id && w.jobs[j].phase.AtCommit? &&
                 FirstSeen(v.db.orders[receipt.order], w.jobs[j].request, w.jobs[j].phase.createdAt))
  {
    hide ReadProduct, CoverUrl, ResolveOptions, ExistingOrder, Coherent, Balanced, CanPublish, Apply, LinesSound;
    var Job(request, phase) := w.jobs[j];
    FoundHolds(w.db.orders, request);
    if Commits(w.db, request, phase) {
      CommitHolds(w.db, request, phase);
      InvCoherent(w);
      CommitIsNew(w.db, request, phase);
      CommitFirstSeen(w.db, request, phase);
    }
  }

  lemma CommitFirstSeen(db: Tables, request: Request, phase: Phase)
    requires Commits(db, request, phase)
    ensures request.payload.id in NextTables(db, request, phase).orders
    ensures FirstSeen(NextTables(db, request, phase).orders[request.payload.id], request, phase.createdAt)
  {
    hide WithItems, Fresh, KeyTaken, LineIds, LinesTotal;
  }

  /** The date of an order is the time of its insert, however much later the transaction commits. */
  lemma {:induction false} DatedAtInsert(w: World, j: Id, now: Time)
    requires j in w.jobs && InTransaction(Next(w, Advance(j, now)).jobs[j].phase)
    ensures var before, after := w.jobs[j].phase, Next(w, Advance(j, now)).jobs[j].phase;
            if InTransaction(before) then after.createdAt == before.createdAt
            else before.Insert? && after.createdAt == now
  {
    hide ReadProduct, CoverUrl, ResolveOptions, ExistingOrder, CanPublish, Blocked, KeyFree;
  }

  // ----- conservation: orders come from exactly the requests that report creating them -----

  function CreatedOrders(jobs: map<Id, Job>): set<Id> {
    set j | j in jobs && Created(jobs[j]) :: jobs[j].phase.outcome.value.order
  }

  function CreatedJobs(jobs: map<Id, Job>): set<Id> {
    set j | j in jobs && Created(jobs[j])
  }

  /** The order a step adds: the request's own if it commits, else none. */
  function Added(db: Tables, request: Request, phase: Phase): set<Id> {
    if Commits(db, request, phase) then {request.payload.id} else {}
  }

  lemma {:induction false} AdvanceCreates(w: World, j: Id, now: Time)
    requires j in w.jobs
    ensures CreatedOrders(Next(w, Advance(j, now)).jobs) ==
            CreatedOrders(w.jobs) + Added(w.db, w.jobs[j].request, w.jobs[j].phase)
  {
    hide NextPhase, NextTables, CanPublish, Blocked;
    var Job(request, phase) := w.jobs[j];
    var blocked := Blocked(w, j);
    var next := NextPhase(w.db, request, phase, now, blocked);
    var after := Next(w, Advance(j, now)).jobs;
    CreatedStep(w.db, request, phase, now, blocked);
    DoneStays(w.db, request, phase, now, blocked);
    forall o | o in CreatedOrders(w.jobs) ensures o in CreatedOrders(after) {
      var a :| a in w.jobs && Created(w.jobs[a]) && w.jobs[a].phase.outcome.value.order == o;
      assert Created(after[a]) && after[a].phase.outcome.value.order == o;
    }
    forall o | o in CreatedOrders(after) && o !in Added(w.db, request, phase) ensures o in CreatedOrders(w.jobs) {
      var a :| a in after && Created(after[a]) && after[a].phase.outcome.value.order == o;
      assert Created(w.jobs[a]) && w.jobs[a].phase.outcome.value.order == o;
    }
    if Commits(w.db, request, phase) {
      CommitPhase(w.db, request, phase, now, blocked);
      assert Created(after[j]) && after[j].phase.outcome.value.order == request.payload.id;
    }
  }

  lemma {:induction false} DoneStays(db: Tables, request: Request, phase: Phase, now: Time, blocked: bool)
    ensures phase.Done? ==> NextPhase(db, request, phase, now, blocked) == phase
  {
  }

  lemma {:induction false} AddedRows(db: Tables, request: Request, phase: Phase)
    requires RowsIssued(db)
    ensures NextTables(db, request, phase).orders.Keys == db.orders.Keys + Added(db, request, phase)
    ensures Added(db, request, phase) !! db.orders.Keys
  {
    if Commits(db, request, phase) {
      CommitIsNew(db, request, phase);
    }
  }

  lemma {:induction false} ArriveCreates(w: World, j: Id, request: Request)
    ensures CreatedOrders(Next(w, Arrive(j, request)).jobs) == CreatedOrders(w.jobs)
  {
    var after := Next(w, Arrive(j, request)).jobs;
    forall o | o in CreatedOrders(w.jobs) ensures o in CreatedOrders(after) {
      var a :| a in w.jobs && Created(w.jobs[a]) && w.jobs[a].phase.outcome.value.order == o;
      assert a in after && after[a] == w.jobs[a];
    }
    forall o | o in CreatedOrders(after) ensures o in CreatedOrders(w.jobs) {
      var a :| a in after && Created(after[a]) && after[a].phase.outcome.value.order == o;
      assert a in w.jobs && after[a] == w.jobs[a];
    }
  }

  lemma {:induction false} OrdersAccounted(w: World, es: seq<Event>)
    requires Inv(w) && w.jobs == map[]
    ensures Run(w, es).db.orders.Keys == w.db.orders.Keys + CreatedOrders(Run(w, es).jobs)
    ensures w.db.orders.Keys !! CreatedOrders(Run(w, es).jobs)
  {
    hide Inv, NextPhase, NextTables, Apply, Blocked, CanPublish, CreatedOrders;
    if es == [] {
      NothingCreated();
    } else {
      var front, e := es[..|es| - 1], es[|es| - 1];
      var v := Run(w, front);
      OrdersAccounted(w, front);
      RunKeeps(w, front);
      InvCoherent(v);
      match e
      case Arrive(j, request) => ArriveCreates(v, j, request);
      case Advance(j, now) =>
        if j in v.jobs {
          AdvanceCreates(v, j, now);
          AddedRows(v.db, v.jobs[j].request, v.jobs[j].phase);
        }
      case Elsewhere(write) => if !write.PublishOrder? { SameOrders(v.db, write); }
    }
  }

  lemma NothingCreated()
    ensures CreatedOrders(map[]) == {}
  {
  }

  lemma {:induction false} OneJobPerOrder(jobs: map<Id, Job>, some: set<Id>)
    requires JobsApart(jobs) && some <= CreatedJobs(jobs)
    ensures |some| == |set j | j in some :: jobs[j].phase.outcome.value.order|
    decreases |some|
  {
    var image := set j | j in some :: jobs[j].phase.outcome.value.order;
    if some != {} {
      var j :| j in some;
      var rest := some - {j};
      OneJobPerOrder(jobs, rest);
      var order := jobs[j].phase.outcome.value.order;
      assert image == (set k | k in rest :: jobs[k].phase.outcome.value.order) + {order};
      forall k | k in rest ensures jobs[k].phase.outcome.value.order != order {
        assert !ShareOrder(jobs[k], jobs[j]);
      }
    }
  }

  /** Conservation: in every run the order table grows by exactly the orders of the requests that answer
      created = True, one order each; every other outcome, and every request still open, has added nothing. */
  lemma {:induction false} OrdersConserved(w: World, es: seq<Event>)
    requires Inv(w) && w.jobs == map[]
    ensures var v := Run(w, es);
            && v.db.orders.Keys - w.db.orders.Keys == CreatedOrders(v.jobs)
            && w.db.orders.Keys <= v.db.orders.Keys
            && |v.db.orders| == |w.db.orders| + |CreatedJobs(v.jobs)|
  {
    hide Run, Coherent, Balanced, JobSound, Frozen;
    var v := Run(w, es);
    OrdersAccounted(w, es);
    RunKeeps(w, es);
    OneJobPerOrder(v.jobs, CreatedJobs(v.jobs));
    assert CreatedOrders(v.jobs) == set j | j in CreatedJobs(v.jobs) :: v.jobs[j].phase.outcome.value.order;
    assert |v.db.orders.Keys| == |w.db.orders.Keys| + |CreatedOrders(v.jobs)|;
  }

  /** A key is held only by an order that held it from the start or by the order of a request of that key that
      answered created = True. */
  lemma {:induction false} HoldersAccounted(w: World, es: seq<Event>, o: Id, request: Request)
    requires Inv(w) && w.jobs == map[]
    ensures var v := Run(w, es);
            Holds(v.db.orders, o, request) ==>
              Holds(w.db.orders, o, request) ||
              exists j :: j in v.jobs && Created(v.jobs[j]) && Rivals(v.jobs[j].request, request)
  {
    hide Run, Coherent, Balanced, JobsApart, LinesFrozen, NeverReissued;
    var v := Run(w, es);
    OrdersAccounted(w, es);
    RunKeeps(w, es);
    if Holds(v.db.orders, o, request) {
      if o in w.db.orders {
        assert Restated(w.db.orders[o], v.db.orders[o]);
      } else {
        assert o in CreatedOrders(v.jobs);
        var j :| j in v.jobs && Created(v.jobs[j]) && v.jobs[j].phase.outcome.value.order == o;
        assert JobSound(v.db, v.jobs[j]);
        assert Rivals(v.jobs[j].request, request);
      }
    }
  }

  /** A placement that fails leaves its key usable: if a key was free and no request of that key has answered
      created = True, the key is still free, whatever else has run. */
  lemma {:induction false} FailedKeyStaysFree(w: World, es: seq<Event>, request: Request)
    requires Inv(w) && w.jobs == map[] && KeyFree(w.db, request)
    requires forall j :: j in Run(w, es).jobs && Created(Run(w, es).jobs[j]) ==>
               !Rivals(Run(w, es).jobs[j].request, request)
    ensures KeyFree(Run(w, es).db, request)
  {
    hide Run, Inv;
    forall o ensures Holds(Run(w, es).db.orders, o, request) ==> Holds(w.db.orders, o, request) {
      HoldersAccounted(w, es, o, request);
    }
    TakenIsHeld(Run(w, es).db.orders, request);
  }

  lemma {:induction false} TakenIsHeld(orders: map<Id, Order>, request: Request)
    ensures KeyTaken(orders, request.store, request.customer, request.payload.key) <==>
              exists o :: Holds(orders, o, request)
  {
    if KeyTaken(orders, request.store, request.customer, request.payload.key) {
      var o :| o in orders && orders[o].store == request.store && orders[o].customer == request.customer &&
               orders[o].key == request.payload.key;
      assert Holds(orders, o, request);
    }
  }
}
