/** The `except IntegrityError` clause of `place_order` (apps/orders/services.py): the loser of a key race always finds
    the winner's order; the one way into the clause that finds nothing is a commit refused for another cause. */
module PlacementRecovery {
  import opened Schema
  import opened Catalog
  import opened Writes
  import opened Coherence
  import opened Ledger
  import opened Orders
  import opened Placement
  import opened PlacementBounds
  import opened PlacementResults
  import opened PlacementProgress

  // ----- keys that are taken -----

  /** A key never comes free again. */
  lemma {:induction false} TakenStays(before: Tables, after: Tables, request: Request)
    requires OrdersFrozen(before.orders, after.orders)
    ensures KeyFree(after, request) ==> KeyFree(before, request)
  {
    if !KeyFree(before, request) {
      TakenIsHeld(before.orders, request);
      var o :| Holds(before.orders, o, request);
      HoldsStays(before.orders, after.orders, o, request);
      TakenIsHeld(after.orders, request);
    }
  }

  lemma FoundOrder(db: Tables, request: Request)
    ensures var answer := Recovered(db.orders, request.store, request.customer, request.payload.key);
            && (KeyFree(db, request) ==> answer == Vanished)
            && (!KeyFree(db, request) ==>
                 answer.Ok? && !answer.value.created && Holds(db.orders, answer.value.order, request))
  {
  }

  // ----- the loser of the race -----

  /** On the way to the winner's order, or there. */
  ghost predicate Lost(w: World, j: Id, request: Request) {
    && j in w.jobs && w.jobs[j].request == request && !KeyFree(w.db, request)
    && (w.jobs[j].phase == Recover || FoundWinner(w, j))
  }

  ghost predicate FoundWinner(w: World, j: Id)
    requires j in w.jobs
  {
    var Job(request, phase) := w.jobs[j];
    phase.Done? && phase.outcome.Ok? && !phase.outcome.value.created &&
      Holds(w.db.orders, phase.outcome.value.order, request)
  }

  lemma {:induction false} LosingStep(w: World, e: Event, j: Id, request: Request)
    requires Inv(w) && Lost(w, j, request)
    ensures Lost(Next(w, e), j, request)
    ensures e.Advance? && e.job == j ==> FoundWinner(Next(w, e), j)
  {
    hide Inv, KeyFree, Apply, CanPublish, Blocked, NeverReissued, LinesFrozen, OrdersFrozen, Recovered;
    NextKeeps(w, e);
    var v := Next(w, e);
    TakenStays(w.db, v.db, request);
    FoundOrder(w.db, request);
    if FoundWinner(w, j) {
      HoldsStays(w.db.orders, v.db.orders, w.jobs[j].phase.outcome.value.order, request);
    }
  }

  lemma {:induction false} StillLosing(w: World, es: seq<Event>, j: Id, request: Request)
    requires Inv(w) && Lost(w, j, request)
    ensures Lost(Run(w, es), j, request)
  {
    hide Inv, Lost, Next, Frozen;
    if es != [] {
      StillLosing(w, es[..|es| - 1], j, request);
      RunKeeps(w, es[..|es| - 1]);
      LosingStep(Run(w, es[..|es| - 1]), es[|es| - 1], j, request);
    }
  }

  /** The loser of a key race finds the winner's order: from any reachable world, a request whose insert meets a taken
      key is, at every later point of every run, either about to look the order up or answered with an order of its
      key and created = False; one more step of its own gives that answer. */
  lemma {:induction false} LoserFindsWinner(w: World, j: Id, now: Time, es: seq<Event>, later: Time)
    requires Inv(w) && j in w.jobs && w.jobs[j].phase == Insert
    requires !Blocked(w, j) && !KeyFree(w.db, w.jobs[j].request)
    ensures var v := Run(Next(w, Advance(j, now)), es);
            && j in v.jobs && v.jobs[j].request == w.jobs[j].request
            && (v.jobs[j].phase == Recover || FoundWinner(v, j))
            && FoundWinner(Next(v, Advance(j, later)), j)
  {
    hide Inv, KeyFree, Frozen, FoundWinner, Blocked;
    var request := w.jobs[j].request;
    var lost := Next(w, Advance(j, now));
    NextKeeps(w, Advance(j, now));
    InsertTouchesNothing(w.db, request);
    assert Lost(lost, j, request);
    StillLosing(lost, es, j, request);
    RunKeeps(lost, es);
    LosingStep(Run(lost, es), Advance(j, later), j, request);
  }

  lemma InsertTouchesNothing(db: Tables, request: Request)
    ensures NextTables(db, request, Insert) == db
  {
  }

  // ----- when the lookup finds nothing -----

  /** Why a commit is refused although its key is free: a bag product is gone, or a drawn uuid was handed out before. */
  ghost predicate Refused(db: Tables, request: Request, lines: seq<Line>) {
    (exists l :: l in lines && l.product !in db.products) || !Fresh(db, [request.payload.id] + LineIds(lines))
  }

  lemma {:induction false} RefusedExactly(db: Tables, request: Request, phase: Phase)
    requires phase.AtCommit? && KeyFree(db, request)
    ensures !Commits(db, request, phase) <==> Refused(db, request, phase.lines)
  {
    hide Fresh, KeyTaken, LinesTotal, LineIds;
    var lines := phase.lines;
    if l :| l in lines && l.product !in db.products {
      var i :| 0 <= i < |lines| && lines[i] == l;
    }
    if !Commits(db, request, phase) && Fresh(db, [request.payload.id] + LineIds(lines)) {
      var i :| 0 <= i < |lines| && lines[i].product !in db.products;
      assert lines[i] in lines;
    }
  }

  /** Event `a` of the run is request j's commit, and it is refused. */
  ghost predicate RefusedAt(w: World, es: seq<Event>, j: Id, a: int) {
    && 0 <= a < |es| && es[a].Advance? && es[a].job == j
    && var v := Run(w, es[..a]);
       j in v.jobs && v.jobs[j].phase.AtCommit? && Refused(v.db, v.jobs[j].request, v.jobs[j].phase.lines)
  }

  /** Event `b` of the run is request j's lookup, and its key is free. */
  ghost predicate StrandedAt(w: World, es: seq<Event>, j: Id, b: int) {
    && 0 <= b < |es| && es[b].Advance? && es[b].job == j
    && var v := Run(w, es[..b]);
       j in v.jobs && v.jobs[j].phase == Recover && KeyFree(v.db, v.jobs[j].request)
  }

  ghost predicate Stranded(w: World, j: Id) {
    j in w.jobs && w.jobs[j].phase == Recover && KeyFree(w.db, w.jobs[j].request)
  }

  ghost predicate Gone(w: World, j: Id) {
    j in w.jobs && w.jobs[j].phase == Done(Vanished)
  }

  ghost predicate RefusedBy(w: World, e: Event, j: Id) {
    && e.Advance? && e.job == j && j in w.jobs && w.jobs[j].phase.AtCommit?
    && Refused(w.db, w.jobs[j].request, w.jobs[j].phase.lines)
  }

  lemma {:induction false} StrandingStep(w: World, e: Event, j: Id)
    requires Inv(w) && JobsFit(w)
    ensures Stranded(Next(w, e), j) ==> Stranded(w, j) || RefusedBy(w, e, j)
  {
    hide Inv, JobSound, PhaseFits, Commits, NextPhase, Refused, Blocked, Apply, ProductsOk, KeyFree, NeverReissued,
      LinesFrozen;
    NextKeeps(w, e);
    if j in w.jobs {
      var Job(request, phase) := w.jobs[j];
      TakenStays(w.db, Next(w, e).db, request);
      if e.Advance? && e.job == j {
        InvPrices(w);
        StepFits(w.db, request, phase, e.now, Blocked(w, j));
        InTransactionIsFree(w, j);
        if phase.AtCommit? {
          RefusedExactly(w.db, request, phase);
          CommitAnswers(w.db, request, phase, e.now, Blocked(w, j));
        }
      }
    }
  }

  lemma InTransactionIsFree(w: World, j: Id)
    requires Inv(w) && j in w.jobs
    ensures InTransaction(w.jobs[j].phase) ==> KeyFree(w.db, w.jobs[j].request)
  {
    assert JobSound(w.db, w.jobs[j]);
  }

  lemma CommitAnswers(db: Tables, request: Request, phase: Phase, now: Time, blocked: bool)
    requires phase.AtCommit?
    ensures NextPhase(db, request, phase, now, blocked) ==
            if Commits(db, request, phase) then Done(Ok(Receipt(request.payload.id, true))) else Recover
  {
  }

  lemma {:induction false} VanishingStep(w: World, e: Event, j: Id)
    ensures Gone(Next(w, e), j) <==> Gone(w, j) || (e.Advance? && e.job == j && Stranded(w, j))
  {
    hide Apply, Blocked, NextTables, KeyFree;
    if j in w.jobs && e.Advance? && e.job == j {
      VanishingPhase(w.db, w.jobs[j].request, w.jobs[j].phase, e.now, Blocked(w, j));
    }
  }

  lemma {:induction false} VanishingPhase(db: Tables, request: Request, phase: Phase, now: Time, blocked: bool)
    ensures NextPhase(db, request, phase, now, blocked) == Done(Vanished) <==>
            phase == Done(Vanished) || (phase == Recover && KeyFree(db, request))
  {
    hide KeyFree, ReadProduct, CoverUrl, ResolveOptions, ExistingOrder, CanPublish, LinesTotal, Recovered;
    FoundOrder(db, request);
  }

  lemma {:induction false} MarksStay(w: World, es: seq<Event>, e: Event, j: Id, a: int)
    ensures RefusedAt(w, es, j, a) ==> RefusedAt(w, es + [e], j, a)
    ensures StrandedAt(w, es, j, a) ==> StrandedAt(w, es + [e], j, a)
  {
    hide Run, Refused, KeyFree;
    if 0 <= a < |es| {
      assert (es + [e])[..a] == es[..a];
    }
  }

  lemma {:induction false} StrandedTraced(w: World, es: seq<Event>, j: Id)
    requires Inv(w) && w.jobs == map[]
    ensures Stranded(Run(w, es), j) ==> exists a :: RefusedAt(w, es, j, a)
  {
    hide Inv, Next, Frozen, Stranded, Refused, JobsFit;
    if es == [] {
      NobodyYet(w, j);
    } else if Stranded(Run(w, es), j) {
      var front, e := es[..|es| - 1], es[|es| - 1];
      assert es == front + [e];
      RunKeeps(w, front);
      NobodyYet(w, j);
      RunFits(w, front);
      StrandingStep(Run(w, front), e, j);
      if Stranded(Run(w, front), j) {
        StrandedTraced(w, front, j);
        var a :| RefusedAt(w, front, j, a);
        MarksStay(w, front, e, j, a);
      } else {
        assert RefusedAt(w, es, j, |front|);
      }
    }
  }

  lemma NobodyYet(w: World, j: Id)
    requires w.jobs == map[]
    ensures !Stranded(w, j) && !Gone(w, j) && JobsFit(w)
  {
  }

  /** The exact condition: a request answers `Vanished` if and only if its commit was refused because a product of the
      bag is gone or a drawn uuid was handed out before, and when it then looked its key up, nobody held it. */
  lemma {:induction false} VanishedExactly(w: World, es: seq<Event>, j: Id)
    requires Inv(w) && w.jobs == map[]
    ensures Gone(Run(w, es), j) <==> exists a, b :: RefusedAt(w, es, j, a) && a < b && StrandedAt(w, es, j, b)
  {
    hide Inv, Next, Stranded, Gone, RefusedAt, StrandedAt;
    if es == [] {
      NobodyYet(w, j);
      assert forall b :: !StrandedAt(w, es, j, b) by { NothingMarked(w, j); }
    } else {
      var front, e := es[..|es| - 1], es[|es| - 1];
      assert es == front + [e];
      VanishedExactly(w, front, j);
      VanishingStep(Run(w, front), e, j);
      if Gone(Run(w, es), j) {
        if Gone(Run(w, front), j) {
          var a, b :| RefusedAt(w, front, j, a) && a < b && StrandedAt(w, front, j, b);
          MarksStay(w, front, e, j, a);
          MarksStay(w, front, e, j, b);
        } else {
          StrandedTraced(w, front, j);
          var a :| RefusedAt(w, front, j, a);
          MarksStay(w, front, e, j, a);
          LastMark(w, front, e, j, a);
        }
      }
      if a, b :| RefusedAt(w, es, j, a) && a < b && StrandedAt(w, es, j, b) {
        EarlierMark(w, front, e, j, a, b);
      }
    }
  }

  lemma NothingMarked(w: World, j: Id)
    ensures forall b :: !StrandedAt(w, [], j, b)
  {
  }

  lemma {:induction false} LastMark(w: World, es: seq<Event>, e: Event, j: Id, a: int)
    requires RefusedAt(w, es, j, a) && e.Advance? && e.job == j && Stranded(Run(w, es), j)
    ensures a < |es| && StrandedAt(w, es + [e], j, |es|)
  {
    hide Run, Refused, KeyFree;
    assert (es + [e])[..|es|] == es;
  }

  /** A mark is the last event's or an earlier one's. */
  lemma {:induction false} EarlierMark(w: World, es: seq<Event>, e: Event, j: Id, a: int, b: int)
    requires RefusedAt(w, es + [e], j, a) && a < b && StrandedAt(w, es + [e], j, b)
    ensures b < |es| ==> RefusedAt(w, es, j, a) && StrandedAt(w, es, j, b)
    ensures b >= |es| ==> e.Advance? && e.job == j && Stranded(Run(w, es), j)
  {
    hide Run, Refused, KeyFree;
    assert (es + [e])[..|es|] == es;
    if b < |es| {
      assert (es + [e])[..a] == es[..a] && (es + [e])[..b] == es[..b];
    }
  }

  // ----- whoever does not create an order writes nothing -----

  lemma {:induction false} CreatedStays(w: World, e: Event, j: Id)
    requires j in w.jobs && Created(w.jobs[j])
    ensures j in Next(w, e).jobs && Created(Next(w, e).jobs[j])
  {
    hide Apply, NextTables, Blocked;
  }

  /** Every step of a request that has not answered created = True, and in particular of one that ends in an error or
      with somebody else's order, leaves the committed rows as they were. */
  lemma {:induction false} OnlyCreatorsWrite(w: World, es: seq<Event>, j: Id, a: nat)
    requires a < |es| && es[a].Advance? && es[a].job == j
    requires j in Run(w, es).jobs && !Created(Run(w, es).jobs[j])
    ensures Run(w, es[..a + 1]).db == Run(w, es[..a]).db
    decreases |es|
  {
    hide Next, Created;
    var front, e := es[..|es| - 1], es[|es| - 1];
    if a == |front| {
      assert es[..a + 1] == es && es[..a] == front;
      SilentStep(Run(w, front), j, e.now);
    } else {
      assert front[..a + 1] == es[..a + 1] && front[..a] == es[..a];
      if j in Run(w, front).jobs {
        if Created(Run(w, front).jobs[j]) {
          CreatedStays(Run(w, front), e, j);
        }
        OnlyCreatorsWrite(w, front, j, a);
      } else {
        NotYetHere(w, front, j, a);
      }
    }
  }

  lemma {:induction false} SilentStep(w: World, j: Id, now: Time)
    requires j in Next(w, Advance(j, now)).jobs && !Created(Next(w, Advance(j, now)).jobs[j])
    ensures Next(w, Advance(j, now)).db == w.db
  {
    hide Apply, Blocked, CanPublish;
  }

  lemma {:induction false} NotYetHere(w: World, es: seq<Event>, j: Id, a: nat)
    requires a < |es| && es[a].Advance? && es[a].job == j && j !in Run(w, es).jobs
    ensures Run(w, es[..a + 1]).db == Run(w, es[..a]).db
    decreases |es|
  {
    hide NextTables, NextPhase, Apply, Blocked;
    var front := es[..|es| - 1];
    assert j !in Run(w, front).jobs;
    if a == |front| {
      assert es[..a + 1] == es && es[..a] == front;
    } else {
      assert front[..a + 1] == es[..a + 1] && front[..a] == es[..a];
      NotYetHere(w, front, j, a);
    }
  }

  // ----- a run that ends there -----

  lemma {:induction false} RunConcat(w: World, a: seq<Event>, b: seq<Event>)
    ensures Run(w, a + b) == Run(Run(w, a), b)
    decreases |b|
  {
    hide Next;
    if b == [] {
      assert a + b == a;
    } else {
      RunConcat(w, a, b[..|b| - 1]);
      assert (a + b)[..|a + b| - 1] == a + b[..|b| - 1];
    }
  }

  /** Price the whole bag, delete a product, then let the request go on. */
  function DeletedMidway(j: Id, now: Time, items: nat, store: Id, product: Id): seq<Event> {
    Alone(j, now, 3 * items + 2) + [Elsewhere(DeleteProduct(store, product))] + Alone(j, now, 4)
  }

  /** Any acceptable request whose key is free ends this way when a product of its bag is deleted between its pricing
      and its commit: nothing of it is written, and its answer is the lookup that finds nothing. */
  lemma {:induction false} DeletionStrands(w: World, j: Id, now: Time, k: nat)
    requires Inv(w) && j in w.jobs && Undisturbed(w, j) && w.jobs[j].phase == Start && KeyFree(w.db, w.jobs[j].request)
    requires Acceptable(w.db, w.jobs[j].request.store, w.jobs[j].request.payload)
    requires k < |w.jobs[j].request.payload.items|
    ensures var Request(store, customer, payload) := w.jobs[j].request;
            var after := DeleteProductIn(w.db, store, payload.items[k].product);
            && Run(w, DeletedMidway(j, now, |payload.items|, store, payload.items[k].product)) ==
               With(World(after, w.jobs), j, Done(Vanished))
            && after.orders == w.db.orders && after.items.Keys == w.db.items.Keys
  {
    hide Inv, Run, Alone, Next, Undisturbed, KeyTaken, CanPublish, ProductsOk, PriceAll, AllSellable, Sellable, Quote,
      LinesTotal, PricedPhase, With, Published, Recovered, Answer, DeleteProductIn;
    var Request(store, customer, payload) := w.jobs[j].request;
    var items, product := payload.items, payload.items[k].product;
    var before, deletion := Alone(j, now, 3 * |items| + 2), [Elsewhere(DeleteProduct(store, product))];
    InvProducts(w);
    AllPriced(w.db, store, items);
    var lines := PriceAll(w.db, store, items).value;
    BagPriced(w.db, w.jobs[j].request, now);
    AlonePrices(w, j, now, |items|);
    RunConcat(w, before + deletion, Alone(j, now, 4));
    RunConcat(w, before, deletion);
    DeletionStep(w, j, AtLine(now, lines), store, product);
    var v := World(DeleteProductIn(w.db, store, product), w.jobs);
    BagItemHere(w.db, store, items, k);
    DeletedRows(w.db, w.jobs[j].request, lines, k, now);
    QuoteNotNegative(w.db, items);
    StillUndisturbed(w, v.db, j);
    AloneEnds(v, j, now, lines);
  }

  lemma {:induction false} BagPriced(db: Tables, request: Request, now: Time)
    requires PriceAll(db, request.store, request.payload.items).Ok?
    ensures PricedPhase(db, request, now, |request.payload.items|) ==
            AtLine(now, PriceAll(db, request.store, request.payload.items).value)
  {
    hide PriceAll;
    assert request.payload.items[..|request.payload.items|] == request.payload.items;
  }

  lemma BagItemHere(db: Tables, store: Id, items: seq<ItemIn>, k: nat)
    requires AllSellable(db, store, items) && k < |items|
    ensures ProductOf(db, store, items[k].product)
  {
    assert Sellable(db, store, items[k]);
  }

  lemma DeletionStep(w: World, j: Id, phase: Phase, store: Id, product: Id)
    requires j in w.jobs
    ensures Run(With(w, j, phase), [Elsewhere(DeleteProduct(store, product))]) ==
            With(World(DeleteProductIn(w.db, store, product), w.jobs), j, phase)
  {
    hide DeleteProductIn;
    var e := Elsewhere(DeleteProduct(store, product));
    assert [e][..0] == [];
    assert Run(With(w, j, phase), [e][..0]) == With(w, j, phase);
  }

  lemma StillUndisturbed(w: World, after: Tables, j: Id)
    requires j in w.jobs && Undisturbed(w, j)
    ensures Undisturbed(World(after, w.jobs), j)
  {
  }

  lemma {:induction false} DeletedRows(db: Tables, request: Request, lines: seq<Line>, k: nat, now: Time)
    requires Answers(lines, request.payload.items) && k < |lines| && KeyFree(db, request)
    requires ProductOf(db, request.store, request.payload.items[k].product)
    ensures var after := DeleteProductIn(db, request.store, request.payload.items[k].product);
            var order := NewOrder(request.store, request.customer, request.payload, LinesTotal(lines), now);
            && after.orders == db.orders && after.items.Keys == db.items.Keys
            && !CanPublish(after, request.payload.id, order, lines)
            && Recovered(after.orders, request.store, request.customer, request.payload.key) == Vanished
  {
    hide Fresh, LineIds, LinesTotal;
    FoundOrder(db, request);
    assert Answer(lines[k], request.payload.items[k]);
  }

  // ----- one such run, from an empty shop -----

  /** One visible dress at store 7 and nothing else. */
  function Shop(): Tables {
    Tables(map[1 := Category(7, "Dresses", "dresses", 0)],
           map[2 := Product(7, 1, "Linen dress", "linen-dress", "", 45000, true, false, 0, 0)],
           map[], map[], map[], map[], map[], map[], map[], {1, 2})
  }

  function BuyDress(): Request {
    Request(7, 9, OrderIn(100, "key", Contact("Aline", "+250781111111", "Kigali", ""), [ItemIn(101, 2, [], 1)]))
  }

  lemma {:induction false} ShopCoherent()
    ensures Inv(World(Shop(), map[])) && KeyFree(Shop(), BuyDress())
  {
    var t := Shop();
    assert CatalogOk(t);
    assert ActivityOk(t);
    assert Coherent(t);
  }

  lemma {:induction false} DressAcceptable()
    ensures Acceptable(Shop(), 7, BuyDress().payload)
  {
    var items := BuyDress().payload.items;
    assert Sellable(Shop(), 7, items[0]);
    assert items[..|items| - 1] == [];
    assert Quote(Shop(), items[..|items| - 1]) == 0;
  }

  /** The docstring's promise fails here: one customer, one request, no rival for its key, and the answer is neither an
      order nor an HTTP error. */
  lemma {:induction false} VanishedRun()
    ensures var v := Run(World(Shop(), map[]), [Arrive(5, BuyDress())] + DeletedMidway(5, 0, 1, 7, 2));
            && 5 in v.jobs && v.jobs[5].phase == Done(Vanished)
            && v.db.orders == map[] && v.db.items == map[]
  {
    hide Inv, Acceptable, KeyFree, DeletedMidway, DeleteProductIn, Shop;
    var w := World(Shop(), map[]);
    var e := Arrive(5, BuyDress());
    ShopCoherent();
    DressAcceptable();
    NextKeeps(w, e);
    var start := World(Shop(), map[5 := Job(BuyDress(), Start)]);
    assert Next(w, e) == start;
    assert Run(w, [e]) == start by { assert [e][..0] == []; }
    RunConcat(w, [e], DeletedMidway(5, 0, 1, 7, 2));
    assert !Blocked(start, 5);
    DeletionStrands(start, 5, 0, 0);
    NoRows();
  }

  lemma NoRows()
    ensures Shop().orders == map[] && Shop().items == map[]
  {
  }
}
