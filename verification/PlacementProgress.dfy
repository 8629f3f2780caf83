/** Placements finish: every request needs a bounded number of its own steps, waiting never deadlocks, and a request
    that nobody disturbs answers exactly as if it ran alone. */
module PlacementProgress {
  import opened Schema
  import opened Catalog
  import opened Writes
  import opened Coherence
  import opened Ledger
  import opened Orders
  import opened Placement
  import opened PlacementResults

  /** How many steps a request may still take: three per bag item left, and a few around them. */
  function StepsLeft(job: Job): int {
    var n := |job.request.payload.items|;
    match job.phase
    case Start => 3 * n + 6
    case Insert => 3 * n + 5
    case AtLine(_, lines) => 3 * (n - |lines|) + 4
    case AtCover(_, lines, _) => 3 * (n - |lines|) + 3
    case AtOptions(_, lines, _, _) => 3 * (n - |lines|) + 2
    case AtTotal(_, _) => 3
    case AtCommit(_, _) => 2
    case Recover => 1
    case Done(_) => 0
  }

  predicate Waiting(w: World, j: Id)
    requires j in w.jobs
  {
    w.jobs[j].phase.Insert? && Blocked(w, j)
  }

  /** Each step of an unfinished request that is not waiting brings it closer to an answer. */
  lemma {:induction false} StepsRunOut(w: World, j: Id, now: Time)
    requires Inv(w) && j in w.jobs && !w.jobs[j].phase.Done? && !Waiting(w, j)
    ensures 0 <= StepsLeft(Next(w, Advance(j, now)).jobs[j]) < StepsLeft(w.jobs[j])
  {
    hide Coherent, Balanced, JobsApart, ReadProduct, CoverUrl, ResolveOptions, ExistingOrder, CanPublish, Answers,
      SeenAt;
    assert JobSound(w.db, w.jobs[j]);
  }

  /** While any request is unfinished, some unfinished request is not waiting: waits never form a deadlock. */
  lemma {:induction false} SomeoneMoves(w: World, j: Id)
    requires j in w.jobs && !w.jobs[j].phase.Done?
    ensures exists k :: k in w.jobs && !w.jobs[k].phase.Done? && !Waiting(w, k)
  {
    if Waiting(w, j) {
      var k :| k in w.jobs && k != j && InTransaction(w.jobs[k].phase) && Rivals(w.jobs[k].request, w.jobs[j].request);
      assert !Waiting(w, k);
    }
  }

  // ----- a request nobody disturbs -----

  function Alone(j: Id, now: Time, steps: nat): seq<Event> {
    if steps == 0 then [] else Alone(j, now, steps - 1) + [Advance(j, now)]
  }

  /** The phase after `steps` undisturbed steps over fixed rows; commits aside. */
  lemma {:induction false} AloneStep(w: World, j: Id, now: Time, steps: nat)
    requires steps > 0
    ensures Run(w, Alone(j, now, steps)) == Next(Run(w, Alone(j, now, steps - 1)), Advance(j, now))
  {
    var es := Alone(j, now, steps);
    assert es[..|es| - 1] == Alone(j, now, steps - 1) && es[|es| - 1] == Advance(j, now);
  }

  predicate Undisturbed(w: World, j: Id)
    requires j in w.jobs
  {
    !Blocked(w, j)
  }

  /** A step that does not commit changes the one request and nothing else. */
  lemma {:induction false} QuietStep(w: World, j: Id, phase: Phase, now: Time)
    requires j in w.jobs && Undisturbed(w, j)
    requires !Commits(w.db, w.jobs[j].request, phase)
    ensures var request := w.jobs[j].request;
            Next(w.(jobs := w.jobs[j := Job(request, phase)]), Advance(j, now)) ==
            w.(jobs := w.jobs[j := Job(request, NextPhase(w.db, request, phase, now, false))])
  {
    hide NextPhase, CanPublish;
    var request := w.jobs[j].request;
    var v := w.(jobs := w.jobs[j := Job(request, phase)]);
    assert Blocked(v, j) == Blocked(w, j);
    assert v.jobs[j := Job(request, NextPhase(w.db, request, phase, now, false))] ==
           w.jobs[j := Job(request, NextPhase(w.db, request, phase, now, false))];
  }

  function With(w: World, j: Id, phase: Phase): World
    requires j in w.jobs
  {
    w.(jobs := w.jobs[j := Job(w.jobs[j].request, phase)])
  }

  /** Where pricing the first k items leaves an undisturbed request. */
  function PricedPhase(db: Tables, request: Request, now: Time, k: nat): Phase
    requires k <= |request.payload.items|
  {
    match PriceAll(db, request.store, request.payload.items[..k])
    case Ok(lines) => AtLine(now, lines)
    case outcome => Done(outcome.PropagateFailure())
  }

  lemma {:induction false} PricesOneLine(db: Tables, request: Request, now: Time, k: nat)
    requires ProductsOk(db.products, db.categories) && k < |request.payload.items|
    ensures var p1 := NextPhase(db, request, PricedPhase(db, request, now, k), now, false);
            var p2 := NextPhase(db, request, p1, now, false);
            NextPhase(db, request, p2, now, false) == PricedPhase(db, request, now, k + 1)
  {
    hide ProductsOk, ReadProduct, CoverUrl, ResolveOptions, AllSellable, Answer, Quote, PriceAll, Sellable,
      AllOptionsOf;
    var items := request.payload.items;
    AllPriced(db, request.store, items[..k]);
    LinePriced(db, request.store, items[k]);
    OptionsAccepted(db, items[k].product, items[k].options);
    PriceNext(db, request.store, items, k);
  }

  lemma {:induction false} AlonePrices(w: World, j: Id, now: Time, k: nat)
    requires ProductsOk(w.db.products, w.db.categories) && j in w.jobs && Undisturbed(w, j)
    requires w.jobs[j].phase == Start && KeyFree(w.db, w.jobs[j].request) && w.jobs[j].request.payload.items != []
    requires k <= |w.jobs[j].request.payload.items|
    ensures Run(w, Alone(j, now, 3 * k + 2)) == With(w, j, PricedPhase(w.db, w.jobs[j].request, now, k))
  {
    hide ProductsOk, NextPhase, Commits, Run, KeyTaken, ExistingOrder, Alone, Next, Undisturbed, PricedPhase, With;
    var request := w.jobs[j].request;
    if k == 0 {
      AloneStarts(w, j, now);
    } else {
      AlonePrices(w, j, now, k - 1);
      PricingIsQuiet(w.db, request, now, k - 1);
      ThreeQuietSteps(w, j, PricedPhase(w.db, request, now, k - 1), now, 3 * k - 1);
      PricesOneLine(w.db, request, now, k - 1);
    }
  }

  lemma {:induction false} ThreeQuietSteps(w: World, j: Id, phase: Phase, now: Time, steps: nat)
    requires j in w.jobs && Undisturbed(w, j) && Run(w, Alone(j, now, steps)) == With(w, j, phase)
    requires var request := w.jobs[j].request;
             var p1 := NextPhase(w.db, request, phase, now, false);
             !Commits(w.db, request, phase) && !Commits(w.db, request, p1) &&
             !Commits(w.db, request, NextPhase(w.db, request, p1, now, false))
    ensures var request := w.jobs[j].request;
            var p2 := NextPhase(w.db, request, NextPhase(w.db, request, phase, now, false), now, false);
            Run(w, Alone(j, now, steps + 3)) == With(w, j, NextPhase(w.db, request, p2, now, false))
  {
    hide NextPhase, Commits, Run, Alone, Next, Undisturbed;
    var p1 := NextPhase(w.db, w.jobs[j].request, phase, now, false);
    var p2 := NextPhase(w.db, w.jobs[j].request, p1, now, false);
    AloneStep(w, j, now, steps + 1);
    QuietStep(w, j, phase, now);
    AloneStep(w, j, now, steps + 2);
    QuietStep(w, j, p1, now);
    AloneStep(w, j, now, steps + 3);
    QuietStep(w, j, p2, now);
  }

  lemma {:induction false} PricingIsQuiet(db: Tables, request: Request, now: Time, k: nat)
    requires k < |request.payload.items| && ProductsOk(db.products, db.categories)
    ensures var p0 := PricedPhase(db, request, now, k);
            var p1 := NextPhase(db, request, p0, now, false);
            var p2 := NextPhase(db, request, p1, now, false);
            !Commits(db, request, p0) && !Commits(db, request, p1) && !Commits(db, request, p2)
  {
    hide ProductsOk, ReadProduct, CoverUrl, ResolveOptions, AllSellable, Answer, Quote, PriceAll, CanPublish;
    AllPriced(db, request.store, request.payload.items[..k]);
  }

  lemma {:induction false} AloneStarts(w: World, j: Id, now: Time)
    requires j in w.jobs && Undisturbed(w, j)
    requires w.jobs[j].phase == Start && KeyFree(w.db, w.jobs[j].request) && w.jobs[j].request.payload.items != []
    ensures Run(w, Alone(j, now, 2)) == With(w, j, PricedPhase(w.db, w.jobs[j].request, now, 0))
  {
    hide CanPublish, KeyTaken;
    var request := w.jobs[j].request;
    assert w == With(w, j, Start);
    AloneStep(w, j, now, 1);
    QuietStep(w, j, Start, now);
    AloneStep(w, j, now, 2);
    QuietStep(w, j, Insert, now);
    assert request.payload.items[..0] == [];
  }

  /** Once pricing is over two quiet steps lead to the commit, unless the total does not fit. */
  lemma {:induction false} TotalSteps(w: World, j: Id, now: Time, lines: seq<Line>)
    requires j in w.jobs && Undisturbed(w, j) && LinesTotal(lines) >= 0
    requires |lines| == |w.jobs[j].request.payload.items|
    ensures Run(With(w, j, AtLine(now, lines)), Alone(j, now, 2)) ==
            With(w, j, if LinesTotal(lines) > MAX_INT then Done(Failed(DataError)) else AtCommit(now, lines))
  {
    hide CanPublish, LinesTotal, Run, Next, Alone, Undisturbed, KeyTaken, ExistingOrder;
    var v := With(w, j, AtLine(now, lines));
    NoEvents(v, j, now);
    AloneStep(v, j, now, 1);
    QuietStep(w, j, AtLine(now, lines), now);
    AloneStep(v, j, now, 2);
    QuietStep(w, j, AtTotal(now, lines), now);
  }

  /** A commit that is refused ends in recovery, and recovery in its answer. */
  lemma {:induction false} RefusedSteps(w: World, j: Id, now: Time, lines: seq<Line>)
    requires j in w.jobs && Undisturbed(w, j) && !Commits(w.db, w.jobs[j].request, AtCommit(now, lines))
    ensures var request := w.jobs[j].request;
            Run(With(w, j, AtCommit(now, lines)), Alone(j, now, 2)) ==
            With(w, j, Done(Recovered(w.db.orders, request.store, request.customer, request.payload.key)))
  {
    hide Commits, LinesTotal, Run, Next, Alone, Undisturbed, KeyTaken, ExistingOrder, Recovered;
    var v := With(w, j, AtCommit(now, lines));
    NoEvents(v, j, now);
    AloneStep(v, j, now, 1);
    QuietStep(w, j, AtCommit(now, lines), now);
    AloneStep(v, j, now, 2);
    NotCommitting(w.db, w.jobs[j].request);
    QuietStep(w, j, Recover, now);
  }

  lemma NotCommitting(db: Tables, request: Request)
    ensures !Commits(db, request, Recover)
  {
  }

  lemma {:induction false} CommitSteps(w: World, j: Id, now: Time, lines: seq<Line>)
    requires j in w.jobs && Commits(w.db, w.jobs[j].request, AtCommit(now, lines))
    ensures var request := w.jobs[j].request;
            var order := NewOrder(request.store, request.customer, request.payload, LinesTotal(lines), now);
            Run(With(w, j, AtCommit(now, lines)), Alone(j, now, 2)) ==
            World(Published(w.db, request.payload.id, order, lines),
                  w.jobs[j := Job(request, Done(Ok(Receipt(request.payload.id, true))))])
  {
    hide Commits, LinesTotal, Run, Next, Alone, Published, With;
    var v := With(w, j, AtCommit(now, lines));
    NoEvents(v, j, now);
    AloneStep(v, j, now, 1);
    AloneStep(v, j, now, 2);
    CommitStep(w, j, now, lines);
  }

  /** The phases of an undisturbed request once pricing is over: total, commit, and recovery if the commit fails. */
  lemma {:induction false} AloneEnds(w: World, j: Id, now: Time, lines: seq<Line>)
    requires j in w.jobs && Undisturbed(w, j) && LinesTotal(lines) >= 0
    requires |lines| == |w.jobs[j].request.payload.items|
    ensures var request := w.jobs[j].request;
            var order := NewOrder(request.store, request.customer, request.payload, LinesTotal(lines), now);
            Run(With(w, j, AtLine(now, lines)), Alone(j, now, 4)) ==
            (if LinesTotal(lines) > MAX_INT then With(w, j, Done(Failed(DataError)))
             else if CanPublish(w.db, request.payload.id, order, lines)
             then World(Published(w.db, request.payload.id, order, lines),
                        w.jobs[j := Job(request, Done(Ok(Receipt(request.payload.id, true))))])
             else With(w, j, Done(Recovered(w.db.orders, request.store, request.customer, request.payload.key))))
  {
    hide CanPublish, Published, LinesTotal, Run, Next, Alone, Undisturbed, With, Recovered;
    AloneSplit(With(w, j, AtLine(now, lines)), j, now, 2, 2);
    TotalSteps(w, j, now, lines);
    if LinesTotal(lines) > MAX_INT {
      DoneIdles(w, j, now, Failed(DataError), 2);
    } else if Commits(w.db, w.jobs[j].request, AtCommit(now, lines)) {
      CommitSteps(w, j, now, lines);
    } else {
      RefusedSteps(w, j, now, lines);
    }
  }

  lemma NoEvents(w: World, j: Id, now: Time)
    ensures Run(w, Alone(j, now, 0)) == w
  {
  }

  lemma {:induction false} CommitStep(w: World, j: Id, now: Time, lines: seq<Line>)
    requires j in w.jobs && Commits(w.db, w.jobs[j].request, AtCommit(now, lines))
    ensures var request := w.jobs[j].request;
            var order := NewOrder(request.store, request.customer, request.payload, LinesTotal(lines), now);
            var after := World(Published(w.db, request.payload.id, order, lines),
                               w.jobs[j := Job(request, Done(Ok(Receipt(request.payload.id, true))))]);
            Next(With(w, j, AtCommit(now, lines)), Advance(j, now)) == after &&
            Next(after, Advance(j, now)) == after
  {
    hide CanPublish, Published, LinesTotal;
    var request := w.jobs[j].request;
    var done := Job(request, Done(Ok(Receipt(request.payload.id, true))));
    assert With(w, j, AtCommit(now, lines)).jobs[j := done] == w.jobs[j := done];
    assert w.jobs[j := done][j := done] == w.jobs[j := done];
  }

  lemma {:induction false} AloneSplit(w: World, j: Id, now: Time, a: nat, b: nat)
    ensures Run(w, Alone(j, now, a + b)) == Run(Run(w, Alone(j, now, a)), Alone(j, now, b))
    decreases b
  {
    hide Run, Next;
    if b == 0 {
      NoEvents(Run(w, Alone(j, now, a)), j, now);
    } else {
      AloneSplit(w, j, now, a, b - 1);
      AloneStep(w, j, now, a + b);
      AloneStep(Run(w, Alone(j, now, a)), j, now, b);
    }
  }

  lemma {:induction false} DoneIdles(w: World, j: Id, now: Time, outcome: Outcome<Receipt>, steps: nat)
    requires j in w.jobs
    ensures Run(With(w, j, Done(outcome)), Alone(j, now, steps)) == With(w, j, Done(outcome))
    decreases steps
  {
    hide Run, Alone, NextPhase;
    if steps == 0 {
      NoEvents(With(w, j, Done(outcome)), j, now);
    } else {
      DoneIdles(w, j, now, outcome, steps - 1);
      AloneStep(With(w, j, Done(outcome)), j, now, steps);
      DoneStep(w, j, now, outcome);
    }
  }

  lemma {:induction false} DoneStep(w: World, j: Id, now: Time, outcome: Outcome<Receipt>)
    requires j in w.jobs
    ensures Next(With(w, j, Done(outcome)), Advance(j, now)) == With(w, j, Done(outcome))
  {
    var done := Job(w.jobs[j].request, Done(outcome));
    assert w.jobs[j := done][j := done] == w.jobs[j := done];
  }

  lemma {:induction false} AloneRefusedAtOnce(w: World, j: Id, now: Time)
    requires j in w.jobs && Undisturbed(w, j) && w.jobs[j].phase == Start
    requires !KeyFree(w.db, w.jobs[j].request) || w.jobs[j].request.payload.items == []
    ensures var request := w.jobs[j].request;
            Run(w, Alone(j, now, 1)) ==
            With(w, j, Done(Placed(w.db, request.store, request.customer, request.payload, now)))
  {
    hide CanPublish, KeyTaken, ExistingOrder, PriceAll;
    var request := w.jobs[j].request;
    assert w == With(w, j, Start);
    AloneStep(w, j, now, 1);
    QuietStep(w, j, Start, now);
    ExistingFound(w.db, request);
  }

  lemma ExistingFound(db: Tables, request: Request)
    ensures ExistingOrder(db.orders, request.store, request.customer, request.payload.key).Some? <==>
              !KeyFree(db, request)
  {
  }

  /** The concurrent machine and the sequential reading of `place_order` agree: from any reachable world, a request
      whose key no open transaction holds, stepped on its own, gives the answer and leaves the tables of the service
      run alone. */
  lemma {:induction false} AnswersAsAlone(w: World, j: Id, now: Time)
    requires Inv(w) && j in w.jobs && Undisturbed(w, j) && w.jobs[j].phase == Start
    ensures var Request(store, customer, payload) := w.jobs[j].request;
            Run(w, Alone(j, now, 3 * |payload.items| + 6)) ==
            World(AfterPlacing(w.db, store, customer, payload, now),
                  w.jobs[j := Job(w.jobs[j].request, Done(Placed(w.db, store, customer, payload, now)))])
  {
    hide Inv, Run, Alone, CanPublish, Published, KeyTaken, PriceAll, ExistingOrder, ProductsOk, AllSellable, Quote,
      LinesTotal, Undisturbed, Answer;
    var request := w.jobs[j].request;
    var Request(store, customer, payload) := request;
    var n := |payload.items|;
    InvProducts(w);
    ExistingFound(w.db, request);
    if !KeyFree(w.db, request) || payload.items == [] {
      AloneRefusedAtOnce(w, j, now);
      AloneSplit(w, j, now, 1, 3 * n + 5);
      DoneIdles(w, j, now, Placed(w.db, store, customer, payload, now), 3 * n + 5);
    } else {
      AlonePrices(w, j, now, n);
      AloneSplit(w, j, now, 3 * n + 2, 4);
      assert payload.items[..n] == payload.items;
      AllPriced(w.db, store, payload.items);
      var priced := PriceAll(w.db, store, payload.items);
      if priced.Ok? {
        QuoteNotNegative(w.db, payload.items);
        AloneEnds(w, j, now, priced.value);
      } else {
        DoneIdles(w, j, now, priced.PropagateFailure(), 4);
      }
    }
  }

  lemma InvProducts(w: World)
    requires Inv(w)
    ensures ProductsOk(w.db.products, w.db.categories)
  {
  }

  /** A key survives every failure: if no order held it at the start and no request of it has answered created = True,
      then after any run a valid request with that key, undisturbed, commits its order. */
  lemma {:induction false} RetryCommits(w: World, es: seq<Event>, j: Id, now: Time)
    requires Inv(w) && w.jobs == map[]
    requires j in Run(w, es).jobs && Undisturbed(Run(w, es), j) && Run(w, es).jobs[j].phase == Start
    requires KeyFree(w.db, Run(w, es).jobs[j].request)
    requires forall k :: k in Run(w, es).jobs && Created(Run(w, es).jobs[k]) ==>
               !Rivals(Run(w, es).jobs[k].request, Run(w, es).jobs[j].request)
    requires Fresh(Run(w, es).db, DrawnIds(Run(w, es).jobs[j].request.payload))
    requires Acceptable(Run(w, es).db, Run(w, es).jobs[j].request.store, Run(w, es).jobs[j].request.payload)
    ensures var request := Run(w, es).jobs[j].request;
            var later := Run(Run(w, es), Alone(j, now, 3 * |request.payload.items| + 6));
            j in later.jobs && later.jobs[j].phase == Done(Ok(Receipt(request.payload.id, true)))
  {
    hide Run, Inv, Alone, Undisturbed, Acceptable, Fresh, DrawnIds, KeyTaken, Placed, AfterPlacing, ProductsOk, Frozen;
    var v := Run(w, es);
    var Request(store, customer, payload) := v.jobs[j].request;
    RunKeeps(w, es);
    FailedKeyStaysFree(w, es, v.jobs[j].request);
    AnswersAsAlone(v, j, now);
    InvProducts(v);
    NoneKeyed(v.db.orders, store, customer, payload.key);
    AcceptedAlone(v.db, store, customer, payload, now);
  }
}
