/** Concurrent order placement (apps/orders/services.py) as a state machine. Any number of requests run at once; each
    query is one step that reads committed rows, a transaction's rows become visible when it commits, and writes of
    every other service happen between any two steps. */
module Placement {
  import opened Schema
  import opened Catalog
  import opened Writes
  import opened Coherence
  import opened Ledger
  import opened Orders

  datatype Request = Request(store: Id, customer: Id, payload: OrderIn)

  /** Where a request stands. From `AtLine` to `AtCommit` it is inside its transaction, the order row inserted but
      visible to nobody else; `lines` are the bag items snapshotted so far. */
  datatype Phase =
    | Start
    | Insert
    | AtLine(createdAt: Time, lines: seq<Line>)
    | AtCover(createdAt: Time, lines: seq<Line>, row: Product)
    | AtOptions(createdAt: Time, lines: seq<Line>, row: Product, cover: string)
    | AtTotal(createdAt: Time, lines: seq<Line>)
    | AtCommit(createdAt: Time, lines: seq<Line>)
    | Recover
    | Done(outcome: Outcome<Receipt>)

  datatype Job = Job(request: Request, phase: Phase)

  datatype World = World(db: Tables, jobs: map<Id, Job>)

  datatype Event =
    | Arrive(job: Id, request: Request)
    | Advance(job: Id, now: Time)
    | Elsewhere(write: Write)

  predicate InTransaction(phase: Phase) {
    phase.AtLine? || phase.AtCover? || phase.AtOptions? || phase.AtTotal? || phase.AtCommit?
  }

  predicate KeyFree(db: Tables, request: Request) {
    !KeyTaken(db.orders, request.store, request.customer, request.payload.key)
  }

  predicate Rivals(a: Request, b: Request) {
    a.store == b.store && a.customer == b.customer && a.payload.key == b.payload.key
  }

  /** An INSERT waits while another open transaction has inserted the same key. */
  predicate Blocked(w: World, job: Id)
    requires job in w.jobs
  {
    exists other :: other in w.jobs && other != job && InTransaction(w.jobs[other].phase) &&
                    Rivals(w.jobs[other].request, w.jobs[job].request)
  }

  function Publication(request: Request, createdAt: Time, lines: seq<Line>): Write {
    PublishOrder(request.store, request.payload.id,
                 NewOrder(request.store, request.customer, request.payload, LinesTotal(lines), createdAt), lines)
  }

  predicate Commits(db: Tables, request: Request, phase: Phase) {
    phase.AtCommit? &&
    CanPublish(db, request.payload.id,
               NewOrder(request.store, request.customer, request.payload, LinesTotal(phase.lines), phase.createdAt),
               phase.lines)
  }

  /** The step from a phase, reading the committed rows `db`. */
  function NextPhase(db: Tables, request: Request, phase: Phase, now: Time, blocked: bool): Phase {
    var items := request.payload.items;
    match phase
    case Start =>
      (match ExistingOrder(db.orders, request.store, request.customer, request.payload.key)
       case Some(order) => Done(Ok(Receipt(order, false)))
       case None => if items == [] then Done(BadRequest) else Insert)
    case Insert =>
      if blocked then Insert else if !KeyFree(db, request) then Recover else AtLine(now, [])
    case AtLine(createdAt, lines) =>
      if |lines| >= |items| then AtTotal(createdAt, lines) else
        (match ReadProduct(db, request.store, items[|lines|].product)
         case None => Done(NotFound)
         case Some(row) => AtCover(createdAt, lines, row))
    case AtCover(createdAt, lines, row) =>
      if |lines| >= |items| then phase
      else AtOptions(createdAt, lines, row, CoverUrl(db, items[|lines|].product))
    case AtOptions(createdAt, lines, row, cover) =>
      if |lines| >= |items| then phase else
        var item := items[|lines|];
        (match ResolveOptions(db, item.product, item.options)
         case Ok(options) =>
           var line := LineOf(item, row, cover, options);
           (match LineFault(line)
            case None => AtLine(createdAt, lines + [line])
            case Some(DataError) => Done(Failed(DataError))
            case Some(IntegrityError) => Recover)
         case _ => Done(BadRequest))
    case AtTotal(createdAt, lines) =>
      (match ColumnFault(true, LinesTotal(lines))
       case None => AtCommit(createdAt, lines)
       case Some(DataError) => Done(Failed(DataError))
       case Some(IntegrityError) => Recover)
    case AtCommit(createdAt, lines) =>
      if Commits(db, request, phase) then Done(Ok(Receipt(request.payload.id, true))) else Recover
    case Recover => Done(Recovered(db.orders, request.store, request.customer, request.payload.key))
    case Done(_) => phase
  }

  /** Only the commit step touches committed rows. */
  function NextTables(db: Tables, request: Request, phase: Phase): Tables {
    if Commits(db, request, phase) then Apply(db, Publication(request, phase.createdAt, phase.lines)) else db
  }

  function Next(w: World, e: Event): World {
    match e
    case Arrive(job, request) => if job in w.jobs then w else w.(jobs := w.jobs[job := Job(request, Start)])
    case Advance(job, now) =>
      if job !in w.jobs then w else
        var Job(request, phase) := w.jobs[job];
        World(NextTables(w.db, request, phase),
              w.jobs[job := Job(request, NextPhase(w.db, request, phase, now, Blocked(w, job)))])
    case Elsewhere(write) => if write.PublishOrder? then w else w.(db := Apply(w.db, write))
  }

  /** The world after a list of events, oldest first. */
  function Run(w: World, es: seq<Event>): World {
    if es == [] then w else Next(Run(w, es[..|es| - 1]), es[|es| - 1])
  }

  // ----- the invariant -----

  /** A product id that was read in a store: whatever row it names now is that store's. */
  ghost predicate SeenAt(db: Tables, store: Id, product: Id) {
    product in db.issued && (product in db.products ==> db.products[product].store == store)
  }

  ghost predicate LinesSound(db: Tables, request: Request, lines: seq<Line>) {
    && |lines| <= |request.payload.items|
    && Answers(lines, request.payload.items[..|lines|])
    && forall l :: l in lines ==> SeenAt(db, request.store, l.product)
  }

  predicate Holds(orders: map<Id, Order>, order: Id, request: Request) {
    KeyedBy(orders, request.store, request.customer, request.payload.key, order)
  }

  ghost predicate PhaseSound(db: Tables, request: Request, phase: Phase) {
    match phase
    case Start => true
    case Insert => request.payload.items != []
    case AtLine(_, lines) => LinesSound(db, request, lines)
    case AtCover(_, lines, _) => LinesSound(db, request, lines) && ReadingSound(db, request, lines)
    case AtOptions(_, lines, _, _) => LinesSound(db, request, lines) && ReadingSound(db, request, lines)
    case AtTotal(_, lines) => LinesSound(db, request, lines) && |lines| == |request.payload.items|
    case AtCommit(_, lines) => LinesSound(db, request, lines) && |lines| == |request.payload.items|
    case Recover => true
    case Done(outcome) => outcome.Ok? ==> Holds(db.orders, outcome.value.order, request)
  }

  ghost predicate ReadingSound(db: Tables, request: Request, lines: seq<Line>) {
    |lines| < |request.payload.items| && SeenAt(db, request.store, request.payload.items[|lines|].product)
  }

  ghost predicate JobSound(db: Tables, job: Job) {
    PhaseSound(db, job.request, job.phase) && (InTransaction(job.phase) ==> KeyFree(db, job.request))
  }

  /** The request finished with created = True. */
  predicate Created(job: Job) {
    job.phase.Done? && job.phase.outcome.Ok? && job.phase.outcome.value.created
  }

  predicate ShareKey(a: Job, b: Job) {
    InTransaction(a.phase) && InTransaction(b.phase) && Rivals(a.request, b.request)
  }

  predicate ShareOrder(a: Job, b: Job) {
    Created(a) && Created(b) && a.phase.outcome.value.order == b.phase.outcome.value.order
  }

  /** No two open transactions have inserted one key, and no two requests created one order. */
  ghost predicate JobsApart(jobs: map<Id, Job>) {
    && (forall a, b :: a in jobs && b in jobs && ShareKey(jobs[a], jobs[b]) ==> a == b)
    && (forall a, b :: a in jobs && b in jobs && ShareOrder(jobs[a], jobs[b]) ==> a == b)
  }

  ghost predicate Inv(w: World) {
    && Coherent(w.db) && Balanced(w.db) && JobsApart(w.jobs)
    && forall j :: j in w.jobs ==> JobSound(w.db, w.jobs[j])
  }

  // ----- what a change of committed rows means to a request in flight -----

  lemma {:induction false} SeenStays(before: Tables, after: Tables, store: Id, product: Id)
    requires NeverReissued(before, after) && SeenAt(before, store, product)
    ensures SeenAt(after, store, product)
  {
  }

  lemma {:induction false} LinesStay(before: Tables, after: Tables, request: Request, lines: seq<Line>)
    requires NeverReissued(before, after) && LinesSound(before, request, lines)
    ensures LinesSound(after, request, lines)
  {
    hide NeverReissued, SeenAt;
    forall l | l in lines ensures SeenAt(after, request.store, l.product) {
      SeenStays(before, after, request.store, l.product);
    }
  }

  lemma {:induction false} HoldsStays(before: map<Id, Order>, after: map<Id, Order>, order: Id, request: Request)
    requires OrdersFrozen(before, after) && Holds(before, order, request)
    ensures Holds(after, order, request)
  {
  }

  lemma {:induction false} PhaseStays(before: Tables, after: Tables, request: Request, phase: Phase)
    requires NeverReissued(before, after) && OrdersFrozen(before.orders, after.orders)
    requires PhaseSound(before, request, phase)
    ensures PhaseSound(after, request, phase)
  {
    hide NeverReissued, OrdersFrozen, LinesSound, SeenAt, Holds;
    match phase
    case AtLine(_, lines) => LinesStay(before, after, request, lines);
    case AtCover(_, lines, _) =>
      LinesStay(before, after, request, lines);
      SeenStays(before, after, request.store, request.payload.items[|lines|].product);
    case AtOptions(_, lines, _, _) =>
      LinesStay(before, after, request, lines);
      SeenStays(before, after, request.store, request.payload.items[|lines|].product);
    case AtTotal(_, lines) => LinesStay(before, after, request, lines);
    case AtCommit(_, lines) => LinesStay(before, after, request, lines);
    case Done(outcome) => if outcome.Ok? { HoldsStays(before.orders, after.orders, outcome.value.order, request); }
    case _ =>
  }

  // ----- one step of one request -----

  lemma {:induction false} LinesHome(db: Tables, request: Request, lines: seq<Line>)
    requires LinesSound(db, request, lines)
    ensures LinesAtHome(db, request.store, lines)
  {
  }

  lemma {:induction false} ReadAtHome(db: Tables, store: Id, product: Id)
    requires RowsIssued(db) && ReadProduct(db, store, product).Some?
    ensures SeenAt(db, store, product)
  {
  }

  lemma {:induction false} LinesGrow(db: Tables, request: Request, lines: seq<Line>, line: Line)
    requires LinesSound(db, request, lines) && ReadingSound(db, request, lines)
    requires Answer(line, request.payload.items[|lines|])
    ensures LinesSound(db, request, lines + [line])
  {
    var longer, items := lines + [line], request.payload.items;
    assert items[..|longer|] == items[..|lines|] + [items[|lines|]];
  }

  /** The committed rows change only when the request commits, and then by exactly its order and lines. */
  lemma {:induction false} CommitKeeps(db: Tables, request: Request, phase: Phase)
    requires Coherent(db) && Balanced(db) && PhaseSound(db, request, phase)
    ensures Coherent(NextTables(db, request, phase)) && Balanced(NextTables(db, request, phase))
    ensures Frozen(db, NextTables(db, request, phase))
  {
    hide Coherent, Balanced, Frozen, Apply, CanPublish, LinesSound;
    if Commits(db, request, phase) {
      var write := Publication(request, phase.createdAt, phase.lines);
      LinesHome(db, request, phase.lines);
      EveryWriteKeepsCoherence(db, write);
      EveryWriteKeepsBalance(db, write);
      EveryWriteFreezesOrders(db, write);
    } else {
      AlwaysFrozen(db);
    }
  }

  lemma AlwaysFrozen(db: Tables)
    requires Coherent(db)
    ensures Frozen(db, db)
  {
    UntouchedFrozen(db, db);
  }

  lemma {:induction false} OptionsStep(db: Tables, request: Request, phase: Phase, now: Time, blocked: bool)
    requires PhaseSound(db, request, phase) && phase.AtOptions?
    ensures PhaseSound(db, request, NextPhase(db, request, phase, now, blocked))
  {
    hide ResolveOptions, LinesSound, SeenAt;
    var lines, item := phase.lines, request.payload.items[|phase.lines|];
    var options := ResolveOptions(db, item.product, item.options);
    if options.Ok? {
      LinesGrow(db, request, lines, LineOf(item, phase.row, phase.cover, options.value));
    }
  }

  lemma {:induction false} FoundHolds(orders: map<Id, Order>, request: Request)
    ensures var found := ExistingOrder(orders, request.store, request.customer, request.payload.key);
            found.Some? ==> Holds(orders, found.value, request)
  {
  }

  lemma {:induction false} ReadStep(db: Tables, request: Request, phase: Phase, now: Time, blocked: bool)
    requires RowsIssued(db) && PhaseSound(db, request, phase) && !phase.AtOptions? && !Commits(db, request, phase)
    ensures PhaseSound(db, request, NextPhase(db, request, phase, now, blocked))
  {
    hide RowsIssued, ReadProduct, CoverUrl, ExistingOrder, CanPublish, SeenAt, Holds, Answers, KeyTaken;
    FoundHolds(db.orders, request);
    if phase.AtLine? && |phase.lines| < |request.payload.items| {
      var product := request.payload.items[|phase.lines|].product;
      if ReadProduct(db, request.store, product).Some? {
        ReadAtHome(db, request.store, product);
      }
    }
    if phase.Insert? {
      NothingAnswered(request);
    }
  }

  lemma NothingAnswered(request: Request)
    ensures Answers([], request.payload.items[..0])
  {
  }

  lemma {:induction false} CommitHolds(db: Tables, request: Request, phase: Phase)
    requires Commits(db, request, phase)
    ensures Holds(NextTables(db, request, phase).orders, request.payload.id, request)
  {
  }

  // ----- every event keeps the invariant -----

  /** Writes of the other services neither add nor remove orders. */
  lemma {:induction false} OtherKeysStay(db: Tables, write: Write, request: Request)
    requires !write.PublishOrder? && Coherent(db)
    ensures KeyFree(db, request) ==> KeyFree(Apply(db, write), request)
  {
    hide Apply, Coherent, OrdersNotReissued;
    SameOrders(db, write);
    EveryWriteFreezesOrders(db, write);
    var after := Apply(db, write);
    forall o | o in after.orders ensures o in db.orders && Restated(db.orders[o], after.orders[o]) {}
  }

  lemma {:induction false} SameOrders(db: Tables, write: Write)
    requires !write.PublishOrder?
    ensures Apply(db, write).orders.Keys == db.orders.Keys
  {
    hide CreateCategoryIn, CreateProductIn, UpdateProductIn, DeleteProductIn, SetStatusIn, AddFavoriteIn,
      RemoveFavoriteIn, SubscribeIn, UnsubscribeIn, PruneIn;
    match write
    case DeleteProduct(store, product) => DeletingKeepsOrders(db, store, product);
    case SetStatus(store, order, status, now) => MovingKeepsOrders(db, store, order, status, now);
    case _ =>
  }

  lemma DeletingKeepsOrders(db: Tables, store: Id, product: Id)
    ensures DeleteProductIn(db, store, product).orders == db.orders
  {
    hide ImagesLess, GroupsLess, ChoicesLess, FavoritesLess, Unlinked;
  }

  lemma MovingKeepsOrders(db: Tables, store: Id, order: Id, status: Status, now: Time)
    ensures SetStatusIn(db, store, order, status, now).orders.Keys == db.orders.Keys
  {
  }

  lemma {:induction false} ElsewhereKeeps(w: World, write: Write)
    requires Inv(w) && !write.PublishOrder?
    ensures Inv(Next(w, Elsewhere(write))) && Frozen(w.db, Next(w, Elsewhere(write)).db)
  {
    hide Apply, Coherent, Balanced, PhaseSound, JobsApart, KeyFree, OrdersFrozen, NeverReissued;
    EveryWriteKeepsCoherence(w.db, write);
    EveryWriteKeepsBalance(w.db, write);
    EveryWriteFreezesOrders(w.db, write);
    var after := Apply(w.db, write);
    forall j | j in w.jobs ensures JobSound(after, w.jobs[j]) {
      assert JobSound(w.db, w.jobs[j]);
      PhaseStays(w.db, after, w.jobs[j].request, w.jobs[j].phase);
      OtherKeysStay(w.db, write, w.jobs[j].request);
    }
  }

  /** Publishing an order of another key leaves a free key free. */
  lemma {:induction false} RivalsStay(db: Tables, request: Request, phase: Phase, other: Request)
    requires KeyFree(db, other) && !Rivals(request, other)
    ensures KeyFree(NextTables(db, request, phase), other)
  {
  }

  lemma {:induction false} StepSound(db: Tables, request: Request, phase: Phase, now: Time, blocked: bool)
    requires Coherent(db) && Balanced(db) && PhaseSound(db, request, phase)
    ensures PhaseSound(NextTables(db, request, phase), request, NextPhase(db, request, phase, now, blocked))
  {
    hide Coherent, Balanced, PhaseSound, NextTables, NextPhase, CanPublish, OrdersFrozen, NeverReissued;
    if Commits(db, request, phase) {
      CommitPhase(db, request, phase, now, blocked);
    } else if phase.AtOptions? {
      OptionsStep(db, request, phase, now, blocked);
      NoCommitNoChange(db, request, phase);
    } else {
      CoherentIds(db);
      ReadStep(db, request, phase, now, blocked);
      NoCommitNoChange(db, request, phase);
    }
  }

  lemma CoherentIds(db: Tables)
    requires Coherent(db)
    ensures RowsIssued(db)
  {
  }

  lemma NoCommitNoChange(db: Tables, request: Request, phase: Phase)
    requires !Commits(db, request, phase)
    ensures NextTables(db, request, phase) == db
  {
  }

  lemma {:induction false} CommitPhase(db: Tables, request: Request, phase: Phase, now: Time, blocked: bool)
    requires Commits(db, request, phase)
    ensures NextPhase(db, request, phase, now, blocked) == Done(Ok(Receipt(request.payload.id, true)))
    ensures PhaseSound(NextTables(db, request, phase), request, NextPhase(db, request, phase, now, blocked))
  {
    hide NextTables, CanPublish;
    CommitHolds(db, request, phase);
  }

  lemma {:induction false} TransactionStep(db: Tables, request: Request, phase: Phase, now: Time, blocked: bool)
    requires InTransaction(phase) ==> KeyFree(db, request)
    ensures var next := NextPhase(db, request, phase, now, blocked);
            InTransaction(next) ==>
              KeyFree(NextTables(db, request, phase), request) && (InTransaction(phase) || (phase.Insert? && !blocked))
  {
    hide ReadProduct, CoverUrl, ResolveOptions, ExistingOrder, CanPublish, KeyFree;
  }

  lemma {:induction false} CreatedStep(db: Tables, request: Request, phase: Phase, now: Time, blocked: bool)
    ensures var next := NextPhase(db, request, phase, now, blocked);
            Created(Job(request, next)) ==>
              next == phase || (Commits(db, request, phase) && next == Done(Ok(Receipt(request.payload.id, true))))
  {
    hide ReadProduct, CoverUrl, ResolveOptions, ExistingOrder, CanPublish;
  }

  lemma {:induction false} AdvanceKeysApart(w: World, j: Id, now: Time)
    requires JobsApart(w.jobs) && j in w.jobs && JobSound(w.db, w.jobs[j])
    ensures var after := Next(w, Advance(j, now)).jobs;
            forall a :: a in w.jobs && a != j ==> !ShareKey(w.jobs[a], after[j])
  {
    hide NextPhase, NextTables, PhaseSound, KeyFree;
    var Job(request, phase) := w.jobs[j];
    TransactionStep(w.db, request, phase, now, Blocked(w, j));
    var after := Next(w, Advance(j, now)).jobs;
    forall a | a in w.jobs && a != j ensures !ShareKey(w.jobs[a], after[j]) {
      assert InTransaction(phase) ==> !ShareKey(w.jobs[a], w.jobs[j]);
    }
  }

  lemma {:induction false} AdvanceOrdersApart(w: World, j: Id, now: Time)
    requires Inv(w) && j in w.jobs
    ensures var after := Next(w, Advance(j, now)).jobs;
            forall a :: a in w.jobs && a != j ==> !ShareOrder(w.jobs[a], after[j])
  {
    hide NextPhase, NextTables, Coherent, Balanced, CanPublish, LinesSound, ReadingSound, KeyFree;
    var Job(request, phase) := w.jobs[j];
    CreatedStep(w.db, request, phase, now, Blocked(w, j));
    InvCoherent(w);
    var after := Next(w, Advance(j, now)).jobs;
    forall a | a in w.jobs && a != j ensures !ShareOrder(w.jobs[a], after[j]) {
      assert !ShareOrder(w.jobs[a], w.jobs[j]);
      assert JobSound(w.db, w.jobs[a]);
      if Commits(w.db, request, phase) {
        CommitIsNew(w.db, request, phase);
      }
    }
  }

  lemma {:induction false} AdvanceApart(w: World, j: Id, now: Time)
    requires Inv(w) && j in w.jobs
    ensures JobsApart(Next(w, Advance(j, now)).jobs)
  {
    hide NextPhase, NextTables, Coherent, Balanced, Blocked, JobSound;
    assert JobSound(w.db, w.jobs[j]);
    AdvanceKeysApart(w, j, now);
    AdvanceOrdersApart(w, j, now);
  }

  lemma {:induction false} CommitIsNew(db: Tables, request: Request, phase: Phase)
    requires RowsIssued(db) && Commits(db, request, phase)
    ensures request.payload.id !in db.orders
  {
    assert request.payload.id in [request.payload.id] + LineIds(phase.lines);
  }

  lemma {:induction false} AdvanceKeeps(w: World, j: Id, now: Time)
    requires Inv(w) && j in w.jobs
    ensures Inv(Next(w, Advance(j, now))) && Frozen(w.db, Next(w, Advance(j, now)).db)
  {
    hide Coherent, Balanced, PhaseSound, NextPhase, NextTables, JobsApart, CanPublish, KeyFree, Rivals, Blocked,
      OrdersFrozen, NeverReissued;
    var Job(request, phase) := w.jobs[j];
    assert JobSound(w.db, w.jobs[j]);
    var blocked := Blocked(w, j);
    CommitKeeps(w.db, request, phase);
    StepSound(w.db, request, phase, now, blocked);
    TransactionStep(w.db, request, phase, now, blocked);
    AdvanceApart(w, j, now);
    var after := NextTables(w.db, request, phase);
    forall a | a in w.jobs && a != j ensures JobSound(after, w.jobs[a]) {
      assert JobSound(w.db, w.jobs[a]);
      PhaseStays(w.db, after, w.jobs[a].request, w.jobs[a].phase);
      if InTransaction(w.jobs[a].phase) {
        if Commits(w.db, request, phase) {
          HoldersApart(w, j, a);
          RivalsStay(w.db, request, phase, w.jobs[a].request);
        } else {
          NoCommitNoChange(w.db, request, phase);
        }
      }
    }
  }

  lemma HoldersApart(w: World, a: Id, b: Id)
    requires JobsApart(w.jobs) && a in w.jobs && b in w.jobs && a != b
    requires InTransaction(w.jobs[a].phase) && InTransaction(w.jobs[b].phase)
    ensures !Rivals(w.jobs[a].request, w.jobs[b].request)
  {
    assert !ShareKey(w.jobs[a], w.jobs[b]);
  }

  lemma {:induction false} ArriveKeeps(w: World, j: Id, request: Request)
    requires Inv(w)
    ensures Inv(Next(w, Arrive(j, request)))
  {
    hide Coherent, Balanced, LinesSound, ReadingSound, KeyFree, Holds;
  }

  /** Each event keeps the invariant and leaves what was committed before it frozen. */
  lemma {:induction false} NextKeeps(w: World, e: Event)
    requires Inv(w)
    ensures Inv(Next(w, e)) && Frozen(w.db, Next(w, e).db)
  {
    hide Coherent, Balanced, PhaseSound, NextPhase, NextTables, KeyFree, Blocked, Frozen, Apply;
    AlwaysFrozen(w.db);
    match e
    case Arrive(j, request) => ArriveKeeps(w, j, request);
    case Advance(j, now) => if j in w.jobs { AdvanceKeeps(w, j, now); }
    case Elsewhere(write) => if !write.PublishOrder? { ElsewhereKeeps(w, write); }
  }

  /** And so does every run, of any length, in any interleaving. */
  lemma {:induction false} RunKeeps(w: World, es: seq<Event>)
    requires Inv(w)
    ensures Inv(Run(w, es)) && Frozen(w.db, Run(w, es).db)
  {
    hide Inv, Frozen, Next;
    if es == [] {
      InvCoherent(w);
      AlwaysFrozen(w.db);
    } else {
      var front := es[..|es| - 1];
      RunKeeps(w, front);
      NextKeeps(Run(w, front), es[|es| - 1]);
      InvCoherent(w);
      FrozenTransitive(w.db, Run(w, front).db, Run(w, es).db);
    }
  }

  lemma InvCoherent(w: World)
    requires Inv(w)
    ensures Coherent(w.db) && RowsIssued(w.db) && ItemsOk(w.db.items, w.db.orders, w.db.products)
  {
  }
}
