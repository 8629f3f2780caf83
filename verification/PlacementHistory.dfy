/** What a created order contains, traced back through the run that created it: one line per bag item, each a
    snapshot of states the request really saw, frozen from then on. */
module PlacementHistory {
  import opened Basics
  import opened Schema
  import opened Catalog
  import opened Writes
  import opened Coherence
  import opened Ledger
  import opened Orders
  import opened Placement
  import opened PlacementBounds

  /** The committed tables before each event of a run. */
  function Past(w: World, es: seq<Event>): seq<Tables> {
    if es == [] then [] else
      var front := es[..|es| - 1];
      Past(w, front) + [Run(w, front).db]
  }

  // ----- what a request has seen -----

  ghost predicate SawRow(past: seq<Tables>, i: int, store: Id, item: ItemIn, row: Product) {
    0 <= i < |past| && item.product in past[i].products && past[i].products[item.product] == row &&
    row.store == store && row.visible
  }

  ghost predicate SawCover(past: seq<Tables>, i: int, item: ItemIn, cover: string) {
    0 <= i < |past| && ShowsFirst(past[i].images, item.product, cover)
  }

  ghost predicate SawOptions(past: seq<Tables>, i: int, item: ItemIn, options: map<string, string>) {
    0 <= i < |past| && AllOptionsOf(past[i], item.product, item.options) && Tells(past[i], item.options, options)
  }

  ghost predicate RowSeen(past: seq<Tables>, store: Id, item: ItemIn, row: Product) {
    exists i :: SawRow(past, i, store, item, row)
  }

  ghost predicate CoverSeen(past: seq<Tables>, store: Id, item: ItemIn, row: Product, cover: string) {
    exists i, j :: SawRow(past, i, store, item, row) && i < j && SawCover(past, j, item, cover)
  }

  /** Price and name were those of a visible product of the store, then the image was its first, then the options were
      its own and told by the snapshot: three states of the run, in this order. */
  ghost predicate Sold(past: seq<Tables>, store: Id, item: ItemIn, price: int, name: string, url: string,
                       options: map<string, string>) {
    exists i, j, k, row :: SawRow(past, i, store, item, row) && row.price == price && row.name == name &&
                           i < j && SawCover(past, j, item, url) && j < k && SawOptions(past, k, item, options)
  }

  ghost predicate LineSold(past: seq<Tables>, store: Id, item: ItemIn, line: Line) {
    Sold(past, store, item, line.unitPrice, line.name, line.imageUrl, line.options)
  }

  ghost predicate LinesSold(past: seq<Tables>, request: Request, lines: seq<Line>) {
    |lines| <= |request.payload.items| &&
    forall i :: 0 <= i < |lines| ==> LineSold(past, request.store, request.payload.items[i], lines[i])
  }

  ghost predicate PhaseSeen(past: seq<Tables>, request: Request, phase: Phase) {
    match phase
    case AtLine(_, lines) => LinesSold(past, request, lines)
    case AtCover(_, lines, row) =>
      LinesSold(past, request, lines) && |lines| < |request.payload.items| &&
      RowSeen(past, request.store, request.payload.items[|lines|], row)
    case AtOptions(_, lines, row, cover) =>
      LinesSold(past, request, lines) && |lines| < |request.payload.items| &&
      CoverSeen(past, request.store, request.payload.items[|lines|], row, cover)
    case AtTotal(_, lines) => LinesSold(past, request, lines)
    case AtCommit(_, lines) => LinesSold(past, request, lines)
    case _ => true
  }

  lemma {:induction false} RowSeenStays(past: seq<Tables>, more: seq<Tables>, store: Id, item: ItemIn, row: Product)
    requires RowSeen(past, store, item, row)
    ensures RowSeen(past + more, store, item, row)
  {
    var i :| SawRow(past, i, store, item, row);
    assert SawRow(past + more, i, store, item, row);
  }

  lemma {:induction false} CoverSeenStays(past: seq<Tables>, more: seq<Tables>, store: Id, item: ItemIn, row: Product,
                                          cover: string)
    requires CoverSeen(past, store, item, row, cover)
    ensures CoverSeen(past + more, store, item, row, cover)
  {
    var i, j :| SawRow(past, i, store, item, row) && i < j && SawCover(past, j, item, cover);
    assert SawRow(past + more, i, store, item, row) && SawCover(past + more, j, item, cover);
  }

  lemma {:induction false} SoldStays(past: seq<Tables>, more: seq<Tables>, store: Id, item: ItemIn, price: int,
                                     name: string, url: string, options: map<string, string>)
    requires Sold(past, store, item, price, name, url, options)
    ensures Sold(past + more, store, item, price, name, url, options)
  {
    var i, j, k, row :| SawRow(past, i, store, item, row) && row.price == price && row.name == name &&
                        i < j && SawCover(past, j, item, url) && j < k && SawOptions(past, k, item, options);
    assert SawRow(past + more, i, store, item, row) && SawCover(past + more, j, item, url) &&
           SawOptions(past + more, k, item, options);
  }

  lemma {:induction false} LinesSoldStay(past: seq<Tables>, more: seq<Tables>, request: Request, lines: seq<Line>)
    requires LinesSold(past, request, lines)
    ensures LinesSold(past + more, request, lines)
  {
    hide Sold;
    forall i | 0 <= i < |lines| ensures LineSold(past + more, request.store, request.payload.items[i], lines[i]) {
      assert LineSold(past, request.store, request.payload.items[i], lines[i]);
      var line := lines[i];
      SoldStays(past, more, request.store, request.payload.items[i], line.unitPrice, line.name, line.imageUrl,
                line.options);
    }
  }

  lemma {:induction false} PhaseSeenStays(past: seq<Tables>, more: seq<Tables>, request: Request, phase: Phase)
    requires PhaseSeen(past, request, phase)
    ensures PhaseSeen(past + more, request, phase)
  {
    hide LinesSold, RowSeen, CoverSeen;
    match phase
    case AtLine(_, lines) => LinesSoldStay(past, more, request, lines);
    case AtCover(_, lines, row) =>
      LinesSoldStay(past, more, request, lines);
      RowSeenStays(past, more, request.store, request.payload.items[|lines|], row);
    case AtOptions(_, lines, row, cover) =>
      LinesSoldStay(past, more, request, lines);
      CoverSeenStays(past, more, request.store, request.payload.items[|lines|], row, cover);
    case AtTotal(_, lines) => LinesSoldStay(past, more, request, lines);
    case AtCommit(_, lines) => LinesSoldStay(past, more, request, lines);
    case _ =>
  }

  lemma {:induction false} OptionsSeen(past: seq<Tables>, db: Tables, request: Request, phase: Phase,
                                       options: map<string, string>)
    requires phase.AtOptions? && PhaseSeen(past, request, phase)
    requires var item := request.payload.items[|phase.lines|];
             ResolveOptions(db, item.product, item.options) == Ok(options)
    ensures var item := request.payload.items[|phase.lines|];
            LinesSold(past + [db], request, phase.lines + [LineOf(item, phase.row, phase.cover, options)])
  {
    hide ReadProduct, CoverUrl, ResolveOptions, ShowsFirst, Tells, AllOptionsOf;
    SnapshotTells(db, request.payload.items[|phase.lines|].product, request.payload.items[|phase.lines|].options);
    var item := request.payload.items[|phase.lines|];
    var line := LineOf(item, phase.row, phase.cover, options);
    var now := past + [db];
    LinesSoldStay(past, [db], request, phase.lines);
    CoverSeenStays(past, [db], request.store, item, phase.row, phase.cover);
    var i, j :| SawRow(past, i, request.store, item, phase.row) && i < j && SawCover(past, j, item, phase.cover);
    assert SawRow(now, i, request.store, item, phase.row) && SawCover(now, j, item, phase.cover);
    assert SawOptions(now, |past|, item, options);
    assert LineSold(now, request.store, item, line);
    SoldAppended(now, request, phase.lines, line);
  }

  lemma {:induction false} SoldAppended(past: seq<Tables>, request: Request, lines: seq<Line>, line: Line)
    requires LinesSold(past, request, lines) && |lines| < |request.payload.items|
    requires LineSold(past, request.store, request.payload.items[|lines|], line)
    ensures LinesSold(past, request, lines + [line])
  {
    hide LineSold;
    var longer := lines + [line];
    forall i | 0 <= i < |longer| ensures LineSold(past, request.store, request.payload.items[i], longer[i]) {
      if i < |lines| { assert longer[i] == lines[i]; }
    }
  }

  lemma {:induction false} StepSeen(past: seq<Tables>, db: Tables, request: Request, phase: Phase, now: Time,
                                    blocked: bool)
    requires PhaseSeen(past, request, phase)
    ensures PhaseSeen(past + [db], request, NextPhase(db, request, phase, now, blocked))
  {
    hide LinesSold, RowSeen, CoverSeen, ReadProduct, CoverUrl, ResolveOptions, ExistingOrder, CanPublish;
    PhaseSeenStays(past, [db], request, phase);
    var items := request.payload.items;
    match phase
    case Insert => NothingSold(past + [db], request);
    case AtLine(_, lines) =>
      if |lines| < |items| && ReadProduct(db, request.store, items[|lines|].product).Some? {
        RowRead(past, db, request.store, items[|lines|], ReadProduct(db, request.store, items[|lines|].product).value);
      }
    case AtCover(_, lines, row) => CoverRead(past, db, request.store, items[|lines|], row);
    case AtOptions(_, lines, row, cover) =>
      var options := ResolveOptions(db, items[|lines|].product, items[|lines|].options);
      if options.Ok? { OptionsSeen(past, db, request, phase, options.value); }
    case _ =>
  }

  lemma NothingSold(past: seq<Tables>, request: Request)
    ensures LinesSold(past, request, [])
  {
  }

  lemma {:induction false} RowRead(past: seq<Tables>, db: Tables, store: Id, item: ItemIn, row: Product)
    requires ReadProduct(db, store, item.product) == Some(row)
    ensures RowSeen(past + [db], store, item, row)
  {
    assert SawRow(past + [db], |past|, store, item, row);
  }

  lemma {:induction false} CoverRead(past: seq<Tables>, db: Tables, store: Id, item: ItemIn, row: Product)
    requires RowSeen(past, store, item, row)
    ensures CoverSeen(past + [db], store, item, row, CoverUrl(db, item.product))
  {
    hide ReadProduct, CoverUrl, ShowsFirst;
    CoverIsFirst(db, item.product);
    var i :| SawRow(past, i, store, item, row);
    assert SawRow(past + [db], i, store, item, row);
    assert SawCover(past + [db], |past|, item, CoverUrl(db, item.product));
  }

  // ----- what a created order holds -----

  ghost predicate RowSold(past: seq<Tables>, request: Request, item: ItemIn, row: Item) {
    && row.store == request.store && row.order == request.payload.id && row.quantity == item.quantity <= MAX_INT
    && 0 <= row.unitPrice <= MAX_INT
    && Sold(past, request.store, item, row.unitPrice, row.name, row.imageUrl, row.options)
  }

  /** The line links its product for as long as the product exists. */
  ghost predicate Linked(db: Tables, item: ItemIn, row: Item) {
    item.product in db.issued && row.product == if item.product in db.products then Some(item.product) else None
  }

  function ItemIds(items: seq<ItemIn>): set<Id> {
    set i | 0 <= i < |items| :: items[i].id
  }

  /** The order is the request's, its lines are one row per bag item and nothing else, and every amount fits its
      column. */
  ghost predicate Delivered(past: seq<Tables>, db: Tables, request: Request) {
    var id, items := request.payload.id, request.payload.items;
    && Holds(db.orders, id, request) && db.orders[id].contact == request.payload.contact
    && 0 <= db.orders[id].total <= MAX_INT
    && LinesOf(db.items, id) == ItemIds(items) && |LinesOf(db.items, id)| == |items|
    && forall i :: 0 <= i < |items| ==>
         items[i].id in db.items && RowSold(past, request, items[i], db.items[items[i].id]) &&
         Linked(db, items[i], db.items[items[i].id])
  }

  ghost predicate JobSeen(past: seq<Tables>, db: Tables, job: Job) {
    && PhaseSeen(past, job.request, job.phase) && PhaseFits(job.phase)
    && (Created(job) ==> job.phase.outcome.value.order == job.request.payload.id && Delivered(past, db, job.request))
  }

  /** A line row that appears belongs to an order that appears with it. */
  ghost predicate NewLinesOnNewOrders(before: Tables, after: Tables) {
    forall i :: i in after.items && i !in before.items ==> after.items[i].order !in before.orders
  }

  lemma {:induction false} DeliveredStays(past: seq<Tables>, more: seq<Tables>, before: Tables, after: Tables,
                                          request: Request)
    requires Delivered(past, before, request)
    requires LinesFrozen(before.items, after.items, after.products) && OrdersFrozen(before.orders, after.orders)
    requires NewLinesOnNewOrders(before, after) && NeverReissued(before, after)
    ensures Delivered(past + more, after, request)
  {
    hide Sold, OrdersNotReissued;
    var id, items := request.payload.id, request.payload.items;
    assert Restated(before.orders[id], after.orders[id]);
    assert LinesOf(after.items, id) == LinesOf(before.items, id);
    forall i | 0 <= i < |items|
      ensures items[i].id in after.items && RowSold(past + more, request, items[i], after.items[items[i].id])
      ensures Linked(after, items[i], after.items[items[i].id])
    {
      var row := before.items[items[i].id];
      assert RowSold(past, request, items[i], row) && Linked(before, items[i], row);
      SoldStays(past, more, request.store, items[i], row.unitPrice, row.name, row.imageUrl, row.options);
    }
  }

  lemma {:induction false} JobSeenStays(past: seq<Tables>, more: seq<Tables>, before: Tables, after: Tables, job: Job)
    requires JobSeen(past, before, job) && Frozen(before, after) && NewLinesOnNewOrders(before, after)
    ensures JobSeen(past + more, after, job)
  {
    hide PhaseSeen, PhaseFits, Delivered, LinesFrozen, OrdersFrozen, NeverReissued, NewLinesOnNewOrders;
    PhaseSeenStays(past, more, job.request, job.phase);
    if Created(job) {
      DeliveredStays(past, more, before, after, job.request);
    }
  }

  lemma {:induction false} SameItems(db: Tables, write: Write)
    requires !write.PublishOrder?
    ensures NewLinesOnNewOrders(db, Apply(db, write))
  {
    hide CreateCategoryIn, CreateProductIn, UpdateProductIn, AddFavoriteIn, RemoveFavoriteIn, SubscribeIn,
      UnsubscribeIn, PruneIn, SetStatusIn;
    assert Apply(db, write).items.Keys == db.items.Keys;
  }

  lemma {:induction false} CommitItems(db: Tables, request: Request, phase: Phase)
    requires RowsIssued(db)
    ensures NewLinesOnNewOrders(db, NextTables(db, request, phase))
  {
    if Commits(db, request, phase) {
      var order := NewOrder(request.store, request.customer, request.payload, LinesTotal(phase.lines), phase.createdAt);
      PublishedItems(db, request.payload.id, order, phase.lines);
    }
  }

  lemma {:induction false} ItemIdsCount(items: seq<ItemIn>, lines: seq<Line>)
    requires Answers(lines, items) && Distinct(LineIds(lines))
    ensures ItemIds(items) == ToSet(LineIds(lines)) && |ItemIds(items)| == |items|
  {
    DistinctSize(LineIds(lines));
    forall id | id in ItemIds(items) ensures id in ToSet(LineIds(lines)) {
      var i :| 0 <= i < |items| && items[i].id == id;
      assert Answer(lines[i], items[i]) && LineIds(lines)[i] == id;
    }
    forall id | id in ToSet(LineIds(lines)) ensures id in ItemIds(items) {
      var i :| 0 <= i < |lines| && LineIds(lines)[i] == id;
      assert Answer(lines[i], items[i]) && items[i].id == id;
    }
    assert ItemIds(items) == ToSet(LineIds(lines));
  }

  lemma {:induction false} CommitLines(db: Tables, request: Request, phase: Phase)
    requires RowsIssued(db) && ItemsOk(db.items, db.orders, db.products) && Commits(db, request, phase)
    requires Answers(phase.lines, request.payload.items)
    ensures var items := NextTables(db, request, phase).items;
            && LinesOf(items, request.payload.id) == ItemIds(request.payload.items)
            && |ItemIds(request.payload.items)| == |request.payload.items|
            && ItemsAdded(db.items, items, request.store, request.payload.id, phase.lines)
  {
    var order := NewOrder(request.store, request.customer, request.payload, LinesTotal(phase.lines), phase.createdAt);
    PublishedItems(db, request.payload.id, order, phase.lines);
    CommitIsNew(db, request, phase);
    ItemIdsCount(request.payload.items, phase.lines);
    LinesOfPublished(db.items, NextTables(db, request, phase).items, request.store, request.payload.id, phase.lines);
  }

  lemma {:induction false} LinesOfPublished(m: map<Id, Item>, after: map<Id, Item>, store: Id, id: Id, lines: seq<Line>)
    requires ItemsAdded(m, after, store, id, lines) && LinesOf(m, id) == {}
    ensures LinesOf(after, id) == ToSet(LineIds(lines))
  {
    LineIdsMembers(lines);
    assert forall i :: i in m ==> i in LinesOf(m, id) || m[i].order != id;
    forall i | i in LinesOf(after, id) ensures i in ToSet(LineIds(lines)) {
      var l :| l in lines && l.id == i;
    }
    forall i | i in ToSet(LineIds(lines)) ensures i in LinesOf(after, id) {
      var k :| 0 <= k < |lines| && LineIds(lines)[k] == i;
      assert lines[k] in lines;
    }
  }

  lemma CommitOrder(db: Tables, request: Request, phase: Phase)
    requires Commits(db, request, phase)
    ensures var orders := NextTables(db, request, phase).orders;
            && Holds(orders, request.payload.id, request)
            && orders[request.payload.id].contact == request.payload.contact
            && orders[request.payload.id].total == LinesTotal(phase.lines)
  {
    hide WithItems, LineIds, Fresh, KeyTaken;
  }

  lemma {:induction false} LineDelivered(past: seq<Tables>, request: Request, line: Line, item: ItemIn,
                                         m: map<Id, Item>, after: map<Id, Item>, lines: seq<Line>)
    requires ItemsAdded(m, after, request.store, request.payload.id, lines) && line in lines
    requires LineFits(line) && Answer(line, item) && LineSold(past, request.store, item, line)
    ensures item.id in after && RowSold(past, request, item, after[item.id])
    ensures after[item.id].product == Some(item.product)
  {
    hide Sold;
  }

  lemma {:induction false} CommitDelivers(past: seq<Tables>, db: Tables, request: Request, phase: Phase)
    requires RowsIssued(db) && ItemsOk(db.items, db.orders, db.products) && Commits(db, request, phase)
    requires PhaseSeen(past, request, phase) && PhaseSound(db, request, phase) && PhaseFits(phase)
    ensures Delivered(past, NextTables(db, request, phase), request)
  {
    hide LineSold, CanPublish, ItemsOk, RowsIssued, NextTables, ItemsAdded, LineFits, RowSold, Holds, LinesTotal,
      LinesOf, ItemIds;
    var lines, items := phase.lines, request.payload.items;
    assert items[..|lines|] == items;
    CommitLines(db, request, phase);
    CommitOrder(db, request, phase);
    var after := NextTables(db, request, phase);
    forall i | 0 <= i < |items| ensures items[i].id in after.items &&
      RowSold(past, request, items[i], after.items[items[i].id]) && Linked(after, items[i], after.items[items[i].id]) {
      assert lines[i] in lines && Answer(lines[i], items[i]);
      CommitProducts(db, request, phase, i);
      LineDelivered(past, request, lines[i], items[i], db.items, after.items, lines);
    }
  }

  lemma CommitProducts(db: Tables, request: Request, phase: Phase, i: nat)
    requires RowsIssued(db) && Commits(db, request, phase) && i < |phase.lines|
    ensures var after := NextTables(db, request, phase);
            phase.lines[i].product in after.products && phase.lines[i].product in after.issued
  {
    hide WithItems, Fresh, KeyTaken, LineIds;
  }

  ghost predicate WorldSeen(past: seq<Tables>, w: World) {
    forall j :: j in w.jobs ==> JobSeen(past, w.db, w.jobs[j])
  }

  lemma {:induction false} AdvanceSeen(past: seq<Tables>, w: World, j: Id, now: Time)
    requires Inv(w) && WorldSeen(past, w) && j in w.jobs
    ensures WorldSeen(past + [w.db], Next(w, Advance(j, now)))
  {
    hide Coherent, Balanced, PhaseSeen, PhaseSound, PhaseFits, NextPhase, NextTables, JobsApart, CanPublish, Blocked,
      Delivered, ProductsOk, Frozen, NewLinesOnNewOrders, KeyFree;
    var Job(request, phase) := w.jobs[j];
    assert JobSound(w.db, w.jobs[j]) && JobSeen(past, w.db, w.jobs[j]);
    var blocked := Blocked(w, j);
    var next, after := NextPhase(w.db, request, phase, now, blocked), NextTables(w.db, request, phase);
    InvCoherent(w);
    InvPrices(w);
    StepFits(w.db, request, phase, now, blocked);
    CommitKeeps(w.db, request, phase);
    CommitItems(w.db, request, phase);
    forall a | a in w.jobs ensures JobSeen(past + [w.db], after, w.jobs[a]) {
      assert JobSeen(past, w.db, w.jobs[a]);
      JobSeenStays(past, [w.db], w.db, after, w.jobs[a]);
    }
    StepSeen(past, w.db, request, phase, now, blocked);
    CreatedStep(w.db, request, phase, now, blocked);
    if Commits(w.db, request, phase) {
      PhaseSeenStays(past, [w.db], request, phase);
      CommitDelivers(past + [w.db], w.db, request, phase);
    }
    assert JobSeen(past + [w.db], after, Job(request, next));
  }

  /** A change of committed rows that is not this request's own. */
  lemma {:induction false} OthersSeen(past: seq<Tables>, w: World, after: Tables)
    requires WorldSeen(past, w) && Frozen(w.db, after) && NewLinesOnNewOrders(w.db, after)
    ensures WorldSeen(past + [w.db], World(after, w.jobs))
  {
    hide JobSeen, Frozen, NewLinesOnNewOrders;
    forall j | j in w.jobs ensures JobSeen(past + [w.db], after, w.jobs[j]) {
      JobSeenStays(past, [w.db], w.db, after, w.jobs[j]);
    }
  }

  lemma {:induction false} NextSeen(past: seq<Tables>, w: World, e: Event)
    requires Inv(w) && WorldSeen(past, w)
    ensures WorldSeen(past + [w.db], Next(w, e))
  {
    hide Coherent, Balanced, JobSound, JobsApart, Frozen, NewLinesOnNewOrders, Apply, NextTables, NextPhase, WorldSeen;
    InvCoherent(w);
    AlwaysFrozen(w.db);
    NothingNew(w.db);
    OthersSeen(past, w, w.db);
    match e
    case Arrive(a, request) => ArriveSeen(past, w, a, request);
    case Advance(a, now) => if a in w.jobs { AdvanceSeen(past, w, a, now); }
    case Elsewhere(write) =>
      if !write.PublishOrder? {
        EveryWriteFreezesOrders(w.db, write);
        SameItems(w.db, write);
        OthersSeen(past, w, Apply(w.db, write));
      }
  }

  lemma {:induction false} ArriveSeen(past: seq<Tables>, w: World, a: Id, request: Request)
    requires WorldSeen(past + [w.db], w)
    ensures WorldSeen(past + [w.db], Next(w, Arrive(a, request)))
  {
    hide LinesSold, RowSeen, CoverSeen, Delivered;
    StartFits();
  }

  lemma NothingNew(db: Tables)
    ensures NewLinesOnNewOrders(db, db)
  {
  }

  lemma {:induction false} RunSeen(w: World, es: seq<Event>)
    requires Inv(w) && w.jobs == map[]
    ensures WorldSeen(Past(w, es), Run(w, es))
  {
    hide Inv, Next, JobSeen;
    if es != [] {
      var front := es[..|es| - 1];
      RunSeen(w, front);
      RunKeeps(w, front);
      NextSeen(Past(w, front), Run(w, front), es[|es| - 1]);
    }
  }

  /** Every request that answers created = True has, at every later point of the run, an order with exactly one line
      per bag item; each line's price, name, image and options are what the run showed the request, however prices
      and products moved in between, and the total is the sum of those lines. */
  lemma {:induction false} CreatedOrdersDelivered(w: World, es: seq<Event>, j: Id)
    requires Inv(w) && w.jobs == map[] && j in Run(w, es).jobs && Created(Run(w, es).jobs[j])
    ensures var v := Run(w, es);
            var request := v.jobs[j].request;
            && v.jobs[j].phase.outcome.value.order == request.payload.id
            && Delivered(Past(w, es), v.db, request)
            && v.db.orders[request.payload.id].total == Owed(v.db.items, request.payload.id)
  {
    hide Run, PhaseSeen, Coherent, JobSound, JobsApart, Owed, Frozen;
    RunSeen(w, es);
    RunKeeps(w, es);
    assert JobSeen(Past(w, es), Run(w, es).db, Run(w, es).jobs[j]);
  }
}
