/** `place_order` as it is written (apps/orders/services.py): check, insert, one line per bag item, total, commit, with
    everything undone on any refusal. */
module OrderServices {
  import opened Basics
  import opened Ordering
  import opened Schema
  import opened Catalog
  import opened Writes
  import opened Orders
  import opened Databases

  predicate SameCatalog(a: Tables, b: Tables) {
    a.products == b.products && a.images == b.images && a.groups == b.groups && a.choices == b.choices
  }

  lemma {:induction false} OptionMapReadsCatalog(a: Tables, b: Tables, list: seq<Id>)
    requires SameCatalog(a, b)
    ensures OptionMap(a, list) == OptionMap(b, list)
  {
    if list != [] {
      OptionMapReadsCatalog(a, b, list[..|list| - 1]);
    }
  }

  /** Pricing reads the catalog only. */
  lemma {:induction false} PricingReadsCatalog(a: Tables, b: Tables, store: Id, item: ItemIn)
    requires SameCatalog(a, b)
    ensures PriceLine(a, store, item) == PriceLine(b, store, item)
  {
    var rows := Chosen(a, item.product, ToSet(item.options));
    assert Chosen(b, item.product, ToSet(item.options)) == rows;
    OptionMapReadsCatalog(a, b, Arranged(ByPosition(a.choices), rows));
    assert ResolveOptions(a, item.product, item.options) == ResolveOptions(b, item.product, item.options);
    assert CoverUrl(a, item.product) == CoverUrl(b, item.product);
  }

  /** Snapshots one bag item onto the order. */
  method AddLine(db: Database, order: Id, store: Id, item: ItemIn) returns (outcome: Outcome<Line>)
    modifies db
    ensures outcome == PriceLine(old(db.Snapshot()), store, item)
    ensures db.Snapshot() == if outcome.Ok?
                             then var t := old(db.Snapshot());
                                  t.(items := t.items[outcome.value.id := ItemRow(store, order, outcome.value)])
                             else old(db.Snapshot())
    ensures outcome == NotFound <==> !Offered(old(db.Snapshot()), store, item.product)
    ensures outcome == BadRequest <==>
            Offered(old(db.Snapshot()), store, item.product) &&
            !AllOptionsOf(old(db.Snapshot()), item.product, item.options)
    ensures outcome.Ok? ==> Sellable(old(db.Snapshot()), store, item)
    ensures outcome.Ok? ==>
              && item.id in db.items && db.items == old(db.items)[item.id := db.items[item.id]]
              && RowShows(old(db.Snapshot()), store, order, item, db.items[item.id])
    ensures db.rivals == old(db.rivals) && db.landed == old(db.landed)
  {
    hide ResolveOptions, CoverUrl, ShowsFirst, Tells, AllOptionsOf;
    OptionsAccepted(db.Snapshot(), item.product, item.options);
    CoverIsFirst(db.Snapshot(), item.product);
    var row := ReadProduct(db.Snapshot(), store, item.product);
    if row.None? {
      return NotFound;
    }
    var cover := CoverUrl(db.Snapshot(), item.product);
    var options :- ResolveOptions(db.Snapshot(), item.product, item.options);
    SnapshotTells(db.Snapshot(), item.product, item.options);
    var line := LineOf(item, row.value, cover, options);
    if LineFault(line).Some? {
      return Failed(LineFault(line).value);
    }
    db.items := db.items[item.id := ItemRow(store, order, line)];
    return Ok(line);
  }

  lemma {:induction false} PricingAllReadsCatalog(a: Tables, b: Tables, store: Id, items: seq<ItemIn>)
    requires SameCatalog(a, b)
    ensures PriceAll(a, store, items) == PriceAll(b, store, items)
  {
    hide PriceLine, SameCatalog;
    if items != [] {
      PricingAllReadsCatalog(a, b, store, items[..|items| - 1]);
      PricingReadsCatalog(a, b, store, items[|items| - 1]);
    }
  }

  function WithLines(t: Tables, id: Id, store: Id, lines: seq<Line>): Tables {
    t.(items := WithItems(t.items, store, id, lines))
  }

  lemma {:induction false} LinesGrow(t: Tables, id: Id, store: Id, lines: seq<Line>, line: Line)
    ensures var open := WithLines(t, id, store, lines);
            WithLines(t, id, store, lines + [line]) == open.(items := open.items[line.id := ItemRow(store, id, line)])
    ensures LinesTotal(lines + [line]) == LinesTotal(lines) + LineTotal(line)
  {
    assert (lines + [line])[..|lines + [line]| - 1] == lines;
  }

  lemma {:induction false} PriceStops(t: Tables, store: Id, items: seq<ItemIn>, i: nat)
    requires i <= |items| && !PriceAll(t, store, items[..i]).Ok?
    ensures PriceAll(t, store, items) == PriceAll(t, store, items[..i])
    decreases |items| - i
  {
    hide PriceLine;
    if i == |items| {
      assert items[..i] == items;
    } else {
      PriceNext(t, store, items, i);
      PriceStops(t, store, items, i + 1);
    }
  }

  /** `sum(_add_line(...) for item in items)`: stops at the first item that is refused. */
  method AddLines(db: Database, id: Id, store: Id, items: seq<ItemIn>) returns (outcome: Outcome<int>, lines: seq<Line>)
    modifies db
    ensures outcome.Ok? ==>
              PriceAll(old(db.Snapshot()), store, items) == Ok(lines) && outcome.value == LinesTotal(lines)
    ensures outcome.Ok? ==> db.Snapshot() == WithLines(old(db.Snapshot()), id, store, lines)
    ensures !outcome.Ok? ==> PriceAll(old(db.Snapshot()), store, items) == outcome.PropagateFailure()
    ensures db.rivals == old(db.rivals) && db.landed == old(db.landed)
  {
    hide PriceLine, PriceAll, WithLines, SameCatalog, LinesTotal, LineTotal;
    ghost var start := db.Snapshot();
    var total := 0;
    lines := [];
    NoLines(start, id, store);
    for i := 0 to |items|
      invariant db.Snapshot() == WithLines(start, id, store, lines)
      invariant PriceAll(start, store, items[..i]) == Ok(lines)
      invariant total == LinesTotal(lines)
      invariant db.rivals == old(db.rivals) && db.landed == old(db.landed)
    {
      LinesKeepCatalog(start, id, store, lines);
      PricingReadsCatalog(db.Snapshot(), start, store, items[i]);
      PriceNext(start, store, items, i);
      var line := AddLine(db, id, store, items[i]);
      if !line.Ok? {
        PriceStops(start, store, items, i + 1);
        return line.PropagateFailure(), lines;
      }
      LinesGrow(start, id, store, lines, line.value);
      total := total + LineTotal(line.value);
      lines := lines + [line.value];
    }
    assert items[..|items|] == items;
    outcome := Ok(total);
  }

  lemma NoLines(t: Tables, id: Id, store: Id)
    ensures WithLines(t, id, store, []) == t && LinesTotal([]) == 0 && PriceAll(t, store, []) == Ok([])
  {
  }

  lemma LinesKeepCatalog(t: Tables, id: Id, store: Id, lines: seq<Line>)
    ensures SameCatalog(WithLines(t, id, store, lines), t)
  {
  }

  /** What the transaction comes to: the order's total and lines, or the refusal that rolls it back. */
  function Attempted(t: Tables, store: Id, customer: Id, payload: OrderIn, now: Time): Outcome<seq<Line>> {
    if KeyTaken(t.orders, store, customer, payload.key) then Failed(IntegrityError) else
    match PriceAll(t, store, payload.items)
    case Ok(lines) =>
      (match ColumnFault(true, LinesTotal(lines))
       case Some(fault) => Failed(fault)
       case None =>
         if CanPublish(t, payload.id, NewOrder(store, customer, payload, LinesTotal(lines), now), lines) then Ok(lines)
         else Failed(IntegrityError))
    case outcome => outcome
  }

  function WithOrder(t: Tables, store: Id, customer: Id, payload: OrderIn, now: Time, lines: seq<Line>): Tables {
    Published(t, payload.id, NewOrder(store, customer, payload, LinesTotal(lines), now), lines)
  }

  /** The order row, which a taken key refuses at once, one row per bag item, the total, commit; rolled back whole on
      any refusal. */
  method TryPlace(db: Database, store: Id, customer: Id, payload: OrderIn, now: Time)
    returns (outcome: Outcome<seq<Line>>)
    modifies db
    ensures outcome == Attempted(old(db.Snapshot()), store, customer, payload, now)
    ensures outcome.Ok? ==> db.Snapshot() == WithOrder(old(db.Snapshot()), store, customer, payload, now, outcome.value)
    ensures !outcome.Ok? ==> db.Snapshot() == old(db.Snapshot())
  {
    hide PriceAll, CanPublish, LinesTotal, ColumnFault, SameCatalog, KeyTaken, WithOrder, WithItems, ToSet, LineIds;
    var savepoint := db.Snapshot();
    if KeyTaken(db.orders, store, customer, payload.key) {
      return Failed(IntegrityError);
    }
    var order := NewOrder(store, customer, payload, 0, now);
    db.orders := db.orders[payload.id := order];
    CatalogUntouched(savepoint, db.orders);
    PricingAllReadsCatalog(db.Snapshot(), savepoint, store, payload.items);
    var sum, lines := AddLines(db, payload.id, store, payload.items);
    if !sum.Ok? {
      db.Restore(savepoint);
      return sum.PropagateFailure();
    }
    order := order.(total := sum.value);
    db.orders := db.orders[payload.id := order];
    var fault := ColumnFault(true, sum.value);
    if fault.Some? {
      db.Restore(savepoint);
      return Failed(fault.value);
    }
    if !CanPublish(savepoint, payload.id, order, lines) {
      db.Restore(savepoint);
      return Failed(IntegrityError);
    }
    db.issued := db.issued + ToSet([payload.id] + LineIds(lines));
    OrderWritten(savepoint, store, customer, payload, now, lines);
    return Ok(lines);
  }

  /** The rows of a placed order: the order row, saved again with its total, and one row per line. */
  lemma OrderWritten(t: Tables, store: Id, customer: Id, payload: OrderIn, now: Time, lines: seq<Line>)
    ensures var draft := NewOrder(store, customer, payload, 0, now);
            WithOrder(t, store, customer, payload, now, lines) ==
            t.(orders := t.orders[payload.id := draft][payload.id := draft.(total := LinesTotal(lines))],
               items := WithItems(t.items, store, payload.id, lines),
               issued := t.issued + ToSet([payload.id] + LineIds(lines)))
  {
    hide WithItems, ToSet, LineIds, LinesTotal;
    var draft := NewOrder(store, customer, payload, 0, now);
    assert t.orders[payload.id := draft][payload.id := draft.(total := LinesTotal(lines))] ==
           t.orders[payload.id := draft.(total := LinesTotal(lines))];
  }

  lemma CatalogUntouched(t: Tables, orders: map<Id, Order>)
    ensures SameCatalog(t.(orders := orders), t)
  {
  }

  /** Places an order, or returns the existing one for a repeated key. */
  method PlaceOrder(db: Database, store: Id, customer: Id, payload: OrderIn, now: Time)
    returns (outcome: Outcome<Receipt>)
    modifies db
    ensures outcome == Placed(old(db.Snapshot()), store, customer, payload, now)
    ensures db.Snapshot() == AfterPlacing(old(db.Snapshot()), store, customer, payload, now)
  {
    hide PriceAll, ExistingOrder, KeyTaken, CanPublish, LinesTotal, Published;
    PricingNeverConflicts(db.Snapshot(), store, payload.items);
    var existing := ExistingOrder(db.orders, store, customer, payload.key);
    if existing.Some? {
      return Ok(Receipt(existing.value, false));
    }
    if payload.items == [] {
      return BadRequest;
    }
    var attempt := TryPlace(db, store, customer, payload, now);
    if attempt.Ok? {
      return Ok(Receipt(payload.id, true));
    }
    if attempt == Failed(IntegrityError) {
      return Recovered(db.orders, store, customer, payload.key);
    }
    return attempt.PropagateFailure();
  }

  lemma {:induction false} PricingNeverConflicts(t: Tables, store: Id, items: seq<ItemIn>)
    ensures PriceAll(t, store, items) != Conflict && PriceAll(t, store, items) != Vanished
  {
    if items != [] {
      PricingNeverConflicts(t, store, items[..|items| - 1]);
    }
  }
}
