/** Pricing and placing one order (apps/orders/services.py) when nothing else runs. */
module Orders {
  import opened Basics
  import opened Ordering
  import opened Schema
  import opened Catalog
  import opened Writes
  import opened Coherence

  type Quantity = q: int | 1 <= q witness 1

  /** `id` is the uuid drawn for the line's row. */
  datatype ItemIn = ItemIn(id: Id, product: Id, options: seq<Id>, quantity: Quantity)

  datatype OrderIn = OrderIn(id: Id, key: string, contact: Contact, items: seq<ItemIn>)

  // ----- options -----

  predicate OptionOf(t: Tables, product: Id, choice: Id) {
    choice in t.choices && t.choices[choice].group in t.groups && t.groups[t.choices[choice].group].product == product
  }

  function Chosen(t: Tables, product: Id, ids: set<Id>): set<Id> {
    set c | c in ids && OptionOf(t, product, c)
  }

  function AxisName(t: Tables, choice: Id): string {
    if choice in t.choices && t.choices[choice].group in t.groups then t.groups[t.choices[choice].group].name else ""
  }

  function ValueOf(t: Tables, choice: Id): string {
    if choice in t.choices then t.choices[choice].value else ""
  }

  function ByPosition(choices: map<Id, Choice>): Rank {
    c => (if c in choices then choices[c].position else 0, 0, 0)
  }

  /** The dict comprehension over the options in list order: a later option of an equal axis name overwrites. */
  function OptionMap(t: Tables, list: seq<Id>): map<string, string> {
    if list == [] then map[] else
      var last := list[|list| - 1];
      OptionMap(t, list[..|list| - 1])[AxisName(t, last) := ValueOf(t, last)]
  }

  function ResolveOptions(t: Tables, product: Id, ids: seq<Id>): Outcome<map<string, string>> {
    if ids == [] then Ok(map[]) else
      var rows := Chosen(t, product, ToSet(ids));
      if |rows| != |ToSet(ids)| then BadRequest else Ok(OptionMap(t, Arranged(ByPosition(t.choices), rows)))
  }

  /** Every id is an option on an axis of the product. */
  ghost predicate AllOptionsOf(t: Tables, product: Id, ids: seq<Id>) {
    forall id :: id in ids ==>
      id in t.choices && t.choices[id].group in t.groups && t.groups[t.choices[id].group].product == product
  }

  /** The count comparison accepts exactly the lists whose every id is an option of the product. */
  lemma {:induction false} OptionsAccepted(t: Tables, product: Id, ids: seq<Id>)
    ensures ResolveOptions(t, product, ids).Ok? <==> AllOptionsOf(t, product, ids)
    ensures !ResolveOptions(t, product, ids).Ok? ==> ResolveOptions(t, product, ids) == BadRequest
    ensures AllOptionsOf(t, product, ids) ==> Chosen(t, product, ToSet(ids)) == ToSet(ids)
  {
    var rows := Chosen(t, product, ToSet(ids));
    SubsetSize(rows, ToSet(ids));
    if AllOptionsOf(t, product, ids) {
      assert rows == ToSet(ids);
    } else {
      var stray :| stray in ids && !OptionOf(t, product, stray);
      assert stray in ToSet(ids) && stray !in rows;
    }
  }

  /** The last option of the list on a given axis. */
  ghost predicate LastOnAxis(t: Tables, list: seq<Id>, name: string, i: int) {
    0 <= i < |list| && AxisName(t, list[i]) == name && forall j :: i < j < |list| ==> AxisName(t, list[j]) != name
  }

  /** The snapshot names exactly the chosen axes, and the value of an axis is the last one listed for it. */
  lemma {:induction false} OptionMapEntries(t: Tables, list: seq<Id>)
    ensures forall c :: c in list ==> AxisName(t, c) in OptionMap(t, list)
    ensures forall name :: name in OptionMap(t, list) ==>
              exists i :: LastOnAxis(t, list, name, i) && OptionMap(t, list)[name] == ValueOf(t, list[i])
  {
    hide AxisName, ValueOf;
    if list != [] {
      var front, last := list[..|list| - 1], list[|list| - 1];
      assert list == front + [last];
      OptionMapEntries(t, front);
      forall name | name in OptionMap(t, list)
        ensures exists i :: LastOnAxis(t, list, name, i) && OptionMap(t, list)[name] == ValueOf(t, list[i])
      {
        if name == AxisName(t, last) {
          assert LastOnAxis(t, list, name, |list| - 1);
        } else {
          var i :| LastOnAxis(t, front, name, i) && OptionMap(t, front)[name] == ValueOf(t, front[i]);
          assert LastOnAxis(t, list, name, i);
        }
      }
    }
  }

  ghost predicate AxesApart(t: Tables, list: seq<Id>) {
    forall a, b :: a in list && b in list && AxisName(t, a) == AxisName(t, b) ==> a == b
  }

  lemma {:induction false} OptionMapSize(t: Tables, list: seq<Id>)
    requires Distinct(list)
    ensures |OptionMap(t, list)| <= |list|
    ensures |OptionMap(t, list)| == |list| <==> AxesApart(t, list)
  {
    hide AxisName, ValueOf;
    if list != [] {
      var front, last := list[..|list| - 1], list[|list| - 1];
      assert list == front + [last];
      assert last !in front;
      OptionMapSize(t, front);
      OptionMapEntries(t, front);
      if AxisName(t, last) in OptionMap(t, front) {
        var i :| LastOnAxis(t, front, AxisName(t, last), i);
        assert front[i] in list && last in list && front[i] != last;
      } else {
        assert forall c :: c in front ==> AxisName(t, c) != AxisName(t, last);
      }
    }
  }

  /** No two different chosen options lie on one axis. */
  ghost predicate OnePerAxis(t: Tables, ids: seq<Id>) {
    forall a, b :: a in ids && b in ids && a in t.choices && b in t.choices && t.choices[a].group == t.choices[b].group
                   ==> a == b
  }

  /** Axis names are unique within a product, so they identify its axes. */
  lemma {:induction false} AxisNamesIdentify(t: Tables, product: Id, ids: seq<Id>)
    requires GroupsOk(t.groups, t.products) && AllOptionsOf(t, product, ids)
    ensures AxesApart(t, ids) <==> OnePerAxis(t, ids)
  {
    forall a, b | a in ids && b in ids && AxisName(t, a) == AxisName(t, b)
      ensures t.choices[a].group == t.choices[b].group {
      assert OptionOf(t, product, a) && OptionOf(t, product, b);
      assert SameAxis(t.groups[t.choices[a].group], t.groups[t.choices[b].group]);
    }
  }

  /** A chosen option on an axis of that name. */
  predicate ChosenOn(t: Tables, ids: seq<Id>, name: string, id: Id) {
    id in ids && id in t.choices && t.choices[id].group in t.groups && t.groups[t.choices[id].group].name == name
  }

  /** The chosen option that is furthest down its axis by position. */
  ghost predicate DecidesAxis(t: Tables, ids: seq<Id>, name: string, id: Id) {
    ChosenOn(t, ids, name, id) &&
    forall other: Id :: ChosenOn(t, ids, name, other) ==>
      t.choices[other].position < t.choices[id].position ||
      (t.choices[other].position == t.choices[id].position && other <= id)
  }

  /** The snapshot has an entry for each axis chosen on and no other, and the entry of an axis is the value chosen on it
      that comes last by position. */
  ghost predicate Tells(t: Tables, ids: seq<Id>, snapshot: map<string, string>) {
    && (forall id: Id, name: string :: ChosenOn(t, ids, name, id) ==> name in snapshot)
    && (forall name :: name in snapshot ==>
          exists id: Id :: DecidesAxis(t, ids, name, id) && snapshot[name] == t.choices[id].value)
  }

  lemma {:induction false} LastDecides(t: Tables, product: Id, list: seq<Id>, ids: seq<Id>, name: string, i: int)
    requires ToSet(list) == ToSet(ids) && Ascending(ByPosition(t.choices), list) && LastOnAxis(t, list, name, i)
    requires AllOptionsOf(t, product, ids)
    ensures DecidesAxis(t, ids, name, list[i]) && ValueOf(t, list[i]) == t.choices[list[i]].value
  {
    assert list[i] in ToSet(list);
    forall other: Id | ChosenOn(t, ids, name, other) && other != list[i]
      ensures Before(ByPosition(t.choices), other, list[i])
    {
      assert other in ToSet(list);
      var j :| 0 <= j < |list| && list[j] == other;
    }
  }

  /** An accepted choice of options is told by its snapshot. */
  lemma {:induction false} SnapshotTells(t: Tables, product: Id, ids: seq<Id>)
    requires ResolveOptions(t, product, ids).Ok?
    ensures AllOptionsOf(t, product, ids) && Tells(t, ids, ResolveOptions(t, product, ids).value)
  {
    hide Arranged, Ascending, AllOptionsOf, Chosen;
    OptionsAccepted(t, product, ids);
    if ids != [] {
      var list := Arranged(ByPosition(t.choices), ToSet(ids));
      ArrangedExactly(ByPosition(t.choices), ToSet(ids));
      OptionMapEntries(t, list);
      var snapshot := ResolveOptions(t, product, ids).value;
      forall id: Id, name: string | ChosenOn(t, ids, name, id) ensures name in snapshot {
        assert id in ToSet(list);
      }
      forall name | name in snapshot
        ensures exists id: Id :: DecidesAxis(t, ids, name, id) && snapshot[name] == t.choices[id].value
      {
        var i :| LastOnAxis(t, list, name, i) && snapshot[name] == ValueOf(t, list[i]);
        LastDecides(t, product, list, ids, name, i);
      }
    }
  }

  /** The snapshot names exactly the chosen axes, each with the value chosen on it that comes last by position; it keeps
      one entry per distinct chosen id exactly when no axis is chosen twice. */
  lemma {:induction false} OptionSnapshot(t: Tables, product: Id, ids: seq<Id>)
    requires GroupsOk(t.groups, t.products) && ResolveOptions(t, product, ids).Ok?
    ensures var snapshot := ResolveOptions(t, product, ids).value;
            Tells(t, ids, snapshot) && (|snapshot| == |ToSet(ids)| <==> OnePerAxis(t, ids))
  {
    hide GroupsOk, OnePerAxis, AxesApart, Arranged, Tells, AxisName, ValueOf, Ascending, AllOptionsOf;
    SnapshotTells(t, product, ids);
    OptionsAccepted(t, product, ids);
    AxisNamesIdentify(t, product, ids);
    if ids != [] {
      var list := Arranged(ByPosition(t.choices), ToSet(ids));
      ArrangedExactly(ByPosition(t.choices), ToSet(ids));
      OptionMapSize(t, list);
      SameAxes(t, list, ids);
    } else {
      EmptyOnePerAxis(t);
    }
  }

  lemma {:induction false} SameAxes(t: Tables, a: seq<Id>, b: seq<Id>)
    requires ToSet(a) == ToSet(b)
    ensures AxesApart(t, a) <==> AxesApart(t, b)
    ensures forall x :: x in a <==> x in b
  {
    assert forall x :: x in a <==> x in ToSet(a);
    assert forall x :: x in b <==> x in ToSet(b);
  }

  lemma EmptyOnePerAxis(t: Tables)
    ensures OnePerAxis(t, [])
  {
  }

  // ----- lines -----

  function ReadProduct(t: Tables, store: Id, product: Id): Option<Product> {
    if ProductOf(t, store, product) && t.products[product].visible then Some(t.products[product]) else None
  }

  function ByImagePosition(images: map<Id, Image>): Rank {
    i => (if i in images then images[i].position else 0, 0, 0)
  }

  function ImagesOf(images: map<Id, Image>, product: Id): set<Id> {
    set i | i in images && images[i].product == product
  }

  function CoverUrl(t: Tables, product: Id): string {
    var images := ImagesOf(t.images, product);
    if images == {} then "" else t.images[First(ByImagePosition(t.images), images)].url
  }

  /** The product's first image by position. */
  ghost predicate FirstImage(images: map<Id, Image>, product: Id, i: Id) {
    i in images && images[i].product == product &&
    forall j :: j in images && images[j].product == product ==>
      images[i].position < images[j].position || (images[i].position == images[j].position && i <= j)
  }

  /** The url of the product's first image, empty when it has none. */
  ghost predicate ShowsFirst(images: map<Id, Image>, product: Id, url: string) {
    if exists i :: i in images && images[i].product == product
    then exists i :: FirstImage(images, product, i) && images[i].url == url
    else url == ""
  }

  lemma {:induction false} CoverIsFirst(t: Tables, product: Id)
    ensures ShowsFirst(t.images, product, CoverUrl(t, product))
  {
    var images := ImagesOf(t.images, product);
    if images != {} {
      var first := First(ByImagePosition(t.images), images);
      forall j | j in t.images && t.images[j].product == product
        ensures j == first || Before(ByImagePosition(t.images), first, j)
      {
        assert j in images;
      }
      assert FirstImage(t.images, product, first);
    } else {
      assert forall i :: i in t.images && t.images[i].product == product ==> i in images;
    }
  }

  function LineOf(item: ItemIn, row: Product, cover: string, options: map<string, string>): Line {
    Line(item.id, item.product, item.quantity, row.price, row.name, cover, options)
  }

  function LineFault(line: Line): Option<Fault> {
    ColumnFault(line.quantity <= MAX_INT, line.unitPrice)
  }

  function PriceLine(t: Tables, store: Id, item: ItemIn): Outcome<Line> {
    var row := ReadProduct(t, store, item.product);
    if row.None? then NotFound else
      var options :- ResolveOptions(t, item.product, item.options);
      var line := LineOf(item, row.value, CoverUrl(t, item.product), options);
      if LineFault(line).Some? then Failed(LineFault(line).value) else Ok(line)
  }

  function PriceAll(t: Tables, store: Id, items: seq<ItemIn>): Outcome<seq<Line>> {
    if items == [] then Ok([]) else
      var front :- PriceAll(t, store, items[..|items| - 1]);
      var last :- PriceLine(t, store, items[|items| - 1]);
      Ok(front + [last])
  }

  /** One more item of the bag. */
  lemma {:induction false} PriceNext(t: Tables, store: Id, items: seq<ItemIn>, i: nat)
    requires i < |items|
    ensures var front := PriceAll(t, store, items[..i]);
            PriceAll(t, store, items[..i + 1]) ==
            (if !front.Ok? then front.PropagateFailure()
             else var last := PriceLine(t, store, items[i]);
                  if !last.Ok? then last.PropagateFailure() else Ok(front.value + [last.value]))
  {
    hide PriceLine;
    assert items[..i + 1][..i] == items[..i] && items[..i + 1][i] == items[i];
  }

  // ----- placing -----

  function OrdersWithKey(orders: map<Id, Order>, store: Id, customer: Id, key: string): set<Id> {
    set o | o in orders && orders[o].store == store && orders[o].customer == customer && orders[o].key == key
  }

  function ExistingOrder(orders: map<Id, Order>, store: Id, customer: Id, key: string): (found: Option<Id>)
    ensures found.Some? <==> KeyTaken(orders, store, customer, key)
    ensures found.Some? ==> found.value in OrdersWithKey(orders, store, customer, key)
  {
    var matches := OrdersWithKey(orders, store, customer, key);
    if matches == {} then
      assert forall o :: o in orders ==> o !in matches;
      None
    else Some(Least(matches))
  }

  /** The order a request returns, and whether this request created it. */
  datatype Receipt = Receipt(order: Id, created: bool)

  function NewOrder(store: Id, customer: Id, payload: OrderIn, total: int, now: Time): Order {
    Order(store, customer, payload.key, New, payload.contact, total, now, now)
  }

  /** What the `except IntegrityError` clause answers: the order that holds the key by now, if any. */
  function Recovered(orders: map<Id, Order>, store: Id, customer: Id, key: string): Outcome<Receipt> {
    match ExistingOrder(orders, store, customer, key)
    case Some(order) => Ok(Receipt(order, false))
    case None => Vanished
  }

  /** The answer of a request that runs alone. */
  function Placed(t: Tables, store: Id, customer: Id, payload: OrderIn, now: Time): Outcome<Receipt> {
    match ExistingOrder(t.orders, store, customer, payload.key)
    case Some(order) => Ok(Receipt(order, false))
    case None =>
      if payload.items == [] then BadRequest else
        match PriceAll(t, store, payload.items)
        case Failed(IntegrityError) => Recovered(t.orders, store, customer, payload.key)
        case Failed(DataError) => Failed(DataError)
        case NotFound => NotFound
        case Ok(lines) =>
          (match ColumnFault(true, LinesTotal(lines))
           case Some(DataError) => Failed(DataError)
           case Some(IntegrityError) => Recovered(t.orders, store, customer, payload.key)
           case None =>
             if CanPublish(t, payload.id, NewOrder(store, customer, payload, LinesTotal(lines), now), lines)
             then Ok(Receipt(payload.id, true))
             else Recovered(t.orders, store, customer, payload.key))
        case _ => BadRequest
  }

  /** The tables it leaves: the order with its priced lines, or no change at all. */
  function AfterPlacing(t: Tables, store: Id, customer: Id, payload: OrderIn, now: Time): Tables {
    var outcome := Placed(t, store, customer, payload, now);
    if outcome.Ok? && outcome.value.created && PriceAll(t, store, payload.items).Ok? then
      var lines := PriceAll(t, store, payload.items).value;
      Published(t, payload.id, NewOrder(store, customer, payload, LinesTotal(lines), now), lines)
    else t
  }

  // ----- when a request running alone is accepted -----

  /** The server's own price of a bag of items. */
  function Quote(t: Tables, items: seq<ItemIn>): int {
    if items == [] then 0 else
      var last := items[|items| - 1];
      Quote(t, items[..|items| - 1]) +
      (if last.product in t.products then t.products[last.product].price * last.quantity else 0)
  }

  ghost predicate Sellable(t: Tables, store: Id, item: ItemIn) {
    && Offered(t, store, item.product)
    && AllOptionsOf(t, item.product, item.options)
    && item.quantity <= 2147483647
  }

  predicate Offered(t: Tables, store: Id, product: Id) {
    product in t.products && t.products[product].store == store && t.products[product].visible
  }

  /** Why an item that cannot be sold is refused. */
  ghost predicate RefusedFor<T>(t: Tables, store: Id, item: ItemIn, outcome: Outcome<T>) {
    if !Offered(t, store, item.product) then outcome.NotFound?
    else if !AllOptionsOf(t, item.product, item.options) then outcome.BadRequest?
    else item.quantity > 2147483647 && outcome.Failed? && outcome.fault == DataError
  }

  lemma {:induction false} LinePriced(t: Tables, store: Id, item: ItemIn)
    requires ProductsOk(t.products, t.categories)
    ensures PriceLine(t, store, item).Ok? <==> Sellable(t, store, item)
    ensures var priced := PriceLine(t, store, item);
            && (priced.Ok? ==> Answer(priced.value, item) &&
                               LineTotal(priced.value) == t.products[item.product].price * item.quantity)
            && (!priced.Ok? ==> RefusedFor(t, store, item, priced))
            && (!priced.Ok? ==> priced == NotFound || priced == BadRequest || priced == Failed(DataError))
  {
    hide ResolveOptions, AllOptionsOf;
    OptionsAccepted(t, item.product, item.options);
  }

  lemma SellableExists(t: Tables, store: Id, item: ItemIn)
    requires Sellable(t, store, item)
    ensures item.product in t.products
  {
  }

  ghost predicate AllSellable(t: Tables, store: Id, items: seq<ItemIn>) {
    forall i :: 0 <= i < |items| ==> Sellable(t, store, items[i])
  }

  lemma {:induction false} SellableLast(t: Tables, store: Id, items: seq<ItemIn>)
    requires items != []
    ensures AllSellable(t, store, items) <==>
              AllSellable(t, store, items[..|items| - 1]) && Sellable(t, store, items[|items| - 1])
  {
    hide Sellable;
    var front := items[..|items| - 1];
    if AllSellable(t, store, front) && Sellable(t, store, items[|items| - 1]) {
      forall i | 0 <= i < |items| ensures Sellable(t, store, items[i]) {
        if i < |front| { assert Sellable(t, store, front[i]); }
      }
    }
  }

  /** The first item of the bag that cannot be sold. */
  ghost predicate Blocks(t: Tables, store: Id, items: seq<ItemIn>, i: int) {
    0 <= i < |items| && !Sellable(t, store, items[i]) && forall k :: 0 <= k < i ==> Sellable(t, store, items[k])
  }

  /** Lines answer items one for one. */
  ghost predicate Answers(lines: seq<Line>, items: seq<ItemIn>) {
    |lines| == |items| && forall i :: 0 <= i < |items| ==> Answer(lines[i], items[i])
  }

  ghost predicate Answer(line: Line, item: ItemIn) {
    line.id == item.id && line.product == item.product && line.quantity == item.quantity
  }

  lemma {:induction false} AllPriced(t: Tables, store: Id, items: seq<ItemIn>)
    requires ProductsOk(t.products, t.categories)
    ensures var priced := PriceAll(t, store, items);
            && (priced.Ok? <==> AllSellable(t, store, items))
            && (priced.Ok? ==> Answers(priced.value, items) && LinesTotal(priced.value) == Quote(t, items))
            && (!priced.Ok? ==> priced == NotFound || priced == BadRequest || priced == Failed(DataError))
            && (!priced.Ok? ==> exists i :: Blocks(t, store, items, i) && RefusedFor(t, store, items[i], priced))
  {
    hide Sellable, PriceLine, ProductsOk, AllSellable, Answer, Offered, AllOptionsOf, Blocks;
    if items == [] {
      NothingToSell(t, store);
    } else {
      var front, last := items[..|items| - 1], items[|items| - 1];
      AllPriced(t, store, front);
      LinePriced(t, store, last);
      SellableLast(t, store, items);
      var priced := PriceAll(t, store, items);
      if priced.Ok? {
        assert priced.value[..|priced.value| - 1] == PriceAll(t, store, front).value;
        SellableExists(t, store, last);
      }
      BlocksLater(t, store, items);
    }
  }

  lemma {:induction false} BlocksLater(t: Tables, store: Id, items: seq<ItemIn>)
    requires items != []
    ensures var front, last := items[..|items| - 1], |items| - 1;
            && (forall i :: Blocks(t, store, front, i) ==> Blocks(t, store, items, i) && front[i] == items[i])
            && (AllSellable(t, store, front) && !Sellable(t, store, items[last]) ==> Blocks(t, store, items, last))
  {
    hide Sellable;
    var front := items[..|items| - 1];
    assert forall k :: 0 <= k < |front| ==> front[k] == items[k];
  }

  lemma NothingToSell(t: Tables, store: Id)
    ensures AllSellable(t, store, [])
  {
  }

  ghost predicate Acceptable(t: Tables, store: Id, payload: OrderIn) {
    && payload.items != []
    && AllSellable(t, store, payload.items)
    && Quote(t, payload.items) <= 2147483647
  }

  function DrawnIds(payload: OrderIn): seq<Id> {
    [payload.id] + seq(|payload.items|, i requires 0 <= i < |payload.items| => payload.items[i].id)
  }

  lemma {:induction false} QuoteNotNegative(t: Tables, items: seq<ItemIn>)
    requires ProductsOk(t.products, t.categories)
    ensures Quote(t, items) >= 0
  {
    if items != [] {
      QuoteNotNegative(t, items[..|items| - 1]);
      var last := items[|items| - 1];
      if last.product in t.products {
        assert t.products[last.product].price * last.quantity >= 0;
      }
    }
  }

  /** The customer's order of that key at the store. */
  predicate KeyedBy(orders: map<Id, Order>, store: Id, customer: Id, key: string, o: Id) {
    o in orders && orders[o].store == store && orders[o].customer == customer && orders[o].key == key
  }

  /** With a free key and uuids that collide with nothing, a request running alone commits exactly when it is
      non-empty, every item is a visible product of the store with its own options and a quantity the column holds,
      and the total fits its column. Otherwise nothing at all is written, so the key is still free, and the answer is
      the one its first item that cannot be sold calls for. */
  lemma {:induction false} AcceptedAlone(t: Tables, store: Id, customer: Id, payload: OrderIn, now: Time)
    requires ProductsOk(t.products, t.categories) && Fresh(t, DrawnIds(payload))
    requires !exists o: Id :: KeyedBy(t.orders, store, customer, payload.key, o)
    ensures var outcome := Placed(t, store, customer, payload, now);
            && (outcome == Ok(Receipt(payload.id, true)) <==> Acceptable(t, store, payload))
            && (!Acceptable(t, store, payload) ==>
                 !outcome.Ok? && AfterPlacing(t, store, customer, payload, now) == t)
            && (payload.items == [] ==> outcome == BadRequest)
            && (payload.items != [] && !AllSellable(t, store, payload.items) ==>
                 exists i :: Blocks(t, store, payload.items, i) && RefusedFor(t, store, payload.items[i], outcome))
            && (payload.items != [] && AllSellable(t, store, payload.items) && Quote(t, payload.items) > 2147483647 ==>
                 outcome == Failed(DataError))
  {
    hide PriceAll, Sellable, ProductsOk, Fresh, ExistingOrder, Published, Quote, Offered, AllOptionsOf;
    NoneKeyed(t.orders, store, customer, payload.key);
    var outcome := Placed(t, store, customer, payload, now);
    AllPriced(t, store, payload.items);
    QuoteNotNegative(t, payload.items);
    var priced := PriceAll(t, store, payload.items);
    if priced.Ok? {
      assert LineIds(priced.value) == DrawnIds(payload)[1..];
      assert [payload.id] + LineIds(priced.value) == DrawnIds(payload);
      if Acceptable(t, store, payload) {
        forall i | 0 <= i < |priced.value| ensures priced.value[i].product in t.products {
          SellableExists(t, store, payload.items[i]);
        }
      }
    }
  }

  lemma NoneKeyed(orders: map<Id, Order>, store: Id, customer: Id, key: string)
    ensures KeyTaken(orders, store, customer, key) <==> exists o: Id :: KeyedBy(orders, store, customer, key, o)
  {
    if o :| o in orders && orders[o].store == store && orders[o].customer == customer && orders[o].key == key {
      assert KeyedBy(orders, store, customer, key, o);
    }
  }

  /** A repeated key is answered with the customer's own order of that key at that store, and nothing is written. */
  lemma {:induction false} RepeatedAlone(t: Tables, store: Id, customer: Id, payload: OrderIn, now: Time)
    requires exists o: Id :: KeyedBy(t.orders, store, customer, payload.key, o)
    ensures var outcome := Placed(t, store, customer, payload, now);
            && outcome.Ok? && !outcome.value.created
            && KeyedBy(t.orders, store, customer, payload.key, outcome.value.order)
            && AfterPlacing(t, store, customer, payload, now) == t
  {
    hide PriceAll;
    NoneKeyed(t.orders, store, customer, payload.key);
  }

  // ----- the rows of an accepted order -----

  /** What a line says of its bag item. */
  ghost predicate LineShows(t: Tables, item: ItemIn, line: Line) {
    && item.product in t.products
    && line == Line(item.id, item.product, item.quantity, t.products[item.product].price, t.products[item.product].name,
                    line.imageUrl, line.options)
    && ShowsFirst(t.images, item.product, line.imageUrl) && Tells(t, item.options, line.options)
  }

  /** The row of a bag item, linked to its product. */
  ghost predicate RowShows(t: Tables, store: Id, order: Id, item: ItemIn, row: Item) {
    && item.product in t.products
    && row == Item(store, order, Some(item.product), item.quantity, t.products[item.product].price,
                   t.products[item.product].name, row.imageUrl, row.options)
    && ShowsFirst(t.images, item.product, row.imageUrl) && Tells(t, item.options, row.options)
  }

  lemma {:induction false} PricedShows(t: Tables, store: Id, item: ItemIn)
    requires PriceLine(t, store, item).Ok?
    ensures LineShows(t, item, PriceLine(t, store, item).value)
  {
    hide ResolveOptions, ShowsFirst, Tells, CoverUrl, LineFault;
    CoverIsFirst(t, item.product);
    SnapshotTells(t, item.product, item.options);
  }

  lemma {:induction false} AllShow(t: Tables, store: Id, items: seq<ItemIn>)
    requires PriceAll(t, store, items).Ok?
    ensures var lines := PriceAll(t, store, items).value;
            |lines| == |items| && forall i :: 0 <= i < |items| ==> LineShows(t, items[i], lines[i])
  {
    hide PriceLine, LineShows;
    if items != [] {
      AllShow(t, store, items[..|items| - 1]);
      PricedShows(t, store, items[|items| - 1]);
    }
  }

  /** The tables of a placement: the order as it is placed, one row per bag item, and nothing else. */
  ghost predicate RowsPlaced(t: Tables, after: Tables, store: Id, customer: Id, payload: OrderIn, now: Time) {
    var items := payload.items;
    && payload.id !in t.orders
    && after.orders == t.orders[payload.id := Order(store, customer, payload.key, New, payload.contact, Quote(t, items),
                                                    now, now)]
    && (forall k :: k in t.items ==> k in after.items && after.items[k] == t.items[k])
    && (forall k :: k in after.items && k !in t.items ==> exists i :: 0 <= i < |items| && items[i].id == k)
    && (forall i :: 0 <= i < |items| ==>
          items[i].id in after.items && items[i].id !in t.items &&
          RowShows(t, store, payload.id, items[i], after.items[items[i].id]))
    && after == t.(orders := after.orders, items := after.items, issued := after.issued)
  }

  lemma {:induction false} PlacedRows(t: Tables, store: Id, customer: Id, payload: OrderIn, now: Time)
    requires RowsIssued(t) && ProductsOk(t.products, t.categories) && Fresh(t, DrawnIds(payload))
    requires !exists o: Id :: KeyedBy(t.orders, store, customer, payload.key, o)
    requires Acceptable(t, store, payload)
    ensures RowsPlaced(t, AfterPlacing(t, store, customer, payload, now), store, customer, payload, now)
  {
    hide PriceAll, ProductsOk, Fresh, Quote, LineShows, AllSellable, RowsIssued, ItemsAdded, CanPublish, Answers,
      WithItems, RowShows;
    var items := payload.items;
    AcceptedAlone(t, store, customer, payload, now);
    AllPriced(t, store, items);
    AllShow(t, store, items);
    var lines := PriceAll(t, store, items).value;
    var row := NewOrder(store, customer, payload, LinesTotal(lines), now);
    PlacedMeansPublished(t, store, customer, payload, now);
    PublishedItems(t, payload.id, row, lines);
    IssuedKeys(t, payload.id);
    RowsAnswer(t, t.items, AfterPlacing(t, store, customer, payload, now).items, store, payload.id, items, lines);
  }

  lemma IssuedKeys(t: Tables, id: Id)
    requires RowsIssued(t) && id !in t.issued
    ensures id !in t.orders
  {
  }

  lemma {:induction false} PlacedMeansPublished(t: Tables, store: Id, customer: Id, payload: OrderIn, now: Time)
    requires Placed(t, store, customer, payload, now) == Ok(Receipt(payload.id, true))
    requires PriceAll(t, store, payload.items).Ok?
    ensures var lines := PriceAll(t, store, payload.items).value;
            var row := NewOrder(store, customer, payload, LinesTotal(lines), now);
            CanPublish(t, payload.id, row, lines) &&
            AfterPlacing(t, store, customer, payload, now) == Published(t, payload.id, row, lines)
  {
    hide PriceAll, CanPublish, Published, LinesTotal;
  }

  lemma {:induction false} RowsAnswer(t: Tables, m: map<Id, Item>, after: map<Id, Item>, store: Id, order: Id,
                                      items: seq<ItemIn>, lines: seq<Line>)
    requires ItemsAdded(m, after, store, order, lines)
    requires |lines| == |items| && forall i :: 0 <= i < |items| ==> LineShows(t, items[i], lines[i])
    ensures forall k :: k in m ==> k in after && after[k] == m[k]
    ensures forall k :: k in after && k !in m ==> exists i :: 0 <= i < |items| && items[i].id == k
    ensures forall i :: 0 <= i < |items| ==> items[i].id in after && items[i].id !in m &&
                                             RowShows(t, store, order, items[i], after[items[i].id])
  {
    hide ShowsFirst, Tells;
    forall k | k in after && k !in m ensures exists i :: 0 <= i < |items| && items[i].id == k {
      var l :| l in lines && l.id == k;
      var i :| 0 <= i < |lines| && lines[i] == l;
      assert LineShows(t, items[i], lines[i]);
    }
    forall i | 0 <= i < |items|
      ensures items[i].id in after && items[i].id !in m && RowShows(t, store, order, items[i], after[items[i].id])
    {
      assert LineShows(t, items[i], lines[i]) && lines[i] in lines;
    }
  }
}
