/** Catalog writes as they are written (apps/products/services.py): the slug search, categories, the inserts of one
    product, and update and delete. Rival requests land between any two queries. */
module CatalogServices {
  import opened Basics
  import opened Schema
  import opened Slugs
  import opened Catalog
  import opened Writes
  import opened BuildExact
  import opened Coherence
  import opened Databases

  datatype Shelf = Categories | Products

  function TakenSlugs(t: Tables, shelf: Shelf, store: Id): set<string> {
    match shelf
    case Categories => set c | c in t.categories && t.categories[c].store == store :: t.categories[c].slug
    case Products => set p | p in t.products && t.products[p].store == store :: t.products[p].slug
  }

  /** A row of the store has the slug. */
  ghost predicate Held(t: Tables, shelf: Shelf, store: Id, slug: string) {
    match shelf
    case Categories => exists c :: c in t.categories && t.categories[c].store == store && t.categories[c].slug == slug
    case Products => SlugHeld(t.products, store, slug)
  }

  lemma TakenIsHeld(t: Tables, shelf: Shelf, store: Id, slug: string)
    ensures slug in TakenSlugs(t, shelf, store) <==> Held(t, shelf, store, slug)
  {
  }

  /** The slug a write may bring to a store's shelf. */
  function SlugsOf(w: Write, shelf: Shelf, store: Id): set<string> {
    if w.store != store then {}
    else if w.CreateProduct? && shelf == Products then {w.slug}
    else if w.CreateCategory? && shelf == Categories then {Candidate(BaseSlug(w.slugified), w.suffix)}
    else {}
  }

  function SlugsOfAll(ws: seq<Write>, shelf: Shelf, store: Id): set<string> {
    if ws == [] then {} else SlugsOfAll(ws[..|ws| - 1], shelf, store) + SlugsOf(ws[|ws| - 1], shelf, store)
  }

  lemma {:induction false} SlugsOfConcat(a: seq<Write>, b: seq<Write>, shelf: Shelf, store: Id)
    ensures SlugsOfAll(a + b, shelf, store) == SlugsOfAll(a, shelf, store) + SlugsOfAll(b, shelf, store)
    decreases |b|
  {
    if b == [] {
      assert a + b == a;
    } else {
      SlugsOfConcat(a, b[..|b| - 1], shelf, store);
      assert (a + b)[..|a + b| - 1] == a + b[..|b| - 1];
    }
  }

  lemma {:induction false} WriteTakes(t: Tables, w: Write, shelf: Shelf, store: Id)
    ensures TakenSlugs(Apply(t, w), shelf, store) <= TakenSlugs(t, shelf, store) + SlugsOf(w, shelf, store)
  {
    hide BuildFault, CategoryFault, Fresh, CanPublish, Candidate;
    match w
    case CreateCategory(_, _, _, _, _, _) => CategoryTakes(t, w, shelf, store);
    case CreateProduct(_, _, _, _, _) => ProductTakes(t, w, shelf, store);
    case UpdateProduct(s, product, patch, now) => PatchTakes(t, s, product, patch, now, shelf, store);
    case DeleteProduct(s, product) =>
    case _ => ShelvesStay(t, w);
  }

  lemma {:induction false} ShelvesStay(t: Tables, w: Write)
    requires !w.CreateCategory? && !w.CreateProduct? && !w.UpdateProduct? && !w.DeleteProduct?
    ensures Apply(t, w).categories == t.categories && Apply(t, w).products == t.products
  {
    hide PublishOrderIn, SetStatusIn, AddFavoriteIn, RemoveFavoriteIn, SubscribeIn, UnsubscribeIn, PruneIn;
  }

  lemma {:induction false} CategoryTakes(t: Tables, w: Write, shelf: Shelf, store: Id)
    requires w.CreateCategory?
    ensures TakenSlugs(Apply(t, w), shelf, store) <= TakenSlugs(t, shelf, store) + SlugsOf(w, shelf, store)
  {
    hide CategoryFault, Candidate;
  }

  lemma {:induction false} ProductTakes(t: Tables, w: Write, shelf: Shelf, store: Id)
    requires w.CreateProduct?
    ensures TakenSlugs(Apply(t, w), shelf, store) <= TakenSlugs(t, shelf, store) + SlugsOf(w, shelf, store)
  {
    hide BuildFault, WithImages, WithGroups, WithGroupChoices, RowIds;
  }

  /** An update never touches a slug. */
  lemma {:induction false} PatchTakes(t: Tables, s: Id, product: Id, patch: Patch, now: Time, shelf: Shelf, store: Id)
    ensures TakenSlugs(UpdateProductIn(t, s, product, patch, now), shelf, store) == TakenSlugs(t, shelf, store)
  {
    hide CategoryNamed;
    var patched := Patched(t, s, product, patch, now);
    if patched.Ok? && shelf == Products {
      var after := t.products[product := patched.value];
      assert forall p :: p in t.products ==>
               after[p].slug == t.products[p].slug && after[p].store == t.products[p].store;
    }
  }

  lemma {:induction false} WritesTake(t: Tables, ws: seq<Write>, shelf: Shelf, store: Id)
    ensures TakenSlugs(ApplyAll(t, ws), shelf, store) <= TakenSlugs(t, shelf, store) + SlugsOfAll(ws, shelf, store)
  {
    hide Apply, TakenSlugs, SlugsOf;
    if ws != [] {
      WritesTake(t, ws[..|ws| - 1], shelf, store);
      WriteTakes(ApplyAll(t, ws[..|ws| - 1]), ws[|ws| - 1], shelf, store);
    }
  }

  // ----- the slug search -----

  /** Every slug a store's shelf holds at a moment or may be brought by rivals still to land. */
  function Reachable(m: Moment, shelf: Shelf, store: Id): set<string> {
    TakenSlugs(m.tables, shelf, store) + SlugsOfAll(m.rivals, shelf, store)
  }

  /** Every slug it held at the first moment or was brought since. */
  function Brought(a: Moment, b: Moment, shelf: Shelf, store: Id): set<string> {
    TakenSlugs(a.tables, shelf, store) + SlugsOfAll(Between(a, b), shelf, store)
  }

  ghost predicate AllRejected(base: string, count: nat, taken: set<string>) {
    forall k :: 0 <= k < count ==> Candidate(base, k) in taken
  }

  /** A candidate found taken was there from the start or came with a rival, and so were all before it. */
  lemma {:induction false} Rejection(a: Moment, b: Moment, c: Moment, shelf: Shelf, store: Id, base: string, count: nat)
    requires Ran(a, b) && Ran(b, c)
    requires AllRejected(base, count, Brought(a, b, shelf, store))
    requires Candidate(base, count) in TakenSlugs(b.tables, shelf, store)
    ensures Ran(a, c) && AllRejected(base, count + 1, Brought(a, c, shelf, store))
    ensures count + 1 <= |Reachable(a, shelf, store)|
  {
    hide Candidate, TakenSlugs, SlugsOf, ApplyAll;
    RanOn(a, b, c);
    WritesTake(a.tables, Between(a, b), shelf, store);
    SlugsOfConcat(Between(a, b), Between(b, c), shelf, store);
    SlugsOfConcat(Between(a, c), c.rivals, shelf, store);
    assert AllRejected(base, count + 1, Brought(a, c, shelf, store));
    TakenCandidatesBound(base, count + 1, Reachable(a, shelf, store));
  }

  /** A slug that is free when last probed. The search stops for every finite table and every finite schedule of
      rivals: each rejected candidate uses up one slug that was taken at the start or is brought by a rival, so at
      most that many candidates plus one are tried. With no rivals it is the first free candidate. */
  method UniqueSlug(db: Database, shelf: Shelf, store: Id, slugified: string) returns (slug: string, rejected: nat)
    modifies db
    ensures slug == Candidate(BaseSlug(slugified), rejected)
    ensures Suffixed(if slugified == "" then "item" else slugified, slug, rejected)
    ensures !Held(db.Snapshot(), shelf, store, slug) && slug !in TakenSlugs(db.Snapshot(), shelf, store)
    ensures Ran(old(db.Now()), db.Now())
    ensures AllRejected(BaseSlug(slugified), rejected, Brought(old(db.Now()), db.Now(), shelf, store))
    ensures rejected <= |Brought(old(db.Now()), db.Now(), shelf, store)|
    ensures old(db.rivals) == [] ==>
              db.Snapshot() == old(db.Snapshot()) && rejected <= |TakenSlugs(db.Snapshot(), shelf, store)| &&
              FirstFree(db.Snapshot(), shelf, store, BaseSlug(slugified), rejected)
  {
    hide Candidate, TakenSlugs, SlugsOf, Apply, Ran, AllRejected, Held, FirstFree, Suffixed;
    ghost var start := db.Now();
    var base := BaseSlug(slugified);
    var n := 2;
    slug := base;
    CandidateForms(base, n);
    db.Yield();
    NoneRejected(base, Brought(start, db.Now(), shelf, store));
    var taken := slug in TakenSlugs(db.Snapshot(), shelf, store);
    while taken
      invariant n >= 2 && slug == Candidate(base, n - 2)
      invariant Ran(start, db.Now())
      invariant taken <==> slug in TakenSlugs(db.Snapshot(), shelf, store)
      invariant AllRejected(base, n - 2, Brought(start, db.Now(), shelf, store))
      decreases |Reachable(start, shelf, store)| + 2 - n
    {
      ghost var before := db.Now();
      CandidateForms(base, n);
      slug, n := base + "-" + Decimal(n), n + 1;
      db.Yield();
      Rejection(start, before, db.Now(), shelf, store, base, n - 3);
      taken := slug in TakenSlugs(db.Snapshot(), shelf, store);
    }
    rejected := n - 2;
    RejectedBound(base, rejected, Brought(start, db.Now(), shelf, store));
    Undisturbed(start, db.Now(), shelf, store);
    CandidatesNumbered(base, rejected);
    TakenIsHeld(db.Snapshot(), shelf, store, slug);
    if start.rivals == [] {
      NoneEarlier(db.Snapshot(), shelf, store, base, rejected);
    }
  }

  lemma {:induction false} NoneEarlier(t: Tables, shelf: Shelf, store: Id, base: string, k: nat)
    requires Candidate(base, k) !in TakenSlugs(t, shelf, store) && AllRejected(base, k, TakenSlugs(t, shelf, store))
    ensures FirstFree(t, shelf, store, base, k)
  {
    hide Candidate, TakenSlugs, Held;
    forall j | 0 <= j <= k ensures Candidate(base, j) in TakenSlugs(t, shelf, store) <==>
                                   Held(t, shelf, store, Candidate(base, j)) {
      TakenIsHeld(t, shelf, store, Candidate(base, j));
    }
  }

  lemma CandidateForms(base: string, n: nat)
    requires n >= 2
    ensures Candidate(base, 0) == base && Candidate(base, n - 1) == base + "-" + Decimal(n)
  {
  }

  lemma NoneRejected(base: string, taken: set<string>)
    ensures AllRejected(base, 0, taken)
  {
  }

  lemma {:induction false} RejectedBound(base: string, count: nat, taken: set<string>)
    requires AllRejected(base, count, taken)
    ensures count <= |taken|
  {
    TakenCandidatesBound(base, count, taken);
  }

  lemma {:induction false} Undisturbed(a: Moment, b: Moment, shelf: Shelf, store: Id)
    requires Ran(a, b)
    ensures a.rivals == [] ==> b.tables == a.tables && Brought(a, b, shelf, store) == TakenSlugs(b.tables, shelf, store)
  {
    hide TakenSlugs;
    if a.rivals == [] {
      assert Between(a, b) == [];
    }
  }

  lemma {:induction false} TakenMeansHeld(t: Tables, store: Id, slug: string)
    ensures slug in TakenSlugs(t, Categories, store) <==> CategorySlugTaken(t.categories, store, slug)
    ensures slug in TakenSlugs(t, Products, store) <==> SlugTaken(t.products, store, slug)
  {
  }

  /** A slug free at one moment and taken at a later one came with a write that landed in between. */
  lemma {:induction false} TakenSince(a: Moment, b: Moment, c: Moment, shelf: Shelf, store: Id, slug: string)
    requires Ran(a, b) && Ran(b, c) && slug !in TakenSlugs(b.tables, shelf, store)
    ensures slug in TakenSlugs(c.tables, shelf, store) ==> slug in SlugsOfAll(Between(a, c), shelf, store)
  {
    hide TakenSlugs, SlugsOf, Apply;
    RanOn(a, b, c);
    WritesTake(b.tables, Between(b, c), shelf, store);
    SlugsOfConcat(Between(a, b), Between(b, c), shelf, store);
  }

  /** One slug search: when it began, when it last probed, and how many candidates it rejected. */
  datatype Search = Search(begun: Moment, probed: Moment, rejected: nat)

  /** The search came to this slug: every candidate before it was taken, and it was free when probed. */
  ghost predicate Found(start: Moment, s: Search, shelf: Shelf, store: Id, base: string, slug: string) {
    && Ran(start, s.begun) && Ran(s.begun, s.probed)
    && slug == Candidate(base, s.rejected) && slug !in TakenSlugs(s.probed.tables, shelf, store)
    && Suffixed(base, slug, s.rejected) && !Held(s.probed.tables, shelf, store, slug)
    && AllRejected(base, s.rejected, Brought(s.begun, s.probed, shelf, store))
  }

  /** The k-th candidate is the first that is free. */
  ghost predicate FirstFree(t: Tables, shelf: Shelf, store: Id, base: string, k: nat) {
    !Held(t, shelf, store, Candidate(base, k)) && forall j :: 0 <= j < k ==> Held(t, shelf, store, Candidate(base, j))
  }

  /** With no rivals about, the search of any attempt finds the first free candidate of the tables as they are. */
  lemma {:induction false} FoundAlone(start: Moment, s: Search, trial: Moment, shelf: Shelf, store: Id, base: string,
                                      slug: string)
    requires Found(start, s, shelf, store, base, slug) && Ran(s.probed, trial)
    ensures start.rivals == [] ==>
              trial.tables == start.tables && FirstFree(start.tables, shelf, store, base, s.rejected)
  {
    hide TakenSlugs, Candidate, Held, FirstFree, Suffixed;
    Undisturbed(start, s.begun, shelf, store);
    Undisturbed(s.begun, s.probed, shelf, store);
    Undisturbed(s.probed, trial, shelf, store);
    if start.rivals == [] {
      NoneEarlier(start.tables, shelf, store, base, s.rejected);
    }
  }

  // ----- create_category -----

  /** The insert runs after the search, so a rival may take the slug in between; then nothing is written. `before` is
      the moment of the insert. */
  method CreateCategory(db: Database, store: Id, id: Id, name: string, slugified: string, position: int)
    returns (outcome: Outcome<Id>, slug: string, ghost search: Search, ghost before: Moment)
    modifies db
    ensures Found(old(db.Now()), search, Categories, store, BaseSlug(slugified), slug)
    ensures search.begun == old(db.Now()) && Ran(search.probed, before)
    ensures db.Now() ==
            before.(tables := CreateCategoryIn(before.tables, store, id, name, slugified, search.rejected, position))
    ensures outcome.Ok? ==>
              && outcome.value == id && id !in before.tables.issued
              && db.categories == before.tables.categories[id := Category(store, name, slug, position)]
    ensures outcome.Ok? <==> CategoryFits(before.tables, store, id, name, slug, position)
    ensures outcome == Failed(DataError) <==> |name| > 255 || |slug| > 255 || position > 2147483647
    ensures outcome.Ok? ==> CategoryNamed(db.Snapshot(), store, slug) == Some(id)
    ensures !outcome.Ok? ==> outcome.Failed? && db.Now() == before
    ensures !outcome.Ok? && |name| <= 255 && |slug| <= 255 && 0 <= position <= 2147483647 &&
            id !in before.tables.issued ==>
              slug in SlugsOfAll(Between(old(db.Now()), before), Categories, store)
    ensures old(db.rivals) == [] ==>
              FirstFree(old(db.Snapshot()), Categories, store, BaseSlug(slugified), search.rejected) &&
              before.tables == old(db.Snapshot())
  {
    hide Candidate, Held, FirstFree, Suffixed, CategoryFits, TakenSlugs, SlugsOf, ApplyAll, Ran, AllRejected, Fresh,
      ColumnFault, CategoryFault;
    ghost var start := db.Now();
    ghost var rejected;
    slug, rejected := UniqueSlug(db, Categories, store, slugified);
    search := Search(start, db.Now(), rejected);
    db.Yield();
    before := db.Now();
    RanNowhere(start);
    RanOn(start, search.probed, before);
    FoundAlone(start, search, before, Categories, store, BaseSlug(slugified), slug);
    TakenSince(start, search.probed, before, Categories, store, slug);
    TakenMeansHeld(before.tables, store, slug);
    CategoryAccepted(before.tables, store, id, name, slug, position);
    var fault := CategoryFault(db.Snapshot(), store, id, name, slug, position);
    if fault.Some? {
      return Failed(fault.value), slug, search, before;
    }
    NamedAfterwards(before.tables, store, id, name, slug, position);
    db.categories := db.categories[id := Category(store, name, slug, position)];
    db.issued := db.issued + {id};
    outcome := Ok(id);
  }

  /** A category row that fits its columns, under a slug no category of the store has and an id never handed out. */
  ghost predicate CategoryFits(t: Tables, store: Id, id: Id, name: string, slug: string, position: int) {
    && |name| <= 255 && |slug| <= 255 && 0 <= position <= 2147483647 && id !in t.issued
    && forall c :: c in t.categories ==> t.categories[c].store != store || t.categories[c].slug != slug
  }

  lemma {:induction false} CategoryAccepted(t: Tables, store: Id, id: Id, name: string, slug: string, position: int)
    ensures var fault := CategoryFault(t, store, id, name, slug, position);
            && (fault.None? <==> CategoryFits(t, store, id, name, slug, position))
            && (fault == Some(DataError) <==> |name| > 255 || |slug| > 255 || position > 2147483647)
            && (fault.None? ==> id !in t.issued)
            && (fault.Some? && |name| <= 255 && |slug| <= 255 && 0 <= position <= 2147483647 && id !in t.issued ==>
                 CategorySlugTaken(t.categories, store, slug))
  {
    assert id in [id];
  }

  lemma {:induction false} NamedAfterwards(t: Tables, store: Id, id: Id, name: string, slug: string, position: int)
    requires CategoryFault(t, store, id, name, slug, position).None?
    ensures !CategorySlugTaken(t.categories, store, slug)
    ensures CategoryNamed(WithCategory(t, store, id, name, slug, position), store, slug) == Some(id)
  {
    hide ColumnFault, Fresh;
    var after := WithCategory(t, store, id, name, slug, position);
    assert id in after.categories && after.categories[id].store == store && after.categories[id].slug == slug;
    assert CategorySlugTaken(after.categories, store, slug);
  }

  // ----- create_product -----

  predicate AxisTaken(groups: map<Id, Group>, product: Id, name: string) {
    exists g :: g in groups && groups[g].product == product && groups[g].name == name
  }

  /** Inserts one axis, then its options in one statement. */
  method AddGroup(db: Database, store: Id, product: Id, g: GroupIn) returns (fault: Option<Fault>)
    modifies db`groups, db`choices
    ensures fault == (match ColumnFault(|g.name| <= 100, g.position)
                      case Some(refused) => Some(refused)
                      case None => if AxisTaken(old(db.groups), product, g.name) then Some(IntegrityError)
                                   else ChoicesFault(g.choices))
    ensures fault.None? ==> db.groups == old(db.groups)[g.id := Group(store, product, g.name, g.position)]
    ensures fault.None? ==> db.choices == WithChoices(old(db.choices), store, g.id, g.choices)
  {
    fault := ColumnFault(|g.name| <= 100, g.position);
    if fault.Some? {
      return;
    }
    if AxisTaken(db.groups, product, g.name) {
      return Some(IntegrityError);
    }
    db.groups := db.groups[g.id := Group(store, product, g.name, g.position)];
    fault := ChoicesFault(g.choices);
    if fault.None? {
      db.choices := WithChoices(db.choices, store, g.id, g.choices);
    }
  }

  /** On a product that is itself new, only the payload's earlier axes can clash with the next one. */
  lemma {:induction false} AxisClash(groups: map<Id, Group>, products: map<Id, Product>, store: Id, product: Id,
                                     ins: seq<GroupIn>, i: nat)
    requires GroupsOk(groups, products) && product !in products && NewTo(groups, GroupRowIds(ins)) && i < |ins|
    ensures AxisTaken(WithGroups(groups, store, product, ins[..i]), product, ins[i].name) <==>
            exists k :: 0 <= k < |ins[..i]| && ins[..i][k].name == ins[i].name
  {
    hide SameAxis;
    var earlier := ins[..i];
    PrefixNew(groups.Keys, ins, i);
    GroupsExact(groups, store, product, earlier);
    var after := WithGroups(groups, store, product, earlier);
    if k :| 0 <= k < |earlier| && earlier[k].name == ins[i].name {
      assert earlier[k] in earlier && after[earlier[k].id].name == ins[i].name;
    }
    if AxisTaken(after, product, ins[i].name) {
      var g :| g in after && after[g].product == product && after[g].name == ins[i].name;
      var e :| e in earlier && e.id == g;
      var k :| 0 <= k < |earlier| && earlier[k] == e;
    }
  }

  lemma {:induction false} PrefixNew(m: set<Id>, ins: seq<GroupIn>, i: nat)
    requires Distinct(GroupRowIds(ins)) && (forall id :: id in GroupRowIds(ins) ==> id !in m) && i <= |ins|
    ensures Distinct(GroupRowIds(ins[..i])) && forall id :: id in GroupRowIds(ins[..i]) ==> id !in m
    decreases |ins|
  {
    if i == |ins| {
      assert ins[..i] == ins;
    } else {
      PeelGroup(m, ins);
      PrefixNew(m, ins[..|ins| - 1], i);
      assert ins[..|ins| - 1][..i] == ins[..i];
    }
  }

  lemma {:induction false} NextGroup(m: map<Id, Group>, n: map<Id, Choice>, store: Id, product: Id, ins: seq<GroupIn>,
                                     i: nat)
    requires i < |ins|
    ensures var g := ins[i];
            && WithGroups(m, store, product, ins[..i + 1]) ==
                 WithGroups(m, store, product, ins[..i])[g.id := Group(store, product, g.name, g.position)]
            && WithGroupChoices(n, store, ins[..i + 1]) ==
                 WithChoices(WithGroupChoices(n, store, ins[..i]), store, g.id, g.choices)
            && GroupsFault(ins[..i + 1]) ==
                 (if GroupsFault(ins[..i]).Some? then GroupsFault(ins[..i]) else GroupFault(ins[..i], g))
  {
    hide GroupFault, WithChoices;
    assert ins[..i + 1][..i] == ins[..i];
  }

  lemma {:induction false} GroupsStop(ins: seq<GroupIn>, i: nat)
    requires i <= |ins| && GroupsFault(ins[..i]).Some?
    ensures GroupsFault(ins) == GroupsFault(ins[..i])
    decreases |ins|
  {
    hide GroupFault;
    if i == |ins| {
      assert ins[..i] == ins;
    } else {
      assert ins[..|ins| - 1][..i] == ins[..i];
      GroupsStop(ins[..|ins| - 1], i);
    }
  }

  /** Inserts the axes one after the other, up to the first refusal. */
  method AddGroups(db: Database, store: Id, product: Id, ins: seq<GroupIn>) returns (fault: Option<Fault>)
    requires exists products :: GroupsOk(db.groups, products) && product !in products
    requires NewTo(db.groups, GroupRowIds(ins))
    modifies db`groups, db`choices
    ensures fault == GroupsFault(ins)
    ensures fault.None? ==> db.groups == WithGroups(old(db.groups), store, product, ins)
    ensures fault.None? ==> db.choices == WithGroupChoices(old(db.choices), store, ins)
  {
    hide GroupsOk, NewTo, ColumnFault, ChoicesFault, WithChoices, AxisTaken, WithGroups, WithGroupChoices, GroupsFault;
    ghost var products :| GroupsOk(db.groups, products) && product !in products;
    ghost var groups, choices := db.groups, db.choices;
    NoGroups(groups, choices, store, product);
    for i := 0 to |ins|
      invariant db.groups == WithGroups(groups, store, product, ins[..i])
      invariant db.choices == WithGroupChoices(choices, store, ins[..i])
      invariant GroupsFault(ins[..i]).None?
    {
      AxisClash(groups, products, store, product, ins, i);
      NextGroup(groups, choices, store, product, ins, i);
      fault := AddGroup(db, store, product, ins[i]);
      if fault.Some? {
        GroupsStop(ins, i + 1);
        return;
      }
    }
    assert ins[..|ins|] == ins;
    fault := None;
  }

  lemma NoGroups(m: map<Id, Group>, n: map<Id, Choice>, store: Id, product: Id)
    ensures WithGroups(m, store, product, []) == m && WithGroupChoices(n, store, []) == n && GroupsFault([]).None?
  {
  }

  /** Inserts the product, its images, and its axes. The caller owns the transaction, and rolls a refusal back. The
      category foreign key is deferred to the commit. */
  method BuildProduct(db: Database, store: Id, category: Id, slug: string, p: ProductIn, now: Time)
    returns (fault: Option<Fault>)
    requires Coherent(db.Snapshot())
    modifies db`products, db`images, db`groups, db`choices, db`issued
    ensures fault.Some? ==> BuildFault(old(db.Snapshot()), store, category, slug, p) == fault
    ensures fault.None? ==>
              BuildFault(old(db.Snapshot()), store, category, slug, p) ==
              (if CategoryOf(old(db.Snapshot()), store, category) then None else Some(IntegrityError))
    ensures fault.None? ==> db.Snapshot() == Built(old(db.Snapshot()), store, category, slug, p, now)
  {
    hide ColumnFault, ImagesFault, GroupsFault, GroupsOk, NewTo, WithImages, WithGroups, WithGroupChoices, RowIds,
         CategoriesOk, ProductsOk, ImagesOk, ChoicesOk, ActivityOk, SlugTaken, Fresh;
    ghost var t := db.Snapshot();
    fault := ProductFault(db.Snapshot(), store, slug, p);
    if fault.Some? {
      return;
    }
    BuiltIdsNew(t, p);
    var row := Product(store, category, p.name, slug, p.description, p.price, p.visible, p.featured, now, now);
    db.products := db.products[p.id := row];
    db.issued := db.issued + ToSet(RowIds(p));
    fault := ImagesFault(p.images);
    if fault.Some? {
      return;
    }
    db.images := WithImages(db.images, store, p.id, p.images);
    assert GroupsOk(db.groups, t.products) && p.id !in t.products;
    fault := AddGroups(db, store, p.id, p.groups);
  }

  // ----- update_product and delete_product -----

  /** Why saving the patched row is refused: a value the column cannot hold, then a null, then the check constraint. */
  function SaveFault(patch: Patch, row: Product): Option<Fault> {
    if (patch.name.Set? && |row.name| > 255) || (patch.price.Set? && row.price > MAX_INT) then Some(DataError)
    else if patch.name.Null? || patch.description.Null? || patch.price.Null? || patch.featured.Null? ||
      patch.visible.Null?
    then Some(IntegrityError)
    else if patch.price.Set? && row.price < 0 then Some(IntegrityError)
    else None
  }

  method SetFields(product: Product, patch: Patch) returns (row: Product)
    ensures row == product.(name := if patch.name.Set? then patch.name.value else product.name,
                            description := if patch.description.Set? then patch.description.value
                              else product.description,
                            price := if patch.price.Set? then patch.price.value else product.price,
                            featured := if patch.featured.Set? then patch.featured.value else product.featured,
                            visible := if patch.visible.Set? then patch.visible.value else product.visible)
  {
    row := product;
    if patch.name.Set? { row := row.(name := patch.name.value); }
    if patch.description.Set? { row := row.(description := patch.description.value); }
    if patch.price.Set? { row := row.(price := patch.price.value); }
    if patch.featured.Set? { row := row.(featured := patch.featured.value); }
    if patch.visible.Set? { row := row.(visible := patch.visible.value); }
  }

  /** The row to save: the fields present in the payload are set one by one. */
  method Edit(t: Tables, store: Id, product: Id, patch: Patch, now: Time) returns (outcome: Outcome<Product>)
    ensures outcome == Patched(t, store, product, patch, now)
  {
    if !(product in t.products && t.products[product].store == store) {
      return NotFound;
    }
    var row := t.products[product];
    if patch.categorySlug.Set? {
      var category := CategoryNamed(t, store, patch.categorySlug.value);
      if category.None? {
        return NotFound;
      }
      row := row.(category := category.value);
    }
    row := SetFields(row, patch);
    if SaveFault(patch, row).Some? {
      return Failed(SaveFault(patch, row).value);
    }
    return Ok(row.(updatedAt := now));
  }

  /** Updates a product's fields; a refused update writes nothing. */
  method UpdateProduct(db: Database, store: Id, product: Id, patch: Patch, now: Time)
    returns (outcome: Outcome<Product>)
    modifies db`products
    ensures outcome == Patched(old(db.Snapshot()), store, product, patch, now)
    ensures db.Snapshot() == UpdateProductIn(old(db.Snapshot()), store, product, patch, now)
    ensures db.products == if outcome.Ok? then old(db.products)[product := outcome.value] else old(db.products)
  {
    hide Patched;
    outcome := Edit(db.Snapshot(), store, product, patch, now);
    if outcome.Ok? {
      db.products := db.products[product := outcome.value];
    }
  }

  /** What an update left of a field, and what it was. */
  predicate Carries<T(==)>(field: Field<T>, before: T, after: T) {
    match field
    case Unset => after == before
    case Null => false
    case Set(value) => after == value
  }

  /** Everything an accepted update does to a row, and everything it leaves alone. */
  predicate UpdatedTo(t: Tables, patch: Patch, before: Product, after: Product, now: Time) {
    && Carries(patch.name, before.name, after.name) && Carries(patch.description, before.description, after.description)
    && Carries(patch.price, before.price, after.price) && Carries(patch.featured, before.featured, after.featured)
    && Carries(patch.visible, before.visible, after.visible)
    && (if patch.categorySlug.Set?
        then CategoryOf(t, before.store, after.category) &&
          t.categories[after.category].slug == patch.categorySlug.value
        else after.category == before.category)
    && after.store == before.store && after.slug == before.slug && after.createdAt == before.createdAt
    && after.updatedAt == now
  }

  /** An update is accepted exactly when the product and the named category are the store's, no column is set to null
      and the new name and price fit; then each field present in the payload holds its value and no other one moved. */
  lemma {:induction false} UpdateChangesOnlySupplied(t: Tables, store: Id, product: Id, patch: Patch, now: Time)
    ensures var outcome := Patched(t, store, product, patch, now);
            && (outcome == NotFound <==>
                product !in t.products || t.products[product].store != store ||
                (patch.categorySlug.Set? && !Held(t, Categories, store, patch.categorySlug.value)))
            && (outcome.Ok? <==> outcome != NotFound && Storable(patch))
            && (outcome == Failed(DataError) <==> outcome != NotFound && Oversized(patch))
            && (outcome.Ok? || outcome == NotFound || outcome.Failed?)
            && (outcome.Ok? ==> UpdatedTo(t, patch, t.products[product], outcome.value, now))
  {
    if patch.categorySlug.Set? {
      var found := CategoryNamed(t, store, patch.categorySlug.value);
      NamedIsTaken(t, store, patch.categorySlug.value);
      assert Held(t, Categories, store, patch.categorySlug.value) <==>
             CategorySlugTaken(t.categories, store, patch.categorySlug.value);
    }
  }

  /** A new name or price too large for its column, which is noticed before any null or negative value. */
  predicate Oversized(patch: Patch) {
    (patch.name.Set? && |patch.name.value| > 255) || (patch.price.Set? && patch.price.value > 2147483647)
  }

  predicate Storable(patch: Patch) {
    && !patch.name.Null? && !patch.description.Null? && !patch.price.Null? && !patch.featured.Null? &&
      !patch.visible.Null?
    && (patch.name.Set? ==> |patch.name.value| <= 255)
    && (patch.price.Set? ==> 0 <= patch.price.value <= 2147483647)
  }

  lemma {:induction false} NamedIsTaken(t: Tables, store: Id, slug: string)
    ensures CategoryNamed(t, store, slug).Some? <==> CategorySlugTaken(t.categories, store, slug)
  {
    var found := CategoryNamed(t, store, slug);
    assert found.Some? ==> found.value in t.categories;
  }

  function Over<T>(first: Field<T>, second: Field<T>): Field<T> {
    if second.Unset? then first else second
  }

  /** Two partial updates as one: the later one wins field by field, and a null category slug counts as absent. */
  function Overlay(p: Patch, q: Patch): Patch {
    Patch(if q.categorySlug.Set? then q.categorySlug else p.categorySlug, Over(p.name, q.name),
          Over(p.description, q.description), Over(p.price, q.price), Over(p.featured, q.featured),
            Over(p.visible, q.visible))
  }

  /** Only supplied fields change: two accepted updates in a row leave what their overlay leaves at once. Taking q == p,
      repeating an update changes nothing more. */
  lemma {:induction false} UpdatesCompose(t: Tables, store: Id, product: Id, p: Patch, q: Patch, before: Time,
                                          now: Time)
    requires Patched(t, store, product, p, before).Ok? && Patched(t, store, product, q, now).Ok?
    ensures UpdateProductIn(UpdateProductIn(t, store, product, p, before), store, product, q, now) ==
            UpdateProductIn(t, store, product, Overlay(p, q), now)
  {
    hide CategoryNamed;
    var once := UpdateProductIn(t, store, product, p, before);
    if q.categorySlug.Set? {
      NamesReadCategories(t, once, store, q.categorySlug.value);
    }
    var row := Patched(once, store, product, q, now).value;
    assert row == Patched(t, store, product, Overlay(p, q), now).value;
    assert once.products[product := row] == t.products[product := row];
  }

  lemma {:induction false} NamesReadCategories(a: Tables, b: Tables, store: Id, slug: string)
    requires a.categories == b.categories
    ensures CategoryNamed(a, store, slug) == CategoryNamed(b, store, slug)
  {
  }

  /** Deletes a product with its images and axes; order lines keep their snapshot and lose the link. */
  method DeleteProduct(db: Database, store: Id, product: Id) returns (outcome: Outcome<()>)
    modifies db
    ensures outcome == if ProductOf(old(db.Snapshot()), store, product) then Ok(()) else NotFound
    ensures db.Snapshot() == DeleteProductIn(old(db.Snapshot()), store, product)
  {
    if !(product in db.products && db.products[product].store == store) {
      return NotFound;
    }
    db.items := Unlinked(db.items, product);
    db.choices := ChoicesLess(db.choices, db.groups, product);
    db.groups := GroupsLess(db.groups, product);
    db.images := ImagesLess(db.images, product);
    db.favorites := FavoritesLess(db.favorites, product);
    db.products := db.products - {product};
    return Ok(());
  }

  /** A product's images and axes go; an option goes exactly with its axis. */
  ghost predicate ShelfGone(t: Tables, after: Tables, product: Id) {
    && (forall i :: i in after.images <==> i in t.images && t.images[i].product != product)
    && (forall i :: i in after.images ==> after.images[i] == t.images[i])
    && (forall g :: g in after.groups <==> g in t.groups && t.groups[g].product != product)
    && (forall g :: g in after.groups ==> after.groups[g] == t.groups[g])
    && (forall c :: c in t.choices && t.choices[c].group in t.groups ==>
          (c in after.choices <==> t.groups[t.choices[c].group].product != product))
    && (forall c :: c in after.choices ==> c in t.choices && after.choices[c] == t.choices[c])
  }

  /** The favorites on it go; its order lines lose the link and nothing else. */
  ghost predicate ActivityGone(t: Tables, after: Tables, product: Id) {
    && (forall f :: f in after.favorites <==> f in t.favorites && t.favorites[f].product != product)
    && (forall f :: f in after.favorites ==> after.favorites[f] == t.favorites[f])
    && (forall i :: i in after.items <==> i in t.items)
    && (forall i :: i in after.items ==>
          after.items[i] == if t.items[i].product == Some(product) then t.items[i].(product := None) else t.items[i])
  }

  /** What goes with a product and what stays, row by row. */
  ghost predicate GoneWith(t: Tables, after: Tables, product: Id) {
    && ShelfGone(t, after, product) && ActivityGone(t, after, product)
    && (forall p :: p in after.products <==> p in t.products && p != product)
    && (forall p :: p in after.products ==> after.products[p] == t.products[p])
    && after.categories == t.categories && after.orders == t.orders && after.subscriptions == t.subscriptions
  }

  lemma {:induction false} DeletedExactly(t: Tables, store: Id, product: Id)
    ensures if product in t.products && t.products[product].store == store
            then GoneWith(t, DeleteProductIn(t, store, product), product)
            else DeleteProductIn(t, store, product) == t
  {
    hide ImagesLess, GroupsLess, ChoicesLess, FavoritesLess, Unlinked, ShelfGone, ActivityGone;
    ShelfRowsGo(t, product);
    ActivityRowsGo(t, product);
  }

  lemma {:induction false} ShelfRowsGo(t: Tables, product: Id)
    ensures ShelfGone(t, Deleted(t, product), product)
  {
    hide FavoritesLess, Unlinked;
  }

  lemma {:induction false} ActivityRowsGo(t: Tables, product: Id)
    ensures ActivityGone(t, Deleted(t, product), product)
  {
    hide ImagesLess, GroupsLess, ChoicesLess;
  }

  /** Deleting a product that was just created takes back exactly its rows; only its ids stay used up. */
  lemma {:induction false} DeleteUndoesCreate(t: Tables, store: Id, category: Id, slug: string, p: ProductIn, now: Time)
    requires Coherent(t) && BuildFault(t, store, category, slug, p).None?
    ensures DeleteProductIn(CreateProductIn(t, store, category, slug, p, now), store, p.id) ==
            t.(issued := t.issued + ToSet(RowIds(p)))
  {
    hide BuildFault, WithImages, WithGroups, WithGroupChoices, RowIds, ImagesOk, GroupsOk, ChoicesOk, ItemsOk,
      FavoritesOk, ProductsOk, CategoriesOk, OrdersOk, SubscriptionsOk, ImagesLess, GroupsLess, ChoicesLess,
      FavoritesLess, Unlinked, ImagesAdded, GroupsAdded, GroupChoicesAdded;
    BuiltExactly(t, store, category, slug, p, now);
    var after := Built(t, store, category, slug, p, now);
    assert after.products - {p.id} == t.products;
    ImagesTakenBack(t.images, after.images, t.products, store, p);
    GroupsTakenBack(t.groups, after.groups, t.products, store, p);
    ChoicesTakenBack(t.choices, after.choices, t.groups, after.groups, t.products, store, p);
    ActivityUntouched(t.items, t.orders, t.favorites, t.products, p.id);
  }

  lemma {:induction false} ImagesTakenBack(images: map<Id, Image>, after: map<Id, Image>, products: map<Id, Product>,
                                           store: Id, p: ProductIn)
    requires ImagesOk(images, products) && p.id !in products && ImagesAdded(images, after, store, p.id, p.images)
    ensures ImagesLess(after, p.id) == images
  {
  }

  lemma {:induction false} ActivityUntouched(items: map<Id, Item>, orders: map<Id, Order>, favorites: map<Id, Favorite>,
                                             products: map<Id, Product>, product: Id)
    requires ItemsOk(items, orders, products) && FavoritesOk(favorites, products) && product !in products
    ensures Unlinked(items, product) == items && FavoritesLess(favorites, product) == favorites
  {
  }

  lemma {:induction false} GroupsTakenBack(groups: map<Id, Group>, after: map<Id, Group>, products: map<Id, Product>,
                                           store: Id, p: ProductIn)
    requires GroupsOk(groups, products) && p.id !in products && GroupsAdded(groups, after, store, p.id, p.groups)
    ensures GroupsLess(after, p.id) == groups
  {
  }

  lemma {:induction false} ChoicesTakenBack(choices: map<Id, Choice>, after: map<Id, Choice>, groups: map<Id, Group>,
                                            groupsAfter: map<Id, Group>, products: map<Id, Product>, store: Id,
                                            p: ProductIn)
    requires GroupsOk(groups, products) && ChoicesOk(choices, groups) && p.id !in products
    requires GroupsAdded(groups, groupsAfter, store, p.id, p.groups)
    requires GroupChoicesAdded(choices, after, store, p.groups)
    ensures ChoicesLess(after, groupsAfter, p.id) == choices
  {
  }
}
