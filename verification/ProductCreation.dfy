/** `create_product` (apps/products/services.py): the retry loop around the slug race, for any schedule of rivals. */
module ProductCreation {
  import opened Basics
  import opened Schema
  import opened Slugs
  import opened Catalog
  import opened Writes
  import opened BuildExact
  import opened Coherence
  import opened Databases
  import opened CatalogServices

  /** A write that really put a product with this slug on the store's shelf. */
  predicate Commits(t: Tables, w: Write, store: Id, slug: string) {
    w.CreateProduct? && w.store == store && w.slug == slug && BuildFault(t, store, w.category, slug, w.payload).None?
  }

  lemma {:induction false} SlugNeedsCommit(t: Tables, w: Write, store: Id, slug: string)
    requires slug !in TakenSlugs(t, Products, store)
    ensures slug in TakenSlugs(Apply(t, w), Products, store) ==> Commits(t, w, store, slug)
  {
    hide TakenSlugs, Apply, BuildFault;
    WriteTakes(t, w, Products, store);
    RefusedProduct(t, w);
  }

  lemma {:induction false} RefusedProduct(t: Tables, w: Write)
    ensures w.CreateProduct? && BuildFault(t, w.store, w.category, w.slug, w.payload).Some? ==> Apply(t, w) == t
  {
    hide BuildFault, Built;
  }

  lemma {:induction false} FindCommit(t: Tables, ws: seq<Write>, store: Id, slug: string, from: nat, to: nat)
    returns (turn: nat)
    requires from <= to <= |ws|
    requires slug !in TakenSlugs(ApplyAll(t, ws[..from]), Products, store)
    requires slug in TakenSlugs(ApplyAll(t, ws[..to]), Products, store)
    ensures from <= turn < to && Commits(ApplyAll(t, ws[..turn]), ws[turn], store, slug)
  {
    hide TakenSlugs, Commits, Apply;
    var last := ws[..to][to - 1];
    assert ws[..to][..to - 1] == ws[..to - 1];
    if slug in TakenSlugs(ApplyAll(t, ws[..to - 1]), Products, store) {
      turn := FindCommit(t, ws, store, slug, from, to - 1);
    } else {
      SlugNeedsCommit(ApplyAll(t, ws[..to - 1]), last, store, slug);
      turn := to - 1;
    }
  }

  /** One lost attempt: its slug, the candidate left after `rejected` others, was free after `from` writes and taken
      after `to`, and the write at `rival` in between committed a product under it. */
  datatype Attempt = Attempt(slug: string, rejected: nat, from: nat, rival: nat, to: nat)

  predicate LostTo(t: Tables, ws: seq<Write>, store: Id, base: string, a: Attempt) {
    && a.slug == Candidate(base, a.rejected)
    && a.from <= a.rival < a.to <= |ws|
    && a.slug !in TakenSlugs(ApplyAll(t, ws[..a.from]), Products, store)
    && Commits(ApplyAll(t, ws[..a.rival]), ws[a.rival], store, a.slug)
  }

  /** Attempts lost one after the other, each in a window of its own. */
  predicate LostRaces(t: Tables, ws: seq<Write>, store: Id, base: string, attempts: seq<Attempt>) {
    && (forall i :: 0 <= i < |attempts| ==> LostTo(t, ws, store, base, attempts[i]))
    && (forall i, j :: 0 <= i < j < |attempts| ==> attempts[i].to <= attempts[j].from)
  }

  lemma {:induction false} LostLater(t: Tables, ws: seq<Write>, more: seq<Write>, store: Id, base: string, a: Attempt)
    requires LostTo(t, ws, store, base, a)
    ensures LostTo(t, ws + more, store, base, a)
  {
    hide Commits, TakenSlugs, ApplyAll, Candidate;
    assert (ws + more)[..a.from] == ws[..a.from] && (ws + more)[..a.rival] == ws[..a.rival];
  }

  lemma {:induction false} StillLost(start: Moment, earlier: Moment, now: Moment, store: Id, base: string,
                                     attempts: seq<Attempt>)
    requires Ran(start, earlier) && Ran(earlier, now)
    requires LostRaces(start.tables, Between(start, earlier), store, base, attempts)
    ensures LostRaces(start.tables, Between(start, now), store, base, attempts)
  {
    hide LostTo, ApplyAll, Between;
    RanOn(start, earlier, now);
    forall i | 0 <= i < |attempts| ensures LostTo(start.tables, Between(start, now), store, base, attempts[i]) {
      LostLater(start.tables, Between(start, earlier), Between(earlier, now), store, base, attempts[i]);
    }
  }

  lemma {:induction false} LoseAttempt(start: Moment, earlier: Moment, probed: Moment, checked: Moment, store: Id,
                                       base: string, rejected: nat, attempts: seq<Attempt>) returns (a: Attempt)
    requires Ran(start, earlier) && Ran(earlier, probed) && Ran(probed, checked)
    requires var slug := Candidate(base, rejected);
             slug !in TakenSlugs(probed.tables, Products, store) && slug in TakenSlugs(checked.tables, Products, store)
    requires LostRaces(start.tables, Between(start, earlier), store, base, attempts)
    ensures LostRaces(start.tables, Between(start, checked), store, base, attempts + [a])
  {
    hide TakenSlugs, Commits, ApplyAll, Between, Candidate;
    var slug := Candidate(base, rejected);
    RanOn(start, earlier, probed);
    RanOn(start, probed, checked);
    RanOn(earlier, probed, checked);
    StillLost(start, earlier, checked, store, base, attempts);
    var ws := Between(start, checked);
    var from, to := |Between(start, probed)|, |ws|;
    assert ws[..from] == Between(start, probed) && ws[..to] == ws;
    var turn := FindCommit(start.tables, ws, store, slug, from, to);
    a := Attempt(slug, rejected, from, turn, to);
    assert from >= |Between(start, earlier)|;
  }

  // ----- what a run of rivals leaves in place -----

  lemma {:induction false} WriteKeepsCategories(t: Tables, w: Write, category: Id)
    requires t.categories.Keys <= t.issued && category in t.categories
    ensures category in Apply(t, w).categories && Apply(t, w).categories[category] == t.categories[category]
    ensures Apply(t, w).categories.Keys <= Apply(t, w).issued
  {
    hide CreateCategoryIn, CreateProductIn, UpdateProductIn, PublishOrderIn, SetStatusIn, AddFavoriteIn,
      RemoveFavoriteIn, SubscribeIn, UnsubscribeIn, PruneIn;
    if w.CreateCategory? {
      NewCategoryKeeps(t, w, category);
    }
  }

  lemma {:induction false} NewCategoryKeeps(t: Tables, w: Write, category: Id)
    requires w.CreateCategory? && t.categories.Keys <= t.issued && category in t.categories
    ensures category in Apply(t, w).categories && Apply(t, w).categories[category] == t.categories[category]
    ensures Apply(t, w).categories.Keys <= Apply(t, w).issued
  {
    hide ColumnFault, CategorySlugTaken, Candidate, Apply, CreateCategoryIn;
    CategoryAdded(t, w);
  }

  lemma {:induction false} CategoryAdded(t: Tables, w: Write)
    requires w.CreateCategory?
    ensures var row := Category(w.store, w.name, Candidate(BaseSlug(w.slugified), w.suffix), w.position);
            Apply(t, w) == t ||
            (w.id !in t.issued &&
             Apply(t, w) == t.(categories := t.categories[w.id := row], issued := t.issued + {w.id}))
  {
    hide ColumnFault, CategorySlugTaken, Candidate;
    assert w.id in [w.id];
  }

  /** No service deletes or renames a category. */
  lemma {:induction false} CategoriesStay(t: Tables, ws: seq<Write>, category: Id)
    requires t.categories.Keys <= t.issued && category in t.categories
    ensures category in ApplyAll(t, ws).categories && ApplyAll(t, ws).categories[category] == t.categories[category]
    ensures ApplyAll(t, ws).categories.Keys <= ApplyAll(t, ws).issued
  {
    hide Apply;
    if ws != [] {
      CategoriesStay(t, ws[..|ws| - 1], category);
      WriteKeepsCategories(ApplyAll(t, ws[..|ws| - 1]), ws[|ws| - 1], category);
    }
  }

  lemma {:induction false} RivalsKeepCoherence(a: Moment, b: Moment)
    requires Ran(a, b) && Coherent(a.tables) && AllAtHome(a.tables, a.rivals)
    ensures Coherent(b.tables)
  {
    hide Coherent, AtHome, ApplyAll;
    var ws := Between(a, b);
    forall i | 0 <= i < |ws| ensures AtHome(ApplyAll(a.tables, ws[..i]), ws[i]) {
      assert ws[..i] == a.rivals[..i] && ws[i] == a.rivals[i];
    }
    WritesKeepCoherence(a.tables, ws);
  }

  lemma {:induction false} StaysReady(start: Moment, now: Moment, store: Id, category: Id)
    requires Ran(start, now) && Coherent(start.tables) && AllAtHome(start.tables, start.rivals)
    requires CategoryOf(start.tables, store, category)
    ensures Coherent(now.tables) && CategoryOf(now.tables, store, category)
    ensures now.tables.categories[category] == start.tables.categories[category]
  {
    hide AllAtHome, ApplyAll, CatalogOk, ActivityOk;
    RivalsKeepCoherence(start, now);
    CategoriesStay(start.tables, Between(start, now), category);
  }

  lemma {:induction false} Commit(t: Tables, store: Id, category: Id, slug: string, p: ProductIn, now: Time)
    requires Coherent(t) && BuildFault(t, store, category, slug, p).None?
    ensures ExactlyBuilt(t, Built(t, store, category, slug, p, now), store, category, slug, p, now)
    ensures !SlugTaken(t.products, store, slug)
    ensures Built(t, store, category, slug, p, now) == Apply(t, Write.CreateProduct(store, category, slug, p, now))
  {
    hide CatalogOk, ActivityOk, BuildFault, ExactlyBuilt, Built;
    BuiltExactly(t, store, category, slug, p, now);
  }

  /** One transaction: all of the product's rows, or none. */
  method TryBuild(db: Database, store: Id, category: Id, slug: string, p: ProductIn, now: Time)
    returns (fault: Option<Fault>)
    requires Coherent(db.Snapshot()) && CategoryOf(db.Snapshot(), store, category)
    modifies db
    ensures fault == BuildFault(old(db.Snapshot()), store, category, slug, p)
    ensures fault.None? ==> ExactlyBuilt(old(db.Snapshot()), db.Snapshot(), store, category, slug, p, now)
    ensures fault.None? ==> !SlugTaken(old(db.products), store, slug)
    ensures db.Now() ==
              old(db.Now()).(tables := Apply(old(db.Snapshot()), Write.CreateProduct(store, category, slug, p, now)))
    ensures fault.Some? ==> db.Now() == old(db.Now())
  {
    hide Coherent, BuildFault, Built, ExactlyBuilt;
    var savepoint := db.Snapshot();
    fault := BuildProduct(db, store, category, slug, p, now);
    if fault.Some? {
      db.Restore(savepoint);
      RefusedProduct(savepoint, Write.CreateProduct(store, category, slug, p, now));
    } else {
      Commit(savepoint, store, category, slug, p, now);
    }
  }

  // ----- what became of a slug's winner -----

  lemma {:induction false} IssuedGrows(t: Tables, w: Write)
    ensures t.issued <= Apply(t, w).issued
  {
    hide CreateCategoryIn, CreateProductIn, UpdateProductIn, PublishOrderIn, SetStatusIn, AddFavoriteIn,
      RemoveFavoriteIn, SubscribeIn, UnsubscribeIn, PruneIn, ImagesLess, GroupsLess, ChoicesLess, FavoritesLess,
      Unlinked;
  }

  lemma {:induction false} NewProductKeeps(t: Tables, w: Write, product: Id)
    requires w.CreateProduct? && t.products.Keys <= t.issued && product in t.products
    ensures Apply(t, w).products.Keys <= Apply(t, w).issued
    ensures product in Apply(t, w).products && Apply(t, w).products[product] == t.products[product]
  {
    hide BuildFault, WithImages, WithGroups, WithGroupChoices, RowIds;
    AcceptedIsNew(t, w.store, w.category, w.slug, w.payload);
  }

  lemma {:induction false} PatchKeeps(t: Tables, w: Write, product: Id)
    requires w.UpdateProduct? && product in t.products
    ensures Apply(t, w).products.Keys == t.products.Keys
    ensures SameProductSlug(Apply(t, w).products[product], t.products[product])
  {
    hide CategoryNamed;
  }

  lemma DeleteKeeps(t: Tables, w: Write, product: Id)
    requires w.DeleteProduct? && product in t.products
    ensures Apply(t, w).products.Keys <= t.products.Keys
    ensures !Deletes(t, w, product) ==> product in Apply(t, w).products &&
                                        Apply(t, w).products[product] == t.products[product]
  {
    hide ImagesLess, GroupsLess, ChoicesLess, FavoritesLess, Unlinked;
  }

  /** An existing product keeps its store and slug until it is deleted. */
  lemma {:induction false} WriteKeepsProduct(t: Tables, w: Write, product: Id)
    requires t.products.Keys <= t.issued && product in t.products
    ensures var after := Apply(t, w);
            && after.products.Keys <= after.issued
            && (!Deletes(t, w, product) ==>
                 product in after.products && SameProductSlug(after.products[product], t.products[product]))
  {
    hide Apply, Deletes;
    IssuedGrows(t, w);
    match w
    case CreateProduct(_, _, _, _, _) => NewProductKeeps(t, w, product);
    case UpdateProduct(_, _, _, _) => PatchKeeps(t, w, product);
    case DeleteProduct(_, _) => DeleteKeeps(t, w, product);
    case CreateCategory(_, _, _, _, _, _) => CategoryAdded(t, w);
    case _ => ShelvesStay(t, w);
  }

  predicate Deletes(t: Tables, w: Write, product: Id) {
    w.DeleteProduct? && w.product == product && ProductOf(t, w.store, product)
  }

  lemma AcceptedIsNew(t: Tables, store: Id, category: Id, slug: string, p: ProductIn)
    ensures BuildFault(t, store, category, slug, p).None? ==> p.id !in t.issued && p.id in ToSet(RowIds(p))
  {
    hide ColumnFault, ImagesFault, GroupsFault, GroupRowIds;
    assert RowIds(p)[0] == p.id;
  }

  /** Write `turn` of the run deleted the product. */
  predicate DeletedAt(t: Tables, ws: seq<Write>, product: Id, turn: int) {
    0 <= turn < |ws| && Deletes(ApplyAll(t, ws[..turn]), ws[turn], product)
  }

  lemma {:induction false} ProductFate(t: Tables, ws: seq<Write>, product: Id)
    requires t.products.Keys <= t.issued && product in t.products
    ensures var after := ApplyAll(t, ws);
            (product in after.products && after.products.Keys <= after.issued &&
             SameProductSlug(after.products[product], t.products[product])) ||
            exists turn :: DeletedAt(t, ws, product, turn)
  {
    hide Apply, Deletes;
    if ws != [] {
      var front, w := ws[..|ws| - 1], ws[|ws| - 1];
      ProductFate(t, front, product);
      if turn :| DeletedAt(t, front, product, turn) {
        assert ws[..turn] == front[..turn];
        assert DeletedAt(t, ws, product, turn);
      } else {
        WriteKeepsProduct(ApplyAll(t, front), w, product);
        assert Deletes(ApplyAll(t, front), w, product) ==> DeletedAt(t, ws, product, |front|);
      }
    }
  }

  /** A product that held the slug at the first moment was deleted before the second. */
  ghost predicate WinnerDeleted(a: Moment, b: Moment, store: Id, slug: string) {
    exists winner, turn :: Holder(a.tables.products, winner, store, slug) &&
      DeletedAt(a.tables, Between(a, b), winner, turn)
  }

  predicate Holder(products: map<Id, Product>, product: Id, store: Id, slug: string) {
    product in products && products[product].store == store && products[product].slug == slug
  }

  lemma {:induction false} FreedMeansDeleted(a: Moment, b: Moment, store: Id, slug: string)
    requires Ran(a, b) && a.tables.products.Keys <= a.tables.issued
    requires SlugTaken(a.tables.products, store, slug) && !SlugTaken(b.tables.products, store, slug)
    ensures WinnerDeleted(a, b, store, slug)
  {
    hide ApplyAll, DeletedAt, Between;
    var winner :| winner in a.tables.products && a.tables.products[winner].store == store &&
                  a.tables.products[winner].slug == slug;
    assert Holder(a.tables.products, winner, store, slug);
    ProductFate(a.tables, Between(a, b), winner);
    assert !Holder(b.tables.products, winner, store, slug);
  }

  /** Why an IntegrityError is raised again instead of retried: when the slug is looked up again it is free, and
      either it was free all along and the payload itself is refused, or its winner has been deleted. */
  ghost predicate RaisedAgain(trial: Moment, now: Moment, store: Id, category: Id, slug: string, p: ProductIn) {
    && !SlugTaken(now.tables.products, store, slug)
    && if SlugTaken(trial.tables.products, store, slug)
       then ColumnFault(|p.name| <= 255 && |slug| <= 255, p.price) != Some(DataError) &&
         WinnerDeleted(trial, now, store, slug)
       else BuildFault(trial.tables, store, category, slug, p) == Some(IntegrityError)
  }

  lemma {:induction false} RaisedExactly(trial: Moment, now: Moment, store: Id, category: Id, slug: string,
                                         p: ProductIn)
    requires Ran(trial, now) && Coherent(trial.tables)
    ensures RaisedAgain(trial, now, store, category, slug, p) <==>
            BuildFault(trial.tables, store, category, slug, p) == Some(IntegrityError) &&
            !SlugTaken(now.tables.products, store, slug)
  {
    hide CatalogOk, ActivityOk, ImagesFault, GroupsFault, Fresh, SlugTaken, Ran, WinnerDeleted;
    if SlugTaken(trial.tables.products, store, slug) && !SlugTaken(now.tables.products, store, slug) {
      FreedMeansDeleted(trial, now, store, slug);
    }
  }

  /** How a call answers, from the fault its last transaction met and whether its slug is taken when looked up again. */
  function Verdict(fault: Option<Fault>, taken: bool, id: Id): Outcome<Id> {
    match fault
    case None => Ok(id)
    case Some(DataError) => Failed(DataError)
    case Some(IntegrityError) => if taken then Conflict else Failed(IntegrityError)
  }

  lemma {:induction false} HomeStays(a: Moment, b: Moment)
    requires Ran(a, b) && AllAtHome(a.tables, a.rivals)
    ensures AllAtHome(b.tables, b.rivals)
  {
    hide AtHome, Apply, ApplyAll;
    var ws := Between(a, b);
    forall i | 0 <= i < |b.rivals| ensures AtHome(ApplyAll(b.tables, b.rivals[..i]), b.rivals[i]) {
      assert a.rivals[..|ws| + i] == ws + b.rivals[..i] && a.rivals[|ws| + i] == b.rivals[i];
      ApplyAllConcat(a.tables, ws, b.rivals[..i]);
    }
  }

  /** One attempt: search, transaction, and on an integrity error a second look at the slug. */
  method Try(db: Database, store: Id, category: Id, slugified: string, p: ProductIn, now: Time)
    returns (fault: Option<Fault>, taken: bool, slug: string, ghost search: Search, ghost trial: Moment)
    requires Coherent(db.Snapshot())
    requires AllAtHome(db.Snapshot(), db.rivals)
    requires CategoryOf(db.Snapshot(), store, category)
    modifies db
    ensures Found(old(db.Now()), search, Products, store, BaseSlug(slugified), slug) && search.begun == old(db.Now())
    ensures Ran(search.probed, trial) && Ran(old(db.Now()), trial) && Coherent(trial.tables)
    ensures fault == BuildFault(trial.tables, store, category, slug, p)
    ensures fault.Some? ==> Ran(trial, db.Now()) && Ran(search.probed, db.Now()) && Ran(old(db.Now()), db.Now())
    ensures fault.None? ==> !SlugTaken(trial.tables.products, store, slug) &&
                            ExactlyBuilt(trial.tables, db.Snapshot(), store, category, slug, p, now)
    ensures fault.None? ==>
              db.Now() == trial.(tables := Apply(trial.tables, Write.CreateProduct(store, category, slug, p, now)))
    ensures fault == Some(IntegrityError) ==> taken == SlugTaken(db.products, store, slug)
  {
    hide Candidate, TakenSlugs, SlugsOf, ApplyAll, AllRejected, BuildFault, Built, Ran, Coherent, AllAtHome,
      ExactlyBuilt, SlugTaken, Apply, Found;
    ghost var begun := db.Now();
    StartsClean(begun, store, "");
    ghost var rejected;
    slug, rejected := UniqueSlug(db, Products, store, slugified);
    search := Search(begun, db.Now(), rejected);
    SearchFound(begun, search, store, BaseSlug(slugified), slug);
    db.Yield();
    trial := db.Now();
    RanOn(begun, search.probed, trial);
    StaysReady(begun, trial, store, category);
    StartsClean(trial, store, "");
    fault := TryBuild(db, store, category, slug, p, now);
    taken := false;
    if fault == Some(IntegrityError) {
      db.Yield();
      RanOn(search.probed, trial, db.Now());
      RanOn(begun, trial, db.Now());
      taken := SlugTaken(db.products, store, slug);
    }
  }

  /** Creates a product with its images and axes in one transaction, recomputing the slug when a rival wins it. The
      slug of every attempt is the candidate its own search comes to. The answer follows from the last transaction and
      the look at its slug afterwards; giving up means five lost attempts, and a lost race is never an error before
      that. Either the payload's rows and nothing else are added, in the named category, under a slug that was free,
      or nothing is written. Alone, the call succeeds exactly when the payload is accepted under the first free
      candidate. `search` and `trial` are of the last attempt; the uuids of a transaction that was rolled back were
      never issued, so the payload's uuids serve every attempt. */
  method CreateProduct(db: Database, store: Id, slugified: string, p: ProductIn, now: Time)
    returns (outcome: Outcome<Id>, slug: string, ghost search: Search, ghost trial: Moment,
             ghost attempts: seq<Attempt>)
    requires Coherent(db.Snapshot()) && AllAtHome(db.Snapshot(), db.rivals)
    modifies db
    ensures outcome == NotFound <==> CategoryNamed(old(db.Snapshot()), store, p.categorySlug).None?
    ensures outcome == NotFound ==> db.Now() == old(db.Now())
    ensures var found := CategoryNamed(old(db.Snapshot()), store, p.categorySlug);
            found.Some? ==>
              && Found(old(db.Now()), search, Products, store, BaseSlug(slugified), slug)
              && Ran(search.probed, trial)
              && outcome == Verdict(BuildFault(trial.tables, store, found.value, slug, p),
                                    SlugTaken(db.products, store, slug), p.id)
              && (outcome == Failed(IntegrityError) <==> RaisedAgain(trial, db.Now(), store, found.value, slug, p))
              && (!outcome.Ok? ==> Ran(trial, db.Now()))
              && (outcome.Ok? ==> !SlugTaken(trial.tables.products, store, slug) &&
                                  ExactlyBuilt(trial.tables, db.Snapshot(), store, found.value, slug, p, now) &&
                                  db.Now() ==
                                  trial.(tables := Apply(trial.tables,
                                                         Write.CreateProduct(store, found.value, slug, p, now))))
    ensures LostRaces(old(db.Snapshot()), Between(old(db.Now()), db.Now()), store, BaseSlug(slugified), attempts)
    ensures if outcome == Conflict then |attempts| == 5
            else |attempts| < 5 &&
                 LostRaces(old(db.Snapshot()), Between(old(db.Now()), search.begun), store, BaseSlug(slugified),
                           attempts)
    ensures var found := CategoryNamed(old(db.Snapshot()), store, p.categorySlug);
            old(db.rivals) == [] && found.Some? ==>
              && FirstFree(old(db.Snapshot()), Products, store, BaseSlug(slugified), search.rejected)
              && (outcome.Ok? <==> BuildFault(old(db.Snapshot()), store, found.value, slug, p).None?)
              && attempts == []
  {
    hide Candidate, TakenSlugs, BuildFault, Ran, LostRaces, Coherent, AllAtHome, ExactlyBuilt, SlugTaken, Apply,
         CategorySlugTaken, RaisedAgain, FirstFree, Found, CategoryNamed;
    ghost var start, base := db.Now(), BaseSlug(slugified);
    slug, search, trial, attempts := "", Search(start, start, 0), start, [];
    StartsClean(start, store, base);
    var category := CategoryNamed(db.Snapshot(), store, p.categorySlug);
    if category.None? {
      return NotFound, slug, search, trial, attempts;
    }
    var fault, taken := None, false;
    for attempt := 0 to 5
      invariant Ran(start, db.Now()) && |attempts| == attempt
      invariant LostRaces(start.tables, Between(start, db.Now()), store, base, attempts)
      invariant attempt > 0 ==>
                  && Found(start, search, Products, store, base, slug) && Ran(search.probed, trial) &&
                    Ran(trial, db.Now())
                  && Ran(start, trial) && Coherent(trial.tables)
                  && BuildFault(trial.tables, store, category.value, slug, p) == Some(IntegrityError)
                  && SlugTaken(db.products, store, slug)
    {
      ghost var begun := db.Now();
      StaysReady(start, begun, store, category.value);
      HomeStays(start, begun);
      fault, taken, slug, search, trial := Try(db, store, category.value, slugified, p, now);
      LaterFound(start, begun, search, trial, store, base, slug);
      StillLost(start, begun, trial, store, base, attempts);
      Alone(start, search, trial, store, base, slug, attempts);
      if fault.None? {
        SlugOnShelf(trial.tables, db.Snapshot(), store, category.value, slug, p, now);
        TakenNotRaised(trial, db.Now(), store, category.value, slug, p);
        return Ok(p.id), slug, search, trial, attempts;
      }
      RanOn(start, trial, db.Now());
      RaisedExactly(trial, db.Now(), store, category.value, slug, p);
      if fault.value.DataError? || !taken {
        StillLost(start, trial, db.Now(), store, base, attempts);
        return Failed(fault.value), slug, search, trial, attempts;
      }
      TakenMeansHeld(db.Snapshot(), store, slug);
      FoundSlug(start, search, store, base, slug);
      ghost var lost := LoseAttempt(start, begun, search.probed, db.Now(), store, base, search.rejected, attempts);
      attempts := attempts + [lost];
    }
    FoundAlone(start, search, trial, Products, store, base, slug);
    NoneLostAlone(start, db.Now(), store, base, attempts);
    RaisedExactly(trial, db.Now(), store, category.value, slug, p);
    outcome := Conflict;
  }

  lemma {:induction false} LaterFound(start: Moment, begun: Moment, s: Search, trial: Moment, store: Id, base: string,
                                      slug: string)
    requires Ran(start, begun) && s.begun == begun && Found(begun, s, Products, store, base, slug) && Ran(begun, trial)
    ensures Found(start, s, Products, store, base, slug) && Ran(start, trial)
  {
    hide Ran, Candidate, TakenSlugs, AllRejected, Brought;
    RanOn(start, begun, trial);
  }

  lemma FoundSlug(start: Moment, s: Search, store: Id, base: string, slug: string)
    requires Found(start, s, Products, store, base, slug)
    ensures slug == Candidate(base, s.rejected) && slug !in TakenSlugs(s.probed.tables, Products, store)
    ensures Ran(start, s.begun) && Ran(s.begun, s.probed)
  {
  }

  lemma {:induction false} Alone(start: Moment, s: Search, trial: Moment, store: Id, base: string, slug: string,
                                 attempts: seq<Attempt>)
    requires Found(start, s, Products, store, base, slug) && Ran(s.probed, trial) && Ran(start, trial)
    requires LostRaces(start.tables, Between(start, trial), store, base, attempts)
    ensures start.rivals == [] ==>
              trial.tables == start.tables && FirstFree(start.tables, Products, store, base, s.rejected) &&
                attempts == []
  {
    hide Found, FirstFree, LostRaces, Ran;
    FoundAlone(start, s, trial, Products, store, base, slug);
    NoneLostAlone(start, trial, store, base, attempts);
  }

  lemma StartsClean(start: Moment, store: Id, base: string)
    ensures Ran(start, start) && LostRaces(start.tables, [], store, base, []) && Between(start, start) == []
  {
  }

  lemma SearchFound(start: Moment, s: Search, store: Id, base: string, slug: string)
    requires Ran(start, s.begun) && Ran(s.begun, s.probed)
    requires slug == Candidate(base, s.rejected) && slug !in TakenSlugs(s.probed.tables, Products, store)
    requires AllRejected(base, s.rejected, Brought(s.begun, s.probed, Products, store))
    ensures Found(start, s, Products, store, base, slug)
  {
    hide Candidate, TakenSlugs, Held, Suffixed, AllRejected;
    CandidatesNumbered(base, s.rejected);
    TakenIsHeld(s.probed.tables, Products, store, slug);
  }

  lemma {:induction false} NoneLostAlone(start: Moment, now: Moment, store: Id, base: string, attempts: seq<Attempt>)
    requires Ran(start, now) && LostRaces(start.tables, Between(start, now), store, base, attempts)
    ensures start.rivals == [] ==> attempts == []
  {
    hide Commits, TakenSlugs, ApplyAll, Candidate;
    var ws := Between(start, now);
    assert start.rivals == [] ==> |ws| == 0;
    assert attempts != [] ==> LostTo(start.tables, ws, store, base, attempts[0]) && |ws| > 0;
  }

  lemma SlugOnShelf(t: Tables, after: Tables, store: Id, category: Id, slug: string, p: ProductIn, now: Time)
    requires ExactlyBuilt(t, after, store, category, slug, p, now)
    ensures SlugTaken(after.products, store, slug)
  {
    hide ImagesAdded, GroupsAdded, GroupChoicesAdded;
    assert Holder(after.products, p.id, store, slug);
  }

  lemma TakenNotRaised(trial: Moment, now: Moment, store: Id, category: Id, slug: string, p: ProductIn)
    requires SlugTaken(now.tables.products, store, slug)
    ensures !RaisedAgain(trial, now, store, category, slug, p)
  {
  }

  // ----- a lost race that is raised again -----

  /** A rival creates a product under the slug between search and transaction, and deletes it before the second look. */
  function WinAndLeave(store: Id, category: Id, slug: string, r: ProductIn, now: Time): seq<Write> {
    [Write.CreateProduct(store, category, slug, r, now), Write.DeleteProduct(store, r.id)]
  }

  /** The moment at which that many of the writes have landed. */
  function After(t: Tables, ws: seq<Write>, landed: nat): Moment {
    if landed > |ws| then Moment(ApplyAll(t, ws), ws, [])
      else Moment(ApplyAll(t, ws[..landed]), ws[..landed], ws[landed..])
  }

  lemma {:induction false} AfterRan(t: Tables, ws: seq<Write>, a: nat, b: nat)
    requires a <= b <= |ws|
    ensures Ran(After(t, ws, a), After(t, ws, b))
  {
    assert ws[..b][..a] == ws[..a] && ws[..b] == ws[..a] + ws[a..b] && ws[a..] == ws[a..b] + ws[b..];
    ApplyAllConcat(t, ws[..a], ws[a..b]);
  }

  /** In any shop, a payload that is accepted before and would be accepted afterwards is nevertheless refused with an
      IntegrityError under that schedule: the transaction meets the rival's slug, and the second look finds it free. */
  lemma {:induction false} LeavingWinnerRaises(t: Tables, store: Id, category: Id, slug: string, p: ProductIn,
                                               r: ProductIn, now: Time)
    requires Coherent(t)
    requires BuildFault(t, store, category, slug, p).None?
    requires BuildFault(t, store, category, slug, r).None?
    requires ToSet(RowIds(p)) !! ToSet(RowIds(r))
    ensures var ws := WinAndLeave(store, category, slug, r, now);
            var trial, end := After(t, ws, 1), After(t, ws, 2);
            && Ran(After(t, ws, 0), trial) && Ran(trial, end)
            && slug !in TakenSlugs(After(t, ws, 0).tables, Products, store)
            && RaisedAgain(trial, end, store, category, slug, p)
            && BuildFault(end.tables, store, category, slug, p).None?
  {
    hide BuildFault, Coherent, TakenSlugs, Apply, ExactlyBuilt, SlugTaken, RaisedAgain, Ran, RowIds;
    var ws := WinAndLeave(store, category, slug, r, now);
    var trial, end := After(t, ws, 1), After(t, ws, 2);
    AfterRan(t, ws, 0, 1);
    AfterRan(t, ws, 1, 2);
    Commit(t, store, category, slug, r, now);
    TakenMeansHeld(t, store, slug);
    TwoWrites(t, ws[0], ws[1]);
    assert ws[..0] == [] && ws[..1] == [ws[0]] && ws[..2] == [ws[0], ws[1]];
    SlugOnShelf(t, trial.tables, store, category, slug, r, now);
    EveryWriteKeepsCoherence(t, ws[0]);
    WinnerTaken(trial.tables, store, category, slug, p);
    AcceptedColumns(t, store, category, slug, p);
    UsedIdsOnly(t, store, category, slug, p, r, now);
    AcceptedColumns(end.tables, store, category, slug, p);
    RaisedExactly(trial, end, store, category, slug, p);
  }

  lemma TwoWrites(t: Tables, a: Write, b: Write)
    ensures ApplyAll(t, [a]) == Apply(t, a) && ApplyAll(t, [a, b]) == Apply(Apply(t, a), b) && ApplyAll(t, []) == t
  {
    hide Apply;
    assert [a][..0] == [] && [a, b][..1] == [a];
  }

  lemma {:induction false} WinnerTaken(t: Tables, store: Id, category: Id, slug: string, p: ProductIn)
    ensures SlugTaken(t.products, store, slug) && ColumnFault(|p.name| <= 255 && |slug| <= 255, p.price).None? ==>
              BuildFault(t, store, category, slug, p) == Some(IntegrityError)
  {
    hide ColumnFault, ImagesFault, GroupsFault, Fresh, SlugTaken;
  }

  lemma {:induction false} AcceptedColumns(t: Tables, store: Id, category: Id, slug: string, p: ProductIn)
    ensures BuildFault(t, store, category, slug, p).None? ==>
              ColumnFault(|p.name| <= 255 && |slug| <= 255, p.price).None? && !SlugTaken(t.products, store, slug)
  {
    hide ColumnFault, ImagesFault, GroupsFault, Fresh, SlugTaken;
  }

  /** A product created and deleted leaves nothing but used ids behind. */
  lemma {:induction false} UsedIdsOnly(t: Tables, store: Id, category: Id, slug: string, p: ProductIn, r: ProductIn,
                                       now: Time)
    requires Coherent(t)
    requires BuildFault(t, store, category, slug, p).None?
    requires BuildFault(t, store, category, slug, r).None?
    requires ToSet(RowIds(p)) !! ToSet(RowIds(r))
    ensures BuildFault(Apply(Apply(t, Write.CreateProduct(store, category, slug, r, now)),
                             Write.DeleteProduct(store, r.id)),
                       store, category, slug, p).None?
  {
    hide ColumnFault, ImagesFault, GroupsFault, SlugTaken, Coherent, RowIds, CreateProductIn, DeleteProductIn;
    DeleteUndoesCreate(t, store, category, slug, r, now);
    assert forall id :: id in RowIds(p) ==> id in ToSet(RowIds(p));
  }

  function NewShop(): Tables {
    Tables(map[1 := Category(7, "Dresses", "dresses", 0)], map[], map[], map[], map[], map[], map[], map[], map[], {1})
  }

  function Dress(id: Id): ProductIn {
    ProductIn(id, "dresses", "Dress", "", 45000, false, true, [], [])
  }

  lemma NewShopCoherent()
    ensures Coherent(NewShop())
  {
    assert CatalogOk(NewShop()) && ActivityOk(NewShop());
  }

  lemma DressAccepted(id: Id)
    requires id != 1
    ensures RowIds(Dress(id)) == [id] && BuildFault(NewShop(), 7, 1, "dress", Dress(id)).None?
  {
    assert RowIds(Dress(id)) == [id];
  }

  /** It happens to the first dress of a new shop. */
  lemma {:induction false} LeavingWinnerExample()
    ensures var ws := WinAndLeave(7, 1, "dress", Dress(3), 0);
            && BuildFault(NewShop(), 7, 1, "dress", Dress(2)).None?
            && RaisedAgain(After(NewShop(), ws, 1), After(NewShop(), ws, 2), 7, 1, "dress", Dress(2))
  {
    hide RaisedAgain, After, WinAndLeave, ApplyAll, Apply, Coherent, BuildFault, RowIds, Ran, TakenSlugs, NewShop,
      Dress;
    NewShopCoherent();
    DressAccepted(2);
    DressAccepted(3);
    LeavingWinnerRaises(NewShop(), 7, 1, "dress", Dress(2), Dress(3), 0);
  }

  /** The turns at which a rival really committed a product in the store. */
  function CommitTurns(t: Tables, ws: seq<Write>, store: Id): set<nat> {
    set i | 0 <= i < |ws| && ws[i].CreateProduct? && Commits(ApplyAll(t, ws[..i]), ws[i], store, ws[i].slug)
  }

  /** Each lost attempt is some other product's commit, so five lost attempts take five of them. */
  lemma {:induction false} LossesAreCommits(t: Tables, ws: seq<Write>, store: Id, base: string, attempts: seq<Attempt>)
    requires LostRaces(t, ws, store, base, attempts)
    ensures |attempts| <= |CommitTurns(t, ws, store)|
  {
    hide TakenSlugs, BuildFault, ApplyAll;
    var turns := seq(|attempts|, i requires 0 <= i < |attempts| => attempts[i].rival);
    DistinctSize(turns);
    assert forall i :: 0 <= i < |turns| ==> turns[i] in CommitTurns(t, ws, store);
    SubsetSize(ToSet(turns), CommitTurns(t, ws, store));
  }
}
