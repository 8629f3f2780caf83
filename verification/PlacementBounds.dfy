/** Column bounds in flight: whatever a placement has read or computed so far fits the columns it is meant for. */
module PlacementBounds {
  import opened Schema
  import opened Writes
  import opened Coherence
  import opened Ledger
  import opened Orders
  import opened Placement

  predicate LineFits(line: Line) {
    0 <= line.unitPrice <= MAX_INT && 1 <= line.quantity <= MAX_INT
  }

  predicate AllFit(lines: seq<Line>) {
    forall l :: l in lines ==> LineFits(l)
  }

  predicate PhaseFits(phase: Phase) {
    match phase
    case AtLine(_, lines) => AllFit(lines)
    case AtCover(_, lines, row) => AllFit(lines) && 0 <= row.price <= MAX_INT
    case AtOptions(_, lines, row, _) => AllFit(lines) && 0 <= row.price <= MAX_INT
    case AtTotal(_, lines) => AllFit(lines)
    case AtCommit(_, lines) => AllFit(lines) && 0 <= LinesTotal(lines) <= MAX_INT
    case _ => true
  }

  lemma {:induction false} TotalNotNegative(lines: seq<Line>)
    requires AllFit(lines)
    ensures LinesTotal(lines) >= 0
  {
    if lines != [] {
      var last := lines[|lines| - 1];
      TotalNotNegative(lines[..|lines| - 1]);
      assert LineFits(last);
      assert last.unitPrice * last.quantity >= 0;
    }
  }

  lemma ReadFits(db: Tables, store: Id, product: Id)
    requires ProductsOk(db.products, db.categories)
    ensures ReadProduct(db, store, product).Some? ==> 0 <= ReadProduct(db, store, product).value.price <= MAX_INT
  {
  }

  lemma {:induction false} OptionsFit(db: Tables, request: Request, phase: Phase, now: Time, blocked: bool)
    requires phase.AtOptions? && PhaseFits(phase)
    ensures var next := NextPhase(db, request, phase, now, blocked);
            PhaseFits(next) && !next.Recover?
  {
    hide ResolveOptions;
  }

  /** No step breaks a bound, and no bound is what ever sends a request into recovery: that takes a key found taken by
      the insert, or a commit refused. */
  lemma {:induction false} StepFits(db: Tables, request: Request, phase: Phase, now: Time, blocked: bool)
    requires ProductsOk(db.products, db.categories) && PhaseFits(phase)
    ensures var next := NextPhase(db, request, phase, now, blocked);
            && PhaseFits(next)
            && (next.Recover? ==> (phase.Insert? && !blocked && !KeyFree(db, request)) || phase.AtCommit?)
  {
    hide ProductsOk, ReadProduct, CoverUrl, ResolveOptions, ExistingOrder, CanPublish, LinesTotal, KeyTaken, LineFits;
    match phase
    case AtLine(_, lines) =>
      if |lines| < |request.payload.items| {
        ReadFits(db, request.store, request.payload.items[|lines|].product);
      }
    case AtOptions(_, _, _, _) => OptionsFit(db, request, phase, now, blocked);
    case AtTotal(_, lines) => TotalNotNegative(lines);
    case _ =>
  }

  ghost predicate JobsFit(w: World) {
    forall j :: j in w.jobs ==> PhaseFits(w.jobs[j].phase)
  }

  lemma {:induction false} NextFits(w: World, e: Event)
    requires Inv(w) && JobsFit(w)
    ensures JobsFit(Next(w, e))
  {
    hide PhaseFits, NextPhase, NextTables, Apply, Blocked, ProductsOk;
    InvPrices(w);
    match e
    case Arrive(_, request) => StartFits();
    case Advance(j, now) =>
      if j in w.jobs {
        StepFits(w.db, w.jobs[j].request, w.jobs[j].phase, now, Blocked(w, j));
      }
    case Elsewhere(_) =>
  }

  lemma StartFits()
    ensures PhaseFits(Start)
  {
  }

  lemma InvPrices(w: World)
    requires Inv(w)
    ensures ProductsOk(w.db.products, w.db.categories)
  {
  }

  lemma {:induction false} RunFits(w: World, es: seq<Event>)
    requires Inv(w) && JobsFit(w)
    ensures JobsFit(Run(w, es))
  {
    hide Inv, JobsFit, Next, Frozen;
    if es != [] {
      RunFits(w, es[..|es| - 1]);
      RunKeeps(w, es[..|es| - 1]);
      NextFits(Run(w, es[..|es| - 1]), es[|es| - 1]);
    }
  }
}
