/** The seller polls while placements race: which orders a poller can lose, and why. */
module LiveInbox {
  import opened Basics
  import opened Schema
  import opened Writes
  import opened Coherence
  import opened Ledger
  import opened Placement
  import opened PlacementWrites
  import Inbox

  /** One step of the whole shop: an event of the placements and the other services, or a look at the inbox. */
  datatype Step = Do(event: Event) | Look

  function LiveWorld(w: World, steps: seq<Step>): World {
    if steps == [] then w else
      var before := LiveWorld(w, steps[..|steps| - 1]);
      match steps[|steps| - 1]
      case Do(e) => Next(before, e)
      case Look => before
  }

  /** What a step is to the poller: the write it commits, if any, or a poll. */
  function Seen(w: World, step: Step): seq<Inbox.FeedStep> {
    match step
    case Do(e) => if Committed(w, e) == [] then [] else [Inbox.Land(Committed(w, e)[0])]
    case Look => [Inbox.Poll]
  }

  function FeedSteps(w: World, steps: seq<Step>): seq<Inbox.FeedStep> {
    if steps == [] then [] else
      var front := steps[..|steps| - 1];
      FeedSteps(w, front) + Seen(LiveWorld(w, front), steps[|steps| - 1])
  }

  function LiveFeed(w: World, filter: Inbox.Filter, steps: seq<Step>): Inbox.Feed {
    Inbox.AdvanceAll(Inbox.Opened(w.db), filter, FeedSteps(w, steps))
  }

  // ----- the poller follows the placements -----

  /** What the poller's side of a step is. */
  function FeedAfter(f: Inbox.Feed, filter: Inbox.Filter, seen: seq<Inbox.FeedStep>): Inbox.Feed {
    if seen == [] then f else Inbox.Advance(f, filter, seen[0])
  }

  lemma {:induction false} FeedGrows(f: Inbox.Feed, filter: Inbox.Filter, a: seq<Inbox.FeedStep>,
                                     b: seq<Inbox.FeedStep>)
    requires |b| <= 1
    ensures Inbox.AdvanceAll(f, filter, a + b) == FeedAfter(Inbox.AdvanceAll(f, filter, a), filter, b)
  {
    hide Inbox.Advance;
    if b == [] {
      assert a + b == a;
    } else {
      assert (a + b)[..|a|] == a;
    }
  }

  lemma {:induction false} HomeGrows(t: Tables, filter: Inbox.Filter, a: seq<Inbox.FeedStep>, b: seq<Inbox.FeedStep>)
    requires Inbox.FeedAtHome(Inbox.Opened(t), filter, a) && |b| <= 1
    requires b != [] && b[0].Land? ==>
               AtHome(Inbox.AdvanceAll(Inbox.Opened(t), filter, a).tables, b[0].write)
    ensures Inbox.FeedAtHome(Inbox.Opened(t), filter, a + b)
  {
    hide AtHome, Inbox.AdvanceAll;
    forall i | 0 <= i < |a + b| && (a + b)[i].Land?
      ensures AtHome(Inbox.AdvanceAll(Inbox.Opened(t), filter, (a + b)[..i]).tables, (a + b)[i].write)
    {
      assert (a + b)[..i] == if i < |a| then a[..i] else a;
    }
  }

  lemma {:induction false} TablesFollow(w: World, f: Inbox.Feed, filter: Inbox.Filter, step: Step)
    requires Inv(w) && f.tables == w.db
    ensures var v := if step.Do? then Next(w, step.event) else w;
            var seen := Seen(w, step);
            && Inv(v) && FeedAfter(f, filter, seen).tables == v.db && |seen| <= 1
            && (seen != [] && seen[0].Land? ==> AtHome(w.db, seen[0].write))
  {
    hide Inv, Apply, Committed, AtHome, Inbox.Late, Inbox.Polled, Frozen;
    if step.Do? {
      NextKeeps(w, step.event);
      CommittedLegal(w, step.event);
      var ws := Committed(w, step.event);
      if ws == [] {
        assert ApplyAll(w.db, ws) == w.db;
      } else {
        assert ws == [ws[0]] && ws[0] in ws;
        OneWrite(w.db, ws[0]);
      }
    }
  }

  lemma {:induction false} FeedFollows(w: World, filter: Inbox.Filter, steps: seq<Step>)
    requires Inv(w)
    ensures Inv(LiveWorld(w, steps)) && LiveFeed(w, filter, steps).tables == LiveWorld(w, steps).db
    ensures Inbox.FeedAtHome(Inbox.Opened(w.db), filter, FeedSteps(w, steps))
  {
    hide Inv, Next, Inbox.Advance, Seen, AtHome;
    if steps != [] {
      var front, step := steps[..|steps| - 1], steps[|steps| - 1];
      FeedFollows(w, filter, front);
      var v := LiveWorld(w, front);
      TablesFollow(v, LiveFeed(w, filter, front), filter, step);
      FeedGrows(Inbox.Opened(w.db), filter, FeedSteps(w, front), Seen(v, step));
      HomeGrows(w.db, filter, FeedSteps(w, front), Seen(v, step));
    }
  }

  lemma {:induction false} FeedStepsOn(w: World, filter: Inbox.Filter, steps: seq<Step>, step: Step)
    requires Inv(w)
    ensures LiveFeed(w, filter, steps + [step]) ==
            FeedAfter(LiveFeed(w, filter, steps), filter, Seen(LiveWorld(w, steps), step))
    ensures LiveWorld(w, steps + [step]) ==
            (if step.Do? then Next(LiveWorld(w, steps), step.event) else LiveWorld(w, steps))
  {
    hide Inv, Next, Inbox.Advance, Seen, AtHome;
    assert (steps + [step])[..|steps|] == steps;
    FeedFollows(w, filter, steps);
    TablesFollow(LiveWorld(w, steps), LiveFeed(w, filter, steps), filter, step);
    FeedGrows(Inbox.Opened(w.db), filter, FeedSteps(w, steps), Seen(LiveWorld(w, steps), step));
  }

  // ----- the clock -----

  /** The time of the last request step. */
  function Clock(start: Time, steps: seq<Step>): Time {
    if steps == [] then start
    else if steps[|steps| - 1].Do? && steps[|steps| - 1].event.Advance? then steps[|steps| - 1].event.now
    else Clock(start, steps[..|steps| - 1])
  }

  /** The clock never goes back. */
  predicate Clocked(start: Time, steps: seq<Step>) {
    steps == [] ||
    (Clocked(start, steps[..|steps| - 1]) && Clock(start, steps[..|steps| - 1]) <= Clock(start, steps))
  }

  function DatedAt(phase: Phase): Time
    requires InTransaction(phase)
  {
    phase.createdAt
  }

  // ----- open transactions that a poll overtakes -----

  /** A transaction is open that will publish this order with this date. */
  predicate Open(jobs: map<Id, Job>, store: Id, o: Id, at: Time) {
    exists j :: j in jobs && OpenIn(jobs[j], store, o, at)
  }

  predicate OpenIn(job: Job, store: Id, o: Id, at: Time) {
    InTransaction(job.phase) && job.request.store == store && job.request.payload.id == o && DatedAt(job.phase) == at
  }

  /** The cursor stands at or above this order. */
  predicate Covers(cursor: Option<Inbox.Cursor>, o: Id, at: Time) {
    cursor.Some? && (at < cursor.value.since || (at == cursor.value.since && o <= cursor.value.sinceId))
  }

  /** At look `p` the order's transaction was open, with its date taken, and the cursor moved past it, or was. */
  ghost predicate OvertakenAt(w: World, filter: Inbox.Filter, steps: seq<Step>, o: Id, at: Time, p: int) {
    && 0 <= p < |steps| && steps[p] == Look
    && Open(LiveWorld(w, steps[..p]).jobs, filter.store, o, at)
    && Covers(LiveFeed(w, filter, steps[..p + 1]).cursor, o, at)
  }

  ghost predicate Overtaken(w: World, filter: Inbox.Filter, steps: seq<Step>, o: Id, at: Time) {
    exists p :: OvertakenAt(w, filter, steps, o, at, p)
  }

  lemma {:induction false} OvertakenStays(w: World, filter: Inbox.Filter, steps: seq<Step>, step: Step, o: Id, at: Time)
    ensures Overtaken(w, filter, steps, o, at) ==> Overtaken(w, filter, steps + [step], o, at)
  {
    hide LiveWorld, LiveFeed, Open, Covers;
    if p :| OvertakenAt(w, filter, steps, o, at, p) {
      assert (steps + [step])[..p] == steps[..p] && (steps + [step])[..p + 1] == steps[..p + 1];
      assert OvertakenAt(w, filter, steps + [step], o, at, p);
    }
  }

  lemma {:induction false} LookOvertakes(w: World, filter: Inbox.Filter, steps: seq<Step>, o: Id, at: Time)
    requires Open(LiveWorld(w, steps).jobs, filter.store, o, at)
    requires Covers(LiveFeed(w, filter, steps + [Look]).cursor, o, at)
    ensures Overtaken(w, filter, steps + [Look], o, at)
  {
    hide LiveWorld, LiveFeed, Open, Covers;
    var all := steps + [Look];
    assert all[..|steps|] == steps && all[..|steps| + 1] == all;
    assert OvertakenAt(w, filter, all, o, at, |steps|);
  }

  /** Another order of the store carries the same date and the same or a larger id. */
  predicate SameInstant(orders: map<Id, Order>, store: Id, o: Id, at: Time) {
    exists c :: c in orders && orders[c].store == store && orders[c].createdAt == at && o <= c
  }

  /** The same, with a larger id. */
  predicate SameInstantAbove(orders: map<Id, Order>, store: Id, o: Id, at: Time) {
    exists c :: c in orders && orders[c].store == store && orders[c].createdAt == at && o < c
  }

  lemma {:induction false} InstantStays(before: map<Id, Order>, after: map<Id, Order>, store: Id, o: Id, at: Time)
    requires Inbox.Grown(before, after)
    ensures SameInstant(before, store, o, at) ==> SameInstant(after, store, o, at)
    ensures SameInstantAbove(before, store, o, at) ==> SameInstantAbove(after, store, o, at)
    ensures SameInstant(before, store, o, at) && o !in before ==> SameInstantAbove(after, store, o, at)
  {
  }

  // ----- the invariant -----

  /** Nothing is dated in the future, and the cursor is an order of the store. */
  ghost predicate Dated(w: World, cursor: Option<Inbox.Cursor>, store: Id, clock: Time) {
    && (forall o :: o in w.db.orders ==> w.db.orders[o].createdAt <= clock)
    && (forall j :: j in w.jobs && InTransaction(w.jobs[j].phase) ==> DatedAt(w.jobs[j].phase) <= clock)
    && (cursor.Some? ==> cursor.value.sinceId in w.db.orders && w.db.orders[cursor.value.sinceId].store == store &&
                         w.db.orders[cursor.value.sinceId].createdAt == cursor.value.since)
  }

  /** An open transaction below the cursor has an excuse, and so has every missed order. */
  ghost predicate Excused(w: World, filter: Inbox.Filter, steps: seq<Step>) {
    var v, f := LiveWorld(w, steps), LiveFeed(w, filter, steps);
    && (forall o, at :: Open(v.jobs, filter.store, o, at) && Covers(f.cursor, o, at) ==>
          Overtaken(w, filter, steps, o, at) || SameInstant(v.db.orders, filter.store, o, at))
    && f.missed <= v.db.orders.Keys
    && (forall o :: o in f.missed ==> MissedFor(w, filter, steps, v.db.orders, o, v.db.orders[o].createdAt))
  }

  ghost predicate MissedFor(w: World, filter: Inbox.Filter, steps: seq<Step>, orders: map<Id, Order>, o: Id, at: Time) {
    Overtaken(w, filter, steps, o, at) || SameInstantAbove(orders, filter.store, o, at)
  }

  lemma {:induction false} PhaseDates(db: Tables, request: Request, phase: Phase, now: Time, blocked: bool)
    ensures var next := NextPhase(db, request, phase, now, blocked);
            InTransaction(next) ==>
              (InTransaction(phase) && DatedAt(next) == DatedAt(phase)) || (phase.Insert? && DatedAt(next) == now)
  {
    hide Orders.ReadProduct, Orders.CoverUrl, Orders.ResolveOptions, Orders.ExistingOrder, CanPublish, KeyFree;
  }

  /** A transaction open after a step was open before it with the same date, or takes its date in it. */
  lemma {:induction false} OpenedBy(w: World, e: Event, store: Id, o: Id, at: Time)
    ensures Open(Next(w, e).jobs, store, o, at) ==>
              Open(w.jobs, store, o, at) || (e.Advance? && at == e.now)
  {
    hide NextPhase, NextTables, Apply, Blocked;
    var v := Next(w, e);
    if Open(v.jobs, store, o, at) {
      var j :| j in v.jobs && OpenIn(v.jobs[j], store, o, at);
      if j in w.jobs && e.Advance? && e.job == j {
        PhaseDates(w.db, w.jobs[j].request, w.jobs[j].phase, e.now, Blocked(w, j));
        assert OpenIn(w.jobs[j], store, o, at) || at == e.now;
      } else if j in w.jobs {
        assert OpenIn(w.jobs[j], store, o, at);
      }
    }
  }

  /** A commit publishes the order of an open transaction, dated as the transaction was; nothing else adds orders. */
  lemma {:induction false} NewOrderWasOpen(w: World, e: Event, o: Id)
    requires Inv(w)
    ensures var after := Next(w, e).db.orders;
            o in after && o !in w.db.orders ==> Open(w.jobs, after[o].store, o, after[o].createdAt)
  {
    hide Coherent, Balanced, JobsApart, CanPublish, WithItems, NextPhase, Blocked;
    match e
    case Arrive(_, _) =>
    case Elsewhere(write) => if !write.PublishOrder? { SameOrders(w.db, write); }
    case Advance(j, _) =>
      if j in w.jobs && Commits(w.db, w.jobs[j].request, w.jobs[j].phase) && o == w.jobs[j].request.payload.id {
        assert OpenIn(w.jobs[j], w.jobs[j].request.store, o, w.jobs[j].phase.createdAt);
      }
  }

  lemma {:induction false} StepGrows(w: World, e: Event)
    requires Inv(w)
    ensures Inbox.Grown(w.db.orders, Next(w, e).db.orders)
  {
    hide Inv, Next, Frozen;
    NextKeeps(w, e);
    Inbox.FrozenGrown(w.db, Next(w, e).db);
  }

  lemma {:induction false} DatesStep(w: World, e: Event, cursor: Option<Inbox.Cursor>, store: Id, clock: Time)
    requires Inv(w) && Dated(w, cursor, store, clock) && (e.Advance? ==> clock <= e.now)
    ensures Dated(Next(w, e), cursor, store, if e.Advance? then e.now else clock)
  {
    hide Inv, Next;
    StepGrows(w, e);
    var v, later := Next(w, e), if e.Advance? then e.now else clock;
    forall o | o in v.db.orders ensures v.db.orders[o].createdAt <= later {
      NewOrderWasOpen(w, e, o);
      OpenIsDated(w, cursor, store, clock, v.db.orders[o].store, o, v.db.orders[o].createdAt);
    }
    forall j | j in v.jobs && InTransaction(v.jobs[j].phase) ensures DatedAt(v.jobs[j].phase) <= later {
      var job := v.jobs[j];
      assert OpenIn(job, job.request.store, job.request.payload.id, DatedAt(job.phase));
      OpenedBy(w, e, job.request.store, job.request.payload.id, DatedAt(job.phase));
      OpenIsDated(w, cursor, store, clock, job.request.store, job.request.payload.id, DatedAt(job.phase));
    }
  }

  lemma OpenIsDated(w: World, cursor: Option<Inbox.Cursor>, store: Id, clock: Time, s: Id, o: Id, at: Time)
    requires Dated(w, cursor, store, clock)
    ensures Open(w.jobs, s, o, at) ==> at <= clock
  {
  }

  lemma {:induction false} DatesLook(w: World, f: Inbox.Feed, filter: Inbox.Filter, clock: Time)
    requires Dated(w, f.cursor, filter.store, clock) && f.tables == w.db
    ensures Dated(w, Inbox.Advance(f, filter, Inbox.Poll).cursor, filter.store, clock)
  {
    hide Inbox.Polled;
    Inbox.PageIsPending(f.tables.orders, filter, f.cursor);
  }

  lemma {:induction false} LateIsNew(before: map<Id, Order>, after: map<Id, Order>, filter: Inbox.Filter,
                                     cursor: Option<Inbox.Cursor>, delivered: seq<Id>, o: Id)
    requires Inbox.Grown(before, after) && filter.status.None?
    ensures o in Inbox.Late(before, after, filter, cursor, delivered) ==>
              o in after && o !in before && after[o].store == filter.store && Covers(cursor, o, after[o].createdAt)
  {
  }

  lemma {:induction false} MissedStep(w: World, f: Inbox.Feed, filter: Inbox.Filter, e: Event, o: Id)
    requires Inv(w) && f.tables == w.db && filter.status.None?
    ensures var g := FeedAfter(f, filter, Seen(w, Do(e)));
            && g.cursor == f.cursor
            && (o in g.missed && o !in f.missed ==>
                 o in g.tables.orders && o !in w.db.orders && g.tables.orders[o].store == filter.store &&
                 Covers(f.cursor, o, g.tables.orders[o].createdAt))
  {
    hide Inv, Apply, Committed, Inbox.Late, Covers, Next;
    TablesFollow(w, f, filter, Do(e));
    StepGrows(w, e);
    LateIsNew(w.db.orders, Next(w, e).db.orders, filter, f.cursor, f.delivered, o);
  }

  lemma {:induction false} DoExcused(w: World, filter: Inbox.Filter, steps: seq<Step>, e: Event, clock: Time)
    requires Inv(w) && filter.status.None? && Excused(w, filter, steps)
    requires Dated(LiveWorld(w, steps), LiveFeed(w, filter, steps).cursor, filter.store, clock)
    requires e.Advance? ==> clock <= e.now
    ensures Excused(w, filter, steps + [Do(e)])
  {
    hide Inv, Next, LiveWorld, LiveFeed, Seen, FeedAfter, Open, Covers, Overtaken, SameInstant, SameInstantAbove;
    var v, f, all := LiveWorld(w, steps), LiveFeed(w, filter, steps), steps + [Do(e)];
    FeedFollows(w, filter, steps);
    FeedStepsOn(w, filter, steps, Do(e));
    FeedFollows(w, filter, all);
    StepGrows(v, e);
    var after, g := Next(v, e), LiveFeed(w, filter, all);
    MissedStep(v, f, filter, e, 0);
    forall o, at | Open(after.jobs, filter.store, o, at) && Covers(g.cursor, o, at)
      ensures Overtaken(w, filter, all, o, at) || SameInstant(after.db.orders, filter.store, o, at)
    {
      OpenedBy(v, e, filter.store, o, at);
      OvertakenStays(w, filter, steps, Do(e), o, at);
      InstantStays(v.db.orders, after.db.orders, filter.store, o, at);
      if !Open(v.jobs, filter.store, o, at) {
        CoveredNow(v, f.cursor, filter.store, clock, o, at);
      }
    }
    forall o | o in g.missed
      ensures o in after.db.orders && MissedFor(w, filter, all, after.db.orders, o, after.db.orders[o].createdAt)
    {
      MissedStep(v, f, filter, e, o);
      NewOrderWasOpen(v, e, o);
      var at := if o in after.db.orders then after.db.orders[o].createdAt else 0;
      OvertakenStays(w, filter, steps, Do(e), o, at);
      InstantStays(v.db.orders, after.db.orders, filter.store, o, at);
    }
  }

  /** A date taken now is not below a cursor of the past, except at the very same instant. */
  lemma {:induction false} CoveredNow(w: World, cursor: Option<Inbox.Cursor>, store: Id, clock: Time, o: Id, at: Time)
    requires Dated(w, cursor, store, clock) && clock <= at && Covers(cursor, o, at)
    ensures SameInstant(w.db.orders, store, o, at)
  {
  }

  lemma {:induction false} LookExcused(w: World, filter: Inbox.Filter, steps: seq<Step>)
    requires Inv(w) && Excused(w, filter, steps)
    ensures Excused(w, filter, steps + [Look])
  {
    hide Inv, Next, LiveWorld, LiveFeed, Open, Covers, Overtaken, SameInstant, SameInstantAbove, Inbox.Polled,
      Inbox.Newest;
    var all := steps + [Look];
    FeedStepsOn(w, filter, steps, Look);
    var v, g := LiveWorld(w, all), LiveFeed(w, filter, all);
    forall o, at | Open(v.jobs, filter.store, o, at) && Covers(g.cursor, o, at)
      ensures Overtaken(w, filter, all, o, at) {
      LookOvertakes(w, filter, steps, o, at);
    }
    Inbox.PollReadsOnly(LiveFeed(w, filter, steps), filter);
    forall o | o in g.missed
      ensures o in v.db.orders && MissedFor(w, filter, all, v.db.orders, o, v.db.orders[o].createdAt)
    {
      OvertakenStays(w, filter, steps, Look, o, v.db.orders[o].createdAt);
    }
  }

  lemma {:induction false} AllExcused(w: World, filter: Inbox.Filter, steps: seq<Step>, start: Time)
    requires Inv(w) && w.jobs == map[] && filter.status.None? && Clocked(start, steps)
    requires forall o :: o in w.db.orders ==> w.db.orders[o].createdAt <= start
    ensures Excused(w, filter, steps)
    ensures Dated(LiveWorld(w, steps), LiveFeed(w, filter, steps).cursor, filter.store, Clock(start, steps))
  {
    hide Inv, Next, Excused, Dated, FeedAfter, Seen, LiveFeed, LiveWorld;
    if steps == [] {
      NothingYet(w, filter, start);
    } else {
      var front, step := steps[..|steps| - 1], steps[|steps| - 1];
      assert steps == front + [step];
      AllExcused(w, filter, front, start);
      FeedFollows(w, filter, front);
      FeedStepsOn(w, filter, front, step);
      var v, f := LiveWorld(w, front), LiveFeed(w, filter, front);
      match step
      case Do(e) =>
        DoExcused(w, filter, front, e, Clock(start, front));
        DatesStep(v, e, f.cursor, filter.store, Clock(start, front));
        MissedStep(v, f, filter, e, 0);
      case Look =>
        LookExcused(w, filter, front);
        DatesLook(v, f, filter, Clock(start, front));
        assert Seen(v, Look) == [Inbox.Poll] by { LookSeen(v); }
        PolledOnce(f, filter);
    }
  }

  lemma LookSeen(w: World)
    ensures Seen(w, Look) == [Inbox.Poll]
  {
  }

  lemma PolledOnce(f: Inbox.Feed, filter: Inbox.Filter)
    ensures FeedAfter(f, filter, [Inbox.Poll]) == Inbox.Advance(f, filter, Inbox.Poll)
  {
  }

  lemma NothingYet(w: World, filter: Inbox.Filter, start: Time)
    requires w.jobs == map[] && forall o :: o in w.db.orders ==> w.db.orders[o].createdAt <= start
    ensures Excused(w, filter, [])
    ensures Dated(LiveWorld(w, []), LiveFeed(w, filter, []).cursor, filter.store, Clock(start, []))
  {
    assert LiveFeed(w, filter, []) == Inbox.Opened(w.db);
  }

  /** While any number of placements race and the seller polls, under a clock that never goes back: just after a look
      the poller holds each order of the store exactly once except the missed ones; and an order is missed only if its
      transaction had taken its date and was still open when a look moved the cursor past it, or if another order of
      the store carries the very same date and a larger id. */
  lemma {:induction false} MissedWereOpen(w: World, filter: Inbox.Filter, steps: seq<Step>, start: Time)
    requires Inv(w) && w.jobs == map[] && filter.status.None? && Clocked(start, steps)
    requires forall o :: o in w.db.orders ==> w.db.orders[o].createdAt <= start
    ensures var f, orders := LiveFeed(w, filter, steps), LiveWorld(w, steps).db.orders;
            && f.tables.orders == orders && Distinct(f.delivered)
            && (steps != [] && steps[|steps| - 1] == Look ==>
                 ToSet(f.delivered) == Inbox.Everything(orders, filter.store) - f.missed)
            && forall o :: o in f.missed ==> o in orders && MissedFor(w, filter, steps, orders, o, orders[o].createdAt)
  {
    hide Inv, Next, Dated, MissedFor, Inbox.AdvanceAll, Inbox.Wanted, Inbox.Everything, ToSet, Distinct;
    AllExcused(w, filter, steps, start);
    FeedFollows(w, filter, steps);
    InvCoherent(w);
    Inbox.PollingDelivers(w.db, filter, FeedSteps(w, steps));
    if steps != [] && steps[|steps| - 1] == Look {
      assert Seen(LiveWorld(w, steps[..|steps| - 1]), Look) == [Inbox.Poll];
    }
  }
}
