/** A run of interleaved placements as a plain list of writes: whatever is proved of every list of writes (coherence,
    tenancy, the push table, the seller's feed) therefore holds while placements race. */
module PlacementWrites {
  import opened Schema
  import opened Writes
  import opened Coherence
  import opened Ledger
  import opened Placement

  /** What an event commits. */
  function Committed(w: World, e: Event): seq<Write> {
    match e
    case Arrive(_, _) => []
    case Advance(j, _) =>
      if j in w.jobs && Commits(w.db, w.jobs[j].request, w.jobs[j].phase)
      then [Publication(w.jobs[j].request, w.jobs[j].phase.createdAt, w.jobs[j].phase.lines)]
      else []
    case Elsewhere(write) => if write.PublishOrder? then [] else [write]
  }

  function Landed(w: World, es: seq<Event>): seq<Write> {
    if es == [] then [] else Landed(w, es[..|es| - 1]) + Committed(Run(w, es[..|es| - 1]), es[|es| - 1])
  }

  ghost predicate Legal(t: Tables, ws: seq<Write>) {
    AllAtHome(t, ws) && forall write :: write in ws ==> Priced(write)
  }

  lemma {:induction false} CommittedLegal(w: World, e: Event)
    requires Inv(w)
    ensures Next(w, e).db == ApplyAll(w.db, Committed(w, e))
    ensures |Committed(w, e)| <= 1
    ensures forall write :: write in Committed(w, e) ==> AtHome(w.db, write) && Priced(write)
  {
    hide Coherent, Balanced, JobsApart, Commits, NextPhase, Apply, LinesSound;
    if e.Advance? && e.job in w.jobs && Commits(w.db, w.jobs[e.job].request, w.jobs[e.job].phase) {
      CommitIsHome(w, e.job);
      OneWrite(w.db, Publication(w.jobs[e.job].request, w.jobs[e.job].phase.createdAt, w.jobs[e.job].phase.lines));
    } else if e.Elsewhere? && !e.write.PublishOrder? {
      OneWrite(w.db, e.write);
    }
  }

  lemma OneWrite(t: Tables, write: Write)
    ensures ApplyAll(t, [write]) == Apply(t, write)
  {
    hide Apply;
    assert [write][..0] == [];
  }

  lemma {:induction false} CommitIsHome(w: World, j: Id)
    requires Inv(w) && j in w.jobs && Commits(w.db, w.jobs[j].request, w.jobs[j].phase)
    ensures w.jobs[j].phase.AtCommit?
    ensures var write := Publication(w.jobs[j].request, w.jobs[j].phase.createdAt, w.jobs[j].phase.lines);
            AtHome(w.db, write) && Priced(write)
  {
    hide Coherent, Balanced, JobsApart, CanPublish, LinesSound;
    assert JobSound(w.db, w.jobs[j]);
    LinesHome(w.db, w.jobs[j].request, w.jobs[j].phase.lines);
  }

  lemma {:induction false} LegalAppend(t: Tables, ws: seq<Write>, more: seq<Write>)
    requires Legal(t, ws) && |more| <= 1
    requires forall write :: write in more ==> AtHome(ApplyAll(t, ws), write) && Priced(write)
    ensures Legal(t, ws + more)
  {
    hide AtHome, Priced, ApplyAll;
    forall i | 0 <= i < |ws + more| ensures AtHome(ApplyAll(t, (ws + more)[..i]), (ws + more)[i]) {
      if i < |ws| {
        assert (ws + more)[..i] == ws[..i];
      } else {
        assert (ws + more)[..i] == ws && (ws + more)[i] == more[0];
      }
    }
  }

  /** Every run's committed state is that of a list of legal writes, one per commit. */
  lemma {:induction false} RunIsWrites(w: World, es: seq<Event>)
    requires Inv(w)
    ensures Run(w, es).db == ApplyAll(w.db, Landed(w, es)) && Legal(w.db, Landed(w, es))
  {
    hide Inv, Committed, Next, Legal, Frozen;
    if es == [] {
      NoWrites(w.db);
    } else {
      var front := es[..|es| - 1];
      var v, e := Run(w, front), es[|es| - 1];
      RunIsWrites(w, front);
      RunKeeps(w, front);
      CommittedLegal(v, e);
      LegalAppend(w.db, Landed(w, front), Committed(v, e));
      ApplyAllConcat(w.db, Landed(w, front), Committed(v, e));
    }
  }

  lemma NoWrites(t: Tables)
    ensures Legal(t, []) && ApplyAll(t, []) == t
  {
  }
}
