/** Registration (apps/users/services.py, `_taken` and `create_user`): any number of requests check, validate and insert
    in any interleaving. The check ignores letter case; the unique constraints behind the insert do not. */
module Users {
  import opened Basics
  import opened Schema
  import opened Catalog

  datatype User = User(name: string, email: string, phone: string)

  /** How the database upper-cases text, and what the manager's `normalize_email` does to an address. */
  datatype Rules = Rules(upper: string -> string, normal: string -> string)

  /** Normalising changes at most letter case. */
  ghost predicate Lawful(rules: Rules) {
    forall email :: rules.upper(rules.normal(email)) == rules.upper(email)
  }

  /** `weak` is the verdict of the password validators; `id` is the uuid drawn for the row. */
  datatype Request = Request(id: Id, name: string, email: string, phone: string, weak: bool)

  /** `seen` are the users that were there when the check passed. */
  datatype Phase = Check | Insert(seen: set<Id>) | Done(outcome: Outcome<Id>)

  datatype Job = Job(request: Request, phase: Phase)

  datatype World = World(users: map<Id, User>, jobs: seq<Job>)

  datatype Event = Arrive(request: Request) | Advance(job: nat)

  predicate SameEmail(rules: Rules, a: string, b: string) {
    rules.upper(a) == rules.upper(b)
  }

  predicate Taken(users: map<Id, User>, rules: Rules, email: string, phone: string) {
    exists u :: u in users && (SameEmail(rules, users[u].email, email) || users[u].phone == phone)
  }

  function RowOf(rules: Rules, r: Request): User {
    User(r.name, rules.normal(r.email), r.phone)
  }

  /** What the insert runs into: a value too long, or one of the three unique columns. */
  function InsertFault(users: map<Id, User>, rules: Rules, r: Request): Option<Fault> {
    var row := RowOf(rules, r);
    if |row.name| > 255 || |row.email| > 254 || |row.phone| > 13 then Some(DataError)
    else if r.id in users || exists u :: u in users && (users[u].email == row.email || users[u].phone == row.phone)
    then Some(IntegrityError)
    else None
  }

  function NextPhase(users: map<Id, User>, rules: Rules, job: Job): Phase {
    match job.phase
    case Check =>
      if Taken(users, rules, job.request.email, job.request.phone) then Done(Conflict)
      else if job.request.weak then Done(BadRequest)
      else Insert(users.Keys)
    case Insert(_) =>
      (match InsertFault(users, rules, job.request)
       case None => Done(Ok(job.request.id))
       case Some(IntegrityError) => Done(Conflict)
       case Some(DataError) => Done(Failed(DataError)))
    case Done(_) => job.phase
  }

  function NextUsers(users: map<Id, User>, rules: Rules, job: Job): map<Id, User> {
    if job.phase.Insert? && InsertFault(users, rules, job.request).None?
    then users[job.request.id := RowOf(rules, job.request)]
    else users
  }

  function Next(w: World, rules: Rules, e: Event): World {
    match e
    case Arrive(request) => w.(jobs := w.jobs + [Job(request, Check)])
    case Advance(j) =>
      if j >= |w.jobs| then w else
        World(NextUsers(w.users, rules, w.jobs[j]),
              w.jobs[j := w.jobs[j].(phase := NextPhase(w.users, rules, w.jobs[j]))])
  }

  function Run(w: World, rules: Rules, events: seq<Event>): World {
    if events == [] then w else Next(Run(w, rules, events[..|events| - 1]), rules, events[|events| - 1])
  }

  // ----- what every run keeps -----

  ghost predicate ExactlyUnique(users: map<Id, User>) {
    forall a, b :: a in users && b in users && Clash(users[a], users[b]) ==> a == b
  }

  predicate Clash(a: User, b: User) {
    a.email == b.email || a.phone == b.phone
  }

  ghost predicate CaseUnique(users: map<Id, User>, rules: Rules) {
    forall a, b :: a in users && b in users && SameEmail(rules, users[a].email, users[b].email) ==> a == b
  }

  predicate Created(job: Job) {
    job.phase.Done? && job.phase.outcome.Ok?
  }

  ghost predicate StillSpeaks(users: map<Id, User>, rules: Rules, seen: set<Id>, email: string) {
    seen <= users.Keys && forall u :: u in seen ==> !SameEmail(rules, users[u].email, email)
  }

  /** Some user has the email, in whatever letter case, or the phone number. */
  ghost predicate Known(users: map<Id, User>, rules: Rules, r: Request) {
    exists u :: u in users && (rules.upper(users[u].email) == rules.upper(r.email) || users[u].phone == r.phone)
  }

  /** The row of the request is there, field by field. */
  ghost predicate Stored(users: map<Id, User>, rules: Rules, r: Request) {
    r.id in users && users[r.id].name == r.name && users[r.id].email == rules.normal(r.email) &&
    users[r.id].phone == r.phone
  }

  ghost predicate Oversized(rules: Rules, r: Request) {
    |r.name| > 255 || |rules.normal(r.email)| > 254 || |r.phone| > 13
  }

  /** What an answer means: a created job's row is there as requested; a conflict has, and keeps, a user to blame; a 400
      is a weak password's alone; the only database error that escapes is a value too long. */
  ghost predicate AnswerOk(users: map<Id, User>, rules: Rules, r: Request, outcome: Outcome<Id>) {
    match outcome
    case Ok(id) => id == r.id && Stored(users, rules, r)
    case Conflict => r.id in users || Known(users, rules, r)
    case BadRequest => r.weak
    case Failed(fault) => fault == DataError && Oversized(rules, r)
    case _ => false
  }

  /** A passed check still speaks for the users it saw; an answer means what it says. */
  ghost predicate JobOk(users: map<Id, User>, rules: Rules, job: Job) {
    && (job.phase.Insert? ==> StillSpeaks(users, rules, job.phase.seen, job.request.email) && !job.request.weak)
    && (job.phase.Done? ==> AnswerOk(users, rules, job.request, job.phase.outcome))
  }

  /** `start` are the users the run began with. */
  ghost predicate Inv(start: map<Id, User>, w: World, rules: Rules) {
    && ExactlyUnique(w.users)
    && (forall u :: u in start ==> u in w.users && w.users[u] == start[u])
    && (forall j :: 0 <= j < |w.jobs| ==> JobOk(w.users, rules, w.jobs[j]))
    && (forall u :: u in w.users && u !in start ==> exists j :: 0 <= j < |w.jobs| && CreatedAs(w.jobs[j], u))
    && (forall i, j :: 0 <= i < j < |w.jobs| && Created(w.jobs[i]) && Created(w.jobs[j]) ==>
          w.jobs[i].request.id != w.jobs[j].request.id)
    && (forall j :: 0 <= j < |w.jobs| && Created(w.jobs[j]) ==> w.jobs[j].request.id !in start)
  }

  predicate CreatedAs(job: Job, u: Id) {
    Created(job) && job.request.id == u
  }

  lemma {:induction false} UsersGrow(users: map<Id, User>, rules: Rules, job: Job)
    ensures var after := NextUsers(users, rules, job);
            (forall u :: u in users ==> u in after && after[u] == users[u]) &&
            (ExactlyUnique(users) ==> ExactlyUnique(after)) &&
            (forall u :: u in after && u !in users ==> job.phase.Insert? && u == job.request.id &&
                                                       NextPhase(users, rules, job) == Done(Ok(u)))
  {
  }

  lemma {:induction false} JobStaysOk(before: map<Id, User>, after: map<Id, User>, rules: Rules, job: Job)
    requires JobOk(before, rules, job) && forall u :: u in before ==> u in after && after[u] == before[u]
    ensures JobOk(after, rules, job)
  {
    if Known(before, rules, job.request) {
      var u :| u in before && (rules.upper(before[u].email) == rules.upper(job.request.email) ||
                               before[u].phone == job.request.phone);
      assert u in after && after[u] == before[u];
    }
  }

  lemma {:induction false} StepOk(users: map<Id, User>, rules: Rules, job: Job)
    requires Lawful(rules) && JobOk(users, rules, job)
    ensures JobOk(NextUsers(users, rules, job), rules, job.(phase := NextPhase(users, rules, job)))
    ensures Created(job.(phase := NextPhase(users, rules, job))) && !Created(job) ==>
              job.request.id !in users && job.request.id in NextUsers(users, rules, job)
  {
    if job.phase.Insert? && InsertFault(users, rules, job.request) == Some(IntegrityError) && job.request.id !in users {
      var row := RowOf(rules, job.request);
      var u :| u in users && (users[u].email == row.email || users[u].phone == row.phone);
      assert rules.upper(row.email) == rules.upper(job.request.email);
    }
  }

  lemma {:induction false} NextKeeps(start: map<Id, User>, w: World, rules: Rules, e: Event)
    requires Lawful(rules) && Inv(start, w, rules)
    ensures Inv(start, Next(w, rules, e), rules)
  {
    hide JobOk, Lawful, NextPhase, NextUsers, ExactlyUnique;
    if e.Arrive? {
      ArriveKeeps(start, w, rules, e.request);
    } else if e.job < |w.jobs| {
      var job, next := w.jobs[e.job], Next(w, rules, e);
      UsersGrow(w.users, rules, job);
      StepOk(w.users, rules, job);
      forall j | 0 <= j < |next.jobs| ensures JobOk(next.users, rules, next.jobs[j]) {
        if j != e.job {
          JobStaysOk(w.users, next.users, rules, w.jobs[j]);
        }
      }
      DoneStays(w.users, rules, job);
      CreatorsKept(start, w, rules, e.job);
      CreatedApart(start, w, rules, e.job);
    }
  }

  lemma {:induction false} CreatedApart(start: map<Id, User>, w: World, rules: Rules, j: nat)
    requires Lawful(rules) && Inv(start, w, rules) && j < |w.jobs|
    ensures var next := Next(w, rules, Advance(j));
            (forall i, k :: 0 <= i < k < |next.jobs| && Created(next.jobs[i]) && Created(next.jobs[k]) ==>
               next.jobs[i].request.id != next.jobs[k].request.id) &&
            (forall k :: 0 <= k < |next.jobs| && Created(next.jobs[k]) ==> next.jobs[k].request.id !in start)
  {
    hide JobOk, NextPhase, NextUsers, ExactlyUnique, Lawful;
    var next := Next(w, rules, Advance(j));
    StepOk(w.users, rules, w.jobs[j]);
    forall k | 0 <= k < |w.jobs| && Created(w.jobs[k]) ensures w.jobs[k].request.id in w.users {
      assert JobOk(w.users, rules, w.jobs[k]);
      CreatedIsThere(w.users, rules, w.jobs[k]);
    }
  }

  lemma CreatedIsThere(users: map<Id, User>, rules: Rules, job: Job)
    requires JobOk(users, rules, job) && Created(job)
    ensures job.request.id in users
  {
  }

  lemma {:induction false} ArriveKeeps(start: map<Id, User>, w: World, rules: Rules, request: Request)
    requires Inv(start, w, rules)
    ensures Inv(start, Next(w, rules, Arrive(request)), rules)
  {
    hide JobOk, ExactlyUnique;
    ArrivalOk(w.users, rules, request);
    var next := Next(w, rules, Arrive(request));
    forall u | u in next.users && u !in start ensures exists j :: 0 <= j < |next.jobs| && CreatedAs(next.jobs[j], u) {
      var j :| 0 <= j < |w.jobs| && CreatedAs(w.jobs[j], u);
      assert CreatedAs(next.jobs[j], u);
    }
  }

  lemma ArrivalOk(users: map<Id, User>, rules: Rules, request: Request)
    ensures JobOk(users, rules, Job(request, Check)) && !Created(Job(request, Check))
  {
  }

  lemma DoneStays(users: map<Id, User>, rules: Rules, job: Job)
    ensures Created(job) ==> NextPhase(users, rules, job) == job.phase && NextUsers(users, rules, job) == users
  {
  }

  lemma {:induction false} CreatorsKept(start: map<Id, User>, w: World, rules: Rules, j: nat)
    requires Inv(start, w, rules) && j < |w.jobs|
    ensures var next := Next(w, rules, Advance(j));
            forall u :: u in next.users && u !in start ==>
              exists k :: 0 <= k < |next.jobs| && CreatedAs(next.jobs[k], u)
  {
    hide JobOk, NextPhase, NextUsers, ExactlyUnique;
    var next := Next(w, rules, Advance(j));
    UsersGrow(w.users, rules, w.jobs[j]);
    DoneStays(w.users, rules, w.jobs[j]);
    forall u | u in next.users && u !in start ensures exists k :: 0 <= k < |next.jobs| && CreatedAs(next.jobs[k], u) {
      if u in w.users {
        var k :| 0 <= k < |w.jobs| && CreatedAs(w.jobs[k], u);
        assert CreatedAs(next.jobs[k], u);
      } else {
        assert CreatedAs(next.jobs[j], u);
      }
    }
  }

  /** In every interleaving of any number of registrations: no two users share an exact email or a phone number; the
      table is exactly the initial users plus one row per request that was answered with a user, its name, normalised
      email and phone as requested, so a request answered 409 or 400 wrote nothing; every 409 has a user to blame and
      every 400 a weak password. */
  lemma {:induction false} RegistrationSafe(start: map<Id, User>, rules: Rules, events: seq<Event>)
    requires Lawful(rules) && ExactlyUnique(start)
    ensures Inv(start, Run(World(start, []), rules, events), rules)
  {
    hide Lawful, Next, Inv;
    if events == [] {
      StartsSafe(start, rules);
    } else {
      RegistrationSafe(start, rules, events[..|events| - 1]);
      NextKeeps(start, Run(World(start, []), rules, events[..|events| - 1]), rules, events[|events| - 1]);
    }
  }

  lemma StartsSafe(start: map<Id, User>, rules: Rules)
    requires ExactlyUnique(start)
    ensures Inv(start, World(start, []), rules)
  {
  }

  // ----- how a step is answered, for good -----

  /** The row would repeat an id, an exact email or a phone number. */
  ghost predicate Repeats(users: map<Id, User>, rules: Rules, r: Request) {
    r.id in users ||
    exists u :: u in users && (users[u].email == rules.normal(r.email) || users[u].phone == r.phone)
  }

  /** An answer stays, a row stays, and a request past its check is never answered 400. */
  lemma {:induction false} StaysAnswered(w: World, rules: Rules, e: Event, j: nat)
    requires j < |w.jobs|
    ensures var v := Next(w, rules, e);
            && j < |v.jobs| && v.jobs[j].request == w.jobs[j].request
            && (w.jobs[j].phase.Done? ==> v.jobs[j].phase == w.jobs[j].phase)
            && (w.jobs[j].phase.Insert? ==> !v.jobs[j].phase.Check? && v.jobs[j].phase != Done(BadRequest))
            && (forall u :: u in w.users ==> u in v.users && v.users[u] == w.users[u])
  {
    hide Taken, RowOf;
    if e.Advance? && e.job < |w.jobs| {
      UsersGrow(w.users, rules, w.jobs[e.job]);
    }
  }

  /** What the next step of a request comes to. */
  ghost predicate Answers(users: map<Id, User>, rules: Rules, job: Job, after: map<Id, User>, next: Phase) {
    match job.phase
    case Check =>
      if Known(users, rules, job.request) then next == Done(Conflict)
      else if job.request.weak then next == Done(BadRequest)
      else !next.Check? && next != Done(BadRequest)
    case Insert(_) =>
      if Oversized(rules, job.request) then next == Done(Failed(DataError))
      else if Repeats(users, rules, job.request) then next == Done(Conflict)
      else next == Done(Ok(job.request.id)) && Stored(after, rules, job.request)
    case Done(_) => next == job.phase
  }

  lemma {:induction false} StepAnswers(w: World, rules: Rules, j: nat)
    requires j < |w.jobs|
    ensures var v := Next(w, rules, Advance(j));
            && j < |v.jobs|
            && Answers(w.users, rules, w.jobs[j], v.users, v.jobs[j].phase)
            && v.jobs[j].request == w.jobs[j].request
            && (w.jobs[j].phase.Check? && !v.jobs[j].phase.Done? ==> v.jobs[j].phase.Insert?)
  {
    var r := w.jobs[j].request;
    assert Taken(w.users, rules, r.email, r.phone) <==> Known(w.users, rules, r);
  }

  /** Whatever runs afterwards, a request checked while its email (in any letter case) or phone is taken has been
      answered 409, one checked with a free identity and a weak password 400, and no other one 400; an insert that
      meets an id, an exact email or a phone that is there has been answered 409, and one that meets none has left its
      row. */
  lemma {:induction false} AnsweredExactly(w: World, rules: Rules, j: nat, more: seq<Event>)
    requires j < |w.jobs|
    ensures var v := Run(Next(w, rules, Advance(j)), rules, more);
            && j < |v.jobs| && v.jobs[j].request == w.jobs[j].request
            && Answers(w.users, rules, w.jobs[j], v.users, v.jobs[j].phase)
  {
    hide Next, Known, Repeats, Oversized;
    var first := Next(w, rules, Advance(j));
    StepAnswers(w, rules, j);
    RunStaysAnswered(first, rules, j, more);
  }

  lemma {:induction false} RunStaysAnswered(w: World, rules: Rules, j: nat, more: seq<Event>)
    requires j < |w.jobs|
    ensures var v := Run(w, rules, more);
            && j < |v.jobs| && v.jobs[j].request == w.jobs[j].request
            && (w.jobs[j].phase.Done? ==> v.jobs[j].phase == w.jobs[j].phase)
            && (w.jobs[j].phase.Insert? ==> !v.jobs[j].phase.Check? && v.jobs[j].phase != Done(BadRequest))
            && (forall u :: u in w.users ==> u in v.users && v.users[u] == w.users[u])
  {
    hide Next;
    if more != [] {
      RunStaysAnswered(w, rules, j, more[..|more| - 1]);
      StaysAnswered(Run(w, rules, more[..|more| - 1]), rules, more[|more| - 1], j);
    }
  }

  // ----- emails up to letter case -----

  predicate Inserts(w: World, rules: Rules, e: Event) {
    e.Advance? && e.job < |w.jobs| && w.jobs[e.job].phase.Insert? &&
      InsertFault(w.users, rules, w.jobs[e.job].request).None?
  }

  /** The users that got in between this request's check and its insert. */
  function Overtakers(w: World, e: Event): set<Id> {
    if e.Advance? && e.job < |w.jobs| && w.jobs[e.job].phase.Insert? then w.users.Keys - w.jobs[e.job].phase.seen
      else {}
  }

  /** An insert goes through although a case variant of its email got in since its check. */
  predicate Raced(w: World, rules: Rules, e: Event) {
    Inserts(w, rules, e) &&
    exists u :: u in Overtakers(w, e) && u in w.users && SameEmail(rules, w.users[u].email, w.jobs[e.job].request.email)
  }

  lemma {:induction false} CaseStep(start: map<Id, User>, w: World, rules: Rules, e: Event)
    requires Lawful(rules) && Inv(start, w, rules)
    ensures CaseUnique(Next(w, rules, e).users, rules) <==> CaseUnique(w.users, rules) && !Raced(w, rules, e)
  {
    if Inserts(w, rules, e) {
      var r := w.jobs[e.job].request;
      var after := Next(w, rules, e).users;
      assert JobOk(w.users, rules, w.jobs[e.job]);
      InsertedCase(w.users, rules, w.jobs[e.job]);
    }
  }

  lemma {:induction false} InsertedCase(users: map<Id, User>, rules: Rules, job: Job)
    requires Lawful(rules) && JobOk(users, rules, job) && job.phase.Insert? && job.request.id !in users
    ensures CaseUnique(users[job.request.id := RowOf(rules, job.request)], rules) <==>
            CaseUnique(users, rules) &&
            !exists u :: u in users.Keys - job.phase.seen && SameEmail(rules, users[u].email, job.request.email)
  {
    var r := job.request;
    var row := RowOf(rules, r);
    var after := users[r.id := row];
    assert SameEmail(rules, row.email, r.email);
    if CaseUnique(after, rules) {
      forall a, b | a in users && b in users && SameEmail(rules, users[a].email, users[b].email) ensures a == b {
        assert after[a] == users[a] && after[b] == users[b];
      }
      forall u | u in users ensures !SameEmail(rules, users[u].email, r.email) {
        assert after[u] == users[u] && after[r.id] == row;
      }
    }
    if CaseUnique(users, rules) &&
       !exists u :: u in users.Keys - job.phase.seen && SameEmail(rules, users[u].email, r.email)
    {
      assert forall u :: u in users ==> !SameEmail(rules, users[u].email, r.email);
    }
  }

  /** Some step of the run is a raced insert. */
  predicate EverRaced(w: World, rules: Rules, events: seq<Event>) {
    events != [] && (EverRaced(w, rules, events[..|events| - 1]) ||
                     Raced(Run(w, rules, events[..|events| - 1]), rules, events[|events| - 1]))
  }

  /** Windows never overlap: whoever inserts sees the table its check saw. */
  predicate NeverOvertaken(w: World, rules: Rules, events: seq<Event>) {
    events == [] || (NeverOvertaken(w, rules, events[..|events| - 1]) &&
                     (Inserts(Run(w, rules, events[..|events| - 1]), rules, events[|events| - 1]) ==>
                      Overtakers(Run(w, rules, events[..|events| - 1]), events[|events| - 1]) == {}))
  }

  /** Emails stay unique up to letter case exactly in the runs where no insert was raced by a case variant of its own
      email; the database constraint alone does not give it. */
  lemma {:induction false} CaseUniqueExactly(start: map<Id, User>, rules: Rules, events: seq<Event>)
    requires Lawful(rules) && ExactlyUnique(start) && CaseUnique(start, rules)
    ensures CaseUnique(Run(World(start, []), rules, events).users, rules) <==>
              !EverRaced(World(start, []), rules, events)
  {
    hide Lawful, Next, Inv, Raced, CaseUnique, ExactlyUnique;
    if events != [] {
      CaseUniqueExactly(start, rules, events[..|events| - 1]);
      RegistrationSafe(start, rules, events[..|events| - 1]);
      CaseStep(start, Run(World(start, []), rules, events[..|events| - 1]), rules, events[|events| - 1]);
    }
  }

  /** In particular in every run whose check-to-insert windows never overlap. */
  lemma {:induction false} NoOverlapNoRace(w: World, rules: Rules, events: seq<Event>)
    requires NeverOvertaken(w, rules, events)
    ensures !EverRaced(w, rules, events)
  {
    hide Next, Overtakers, Inserts;
    if events != [] {
      NoOverlapNoRace(w, rules, events[..|events| - 1]);
    }
  }

  // ----- what the manager does to an address -----

  /** Upper- or lower-casing, character by character; one character may become several. */
  function Mapped(s: string, each: char -> string): string {
    if s == "" then "" else Mapped(s[..|s| - 1], each) + each(s[|s| - 1])
  }

  /** Lower-cases what follows the last '@'; without one, nothing. */
  function NormalizeEmail(email: string, lower: char -> string): string {
    if '@' !in email || email[|email| - 1] == '@' then email
    else NormalizeEmail(email[..|email| - 1], lower) + lower(email[|email| - 1])
  }

  /** Upper-casing undoes what lower-casing did to a character. */
  ghost predicate Undoes(upper: char -> string, lower: char -> string) {
    forall c :: Mapped(lower(c), upper) == upper(c)
  }

  lemma {:induction false} MappedConcat(a: string, b: string, each: char -> string)
    ensures Mapped(a + b, each) == Mapped(a, each) + Mapped(b, each)
    decreases |b|
  {
    if b == "" {
      assert a + b == a;
    } else {
      assert (a + b)[..|a + b| - 1] == a + b[..|b| - 1];
      MappedConcat(a, b[..|b| - 1], each);
    }
  }

  /** The part before the last '@' stays as typed and the part after it is lower-cased; without an '@' nothing is. */
  lemma {:induction false} DomainLowered(name: string, domain: string, lower: char -> string)
    requires '@' !in domain
    ensures NormalizeEmail(name + "@" + domain, lower) == name + "@" + Mapped(domain, lower)
    ensures NormalizeEmail(domain, lower) == domain
  {
    var email := name + "@" + domain;
    assert email[|name|] == '@';
    if domain == "" {
      assert email == name + "@" && email + "" == email;
    } else {
      var front, last := domain[..|domain| - 1], domain[|domain| - 1];
      DomainLowered(name, front, lower);
      assert email[..|email| - 1] == name + "@" + front && email[|email| - 1] == last;
      assert name + "@" + (Mapped(front, lower) + lower(last)) == name + "@" + Mapped(front, lower) + lower(last);
    }
  }

  /** Normalising an address changes nothing that upper-casing would show. */
  lemma {:induction false} NormalizeFolds(email: string, upper: char -> string, lower: char -> string)
    requires Undoes(upper, lower)
    ensures Mapped(NormalizeEmail(email, lower), upper) == Mapped(email, upper)
  {
    if '@' in email && email[|email| - 1] != '@' {
      var front, last := email[..|email| - 1], email[|email| - 1];
      NormalizeFolds(front, upper, lower);
      MappedConcat(NormalizeEmail(front, lower), lower(last), upper);
    }
  }

  /** So the rules of any such pair of case mappings are lawful. */
  lemma {:induction false} NormalizingLawful(upper: char -> string, lower: char -> string)
    requires Undoes(upper, lower)
    ensures Lawful(Rules(s => Mapped(s, upper), s => NormalizeEmail(s, lower)))
  {
    var rules := Rules(s => Mapped(s, upper), s => NormalizeEmail(s, lower));
    forall email: string ensures rules.upper(rules.normal(email)) == rules.upper(email) {
      NormalizeFolds(email, upper, lower);
    }
  }

  function UpperChar(c: char): string {
    if 'a' <= c <= 'z' then [(c as int - 32) as char] else [c]
  }

  function LowerChar(c: char): string {
    if 'A' <= c <= 'Z' then [(c as int + 32) as char] else [c]
  }

  /** ASCII case mapping is one such pair. */
  lemma {:induction false} AsciiUndoes()
    ensures Undoes(UpperChar, LowerChar)
  {
    forall c: char ensures Mapped(LowerChar(c), UpperChar) == UpperChar(c) {
      var low := LowerChar(c);
      assert low[..0] == "";
    }
  }

  /** The race really happens: any two requests whose emails differ in letter case only, both checked before either
      inserts, leave two users that a case-blind lookup cannot tell apart. */
  lemma {:induction false} RaceHappens(rules: Rules, first: Request, second: Request)
    requires Lawful(rules) && SameEmail(rules, first.email, second.email)
    requires rules.normal(first.email) != rules.normal(second.email)
    requires first.phone != second.phone
    requires first.id != second.id
    requires !first.weak && !second.weak
    requires InsertFault(map[], rules, first).None? && InsertFault(map[], rules, second).None?
    ensures !CaseUnique(Run(World(map[], []), rules, [Arrive(first), Arrive(second), Advance(0), Advance(1), Advance(0),
                                                      Advance(1)]).users, rules)
  {
    var e0, e1, e2, e3, e4, e5 := Arrive(first), Arrive(second), Advance(0), Advance(1), Advance(0), Advance(1);
    var w := World(map[], []);
    RunOfSix(w, rules, e0, e1, e2, e3, e4, e5);
    var w4 := Next(Next(Next(Next(w, rules, e0), rules, e1), rules, e2), rules, e3);
    assert Next(Next(w, rules, e0), rules, e1) == World(map[], [Job(first, Check), Job(second, Check)]);
    assert w.users.Keys == {};
    assert w4 == World(map[], [Job(first, Insert({})), Job(second, Insert({}))]);
    var a, b := RowOf(rules, first), RowOf(rules, second);
    var w5 := Next(w4, rules, e4);
    assert w5 == World(map[first.id := a], [Job(first, Done(Ok(first.id))), Job(second, Insert({}))]);
    var users := Next(w5, rules, e5).users;
    assert users == map[first.id := a, second.id := b];
    assert SameEmail(rules, users[first.id].email, users[second.id].email);
  }

  const ASCII := Rules(s => Mapped(s, UpperChar), s => NormalizeEmail(s, LowerChar))

  lemma OneMapped(c: char, each: char -> string)
    ensures Mapped([c], each) == each(c)
  {
    assert [c][..0] == "" && "" + each(c) == each(c);
  }

  /** A one-letter mailbox at the domain x. */
  lemma {:induction false} AsciiMailbox(c: char)
    ensures ASCII.normal([c] + "@" + "x") == [c] + "@" + "x"
    ensures ASCII.upper([c] + "@" + "x") == UpperChar(c) + Mapped("@" + "x", UpperChar)
  {
    hide Mapped, NormalizeEmail;
    DomainLowered([c], "x", LowerChar);
    OneMapped('x', LowerChar);
    OneMapped(c, UpperChar);
    MappedConcat([c], "@" + "x", UpperChar);
    assert [c] + "@" + "x" == [c] + ("@" + "x");
  }

  lemma {:induction false} AsciiSpellings()
    ensures ASCII.normal("A@x") == "A@x" && ASCII.normal("a@x") == "a@x"
    ensures SameEmail(ASCII, "A@x", "a@x")
  {
    hide Mapped, NormalizeEmail;
    AsciiMailbox('A');
    AsciiMailbox('a');
    assert ['A'] + "@" + "x" == "A@x" && ['a'] + "@" + "x" == "a@x";
  }

  /** With ASCII case mapping: "A@x" and "a@x" both register. */
  lemma {:induction false} RaceExample()
    ensures var first, second := Request(1, "Aline", "A@x", "+250781111111", false),
                                 Request(2, "Ariane", "a@x", "+250782222222", false);
            !CaseUnique(Run(World(map[], []), ASCII, [Arrive(first), Arrive(second), Advance(0), Advance(1), Advance(0),
                                                      Advance(1)]).users, ASCII)
  {
    hide Run, Lawful, Mapped, NormalizeEmail, CaseUnique, SameEmail;
    var first, second := Request(1, "Aline", "A@x", "+250781111111", false),
                         Request(2, "Ariane", "a@x", "+250782222222", false);
    AsciiUndoes();
    NormalizingLawful(UpperChar, LowerChar);
    AsciiSpellings();
    RaceHappens(ASCII, first, second);
  }

  lemma RunOfSix(w: World, rules: Rules, e0: Event, e1: Event, e2: Event, e3: Event, e4: Event, e5: Event)
    ensures Run(w, rules, [e0, e1, e2, e3, e4, e5]) ==
            Next(Next(Next(Next(Next(Next(w, rules, e0), rules, e1), rules, e2), rules, e3), rules, e4), rules, e5)
  {
    hide Next;
    var three := [e0, e1, e2];
    assert [e0, e1, e2, e3, e4, e5][..5] == [e0, e1, e2, e3, e4];
    assert [e0, e1, e2, e3, e4][..4] == three + [e3];
    assert (three + [e3])[..3] == three;
    assert three[..2] == [e0, e1] && [e0, e1][..1] == [e0] && [e0][..0] == [];
    assert Run(w, rules, three) == Next(Next(Next(w, rules, e0), rules, e1), rules, e2) by {
      assert Run(w, rules, [e0]) == Next(w, rules, e0);
      assert Run(w, rules, [e0, e1]) == Next(Run(w, rules, [e0]), rules, e1);
    }
    assert Run(w, rules, three + [e3]) == Next(Run(w, rules, three), rules, e3);
  }

  // ----- one request at a time -----

  class Registry {
    var users: map<Id, User>

    constructor (users: map<Id, User>)
      ensures this.users == users
    {
      this.users := users;
    }

    /** Registers a customer. Undisturbed, it does what its job in the interleaved run does. */
    method CreateUser(rules: Rules, r: Request) returns (outcome: Outcome<Id>)
      modifies this
      ensures World(users, [Job(r, Done(outcome))]) ==
              Run(World(old(users), []), rules, [Arrive(r), Advance(0), Advance(0)])
      ensures Known(old(users), rules, r) ==> outcome == Conflict
      ensures !Known(old(users), rules, r) ==>
                outcome == (if r.weak then BadRequest
                            else if Oversized(rules, r) then Failed(DataError)
                            else if Repeats(old(users), rules, r) then Conflict
                            else Ok(r.id))
      ensures users == if outcome.Ok? then old(users)[r.id := User(r.name, rules.normal(r.email), r.phone)]
                       else old(users)
    {
      RunAlone(users, rules, r);
      assert Taken(users, rules, r.email, r.phone) <==> Known(users, rules, r);
      if Taken(users, rules, r.email, r.phone) {
        return Conflict;
      }
      if r.weak {
        return BadRequest;
      }
      match InsertFault(users, rules, r) {
        case None =>
          users := users[r.id := User(r.name, rules.normal(r.email), r.phone)];
          return Ok(r.id);
        case Some(IntegrityError) => return Conflict;
        case Some(DataError) => return Failed(DataError);
      }
    }
  }

  lemma {:induction false} RunAlone(users: map<Id, User>, rules: Rules, r: Request)
    ensures var checked := NextPhase(users, rules, Job(r, Check));
            Run(World(users, []), rules, [Arrive(r), Advance(0), Advance(0)]) ==
            World(NextUsers(users, rules, Job(r, checked)), [Job(r, NextPhase(users, rules, Job(r, checked)))])
  {
    hide NextPhase;
    var w := World(users, []);
    var e := [Arrive(r), Advance(0), Advance(0)];
    assert e[..2] == [Arrive(r), Advance(0)] && e[..2][..1] == [Arrive(r)] && e[..2][..1][..0] == [];
    assert Run(w, rules, e[..2][..1]) == World(users, [Job(r, Check)]);
    assert Run(w, rules, e[..2]) == World(users, [Job(r, NextPhase(users, rules, Job(r, Check)))]);
  }
}
