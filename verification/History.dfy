/** Runs of the ingest path, and what every reachable database satisfies. */
module History {
  import opened Intel
  import opened Store
  import opened Incidents
  import opened Ingest
  import Risk

  /** One serialised step: a capture that commits (the pipeline instance, hence its settings,
      may differ from step to step), a capture whose processing raised (keys may be used up),
      or an analyst changing the status of the live incident of `ip`. */
  datatype Event =
    | Captured(p: Pipeline, c: Capture)
    | Aborted(c: Capture, usedAttacks: nat, usedIncidents: nat)
    | StatusSet(ip: string, status: Status)

  function IpOf(e: Event): string {
    match e
    case Captured(_, c) => c.sourceIp
    case Aborted(c, _, _) => c.sourceIp
    case StatusSet(ip, _) => ip
  }

  /** Only non-closed incidents change status: closed is terminal. */
  function WithStatus(db: Tables, ip: string, status: Status): Tables {
    var k := LiveIndex(db.incidents, ip);
    if k < 0 then db else db.(incidents := db.incidents[k := db.incidents[k].(status := status)])
  }

  function Step(db: Tables, e: Event): Tables {
    match e
    case Captured(p, c) => Committed(p, db, c)
    case Aborted(_, n, m) => db.(nextAttack := db.nextAttack + n, nextIncident := db.nextIncident + m)
    case StatusSet(ip, status) => WithStatus(db, ip, status)
  }

  function Run(db: Tables, es: seq<Event>): Tables {
    if es == [] then db else Step(Run(db, es[..|es| - 1]), es[|es| - 1])
  }

  lemma RunLast(db: Tables, es: seq<Event>, n: nat)
    requires |es| == n + 1
    ensures Run(db, es) == Step(Run(db, es[..n]), es[n])
  {
  }

  /** `a` is the row of the capture `e` when the rows `before` are stored, with its keys assigned. */
  ghost predicate WrittenBy(a: Attack, e: Event, before: seq<Attack>)
    requires e.Captured?
  {
    a == Assessed(e.p, e.c, PriorAttempts(e.p.cfg, before, e.c.sourceIp, e.c.timestamp))
           .(id := a.id, incidentId := a.incidentId)
  }

  /** A capture stores one row, behind the others; nothing else does. */
  lemma StepStores(db: Tables, e: Event)
    ensures !e.Captured? ==> Step(db, e).attacks == db.attacks
    ensures e.Captured? ==>
      var after := Step(db, e).attacks;
      |after| == |db.attacks| + 1 && after == db.attacks + [after[|db.attacks|]] &&
      WrittenBy(after[|db.attacks|], e, db.attacks)
  {
  }

  // --------------------------------------------------------------- invariant

  /** Primary keys are positive, unique and below the generators. */
  ghost predicate Keys(db: Tables) {
    0 < db.nextAttack && 0 < db.nextIncident &&
    (forall i :: 0 <= i < |db.incidents| ==> 0 < db.incidents[i].id < db.nextIncident) &&
    (forall i, j :: 0 <= i < j < |db.incidents| ==> db.incidents[i].id != db.incidents[j].id) &&
    (forall i :: 0 <= i < |db.attacks| ==> 0 < db.attacks[i].id < db.nextAttack) &&
    (forall i, j :: 0 <= i < j < |db.attacks| ==> db.attacks[i].id != db.attacks[j].id)
  }

  ghost predicate PointsInto(a: Attack, incidents: seq<Incident>) {
    exists i :: 0 <= i < |incidents| && incidents[i].id == a.incidentId && incidents[i].sourceIp == a.sourceIp
  }

  /** Every attack points to an existing incident of its own IP. */
  ghost predicate Links(db: Tables) {
    forall i :: 0 <= i < |db.attacks| ==> PointsInto(db.attacks[i], db.incidents)
  }

  /** Of the incidents of one IP only the most recent can be live, that is, not closed. */
  ghost predicate OnlyLastLive(incidents: seq<Incident>) {
    forall i, j :: 0 <= i < j < |incidents| && incidents[i].sourceIp == incidents[j].sourceIp ==>
      incidents[i].status == Closed
  }

  ghost predicate ExactViews(db: Tables) {
    forall i :: 0 <= i < |db.incidents| ==> Aggregates(db.incidents[i], Linked(db.attacks, db.incidents[i].id))
  }

  ghost predicate IngestWindows(db: Tables) {
    forall i :: 0 <= i < |db.incidents| ==> IngestWindow(db.incidents[i], Linked(db.attacks, db.incidents[i].id))
  }

  ghost predicate ScoresInRange(db: Tables) {
    forall i :: 0 <= i < |db.attacks| ==> 0 <= db.attacks[i].riskScore <= 100
  }

  ghost predicate Core(db: Tables) {
    Keys(db) && Links(db) && OnlyLastLive(db.incidents) && ExactViews(db) && ScoresInRange(db)
  }

  ghost predicate AtMostOneLive(incidents: seq<Incident>) {
    forall i, j :: (0 <= i < j < |incidents| && incidents[i].status != Closed && incidents[j].status != Closed) ==>
      incidents[i].sourceIp != incidents[j].sourceIp
  }

  /** With only the last one live, the find-or-create query returns exactly it. */
  lemma LiveIndexIs(incidents: seq<Incident>, ip: string, i: nat)
    requires OnlyLastLive(incidents)
    requires i < |incidents| && incidents[i].sourceIp == ip && incidents[i].status != Closed
    ensures LiveIndex(incidents, ip) == i
  {
    LiveIndexFinds(incidents, ip);
  }

  lemma {:induction false} NothingLinked(attacks: seq<Attack>, id: nat)
    requires forall i :: 0 <= i < |attacks| ==> attacks[i].incidentId != id
    ensures Linked(attacks, id) == []
  {
    if attacks != [] { NothingLinked(attacks[..|attacks| - 1], id); }
  }

  /** A new key has nothing linked to it yet. */
  lemma FreshKeyUnlinked(db: Tables)
    requires Keys(db) && Links(db)
    ensures Linked(db.attacks, db.nextIncident) == []
  {
    forall i | 0 <= i < |db.attacks| ensures db.attacks[i].incidentId != db.nextIncident {
      assert PointsInto(db.attacks[i], db.incidents);
    }
    NothingLinked(db.attacks, db.nextIncident);
  }

  /** Same keys and IPs row by row, possibly followed by more rows. */
  ghost predicate Extends(before: seq<Incident>, after: seq<Incident>) {
    |before| <= |after| &&
    forall i :: 0 <= i < |before| ==> after[i].id == before[i].id && after[i].sourceIp == before[i].sourceIp
  }

  lemma PointsIntoMore(a: Attack, before: seq<Incident>, after: seq<Incident>)
    requires PointsInto(a, before) && Extends(before, after)
    ensures PointsInto(a, after)
  {
    var i :| 0 <= i < |before| && before[i].id == a.incidentId && before[i].sourceIp == a.sourceIp;
    assert after[i].id == a.incidentId;
  }

  lemma LinksKept(db: Tables, db': Tables)
    requires Links(db) && Extends(db.incidents, db'.incidents)
    requires db.attacks <= db'.attacks
    requires forall i :: |db.attacks| <= i < |db'.attacks| ==> PointsInto(db'.attacks[i], db'.incidents)
    ensures Links(db')
  {
    forall i | 0 <= i < |db.attacks| ensures PointsInto(db'.attacks[i], db'.incidents) {
      PointsIntoMore(db.attacks[i], db.incidents, db'.incidents);
    }
  }

  /** Replacing a row by one that is not more alive. */
  lemma ReplaceKeepsOnlyLast(incidents: seq<Incident>, k: nat, row: Incident)
    requires OnlyLastLive(incidents) && k < |incidents|
    requires row.sourceIp == incidents[k].sourceIp && (row.status != Closed ==> incidents[k].status != Closed)
    ensures OnlyLastLive(incidents[k := row])
  {
  }

  lemma AppendKeepsOnlyLast(incidents: seq<Incident>, row: Incident)
    requires OnlyLastLive(incidents) && LiveIndex(incidents, row.sourceIp) < 0
    ensures OnlyLastLive(incidents + [row])
  {
    LiveIndexFinds(incidents, row.sourceIp);
  }

  /** The views after one more linked attack: its own incident's row is refolded, every other row keeps its attacks. */
  lemma ViewsKept(db: Tables, db': Tables, k: nat, stored: Attack)
    requires ExactViews(db) && Keys(db') && |db.incidents| <= |db'.incidents| && k < |db'.incidents|
    requires db'.attacks == db.attacks + [stored] && stored.incidentId == db'.incidents[k].id
    requires forall i :: 0 <= i < |db'.incidents| && i != k ==>
      i < |db.incidents| && db'.incidents[i] == db.incidents[i]
    requires Aggregates(db'.incidents[k], Linked(db'.attacks, stored.incidentId))
    requires IngestWindows(db) ==> IngestWindow(db'.incidents[k], Linked(db'.attacks, stored.incidentId))
    ensures ExactViews(db')
    ensures IngestWindows(db) ==> IngestWindows(db')
  {
    forall i | 0 <= i < |db'.incidents| && i != k
      ensures Linked(db'.attacks, db'.incidents[i].id) == Linked(db.attacks, db.incidents[i].id)
    {
      LinkedOther(db.attacks, stored, db'.incidents[i].id);
    }
  }

  /** One more attack under a new key, and incidents with the old keys and possibly one new row. */
  lemma KeysKept(db: Tables, db': Tables, stored: Attack)
    requires Keys(db) && Extends(db.incidents, db'.incidents)
    requires db'.attacks == db.attacks + [stored] && stored.id == db.nextAttack && db'.nextAttack == db.nextAttack + 1
    requires db.nextIncident <= db'.nextIncident
    requires forall i :: |db.incidents| <= i < |db'.incidents| ==>
      i == |db.incidents| && db.nextIncident == db'.incidents[i].id < db'.nextIncident
    ensures Keys(db')
  {
  }

  /** The new tables `db'` hold one more attack, folded into row `k`. */
  ghost predicate StoredIn(db: Tables, db': Tables, k: nat, stored: Attack) {
    db'.attacks == db.attacks + [stored] &&
    stored.id == db.nextAttack && db'.nextAttack == db.nextAttack + 1 &&
    k < |db'.incidents| && stored.incidentId == db'.incidents[k].id && stored.sourceIp == db'.incidents[k].sourceIp &&
    if k < |db.incidents|
    then db'.incidents == db.incidents[k := db'.incidents[k]] && db'.nextIncident == db.nextIncident &&
         db'.incidents[k].id == db.incidents[k].id && db'.incidents[k].sourceIp == db.incidents[k].sourceIp
    else k == |db.incidents| && db'.incidents == db.incidents + [db'.incidents[k]] &&
         db'.incidents[k].id == db.nextIncident && db'.nextIncident == db.nextIncident + 1
  }

  lemma StoredKeepsShape(db: Tables, db': Tables, k: nat, stored: Attack)
    requires Keys(db) && Links(db) && StoredIn(db, db', k, stored)
    ensures Keys(db') && Links(db')
  {
    KeysKept(db, db', stored);
    assert PointsInto(stored, db'.incidents) by { assert db'.incidents[k].id == stored.incidentId; }
    LinksKept(db, db');
  }

  /** Storing an attack in a live incident. */
  lemma RecordInLive(db: Tables, a: Attack, k: nat)
    requires Core(db) && 0 <= a.riskScore <= 100
    requires k == LiveIndex(db.incidents, a.sourceIp)
    ensures Core(Recorded(db, a))
    ensures IngestWindows(db) ==> IngestWindows(Recorded(db, a))
  {
    var db' := Recorded(db, a);
    var stored := a.(id := db.nextAttack, incidentId := db.incidents[k].id);
    var row := Folded(db.incidents[k], EvidenceOf(stored));
    assert db'.attacks == db.attacks + [stored] && db'.incidents == db.incidents[k := row];
    StoreLive(db, db', k, stored, row);
  }

  lemma ScoresKept(db: Tables, db': Tables, stored: Attack)
    requires ScoresInRange(db) && db'.attacks == db.attacks + [stored] && 0 <= stored.riskScore <= 100
    ensures ScoresInRange(db')
  {
  }

  /** The invariant after a stored attack, given that its row is its exact view and liveness is kept. */
  lemma StoredKeepsCore(db: Tables, db': Tables, k: nat, stored: Attack)
    requires Core(db) && StoredIn(db, db', k, stored) && 0 <= stored.riskScore <= 100
    requires OnlyLastLive(db'.incidents)
    requires Aggregates(db'.incidents[k], Linked(db'.attacks, stored.incidentId))
    requires IngestWindows(db) ==> IngestWindow(db'.incidents[k], Linked(db'.attacks, stored.incidentId))
    ensures Core(db')
    ensures IngestWindows(db) ==> IngestWindows(db')
  {
    StoredKeepsShape(db, db', k, stored);
    ScoresKept(db, db', stored);
    ViewsKept(db, db', k, stored);
  }

  lemma StoreLive(db: Tables, db': Tables, k: nat, stored: Attack, row: Incident)
    requires Core(db) && 0 <= stored.riskScore <= 100
    requires k < |db.incidents| && db.incidents[k].status != Closed && StoredIn(db, db', k, stored)
    requires row == Folded(db.incidents[k], EvidenceOf(stored)) && db'.incidents == db.incidents[k := row]
    ensures Core(db')
    ensures IngestWindows(db) ==> IngestWindows(db')
  {
    ReplaceKeepsOnlyLast(db.incidents, k, row);
    LiveView(db, k, stored, row);
    StoredKeepsCore(db, db', k, stored);
  }

  lemma LiveView(db: Tables, k: nat, stored: Attack, row: Incident)
    requires ExactViews(db) && k < |db.incidents| && stored.incidentId == row.id
    requires row == Folded(db.incidents[k], EvidenceOf(stored))
    ensures Aggregates(row, Linked(db.attacks + [stored], row.id))
    ensures IngestWindows(db) ==> IngestWindow(row, Linked(db.attacks + [stored], row.id))
  {
    var linked := Linked(db.attacks, row.id);
    assert Aggregates(db.incidents[k], linked);
    FoldKeepsView(db.incidents[k], linked, stored);
    LinkedAppend(db.attacks, stored, row.id);
  }

  lemma FoldedKeeps(row: Incident, ev: Evidence)
    ensures Folded(row, ev).id == row.id && Folded(row, ev).status == row.status
  {
  }

  lemma RecordedInLive(db: Tables, a: Attack, k: nat)
    requires k == LiveIndex(db.incidents, a.sourceIp)
    ensures Recorded(db, a).attacks == db.attacks + [a.(id := db.nextAttack, incidentId := db.incidents[k].id)]
    ensures Recorded(db, a).incidents == db.incidents[k := Folded(db.incidents[k], EvidenceOf(a))]
  {
  }

  /** Storing an attack in a new incident. */
  lemma RecordInNew(db: Tables, a: Attack)
    requires Core(db) && 0 <= a.riskScore <= 100
    requires LiveIndex(db.incidents, a.sourceIp) < 0
    ensures Core(Recorded(db, a))
    ensures IngestWindows(db) ==> IngestWindows(Recorded(db, a))
  {
    var db' := Recorded(db, a);
    var stored := a.(id := db.nextAttack, incidentId := db.nextIncident);
    var row := Folded(Opened(a.sourceIp, EvidenceOf(stored)), EvidenceOf(stored)).(id := db.nextIncident);
    assert db'.attacks == db.attacks + [stored] && db'.incidents == db.incidents + [row];
    StoreNew(db, db', stored, row);
  }

  lemma StoreNew(db: Tables, db': Tables, stored: Attack, row: Incident)
    requires Core(db) && 0 <= stored.riskScore <= 100
    requires LiveIndex(db.incidents, stored.sourceIp) < 0 && StoredIn(db, db', |db.incidents|, stored)
    requires row == Folded(Opened(stored.sourceIp, EvidenceOf(stored)), EvidenceOf(stored)).(id := db.nextIncident)
    requires db'.incidents == db.incidents + [row]
    ensures Core(db')
    ensures IngestWindows(db) ==> IngestWindows(db')
  {
    AppendKeepsOnlyLast(db.incidents, row);
    NewView(db, stored, row);
    StoredKeepsCore(db, db', |db.incidents|, stored);
  }

  lemma NewView(db: Tables, stored: Attack, row: Incident)
    requires Keys(db) && Links(db) && stored.incidentId == row.id == db.nextIncident && stored.riskScore >= 0
    requires row == Folded(Opened(stored.sourceIp, EvidenceOf(stored)), EvidenceOf(stored)).(id := db.nextIncident)
    ensures Aggregates(row, Linked(db.attacks + [stored], row.id))
    ensures IngestWindow(row, Linked(db.attacks + [stored], row.id))
  {
    FreshKeyUnlinked(db);
    LinkedAppend(db.attacks, stored, row.id);
    assert [] + [stored] == [stored];
    OpenStartsView(stored.sourceIp, stored);
  }

  lemma {:induction false} RecordKeepsCore(db: Tables, a: Attack)
    requires Core(db) && 0 <= a.riskScore <= 100
    ensures Core(Recorded(db, a))
    ensures IngestWindows(db) ==> IngestWindows(Recorded(db, a))
  {
    var k := LiveIndex(db.incidents, a.sourceIp);
    if k >= 0 { RecordInLive(db, a, k); } else { RecordInNew(db, a); }
  }

  lemma {:induction false} StatusKeepsCore(db: Tables, ip: string, status: Status)
    requires Core(db)
    ensures Core(WithStatus(db, ip, status))
    ensures IngestWindows(db) ==> IngestWindows(WithStatus(db, ip, status))
  {
    var k, db' := LiveIndex(db.incidents, ip), WithStatus(db, ip, status);
    if k >= 0 {
      RestatusKeepsCore(db, db', k, status);
    }
  }

  lemma KeysOfSameRows(db: Tables, db': Tables)
    requires Keys(db) && db'.attacks == db.attacks && |db'.incidents| == |db.incidents|
    requires db'.nextAttack == db.nextAttack && db'.nextIncident == db.nextIncident
    requires Extends(db.incidents, db'.incidents)
    ensures Keys(db')
  {
  }

  lemma RestatusKeepsCore(db: Tables, db': Tables, k: nat, status: Status)
    requires Core(db) && k < |db.incidents| && db.incidents[k].status != Closed
    requires db' == db.(incidents := db.incidents[k := db.incidents[k].(status := status)])
    ensures Core(db')
    ensures IngestWindows(db) ==> IngestWindows(db')
  {
    var row := db.incidents[k].(status := status);
    KeysOfSameRows(db, db');
    LinksKept(db, db');
    ReplaceKeepsOnlyLast(db.incidents, k, row);
    ViewsUnchanged(db, db');
  }

  lemma ViewsUnchanged(db: Tables, db': Tables)
    requires db'.attacks == db.attacks && |db'.incidents| == |db.incidents|
    requires forall i :: 0 <= i < |db.incidents| ==>
      db'.incidents[i].(status := Open) == db.incidents[i].(status := Open)
    ensures ExactViews(db) ==> ExactViews(db')
    ensures IngestWindows(db) ==> IngestWindows(db')
  {
    forall i | 0 <= i < |db.incidents|
      ensures Aggregates(db.incidents[i], Linked(db.attacks, db.incidents[i].id)) ==>
              Aggregates(db'.incidents[i], Linked(db'.attacks, db'.incidents[i].id))
    {
      var x, y := db.incidents[i], db'.incidents[i];
      assert x.(status := Open) == y.(status := Open);
      assert x.id == y.id;
    }
  }

  lemma AssessedInRange(p: Pipeline, c: Capture, prior: nat)
    ensures 0 <= Assessed(p, c, prior).riskScore <= 100
  {
    Risk.ScoreFromTags(p, BehaviorContext(p, c, prior), p.world.enrich(c.sourceIp));
  }

  lemma {:induction false} StepKeepsCore(db: Tables, e: Event)
    requires Core(db)
    ensures Core(Step(db, e))
    ensures IngestWindows(db) ==> IngestWindows(Step(db, e))
  {
    match e
    case Captured(p, c) =>
      AssessedInRange(p, c, Prior(p, db, c));
      RecordKeepsCore(db, Assessed(p, c, Prior(p, db, c)));
    case Aborted(_, _, _) =>
      forall i | 0 <= i < |db.incidents|
        ensures Aggregates(db.incidents[i], Linked(db.attacks, db.incidents[i].id)) {}
    case StatusSet(ip, status) =>
      StatusKeepsCore(db, ip, status);
  }

  /** Safety over whole runs: from any consistent database, every reachable one is consistent. */
  lemma {:induction false} RunKeepsCore(db: Tables, es: seq<Event>)
    requires Core(db)
    ensures Core(Run(db, es))
    ensures IngestWindows(db) ==> IngestWindows(Run(db, es))
  {
    if es != [] {
      RunKeepsCore(db, es[..|es| - 1]);
      StepKeepsCore(Run(db, es[..|es| - 1]), es[|es| - 1]);
    }
  }

  /** Every database reachable from the empty one: exact incident views, one live incident per
      IP at most, attacks linked within their IP. */
  lemma {:induction false} ReachableIsExact(es: seq<Event>)
    ensures Core(Run(EMPTY, es)) && IngestWindows(Run(EMPTY, es))
    ensures AtMostOneLive(Run(EMPTY, es).incidents)
  {
    RunKeepsCore(EMPTY, es);
  }

  /** What an abort may leave behind: the same rows, and generators that moved on. */
  lemma AbortIsStep(db: Tables, db': Tables, c: Capture)
    requires db'.attacks == db.attacks && db'.incidents == db.incidents
    requires db'.nextAttack >= db.nextAttack && db'.nextIncident >= db.nextIncident
    ensures Step(db, Aborted(c, db'.nextAttack - db.nextAttack, db'.nextIncident - db.nextIncident)) == db'
  {
  }

  /** A call of the pipeline, whatever happens in it, is one step of a run: the committed capture
      when it returns, an abort when it raises; so it keeps the invariant. */
  method Serve(p: Pipeline, db: Database, c: Capture, fault: Fault) returns (r: Outcome, ghost e: Event)
    modifies db
    ensures IpOf(e) == c.sourceIp && db.State() == Step(old(db.State()), e)
    ensures e == Captured(p, c) || e.Aborted?
    ensures e.Captured? <==> fault.NoFault?
    ensures old(Core(db.State())) ==> Core(db.State())
  {
    ghost var before := db.State();
    r := Process(p, db, c, fault);
    if r.Returned? {
      e := Captured(p, c);
    } else {
      e := Aborted(c, db.nextAttack - before.nextAttack, db.nextIncident - before.nextIncident);
      AbortIsStep(before, db.State(), c);
    }
    if Core(before) { StepKeepsCore(before, e); }
  }
}
