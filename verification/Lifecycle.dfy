/** The life of incidents over runs: what never changes, when a new one opens, and when
    the seen-window is truthful. */
module Lifecycle {
  import opened Lists
  import opened Intel
  import opened Store
  import opened Incidents
  import opened Ingest
  import opened History

  /** A row that is not live is untouched by a step, and gains no attack. */
  lemma {:induction false} StepKeepsClosed(db: Tables, e: Event, i: nat)
    requires Core(db) && i < |db.incidents| && db.incidents[i].status == Closed
    ensures |db.incidents| <= |Step(db, e).incidents| && Step(db, e).incidents[i] == db.incidents[i]
    ensures Linked(Step(db, e).attacks, db.incidents[i].id) == Linked(db.attacks, db.incidents[i].id)
    ensures db.attacks <= Step(db, e).attacks
  {
    match e
    case Captured(p, c) =>
      StoreKeepsClosed(db, Assessed(p, c, Prior(p, db, c)), i);
    case _ =>
  }

  /** An attack is never stored in a row that is not live. */
  lemma StoredElsewhere(db: Tables, a: Attack, i: nat)
    requires Keys(db) && i < |db.incidents| && db.incidents[i].status == Closed
    ensures
      var k := LiveIndex(db.incidents, a.sourceIp);
      (if k >= 0 then db.incidents[k].id else db.nextIncident) != db.incidents[i].id
  {
  }

  lemma StoreKeepsClosed(db: Tables, a: Attack, i: nat)
    requires Core(db) && i < |db.incidents| && db.incidents[i].status == Closed
    ensures |db.incidents| <= |Recorded(db, a).incidents| && Recorded(db, a).incidents[i] == db.incidents[i]
    ensures Linked(Recorded(db, a).attacks, db.incidents[i].id) == Linked(db.attacks, db.incidents[i].id)
    ensures db.attacks <= Recorded(db, a).attacks
  {
    var k := LiveIndex(db.incidents, a.sourceIp);
    var stored := a.(id := db.nextAttack, incidentId := if k >= 0 then db.incidents[k].id else db.nextIncident);
    assert Recorded(db, a).attacks == db.attacks + [stored];
    StoredElsewhere(db, a, i);
    LinkedOther(db.attacks, stored, db.incidents[i].id);
  }

  /** A closed incident never changes again, whatever happens afterwards; stored attacks are
      never altered either. */
  lemma {:induction false} ClosedIsFinal(db: Tables, es: seq<Event>, i: nat)
    requires Core(db) && i < |db.incidents| && db.incidents[i].status.Closed?
    ensures |db.incidents| <= |Run(db, es).incidents| && Run(db, es).incidents[i] == db.incidents[i]
    ensures Linked(Run(db, es).attacks, db.incidents[i].id) == Linked(db.attacks, db.incidents[i].id)
    ensures db.attacks <= Run(db, es).attacks
  {
    if es != [] {
      ClosedIsFinal(db, es[..|es| - 1], i);
      RunKeepsCore(db, es[..|es| - 1]);
      StepKeepsClosed(Run(db, es[..|es| - 1]), es[|es| - 1], i);
    }
  }

  /** When every incident of the IP is closed, the next capture opens exactly one fresh
      incident, holding that attack alone. */
  lemma {:induction false} CaptureOpensFresh(db: Tables, p: Pipeline, c: Capture)
    requires Core(db)
    requires forall i :: 0 <= i < |db.incidents| && db.incidents[i].sourceIp == c.sourceIp ==>
      db.incidents[i].status.Closed?
    ensures
      var db', n := Committed(p, db, c), |db.incidents|;
      |db'.incidents| == n + 1 && db'.incidents[..n] == db.incidents &&
      db'.incidents[n].sourceIp == c.sourceIp && db'.incidents[n].status.Open? &&
      Linked(db'.attacks, db'.incidents[n].id) == [db'.attacks[|db.attacks|]] &&
      db'.incidents[n].attemptCount == Max(1, c.authAttempts)
  {
    LiveIndexFinds(db.incidents, c.sourceIp);
    var db', n := Committed(p, db, c), |db.incidents|;
    var stored := db'.attacks[|db.attacks|];
    FreshKeyUnlinked(db);
    LinkedAppend(db.attacks, stored, db.nextIncident);
    assert db'.attacks == db.attacks + [stored];
    assert db'.incidents == db.incidents + [db'.incidents[n]];
  }

  lemma StoreJoinsLive(db: Tables, a: Attack, i: nat)
    requires OnlyLastLive(db.incidents) && i < |db.incidents|
    requires db.incidents[i].sourceIp == a.sourceIp && db.incidents[i].status != Closed
    ensures
      var db' := Recorded(db, a);
      |db'.incidents| == |db.incidents| && db'.incidents[i].status == db.incidents[i].status &&
      |db'.attacks| == |db.attacks| + 1 &&
      (forall j :: 0 <= j < |db.incidents| && j != i ==> db'.incidents[j] == db.incidents[j]) &&
      Linked(db'.attacks, db'.incidents[i].id)
        == Linked(db.attacks, db.incidents[i].id) + [db'.attacks[|db.attacks|]]
  {
    LiveIndexIs(db.incidents, a.sourceIp, i);
    RecordedInLive(db, a, i);
    FoldedKeeps(db.incidents[i], EvidenceOf(a));
    LinkedAppend(db.attacks, a.(id := db.nextAttack, incidentId := db.incidents[i].id), db.incidents[i].id);
  }

  /** While the IP has a live incident, a capture joins it and opens nothing. */
  lemma {:induction false} CaptureJoinsLive(db: Tables, p: Pipeline, c: Capture, i: nat)
    requires Core(db) && i < |db.incidents|
    requires db.incidents[i].sourceIp == c.sourceIp && db.incidents[i].status != Closed
    ensures
      var db' := Committed(p, db, c);
      |db'.incidents| == |db.incidents| && db'.incidents[i].status == db.incidents[i].status &&
      (forall j :: 0 <= j < |db.incidents| && j != i ==> db'.incidents[j] == db.incidents[j]) &&
      Linked(db'.attacks, db'.incidents[i].id)
        == Linked(db.attacks, db.incidents[i].id) + [db'.attacks[|db.attacks|]]
  {
    StoreJoinsLive(db, Assessed(p, c, Prior(p, db, c)), i);
  }

  /** Naming an incident by its key or by its IP is the same thing for an analyst's step,
      since only a live incident may change. */
  lemma {:induction false} StatusByKey(db: Tables, i: nat, status: Status)
    requires Core(db) && i < |db.incidents| && db.incidents[i].status != Closed
    ensures Step(db, StatusSet(db.incidents[i].sourceIp, status))
         == db.(incidents := db.incidents[i := db.incidents[i].(status := status)])
  {
    LiveIndexIs(db.incidents, db.incidents[i].sourceIp, i);
  }

  /** With every incident of the IP closed, an analyst's step changes nothing. */
  lemma StatusOfClosed(db: Tables, ip: string, status: Status)
    requires forall i :: 0 <= i < |db.incidents| && db.incidents[i].sourceIp == ip ==> db.incidents[i].status == Closed
    ensures Step(db, StatusSet(ip, status)) == db
  {
    LiveIndexFinds(db.incidents, ip);
  }

  // ------------------------------------------------------- the seen window

  /** `firstSeen` and `lastSeen` bound every linked attack and are attained. */
  ghost predicate Truthful(row: Incident, linked: seq<Attack>) {
    (exists i :: 0 <= i < |linked| && linked[i].timestamp == row.firstSeen) &&
    (exists i :: 0 <= i < |linked| && linked[i].timestamp == row.lastSeen) &&
    forall i :: 0 <= i < |linked| ==> row.firstSeen <= linked[i].timestamp <= row.lastSeen
  }

  /** The code sets `lastSeen` to the capture's own start time, so joining a truthful
      incident keeps it truthful exactly when the capture does not start before `lastSeen`. */
  lemma JoinKeepsTruthfulIff(row: Incident, linked: seq<Attack>, a: Attack)
    requires Truthful(row, linked)
    ensures Truthful(Folded(row, EvidenceOf(a)), linked + [a]) <==> a.timestamp >= row.lastSeen
  {
    var row', both := Folded(row, EvidenceOf(a)), linked + [a];
    var f :| 0 <= f < |linked| && linked[f].timestamp == row.firstSeen;
    var l :| 0 <= l < |linked| && linked[l].timestamp == row.lastSeen;
    assert both[f].timestamp == row.firstSeen && both[l].timestamp == row.lastSeen;
    assert both[|linked|].timestamp == row'.lastSeen;
  }

  /** The first attack ingested is the earliest and the last one the latest. */
  ghost predicate ExtremesAtEnds(linked: seq<Attack>) {
    forall j :: 0 <= j < |linked| ==> linked[0].timestamp <= linked[j].timestamp <= linked[|linked| - 1].timestamp
  }

  lemma TruthfulIff(row: Incident, linked: seq<Attack>)
    requires IngestWindow(row, linked)
    ensures Truthful(row, linked) <==> ExtremesAtEnds(linked)
  {
  }

  lemma WindowsTruthfulIff(db: Tables, i: nat)
    requires IngestWindows(db) && i < |db.incidents|
    ensures
      var linked := Linked(db.attacks, db.incidents[i].id);
      linked != [] && (Truthful(db.incidents[i], linked) <==> ExtremesAtEnds(linked))
  {
    TruthfulIff(db.incidents[i], Linked(db.attacks, db.incidents[i].id));
  }

  /** Whole runs: the window of a reachable incident is truthful exactly when its first
      attack was the earliest and its last ingested one the latest. */
  lemma {:induction false} ReachableTruthfulIff(es: seq<Event>)
    ensures
      var db := Run(EMPTY, es);
      forall i :: 0 <= i < |db.incidents| ==>
        var linked := Linked(db.attacks, db.incidents[i].id);
        linked != [] && (Truthful(db.incidents[i], linked) <==> ExtremesAtEnds(linked))
  {
    ReachableWindows(es);
    AllWindowsTruthfulIff(Run(EMPTY, es));
  }

  lemma AllWindowsTruthfulIff(db: Tables)
    requires IngestWindows(db)
    ensures forall i :: 0 <= i < |db.incidents| ==>
      var linked := Linked(db.attacks, db.incidents[i].id);
      linked != [] && (Truthful(db.incidents[i], linked) <==> ExtremesAtEnds(linked))
  {
    forall i | 0 <= i < |db.incidents|
      ensures
        var linked := Linked(db.attacks, db.incidents[i].id);
        linked != [] && (Truthful(db.incidents[i], linked) <==> ExtremesAtEnds(linked))
    {
      WindowsTruthfulIff(db, i);
    }
  }

  lemma ReachableWindows(es: seq<Event>)
    ensures IngestWindows(Run(EMPTY, es))
  {
    RunKeepsCore(EMPTY, es);
  }

  lemma RunTwo(db: Tables, a: Event, b: Event)
    ensures Run(db, [a, b]) == Step(Step(db, a), b)
  {
    assert [a, b][..1] == [a] && [a][..0] == [];
    assert Run(db, [a]) == Step(Run(db, []), a);
  }

  /** The window of the incident a capture joins. */
  lemma JoinedWindow(db: Tables, p: Pipeline, c: Capture, k: nat)
    requires k == LiveIndex(db.incidents, c.sourceIp)
    ensures |Committed(p, db, c).incidents| == |db.incidents|
    ensures Committed(p, db, c).incidents[k].lastSeen == c.timestamp
    ensures Committed(p, db, c).incidents[k].firstSeen == db.incidents[k].firstSeen
  {
  }

  /** A long session that ends after a later, shorter one makes `lastSeen` precede `firstSeen`. */
  lemma WindowCanInvert(p: Pipeline, late: Capture, early: Capture)
    requires late.sourceIp == early.sourceIp && early.timestamp < late.timestamp
    ensures
      var db := Run(EMPTY, [Captured(p, late), Captured(p, early)]);
      |db.incidents| == 1 && db.incidents[0].lastSeen < db.incidents[0].firstSeen
  {
    RunTwo(EMPTY, Captured(p, late), Captured(p, early));
    var one := Committed(p, EMPTY, late);
    CaptureOpensFresh(EMPTY, p, late);
    assert one.incidents[0].firstSeen == late.timestamp;
    LiveIndexFinds(one.incidents, early.sourceIp);
    JoinedWindow(one, p, early, 0);
  }
}
