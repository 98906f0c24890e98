/** The ingest pipeline: one capture, one transaction. */
module Ingest {
  import opened Lists
  import opened Intel
  import opened Store
  import opened Incidents
  import Behavior
  import Risk
  import Mitre

  datatype CapturedCommand = CapturedCommand(timestamp: Instant, text: string, kind: string)

  /** One honeypot session, independent of the transport. */
  datatype Capture = Capture(
    sessionId: string,
    timestamp: Instant,
    sourceIp: string,
    sourcePort: Option<int>,
    username: Option<string>,
    password: Option<string>,
    sshVersion: Option<string>,
    duration: real,
    authAttempts: int,
    commands: seq<CapturedCommand>)

  // --------------------------------------------------------- specification

  function Texts(commands: seq<CapturedCommand>): seq<string> {
    seq(|commands|, i requires 0 <= i < |commands| => commands[i].text)
  }

  function CommandRows(sessionId: string, commands: seq<CapturedCommand>): seq<Command> {
    seq(|commands|, i requires 0 <= i < |commands| =>
      Command(sessionId, commands[i].timestamp, commands[i].text, commands[i].kind))
  }

  function BehaviorContext(p: Pipeline, c: Capture, prior: nat): Behavior.Context {
    Behavior.Context(c.username, Texts(c.commands), c.authAttempts, prior, p.world.check(c.sourceIp).isMalicious)
  }

  function RiskContext(p: Pipeline, c: Capture, prior: nat): Risk.Context {
    Risk.Session(p, BehaviorContext(p, c, prior), p.world.enrich(c.sourceIp))
  }

  /** The row of a capture; key and incident still unassigned. */
  function Row(p: Pipeline, c: Capture, behaviors: seq<Tag>, techniques: seq<Technique>, score: int): Attack {
    var e, rep := p.world.enrich(c.sourceIp), p.world.check(c.sourceIp);
    Attack(0, c.timestamp, c.sourceIp, c.sourcePort, e.Shown(), e.asn, e.isp, rep.reputation, rep.isMalicious,
           c.username, c.password, c.sshVersion, c.sessionId, c.duration, c.authAttempts,
           score, p.cfg.LevelFor(score), behaviors, techniques, CommandRows(c.sessionId, c.commands), 0)
  }

  /** The row of a capture that has `prior` earlier attempts. */
  function Assessed(p: Pipeline, c: Capture, prior: nat): Attack {
    var b := BehaviorContext(p, c, prior);
    Row(p, c, Behavior.Behaviors(p, b), Behavior.Coverage(p, b), Risk.ScoreOf(p, RiskContext(p, c, prior)))
  }

  function Prior(p: Pipeline, db: Tables, c: Capture): nat {
    PriorAttempts(p.cfg, db.attacks, c.sourceIp, c.timestamp)
  }

  /** The database after a committed capture. */
  function Committed(p: Pipeline, db: Tables, c: Capture): Tables {
    Recorded(db, Assessed(p, c, Prior(p, db, c)))
  }

  /** The database after attack `a` is correlated and stored. */
  function Recorded(db: Tables, a: Attack): Tables {
    var k := LiveIndex(db.incidents, a.sourceIp);
    var row := Folded(Target(db.incidents, a.sourceIp, EvidenceOf(a)), EvidenceOf(a));
    if k >= 0 then
      Tables(db.attacks + [a.(id := db.nextAttack, incidentId := row.id)], db.incidents[k := row],
             db.nextAttack + 1, db.nextIncident)
    else
      Tables(db.attacks + [a.(id := db.nextAttack, incidentId := db.nextIncident)],
             db.incidents + [row.(id := db.nextIncident)], db.nextAttack + 1, db.nextIncident + 1)
  }

  // ------------------------------------------------- database and session

  class Database {
    var attacks: seq<Attack>
    var incidents: seq<Incident>
    var nextAttack: nat      // key generators are not transactional
    var nextIncident: nat

    constructor ()
      ensures State() == EMPTY
    {
      attacks, incidents, nextAttack, nextIncident := [], [], 1, 1;
    }

    function State(): Tables
      reads this
    {
      Tables(attacks, incidents, nextAttack, nextIncident)
    }
  }

  /** A unit of work: its own view of the rows until commit. */
  class Session {
    const db: Database
    var attacks: seq<Attack>
    var incidents: seq<Incident>

    constructor (db: Database)
      ensures this.db == db && Clean()
    {
      this.db := db;
      attacks, incidents := db.attacks, db.incidents;
    }

    ghost predicate Clean()
      reads this, db
    {
      attacks == db.attacks && incidents == db.incidents
    }

    /** Write an incident: a pending one gets a key and a new row, a loaded one replaces its row. */
    method FlushIncident(entity: IncidentEntity, k: int)
      requires -1 <= k < |incidents|
      modifies `incidents, db`nextIncident, entity`id
      ensures k >= 0 ==> entity.Row() == old(entity.Row()) && incidents == old(incidents)[k := entity.Row()]
      ensures k >= 0 ==> db.nextIncident == old(db.nextIncident)
      ensures k < 0 ==> entity.Row() == old(entity.Row()).(id := old(db.nextIncident))
      ensures k < 0 ==> incidents == old(incidents) + [entity.Row()] && db.nextIncident == old(db.nextIncident) + 1
    {
      if k >= 0 {
        incidents := incidents[k := entity.Row()];
      } else {
        entity.id := db.nextIncident;
        db.nextIncident := db.nextIncident + 1;
        incidents := incidents + [entity.Row()];
      }
    }

    method FlushAttack(a: Attack) returns (stored: Attack)
      modifies `attacks, db`nextAttack
      ensures stored == a.(id := old(db.nextAttack)) && db.nextAttack == old(db.nextAttack) + 1
      ensures attacks == old(attacks) + [stored]
    {
      stored := a.(id := db.nextAttack);
      db.nextAttack := db.nextAttack + 1;
      attacks := attacks + [stored];
    }

    method Commit()
      modifies db`attacks, db`incidents
      ensures db.attacks == attacks && db.incidents == incidents
    {
      db.attacks, db.incidents := attacks, incidents;
    }

    method Rollback()
      modifies `attacks, `incidents
      ensures Clean()
    {
      attacks, incidents := db.attacks, db.incidents;
    }
  }

  // -------------------------------------------------------------- the engine

  /** Where an exception is raised, if anywhere. */
  datatype Fault =
    | NoFault | InHistory | InDetection | InScoring | InRow | InCorrelation
    | InIncidentFlush | InAttackFlush | InSnapshot | InCommit

  datatype Snapshot = Snapshot(
    attack: Attack,
    mitre: seq<Mitre.Info>,
    commandCount: nat,
    reasons: seq<(Risk.Reason, int)>)

  datatype Outcome = Returned(snapshot: Snapshot) | Raised

  /** Build the attack row, appending the commands one by one. */
  method BuildAttack(p: Pipeline, c: Capture, behaviors: seq<Tag>, techniques: seq<Technique>, risk: Risk.Result)
    returns (a: Attack)
    requires risk.level == p.cfg.LevelFor(risk.score)
    ensures a == Row(p, c, behaviors, techniques, risk.score)
  {
    var e, rep := p.world.enrich(c.sourceIp), p.world.check(c.sourceIp);
    var commands := [];
    for i := 0 to |c.commands|
      invariant commands == CommandRows(c.sessionId, c.commands[..i])
    {
      var cmd := c.commands[i];
      commands := commands + [Command(c.sessionId, cmd.timestamp, cmd.text, cmd.kind)];
    }
    assert c.commands[..|c.commands|] == c.commands;
    a := Attack(0, c.timestamp, c.sourceIp, c.sourcePort, e.Shown(), e.asn, e.isp, rep.reputation, rep.isMalicious,
                c.username, c.password, c.sshVersion, c.sessionId, c.duration, c.authAttempts,
                risk.score, risk.level, behaviors, techniques, commands, 0);
  }

  /** The part that only reads: history, behaviour, score, row. */
  method Assess(p: Pipeline, attacks: seq<Attack>, c: Capture, fault: Fault)
    returns (ok: bool, attack: Attack, reasons: seq<(Risk.Reason, int)>)
    ensures ok <==> fault !in {InHistory, InDetection, InScoring, InRow}
    ensures ok ==> attack == Assessed(p, c, PriorAttempts(p.cfg, attacks, c.sourceIp, c.timestamp))
    ensures ok ==>
      var prior := PriorAttempts(p.cfg, attacks, c.sourceIp, c.timestamp);
      reasons == Risk.Explained(p, RiskContext(p, c, prior), Risk.REASONS)
  {
    attack, reasons := Row(p, c, [], [], 0), [];
    if fault.InHistory? { return false, attack, reasons; }
    var prior := PriorAttempts(p.cfg, attacks, c.sourceIp, c.timestamp);

    if fault.InDetection? { return false, attack, reasons; }
    var behavior := Behavior.Detect(p, BehaviorContext(p, c, prior));

    if fault.InScoring? { return false, attack, reasons; }
    var risk := Risk.Score(p, Risk.Context(p.world.enrich(c.sourceIp), p.world.check(c.sourceIp).isMalicious,
                                           c.username, c.authAttempts, prior, behavior.behaviors));

    if fault.InRow? { return false, attack, reasons; }
    attack := BuildAttack(p, c, behavior.behaviors, behavior.techniques, risk);
    return true, attack, risk.reasons;
  }

  /** The part that writes: correlation and the two flushes. */
  method Record(s: Session, attack: Attack, fault: Fault) returns (ok: bool, stored: Attack)
    requires s.Clean()
    modifies s, s.db`nextAttack, s.db`nextIncident
    ensures s.db.nextAttack >= old(s.db.nextAttack) && s.db.nextIncident >= old(s.db.nextIncident)
    ensures ok <==> fault !in {InCorrelation, InIncidentFlush, InAttackFlush}
    ensures ok ==>
      Tables(s.attacks, s.incidents, s.db.nextAttack, s.db.nextIncident) == Recorded(old(s.db.State()), attack)
    ensures ok ==> s.attacks == old(s.attacks) + [stored]
  {
    stored := attack;
    if fault.InCorrelation? { return false, stored; }
    var k := LiveIndex(s.incidents, attack.sourceIp);
    var incident := Correlate(s.incidents, attack.sourceIp, EvidenceOf(attack));

    if fault.InIncidentFlush? { return false, stored; }
    s.FlushIncident(incident, k);
    stored := attack.(incidentId := incident.id);

    if fault.InAttackFlush? { return false, stored; }
    stored := s.FlushAttack(stored);
    return true, stored;
  }

  /** The body of the `with session_scope()` block. */
  method WithSession(p: Pipeline, s: Session, c: Capture, fault: Fault) returns (r: Outcome)
    requires s.Clean()
    modifies s, s.db`nextAttack, s.db`nextIncident
    ensures s.db.nextAttack >= old(s.db.nextAttack) && s.db.nextIncident >= old(s.db.nextIncident)
    ensures r.Raised? <==> !fault.NoFault? && !fault.InCommit?
    ensures r.Returned? ==>
      Tables(s.attacks, s.incidents, s.db.nextAttack, s.db.nextIncident) == Committed(p, old(s.db.State()), c)
    ensures r.Returned? ==> r.snapshot == SnapshotOf(p, old(s.db.State()), c)
  {
    var ok, attack, reasons := Assess(p, s.attacks, c, fault);
    if !ok { return Raised; }
    ok, attack := Record(s, attack, fault);
    if !ok || fault.InSnapshot? { return Raised; }
    var mitre := Mitre.Resolve(attack.techniques);
    r := Returned(Snapshot(attack, mitre, |attack.commands|, reasons));
  }

  /** What a committed capture reports: the row just stored, its techniques resolved, the explained score. */
  function SnapshotOf(p: Pipeline, db: Tables, c: Capture): Snapshot {
    var a := Committed(p, db, c).attacks[|db.attacks|];
    Snapshot(a, Mitre.Resolved(a.techniques), |c.commands|,
             Risk.Explained(p, RiskContext(p, c, Prior(p, db, c)), Risk.REASONS))
  }

  /** One transactional step: either the whole effect of the capture or, when anything
      raises, no change to any row. */
  method Process(p: Pipeline, db: Database, c: Capture, fault: Fault) returns (r: Outcome)
    modifies db
    ensures r.Returned? <==> fault.NoFault?
    ensures r.Returned? ==> db.State() == Committed(p, old(db.State()), c)
    ensures r.Returned? ==> r.snapshot == SnapshotOf(p, old(db.State()), c)
    ensures r.Raised? ==> db.attacks == old(db.attacks) && db.incidents == old(db.incidents)
    ensures r.Raised? ==> db.nextAttack >= old(db.nextAttack) && db.nextIncident >= old(db.nextIncident)
  {
    var s := new Session(db);
    r := WithSession(p, s, c, fault);
    if r.Returned? && !fault.InCommit? {
      s.Commit();
    } else {
      s.Rollback();
      r := Raised;
    }
  }
}
