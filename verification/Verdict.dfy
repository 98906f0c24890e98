/** What stored rows say, in the terms of the captures behind them. */
module Verdict {
  import opened Lists
  import opened Intel
  import opened Store
  import opened Incidents
  import opened Ingest
  import opened History
  import opened Provenance
  import Behavior
  import Risk
  import Mitre

  // ------------------------------------------------------------------- tags

  /** Why a tag is reported: the cause in the capture's own fields. */
  ghost predicate Cause(p: Pipeline, c: Capture, prior: nat, tag: Tag) {
    match tag
    case CommonCredentialUse =>
      c.username.Some? && c.username.value != "" && p.world.lower(c.username.value) in p.cfg.bruteForceUsernames
    case BruteForce => c.authAttempts + prior >= p.cfg.repeatedThreshold
    case RepeatOffender => prior > 0
    case KnownMaliciousSource => p.world.check(c.sourceIp).isMalicious
    case PostAuthActivity => c.commands != []
    case _ => Struck(p, c, tag)
  }

  /** The pattern of `tag` occurs in one of the commands. */
  ghost predicate Struck(p: Pipeline, c: Capture, tag: Tag) {
    exists i :: 0 <= i < |c.commands| && p.world.search(tag, c.commands[i].text)
  }

  lemma StruckIff(p: Pipeline, c: Capture, tag: Tag)
    ensures Struck(p, c, tag)
       <==> exists i :: 0 <= i < |Texts(c.commands)| && p.world.search(tag, Texts(c.commands)[i])
  {
    var texts := Texts(c.commands);
    if i :| 0 <= i < |texts| && p.world.search(tag, texts[i]) {
      assert texts[i] == c.commands[i].text;
    }
    if i :| 0 <= i < |c.commands| && p.world.search(tag, c.commands[i].text) {
      assert texts[i] == c.commands[i].text;
    }
  }

  lemma WarrantedIsCause(p: Pipeline, c: Capture, prior: nat, tag: Tag)
    ensures Behavior.Warranted(p, BehaviorContext(p, c, prior), tag) <==> Cause(p, c, prior, tag)
  {
    StruckIff(p, c, tag);
  }

  /** A tag is stored exactly when the capture gives cause for it. */
  lemma TagCause(p: Pipeline, c: Capture, prior: nat, tag: Tag)
    ensures tag in Assessed(p, c, prior).behaviors <==> Cause(p, c, prior, tag)
  {
    Behavior.TagIff(p, BehaviorContext(p, c, prior), tag);
    WarrantedIsCause(p, c, prior, tag);
  }

  // ----------------------------------------------------------------- reasons

  /** Why a reason is given, and the points it is given, in the capture's own fields. */
  ghost predicate Charged(p: Pipeline, c: Capture, prior: nat, r: Risk.Reason, points: int) {
    var e := p.world.enrich(c.sourceIp);
    match r
    case RepeatedAttempts =>
      points == p.cfg.weightRepeated && (prior > 0 || c.authAttempts + prior >= p.cfg.repeatedThreshold)
    case CommonBruteForceUsername =>
      points == p.cfg.weightUsername && c.username.Some? && c.username.value != "" &&
      p.world.lower(c.username.value) in p.cfg.bruteForceUsernames
    case KnownMaliciousIp => points == p.cfg.weightMalicious && p.world.check(c.sourceIp).isMalicious
    case ForeignAsn =>
      points == p.cfg.weightForeign && !e.isPrivate && e.country.Some? && e.country.value != "" &&
      (p.cfg.homeCountries == {} || p.world.lower(e.country.value) !in p.cfg.homeCountries)
    case MalwareDownload =>
      points == p.cfg.weightMalware && (Struck(p, c, ToolTransfer) || Struck(p, c, Cryptomining))
    case PersistenceAttempt =>
      points == p.cfg.weightPersistence && (Struck(p, c, SshKeyPersistence) || Struck(p, c, CronPersistence))
    case Reconnaissance =>
      points == p.cfg.weightRecon &&
      (Struck(p, c, SystemDiscovery) || Struck(p, c, UserDiscovery) || Struck(p, c, AccountDiscovery) ||
       Struck(p, c, RemoteDiscovery))
  }

  lemma StruckTag(p: Pipeline, c: Capture, prior: nat, tag: Tag)
    requires Behavior.CommandTag(tag)
    ensures tag in Risk.TagSet(Assessed(p, c, prior).behaviors) <==> Struck(p, c, tag)
  {
    TagCause(p, c, prior, tag);
  }

  lemma EscalationByTags(p: Pipeline, c: Capture, prior: nat, r: Risk.Reason)
    requires Risk.Escalation(r)
    ensures Risk.Applies(p, RiskContext(p, c, prior), r)
       <==> Risk.AppliesByTags(Risk.TagSet(Assessed(p, c, prior).behaviors), false, r)
  {
    Risk.EscalationFromTags(Assessed(p, c, prior).behaviors, false, r);
  }

  lemma EscalationCharged(p: Pipeline, c: Capture, prior: nat, r: Risk.Reason, points: int)
    requires Risk.Escalation(r)
    ensures Risk.Applies(p, RiskContext(p, c, prior), r) && points == Risk.Weight(p.cfg, r)
       <==> Charged(p, c, prior, r, points)
  {
    EscalationByTags(p, c, prior, r);
    match r
    case MalwareDownload =>
      StruckTag(p, c, prior, ToolTransfer);
      StruckTag(p, c, prior, Cryptomining);
    case PersistenceAttempt =>
      StruckTag(p, c, prior, SshKeyPersistence);
      StruckTag(p, c, prior, CronPersistence);
    case _ =>
      StruckTag(p, c, prior, SystemDiscovery);
      StruckTag(p, c, prior, UserDiscovery);
      StruckTag(p, c, prior, AccountDiscovery);
      StruckTag(p, c, prior, RemoteDiscovery);
  }

  lemma ReasonCharged(p: Pipeline, c: Capture, prior: nat, r: Risk.Reason, points: int)
    ensures Risk.Applies(p, RiskContext(p, c, prior), r) && points == Risk.Weight(p.cfg, r)
       <==> Charged(p, c, prior, r, points)
  {
    if Risk.Escalation(r) { EscalationCharged(p, c, prior, r, points); }
  }

  function Explanation(p: Pipeline, c: Capture, prior: nat): seq<(Risk.Reason, int)> {
    Risk.Explained(p, RiskContext(p, c, prior), Risk.REASONS)
  }

  lemma ChargeListed(p: Pipeline, c: Capture, prior: nat, r: Risk.Reason, points: int)
    ensures (r, points) in Explanation(p, c, prior) <==> points != 0 && Charged(p, c, prior, r, points)
  {
    Risk.ExplainedMembers(p, RiskContext(p, c, prior), Risk.REASONS, r, points);
    ReasonCharged(p, c, prior, r, points);
  }

  /** The explanation lists a reason with its points exactly when the capture is charged with it
      and the points are not zero; the reasons come in the engine's order, none twice. */
  lemma ExplanationCause(p: Pipeline, c: Capture, prior: nat, r: Risk.Reason, points: int)
    ensures (r, points) in Explanation(p, c, prior) <==> points != 0 && Charged(p, c, prior, r, points)
    ensures
      var list := Explanation(p, c, prior);
      forall i, j :: 0 <= i < j < |list| ==> Risk.ReasonNo(list[i].0) < Risk.ReasonNo(list[j].0)
  {
    ChargeListed(p, c, prior, r, points);
    Risk.ExplainedInOrder(p, RiskContext(p, c, prior), Risk.REASONS);
  }

  /** The score is the sum of the listed points cut off at 0 and 100, the level the band it falls in. */
  ghost predicate Scored(p: Pipeline, list: seq<(Risk.Reason, int)>, a: Attack) {
    var total := Sum(Risk.Points(list));
    a.riskScore == (if total < 0 then 0 else if total > 100 then 100 else total) &&
    (a.riskLevel == Low <==> a.riskScore <= p.cfg.lowMax) &&
    (a.riskLevel == Medium <==> p.cfg.lowMax < a.riskScore <= p.cfg.mediumMax) &&
    (a.riskLevel == High <==> a.riskScore > p.cfg.lowMax && a.riskScore > p.cfg.mediumMax)
  }

  lemma BandMeans(p: Pipeline, list: seq<(Risk.Reason, int)>, a: Attack)
    requires a.riskScore == Clamp(0, 100, Sum(Risk.Points(list))) && a.riskLevel == p.cfg.LevelFor(a.riskScore)
    ensures Scored(p, list, a)
  {
  }

  lemma ScoreCause(p: Pipeline, c: Capture, prior: nat)
    ensures Scored(p, Explanation(p, c, prior), Assessed(p, c, prior))
  {
    BandMeans(p, Explanation(p, c, prior), Assessed(p, c, prior));
  }

  // ---------------------------------------------------------------- the rows

  /** The fields of the row that are copied from the capture and from the data sources. */
  ghost predicate Copied(p: Pipeline, c: Capture, a: Attack) {
    var e, rep := p.world.enrich(c.sourceIp), p.world.check(c.sourceIp);
    a.timestamp == c.timestamp && a.sourceIp == c.sourceIp && a.sourcePort == c.sourcePort &&
    a.username == c.username && a.password == c.password && a.sshVersion == c.sshVersion &&
    a.sessionId == c.sessionId && a.duration == c.duration && a.authAttempts == c.authAttempts &&
    a.country == (if e.countryName.Some? && e.countryName.value != "" then e.countryName else e.country) &&
    a.asn == e.asn && a.isp == e.isp && a.reputation == rep.reputation && a.isMalicious == rep.isMalicious &&
    |a.commands| == |c.commands| &&
    forall i :: 0 <= i < |c.commands| ==>
      a.commands[i] == Command(c.sessionId, c.commands[i].timestamp, c.commands[i].text, c.commands[i].kind)
  }

  /** The verdict of the row: its tags and techniques, its score with the explanation behind it, and its level. */
  ghost predicate Judged(p: Pipeline, c: Capture, prior: nat, a: Attack) {
    (forall tag :: tag in a.behaviors <==> Cause(p, c, prior, tag)) &&
    Behavior.InTurn(p.world, Texts(c.commands), a.behaviors) &&
    a.techniques == Dedup(Behavior.Listed(a.behaviors)) &&
    exists list: seq<(Risk.Reason, int)> :: Explains(p, c, prior, list) && Scored(p, list, a)
  }

  /** `list` gives exactly the reasons the capture is charged with, in the engine's order. */
  ghost predicate Explains(p: Pipeline, c: Capture, prior: nat, list: seq<(Risk.Reason, int)>) {
    (forall r, points :: ((r, points) in list) == (points != 0 && Charged(p, c, prior, r, points))) &&
    forall i, j :: 0 <= i < j < |list| ==> Risk.ReasonNo(list[i].0) < Risk.ReasonNo(list[j].0)
  }

  lemma ExplanationExplains(p: Pipeline, c: Capture, prior: nat)
    ensures Explains(p, c, prior, Explanation(p, c, prior))
  {
    Risk.ExplainedInOrder(p, RiskContext(p, c, prior), Risk.REASONS);
    forall r, points
      ensures ((r, points) in Explanation(p, c, prior)) == (points != 0 && Charged(p, c, prior, r, points))
    {
      ExplanationCause(p, c, prior, r, points);
    }
  }

  lemma AssessedIsCopied(p: Pipeline, c: Capture, prior: nat)
    ensures Copied(p, c, Assessed(p, c, prior))
  {
  }

  lemma AssessedIsJudged(p: Pipeline, c: Capture, prior: nat)
    ensures Judged(p, c, prior, Assessed(p, c, prior))
  {
    var b := BehaviorContext(p, c, prior);
    forall tag ensures tag in Assessed(p, c, prior).behaviors <==> Cause(p, c, prior, tag) {
      TagCause(p, c, prior, tag);
    }
    Behavior.TagsInTurn(p, b);
    Behavior.CoverageByTags(p, b);
    ExplanationExplains(p, c, prior);
    ScoreCause(p, c, prior);
  }

  /** The number of earlier rows of the capture's IP inside the history window. */
  ghost function Earlier(p: Pipeline, c: Capture, rows: seq<Attack>): nat {
    |set i | 0 <= i < |rows| && rows[i].sourceIp == c.sourceIp &&
             0 < c.timestamp - rows[i].timestamp <= p.cfg.historyWindowHours * 3_600_000_000|
  }

  /** Row `i` of a reachable database says what capture `i` of the run was, and judges it by that
      capture and the rows stored before. */
  lemma {:induction false} ReachableRow(es: seq<Event>, i: nat)
    requires i < |Run(EMPTY, es).attacks|
    ensures |Captures(es)| == |Run(EMPTY, es).attacks| && Captures(es)[i].Captured?
    ensures
      var rows, e := Run(EMPTY, es).attacks, Captures(es)[i];
      Copied(e.p, e.c, rows[i]) && Judged(e.p, e.c, Earlier(e.p, e.c, rows[..i]), rows[i])
  {
    AllWritten(es);
    WrittenSays(Run(EMPTY, es).attacks[i], Captures(es)[i], Run(EMPTY, es).attacks[..i]);
  }

  lemma WrittenSays(a: Attack, e: Event, before: seq<Attack>)
    requires e.Captured? && WrittenBy(a, e, before)
    ensures Copied(e.p, e.c, a) && Judged(e.p, e.c, Earlier(e.p, e.c, before), a)
  {
    PriorAttemptsCounts(e.p.cfg, before, e.c.sourceIp, e.c.timestamp);
    var prior := PriorAttempts(e.p.cfg, before, e.c.sourceIp, e.c.timestamp);
    assert prior == Earlier(e.p, e.c, before);
    AssessedIsCopied(e.p, e.c, prior);
    AssessedIsJudged(e.p, e.c, prior);
    SameButKeys(e.p, e.c, prior, Assessed(e.p, e.c, prior), a);
  }

  lemma SameButKeys(p: Pipeline, c: Capture, prior: nat, a: Attack, b: Attack)
    requires b == a.(id := b.id, incidentId := b.incidentId) && Copied(p, c, a) && Judged(p, c, prior, a)
    ensures Copied(p, c, b) && Judged(p, c, prior, b)
  {
  }

  /** What a committed capture reports: the row it stored under the next key, one entry for each of
      its techniques, its number of commands, and the reasons it is charged with. */
  lemma SnapshotSays(p: Pipeline, db: Tables, c: Capture)
    ensures
      var s, rows, prior := SnapshotOf(p, db, c), Committed(p, db, c).attacks, Earlier(p, c, db.attacks);
      |rows| == |db.attacks| + 1 && s.attack == rows[|db.attacks|] && s.attack.id == db.nextAttack &&
      Copied(p, c, s.attack) && Judged(p, c, prior, s.attack) &&
      s.commandCount == |c.commands| && Explains(p, c, prior, s.reasons) &&
      |s.mitre| == |s.attack.techniques| &&
      forall i :: 0 <= i < |s.mitre| ==> s.mitre[i].technique == s.attack.techniques[i]
  {
    StepStores(db, Captured(p, c));
    var a := Committed(p, db, c).attacks[|db.attacks|];
    WrittenSays(a, Captured(p, c), db.attacks);
    PriorAttemptsCounts(p.cfg, db.attacks, c.sourceIp, c.timestamp);
    assert Prior(p, db, c) == Earlier(p, c, db.attacks);
    ExplanationExplains(p, c, Prior(p, db, c));
    AssessedIsTagged(p, c, Prior(p, db, c));
    Mitre.ResolveKeepsAll(a.techniques);
  }

  // ----------------------------------------------------------- the incidents

  function Attempts(linked: seq<Attack>): seq<int> {
    seq(|linked|, i requires 0 <= i < |linked| => if linked[i].authAttempts < 1 then 1 else linked[i].authAttempts)
  }

  lemma {:induction false} TotalIsSum(linked: seq<Attack>)
    ensures TotalAttempts(linked) == Sum(Attempts(linked)) && TotalAttempts(linked) >= |linked|
  {
    if linked != [] {
      var n := |linked| - 1;
      TotalIsSum(linked[..n]);
      assert Attempts(linked)[..n] == Attempts(linked[..n]);
    }
  }

  function TechniqueLists(linked: seq<Attack>): seq<seq<Technique>> {
    seq(|linked|, i requires 0 <= i < |linked| => linked[i].techniques)
  }

  lemma {:induction false} TechniquesAreFlat(linked: seq<Attack>)
    ensures AllTechniques(linked) == Flatten(TechniqueLists(linked))
  {
    if linked != [] {
      var n := |linked| - 1;
      TechniquesAreFlat(linked[..n]);
      assert TechniqueLists(linked)[..n] == TechniqueLists(linked[..n]);
    }
  }

  /** The country is the first non-empty one, or that of the first attack if all are empty. */
  ghost predicate CountryOf(linked: seq<Attack>, country: Option<string>) {
    linked != [] &&
    exists k :: 0 <= k < |linked| && country == linked[k].country &&
      (forall i :: 0 <= i < k ==> linked[i].country == None || linked[i].country == Some("")) &&
      (country == None || country == Some("") ==> k == 0 && Blank(linked))
  }

  ghost predicate Blank(linked: seq<Attack>) {
    forall i :: 0 <= i < |linked| ==> linked[i].country == None || linked[i].country == Some("")
  }

  lemma CountryIsFirst(linked: seq<Attack>)
    requires linked != []
    ensures CountryOf(linked, ViewCountry(linked))
  {
    if i :| 0 <= i < |linked| && Truthy(linked[i].country) {
      var k := FirstKnown(linked);
      assert linked[k].country == ViewCountry(linked);
    } else {
      assert Blank(linked) && ViewCountry(linked) == linked[0].country;
    }
  }

  /** The title names the IP, the country if there is one, and the number of attempts in digits. */
  ghost predicate Titled(row: Incident) {
    exists digits ::
      Digits(digits) && Value(digits) == row.attemptCount && digits[0] != '0' &&
      row.title == "SSH activity from " + row.sourceIp +
        (if row.country.Some? && row.country.value != "" then " (" + row.country.value + ")" else "") +
        " \U{2014} " + digits + " attempts"
  }

  /** The incident as a summary of its attacks. */
  ghost predicate Summarises(row: Incident, linked: seq<Attack>) {
    linked != [] && row.attemptCount == Sum(Attempts(linked)) &&
    (exists i :: 0 <= i < |linked| && row.maxRisk == linked[i].riskScore) &&
    (forall i :: 0 <= i < |linked| ==> linked[i].riskScore <= row.maxRisk) &&
    row.techniques == Dedup(Flatten(TechniqueLists(linked))) && CountryOf(linked, row.country) &&
    row.firstSeen == linked[0].timestamp && row.lastSeen == linked[|linked| - 1].timestamp && Titled(row)
  }

  lemma ViewSummarises(row: Incident, linked: seq<Attack>)
    requires Aggregates(row, linked) && IngestWindow(row, linked)
    requires forall i :: 0 <= i < |linked| ==> linked[i].riskScore >= 0
    ensures Summarises(row, linked)
  {
    TotalIsSum(linked);
    TopRiskIsGreatest(linked);
    TechniquesAreFlat(linked);
    CountryIsFirst(linked);
    DecimalReads(row.attemptCount);
    assert Titled(row) by { var digits := Decimal(row.attemptCount); }
  }

  /** Every incident of a reachable database summarises exactly the attacks linked to it. */
  lemma {:induction false} ReachableIncident(es: seq<Event>, i: nat)
    requires i < |Run(EMPTY, es).incidents|
    ensures
      var db := Run(EMPTY, es);
      var row := db.incidents[i];
      Summarises(row, Linked(db.attacks, row.id)) &&
      forall a :: a in Linked(db.attacks, row.id) <==> a in db.attacks && a.incidentId == row.id
  {
    RunKeepsCore(EMPTY, es);
    RowSummarises(Run(EMPTY, es), i);
  }

  lemma RowSummarises(db: Tables, i: nat)
    requires Core(db) && IngestWindows(db) && i < |db.incidents|
    ensures Summarises(db.incidents[i], Linked(db.attacks, db.incidents[i].id))
    ensures forall a :: a in Linked(db.attacks, db.incidents[i].id) <==>
      a in db.attacks && a.incidentId == db.incidents[i].id
  {
    var linked := Linked(db.attacks, db.incidents[i].id);
    LinkedMembers(db.attacks, db.incidents[i].id);
    forall k | 0 <= k < |linked| ensures linked[k].riskScore >= 0 {
      assert linked[k] in db.attacks;
    }
    ViewSummarises(db.incidents[i], linked);
  }
}
