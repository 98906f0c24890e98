/** Incident correlation: find-or-create, and incrementally kept aggregates. */
module Incidents {
  import opened Lists
  import opened Intel
  import opened Store

  function Title(ip: string, country: Option<string>, attempts: int): string {
    "SSH activity from " + ip + (if Truthy(country) then " (" + country.value + ")" else "") +
    " \U{2014} " + Decimal(attempts) + " attempts"
  }

  function MergeTechniques(existing: seq<Technique>, added: seq<Technique>): seq<Technique> {
    Dedup(existing + added)
  }

  /** What one attack contributes to its incident. */
  datatype Evidence = Evidence(
    country: Option<string>,
    riskScore: int,
    attempts: int,
    techniques: seq<Technique>,
    timestamp: Instant)

  function EvidenceOf(a: Attack): Evidence {
    Evidence(a.country, a.riskScore, Max(1, a.authAttempts), a.techniques, a.timestamp)
  }

  // -------------------------------------------------------------- the engine

  /** A loaded or pending incident; `id` is 0 until the row is flushed. */
  class IncidentEntity {
    var id: nat
    var sourceIp: string
    var country: Option<string>
    var title: string
    var firstSeen: Instant
    var lastSeen: Instant
    var attemptCount: int
    var maxRisk: int
    var status: Status
    var techniques: seq<Technique>

    constructor Load(row: Incident)
      ensures Row() == row
    {
      id, sourceIp, country, title := row.id, row.sourceIp, row.country, row.title;
      firstSeen, lastSeen := row.firstSeen, row.lastSeen;
      attemptCount, maxRisk, status, techniques := row.attemptCount, row.maxRisk, row.status, row.techniques;
    }

    function Row(): Incident
      reads this
    {
      Incident(id, sourceIp, country, title, firstSeen, lastSeen, attemptCount, maxRisk, status, techniques)
    }
  }

  /** A new incident before any evidence: a pending row without a key. */
  function Opened(ip: string, e: Evidence): Incident {
    Incident(0, ip, e.country, "", e.timestamp, e.timestamp, 0, 0, Open, [])
  }

  /** The row the evidence goes to. */
  function Target(incidents: seq<Incident>, ip: string, e: Evidence): Incident {
    var k := LiveIndex(incidents, ip);
    if k >= 0 then incidents[k] else Opened(ip, e)
  }

  /** A row after one more piece of evidence. */
  function Folded(row: Incident, e: Evidence): Incident {
    var count := row.attemptCount + Max(1, e.attempts);
    var country := if Truthy(e.country) && !Truthy(row.country) then e.country else row.country;
    row.(lastSeen := e.timestamp,
         attemptCount := count,
         maxRisk := Max(row.maxRisk, e.riskScore),
         country := country,
         techniques := MergeTechniques(row.techniques, e.techniques),
         title := Title(row.sourceIp, country, count))
  }

  /** Find or create the live incident of `ip` among the rows the session sees, then
      update it field by field. */
  method Correlate(incidents: seq<Incident>, ip: string, e: Evidence) returns (incident: IncidentEntity)
    ensures fresh(incident)
    ensures incident.Row() == Folded(Target(incidents, ip, e), e)
  {
    var k := LiveIndex(incidents, ip);
    if k >= 0 {
      incident := new IncidentEntity.Load(incidents[k]);
    } else {
      incident := new IncidentEntity.Load(Opened(ip, e));
    }
    incident.lastSeen := e.timestamp;
    incident.attemptCount := incident.attemptCount + Max(1, e.attempts);
    incident.maxRisk := Max(incident.maxRisk, e.riskScore);
    if Truthy(e.country) && !Truthy(incident.country) {
      incident.country := e.country;
    }
    incident.techniques := MergeTechniques(incident.techniques, e.techniques);
    incident.title := Title(incident.sourceIp, incident.country, incident.attemptCount);
  }

  // -------------------------------------- the incident as a view of its attacks

  function TotalAttempts(linked: seq<Attack>): int {
    if linked == [] then 0 else TotalAttempts(linked[..|linked| - 1]) + Max(1, linked[|linked| - 1].authAttempts)
  }

  /** The greatest risk score, 0 for no attacks. */
  function TopRisk(linked: seq<Attack>): int {
    if linked == [] then 0 else Max(TopRisk(linked[..|linked| - 1]), linked[|linked| - 1].riskScore)
  }

  function AllTechniques(linked: seq<Attack>): seq<Technique> {
    if linked == [] then [] else AllTechniques(linked[..|linked| - 1]) + linked[|linked| - 1].techniques
  }

  /** The first non-empty country, or the first attack's value when there is none. */
  ghost function ViewCountry(linked: seq<Attack>): Option<string>
    requires linked != []
  {
    if exists i :: 0 <= i < |linked| && Truthy(linked[i].country)
    then linked[FirstKnown(linked)].country
    else linked[0].country
  }

  ghost function FirstKnown(linked: seq<Attack>): (k: nat)
    requires exists i :: 0 <= i < |linked| && Truthy(linked[i].country)
    ensures k < |linked| && Truthy(linked[k].country)
    ensures forall i :: 0 <= i < k ==> !Truthy(linked[i].country)
  {
    if Truthy(linked[0].country) then 0
    else
      var i :| 0 <= i < |linked| && Truthy(linked[i].country);
      assert linked[1..][i - 1] == linked[i];
      1 + FirstKnown(linked[1..])
  }

  /** The row's aggregates are those of a recomputation over `linked`. */
  ghost predicate Aggregates(row: Incident, linked: seq<Attack>) {
    linked != [] &&
    row.attemptCount == TotalAttempts(linked) &&
    row.maxRisk == TopRisk(linked) &&
    row.techniques == Dedup(AllTechniques(linked)) &&
    row.country == ViewCountry(linked) &&
    row.title == Title(row.sourceIp, row.country, row.attemptCount)
  }

  /** First and last seen are the instants of the first and the last attack ingested. */
  ghost predicate IngestWindow(row: Incident, linked: seq<Attack>) {
    linked != [] && row.firstSeen == linked[0].timestamp && row.lastSeen == linked[|linked| - 1].timestamp
  }

  lemma {:induction false} TopRiskBounds(linked: seq<Attack>)
    ensures forall i :: 0 <= i < |linked| ==> linked[i].riskScore <= TopRisk(linked)
    ensures TopRisk(linked) >= 0
  {
    if linked != [] {
      var n := |linked| - 1;
      TopRiskBounds(linked[..n]);
      assert forall i :: 0 <= i < n ==> linked[i] == linked[..n][i];
    }
  }

  /** Scores being non-negative, `TopRisk` is the greatest of them and is attained. */
  lemma {:induction false} TopRiskIsGreatest(linked: seq<Attack>)
    requires linked != [] && forall i :: 0 <= i < |linked| ==> linked[i].riskScore >= 0
    ensures exists i :: 0 <= i < |linked| && linked[i].riskScore == TopRisk(linked)
    ensures forall i :: 0 <= i < |linked| ==> linked[i].riskScore <= TopRisk(linked)
  {
    TopRiskBounds(linked);
    TopRiskAttained(linked);
  }

  lemma {:induction false} TopRiskAttained(linked: seq<Attack>)
    requires linked != [] && forall i :: 0 <= i < |linked| ==> linked[i].riskScore >= 0
    ensures exists i :: 0 <= i < |linked| && linked[i].riskScore == TopRisk(linked)
  {
    var n := |linked| - 1;
    var rest := linked[..n];
    if linked[n].riskScore == TopRisk(linked) {
    } else {
      assert TopRisk(rest) == TopRisk(linked) > linked[n].riskScore;
      assert rest != [];
      TopRiskAttained(rest);
      var i :| 0 <= i < n && rest[i].riskScore == TopRisk(rest);
      assert linked[i] == rest[i];
    }
  }

  lemma ViewCountryAppend(linked: seq<Attack>, a: Attack)
    requires linked != []
    ensures ViewCountry(linked + [a])
         == (if Truthy(a.country) && !Truthy(ViewCountry(linked)) then a.country else ViewCountry(linked))
  {
    var both := linked + [a];
    assert forall i :: 0 <= i < |linked| ==> both[i] == linked[i];
    if i :| 0 <= i < |linked| && Truthy(linked[i].country) {
      assert Truthy(both[i].country);
      var k, k' := FirstKnown(linked), FirstKnown(both);
    } else {
      assert !Truthy(linked[0].country);
      if Truthy(a.country) {
        assert both[|linked|] == a;
        var k' := FirstKnown(both);
      }
    }
  }

  /** The incremental update keeps the view exact. */
  lemma FoldKeepsView(row: Incident, linked: seq<Attack>, a: Attack)
    requires Aggregates(row, linked)
    ensures Aggregates(Folded(row, EvidenceOf(a)), linked + [a])
    ensures IngestWindow(row, linked) ==> IngestWindow(Folded(row, EvidenceOf(a)), linked + [a])
  {
    var both := linked + [a];
    assert both[..|both| - 1] == linked;
    ViewCountryAppend(linked, a);
    DedupLeft(AllTechniques(linked), a.techniques);
  }

  /** A fresh incident is the exact view of its first attack. */
  lemma OpenStartsView(ip: string, a: Attack)
    requires a.riskScore >= 0
    ensures Aggregates(Folded(Opened(ip, EvidenceOf(a)), EvidenceOf(a)), [a])
    ensures IngestWindow(Folded(Opened(ip, EvidenceOf(a)), EvidenceOf(a)), [a])
  {
    assert [a][..0] == [];
    assert [a][0].country == a.country;
    assert [] + a.techniques == a.techniques;
    assert AllTechniques([a]) == a.techniques;
    if Truthy(a.country) {
      assert Truthy([a][0].country);
      var k := FirstKnown([a]);
    }
  }
}
