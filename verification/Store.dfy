/** The persistent rows and the queries the ingest path runs over them. */
module Store {
  import opened Lists
  import opened Intel

  /** An instant, in microseconds. */
  type Instant = int

  const HOUR: int := 3_600_000_000

  datatype Status = Open | Triaged | Closed

  datatype Command = Command(sessionId: string, timestamp: Instant, text: string, kind: string)

  datatype Attack = Attack(
    id: nat,
    timestamp: Instant,
    sourceIp: string,
    sourcePort: Option<int>,
    country: Option<string>,
    asn: Option<string>,
    isp: Option<string>,
    reputation: int,
    isMalicious: bool,
    username: Option<string>,
    password: Option<string>,
    sshVersion: Option<string>,
    sessionId: string,
    duration: real,
    authAttempts: int,
    riskScore: int,
    riskLevel: Level,
    behaviors: seq<Tag>,
    techniques: seq<Technique>,
    commands: seq<Command>,
    incidentId: nat)

  datatype Incident = Incident(
    id: nat,
    sourceIp: string,
    country: Option<string>,
    title: string,
    firstSeen: Instant,
    lastSeen: Instant,
    attemptCount: int,
    maxRisk: int,
    status: Status,
    techniques: seq<Technique>)

  /** Both tables in insertion order, with the next primary keys. */
  datatype Tables = Tables(
    attacks: seq<Attack>,
    incidents: seq<Incident>,
    nextAttack: nat,
    nextIncident: nat)

  const EMPTY: Tables := Tables([], [], 1, 1)

  // ---------------------------------------------------------------- queries

  /** The attacks of `ip` with `from <= timestamp < before`. */
  function CountWindow(attacks: seq<Attack>, ip: string, from: Instant, before: Instant): nat {
    Count((a: Attack) => a.sourceIp == ip && from <= a.timestamp < before, attacks)
  }

  /** The repeat-offender history of `ip` as seen at instant `at`. */
  function PriorAttempts(cfg: Config, attacks: seq<Attack>, ip: string, at: Instant): nat {
    CountWindow(attacks, ip, at - cfg.historyWindowHours * HOUR, at)
  }

  lemma WindowIsCardinality(attacks: seq<Attack>, ip: string, from: Instant, before: Instant)
    ensures CountWindow(attacks, ip, from, before)
         == |set i | 0 <= i < |attacks| && attacks[i].sourceIp == ip && from <= attacks[i].timestamp < before|
  {
    var p := (a: Attack) => a.sourceIp == ip && from <= a.timestamp < before;
    CountIsCardinality(p, attacks);
    assert Positions(p, attacks)
        == set i | 0 <= i < |attacks| && attacks[i].sourceIp == ip && from <= attacks[i].timestamp < before;
  }

  /** The history is the number of stored rows of that IP strictly before `at` and at most the
      window's length earlier. */
  lemma PriorAttemptsCounts(cfg: Config, attacks: seq<Attack>, ip: string, at: Instant)
    ensures PriorAttempts(cfg, attacks, ip, at)
         == |set i | 0 <= i < |attacks| && attacks[i].sourceIp == ip &&
                     0 < at - attacks[i].timestamp <= cfg.historyWindowHours * HOUR|
  {
    var from := at - cfg.historyWindowHours * HOUR;
    WindowIsCardinality(attacks, ip, from, at);
    assert (set i | 0 <= i < |attacks| && attacks[i].sourceIp == ip && from <= attacks[i].timestamp < at)
        == (set i | 0 <= i < |attacks| && attacks[i].sourceIp == ip &&
                    0 < at - attacks[i].timestamp <= cfg.historyWindowHours * HOUR);
  }

  /** The row the find-or-create query returns: among the non-closed incidents of `ip` one
      with the greatest `lastSeen`, or -1 when there is none. */
  function LiveIndex(incidents: seq<Incident>, ip: string): int
    ensures -1 <= LiveIndex(incidents, ip) < |incidents|
    ensures LiveIndex(incidents, ip) >= 0 ==>
      incidents[LiveIndex(incidents, ip)].sourceIp == ip && incidents[LiveIndex(incidents, ip)].status != Closed
  {
    if incidents == [] then -1
    else
      var n := |incidents| - 1;
      var k := LiveIndex(incidents[..n], ip);
      if incidents[n].sourceIp == ip && incidents[n].status != Closed &&
         (k < 0 || incidents[n].lastSeen > incidents[k].lastSeen)
      then n else k
  }

  /** The query finds a row exactly when `ip` has a live incident, and then the latest one. */
  lemma {:induction false} LiveIndexFinds(incidents: seq<Incident>, ip: string)
    ensures LiveIndex(incidents, ip) >= 0
       <==> exists i :: 0 <= i < |incidents| && incidents[i].sourceIp == ip && incidents[i].status != Closed
    ensures forall i :: 0 <= i < |incidents| && incidents[i].sourceIp == ip && incidents[i].status != Closed ==>
      LiveIndex(incidents, ip) >= 0 && incidents[i].lastSeen <= incidents[LiveIndex(incidents, ip)].lastSeen
  {
    if incidents != [] {
      LiveIndexFinds(incidents[..|incidents| - 1], ip);
    }
  }

  /** The attacks linked to an incident, in ingestion order. */
  function Linked(attacks: seq<Attack>, id: nat): seq<Attack> {
    if attacks == [] then []
    else Linked(attacks[..|attacks| - 1], id) +
         (if attacks[|attacks| - 1].incidentId == id then [attacks[|attacks| - 1]] else [])
  }

  lemma LinkedAppend(attacks: seq<Attack>, a: Attack, id: nat)
    ensures Linked(attacks + [a], id) == Linked(attacks, id) + (if a.incidentId == id then [a] else [])
  {
    assert (attacks + [a])[..|attacks|] == attacks;
  }

  lemma LinkedOther(attacks: seq<Attack>, a: Attack, id: nat)
    requires a.incidentId != id
    ensures Linked(attacks + [a], id) == Linked(attacks, id)
  {
    LinkedAppend(attacks, a, id);
    assert Linked(attacks, id) + [] == Linked(attacks, id);
  }

  lemma {:induction false} LinkedMembers(attacks: seq<Attack>, id: nat)
    ensures forall a :: a in Linked(attacks, id) <==> a in attacks && a.incidentId == id
  {
    if attacks != [] {
      var n := |attacks| - 1;
      LinkedMembers(attacks[..n], id);
      assert attacks == attacks[..n] + [attacks[n]];
    }
  }
}
