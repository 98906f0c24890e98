/** Per-IP isolation: the shared tables refine one independent dossier per source IP. */
module Isolation {
  import opened Lists
  import opened Intel
  import opened Store
  import opened Incidents
  import opened Ingest
  import opened History

  // ------------------------------------------------ the single-IP reference

  /** All that concerns one IP, without database keys: attacks in ingestion order, each with
      the ordinal of its incident, and incidents in the order they were opened. */
  datatype Dossier = Dossier(log: seq<Attack>, cards: seq<Incident>)

  const BLANK: Dossier := Dossier([], [])

  predicate HasLive(cards: seq<Incident>) { cards != [] && cards[|cards| - 1].status != Closed }

  function DossierStore(d: Dossier, a: Attack): Dossier {
    var n, e := |d.cards|, EvidenceOf(a);
    if HasLive(d.cards) then
      Dossier(d.log + [a.(id := 0, incidentId := n - 1)], d.cards[n - 1 := Folded(d.cards[n - 1], e)])
    else
      Dossier(d.log + [a.(id := 0, incidentId := n)], d.cards + [Folded(Opened(a.sourceIp, e), e)])
  }

  /** The reference machine: it never sees another IP, and looks only at the last card. */
  function DossierStep(d: Dossier, e: Event): Dossier {
    match e
    case Captured(p, c) => DossierStore(d, Assessed(p, c, PriorAttempts(p.cfg, d.log, c.sourceIp, c.timestamp)))
    case Aborted(_, _, _) => d
    case StatusSet(_, status) =>
      var n := |d.cards|;
      if HasLive(d.cards) then d.(cards := d.cards[n - 1 := d.cards[n - 1].(status := status)]) else d
  }

  function DossierRun(d: Dossier, es: seq<Event>): Dossier {
    if es == [] then d else DossierStep(DossierRun(d, es[..|es| - 1]), es[|es| - 1])
  }

  /** The events of one IP. */
  function Only(es: seq<Event>, ip: string): seq<Event> {
    if es == [] then []
    else Only(es[..|es| - 1], ip) + (if IpOf(es[|es| - 1]) == ip then [es[|es| - 1]] else [])
  }

  // ------------------------------------------- reading a dossier off the tables

  function OfIp(incidents: seq<Incident>, ip: string): seq<Incident> {
    if incidents == [] then []
    else OfIp(incidents[..|incidents| - 1], ip) +
         (if incidents[|incidents| - 1].sourceIp == ip then [incidents[|incidents| - 1]] else [])
  }

  /** The position of the card with key `id`; the number of cards when there is none. */
  function Ordinal(cards: seq<Incident>, id: nat): nat
    ensures Ordinal(cards, id) <= |cards|
  {
    if cards == [] then 0
    else if cards[0].id == id then 0 else 1 + Ordinal(cards[1..], id)
  }

  function Log(attacks: seq<Attack>, ip: string, cards: seq<Incident>): seq<Attack> {
    if attacks == [] then []
    else
      var a := attacks[|attacks| - 1];
      Log(attacks[..|attacks| - 1], ip, cards) +
      (if a.sourceIp == ip then [a.(id := 0, incidentId := Ordinal(cards, a.incidentId))] else [])
  }

  function Unkeyed(cards: seq<Incident>): seq<Incident> {
    seq(|cards|, i requires 0 <= i < |cards| => cards[i].(id := 0))
  }

  function View(db: Tables, ip: string): Dossier {
    var cards := OfIp(db.incidents, ip);
    Dossier(Log(db.attacks, ip, cards), Unkeyed(cards))
  }

  // ------------------------------------------------------------ small lemmas

  lemma OfIpAppend(incidents: seq<Incident>, row: Incident, ip: string)
    ensures OfIp(incidents + [row], ip) == OfIp(incidents, ip) + (if row.sourceIp == ip then [row] else [])
  {
    assert (incidents + [row])[..|incidents|] == incidents;
  }

  lemma LogAppend(attacks: seq<Attack>, a: Attack, ip: string, cards: seq<Incident>)
    ensures Log(attacks + [a], ip, cards) == Log(attacks, ip, cards) +
      (if a.sourceIp == ip then [a.(id := 0, incidentId := Ordinal(cards, a.incidentId))] else [])
  {
    assert (attacks + [a])[..|attacks|] == attacks;
  }

  /** Replacing a row of another IP is invisible. */
  lemma {:induction false} OfIpElsewhere(incidents: seq<Incident>, k: nat, row: Incident, ip: string)
    requires k < |incidents| && incidents[k].sourceIp != ip && row.sourceIp != ip
    ensures OfIp(incidents[k := row], ip) == OfIp(incidents, ip)
  {
    var n := |incidents| - 1;
    if k < n {
      OfIpElsewhere(incidents[..n], k, row, ip);
      assert incidents[k := row][..n] == incidents[..n][k := row];
    } else {
      assert incidents[k := row][..n] == incidents[..n];
    }
  }

  lemma {:induction false} OfIpMembers(incidents: seq<Incident>, ip: string)
    ensures forall c :: c in OfIp(incidents, ip) <==> c in incidents && c.sourceIp == ip
  {
    if incidents != [] {
      var n := |incidents| - 1;
      OfIpMembers(incidents[..n], ip);
      assert incidents == incidents[..n] + [incidents[n]];
    }
  }

  /** The query finds the IP's last card when that is live, and nothing otherwise; putting `row`
      in the place of the one puts it in the place of the other. */
  ghost predicate LastCardIs(incidents: seq<Incident>, ip: string, row: Incident) {
    var k, cards := LiveIndex(incidents, ip), OfIp(incidents, ip);
    if HasLive(cards)
    then k >= 0 && incidents[k] == cards[|cards| - 1] && OfIp(incidents[k := row], ip) == cards[|cards| - 1 := row]
    else k < 0
  }

  /** One more row in front of which the claim holds. */
  lemma LastCardStep(incidents: seq<Incident>, ip: string, row: Incident)
    requires incidents != [] && OnlyLastLive(incidents) && row.sourceIp == ip
    requires LastCardIs(incidents[..|incidents| - 1], ip, row)
    ensures LastCardIs(incidents, ip, row)
  {
    var n := |incidents| - 1;
    var prefix, last := incidents[..n], incidents[n];
    var k := LiveIndex(prefix, ip);
    if last.sourceIp == ip {
      LiveIndexFinds(prefix, ip);
      assert k < 0;
      if last.status != Closed { assert incidents[n := row][..n] == prefix; }
    } else if k >= 0 {
      assert incidents[k := row][..n] == prefix[k := row];
    }
  }

  /** The row found by the query is the IP's last card; replacing the one replaces the other. */
  lemma {:induction false} LiveIsLastCard(incidents: seq<Incident>, ip: string, row: Incident)
    requires OnlyLastLive(incidents) && row.sourceIp == ip
    ensures LastCardIs(incidents, ip, row)
  {
    if incidents != [] {
      LiveIsLastCard(incidents[..|incidents| - 1], ip, row);
      LastCardStep(incidents, ip, row);
    }
  }

  lemma {:induction false} OrdinalAppend(cards: seq<Incident>, row: Incident, id: nat)
    requires exists c :: c in cards && c.id == id
    ensures Ordinal(cards + [row], id) == Ordinal(cards, id)
  {
    if cards[0].id != id {
      var c :| c in cards && c.id == id;
      assert c in cards[1..];
      OrdinalAppend(cards[1..], row, id);
      assert (cards + [row])[1..] == cards[1..] + [row];
    }
  }

  lemma {:induction false} OrdinalOfNew(cards: seq<Incident>, row: Incident)
    requires forall c :: c in cards ==> c.id != row.id
    ensures Ordinal(cards + [row], row.id) == |cards|
  {
    if cards != [] {
      assert cards[0] in cards;
      assert forall c :: c in cards[1..] ==> c in cards;
      OrdinalOfNew(cards[1..], row);
      assert (cards + [row])[1..] == cards[1..] + [row];
    }
  }

  lemma {:induction false} OrdinalSameKeys(cards: seq<Incident>, k: nat, row: Incident, id: nat)
    requires k < |cards| && row.id == cards[k].id
    ensures Ordinal(cards[k := row], id) == Ordinal(cards, id)
  {
    if cards[0].id != id {
      if k == 0 {
        assert cards[k := row][1..] == cards[1..];
      } else {
        OrdinalSameKeys(cards[1..], k - 1, row, id);
        assert cards[k := row][1..] == cards[1..][k - 1 := row];
      }
    }
  }

  /** The log depends on the cards only through the ordinals of its own attacks. */
  lemma {:induction false} LogSameOrdinals(attacks: seq<Attack>, ip: string,
                                           cards: seq<Incident>, cards': seq<Incident>)
    requires forall i :: 0 <= i < |attacks| && attacks[i].sourceIp == ip ==>
      Ordinal(cards', attacks[i].incidentId) == Ordinal(cards, attacks[i].incidentId)
    ensures Log(attacks, ip, cards') == Log(attacks, ip, cards)
  {
    if attacks != [] { LogSameOrdinals(attacks[..|attacks| - 1], ip, cards, cards'); }
  }

  lemma LogSameKeys(attacks: seq<Attack>, ip: string, cards: seq<Incident>, n: nat, row: Incident)
    requires n < |cards| && row.id == cards[n].id
    ensures Log(attacks, ip, cards[n := row]) == Log(attacks, ip, cards)
  {
    forall id: nat ensures Ordinal(cards[n := row], id) == Ordinal(cards, id) { OrdinalSameKeys(cards, n, row, id); }
    LogSameOrdinals(attacks, ip, cards, cards[n := row]);
  }

  lemma UnkeyedReplace(cards: seq<Incident>, n: nat, row: Incident)
    requires n < |cards|
    ensures Unkeyed(cards[n := row]) == Unkeyed(cards)[n := row.(id := 0)]
  {
  }

  lemma UnkeyedAppend(cards: seq<Incident>, row: Incident)
    ensures Unkeyed(cards + [row]) == Unkeyed(cards) + [row.(id := 0)]
  {
  }

  lemma FoldedUnkeyed(row: Incident, e: Evidence)
    ensures Folded(row, e).(id := 0) == Folded(row.(id := 0), e)
  {
  }

  /** History is counted on the IP's own rows only. */
  lemma {:induction false} HistoryIsOwn(attacks: seq<Attack>, ip: string, cards: seq<Incident>,
                                        from: Instant, before: Instant)
    ensures CountWindow(Log(attacks, ip, cards), ip, from, before) == CountWindow(attacks, ip, from, before)
  {
    if attacks != [] {
      var n := |attacks| - 1;
      var log, a := Log(attacks[..n], ip, cards), attacks[n];
      HistoryIsOwn(attacks[..n], ip, cards, from, before);
      if a.sourceIp == ip {
        var a' := a.(id := 0, incidentId := Ordinal(cards, a.incidentId));
        assert (log + [a'])[..|log|] == log;
      } else {
        assert log + [] == log;
      }
    }
  }

  // ------------------------------------------------------- steps and runs

  /** The key of an attack's incident is the key of one of its IP's cards. */
  lemma OwnCard(db: Tables, i: nat)
    requires Core(db) && i < |db.attacks|
    ensures exists c :: c in OfIp(db.incidents, db.attacks[i].sourceIp) && c.id == db.attacks[i].incidentId
  {
    assert PointsInto(db.attacks[i], db.incidents);
    OfIpMembers(db.incidents, db.attacks[i].sourceIp);
  }

  /** Storing an attack of another IP leaves the dossier as it was. */
  lemma StoreElsewhere(db: Tables, a: Attack, ip: string)
    requires Core(db) && a.sourceIp != ip
    ensures View(Recorded(db, a), ip) == View(db, ip)
  {
    var k, db' := LiveIndex(db.incidents, a.sourceIp), Recorded(db, a);
    var stored := db'.attacks[|db.attacks|];
    var cards := OfIp(db.incidents, ip);
    if k >= 0 {
      OfIpElsewhere(db.incidents, k, db'.incidents[k], ip);
    } else {
      OfIpAppend(db.incidents, db'.incidents[|db.incidents|], ip);
      assert cards + [] == cards;
    }
    assert db'.attacks == db.attacks + [stored];
    LogAppend(db.attacks, stored, ip, cards);
    assert Log(db.attacks, ip, cards) + [] == Log(db.attacks, ip, cards);
  }

  /** The live incident is the last card, and the updated row takes its place. */
  lemma LiveCardUpdated(incidents: seq<Incident>, ip: string, k: nat, ev: Evidence)
    requires OnlyLastLive(incidents) && DistinctKeys(incidents) && k == LiveIndex(incidents, ip)
    ensures
      var cards, row := OfIp(incidents, ip), Folded(incidents[k], ev);
      HasLive(cards) && Ordinal(cards, row.id) == |cards| - 1 && row == Folded(cards[|cards| - 1], ev) &&
      OfIp(incidents[k := row], ip) == cards[|cards| - 1 := row]
  {
    LiveIsLastCard(incidents, ip, Folded(incidents[k], ev));
    LastOrdinal(incidents, ip);
    FoldedKeeps(incidents[k], ev);
  }

  /** Storing an attack of this IP in its live incident. */
  lemma StoreInLast(db: Tables, a: Attack, k: nat)
    requires OnlyLastLive(db.incidents) && DistinctKeys(db.incidents) && k == LiveIndex(db.incidents, a.sourceIp)
    ensures View(Recorded(db, a), a.sourceIp) == DossierStore(View(db, a.sourceIp), a)
  {
    var row := Folded(db.incidents[k], EvidenceOf(a));
    RecordedInLive(db, a, k);
    LiveCardUpdated(db.incidents, a.sourceIp, k, EvidenceOf(a));
    FoldedKeeps(db.incidents[k], EvidenceOf(a));
    LastCardStored(db.attacks, a.sourceIp, OfIp(db.incidents, a.sourceIp),
                   a.(id := db.nextAttack, incidentId := row.id), row, a);
  }

  lemma LastCardStored(attacks: seq<Attack>, ip: string, cards: seq<Incident>, stored: Attack, row: Incident, a: Attack)
    requires HasLive(cards) && Ordinal(cards, row.id) == |cards| - 1
    requires row == Folded(cards[|cards| - 1], EvidenceOf(a)) && a.sourceIp == ip
    requires stored == a.(id := stored.id, incidentId := row.id)
    ensures
      var cards' := cards[|cards| - 1 := row];
      Dossier(Log(attacks + [stored], ip, cards'), Unkeyed(cards'))
        == DossierStore(Dossier(Log(attacks, ip, cards), Unkeyed(cards)), a)
  {
    var n := |cards| - 1;
    LogAppend(attacks, stored, ip, cards[n := row]);
    LogSameKeys(attacks, ip, cards, n, row);
    OrdinalSameKeys(cards, n, row, row.id);
    UnkeyedReplace(cards, n, row);
    FoldedUnkeyed(cards[n], EvidenceOf(a));
  }

  /** Keys are unique, so the last card is found at the last ordinal. */
  lemma LastOrdinal(incidents: seq<Incident>, ip: string)
    requires DistinctKeys(incidents) && OfIp(incidents, ip) != []
    ensures var cards := OfIp(incidents, ip); Ordinal(cards, cards[|cards| - 1].id) == |cards| - 1
  {
    DistinctCards(incidents, ip);
    OrdinalOfLast(OfIp(incidents, ip));
  }

  ghost predicate DistinctKeys(incidents: seq<Incident>) {
    forall i, j :: 0 <= i < j < |incidents| ==> incidents[i].id != incidents[j].id
  }

  lemma OrdinalOfLast(cards: seq<Incident>)
    requires cards != [] && DistinctKeys(cards)
    ensures Ordinal(cards, cards[|cards| - 1].id) == |cards| - 1
  {
    var n := |cards| - 1;
    OrdinalOfNew(cards[..n], cards[n]);
    assert cards[..n] + [cards[n]] == cards;
  }

  lemma {:induction false} DistinctCards(incidents: seq<Incident>, ip: string)
    requires DistinctKeys(incidents)
    ensures DistinctKeys(OfIp(incidents, ip))
  {
    if incidents != [] {
      var n := |incidents| - 1;
      DistinctCards(incidents[..n], ip);
      OfIpMembers(incidents[..n], ip);
      forall c | c in OfIp(incidents[..n], ip) ensures c.id != incidents[n].id {
        assert c in incidents[..n];
      }
    }
  }

  /** Storing an attack of this IP in a new incident. */
  lemma StoreInNew(db: Tables, a: Attack)
    requires Core(db) && LiveIndex(db.incidents, a.sourceIp) < 0
    ensures View(Recorded(db, a), a.sourceIp) == DossierStore(View(db, a.sourceIp), a)
  {
    var ip, db', e := a.sourceIp, Recorded(db, a), EvidenceOf(a);
    var row := Folded(Opened(ip, e), e).(id := db.nextIncident);
    var stored := a.(id := db.nextAttack, incidentId := db.nextIncident);
    var cards := OfIp(db.incidents, ip);
    LiveIsLastCard(db.incidents, ip, row);
    OfIpAppend(db.incidents, row, ip);
    assert db'.attacks == db.attacks + [stored] && db'.incidents == db.incidents + [row];
    forall i | 0 <= i < |db.attacks| && db.attacks[i].sourceIp == ip
      ensures Ordinal(cards + [row], db.attacks[i].incidentId) == Ordinal(cards, db.attacks[i].incidentId)
    {
      OwnCard(db, i);
      OrdinalAppend(cards, row, db.attacks[i].incidentId);
    }
    LogSameOrdinals(db.attacks, ip, cards, cards + [row]);
    OfIpMembers(db.incidents, ip);
    OrdinalOfNew(cards, row);
    NewCardStored(db.attacks, ip, cards, stored, row, a);
  }

  lemma NewCardStored(attacks: seq<Attack>, ip: string, cards: seq<Incident>, stored: Attack, row: Incident, a: Attack)
    requires !HasLive(cards) && Ordinal(cards + [row], row.id) == |cards|
    requires a.sourceIp == ip && row == Folded(Opened(ip, EvidenceOf(a)), EvidenceOf(a)).(id := row.id)
    requires stored == a.(id := stored.id, incidentId := row.id)
    requires Log(attacks, ip, cards + [row]) == Log(attacks, ip, cards)
    ensures Dossier(Log(attacks + [stored], ip, cards + [row]), Unkeyed(cards + [row]))
         == DossierStore(Dossier(Log(attacks, ip, cards), Unkeyed(cards)), a)
  {
    LogAppend(attacks, stored, ip, cards + [row]);
    UnkeyedAppend(cards, row);
  }

  lemma AssessedIp(p: Pipeline, c: Capture, prior: nat)
    ensures Assessed(p, c, prior).sourceIp == c.sourceIp
  {
  }

  lemma OwnPrior(cfg: Config, db: Tables, ip: string, at: Instant)
    ensures PriorAttempts(cfg, View(db, ip).log, ip, at) == PriorAttempts(cfg, db.attacks, ip, at)
  {
    HistoryIsOwn(db.attacks, ip, OfIp(db.incidents, ip), at - cfg.historyWindowHours * HOUR, at);
  }

  lemma {:induction false} CaptureOwn(db: Tables, p: Pipeline, c: Capture)
    requires Core(db)
    ensures View(Committed(p, db, c), c.sourceIp) == DossierStep(View(db, c.sourceIp), Captured(p, c))
  {
    var prior := Prior(p, db, c);
    OwnPrior(p.cfg, db, c.sourceIp, c.timestamp);
    AssessedIp(p, c, prior);
    StoreOwn(db, Assessed(p, c, prior));
  }

  lemma {:induction false} CaptureElsewhere(db: Tables, p: Pipeline, c: Capture, ip: string)
    requires Core(db) && c.sourceIp != ip
    ensures View(Committed(p, db, c), ip) == View(db, ip)
  {
    var prior := Prior(p, db, c);
    AssessedIp(p, c, prior);
    StoreElsewhere(db, Assessed(p, c, prior), ip);
  }

  lemma StoreOwn(db: Tables, a: Attack)
    requires Core(db)
    ensures View(Recorded(db, a), a.sourceIp) == DossierStore(View(db, a.sourceIp), a)
  {
    var k := LiveIndex(db.incidents, a.sourceIp);
    if k >= 0 { StoreInLast(db, a, k); } else { StoreInNew(db, a); }
  }

  /** A step of this IP is the reference step; a step of another IP is no step at all. */
  lemma {:induction false} StepRefines(db: Tables, e: Event, ip: string)
    requires Core(db)
    ensures View(Step(db, e), ip) == if IpOf(e) == ip then DossierStep(View(db, ip), e) else View(db, ip)
  {
    match e
    case Captured(p, c) =>
      if c.sourceIp == ip { CaptureOwn(db, p, c); } else { CaptureElsewhere(db, p, c, ip); }
    case Aborted(_, _, _) =>
    case StatusSet(x, status) =>
      if x == ip { StatusOwn(db, ip, status); } else { StatusElsewhere(db, x, status, ip); }
  }

  lemma StatusElsewhere(db: Tables, x: string, status: Status, ip: string)
    requires Core(db) && x != ip
    ensures View(WithStatus(db, x, status), ip) == View(db, ip)
  {
    var k := LiveIndex(db.incidents, x);
    if k >= 0 {
      OfIpElsewhere(db.incidents, k, db.incidents[k].(status := status), ip);
    }
  }

  lemma StatusOwn(db: Tables, ip: string, status: Status)
    requires Core(db)
    ensures View(WithStatus(db, ip, status), ip) == DossierStep(View(db, ip), StatusSet(ip, status))
  {
    var k := LiveIndex(db.incidents, ip);
    if k >= 0 { StatusOwnLive(db, ip, status, k); } else { StatusOwnIdle(db, ip, status); }
  }

  lemma StatusOwnLive(db: Tables, ip: string, status: Status, k: nat)
    requires Core(db) && k == LiveIndex(db.incidents, ip)
    ensures View(WithStatus(db, ip, status), ip) == DossierStep(View(db, ip), StatusSet(ip, status))
  {
    var row, cards := db.incidents[k].(status := status), OfIp(db.incidents, ip);
    LiveIsLastCard(db.incidents, ip, row);
    var db' := WithStatus(db, ip, status);
    assert db'.attacks == db.attacks && db'.incidents == db.incidents[k := row];
    LastCardRestatused(db.attacks, ip, cards, row, status);
  }

  lemma StatusOwnIdle(db: Tables, ip: string, status: Status)
    requires LiveIndex(db.incidents, ip) < 0
    ensures View(WithStatus(db, ip, status), ip) == DossierStep(View(db, ip), StatusSet(ip, status))
  {
    NoLiveCard(db.incidents, ip);
    IdleStatus(View(db, ip), ip, status);
  }

  lemma NoLiveCard(incidents: seq<Incident>, ip: string)
    requires LiveIndex(incidents, ip) < 0
    ensures !HasLive(Unkeyed(OfIp(incidents, ip)))
  {
    LiveIndexFinds(incidents, ip);
    OfIpMembers(incidents, ip);
  }

  lemma IdleStatus(d: Dossier, ip: string, status: Status)
    requires !HasLive(d.cards)
    ensures DossierStep(d, StatusSet(ip, status)) == d
  {
  }

  lemma LastCardRestatused(attacks: seq<Attack>, ip: string, cards: seq<Incident>, row: Incident, status: Status)
    requires HasLive(cards) && row == cards[|cards| - 1].(status := status)
    ensures
      var cards' := cards[|cards| - 1 := row];
      Dossier(Log(attacks, ip, cards'), Unkeyed(cards'))
        == DossierStep(Dossier(Log(attacks, ip, cards), Unkeyed(cards)), StatusSet(ip, status))
  {
    LogSameKeys(attacks, ip, cards, |cards| - 1, row);
    UnkeyedReplace(cards, |cards| - 1, row);
  }

  lemma DossierOnly(d: Dossier, es: seq<Event>, ip: string)
    requires es != []
    ensures
      var n := |es| - 1;
      var before := DossierRun(d, Only(es[..n], ip));
      DossierRun(d, Only(es, ip)) == if IpOf(es[n]) == ip then DossierStep(before, es[n]) else before
  {
    var n := |es| - 1;
    var only := Only(es[..n], ip);
    if IpOf(es[n]) == ip {
      assert (only + [es[n]])[..|only|] == only;
    } else {
      assert only + [] == only;
    }
  }

  /** Refinement over whole runs: the tables, read for one IP, are what the reference machine
      computes from that IP's events alone. */
  lemma {:induction false} RunRefines(db: Tables, es: seq<Event>, ip: string)
    requires Core(db)
    ensures View(Run(db, es), ip) == DossierRun(View(db, ip), Only(es, ip))
  {
    if es != [] {
      var n := |es| - 1;
      RunRefines(db, es[..n], ip);
      RunKeepsCore(db, es[..n]);
      StepRefines(Run(db, es[..n]), es[n], ip);
      DossierOnly(View(db, ip), es, ip);
    }
  }

  lemma {:induction false} OnlyTwice(es: seq<Event>, ip: string)
    ensures Only(Only(es, ip), ip) == Only(es, ip)
  {
    if es != [] {
      var n := |es| - 1;
      OnlyTwice(es[..n], ip);
      var only := Only(es[..n], ip);
      if IpOf(es[n]) == ip {
        assert (only + [es[n]])[..|only|] == only;
      } else {
        assert only + [] == only;
      }
    }
  }

  // --------------------------------------------- what the dossier shows

  function Own(attacks: seq<Attack>, ip: string): seq<Attack> { Filter((a: Attack) => a.sourceIp == ip, attacks) }

  function OwnCards(incidents: seq<Incident>, ip: string): seq<Incident> {
    Filter((i: Incident) => i.sourceIp == ip, incidents)
  }

  lemma {:induction false} OfIpIsFilter(incidents: seq<Incident>, ip: string)
    ensures OfIp(incidents, ip) == OwnCards(incidents, ip)
  {
    if incidents != [] { OfIpIsFilter(incidents[..|incidents| - 1], ip); }
  }

  lemma {:induction false} LogRows(attacks: seq<Attack>, ip: string, cards: seq<Incident>)
    ensures |Log(attacks, ip, cards)| == |Own(attacks, ip)|
    ensures forall k :: 0 <= k < |Own(attacks, ip)| ==>
      Log(attacks, ip, cards)[k]
        == Own(attacks, ip)[k].(id := 0, incidentId := Ordinal(cards, Own(attacks, ip)[k].incidentId))
  {
    if attacks != [] { LogRows(attacks[..|attacks| - 1], ip, cards); }
  }

  lemma {:induction false} OrdinalFinds(cards: seq<Incident>, id: nat)
    requires exists c :: c in cards && c.id == id
    ensures Ordinal(cards, id) < |cards| && cards[Ordinal(cards, id)].id == id
  {
    if cards[0].id != id {
      var c :| c in cards && c.id == id;
      assert c in cards[1..];
      OrdinalFinds(cards[1..], id);
    }
  }

  lemma OwnIsStored(attacks: seq<Attack>, ip: string, k: nat) returns (i: nat)
    requires k < |Own(attacks, ip)|
    ensures i < |attacks| && attacks[i] == Own(attacks, ip)[k] && attacks[i].sourceIp == ip
  {
    var a := Own(attacks, ip)[k];
    FilterIsSelection((x: Attack) => x.sourceIp == ip, attacks, a);
    assert a in multiset(Own(attacks, ip));
    i :| 0 <= i < |attacks| && attacks[i] == a;
  }

  /** The dossier loses nothing but keys: its cards are the IP's incidents in order, its log the
      IP's attacks in order, each pointing to the card of the incident it is linked to. */
  lemma DossierShows(db: Tables, ip: string, k: nat)
    requires Core(db)
    ensures
      var d, mine, cards := View(db, ip), Own(db.attacks, ip), OwnCards(db.incidents, ip);
      |d.cards| == |cards| && (k < |cards| ==> d.cards[k] == cards[k].(id := 0)) &&
      |d.log| == |mine| &&
      (k < |mine| ==>
        var n := d.log[k].incidentId;
        d.log[k] == mine[k].(id := 0, incidentId := n) && n < |cards| && cards[n].id == mine[k].incidentId)
  {
    var cards := OfIp(db.incidents, ip);
    OfIpIsFilter(db.incidents, ip);
    LogRows(db.attacks, ip, cards);
    if k < |Own(db.attacks, ip)| {
      var i := OwnIsStored(db.attacks, ip, k);
      OwnCard(db, i);
      OrdinalFinds(cards, db.attacks[i].incidentId);
    }
  }

  /** Isolation: deleting every event of other IPs from a run leaves this IP's attacks
      (scores, behaviours, techniques, links) and incidents the same up to keys. */
  lemma {:induction false} OtherIpsAreInvisible(es: seq<Event>, ip: string)
    ensures View(Run(EMPTY, es), ip) == View(Run(EMPTY, Only(es, ip)), ip)
  {
    RunRefines(EMPTY, es, ip);
    RunRefines(EMPTY, Only(es, ip), ip);
    OnlyTwice(es, ip);
  }
}
