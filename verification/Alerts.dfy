/** High-risk alerts: label by priority, technique to match. */
module Alerts {
  import opened Lists
  import opened Intel
  import opened Store
  import opened History
  import opened Provenance
  import Mitre

  datatype Caption =
    | CryptominingAlert | MalwareDownloadAlert | PersistenceAttemptAlert | DefenseEvasionAlert
    | CredentialAccessAlert | KnownMaliciousIpAlert | BruteForceAlert | SuspiciousLogin

  /** A behaviour, its label and its representative technique. */
  datatype AlertType = AlertType(behavior: Tag, caption: Caption, technique: Option<Technique>)

  /** Highest priority first. */
  const ALERT_TYPES: seq<AlertType> := [
    AlertType(Cryptomining, CryptominingAlert, Some(T1496)),
    AlertType(ToolTransfer, MalwareDownloadAlert, Some(T1105)),
    AlertType(SshKeyPersistence, PersistenceAttemptAlert, Some(T1098_004)),
    AlertType(CronPersistence, PersistenceAttemptAlert, Some(T1053_003)),
    AlertType(DisableDefenses, DefenseEvasionAlert, Some(T1562_001)),
    AlertType(AccountDiscovery, CredentialAccessAlert, Some(T1087)),
    AlertType(KnownMaliciousSource, KnownMaliciousIpAlert, None),
    AlertType(BruteForce, BruteForceAlert, Some(T1110))]

  datatype Alert = Alert(attackId: nat, caption: Caption, riskScore: int, mitre: Option<Mitre.Info>)

  /** The first entry from `i` on whose behaviour is present; the table's length when there is none. */
  ghost predicate Selected(types: seq<AlertType>, behaviors: seq<Tag>, i: nat) {
    i <= |types| &&
    (i < |types| ==> types[i].behavior in behaviors) &&
    forall j :: 0 <= j < i ==> types[j].behavior !in behaviors
  }

  /** The `for ... break` over the table. */
  method Select(types: seq<AlertType>, behaviors: seq<Tag>) returns (i: nat)
    ensures Selected(types, behaviors, i)
  {
    i := 0;
    while i < |types|
      invariant i <= |types| && forall j :: 0 <= j < i ==> types[j].behavior !in behaviors
    {
      if types[i].behavior in behaviors { break; }
      i := i + 1;
    }
  }

  /** The first entry for `t`. */
  method Find(infos: seq<Mitre.Info>, t: Technique) returns (found: Option<Mitre.Info>)
    ensures found.None? <==> !Mitre.Shows(infos, t)
    ensures found.Some? ==> found.value in infos && found.value.technique == t
  {
    found := None;
    for i := 0 to |infos|
      invariant forall j :: 0 <= j < i ==> infos[j].technique != t
    {
      if infos[i].technique == t { return Some(infos[i]); }
    }
  }

  /** What the card shows when the selected entry is `i`. */
  ghost predicate Surfaces(alert: Alert, a: Attack, i: nat) {
    var infos := Mitre.Resolved(a.techniques);
    if i < |ALERT_TYPES| && ALERT_TYPES[i].technique.Some? then
      var t := ALERT_TYPES[i].technique.value;
      alert.mitre.Some? && alert.mitre.value.technique == t &&
      (alert.mitre.value in infos || t !in a.techniques)
    else
      alert.mitre == if infos == [] then None else Some(infos[0])
  }

  lemma TableIsKnown(i: nat)
    requires i < |ALERT_TYPES| && ALERT_TYPES[i].technique.Some?
    ensures Mitre.Known(ALERT_TYPES[i].technique.value)
    ensures ALERT_TYPES[i].technique.value in TechniquesOf(ALERT_TYPES[i].behavior)
  {
  }

  method ToAlert(a: Attack) returns (alert: Alert, ghost i: nat)
    ensures Selected(ALERT_TYPES, a.behaviors, i)
    ensures alert.caption == if i < |ALERT_TYPES| then ALERT_TYPES[i].caption else SuspiciousLogin
    ensures alert.attackId == a.id && alert.riskScore == a.riskScore
    ensures Surfaces(alert, a, i)
  {
    var techniques := Mitre.Resolve(a.techniques);
    var k := Select(ALERT_TYPES, a.behaviors);
    i := k;
    var caption, preferred := SuspiciousLogin, None;
    if k < |ALERT_TYPES| {
      caption, preferred := ALERT_TYPES[k].caption, ALERT_TYPES[k].technique;
    }
    var mitre: Option<Mitre.Info> := if techniques == [] then None else Some(techniques[0]);
    if preferred.Some? {
      TableIsKnown(k);
      Mitre.ResolvedMembers(a.techniques, preferred.value);
      var found := Find(techniques, preferred.value);
      if found.None? {
        Mitre.ResolvedMembers([preferred.value], preferred.value);
        var fallback := Mitre.Resolve([preferred.value]);
        found := Find(fallback, preferred.value);
      }
      if found.Some? {
        mitre := found;
      }
    }
    alert := Alert(a.id, caption, a.riskScore, mitre);
  }

  /** The label and the technique that goes with it, by priority. */
  lemma CaptionByPriority(behaviors: seq<Tag>, i: nat)
    requires Selected(ALERT_TYPES, behaviors, i)
    ensures
      var caption := if i < |ALERT_TYPES| then ALERT_TYPES[i].caption else SuspiciousLogin;
      var technique := if i < |ALERT_TYPES| then ALERT_TYPES[i].technique else None;
      (caption, technique) ==
        if Cryptomining in behaviors then (CryptominingAlert, Some(T1496))
        else if ToolTransfer in behaviors then (MalwareDownloadAlert, Some(T1105))
        else if SshKeyPersistence in behaviors then (PersistenceAttemptAlert, Some(T1098_004))
        else if CronPersistence in behaviors then (PersistenceAttemptAlert, Some(T1053_003))
        else if DisableDefenses in behaviors then (DefenseEvasionAlert, Some(T1562_001))
        else if AccountDiscovery in behaviors then (CredentialAccessAlert, Some(T1087))
        else if KnownMaliciousSource in behaviors then (KnownMaliciousIpAlert, None)
        else if BruteForce in behaviors then (BruteForceAlert, Some(T1110))
        else (SuspiciousLogin, None)
  {
    TableSize();
    PriorityAt(0, behaviors, i);
    PriorityAt(1, behaviors, i);
    PriorityAt(2, behaviors, i);
    PriorityAt(3, behaviors, i);
    PriorityAt(4, behaviors, i);
    PriorityAt(5, behaviors, i);
    PriorityAt(6, behaviors, i);
    PriorityAt(7, behaviors, i);
  }

  lemma TableSize()
    ensures |ALERT_TYPES| == 8
  {
  }

  lemma PriorityAt(k: nat, behaviors: seq<Tag>, i: nat)
    requires k < 8 && |ALERT_TYPES| == 8 && Selected(ALERT_TYPES, behaviors, i)
    ensures k < i ==> ALERT_TYPES[k].behavior !in behaviors
    ensures k == i ==> ALERT_TYPES[k].behavior in behaviors
  {
  }

  /** The technique shown is one of the attack's own: the one of the selected entry when it names
      one, the first one otherwise, none only when the attack has none; and resolving the attack's
      techniques drops none. */
  ghost predicate MatchesAttack(alert: Alert, a: Attack, i: nat) {
    var infos := Mitre.Resolved(a.techniques);
    (i < |ALERT_TYPES| && ALERT_TYPES[i].technique.Some? ==>
       ALERT_TYPES[i].technique.value in a.techniques && alert.mitre.Some? &&
       alert.mitre.value.technique == ALERT_TYPES[i].technique.value) &&
    (alert.mitre.Some? ==> alert.mitre.value in infos && alert.mitre.value.technique in a.techniques) &&
    (alert.mitre.None? ==> a.techniques == []) &&
    (a.techniques != [] && (i >= |ALERT_TYPES| || ALERT_TYPES[i].technique.None?) ==>
       alert.mitre.Some? && alert.mitre.value.technique == a.techniques[0]) &&
    |infos| == |a.techniques|
  }

  /** For a pipeline-written attack the alert matches it: the catalogue fallback is never taken. */
  lemma AlertMatchesAttack(a: Attack, alert: Alert, i: nat)
    requires Tagged(a) && Selected(ALERT_TYPES, a.behaviors, i) && Surfaces(alert, a, i)
    ensures MatchesAttack(alert, a, i)
  {
    Mitre.ResolveKeepsAll(a.techniques);
    if i < |ALERT_TYPES| && ALERT_TYPES[i].technique.Some? {
      TableIsKnown(i);
    }
  }

  /** The same for every attack of every reachable database. */
  lemma {:induction false} ReachableAlertsMatch(es: seq<Event>, n: nat, alert: Alert, i: nat)
    requires n < |Run(EMPTY, es).attacks|
    requires Selected(ALERT_TYPES, Run(EMPTY, es).attacks[n].behaviors, i)
    requires Surfaces(alert, Run(EMPTY, es).attacks[n], i)
    ensures MatchesAttack(alert, Run(EMPTY, es).attacks[n], i)
  {
    ReachableIsTagged(es, n);
    AlertMatchesAttack(Run(EMPTY, es).attacks[n], alert, i);
  }
}
