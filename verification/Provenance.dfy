/** Where stored attacks come from, and what that says about every row of a reachable database. */
module Provenance {
  import opened Lists
  import opened Intel
  import opened Store
  import opened Ingest
  import opened History
  import Behavior
  import Risk
  import Mitre
  import Stats

  /** The captures that commit, in order. */
  function Captures(es: seq<Event>): seq<Event> {
    if es == [] then []
    else
      var e := es[|es| - 1];
      Captures(es[..|es| - 1]) + (if e.Captured? then [e] else [])
  }

  lemma {:induction false} CaptureMembers(es: seq<Event>)
    ensures forall e :: e in Captures(es) ==> e in es && e.Captured?
  {
    if es != [] {
      CaptureMembers(es[..|es| - 1]);
      Snoc(es);
    }
  }

  /** Row `i` is written by capture `i`, on the history of the rows stored before it. */
  ghost predicate AllFrom(attacks: seq<Attack>, captures: seq<Event>) {
    |attacks| == |captures| &&
    forall i :: 0 <= i < |attacks| ==> captures[i].Captured? && WrittenBy(attacks[i], captures[i], attacks[..i])
  }

  lemma EarlierRow(attacks: seq<Attack>, captures: seq<Event>, a: Attack, e: Event, i: nat)
    requires AllFrom(attacks, captures) && i < |attacks|
    ensures (captures + [e])[i] == captures[i] && captures[i].Captured?
    ensures WrittenBy((attacks + [a])[i], captures[i], (attacks + [a])[..i])
  {
    assert (attacks + [a])[..i] == attacks[..i];
  }

  lemma LatestRow(attacks: seq<Attack>, captures: seq<Event>, a: Attack, e: Event)
    requires |attacks| == |captures| && e.Captured? && WrittenBy(a, e, attacks)
    ensures (captures + [e])[|attacks|] == e
    ensures WrittenBy((attacks + [a])[|attacks|], e, (attacks + [a])[..|attacks|])
  {
    assert (attacks + [a])[..|attacks|] == attacks;
  }

  lemma AllFromLast(attacks: seq<Attack>, captures: seq<Event>, a: Attack, e: Event)
    requires AllFrom(attacks, captures) && e.Captured? && WrittenBy(a, e, attacks)
    ensures AllFrom(attacks + [a], captures + [e])
  {
    LatestRow(attacks, captures, a, e);
    forall i: nat | i < |attacks|
      ensures (captures + [e])[i].Captured?
      ensures WrittenBy((attacks + [a])[i], (captures + [e])[i], (attacks + [a])[..i])
    {
      EarlierRow(attacks, captures, a, e, i);
    }
  }

  lemma StepKeepsFrom(db: Tables, captures: seq<Event>, e: Event)
    requires AllFrom(db.attacks, captures)
    ensures AllFrom(Step(db, e).attacks, if e.Captured? then captures + [e] else captures)
  {
    StepStores(db, e);
    if e.Captured? {
      AllFromLast(db.attacks, captures, Step(db, e).attacks[|db.attacks|], e);
    }
  }

  lemma CapturesLast(es: seq<Event>, n: nat)
    requires |es| == n + 1
    ensures Captures(es) == if es[n].Captured? then Captures(es[..n]) + [es[n]] else Captures(es[..n])
  {
  }

  /** The attacks of a reachable database are exactly the run's captures in order, each with the
      verdict that the rows stored before it give. */
  lemma {:induction false} AllWritten(es: seq<Event>)
    ensures AllFrom(Run(EMPTY, es).attacks, Captures(es))
  {
    if es != [] {
      var n := |es| - 1;
      AllWritten(es[..n]);
      StepKeepsFrom(Run(EMPTY, es[..n]), Captures(es[..n]), es[n]);
      RunLast(EMPTY, es, n);
      CapturesLast(es, n);
    }
  }

  /** Row `i` of a reachable database is the assessment of a capture of the run. */
  lemma RowIsAssessed(es: seq<Event>, i: nat) returns (e: Event, prior: nat)
    requires i < |Run(EMPTY, es).attacks|
    ensures e in es && e.Captured?
    ensures
      var a := Run(EMPTY, es).attacks[i];
      a == Assessed(e.p, e.c, prior).(id := a.id, incidentId := a.incidentId)
  {
    AllWritten(es);
    e := Captures(es)[i];
    prior := PriorAttempts(e.p.cfg, Run(EMPTY, es).attacks[..i], e.c.sourceIp, e.c.timestamp);
    CaptureMembers(es);
  }

  // ------------------------------------------------------------ consequences

  /** The stored score and level can be recomputed from the stored tags and the origin alone,
      and the explanation reported with it sums up to it. */
  lemma StoredVerdict(p: Pipeline, c: Capture, prior: nat)
    ensures
      var a := Assessed(p, c, prior);
      a.riskScore == Clamp(0, 100,
        Risk.TagScore(p.cfg, Risk.TagSet(a.behaviors), Risk.Foreign(p, p.world.enrich(a.sourceIp)))) &&
      a.riskLevel == p.cfg.LevelFor(a.riskScore) &&
      a.riskScore == Clamp(0, 100, Sum(Risk.Points(Risk.Explained(p, RiskContext(p, c, prior), Risk.REASONS))))
  {
    Risk.ScoreFromTags(p, BehaviorContext(p, c, prior), p.world.enrich(c.sourceIp));
  }

  /** Tags and techniques fit together: each tag carries all its techniques, each technique
      comes from a tag, nothing is listed twice and everything is in the catalogue. */
  ghost predicate Tagged(a: Attack) { Fit(a.behaviors, a.techniques) }

  ghost predicate Fit(behaviors: seq<Tag>, techniques: seq<Technique>) {
    NoDup(behaviors) && NoDup(techniques) &&
    (forall t :: t in techniques ==> Mitre.Known(t)) &&
    (forall t :: t in techniques <==> exists tag :: tag in behaviors && t in TechniquesOf(tag))
  }

  lemma PublishedAreKnown(tag: Tag, t: Technique)
    requires t in TechniquesOf(tag)
    ensures Mitre.Known(t)
  {
  }

  lemma DetectionFits(p: Pipeline, b: Behavior.Context)
    ensures Fit(Behavior.Behaviors(p, b), Behavior.Coverage(p, b))
  {
    Behavior.TagPresentIff(p, b, BruteForce);
    forall t
      ensures t in Behavior.Coverage(p, b) <==> exists tag :: tag in Behavior.Behaviors(p, b) && t in TechniquesOf(tag)
      ensures t in Behavior.Coverage(p, b) ==> Mitre.Known(t)
    {
      Behavior.TechniquePresentIff(p, b, t);
      if t in Behavior.Coverage(p, b) {
        var tag :| tag in Behavior.Behaviors(p, b) && t in TechniquesOf(tag);
        PublishedAreKnown(tag, t);
      }
    }
  }

  lemma AssessedIsTagged(p: Pipeline, c: Capture, prior: nat)
    ensures Tagged(Assessed(p, c, prior))
  {
    DetectionFits(p, BehaviorContext(p, c, prior));
  }

  lemma {:induction false} ReachableIsTagged(es: seq<Event>, i: nat)
    requires i < |Run(EMPTY, es).attacks|
    ensures Tagged(Run(EMPTY, es).attacks[i])
  {
    var e, prior := RowIsAssessed(es, i);
    AssessedIsTagged(e.p, e.c, prior);
  }

  ghost predicate DefaultLevels(es: seq<Event>) {
    forall i :: 0 <= i < |es| && es[i].Captured? ==> es[i].p.cfg.lowMax == 30 && es[i].p.cfg.mediumMax == 70
  }

  /** Histogram conservation on every reachable database; the level counts match the buckets
      when every pipeline instance ran with the default bands. */
  lemma {:induction false} ReachableDistribution(es: seq<Event>)
    ensures
      var attacks := Run(EMPTY, es).attacks;
      Stats.Histogram(attacks, 0, 10) == |attacks| &&
      Stats.OfLevel(attacks, Low) + Stats.OfLevel(attacks, Medium) + Stats.OfLevel(attacks, High) == |attacks|
    ensures DefaultLevels(es) ==>
      var attacks := Run(EMPTY, es).attacks;
      Stats.OfLevel(attacks, Low) == Stats.Histogram(attacks, 0, 3) &&
      Stats.OfLevel(attacks, Medium) == Stats.Histogram(attacks, 3, 7) &&
      Stats.OfLevel(attacks, High) == Stats.Histogram(attacks, 7, 10)
  {
    var attacks := Run(EMPTY, es).attacks;
    RunKeepsCore(EMPTY, es);
    Stats.DistributionConserves(attacks);
    if DefaultLevels(es) {
      forall i | 0 <= i < |attacks|
        ensures attacks[i].riskLevel ==
          if attacks[i].riskScore <= 30 then Low else if attacks[i].riskScore <= 70 then Medium else High
      {
        LevelIsDefault(es, i);
      }
      Stats.LevelsAreBuckets(attacks);
    }
  }

  lemma LevelIsDefault(es: seq<Event>, i: nat)
    requires DefaultLevels(es) && i < |Run(EMPTY, es).attacks|
    ensures
      var a := Run(EMPTY, es).attacks[i];
      a.riskLevel == if a.riskScore <= 30 then Low else if a.riskScore <= 70 then Medium else High
  {
    var e, prior := RowIsAssessed(es, i);
    StoredVerdict(e.p, e.c, prior);
  }
}
