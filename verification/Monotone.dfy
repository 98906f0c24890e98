/** More evidence never lowers the verdict. */
module Monotone {
  import opened Lists
  import opened Intel
  import opened Store
  import opened Ingest
  import opened History
  import Behavior
  import Risk

  /** `a` is obtained from `b` by deleting elements. */
  ghost predicate Subsequence<T>(a: seq<T>, b: seq<T>) {
    if a == [] then true
    else if b == [] then false
    else Subsequence(a, b[..|b| - 1]) || (a[|a| - 1] == b[|b| - 1] && Subsequence(a[..|a| - 1], b[..|b| - 1]))
  }

  lemma {:induction false} SubsequenceMembers<T>(a: seq<T>, b: seq<T>)
    requires Subsequence(a, b)
    ensures forall x :: x in a ==> x in b
  {
    if a != [] {
      var a', b' := a[..|a| - 1], b[..|b| - 1];
      assert a == a' + [a[|a| - 1]] && b == b' + [b[|b| - 1]];
      if Subsequence(a, b') { SubsequenceMembers(a, b'); } else { SubsequenceMembers(a', b'); }
    }
  }

  lemma {:induction false} SubsequenceCounts<T>(f: T -> bool, a: seq<T>, b: seq<T>)
    requires Subsequence(a, b)
    ensures Count(f, a) <= Count(f, b)
  {
    if a != [] {
      var a', b' := a[..|a| - 1], b[..|b| - 1];
      if Subsequence(a, b') { SubsequenceCounts(f, a, b'); } else { SubsequenceCounts(f, a', b'); }
    }
  }

  /** Inserting earlier in-window attacks anywhere raises the history by exactly their number. */
  lemma InsertedHistory(cfg: Config, before: seq<Attack>, extra: seq<Attack>, after: seq<Attack>,
                        ip: string, at: Instant)
    ensures PriorAttempts(cfg, before + extra + after, ip, at)
         == PriorAttempts(cfg, before + after, ip, at) + PriorAttempts(cfg, extra, ip, at)
  {
    var f := (a: Attack) => a.sourceIp == ip && at - cfg.historyWindowHours * HOUR <= a.timestamp < at;
    CountAppend(f, before + extra, after);
    CountAppend(f, before, extra);
    CountAppend(f, before, after);
  }

  ghost predicate WeightsNonNegative(cfg: Config) {
    forall r :: Risk.Weight(cfg, r) >= 0
  }

  /** The two pipelines differ only in that `q` knows more malicious addresses. */
  ghost predicate FlagsMore(p: Pipeline, q: Pipeline, ip: string) {
    q.cfg == p.cfg && q.world.search == p.world.search && q.world.lower == p.world.lower &&
    q.world.enrich == p.world.enrich &&
    (p.world.check(ip).isMalicious ==> q.world.check(ip).isMalicious)
  }

  ghost predicate MoreEvidence(a: Behavior.Context, b: Behavior.Context) {
    a.username == b.username &&
    (forall c :: c in a.commands ==> c in b.commands) &&
    a.authAttempts <= b.authAttempts && a.priorAttempts <= b.priorAttempts &&
    (a.isMaliciousIp ==> b.isMaliciousIp)
  }

  lemma WarrantedGrows(p: Pipeline, q: Pipeline, a: Behavior.Context, b: Behavior.Context, tag: Tag)
    requires q.cfg == p.cfg && q.world.search == p.world.search && q.world.lower == p.world.lower
    requires MoreEvidence(a, b) && Behavior.Warranted(p, a, tag)
    ensures Behavior.Warranted(q, b, tag)
  {
    if Behavior.CommandTag(tag) {
      var i :| 0 <= i < |a.commands| && p.world.search(tag, a.commands[i]);
      assert a.commands[i] in b.commands;
      var j :| 0 <= j < |b.commands| && b.commands[j] == a.commands[i];
      assert q.world.search(tag, b.commands[j]);
    } else if tag.PostAuthActivity? {
      assert a.commands[0] in b.commands;
    }
  }

  /** No behaviour and no technique disappears. */
  lemma DetectionGrows(p: Pipeline, q: Pipeline, a: Behavior.Context, b: Behavior.Context)
    requires q.cfg == p.cfg && q.world.search == p.world.search && q.world.lower == p.world.lower
    requires MoreEvidence(a, b)
    ensures forall tag :: tag in Behavior.Behaviors(p, a) ==> tag in Behavior.Behaviors(q, b)
    ensures forall t :: t in Behavior.Coverage(p, a) ==> t in Behavior.Coverage(q, b)
  {
    forall tag | tag in Behavior.Behaviors(p, a) ensures tag in Behavior.Behaviors(q, b) {
      Behavior.TagPresentIff(p, a, tag);
      WarrantedGrows(p, q, a, b, tag);
      Behavior.TagPresentIff(q, b, tag);
    }
    forall t | t in Behavior.Coverage(p, a) ensures t in Behavior.Coverage(q, b) {
      Behavior.TechniquePresentIff(p, a, t);
      Behavior.TechniquePresentIff(q, b, t);
    }
  }

  lemma TagScoreGrows(cfg: Config, s: set<Tag>, t: set<Tag>, foreign: bool)
    requires WeightsNonNegative(cfg) && s <= t
    ensures Risk.TagScore(cfg, s, foreign) <= Risk.TagScore(cfg, t, foreign)
  {
    assert Risk.Weight(cfg, Risk.RepeatedAttempts) >= 0 && Risk.Weight(cfg, Risk.CommonBruteForceUsername) >= 0 &&
           Risk.Weight(cfg, Risk.KnownMaliciousIp) >= 0 && Risk.Weight(cfg, Risk.MalwareDownload) >= 0 &&
           Risk.Weight(cfg, Risk.PersistenceAttempt) >= 0 && Risk.Weight(cfg, Risk.Reconnaissance) >= 0;
  }

  /** Levels follow scores for any thresholds, even crossed ones. */
  lemma LevelGrows(cfg: Config, s: int, t: int)
    requires s <= t
    ensures Rank(cfg.LevelFor(s)) <= Rank(cfg.LevelFor(t))
  {
  }

  lemma TagSetGrows(p: Pipeline, q: Pipeline, a: Behavior.Context, b: Behavior.Context)
    requires q.cfg == p.cfg && q.world.search == p.world.search && q.world.lower == p.world.lower
    requires MoreEvidence(a, b)
    ensures Risk.TagSet(Behavior.Behaviors(p, a)) <= Risk.TagSet(Behavior.Behaviors(q, b))
  {
    DetectionGrows(p, q, a, b);
  }

  lemma {:induction false} ScoreGrows(p: Pipeline, q: Pipeline, a: Behavior.Context, b: Behavior.Context, e: Enrichment)
    requires q.cfg == p.cfg && q.world.search == p.world.search && q.world.lower == p.world.lower
    requires WeightsNonNegative(p.cfg) && MoreEvidence(a, b)
    ensures Risk.ScoreOf(p, Risk.Session(p, a, e)) <= Risk.ScoreOf(q, Risk.Session(q, b, e))
  {
    var s, t := Risk.TagSet(Behavior.Behaviors(p, a)), Risk.TagSet(Behavior.Behaviors(q, b));
    TagSetGrows(p, q, a, b);
    Risk.ScoreFromTags(p, a, e);
    Risk.ScoreFromTags(q, b, e);
    TagScoreGrows(p.cfg, s, t, Risk.Foreign(p, e));
  }

  ghost predicate MoreActivity(c: Capture, c': Capture) {
    c'.sourceIp == c.sourceIp && c'.timestamp == c.timestamp && c'.username == c.username &&
    c.authAttempts <= c'.authAttempts && Subsequence(Texts(c.commands), Texts(c'.commands))
  }

  /** A committed capture of `ip` in the window. */
  predicate InWindow(e: Event, ip: string, from: Instant, before: Instant) {
    e.Captured? && e.c.sourceIp == ip && from <= e.c.timestamp < before
  }

  function CapturesIn(es: seq<Event>, ip: string, from: Instant, before: Instant): nat {
    Count((e: Event) => InWindow(e, ip, from, before), es)
  }

  lemma CapturesInLast(es: seq<Event>, n: nat, ip: string, from: Instant, before: Instant)
    requires |es| == n + 1
    ensures CapturesIn(es, ip, from, before)
         == CapturesIn(es[..n], ip, from, before) + (if InWindow(es[n], ip, from, before) then 1 else 0)
  {
  }

  lemma WindowAppend(attacks: seq<Attack>, a: Attack, ip: string, from: Instant, before: Instant)
    ensures CountWindow(attacks + [a], ip, from, before)
         == CountWindow(attacks, ip, from, before) +
            (if a.sourceIp == ip && from <= a.timestamp < before then 1 else 0)
  {
    assert (attacks + [a])[..|attacks|] == attacks;
  }

  lemma WrittenFields(a: Attack, e: Event, before: seq<Attack>)
    requires e.Captured? && WrittenBy(a, e, before)
    ensures a.sourceIp == e.c.sourceIp && a.timestamp == e.c.timestamp
  {
  }

  lemma StepCounts(db: Tables, e: Event, ip: string, from: Instant, before: Instant)
    ensures CountWindow(Step(db, e).attacks, ip, from, before)
         == CountWindow(db.attacks, ip, from, before) + (if InWindow(e, ip, from, before) then 1 else 0)
  {
    StepStores(db, e);
    if e.Captured? {
      var a := Step(db, e).attacks[|db.attacks|];
      WrittenFields(a, e, db.attacks);
      WindowAppend(db.attacks, a, ip, from, before);
    }
  }

  /** The history grows by exactly the committed captures of the IP, whatever else happens. */
  lemma {:induction false} RunCounts(db: Tables, es: seq<Event>, ip: string, from: Instant, before: Instant)
    ensures CountWindow(Run(db, es).attacks, ip, from, before)
         == CountWindow(db.attacks, ip, from, before) + CapturesIn(es, ip, from, before)
  {
    if es != [] {
      var n := |es| - 1;
      RunCounts(db, es[..n], ip, from, before);
      StepCounts(Run(db, es[..n]), es[n], ip, from, before);
      CapturesInLast(es, n, ip, from, before);
      RunLast(db, es, n);
    }
  }

  lemma WindowGrows(attacks: seq<Attack>, attacks': seq<Attack>, ip: string, from: Instant, before: Instant)
    requires Subsequence(attacks, attacks')
    ensures CountWindow(attacks, ip, from, before) <= CountWindow(attacks', ip, from, before)
  {
    SubsequenceCounts((a: Attack) => a.sourceIp == ip && from <= a.timestamp < before, attacks, attacks');
  }

  lemma CapturesGrow(es: seq<Event>, es': seq<Event>, ip: string, from: Instant, before: Instant)
    requires Subsequence(es, es')
    ensures CapturesIn(es, ip, from, before) <= CapturesIn(es', ip, from, before)
  {
    SubsequenceCounts((e: Event) => InWindow(e, ip, from, before), es, es');
  }

  /** No IP has fewer rows in any window. */
  ghost predicate Fewer(attacks: seq<Attack>, more: seq<Attack>) {
    forall ip, from, before :: CountWindow(attacks, ip, from, before) <= CountWindow(more, ip, from, before)
  }

  /** More rows to start from and more events give no shorter a history. */
  lemma RunsGrow(db: Tables, db': Tables, es: seq<Event>, es': seq<Event>)
    requires Subsequence(db.attacks, db'.attacks) && Subsequence(es, es')
    ensures Fewer(Run(db, es).attacks, Run(db', es').attacks)
  {
    forall ip, from, before
      ensures CountWindow(Run(db, es).attacks, ip, from, before) <= CountWindow(Run(db', es').attacks, ip, from, before)
    {
      RunCounts(db, es, ip, from, before);
      RunCounts(db', es', ip, from, before);
      WindowGrows(db.attacks, db'.attacks, ip, from, before);
      CapturesGrow(es, es', ip, from, before);
    }
  }

  lemma PriorGrows(p: Pipeline, db: Tables, db': Tables, c: Capture)
    requires Fewer(db.attacks, db'.attacks)
    ensures Prior(p, db, c) <= Prior(p, db', c)
  {
  }

  /** `a'` carries every tag and technique of `a`, and neither its score nor its level is lower. */
  ghost predicate NotLower(a: Attack, a': Attack) {
    (forall tag :: tag in a.behaviors ==> tag in a'.behaviors) &&
    (forall t :: t in a.techniques ==> t in a'.techniques) &&
    a.riskScore <= a'.riskScore && Rank(a.riskLevel) <= Rank(a'.riskLevel)
  }

  lemma {:induction false} VerdictGrowsAt(p: Pipeline, q: Pipeline, c: Capture, c': Capture, prior: nat, prior': nat)
    requires WeightsNonNegative(p.cfg) && FlagsMore(p, q, c.sourceIp) && MoreActivity(c, c') && prior <= prior'
    ensures NotLower(Assessed(p, c, prior), Assessed(q, c', prior'))
  {
    var b, b', e := BehaviorContext(p, c, prior), BehaviorContext(q, c', prior'), p.world.enrich(c.sourceIp);
    SubsequenceMembers(Texts(c.commands), Texts(c'.commands));
    assert MoreEvidence(b, b');
    DetectionGrows(p, q, b, b');
    ScoreGrows(p, q, b, b', e);
    LevelGrows(p.cfg, Risk.ScoreOf(p, Risk.Session(p, b, e)), Risk.ScoreOf(q, Risk.Session(q, b', e)));
  }

  lemma VerdictGrowsFrom(p: Pipeline, q: Pipeline, db: Tables, db': Tables, c: Capture, c': Capture)
    requires WeightsNonNegative(p.cfg) && FlagsMore(p, q, c.sourceIp) && MoreActivity(c, c')
    requires Fewer(db.attacks, db'.attacks)
    ensures NotLower(Assessed(p, c, Prior(p, db, c)), Assessed(q, c', Prior(q, db', c')))
  {
    PriorGrows(p, db, db', c);
    VerdictGrowsAt(p, q, c, c', Prior(p, db, c), Prior(q, db', c'));
  }

  /** Monotone risk, over runs: inserting events anywhere in the run or rows into the tables it
      starts from, adding commands, raising the attempts or flagging the address never removes a
      tag or technique from the attack that is stored, and never lowers its score or level. */
  lemma VerdictGrows(p: Pipeline, q: Pipeline, db: Tables, db': Tables,
                     es: seq<Event>, es': seq<Event>, c: Capture, c': Capture)
    requires WeightsNonNegative(p.cfg) && FlagsMore(p, q, c.sourceIp) && MoreActivity(c, c')
    requires Subsequence(db.attacks, db'.attacks) && Subsequence(es, es')
    ensures NotLower(Assessed(p, c, Prior(p, Run(db, es), c)), Assessed(q, c', Prior(q, Run(db', es'), c')))
  {
    RunsGrow(db, db', es, es');
    VerdictGrowsFrom(p, q, Run(db, es), Run(db', es'), c, c');
  }
}
