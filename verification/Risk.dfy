/** Risk scoring: an explained, clamped weighted sum. */
module Risk {
  import opened Lists
  import opened Intel
  import Behavior

  datatype Reason =
    | RepeatedAttempts
    | CommonBruteForceUsername
    | KnownMaliciousIp
    | ForeignAsn
    | MalwareDownload
    | PersistenceAttempt
    | Reconnaissance

  datatype Context = Context(
    enrichment: Enrichment,
    isMaliciousIp: bool,
    username: Option<string>,
    authAttempts: int,
    priorAttempts: int,
    behaviors: seq<Tag>)

  datatype Result = Result(score: int, level: Level, reasons: seq<(Reason, int)>)

  predicate Foreign(p: Pipeline, e: Enrichment) {
    !e.isPrivate && Truthy(e.country) &&
    (p.cfg.homeCountries == {} || p.world.lower(e.country.value) !in p.cfg.homeCountries)
  }

  const REASONS: nat := 7

  /** The reasons in the order in which the engine considers them. */
  function NthReason(n: nat): Reason
    requires n < REASONS
  {
    match n
    case 0 => RepeatedAttempts
    case 1 => CommonBruteForceUsername
    case 2 => KnownMaliciousIp
    case 3 => ForeignAsn
    case 4 => MalwareDownload
    case 5 => PersistenceAttempt
    case _ => Reconnaissance
  }

  function Weight(cfg: Config, r: Reason): int {
    match r
    case RepeatedAttempts => cfg.weightRepeated
    case CommonBruteForceUsername => cfg.weightUsername
    case KnownMaliciousIp => cfg.weightMalicious
    case ForeignAsn => cfg.weightForeign
    case MalwareDownload => cfg.weightMalware
    case PersistenceAttempt => cfg.weightPersistence
    case Reconnaissance => cfg.weightRecon
  }

  predicate Escalates(r: Reason, tag: Tag) {
    match r
    case MalwareDownload => tag in {ToolTransfer, Cryptomining}
    case PersistenceAttempt => tag in {SshKeyPersistence, CronPersistence}
    case Reconnaissance => tag in {SystemDiscovery, UserDiscovery, AccountDiscovery, RemoteDiscovery}
    case _ => false
  }

  /** Whether a reason applies, as the engine decides it from the raw session. */
  predicate Applies(p: Pipeline, ctx: Context, r: Reason) {
    match r
    case RepeatedAttempts =>
      ctx.priorAttempts > 0 || ctx.authAttempts + ctx.priorAttempts >= p.cfg.repeatedThreshold
    case CommonBruteForceUsername => Behavior.CommonUsername(p, ctx.username)
    case KnownMaliciousIp => ctx.isMaliciousIp
    case ForeignAsn => Foreign(p, ctx.enrichment)
    case _ => exists i :: 0 <= i < |ctx.behaviors| && Escalates(r, ctx.behaviors[i])
  }

  function TagSet(tags: seq<Tag>): set<Tag> { set t | t in tags }

  /** Whether a reason applies, read off stored tags and the foreign flag. */
  predicate AppliesByTags(tags: set<Tag>, foreign: bool, r: Reason) {
    match r
    case RepeatedAttempts => BruteForce in tags || RepeatOffender in tags
    case CommonBruteForceUsername => CommonCredentialUse in tags
    case KnownMaliciousIp => KnownMaliciousSource in tags
    case ForeignAsn => foreign
    case MalwareDownload => ToolTransfer in tags || Cryptomining in tags
    case PersistenceAttempt => SshKeyPersistence in tags || CronPersistence in tags
    case Reconnaissance =>
      SystemDiscovery in tags || UserDiscovery in tags || AccountDiscovery in tags || RemoteDiscovery in tags
  }

  predicate Escalation(r: Reason) { r.MalwareDownload? || r.PersistenceAttempt? || r.Reconnaissance? }

  /** An escalation applies exactly when one of its tags is in the set. */
  lemma EscalationFromTags(tags: seq<Tag>, foreign: bool, r: Reason)
    requires Escalation(r)
    ensures (exists i :: 0 <= i < |tags| && Escalates(r, tags[i])) <==> AppliesByTags(TagSet(tags), foreign, r)
  {
    if AppliesByTags(TagSet(tags), foreign, r) {
      var t := match r
        case MalwareDownload => if ToolTransfer in tags then ToolTransfer else Cryptomining
        case PersistenceAttempt => if SshKeyPersistence in tags then SshKeyPersistence else CronPersistence
        case _ => if SystemDiscovery in tags then SystemDiscovery else if UserDiscovery in tags then UserDiscovery
                  else if AccountDiscovery in tags then AccountDiscovery else RemoteDiscovery;
      var i :| 0 <= i < |tags| && tags[i] == t;
      assert Escalates(r, tags[i]);
    } else {
      forall i | 0 <= i < |tags| ensures !Escalates(r, tags[i]) {
        assert tags[i] in TagSet(tags);
      }
    }
  }

  function Points(reasons: seq<(Reason, int)>): seq<int> {
    seq(|reasons|, i requires 0 <= i < |reasons| => reasons[i].1)
  }

  /** The explanation: each applicable reason among the first `n` with its weight, zero weights left out. */
  function Explained(p: Pipeline, ctx: Context, n: nat): seq<(Reason, int)>
    requires n <= REASONS
  {
    if n == 0 then []
    else
      var r := NthReason(n - 1);
      Explained(p, ctx, n - 1) +
      (if Applies(p, ctx, r) && Weight(p.cfg, r) != 0 then [(r, Weight(p.cfg, r))] else [])
  }

  /** The place of a reason in the explanation. */
  function ReasonNo(r: Reason): nat {
    match r
    case RepeatedAttempts => 0
    case CommonBruteForceUsername => 1
    case KnownMaliciousIp => 2
    case ForeignAsn => 3
    case MalwareDownload => 4
    case PersistenceAttempt => 5
    case Reconnaissance => 6
  }

  /** Every applicable reason of non-zero weight is listed with its weight, and nothing else is. */
  lemma {:induction false} ExplainedMembers(p: Pipeline, ctx: Context, n: nat, r: Reason, w: int)
    requires n <= REASONS
    ensures (r, w) in Explained(p, ctx, n) <==> ReasonNo(r) < n && Applies(p, ctx, r) && w == Weight(p.cfg, r) && w != 0
  {
    if n != 0 { ExplainedMembers(p, ctx, n - 1, r, w); }
  }

  /** The list follows the engine's order, so no reason is listed twice. */
  lemma {:induction false} ExplainedInOrder(p: Pipeline, ctx: Context, n: nat)
    requires n <= REASONS
    ensures forall i, j :: 0 <= i < j < |Explained(p, ctx, n)| ==>
      ReasonNo(Explained(p, ctx, n)[i].0) < ReasonNo(Explained(p, ctx, n)[j].0)
  {
    if n != 0 {
      ExplainedInOrder(p, ctx, n - 1);
      var before := Explained(p, ctx, n - 1);
      forall i | 0 <= i < |before| ensures ReasonNo(before[i].0) < n - 1 {
        assert before[i] == (before[i].0, before[i].1) && before[i] in before;
        ExplainedMembers(p, ctx, n - 1, before[i].0, before[i].1);
      }
    }
  }

  // ------------------------------------------------------------- the engine

  /** The running score and its explanation. */
  class Tally {
    var score: int
    var reasons: seq<(Reason, int)>

    constructor ()
      ensures score == 0 && reasons == []
    {
      score, reasons := 0, [];
    }

    method Add(reason: Reason, points: int)
      modifies this
      ensures score == old(score) + points
      ensures reasons == old(reasons) + (if points != 0 then [(reason, points)] else [])
    {
      if points != 0 {
        score := score + points;
        reasons := reasons + [(reason, points)];
      }
    }
  }

  ghost predicate Explains(t: Tally, p: Pipeline, ctx: Context, n: nat)
    requires n <= REASONS
    reads t
  {
    t.reasons == Explained(p, ctx, n) && t.score == Sum(Points(t.reasons))
  }

  lemma PointsAppend(reasons: seq<(Reason, int)>, r: (Reason, int))
    ensures Sum(Points(reasons + [r])) == Sum(Points(reasons)) + r.1
  {
    assert Points(reasons + [r]) == Points(reasons) + [r.1];
    assert (Points(reasons) + [r.1])[..|reasons|] == Points(reasons);
  }

  /** One `if ...: add(reason, weight)` statement. */
  method Consider(t: Tally, applies: bool, reason: Reason, points: int, p: Pipeline, ghost ctx: Context, ghost n: nat)
    requires n < REASONS && reason == NthReason(n) && points == Weight(p.cfg, reason)
    requires applies == Applies(p, ctx, reason)
    requires Explains(t, p, ctx, n)
    modifies t
    ensures Explains(t, p, ctx, n + 1)
  {
    if applies {
      PointsAppend(t.reasons, (reason, points));
      t.Add(reason, points);
    }
    assert Explained(p, ctx, n) + [] == Explained(p, ctx, n);
  }

  method Score(p: Pipeline, ctx: Context) returns (result: Result)
    ensures result.reasons == Explained(p, ctx, REASONS)
    ensures result.score == Clamp(0, 100, Sum(Points(result.reasons)))
    ensures result.level == p.cfg.LevelFor(result.score)
  {
    var cfg := p.cfg;
    var t := new Tally();
    var repeated := ctx.priorAttempts > 0 || ctx.authAttempts + ctx.priorAttempts >= cfg.repeatedThreshold;
    Consider(t, repeated, RepeatedAttempts, cfg.weightRepeated, p, ctx, 0);
    Consider(t, Behavior.CommonUsername(p, ctx.username), CommonBruteForceUsername, cfg.weightUsername, p, ctx, 1);
    Consider(t, ctx.isMaliciousIp, KnownMaliciousIp, cfg.weightMalicious, p, ctx, 2);
    Consider(t, Foreign(p, ctx.enrichment), ForeignAsn, cfg.weightForeign, p, ctx, 3);
    Escalate(p, ctx, t);
    var score := Clamp(0, 100, t.score);
    result := Result(score, cfg.LevelFor(score), t.reasons);
  }

  /** The behaviour-derived escalations. */
  method Escalate(p: Pipeline, ctx: Context, t: Tally)
    requires Explains(t, p, ctx, 4)
    modifies t
    ensures Explains(t, p, ctx, REASONS)
  {
    var cfg := p.cfg;
    var bs := TagSet(ctx.behaviors);
    EscalationFromTags(ctx.behaviors, false, MalwareDownload);
    EscalationFromTags(ctx.behaviors, false, PersistenceAttempt);
    EscalationFromTags(ctx.behaviors, false, Reconnaissance);
    Consider(t, ToolTransfer in bs || Cryptomining in bs, MalwareDownload, cfg.weightMalware, p, ctx, 4);
    Consider(t, SshKeyPersistence in bs || CronPersistence in bs, PersistenceAttempt, cfg.weightPersistence, p, ctx, 5);
    Consider(t, SystemDiscovery in bs || UserDiscovery in bs || AccountDiscovery in bs || RemoteDiscovery in bs,
             Reconnaissance, cfg.weightRecon, p, ctx, 6);
  }

  /** The score and level as values, for specifications. */
  function ScoreOf(p: Pipeline, ctx: Context): int { Clamp(0, 100, Sum(Points(Explained(p, ctx, REASONS)))) }

  // ------------------------------------------- the score as a weighted sum

  function If(b: bool, w: int): int { if b then w else 0 }

  /** The weighted sum over a set of behaviour tags and the foreign flag, nothing else. */
  function TagScore(cfg: Config, tags: set<Tag>, foreign: bool): int {
    If(BruteForce in tags || RepeatOffender in tags, cfg.weightRepeated) +
    If(CommonCredentialUse in tags, cfg.weightUsername) +
    If(KnownMaliciousSource in tags, cfg.weightMalicious) +
    If(foreign, cfg.weightForeign) +
    If(ToolTransfer in tags || Cryptomining in tags, cfg.weightMalware) +
    If(SshKeyPersistence in tags || CronPersistence in tags, cfg.weightPersistence) +
    If(SystemDiscovery in tags || UserDiscovery in tags || AccountDiscovery in tags || RemoteDiscovery in tags,
       cfg.weightRecon)
  }

  function TagsSum(cfg: Config, tags: set<Tag>, foreign: bool, n: nat): int
    requires n <= REASONS
  {
    if n == 0 then 0
    else TagsSum(cfg, tags, foreign, n - 1) +
         If(AppliesByTags(tags, foreign, NthReason(n - 1)), Weight(cfg, NthReason(n - 1)))
  }

  /** The two engines are given the same session, as the pipeline does. */
  function Session(p: Pipeline, b: Behavior.Context, e: Enrichment): Context {
    Context(e, b.isMaliciousIp, b.username, b.authAttempts, b.priorAttempts, Behavior.Behaviors(p, b))
  }

  lemma AuthTags(p: Pipeline, b: Behavior.Context)
    ensures
      var bs := Behavior.Behaviors(p, b);
      (BruteForce in bs <==> Behavior.Repeated(p, b)) && (RepeatOffender in bs <==> b.priorAttempts > 0) &&
      (CommonCredentialUse in bs <==> Behavior.CommonUsername(p, b.username)) &&
      (KnownMaliciousSource in bs <==> b.isMaliciousIp)
  {
    Behavior.TagIff(p, b, BruteForce);
    Behavior.TagIff(p, b, RepeatOffender);
    Behavior.TagIff(p, b, CommonCredentialUse);
    Behavior.TagIff(p, b, KnownMaliciousSource);
  }

  lemma AuthReasonFromTags(p: Pipeline, b: Behavior.Context, e: Enrichment, r: Reason)
    requires !Escalation(r)
    ensures Applies(p, Session(p, b, e), r)
       <==> AppliesByTags(TagSet(Behavior.Behaviors(p, b)), Foreign(p, e), r)
  {
    AuthTags(p, b);
  }

  /** Each reason applies exactly when the stored tags say so. */
  lemma ReasonFromTags(p: Pipeline, b: Behavior.Context, e: Enrichment, r: Reason)
    ensures Applies(p, Session(p, b, e), r)
       <==> AppliesByTags(TagSet(Behavior.Behaviors(p, b)), Foreign(p, e), r)
  {
    if Escalation(r) {
      EscalationFromTags(Behavior.Behaviors(p, b), Foreign(p, e), r);
    } else {
      AuthReasonFromTags(p, b, e, r);
    }
  }

  lemma {:induction false} SumFromTags(p: Pipeline, ctx: Context, tags: set<Tag>, foreign: bool, n: nat)
    requires n <= REASONS
    requires forall r :: Applies(p, ctx, r) <==> AppliesByTags(tags, foreign, r)
    ensures Sum(Points(Explained(p, ctx, n))) == TagsSum(p.cfg, tags, foreign, n)
  {
    if n != 0 {
      SumFromTags(p, ctx, tags, foreign, n - 1);
      var r := NthReason(n - 1);
      var before := Explained(p, ctx, n - 1);
      assert Applies(p, ctx, r) <==> AppliesByTags(tags, foreign, r);
      PointsAppend(before, (r, Weight(p.cfg, r)));
      assert before + [] == before;
    }
  }

  lemma TagsSumAll(cfg: Config, tags: set<Tag>, foreign: bool)
    ensures TagsSum(cfg, tags, foreign, REASONS) == TagScore(cfg, tags, foreign)
  {
    assert TagsSum(cfg, tags, foreign, 2) == TagsSum(cfg, tags, foreign, 1) +
      If(CommonCredentialUse in tags, cfg.weightUsername);
    assert TagsSum(cfg, tags, foreign, 4) == TagsSum(cfg, tags, foreign, 3) + If(foreign, cfg.weightForeign);
    assert TagsSum(cfg, tags, foreign, 6) == TagsSum(cfg, tags, foreign, 5) +
      If(SshKeyPersistence in tags || CronPersistence in tags, cfg.weightPersistence);
  }

  /** The score can be recomputed from the stored behaviour tags and the foreign flag
      alone, and lies in 0..100. */
  lemma {:induction false} ScoreFromTags(p: Pipeline, b: Behavior.Context, e: Enrichment)
    ensures ScoreOf(p, Session(p, b, e))
         == Clamp(0, 100, TagScore(p.cfg, TagSet(Behavior.Behaviors(p, b)), Foreign(p, e)))
    ensures 0 <= ScoreOf(p, Session(p, b, e)) <= 100
  {
    var tags := TagSet(Behavior.Behaviors(p, b));
    forall r ensures Applies(p, Session(p, b, e), r) <==> AppliesByTags(tags, Foreign(p, e), r) {
      ReasonFromTags(p, b, e, r);
    }
    SumFromTags(p, Session(p, b, e), tags, Foreign(p, e), REASONS);
    TagsSumAll(p.cfg, tags, Foreign(p, e));
  }
}
