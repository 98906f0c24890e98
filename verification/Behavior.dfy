/** Behaviour detection: tags and techniques of one captured session. */
module Behavior {
  import opened Lists
  import opened Intel

  datatype Context = Context(
    username: Option<string>,
    commands: seq<string>,
    authAttempts: int,
    priorAttempts: int,
    isMaliciousIp: bool)

  // -------------------------------------------------- what a session raises

  function When(b: bool, r: Rule): seq<Rule> { if b then [r] else [] }

  predicate CommonUsername(p: Pipeline, username: Option<string>) {
    Truthy(username) && p.world.lower(username.value) in p.cfg.bruteForceUsernames
  }

  predicate Repeated(p: Pipeline, ctx: Context) {
    ctx.authAttempts + ctx.priorAttempts >= p.cfg.repeatedThreshold
  }

  function AuthRules(p: Pipeline, ctx: Context): seq<Rule> {
    When(CommonUsername(p, ctx.username), Rule(CommonCredentialUse, [T1078])) +
    When(Repeated(p, ctx), Rule(BruteForce, [T1110, T1110_001])) +
    When(ctx.priorAttempts > 0, Rule(RepeatOffender, [T1110])) +
    When(ctx.isMaliciousIp, Rule(KnownMaliciousSource, []))
  }

  /** The rules among `rules` whose pattern occurs in `command`. */
  function Matched(w: World, rules: seq<Rule>, command: string): seq<Rule> {
    Filter((r: Rule) => w.search(r.tag, command), rules)
  }

  function CommandRules(w: World, commands: seq<string>): seq<Rule> {
    if commands == [] then []
    else CommandRules(w, commands[..|commands| - 1]) + Matched(w, COMMAND_RULES, commands[|commands| - 1])
  }

  /** Every rule a session raises, in order, repetitions included. */
  function Raised(p: Pipeline, ctx: Context): seq<Rule> {
    AuthRules(p, ctx) + CommandRules(p.world, ctx.commands) +
    When(ctx.commands != [], Rule(PostAuthActivity, [T1021_004]))
  }

  function Tags(rules: seq<Rule>): seq<Tag> {
    if rules == [] then [] else Tags(rules[..|rules| - 1]) + [rules[|rules| - 1].tag]
  }

  function Techniques(rules: seq<Rule>): seq<Technique> {
    if rules == [] then [] else Techniques(rules[..|rules| - 1]) + rules[|rules| - 1].techniques
  }

  function Behaviors(p: Pipeline, ctx: Context): seq<Tag> { Dedup(Tags(Raised(p, ctx))) }

  function Coverage(p: Pipeline, ctx: Context): seq<Technique> { Dedup(Techniques(Raised(p, ctx))) }

  /** The techniques of one command. */
  function Classified(w: World, command: string): seq<Technique> {
    Dedup(Techniques(Matched(w, COMMAND_RULES, command)))
  }

  // ------------------------------------------------------------- the engine

  /** The accumulator of a detection. */
  class BehaviorResult {
    var behaviors: seq<Tag>
    var techniques: seq<Technique>

    constructor ()
      ensures behaviors == [] && techniques == []
    {
      behaviors, techniques := [], [];
    }

    ghost predicate Holds(rules: seq<Rule>)
      reads this
    {
      behaviors == Dedup(Tags(rules)) && techniques == Dedup(Techniques(rules))
    }

    method Add(behavior: Tag, techniqueIds: seq<Technique>)
      modifies this
      ensures behaviors == AddNew(old(behaviors), behavior)
      ensures techniques == AddAll(old(techniques), techniqueIds)
    {
      if behavior !in behaviors {
        behaviors := behaviors + [behavior];
      }
      for i := 0 to |techniqueIds|
        invariant behaviors == AddNew(old(behaviors), behavior)
        invariant techniques == AddAll(old(techniques), techniqueIds[..i])
      {
        assert techniqueIds[..i + 1][..i] == techniqueIds[..i];
        if techniqueIds[i] !in techniques {
          techniques := techniques + [techniqueIds[i]];
        }
      }
      assert techniqueIds[..|techniqueIds|] == techniqueIds;
    }
  }

  lemma RaiseOne(rules: seq<Rule>, r: Rule)
    ensures Dedup(Tags(rules + [r])) == AddNew(Dedup(Tags(rules)), r.tag)
    ensures Dedup(Techniques(rules + [r])) == AddAll(Dedup(Techniques(rules)), r.techniques)
  {
    assert (rules + [r])[..|rules|] == rules;
    DedupAppend(Tags(rules), r.tag);
    AddAllDedup(Techniques(rules), r.techniques);
  }

  method RaiseWhen(result: BehaviorResult, b: bool, r: Rule, ghost rules: seq<Rule>)
    requires result.Holds(rules)
    modifies result
    ensures result.Holds(rules + When(b, r))
  {
    if b {
      RaiseOne(rules, r);
      result.Add(r.tag, r.techniques);
    } else {
      assert rules + When(b, r) == rules;
    }
  }

  method Detect(p: Pipeline, ctx: Context) returns (result: BehaviorResult)
    ensures fresh(result)
    ensures result.behaviors == Behaviors(p, ctx)
    ensures result.techniques == Coverage(p, ctx)
  {
    result := new BehaviorResult();
    DetectAuth(p, ctx, result);
    ghost var auth := AuthRules(p, ctx);
    NoCommandsYet(p.world, ctx.commands, auth);
    for i := 0 to |ctx.commands|
      invariant result.Holds(auth + CommandRules(p.world, ctx.commands[..i]))
    {
      ApplyRules(result, p.world, COMMAND_RULES, ctx.commands[i], auth + CommandRules(p.world, ctx.commands[..i]));
      CommandRulesStep(p.world, ctx.commands, i, auth);
    }
    assert ctx.commands[..|ctx.commands|] == ctx.commands;
    RaiseWhen(result, ctx.commands != [], Rule(PostAuthActivity, [T1021_004]),
              auth + CommandRules(p.world, ctx.commands));
  }

  /** The authentication-driven part. */
  method DetectAuth(p: Pipeline, ctx: Context, result: BehaviorResult)
    requires result.Holds([])
    modifies result
    ensures result.Holds(AuthRules(p, ctx))
  {
    ghost var a := When(CommonUsername(p, ctx.username), Rule(CommonCredentialUse, [T1078]));
    RaiseWhen(result, CommonUsername(p, ctx.username), Rule(CommonCredentialUse, [T1078]), []);
    assert [] + a == a;
    ghost var b := a + When(Repeated(p, ctx), Rule(BruteForce, [T1110, T1110_001]));
    RaiseWhen(result, Repeated(p, ctx), Rule(BruteForce, [T1110, T1110_001]), a);
    ghost var c := b + When(ctx.priorAttempts > 0, Rule(RepeatOffender, [T1110]));
    RaiseWhen(result, ctx.priorAttempts > 0, Rule(RepeatOffender, [T1110]), b);
    RaiseWhen(result, ctx.isMaliciousIp, Rule(KnownMaliciousSource, []), c);
  }

  lemma NoCommandsYet(w: World, commands: seq<string>, rules: seq<Rule>)
    ensures rules + CommandRules(w, commands[..0]) == rules
  {
  }

  lemma CommandRulesStep(w: World, commands: seq<string>, i: nat, rules: seq<Rule>)
    requires i < |commands|
    ensures rules + CommandRules(w, commands[..i]) + Matched(w, COMMAND_RULES, commands[i])
         == rules + CommandRules(w, commands[..i + 1])
  {
    assert commands[..i + 1][..i] == commands[..i];
  }

  lemma MatchedStep(w: World, rules: seq<Rule>, command: string, j: nat, before: seq<Rule>)
    requires j < |rules|
    ensures before + Matched(w, rules[..j], command) + When(w.search(rules[j].tag, command), rules[j])
         == before + Matched(w, rules[..j + 1], command)
  {
    assert rules[..j + 1][..j] == rules[..j];
  }

  /** The loop over the rules for one command. */
  method ApplyRules(result: BehaviorResult, w: World, rules: seq<Rule>, command: string, ghost before: seq<Rule>)
    requires result.Holds(before)
    modifies result
    ensures result.Holds(before + Matched(w, rules, command))
  {
    assert before + Matched(w, rules[..0], command) == before;
    for j := 0 to |rules|
      invariant result.Holds(before + Matched(w, rules[..j], command))
    {
      RaiseWhen(result, w.search(rules[j].tag, command), rules[j], before + Matched(w, rules[..j], command));
      MatchedStep(w, rules, command, j, before);
    }
    assert rules[..|rules|] == rules;
  }

  /** The techniques `rules` finds in one command. */
  method Classify(w: World, rules: seq<Rule>, command: string) returns (techniques: seq<Technique>)
    ensures techniques == Dedup(Techniques(Matched(w, rules, command)))
  {
    techniques := [];
    for j := 0 to |rules|
      invariant techniques == Dedup(Techniques(Matched(w, rules[..j], command)))
    {
      MatchedStep(w, rules, command, j, []);
      NoPrefix(Matched(w, rules[..j], command));
      NoPrefix(Matched(w, rules[..j + 1], command));
      if w.search(rules[j].tag, command) {
        RaiseOne(Matched(w, rules[..j], command), rules[j]);
        techniques := AppendNew(techniques, rules[j].techniques);
      } else {
        assert Matched(w, rules[..j], command) + [] == Matched(w, rules[..j], command);
      }
    }
    assert rules[..|rules|] == rules;
  }

  lemma NoPrefix(rules: seq<Rule>)
    ensures [] + rules == rules
  {
  }

  /** The inner loop: each technique unless already listed. */
  method AppendNew(techniques: seq<Technique>, techs: seq<Technique>) returns (more: seq<Technique>)
    ensures more == AddAll(techniques, techs)
  {
    more := techniques;
    for k := 0 to |techs|
      invariant more == AddAll(techniques, techs[..k])
    {
      assert techs[..k + 1][..k] == techs[..k];
      if techs[k] !in more {
        more := more + [techs[k]];
      }
    }
    assert techs[..|techs|] == techs;
  }

  method ClassifyCommand(w: World, command: string) returns (techniques: seq<Technique>)
    ensures techniques == Classified(w, command)
  {
    techniques := Classify(w, COMMAND_RULES, command);
  }

  // -------------------------------------------- factoring through one command

  lemma TechniquesSnoc(a: seq<Rule>, r: Rule)
    ensures Techniques(a + [r]) == Techniques(a) + r.techniques
  {
    assert (a + [r])[..|a|] == a;
  }

  lemma {:induction false} TechniquesAppend(a: seq<Rule>, b: seq<Rule>)
    ensures Techniques(a + b) == Techniques(a) + Techniques(b)
  {
    if b == [] {
      assert a + b == a;
    } else {
      var p, r := b[..|b| - 1], b[|b| - 1];
      TechniquesAppend(a, p);
      SplitLast(a, b);
      TechniquesSnoc(a + p, r);
      Assoc(Techniques(a), Techniques(p), r.techniques);
    }
  }

  /** The techniques of the authentication signals alone. */
  function AuthTechniques(p: Pipeline, ctx: Context): seq<Technique> { Techniques(AuthRules(p, ctx)) }

  function PerCommand(w: World, commands: seq<string>): seq<seq<Technique>> {
    seq(|commands|, i requires 0 <= i < |commands| => Classified(w, commands[i]))
  }

  /** `detect` sees each command exactly as `classify_command` does. */
  lemma DetectionFactors(p: Pipeline, ctx: Context)
    ensures Coverage(p, ctx)
         == Dedup(AuthTechniques(p, ctx) + Flatten(PerCommand(p.world, ctx.commands)) +
                  (if ctx.commands != [] then [T1021_004] else []))
  {
    var post := When(ctx.commands != [], Rule(PostAuthActivity, [T1021_004]));
    var auth, cmds := AuthRules(p, ctx), CommandRules(p.world, ctx.commands);
    TechniquesAppend(auth + cmds, post);
    TechniquesAppend(auth, cmds);
    CommandFactors(p.world, Techniques(auth), ctx.commands);
    var x := Techniques(auth) + Techniques(cmds);
    var y := Techniques(auth) + Flatten(PerCommand(p.world, ctx.commands));
    DedupLeft(x, Techniques(post));
    DedupLeft(y, Techniques(post));
    assert Techniques(post) == if ctx.commands != [] then [T1021_004] else [];
  }

  lemma CommandFactors(w: World, a: seq<Technique>, commands: seq<string>)
    ensures Dedup(a + Techniques(CommandRules(w, commands))) == Dedup(a + Flatten(PerCommand(w, commands)))
  {
    CommandTechniques(w, commands);
    DedupFlatten(a, RawPerCommand(w, commands), PerCommand(w, commands));
  }

  function RawPerCommand(w: World, commands: seq<string>): seq<seq<Technique>> {
    seq(|commands|, i requires 0 <= i < |commands| => Techniques(Matched(w, COMMAND_RULES, commands[i])))
  }

  lemma {:induction false} CommandTechniques(w: World, commands: seq<string>)
    ensures Techniques(CommandRules(w, commands)) == Flatten(RawPerCommand(w, commands))
  {
    if commands != [] {
      var n := |commands| - 1;
      CommandTechniques(w, commands[..n]);
      TechniquesAppend(CommandRules(w, commands[..n]), Matched(w, COMMAND_RULES, commands[n]));
      assert RawPerCommand(w, commands)[..n] == RawPerCommand(w, commands[..n]);
    }
  }

  // --------------------------------------- tags, their causes and techniques

  /** When a tag is warranted, read off the session alone. */
  ghost predicate Warranted(p: Pipeline, ctx: Context, tag: Tag) {
    match tag
    case CommonCredentialUse => CommonUsername(p, ctx.username)
    case BruteForce => Repeated(p, ctx)
    case RepeatOffender => ctx.priorAttempts > 0
    case KnownMaliciousSource => ctx.isMaliciousIp
    case PostAuthActivity => ctx.commands != []
    case _ => exists i :: 0 <= i < |ctx.commands| && p.world.search(tag, ctx.commands[i])
  }

  ghost predicate Occurs(rules: seq<Rule>, tag: Tag) { exists i :: 0 <= i < |rules| && rules[i].tag == tag }

  /** Every rule in the list carries exactly the published techniques of its tag. */
  ghost predicate Published(rules: seq<Rule>) {
    forall i :: 0 <= i < |rules| ==> forall t :: t in rules[i].techniques <==> t in TechniquesOf(rules[i].tag)
  }

  lemma {:induction false} TagsMembers(rules: seq<Rule>, tag: Tag)
    ensures tag in Tags(rules) <==> Occurs(rules, tag)
  {
    if rules != [] {
      var n := |rules| - 1;
      TagsMembers(rules[..n], tag);
      if Occurs(rules[..n], tag) {
        var i :| 0 <= i < n && rules[..n][i].tag == tag;
        assert rules[i].tag == tag;
      }
      if Occurs(rules, tag) && rules[n].tag != tag {
        var i :| 0 <= i < |rules| && rules[i].tag == tag;
        assert rules[..n][i].tag == tag;
      }
    }
  }

  lemma {:induction false} TechniquesMembers(rules: seq<Rule>, t: Technique)
    requires Published(rules)
    ensures t in Techniques(rules) <==> exists tag :: tag in Tags(rules) && t in TechniquesOf(tag)
  {
    if rules != [] {
      var n := |rules| - 1;
      assert Published(rules[..n]);
      TechniquesMembers(rules[..n], t);
      assert rules[n].tag in Tags(rules);
      if t in rules[n].techniques {
        assert t in TechniquesOf(rules[n].tag);
      }
    }
  }

  lemma {:induction false} MatchedMeaning(w: World, rules: seq<Rule>, command: string, tag: Tag)
    requires Published(rules)
    ensures Published(Matched(w, rules, command))
    ensures Occurs(Matched(w, rules, command), tag) <==> Occurs(rules, tag) && w.search(tag, command)
  {
    if rules != [] {
      var n := |rules| - 1;
      var m, m' := Matched(w, rules, command), Matched(w, rules[..n], command);
      assert Published(rules[..n]);
      MatchedMeaning(w, rules[..n], command, tag);
      assert m == m' + (if w.search(rules[n].tag, command) then [rules[n]] else []);
      OccursAppend(m', if w.search(rules[n].tag, command) then [rules[n]] else [], tag);
      assert rules == rules[..n] + [rules[n]];
      OccursAppend(rules[..n], [rules[n]], tag);
      OccursOne(rules[n], tag);
    }
  }

  lemma OccursOne(r: Rule, tag: Tag)
    ensures Occurs([r], tag) <==> r.tag == tag
  {
    assert [r][0] == r;
  }

  lemma OccursAppend(a: seq<Rule>, b: seq<Rule>, tag: Tag)
    ensures Occurs(a + b, tag) <==> Occurs(a, tag) || Occurs(b, tag)
  {
    if Occurs(a, tag) {
      var i :| 0 <= i < |a| && a[i].tag == tag;
      assert (a + b)[i].tag == tag;
    }
    if Occurs(b, tag) {
      var i :| 0 <= i < |b| && b[i].tag == tag;
      assert (a + b)[|a| + i].tag == tag;
    }
  }

  predicate CommandTag(tag: Tag) {
    !tag.CommonCredentialUse? && !tag.BruteForce? && !tag.RepeatOffender? &&
    !tag.KnownMaliciousSource? && !tag.PostAuthActivity?
  }

  lemma CommandRuleTable(tag: Tag)
    ensures Published(COMMAND_RULES)
    ensures Occurs(COMMAND_RULES, tag) <==> CommandTag(tag)
  {
    CommandRulesPublished();
    if i :| 0 <= i < |COMMAND_RULES| && COMMAND_RULES[i].tag == tag {
      CommandRuleAt(i);
    }
    if CommandTag(tag) {
      var i := match tag
        case ToolTransfer => 0 case SystemDiscovery => 1 case UserDiscovery => 2 case AccountDiscovery => 3
        case SshKeyPersistence => 4 case CronPersistence => 5 case Cryptomining => 6 case DisableDefenses => 7
        case ScriptExecution => 8 case _ => 9;
      CommandRuleAt(i);
      assert COMMAND_RULES[i].tag == tag;
    }
  }

  lemma CommandRuleAt(i: nat)
    requires i < 10
    ensures |COMMAND_RULES| == 10
    ensures COMMAND_RULES[i].tag == [ToolTransfer, SystemDiscovery, UserDiscovery, AccountDiscovery, SshKeyPersistence,
        CronPersistence, Cryptomining, DisableDefenses, ScriptExecution, RemoteDiscovery][i]
    ensures |COMMAND_RULES[i].techniques| == 1
    ensures TechniquesOf(COMMAND_RULES[i].tag) == {COMMAND_RULES[i].techniques[0]}
    ensures CommandTag(COMMAND_RULES[i].tag)
  {
  }

  lemma CommandRulesPublished()
    ensures |COMMAND_RULES| == 10
    ensures Published(COMMAND_RULES)
  {
    forall i | 0 <= i < |COMMAND_RULES|
      ensures forall t :: t in COMMAND_RULES[i].techniques <==> t in TechniquesOf(COMMAND_RULES[i].tag)
    {
      CommandRuleAt(i);
      assert COMMAND_RULES[i].techniques == [COMMAND_RULES[i].techniques[0]];
    }
  }

  lemma {:induction false} CommandRulesMeaning(w: World, commands: seq<string>, tag: Tag)
    ensures Published(CommandRules(w, commands))
    ensures Occurs(CommandRules(w, commands), tag)
       <==> CommandTag(tag) && exists i :: 0 <= i < |commands| && w.search(tag, commands[i])
  {
    if commands != [] {
      var n := |commands| - 1;
      CommandRulesMeaning(w, commands[..n], tag);
      CommandRuleTable(tag);
      MatchedMeaning(w, COMMAND_RULES, commands[n], tag);
      OccursAppend(CommandRules(w, commands[..n]), Matched(w, COMMAND_RULES, commands[n]), tag);
      if i :| 0 <= i < n && w.search(tag, commands[i]) {
        assert commands[..n][i] == commands[i];
      }
    }
  }

  lemma RaisedMeaning(p: Pipeline, ctx: Context, tag: Tag)
    ensures Published(Raised(p, ctx))
    ensures Occurs(Raised(p, ctx), tag) <==> Warranted(p, ctx, tag)
  {
    RaisedParts(p, ctx, tag);
    AuthMeaning(p, ctx, tag);
    CommandRulesMeaning(p.world, ctx.commands, tag);
  }

  /** A tag comes from the authentication rules, the command rules or the closing rule. */
  lemma RaisedParts(p: Pipeline, ctx: Context, tag: Tag)
    ensures Published(Raised(p, ctx))
    ensures Occurs(Raised(p, ctx), tag)
       <==> Occurs(AuthRules(p, ctx), tag) || Occurs(CommandRules(p.world, ctx.commands), tag) ||
            (ctx.commands != [] && tag.PostAuthActivity?)
  {
    var auth, cmds := AuthRules(p, ctx), CommandRules(p.world, ctx.commands);
    AuthMeaning(p, ctx, tag);
    CommandRulesMeaning(p.world, ctx.commands, tag);
    OccursAppend(auth, cmds, tag);
    PublishedAppend(auth, cmds);
    WhenOccurs(auth + cmds, ctx.commands != [], Rule(PostAuthActivity, [T1021_004]), tag);
  }

  lemma PublishedAppend(a: seq<Rule>, b: seq<Rule>)
    requires Published(a) && Published(b)
    ensures Published(a + b)
  {
  }

  /** Appending a rule conditionally. */
  lemma WhenOccurs(rules: seq<Rule>, b: bool, r: Rule, tag: Tag)
    requires Published(rules) && forall t :: t in r.techniques <==> t in TechniquesOf(r.tag)
    ensures Published(rules + When(b, r))
    ensures Occurs(rules + When(b, r), tag) <==> Occurs(rules, tag) || (b && r.tag == tag)
  {
    OccursAppend(rules, When(b, r), tag);
    OccursOne(r, tag);
  }

  lemma AuthMeaning(p: Pipeline, ctx: Context, tag: Tag)
    ensures Published(AuthRules(p, ctx))
    ensures Occurs(AuthRules(p, ctx), tag) <==> !CommandTag(tag) && !tag.PostAuthActivity? && Warranted(p, ctx, tag)
  {
    FourRules(CommonUsername(p, ctx.username), Repeated(p, ctx), ctx.priorAttempts > 0, ctx.isMaliciousIp, tag);
  }

  /** The four conditional authentication rules. */
  lemma FourRules(u: bool, v: bool, w: bool, x: bool, tag: Tag)
    ensures
      var rules := When(u, Rule(CommonCredentialUse, [T1078])) + When(v, Rule(BruteForce, [T1110, T1110_001])) +
                   When(w, Rule(RepeatOffender, [T1110])) + When(x, Rule(KnownMaliciousSource, []));
      Published(rules) &&
      (Occurs(rules, tag) <==>
        (u && tag.CommonCredentialUse?) || (v && tag.BruteForce?) || (w && tag.RepeatOffender?) ||
        (x && tag.KnownMaliciousSource?))
  {
    var r1, r2 := Rule(CommonCredentialUse, [T1078]), Rule(BruteForce, [T1110, T1110_001]);
    var r3, r4 := Rule(RepeatOffender, [T1110]), Rule(KnownMaliciousSource, []);
    WhenOccurs([], u, r1, tag);
    assert [] + When(u, r1) == When(u, r1);
    WhenOccurs(When(u, r1), v, r2, tag);
    WhenOccurs(When(u, r1) + When(v, r2), w, r3, tag);
    WhenOccurs(When(u, r1) + When(v, r2) + When(w, r3), x, r4, tag);
  }

  lemma TagIff(p: Pipeline, ctx: Context, tag: Tag)
    ensures tag in Behaviors(p, ctx) <==> Warranted(p, ctx, tag)
  {
    RaisedMeaning(p, ctx, tag);
    TagsMembers(Raised(p, ctx), tag);
    DedupElements(Tags(Raised(p, ctx)));
  }

  /** A tag is reported exactly when the session warrants it; no tag is reported twice. */
  lemma TagPresentIff(p: Pipeline, ctx: Context, tag: Tag)
    ensures tag in Behaviors(p, ctx) <==> Warranted(p, ctx, tag)
    ensures NoDup(Behaviors(p, ctx)) && NoDup(Coverage(p, ctx))
  {
    TagIff(p, ctx, tag);
    DedupElements(Tags(Raised(p, ctx)));
    DedupElements(Techniques(Raised(p, ctx)));
  }

  /** A technique is reported exactly when some reported tag publishes it: every tag
      carries all its techniques and nothing else is reported. */
  lemma TechniquePresentIff(p: Pipeline, ctx: Context, t: Technique)
    ensures t in Coverage(p, ctx) <==> exists tag :: tag in Behaviors(p, ctx) && t in TechniquesOf(tag)
  {
    RaisedMeaning(p, ctx, BruteForce);
    TechniquesMembers(Raised(p, ctx), t);
    DedupElements(Tags(Raised(p, ctx)));
    DedupElements(Techniques(Raised(p, ctx)));
  }

  /** One command's techniques are those of the command tags whose pattern occurs in it. */
  lemma ClassifiedMeans(w: World, command: string, t: Technique)
    ensures t in Classified(w, command)
       <==> exists tag :: CommandTag(tag) && w.search(tag, command) && t in TechniquesOf(tag)
  {
    var rules := Matched(w, COMMAND_RULES, command);
    forall tag ensures tag in Tags(rules) <==> CommandTag(tag) && w.search(tag, command) {
      CommandRuleTable(tag);
      MatchedMeaning(w, COMMAND_RULES, command, tag);
      TagsMembers(rules, tag);
    }
    CommandRuleTable(BruteForce);
    MatchedMeaning(w, COMMAND_RULES, command, BruteForce);
    TechniquesMembers(rules, t);
    DedupElements(Techniques(rules));
  }

  // ------------------------------------------------------- the order of tags

  /** The first command in which the pattern of `tag` occurs; their number when there is none. */
  function FirstHit(w: World, tag: Tag, commands: seq<string>): (k: nat)
    ensures k <= |commands| && forall i :: 0 <= i < k ==> !w.search(tag, commands[i])
    ensures k < |commands| ==> w.search(tag, commands[k])
  {
    if commands == [] || w.search(tag, commands[0]) then 0 else 1 + FirstHit(w, tag, commands[1..])
  }

  /** The order of the command patterns. */
  function PatternNo(tag: Tag): nat {
    match tag
    case ToolTransfer => 0
    case SystemDiscovery => 1
    case UserDiscovery => 2
    case AccountDiscovery => 3
    case SshKeyPersistence => 4
    case CronPersistence => 5
    case Cryptomining => 6
    case DisableDefenses => 7
    case ScriptExecution => 8
    case _ => 9
  }

  /** When a tag is first raised: the credential signals, the commands one after the other with the
      patterns in their order, and last the activity after login. */
  function Turn(w: World, commands: seq<string>, tag: Tag): int {
    match tag
    case CommonCredentialUse => -4
    case BruteForce => -3
    case RepeatOffender => -2
    case KnownMaliciousSource => -1
    case PostAuthActivity => 10 * |commands|
    case _ => 10 * FirstHit(w, tag, commands) + PatternNo(tag)
  }

  ghost predicate InTurn(w: World, commands: seq<string>, tags: seq<Tag>) {
    forall i, j :: 0 <= i < j < |tags| ==> Turn(w, commands, tags[i]) < Turn(w, commands, tags[j])
  }

  ghost predicate Below(w: World, commands: seq<string>, tags: seq<Tag>, bound: int) {
    forall tag :: tag in tags ==> Turn(w, commands, tag) < bound
  }

  lemma AddInTurn(w: World, commands: seq<string>, tags: seq<Tag>, tag: Tag, bound: int)
    requires InTurn(w, commands, Dedup(tags)) && Below(w, commands, tags, bound)
    requires tag in tags || bound <= Turn(w, commands, tag)
    requires Turn(w, commands, tag) <= bound
    ensures InTurn(w, commands, Dedup(tags + [tag])) && Below(w, commands, tags + [tag], bound + 1)
  {
    DedupAppend(tags, tag);
    DedupElements(tags);
    forall x | x in Dedup(tags) ensures Turn(w, commands, x) < bound { assert x in tags; }
  }

  lemma StayInTurn(w: World, commands: seq<string>, tags: seq<Tag>, bound: int, more: int)
    requires Below(w, commands, tags, bound) && bound <= more
    ensures Below(w, commands, tags, more)
  {
  }

  lemma TagsSnoc(rules: seq<Rule>, r: Rule)
    ensures Tags(rules + [r]) == Tags(rules) + [r.tag]
  {
    assert (rules + [r])[..|rules|] == rules;
  }

  ghost predicate RaisedInTurn(w: World, commands: seq<string>, rules: seq<Rule>, bound: int) {
    InTurn(w, commands, Dedup(Tags(rules))) && Below(w, commands, Tags(rules), bound)
  }

  /** One more rule, raised at turn `bound` unless its tag was raised before. */
  lemma RaiseInTurn(w: World, commands: seq<string>, rules: seq<Rule>, b: bool, r: Rule, bound: int)
    requires RaisedInTurn(w, commands, rules, bound)
    requires b ==> r.tag in Tags(rules) || Turn(w, commands, r.tag) == bound
    ensures RaisedInTurn(w, commands, rules + When(b, r), bound + 1)
  {
    if b {
      TagsSnoc(rules, r);
      AddInTurn(w, commands, Tags(rules), r.tag, bound);
    } else {
      assert rules + When(b, r) == rules;
      StayInTurn(w, commands, Tags(rules), bound, bound + 1);
    }
  }

  lemma FourInTurn(w: World, cs: seq<string>, u: bool, v: bool, x: bool, y: bool)
    ensures RaisedInTurn(w, cs,
      When(u, Rule(CommonCredentialUse, [T1078])) + When(v, Rule(BruteForce, [T1110, T1110_001])) +
      When(x, Rule(RepeatOffender, [T1110])) + When(y, Rule(KnownMaliciousSource, [])), 0)
  {
    var r1, r2 := Rule(CommonCredentialUse, [T1078]), Rule(BruteForce, [T1110, T1110_001]);
    var r3, r4 := Rule(RepeatOffender, [T1110]), Rule(KnownMaliciousSource, []);
    RaiseInTurn(w, cs, [], u, r1, -4);
    assert [] + When(u, r1) == When(u, r1);
    RaiseInTurn(w, cs, When(u, r1), v, r2, -3);
    RaiseInTurn(w, cs, When(u, r1) + When(v, r2), x, r3, -2);
    RaiseInTurn(w, cs, When(u, r1) + When(v, r2) + When(x, r3), y, r4, -1);
  }

  lemma AuthInTurn(p: Pipeline, ctx: Context)
    ensures RaisedInTurn(p.world, ctx.commands, AuthRules(p, ctx), 0)
  {
    FourInTurn(p.world, ctx.commands, CommonUsername(p, ctx.username), Repeated(p, ctx), ctx.priorAttempts > 0,
               ctx.isMaliciousIp);
  }

  /** A pattern that occurs in command `n` was raised before or has its turn now. */
  lemma HitInTurn(w: World, commands: seq<string>, before: seq<Rule>, n: nat, tag: Tag)
    requires n < |commands| && CommandTag(tag) && w.search(tag, commands[n])
    ensures tag in Tags(before + CommandRules(w, commands[..n])) || FirstHit(w, tag, commands) == n
  {
    var k := FirstHit(w, tag, commands);
    if k < n {
      assert commands[..n][k] == commands[k];
      CommandRulesMeaning(w, commands[..n], tag);
      OccursAppend(before, CommandRules(w, commands[..n]), tag);
      TagsMembers(before + CommandRules(w, commands[..n]), tag);
    }
  }

  lemma TagsAppendLeft(a: seq<Rule>, b: seq<Rule>, tag: Tag)
    requires tag in Tags(a)
    ensures tag in Tags(a + b)
  {
    TagsMembers(a, tag);
    OccursAppend(a, b, tag);
    TagsMembers(a + b, tag);
  }

  /** The rules carry command tags, in the order of the patterns. */
  ghost predicate Numbered(rules: seq<Rule>) {
    forall i :: 0 <= i < |rules| ==> CommandTag(rules[i].tag) && PatternNo(rules[i].tag) == i
  }

  lemma TableNumbered()
    ensures |COMMAND_RULES| == 10 && Numbered(COMMAND_RULES)
  {
    CommandRulesPublished();
    forall i | 0 <= i < 10 ensures CommandTag(COMMAND_RULES[i].tag) && PatternNo(COMMAND_RULES[i].tag) == i {
      CommandRuleAt(i);
    }
  }

  lemma {:induction false} MatchedInTurn(w: World, commands: seq<string>, rules: seq<Rule>, before: seq<Rule>,
                                         n: nat, j: nat)
    requires n < |commands| && j <= |rules| && Numbered(rules)
    requires RaisedInTurn(w, commands, before + CommandRules(w, commands[..n]), 10 * n)
    ensures RaisedInTurn(w, commands,
      before + CommandRules(w, commands[..n]) + Matched(w, rules[..j], commands[n]), 10 * n + j)
  {
    var raised := before + CommandRules(w, commands[..n]);
    if j == 0 {
      assert raised + Matched(w, rules[..0], commands[n]) == raised;
    } else {
      MatchedInTurn(w, commands, rules, before, n, j - 1);
      var r, m := rules[j - 1], Matched(w, rules[..j - 1], commands[n]);
      if w.search(r.tag, commands[n]) {
        HitInTurn(w, commands, before, n, r.tag);
        if r.tag in Tags(raised) { TagsAppendLeft(raised, m, r.tag); }
      }
      RaiseInTurn(w, commands, raised + m, w.search(r.tag, commands[n]), r, 10 * n + j - 1);
      MatchedStep(w, rules, commands[n], j - 1, raised);
    }
  }

  lemma WholeTableInTurn(w: World, commands: seq<string>, before: seq<Rule>, n: nat)
    requires n < |commands| && RaisedInTurn(w, commands, before + CommandRules(w, commands[..n]), 10 * n)
    ensures RaisedInTurn(w, commands,
      before + CommandRules(w, commands[..n]) + Matched(w, COMMAND_RULES, commands[n]), 10 * n + 10)
  {
    TableNumbered();
    MatchedInTurn(w, commands, COMMAND_RULES, before, n, |COMMAND_RULES|);
    AllOf(COMMAND_RULES);
  }

  lemma NextCommandInTurn(w: World, commands: seq<string>, before: seq<Rule>, n: nat, m: nat, bound: int)
    requires n < |commands| && m == n + 1 && bound == 10 * n + 10
    requires RaisedInTurn(w, commands, before + CommandRules(w, commands[..n]), 10 * n)
    ensures RaisedInTurn(w, commands, before + CommandRules(w, commands[..m]), bound)
  {
    WholeTableInTurn(w, commands, before, n);
    CommandRulesStep(w, commands, n, before);
  }

  lemma {:induction false} CommandsInTurn(w: World, commands: seq<string>, before: seq<Rule>, n: nat)
    requires n <= |commands| && RaisedInTurn(w, commands, before, 0)
    ensures RaisedInTurn(w, commands, before + CommandRules(w, commands[..n]), 10 * n)
  {
    if n == 0 {
      NoCommandsYet(w, commands, before);
    } else {
      CommandsInTurn(w, commands, before, n - 1);
      NextCommandInTurn(w, commands, before, n - 1, n, 10 * n);
    }
  }

  /** Tags are reported in the order in which they are first raised. */
  lemma TagsInTurn(p: Pipeline, ctx: Context)
    ensures InTurn(p.world, ctx.commands, Behaviors(p, ctx))
  {
    var auth, n := AuthRules(p, ctx), |ctx.commands|;
    AuthInTurn(p, ctx);
    CommandsInTurn(p.world, ctx.commands, auth, n);
    assert ctx.commands[..n] == ctx.commands;
    RaiseInTurn(p.world, ctx.commands, auth + CommandRules(p.world, ctx.commands), ctx.commands != [],
                Rule(PostAuthActivity, [T1021_004]), 10 * n);
  }

  // ------------------------------------------- techniques, read off the tags

  /** The techniques of the tags, one tag after the other. */
  function Listed(tags: seq<Tag>): seq<Technique> {
    if tags == [] then [] else Listed(tags[..|tags| - 1]) + TechniqueList(tags[|tags| - 1])
  }

  ghost predicate AsListed(rules: seq<Rule>) {
    forall r :: r in rules ==> r.techniques == TechniqueList(r.tag)
  }

  lemma {:induction false} ListedMembers(tags: seq<Tag>, tag: Tag, t: Technique)
    requires tag in tags && t in TechniqueList(tag)
    ensures t in Listed(tags)
  {
    if tag != tags[|tags| - 1] {
      Snoc(tags);
      ListedMembers(tags[..|tags| - 1], tag, t);
    }
  }

  lemma {:induction false} AddAllPresent(s: seq<Technique>, b: seq<Technique>)
    requires forall t :: t in b ==> t in s
    ensures AddAll(s, b) == s
  {
    if b != [] {
      Snoc(b);
      AddAllPresent(s, b[..|b| - 1]);
    }
  }

  lemma ListedAgain(tags: seq<Tag>, tag: Tag)
    requires tag in tags
    ensures Dedup(Listed(tags) + TechniqueList(tag)) == Dedup(Listed(tags))
  {
    forall t | t in TechniqueList(tag) ensures t in Dedup(Listed(tags)) {
      ListedMembers(tags, tag, t);
      DedupElements(Listed(tags));
    }
    AddAllDedup(Listed(tags), TechniqueList(tag));
    AddAllPresent(Dedup(Listed(tags)), TechniqueList(tag));
  }

  lemma ListedSnoc(tags: seq<Tag>, tag: Tag)
    ensures Listed(tags + [tag]) == Listed(tags) + TechniqueList(tag)
  {
    assert (tags + [tag])[..|tags|] == tags;
  }

  /** Repeating a tag adds nothing: the techniques are those of the reported tags in turn. */
  lemma {:induction false} TechniquesByTags(rules: seq<Rule>)
    requires AsListed(rules)
    ensures Dedup(Techniques(rules)) == Dedup(Listed(Dedup(Tags(rules))))
  {
    if rules != [] {
      var init, r := rules[..|rules| - 1], rules[|rules| - 1];
      TechniquesByTags(init);
      var tags := Dedup(Tags(init));
      DedupSame(Techniques(init), Listed(tags), r.techniques);
      if r.tag in tags { ListedAgain(tags, r.tag); } else { ListedSnoc(tags, r.tag); }
    }
  }

  lemma DedupSame(x: seq<Technique>, y: seq<Technique>, m: seq<Technique>)
    requires Dedup(x) == Dedup(y)
    ensures Dedup(x + m) == Dedup(y + m)
  {
    DedupLeft(x, m);
    DedupLeft(y, m);
  }

  lemma {:induction false} MatchedAsListed(w: World, rules: seq<Rule>, command: string)
    requires AsListed(rules)
    ensures AsListed(Matched(w, rules, command))
  {
    if rules != [] {
      MatchedAsListed(w, rules[..|rules| - 1], command);
    }
  }

  lemma TableAsListed()
    ensures AsListed(COMMAND_RULES)
  {
    CommandRulesPublished();
    forall i | 0 <= i < |COMMAND_RULES| ensures COMMAND_RULES[i].techniques == TechniqueList(COMMAND_RULES[i].tag) {
      CommandRuleAt(i);
      assert COMMAND_RULES[i].techniques == [COMMAND_RULES[i].techniques[0]];
    }
  }

  lemma {:induction false} CommandsAsListed(w: World, commands: seq<string>)
    ensures AsListed(CommandRules(w, commands))
  {
    if commands != [] {
      CommandsAsListed(w, commands[..|commands| - 1]);
      TableAsListed();
      MatchedAsListed(w, COMMAND_RULES, commands[|commands| - 1]);
    }
  }

  lemma AsListedAppend(a: seq<Rule>, b: seq<Rule>)
    requires AsListed(a) && AsListed(b)
    ensures AsListed(a + b)
  {
  }

  lemma WhenAsListed(rules: seq<Rule>, b: bool, r: Rule)
    requires AsListed(rules) && r.techniques == TechniqueList(r.tag)
    ensures AsListed(rules + When(b, r))
  {
    AsListedAppend(rules, When(b, r));
  }

  lemma FourAsListed(u: bool, v: bool, x: bool, y: bool)
    ensures AsListed(
      When(u, Rule(CommonCredentialUse, [T1078])) + When(v, Rule(BruteForce, [T1110, T1110_001])) +
      When(x, Rule(RepeatOffender, [T1110])) + When(y, Rule(KnownMaliciousSource, [])))
  {
    var r1, r2 := Rule(CommonCredentialUse, [T1078]), Rule(BruteForce, [T1110, T1110_001]);
    var r3, r4 := Rule(RepeatOffender, [T1110]), Rule(KnownMaliciousSource, []);
    WhenAsListed([], u, r1);
    assert [] + When(u, r1) == When(u, r1);
    WhenAsListed(When(u, r1), v, r2);
    WhenAsListed(When(u, r1) + When(v, r2), x, r3);
    WhenAsListed(When(u, r1) + When(v, r2) + When(x, r3), y, r4);
  }

  lemma RaisedAsListed(p: Pipeline, ctx: Context)
    ensures AsListed(Raised(p, ctx))
  {
    FourAsListed(CommonUsername(p, ctx.username), Repeated(p, ctx), ctx.priorAttempts > 0, ctx.isMaliciousIp);
    CommandsAsListed(p.world, ctx.commands);
    AsListedAppend(AuthRules(p, ctx), CommandRules(p.world, ctx.commands));
    AsListedAppend(AuthRules(p, ctx) + CommandRules(p.world, ctx.commands),
                   When(ctx.commands != [], Rule(PostAuthActivity, [T1021_004])));
  }

  /** The reported techniques are those of the reported tags, in turn and each once. */
  lemma CoverageByTags(p: Pipeline, ctx: Context)
    ensures Coverage(p, ctx) == Dedup(Listed(Behaviors(p, ctx)))
  {
    RaisedAsListed(p, ctx);
    TechniquesByTags(Raised(p, ctx));
  }
}
