/** Settings and reference data of the intelligence layer. */
module Intel {
  import opened Lists

  /** Behaviour tags. */
  datatype Tag =
    | CommonCredentialUse
    | BruteForce
    | RepeatOffender
    | KnownMaliciousSource
    | ToolTransfer
    | SystemDiscovery
    | UserDiscovery
    | AccountDiscovery
    | SshKeyPersistence
    | CronPersistence
    | Cryptomining
    | DisableDefenses
    | ScriptExecution
    | RemoteDiscovery
    | PostAuthActivity

  /** ATT&CK technique identifiers; `Unlisted` is any string outside the catalogue. */
  datatype Technique =
    | T1110 | T1110_001 | T1078 | T1021_004 | T1105 | T1059 | T1082 | T1033
    | T1087 | T1018 | T1098_004 | T1053_003 | T1496 | T1562_001
    | Unlisted(id: string)

  datatype Level = Low | Medium | High

  datatype Config = Config(
    weightRepeated: int,
    weightUsername: int,
    weightMalicious: int,
    weightForeign: int,
    weightMalware: int,
    weightPersistence: int,
    weightRecon: int,
    repeatedThreshold: int,
    historyWindowHours: int,
    lowMax: int,
    mediumMax: int,
    homeCountries: set<string>,
    bruteForceUsernames: set<string>)
  {
    function LevelFor(score: int): Level {
      if score <= lowMax then Low else if score <= mediumMax then Medium else High
    }
  }

  datatype Enrichment = Enrichment(
    country: Option<string>,
    countryName: Option<string>,
    asn: Option<string>,
    isp: Option<string>,
    isPrivate: bool)
  {
    /** The country shown on attacks and incidents. */
    function Shown(): Option<string> { Or(countryName, country) }
  }

  datatype Reputation = Reputation(isMalicious: bool, reputation: int)

  /** What the model leaves uninterpreted: regular expressions, letter case, GeoIP
      readers and threat-feed membership. */
  datatype World = World(
    search: (Tag, string) -> bool,
    lower: string -> string,
    enrich: string -> Enrichment,
    check: string -> Reputation)

  /** One pipeline instance: its settings and its data sources. */
  datatype Pipeline = Pipeline(cfg: Config, world: World)

  /** A behaviour tag raised together with its techniques. */
  datatype Rule = Rule(tag: Tag, techniques: seq<Technique>)

  /** The command rules, in order; the pattern of a rule is `World.search(rule.tag, _)`. */
  const COMMAND_RULES: seq<Rule> := [
    Rule(ToolTransfer, [T1105]),
    Rule(SystemDiscovery, [T1082]),
    Rule(UserDiscovery, [T1033]),
    Rule(AccountDiscovery, [T1087]),
    Rule(SshKeyPersistence, [T1098_004]),
    Rule(CronPersistence, [T1053_003]),
    Rule(Cryptomining, [T1496]),
    Rule(DisableDefenses, [T1562_001]),
    Rule(ScriptExecution, [T1059]),
    Rule(RemoteDiscovery, [T1018])]

  /** The techniques each tag carries, over all the rules of the detector. */
  function TechniquesOf(tag: Tag): set<Technique> {
    match tag
    case CommonCredentialUse => {T1078}
    case BruteForce => {T1110, T1110_001}
    case RepeatOffender => {T1110}
    case KnownMaliciousSource => {}
    case ToolTransfer => {T1105}
    case SystemDiscovery => {T1082}
    case UserDiscovery => {T1033}
    case AccountDiscovery => {T1087}
    case SshKeyPersistence => {T1098_004}
    case CronPersistence => {T1053_003}
    case Cryptomining => {T1496}
    case DisableDefenses => {T1562_001}
    case ScriptExecution => {T1059}
    case RemoteDiscovery => {T1018}
    case PostAuthActivity => {T1021_004}
  }

  /** The same in the order in which the detector lists them. */
  function TechniqueList(tag: Tag): seq<Technique> {
    match tag
    case CommonCredentialUse => [T1078]
    case BruteForce => [T1110, T1110_001]
    case RepeatOffender => [T1110]
    case KnownMaliciousSource => []
    case ToolTransfer => [T1105]
    case SystemDiscovery => [T1082]
    case UserDiscovery => [T1033]
    case AccountDiscovery => [T1087]
    case SshKeyPersistence => [T1098_004]
    case CronPersistence => [T1053_003]
    case Cryptomining => [T1496]
    case DisableDefenses => [T1562_001]
    case ScriptExecution => [T1059]
    case RemoteDiscovery => [T1018]
    case PostAuthActivity => [T1021_004]
  }

  /** A higher level is at least as severe. */
  function Rank(level: Level): int {
    match level case Low => 0 case Medium => 1 case High => 2
  }
}
