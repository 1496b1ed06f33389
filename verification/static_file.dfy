/**
 * The static-file cache-policy engine: an ordered list of cache rules, each a
 * path pattern with a way of computing the `Cache-Control` max-age; the first
 * rule whose pattern matches the resolved path decides.
 *
 * The regular-expression engine is not modelled. Whether `Regex::new` accepts
 * a pattern is the parameter `compiles`, and whether a compiled pattern
 * matches a path is the parameter `isMatch`. The clock is the parameter `now`.
 */
module StaticFile {
  import opened Types

  /** The source text of a path pattern, as configured. */
  type PatternText = string

  /** Whether the regex engine accepts a pattern (`regex::Regex::new` is `Ok`). */
  type RegexCompiles = PatternText -> bool

  /** Whether a compiled pattern matches a path (`Regex::is_match`). */
  type RegexIsMatch = (PatternText, string) -> bool

  /** A compiled path pattern. */
  datatype Regex = Regex(source: PatternText)

  /** The configured kind of a cache rule. */
  datatype StaticFileCacheRuleType = FixedTime | ModTimePlusDelta

  /** One configured cache rule, before its pattern is compiled. */
  datatype StaticFileCacheRule = StaticFileCacheRule(
    pathRegex: PatternText,
    ruleType: StaticFileCacheRuleType,
    duration: Duration)

  /**
   * A resolved file path. `NonUtf8Path` stands for a path whose bytes are not
   * valid UTF-8, for which `to_str` has no answer.
   */
  datatype FilePath = Utf8Path(text: string) | NonUtf8Path(bytes: seq<bv8>) {

    /** `Path::to_str`. */
    function ToStr(): Option<string> {
      match this
      case Utf8Path(t) => Some(t)
      case NonUtf8Path(_) => None
    }
  }

  /** What the static-file resolver found: its path and, if known, its modification time. */
  datatype ResolvedFile = ResolvedFile(path: FilePath, modified: Option<SystemTime>)

  /** Why building the rule service failed. */
  datatype RulesServiceError = RegexParseError(pattern: PatternText)

  /**
   * `SystemTime::duration_since`: how long after `earlier` the instant `later`
   * is, or `None` when `later` is before `earlier`.
   */
  function DurationSince(later: SystemTime, earlier: SystemTime): (r: Option<Duration>)
    ensures r.Some? <==> earlier <= later
    ensures r.Some? ==> earlier + r.value == later
  {
    if earlier <= later then Some(later - earlier) else None
  }

  /** A compiled cache rule: the two kinds the engine knows. */
  datatype CacheRule =
    | FixedTimeCacheHeaderRule(pathRegex: Regex, fileCacheDuration: Duration)
    | ModificationTimePlusDeltaCacheHeaderRule(pathRegex: Regex, fileCacheDuration: Duration)
  {
    /**
     * Whether this rule's pattern matches the resolved path: the regex engine
     * decides, and the rule's kind and duration play no part.
     */
    predicate Matches(isMatch: RegexIsMatch, resolvedPath: string): (m: bool)
      ensures m <==> isMatch(pathRegex.source, resolvedPath)
    {
      isMatch(pathRegex.source, resolvedPath)
    }

    /**
     * The max-age this rule gives a file, at time `now`. A fixed-time rule
     * always gives its duration. A modification-time rule gives zero for a
     * file of unknown age, and otherwise the time left until the file's
     * modification time plus the duration, or zero once that has passed.
     */
    function BuildCacheHeader(resolvedFile: ResolvedFile, now: SystemTime): (r: Option<Duration>)
      ensures r.Some?
      ensures FixedTimeCacheHeaderRule? ==> r.value == fileCacheDuration
      ensures ModificationTimePlusDeltaCacheHeaderRule? && resolvedFile.modified.None? ==> r.value == 0
      ensures ModificationTimePlusDeltaCacheHeaderRule? && resolvedFile.modified.Some? ==>
        var expiration := resolvedFile.modified.value + fileCacheDuration;
        && (r.value == 0 <==> expiration <= now)
        && (r.value > 0 ==> now + r.value == expiration)
      ensures ModificationTimePlusDeltaCacheHeaderRule? && resolvedFile.modified.Some? ==>
        (resolvedFile.modified.value <= now ==> r.value <= fileCacheDuration)
    {
      match this
      case FixedTimeCacheHeaderRule(_, duration) => Some(duration)
      case ModificationTimePlusDeltaCacheHeaderRule(_, duration) =>
        match resolvedFile.modified
        case None => Some(0)
        case Some(modified) =>
          var fileExpiration := modified + duration;
          Some(DurationSince(fileExpiration, now).UnwrapOr(0))
    }
  }

  /** Whether `k` is the position of the first configured pattern the regex engine rejects. */
  predicate FirstRejected(configs: seq<StaticFileCacheRule>, compiles: RegexCompiles, k: int) {
    && 0 <= k < |configs|
    && !compiles(configs[k].pathRegex)
    && forall j :: 0 <= j < k ==> compiles(configs[j].pathRegex)
  }

  /** Whether a compiled rule is the one a configured rule describes. */
  predicate ConfiguredAs(rule: CacheRule, config: StaticFileCacheRule) {
    && rule.pathRegex.source == config.pathRegex
    && rule.fileCacheDuration == config.duration
    && (rule.FixedTimeCacheHeaderRule? <==> config.ruleType == FixedTime)
  }

  /** Whether rule `i` matches `path` and no rule before it does. */
  predicate IsFirstMatch(rules: seq<CacheRule>, isMatch: RegexIsMatch, path: string, i: int) {
    && 0 <= i < |rules|
    && rules[i].Matches(isMatch, path)
    && forall j :: 0 <= j < i ==> !rules[j].Matches(isMatch, path)
  }

  /**
   * The position of the first rule whose pattern matches `path`
   * (`iter().find(..)` yields the rule at that position), or `None`.
   */
  function FindFirstMatch(rules: seq<CacheRule>, isMatch: RegexIsMatch, path: string): (r: Option<nat>)
    ensures r.Some? ==> IsFirstMatch(rules, isMatch, path, r.value)
    ensures r.None? ==> forall j :: 0 <= j < |rules| ==> !rules[j].Matches(isMatch, path)
  {
    if rules == [] then None
    else if rules[0].Matches(isMatch, path) then Some(0)
    else
      match FindFirstMatch(rules[1..], isMatch, path)
      case None => None
      case Some(k) => Some(k + 1)
  }

  /**
   * Both rule kinds match in the same way: a fixed-time rule and a
   * modification-time rule with the same pattern match the same paths,
   * whatever their durations.
   */
  lemma MatchingIgnoresRuleKind(pathRegex: Regex, fixedDuration: Duration, deltaDuration: Duration,
                                isMatch: RegexIsMatch, resolvedPath: string)
    ensures FixedTimeCacheHeaderRule(pathRegex, fixedDuration).Matches(isMatch, resolvedPath)
        <==> ModificationTimePlusDeltaCacheHeaderRule(pathRegex, deltaDuration).Matches(isMatch, resolvedPath)
  {
  }

  /** The rule engine: its compiled rules, in configured order. */
  datatype StaticFileRulesService = StaticFileRulesService(cacheRules: seq<CacheRule>) {

    /**
     * The cache max-age for a resolved file: what the first matching rule
     * gives, and no cache directive when no rule matches. A path that is not
     * valid UTF-8 is matched as the empty string.
     */
    function BuildCacheHeader(isMatch: RegexIsMatch, resolvedFile: ResolvedFile, now: SystemTime): (r: Option<Duration>)
      ensures r.Some? <==> exists i :: 0 <= i < |cacheRules| && cacheRules[i].Matches(isMatch, MatchedPath(resolvedFile))
      ensures forall i :: IsFirstMatch(cacheRules, isMatch, MatchedPath(resolvedFile), i) ==>
        r == cacheRules[i].BuildCacheHeader(resolvedFile, now)
    {
      var strPath := MatchedPath(resolvedFile);
      match FindFirstMatch(cacheRules, isMatch, strPath)
      case None => None
      case Some(i) => cacheRules[i].BuildCacheHeader(resolvedFile, now)
    }
  }

  /** The text the rules are matched against: the path, or "" when it is not UTF-8. */
  function MatchedPath(resolvedFile: ResolvedFile): (path: string)
    ensures resolvedFile.path.Utf8Path? ==> path == resolvedFile.path.text
    ensures resolvedFile.path.NonUtf8Path? ==> path == ""
  {
    resolvedFile.path.ToStr().UnwrapOr("")
  }

  /**
   * Builds the rule engine from the configured rules: one compiled rule per
   * configured rule, in the same order and of the configured kind and
   * duration. The first pattern the regex engine rejects fails the whole
   * construction.
   */
  method NewStaticFileRulesService(configs: seq<StaticFileCacheRule>, compiles: RegexCompiles)
    returns (r: Result<StaticFileRulesService, RulesServiceError>)
    ensures r.Ok? <==> forall i :: 0 <= i < |configs| ==> compiles(configs[i].pathRegex)
    ensures r.Ok? ==> |r.value.cacheRules| == |configs|
    ensures r.Ok? ==> forall i :: 0 <= i < |configs| ==> ConfiguredAs(r.value.cacheRules[i], configs[i])
    ensures r.Err? ==> exists k :: FirstRejected(configs, compiles, k) && r.error == RegexParseError(configs[k].pathRegex)
  {
    var cacheRules: seq<CacheRule> := [];
    for i := 0 to |configs|
      invariant |cacheRules| == i
      invariant forall j :: 0 <= j < i ==> compiles(configs[j].pathRegex)
      invariant forall j :: 0 <= j < i ==> ConfiguredAs(cacheRules[j], configs[j])
    {
      var cacheRule := configs[i];
      if !compiles(cacheRule.pathRegex) {
        return Err(RegexParseError(cacheRule.pathRegex));
      }
      var pathRegex := Regex(cacheRule.pathRegex);
      match cacheRule.ruleType
      case FixedTime =>
        cacheRules := cacheRules + [FixedTimeCacheHeaderRule(pathRegex, cacheRule.duration)];
      case ModTimePlusDelta =>
        cacheRules := cacheRules + [ModificationTimePlusDeltaCacheHeaderRule(pathRegex, cacheRule.duration)];
    }
    return Ok(StaticFileRulesService(cacheRules));
  }

  /**
   * Later rules are never consulted: once some rule of `rules` matches,
   * appending further rules changes nothing.
   */
  lemma LaterRulesNotConsulted(rules: seq<CacheRule>, later: seq<CacheRule>, isMatch: RegexIsMatch,
                               resolvedFile: ResolvedFile, now: SystemTime)
    requires exists i :: 0 <= i < |rules| && rules[i].Matches(isMatch, MatchedPath(resolvedFile))
    ensures StaticFileRulesService(rules + later).BuildCacheHeader(isMatch, resolvedFile, now)
         == StaticFileRulesService(rules).BuildCacheHeader(isMatch, resolvedFile, now)
  {
    var path := MatchedPath(resolvedFile);
    var k := FindFirstMatch(rules, isMatch, path).value;
    assert (rules + later)[k] == rules[k];
    assert IsFirstMatch(rules + later, isMatch, path, k);
  }

  /** With no rules configured the engine never sends a cache directive. */
  lemma NoRulesNoHeader(isMatch: RegexIsMatch, resolvedFile: ResolvedFile, now: SystemTime)
    ensures StaticFileRulesService([]).BuildCacheHeader(isMatch, resolvedFile, now).None?
  {
  }

  /** A path that is not valid UTF-8 is treated exactly as the empty path. */
  lemma NonUtf8PathMatchedAsEmpty(service: StaticFileRulesService, isMatch: RegexIsMatch, bytes: seq<bv8>,
                                  modified: Option<SystemTime>, now: SystemTime)
    ensures service.BuildCacheHeader(isMatch, ResolvedFile(NonUtf8Path(bytes), modified), now)
         == service.BuildCacheHeader(isMatch, ResolvedFile(Utf8Path(""), modified), now)
  {
  }

  /**
   * When the first matching rule is a fixed-time rule, the engine answers
   * with that rule's duration, whatever the file's modification time.
   */
  lemma FixedTimeIgnoresModificationTime(service: StaticFileRulesService, isMatch: RegexIsMatch, path: FilePath,
                                         modified: Option<SystemTime>, now: SystemTime, i: nat)
    requires IsFirstMatch(service.cacheRules, isMatch, MatchedPath(ResolvedFile(path, modified)), i)
    requires service.cacheRules[i].FixedTimeCacheHeaderRule?
    ensures service.BuildCacheHeader(isMatch, ResolvedFile(path, modified), now) == Some(service.cacheRules[i].fileCacheDuration)
  {
  }
}
