/**
 * The routing table of src/config/transform.rs: the configuration record, the
 * rules compiled from it at start-up, and `search_topic`, which resolves a
 * (source topic, database, table) triple to the target topic of the first
 * rule that matches it.
 */
module ConfigTransform {
  import opened Wrappers

  /**
   * A compiled table pattern. `pattern` is the text it was compiled from; the
   * automaton itself belongs to the regex engine, which is not modelled.
   */
  datatype Regex = Regex(pattern: string)

  /**
   * The regex engine's `is_match`: does the pattern match somewhere inside the
   * text. It is a parameter of everything that matches, so every result below
   * holds for whatever the engine answers.
   */
  type Matcher = (string, string) -> bool

  /** `Regex::new` on a pattern that compiles. */
  function Compile(pattern: string): Regex
  {
    Regex(pattern)
  }

  predicate IsMatch(m: Matcher, re: Regex, text: string)
  {
    m(re.pattern, text)
  }

  /** The `kafka:` section of the configuration file. */
  datatype Kafka = Kafka(bootstrapServers: string, group: string, bindings: seq<string>)

  /** One entry of `transforms:`; `table` is a pattern, not a name. */
  datatype Transform = Transform(sourceTopic: string, db: string, table: string, targetTopic: string)

  /** A transform together with the pattern compiled from its `table`. */
  datatype RegexTransform = RegexTransform(regex: Regex, transform: Transform)

  datatype FlinkKafkaTransform = FlinkKafkaTransform(
    kafka: Kafka,
    transforms: seq<Transform>,
    regexTransforms: seq<RegexTransform>)

  /** `iter().map(|s| s.as_str()).collect()` over the configured bindings. */
  function Borrowed(topics: seq<string>): (r: seq<string>)
    ensures |r| == |topics|
    ensures forall i :: 0 <= i < |r| ==> r[i] == topics[i]
  {
    if topics == [] then [] else [topics[0]] + Borrowed(topics[1..])
  }

  /** `Kafka::binding_topics`, to which `FlinkKafkaTransform::binding_topics` delegates. */
  function BindingTopics(config: FlinkKafkaTransform): (r: seq<string>)
    ensures r == config.kafka.bindings
  {
    Borrowed(config.kafka.bindings)
  }

  /** `init_regex_transforms`: one compiled rule per transform, in declaration order. */
  function InitRegexTransforms(transforms: seq<Transform>): (r: seq<RegexTransform>)
    ensures |r| == |transforms|
    ensures forall i :: 0 <= i < |r| ==>
      r[i].transform == transforms[i] && r[i].regex == Compile(transforms[i].table)
  {
    if transforms == [] then []
    else [RegexTransform(Compile(transforms[0].table), transforms[0])] + InitRegexTransforms(transforms[1..])
  }

  /** The transform a rule was compiled from, for each rule. */
  function TransformsOf(rules: seq<RegexTransform>): (r: seq<Transform>)
    ensures |r| == |rules|
    ensures forall i :: 0 <= i < |r| ==> r[i] == rules[i].transform
  {
    if rules == [] then [] else [rules[0].transform] + TransformsOf(rules[1..])
  }

  /**
   * What `new` leaves behind once the file is read and decoded: the decoded
   * sections, with `regex_transforms` filled in from `transforms`.
   */
  function Load(kafka: Kafka, transforms: seq<Transform>): (c: FlinkKafkaTransform)
    ensures Loaded(c)
    ensures c.kafka == kafka && c.transforms == transforms
  {
    FlinkKafkaTransform(kafka, transforms, InitRegexTransforms(transforms))
  }

  /** A configuration as `new` builds it. */
  predicate Loaded(c: FlinkKafkaTransform)
  {
    c.regexTransforms == InitRegexTransforms(c.transforms)
  }

  /** The closure given to `find`: exact topic, exact database, pattern found in the table. */
  predicate Hit(m: Matcher, rule: RegexTransform, sourceTopic: string, db: string, table: string)
  {
    && rule.transform.sourceTopic == sourceTopic
    && rule.transform.db == db
    && IsMatch(m, rule.regex, table)
  }

  /** Rule `i` matches and no rule declared before it does. */
  ghost predicate IsFirstHit(m: Matcher, rules: seq<RegexTransform>, i: int, sourceTopic: string, db: string, table: string)
  {
    && 0 <= i < |rules|
    && Hit(m, rules[i], sourceTopic, db, table)
    && forall j :: 0 <= j < i ==> !Hit(m, rules[j], sourceTopic, db, table)
  }

  /** `iter().find(...)`: the earliest rule that matches, if any. */
  function Find(m: Matcher, rules: seq<RegexTransform>, sourceTopic: string, db: string, table: string): (r: Option<RegexTransform>)
    ensures r.None? <==> forall j :: 0 <= j < |rules| ==> !Hit(m, rules[j], sourceTopic, db, table)
    ensures r.Some? ==> exists i :: IsFirstHit(m, rules, i, sourceTopic, db, table) && rules[i] == r.value
    decreases |rules|
  {
    if rules == [] then None
    else if Hit(m, rules[0], sourceTopic, db, table) then Some(rules[0])
    else Find(m, rules[1..], sourceTopic, db, table)
  }

  /** `search_topic`: the target topic of the first matching rule, or `None`. */
  function SearchTopic(config: FlinkKafkaTransform, m: Matcher, sourceTopic: string, db: string, table: string): (r: Option<string>)
    ensures r.None? <==> forall j :: 0 <= j < |config.regexTransforms| ==>
      !Hit(m, config.regexTransforms[j], sourceTopic, db, table)
    ensures r.Some? ==> exists i ::
      && IsFirstHit(m, config.regexTransforms, i, sourceTopic, db, table)
      && r.value == config.regexTransforms[i].transform.targetTopic
  {
    match Find(m, config.regexTransforms, sourceTopic, db, table)
    case None => None
    case Some(rule) => Some(rule.transform.targetTopic)
  }

  /** Completeness: the first matching rule is the one whose target comes back. */
  lemma SearchTopicReturnsFirstHit(config: FlinkKafkaTransform, m: Matcher, i: int, sourceTopic: string, db: string, table: string)
    requires IsFirstHit(m, config.regexTransforms, i, sourceTopic, db, table)
    ensures SearchTopic(config, m, sourceTopic, db, table) == Some(config.regexTransforms[i].transform.targetTopic)
  {
  }

  /** `search_topic` yields `t` exactly when `t` is the target of the first matching rule. */
  lemma SearchTopicIff(config: FlinkKafkaTransform, m: Matcher, sourceTopic: string, db: string, table: string, target: string)
    ensures SearchTopic(config, m, sourceTopic, db, table) == Some(target) <==>
      exists i :: IsFirstHit(m, config.regexTransforms, i, sourceTopic, db, table)
        && config.regexTransforms[i].transform.targetTopic == target
  {
  }

  /**
   * Of two matching rules the earlier one shadows the later: the target comes
   * from a rule declared no later than the earlier one, never from the later.
   */
  lemma EarlierRuleWins(config: FlinkKafkaTransform, m: Matcher, i: int, k: int, sourceTopic: string, db: string, table: string)
    requires 0 <= i < k < |config.regexTransforms|
    requires Hit(m, config.regexTransforms[i], sourceTopic, db, table)
    requires Hit(m, config.regexTransforms[k], sourceTopic, db, table)
    ensures !IsFirstHit(m, config.regexTransforms, k, sourceTopic, db, table)
    ensures exists f ::
      && 0 <= f <= i
      && IsFirstHit(m, config.regexTransforms, f, sourceTopic, db, table)
      && SearchTopic(config, m, sourceTopic, db, table) == Some(config.regexTransforms[f].transform.targetTopic)
  {
    var r := SearchTopic(config, m, sourceTopic, db, table);
    assert r.Some?;
    var f :| IsFirstHit(m, config.regexTransforms, f, sourceTopic, db, table)
      && r.value == config.regexTransforms[f].transform.targetTopic;
    assert f <= i;
  }

  /** Two rules for one topic and database whose patterns both match: the first one's target wins. */
  lemma OverlappingPairEarlierWins(kafka: Kafka, first: Transform, second: Transform, m: Matcher, table: string)
    requires first.sourceTopic == second.sourceTopic && first.db == second.db
    requires m(first.table, table) && m(second.table, table)
    ensures SearchTopic(Load(kafka, [first, second]), m, first.sourceTopic, first.db, table) == Some(first.targetTopic)
  {
  }

  /** The same resolution stated on the configured transforms rather than the compiled rules. */
  predicate TransformHit(m: Matcher, t: Transform, sourceTopic: string, db: string, table: string)
  {
    t.sourceTopic == sourceTopic && t.db == db && m(t.table, table)
  }

  lemma LoadedSearchTopic(config: FlinkKafkaTransform, m: Matcher, sourceTopic: string, db: string, table: string, target: string)
    requires Loaded(config)
    ensures SearchTopic(config, m, sourceTopic, db, table) == Some(target) <==>
      exists i :: 0 <= i < |config.transforms|
        && TransformHit(m, config.transforms[i], sourceTopic, db, table)
        && (forall j :: 0 <= j < i ==> !TransformHit(m, config.transforms[j], sourceTopic, db, table))
        && config.transforms[i].targetTopic == target
  {
  }

  /** The rules that share a source topic and a database, in declaration order. */
  function Bucket(rules: seq<RegexTransform>, sourceTopic: string, db: string): (r: seq<RegexTransform>)
    ensures forall x :: x in r ==> x in rules && x.transform.sourceTopic == sourceTopic && x.transform.db == db
  {
    if rules == [] then []
    else if rules[0].transform.sourceTopic == sourceTopic && rules[0].transform.db == db then
      [rules[0]] + Bucket(rules[1..], sourceTopic, db)
    else Bucket(rules[1..], sourceTopic, db)
  }

  /**
   * Topic and database select by plain equality only: scanning just the rules
   * with that topic and database, in their declared order, finds the same rule.
   */
  lemma {:induction false} FindWithinBucket(m: Matcher, rules: seq<RegexTransform>, sourceTopic: string, db: string, table: string)
    ensures Find(m, rules, sourceTopic, db, table) == Find(m, Bucket(rules, sourceTopic, db), sourceTopic, db, table)
  {
    if rules != [] {
      FindWithinBucket(m, rules[1..], sourceTopic, db, table);
      var b := Bucket(rules[1..], sourceTopic, db);
      if rules[0].transform.sourceTopic == sourceTopic && rules[0].transform.db == db {
        assert ([rules[0]] + b)[1..] == b;
      }
    }
  }

  /** Only the pattern looks at the table: tables that every pattern treats alike resolve alike. */
  lemma FindSeesTableOnlyThroughPatterns(m: Matcher, rules: seq<RegexTransform>, sourceTopic: string, db: string, t1: string, t2: string)
    requires forall j :: 0 <= j < |rules| ==> (IsMatch(m, rules[j].regex, t1) <==> IsMatch(m, rules[j].regex, t2))
    ensures Find(m, rules, sourceTopic, db, t1) == Find(m, rules, sourceTopic, db, t2)
  {
  }

  /**
   * The repository's regex test: `gsms_msg_ticket_sms_[0-9]+` finds a match in
   * `gsms_msg_ticket_sms_1009` and none in `gsms_msg_frame_0908`. Given an
   * engine that answers so, a rule with that pattern routes the first table and
   * not the second.
   */
  lemma RegexTestRouting(kafka: Kafka, m: Matcher, sourceTopic: string, db: string, target: string)
    requires m("gsms_msg_ticket_sms_[0-9]+", "gsms_msg_ticket_sms_1009")
    requires !m("gsms_msg_ticket_sms_[0-9]+", "gsms_msg_frame_0908")
    ensures var c := Load(kafka, [Transform(sourceTopic, db, "gsms_msg_ticket_sms_[0-9]+", target)]);
      && SearchTopic(c, m, sourceTopic, db, "gsms_msg_ticket_sms_1009") == Some(target)
      && SearchTopic(c, m, sourceTopic, db, "gsms_msg_frame_0908") == None
  {
  }

  /** Compiling keeps the transforms: they can be read back off the rules. */
  lemma InitRegexTransformsKeepsTransforms(transforms: seq<Transform>)
    ensures TransformsOf(InitRegexTransforms(transforms)) == transforms
  {
  }
}
