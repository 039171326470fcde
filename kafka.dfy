/**
 * The per-record decision of src/mq/kafka.rs. Each consumed record is counted
 * as observed; a delete is dropped; anything else is routed through the rule
 * table and, when a route exists, counted as forwarded and turned into a send
 * of the record's own key and payload to the target topic.
 */
module MqKafka {
  import opened Wrappers
  import opened ConfigTransform
  import opened Mq

  type Bytes = seq<bv8>

  /** The `source` object of a Debezium change event. */
  datatype Source = Source(db: string, table: string)
  {
    function Db(): string { db }
    function Table(): string { table }
  }

  /** A decoded Debezium change event: the operation code and where it comes from. */
  datatype DebeziumJson = DebeziumJson(op: string, source: Source)
  {
    function Db(): string { source.Db() }
    function Table(): string { source.Table() }
    function Op(): string { op }
  }

  /**
   * One consumed message: the topic it was read from, its key (Kafka keys may
   * be absent), its payload, and the event that payload decodes to.
   */
  datatype Record = Record(topic: string, key: Option<Bytes>, payload: Bytes, event: DebeziumJson)

  /** The `FutureRecord` handed to the producer. */
  datatype SendRequest = SendRequest(topic: string, key: Bytes, payload: Bytes)

  /**
   * How one record ends. `MissingKey` is a routed record without a key: the
   * spawned task's `unwrap` on the key fails after the forwarded counter was
   * raised, so nothing is sent.
   */
  datatype Outcome =
    | Discarded
    | NoRoute
    | Forward(request: SendRequest)
    | MissingKey(targetTopic: string)
  {
    /** The topic the record was routed to, if it was routed at all. */
    function RoutedTo(): Option<string>
    {
      match this
      case Forward(request) => Some(request.topic)
      case MissingKey(targetTopic) => Some(targetTopic)
      case _ => None
    }
  }

  /** The operation code of a delete, which is never forwarded. */
  const DeleteOp: string := "d"

  /** The observed-event key of a record. */
  function EventLabelsOf(rec: Record): EventLabels
  {
    EventLabels(rec.topic, rec.event.Db(), rec.event.Table(), rec.event.Op())
  }

  /** The decision the spawned task takes for a record. */
  function Decide(config: FlinkKafkaTransform, m: Matcher, rec: Record): Outcome
  {
    if rec.event.op == DeleteOp then Discarded
    else
      match SearchTopic(config, m, rec.topic, rec.event.Db(), rec.event.Table())
      case None => NoRoute
      case Some(target) =>
        match rec.key
        case None => MissingKey(target)
        case Some(key) => Forward(SendRequest(target, key, rec.payload))
  }

  /** The forwarded-event key a record raises, if any. */
  function ForwardLabelsOf(config: FlinkKafkaTransform, m: Matcher, rec: Record): Option<TransformLabels>
  {
    match Decide(config, m, rec).RoutedTo()
    case None => None
    case Some(target) => Some(TransformLabels(target, rec.event.op))
  }

  /** The counters after one record has been handled. */
  function Step(c: Counters, config: FlinkKafkaTransform, m: Matcher, rec: Record): Counters
  {
    var event := Bump(c.event, EventLabelsOf(rec));
    match ForwardLabelsOf(config, m, rec)
    case None => Counters(c.transform, event)
    case Some(key) => Counters(Bump(c.transform, key), event)
  }

  /** The counters after a sequence of records has been handled, one after another. */
  function Run(c: Counters, config: FlinkKafkaTransform, m: Matcher, recs: seq<Record>): Counters
  {
    if recs == [] then c
    else Step(Run(c, config, m, recs[..|recs| - 1]), config, m, recs[|recs| - 1])
  }

  /** How many of the records carry observed-event key `key`. */
  function Observed(recs: seq<Record>, key: EventLabels): nat
  {
    if recs == [] then 0
    else Observed(recs[..|recs| - 1], key) + (if EventLabelsOf(recs[|recs| - 1]) == key then 1 else 0)
  }

  /** How many of the records raise forwarded-event key `key`. */
  function Forwarded(config: FlinkKafkaTransform, m: Matcher, recs: seq<Record>, key: TransformLabels): nat
  {
    if recs == [] then 0
    else
      var last := if ForwardLabelsOf(config, m, recs[|recs| - 1]) == Some(key) then 1 else 0;
      Forwarded(config, m, recs[..|recs| - 1], key) + last
  }

  /** The closure body for one record, acting on the shared counters. */
  method HandleRecord(metrics: Metrics, config: FlinkKafkaTransform, m: Matcher, rec: Record) returns (outcome: Outcome)
    modifies metrics
    ensures outcome == Decide(config, m, rec)
    ensures metrics.Snapshot() == Step(old(metrics.Snapshot()), config, m, rec)
  {
    metrics.IncFlinkCdcEvent(rec.topic, rec.event.Db(), rec.event.Table(), rec.event.Op());
    if rec.event.op == DeleteOp {
      return Discarded;
    }
    var target := SearchTopic(config, m, rec.topic, rec.event.Db(), rec.event.Table());
    if target.None? {
      return NoRoute;
    }
    metrics.IncFlinkKafkaFilterTransform(target.value, rec.event.op);
    if rec.key.None? {
      return MissingKey(target.value);
    }
    outcome := Forward(SendRequest(target.value, rec.key.value, rec.payload));
  }

  /** The consume loop over a finite run of records, in arrival order. */
  method ProcessRecords(metrics: Metrics, config: FlinkKafkaTransform, m: Matcher, recs: seq<Record>)
    returns (outcomes: seq<Outcome>)
    modifies metrics
    ensures |outcomes| == |recs|
    ensures forall i :: 0 <= i < |recs| ==> outcomes[i] == Decide(config, m, recs[i])
    ensures metrics.Snapshot() == Run(old(metrics.Snapshot()), config, m, recs)
  {
    outcomes := [];
    for i := 0 to |recs|
      invariant |outcomes| == i
      invariant forall j :: 0 <= j < i ==> outcomes[j] == Decide(config, m, recs[j])
      invariant metrics.Snapshot() == Run(old(metrics.Snapshot()), config, m, recs[..i])
    {
      var outcome := HandleRecord(metrics, config, m, recs[i]);
      assert recs[..i + 1][..i] == recs[..i];
      outcomes := outcomes + [outcome];
    }
    assert recs[..|recs|] == recs;
  }

  /** The observed-event key is made of the record's topic and the decoded fields, verbatim. */
  lemma EventLabelsAreDecodedFields(rec: Record)
    ensures EventLabelsOf(rec) == EventLabels(rec.topic, rec.event.source.db, rec.event.source.table, rec.event.op)
  {
  }

  /** A delete is dropped whatever rule matches, and only the observed counter moves. */
  lemma DeleteIsDiscarded(c: Counters, config: FlinkKafkaTransform, m: Matcher, rec: Record)
    requires rec.event.op == DeleteOp
    ensures Decide(config, m, rec) == Discarded
    ensures Step(c, config, m, rec) == Counters(c.transform, Bump(c.event, EventLabelsOf(rec)))
  {
  }

  /**
   * A record is forwarded exactly when it is not a delete, the rule table
   * resolves a target for its topic, database and table, and it has a key;
   * the send then goes to that target with the record's own key and payload.
   */
  lemma ForwardIff(config: FlinkKafkaTransform, m: Matcher, rec: Record, request: SendRequest)
    ensures Decide(config, m, rec) == Forward(request) <==>
      && rec.event.op != DeleteOp
      && SearchTopic(config, m, rec.topic, rec.event.source.db, rec.event.source.table) == Some(request.topic)
      && rec.key == Some(request.key)
      && request.payload == rec.payload
  {
  }

  /** A non-delete record is routed exactly where the rule table sends it. */
  lemma RoutedToIsSearchTopic(config: FlinkKafkaTransform, m: Matcher, rec: Record)
    requires rec.event.op != DeleteOp
    ensures Decide(config, m, rec).RoutedTo() == SearchTopic(config, m, rec.topic, rec.event.Db(), rec.event.Table())
    ensures Decide(config, m, rec).RoutedTo().None? <==> Decide(config, m, rec) == NoRoute
  {
  }

  /** A send goes to the target of the first rule matching the record. */
  lemma ForwardTargetsFirstHit(config: FlinkKafkaTransform, m: Matcher, rec: Record)
    requires Decide(config, m, rec).Forward?
    ensures exists i ::
      && IsFirstHit(m, config.regexTransforms, i, rec.topic, rec.event.Db(), rec.event.Table())
      && config.regexTransforms[i].transform.targetTopic == Decide(config, m, rec).request.topic
  {
  }

  /**
   * One record raises its observed counter by exactly one and no other; it
   * raises the forwarded counter of (target, op) by one when routed, before
   * and whatever the send's fate, and leaves that family alone otherwise.
   */
  lemma StepCounts(c: Counters, config: FlinkKafkaTransform, m: Matcher, rec: Record)
    ensures forall k :: (Count(Step(c, config, m, rec).event, k) ==
      Count(c.event, k) + (if k == EventLabelsOf(rec) then 1 else 0))
    ensures forall k :: (Count(Step(c, config, m, rec).transform, k) ==
      Count(c.transform, k) + (if ForwardLabelsOf(config, m, rec) == Some(k) then 1 else 0))
    ensures ForwardLabelsOf(config, m, rec).None? ==> Step(c, config, m, rec).transform == c.transform
  {
  }

  /** Per record, the observed family's sum rises by one and the forwarded family's by at most one. */
  lemma StepTotals(c: Counters, config: FlinkKafkaTransform, m: Matcher, rec: Record)
    ensures Total(Step(c, config, m, rec).event) == Total(c.event) + 1
    ensures Total(Step(c, config, m, rec).transform) <= Total(c.transform) + 1
  {
    BumpTotal(c.event, EventLabelsOf(rec));
    match ForwardLabelsOf(config, m, rec)
    case None =>
    case Some(key) => BumpTotal(c.transform, key);
  }

  /** Handling records never lowers a counter. */
  lemma {:induction false} RunGrows(c: Counters, config: FlinkKafkaTransform, m: Matcher, recs: seq<Record>)
    ensures Grows(c.event, Run(c, config, m, recs).event)
    ensures Grows(c.transform, Run(c, config, m, recs).transform)
  {
    if recs != [] {
      var before := Run(c, config, m, recs[..|recs| - 1]);
      RunGrows(c, config, m, recs[..|recs| - 1]);
      StepCounts(before, config, m, recs[|recs| - 1]);
    }
  }

  /** Every counter ends at its start plus the number of records that raise it: no loss, no double count. */
  lemma {:induction false} RunCountsExactly(c: Counters, config: FlinkKafkaTransform, m: Matcher, recs: seq<Record>)
    ensures forall k :: Count(Run(c, config, m, recs).event, k) == Count(c.event, k) + Observed(recs, k)
    ensures forall k :: (Count(Run(c, config, m, recs).transform, k) ==
      Count(c.transform, k) + Forwarded(config, m, recs, k))
  {
    if recs != [] {
      RunCountsExactly(c, config, m, recs[..|recs| - 1]);
      StepCounts(Run(c, config, m, recs[..|recs| - 1]), config, m, recs[|recs| - 1]);
    }
  }

  /** Over any run, the observed sum rises by the number of records and the forwarded sum by no more. */
  lemma {:induction false} RunTotals(c: Counters, config: FlinkKafkaTransform, m: Matcher, recs: seq<Record>)
    ensures Total(Run(c, config, m, recs).event) == Total(c.event) + |recs|
    ensures Total(Run(c, config, m, recs).transform) <= Total(c.transform) + |recs|
  {
    if recs != [] {
      RunTotals(c, config, m, recs[..|recs| - 1]);
      StepTotals(Run(c, config, m, recs[..|recs| - 1]), config, m, recs[|recs| - 1]);
    }
  }

  /** Starting from fresh metrics, the forwarded sum never exceeds the observed sum. */
  lemma FreshForwardedAtMostObserved(config: FlinkKafkaTransform, m: Matcher, recs: seq<Record>)
    ensures Total(Run(Fresh, config, m, recs).transform) <= Total(Run(Fresh, config, m, recs).event)
  {
    RunTotals(Fresh, config, m, recs);
  }

  /**
   * The repository's regex test end to end: with a rule whose pattern is
   * `gsms_msg_ticket_sms_[0-9]+`, an update on table `gsms_msg_ticket_sms_1009`
   * is sent on unchanged and counted once as forwarded; one on
   * `gsms_msg_frame_0908` is neither sent nor counted as forwarded.
   */
  lemma RegexTestHandling(kafka: Kafka, m: Matcher, topic: string, db: string, target: string, key: Bytes, payload: Bytes)
    requires m("gsms_msg_ticket_sms_[0-9]+", "gsms_msg_ticket_sms_1009")
    requires !m("gsms_msg_ticket_sms_[0-9]+", "gsms_msg_frame_0908")
    ensures var config := Load(kafka, [Transform(topic, db, "gsms_msg_ticket_sms_[0-9]+", target)]);
      var hit := Record(topic, Some(key), payload, DebeziumJson("u", Source(db, "gsms_msg_ticket_sms_1009")));
      var miss := Record(topic, Some(key), payload, DebeziumJson("u", Source(db, "gsms_msg_frame_0908")));
      && Decide(config, m, hit) == Forward(SendRequest(target, key, payload))
      && Count(Step(Fresh, config, m, hit).transform, TransformLabels(target, "u")) == 1
      && Decide(config, m, miss) == NoRoute
      && Step(Fresh, config, m, miss).transform == map[]
  {
  }
}
