/**
 * The counters of src/mq/mod.rs: two families of monotonic counters, each
 * keyed by a label set. A family maps each key it has created to its count;
 * a key never created reads as zero.
 */
module Mq {

  /** Labels of the forwarded-event family: target topic and operation. */
  datatype TransformLabels = TransformLabels(topic: string, op: string)

  /** Labels of the observed-event family: source topic, database, table and operation. */
  datatype EventLabels = EventLabels(topic: string, db: string, table: string, op: string)

  /** The value a family holds for a key; keys not yet created read as zero. */
  function Count<K>(family: map<K, nat>, key: K): nat
  {
    if key in family then family[key] else 0
  }

  /** `get_or_create(key).inc()`: create the counter at zero if absent, then add one. */
  function Bump<K(!new)>(family: map<K, nat>, key: K): (r: map<K, nat>)
    ensures r.Keys == family.Keys + {key}
    ensures Count(r, key) == Count(family, key) + 1
    ensures forall k :: k != key ==> Count(r, k) == Count(family, k)
  {
    family[key := Count(family, key) + 1]
  }

  /** No counter of `before` is larger than the same counter of `after`. */
  ghost predicate Grows<K(!new)>(before: map<K, nat>, after: map<K, nat>)
  {
    forall k :: Count(before, k) <= Count(after, k)
  }

  /** A bump never lowers a counter. */
  lemma BumpGrows<K(!new)>(family: map<K, nat>, key: K)
    ensures Grows(family, Bump(family, key))
  {
  }

  /**
   * Label sets compare field by field, so keys that differ in any one label
   * are separate counters: bumping one leaves the other as it was.
   */
  lemma LabelsSeparate(transforms: map<TransformLabels, nat>, events: map<EventLabels, nat>,
                       a: TransformLabels, b: TransformLabels, x: EventLabels, y: EventLabels)
    ensures a == b <==> a.topic == b.topic && a.op == b.op
    ensures x == y <==> x.topic == y.topic && x.db == y.db && x.table == y.table && x.op == y.op
    ensures a != b ==> Count(Bump(transforms, a), b) == Count(transforms, b)
    ensures x != y ==> Count(Bump(events, x), y) == Count(events, y)
  {
  }

  /** The sum of every counter in a family. */
  ghost function Total<K>(family: map<K, nat>): nat
    decreases |family|
  {
    if family == map[] then 0
    else
      var k :| k in family;
      family[k] + Total(family - {k})
  }

  /** The sum may be taken starting from any key. */
  lemma {:induction false} TotalWithout<K>(family: map<K, nat>, key: K)
    requires key in family
    ensures Total(family) == family[key] + Total(family - {key})
    decreases |family|
  {
    var k :| k in family && Total(family) == family[k] + Total(family - {k});
    if k != key {
      TotalWithout(family - {k}, key);
      TotalWithout(family - {key}, k);
      assert family - {k} - {key} == family - {key} - {k};
    }
  }

  /** A bump adds exactly one to the family's sum. */
  lemma BumpTotal<K(!new)>(family: map<K, nat>, key: K)
    ensures Total(Bump(family, key)) == Total(family) + 1
  {
    var r := Bump(family, key);
    TotalWithout(r, key);
    if key in family {
      TotalWithout(family, key);
      assert r - {key} == family - {key};
    } else {
      assert r - {key} == family;
    }
  }

  /** Both families at one moment. */
  datatype Counters = Counters(transform: map<TransformLabels, nat>, event: map<EventLabels, nat>)

  /** The families of a freshly built `Metrics`. */
  const Fresh: Counters := Counters(map[], map[])

  class Metrics {
    /** `flink_kafka_filter_transform`: events sent on, by target topic and operation. */
    var flinkKafkaFilterTransform: map<TransformLabels, nat>
    /** `flink_cdc_event`: events seen, by source topic, database, table and operation. */
    var flinkCdcEvent: map<EventLabels, nat>

    function Snapshot(): Counters
      reads this
    {
      Counters(flinkKafkaFilterTransform, flinkCdcEvent)
    }

    /** `Metrics::default`: both families empty, so every counter reads zero. */
    constructor Default()
      ensures Snapshot() == Fresh
      ensures forall k :: Count(flinkKafkaFilterTransform, k) == 0
      ensures forall k :: Count(flinkCdcEvent, k) == 0
    {
      flinkKafkaFilterTransform := map[];
      flinkCdcEvent := map[];
    }

    /** Raise `flink_kafka_filter_transform{topic, op}` by one; touch nothing else. */
    method IncFlinkKafkaFilterTransform(topic: string, op: string)
      modifies this
      ensures flinkKafkaFilterTransform == Bump(old(flinkKafkaFilterTransform), TransformLabels(topic, op))
      ensures flinkCdcEvent == old(flinkCdcEvent)
    {
      flinkKafkaFilterTransform := Bump(flinkKafkaFilterTransform, TransformLabels(topic, op));
    }

    /** Raise `flink_cdc_event{topic, db, table, op}` by one; touch nothing else. */
    method IncFlinkCdcEvent(topic: string, db: string, table: string, op: string)
      modifies this
      ensures flinkCdcEvent == Bump(old(flinkCdcEvent), EventLabels(topic, db, table, op))
      ensures flinkKafkaFilterTransform == old(flinkKafkaFilterTransform)
    {
      flinkCdcEvent := Bump(flinkCdcEvent, EventLabels(topic, db, table, op));
    }
  }
}
