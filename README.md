# flink-kafka-filter-transform in Dafny

A model of the decision core of a Debezium change-data-capture forwarder. The
forwarder reads change events from Kafka topics and rejects deletes. It sends
every other event on to the target topic of the first routing rule that
matches it. It also keeps two families of Prometheus counters: events observed
and events forwarded.

The model has four modules, one file each:

- `Wrappers` (`wrappers.dfy`): the `Option` datatype.
- `ConfigTransform` (`transform.dfy`) models `src/config/transform.rs` as pure
  functions over sequences. It holds the configuration records (`Kafka`,
  `Transform`, `RegexTransform`, `FlinkKafkaTransform`) and the compilation of
  the transforms into rules (`InitRegexTransforms`, `Load`). It also holds
  `Find`, the `find` over the rules, and `SearchTopic`. The `table()` and
  `target_topic()` accessors are the datatype fields `table` and
  `targetTopic`. `bootstrap_servers()` and `group()` are the fields of `Kafka`.
- `Mq` (`metrics.dfy`) models `src/mq/mod.rs`. A counter family is a
  `map<Labels, nat>`, and a key that was never created reads as zero
  (`Count`). `Bump` is `get_or_create(key).inc()`. The class `Metrics` holds
  the two families as fields. Its constructor is `default()`, and its two
  methods raise one key of one family and leave everything else as it was.
  `Total` is the sum of a family; the lemmas use it.
- `MqKafka` (`kafka.dfy`) models the closure that `src/mq/kafka.rs` passes
  to `try_for_each`. `Decide` is the decision taken for one decoded record.
  `Step` is its effect on the counters, and `Run` folds it over a run of
  records. `HandleRecord` is the closure body acting on a `Metrics` object.
  `ProcessRecords` is the consume loop over a finite sequence of records.

Regex matching is a parameter `m: Matcher`, a `(pattern, text) -> bool` that
stands for `Regex::is_match`. Every result holds for every matcher. The one
place where the engine's answers matter is the repository's own regex test.
There they enter as hypotheses (`RegexTestRouting`, `RegexTestHandling`).

Where the design description and the code differ, the model follows the code:

- The forwarded counter rises when a route is found. This happens before the
  send is built, and whatever the send's result (kafka.rs:75-78 against
  88-102). It is not tied to a successful publish.
- There is no parse-error counter and no publish-error counter.
- A routed record without a Kafka key has already been counted as forwarded
  when `message.key().unwrap()` at kafka.rs:81 fails. The spawned task then
  dies and nothing is sent. The model calls this outcome `MissingKey`.

Functions that only compute carry no contract of their own: `Decide`, `Step`,
`Run`, `Observed`, `Forwarded`, `EventLabelsOf`, `ForwardLabelsOf`, `Count`,
`Compile`, `IsMatch`, `Hit`, `TransformHit` and the `Source`/`DebeziumJson`
accessors. The lemmas below state what they mean.

## Model

| member | source | states |
|---|---|---|
| ConfigTransform.Borrowed | src/config/transform.rs:80-82 | the borrowed binding list has the same length and the same topic at every position |
| ConfigTransform.BindingTopics | src/config/transform.rs:44-46 | `binding_topics` returns exactly the configured bindings, in order |
| ConfigTransform.InitRegexTransforms | src/config/transform.rs:26-37 | one rule per transform, same length and order; rule `i` carries a copy of transform `i` and the pattern compiled from its `table` |
| ConfigTransform.InitRegexTransformsKeepsTransforms | src/config/transform.rs:30-35 | the declared transforms can be read back, unchanged and in order, from the compiled rules |
| ConfigTransform.Load | src/config/transform.rs:18-23 | after decoding, the configuration keeps its decoded sections and its rules are those compiled from `transforms` |
| ConfigTransform.Find | src/config/transform.rs:56-63 | `None` exactly when no rule has an equal source topic, an equal database and a pattern matching the table; otherwise the rule found is the first such rule |
| ConfigTransform.SearchTopic | src/config/transform.rs:52-65 | `None` exactly when no rule matches; a returned topic is the target of a matching rule with no matching rule before it |
| ConfigTransform.SearchTopicReturnsFirstHit | src/config/transform.rs:55-64 | whenever rule `i` is the first matching rule, its target is what `search_topic` returns |
| ConfigTransform.SearchTopicIff | src/config/transform.rs:55-65 | `search_topic` returns `Some(t)` if and only if `t` is the target of the first matching rule |
| ConfigTransform.EarlierRuleWins | src/config/transform.rs:56-63 | of two matching rules, the later one is never the first hit; the result comes from a rule declared no later than the earlier one |
| ConfigTransform.OverlappingPairEarlierWins | src/config/transform.rs:55-65 | two rules with the same topic and database whose patterns both match: the first rule's target is returned |
| ConfigTransform.LoadedSearchTopic | src/config/transform.rs:55-65 | on a loaded configuration, `search_topic` returns `Some(t)` if and only if `t` is the target of the first declared transform that matches |
| ConfigTransform.FindWithinBucket | src/config/transform.rs:52-61 | topic and database select by plain equality: searching only the rules with that topic and database, in declared order, finds the same rule |
| ConfigTransform.FindSeesTableOnlyThroughPatterns | src/config/transform.rs:59-63 | the table is seen only through the patterns: two tables that every pattern treats alike resolve to the same rule |
| ConfigTransform.RegexTestRouting | src/config/transform.rs:132-153 | `gsms_msg_ticket_sms_[0-9]+` matches `gsms_msg_ticket_sms_1009` but not `gsms_msg_frame_0908`, so that rule routes the first table and nothing routes the second |
| Mq.Bump | src/mq/mod.rs:83-88 | get-or-create then increment: the key is present afterwards and counts one more, so an absent key ends at 1; every other key is unchanged |
| Mq.BumpGrows | src/mq/mod.rs:82-100 | an increment never lowers any counter of the family |
| Mq.BumpTotal | src/mq/mod.rs:82-100 | an increment adds exactly one to the family's sum |
| Mq.LabelsSeparate | src/mq/mod.rs:35-53 | label sets are equal if and only if every field is equal; bumping one key leaves any different key as it was |
| Mq.Metrics.Default | src/mq/mod.rs:62-67 | both families start empty and every counter reads zero |
| Mq.Metrics.IncFlinkKafkaFilterTransform | src/mq/mod.rs:82-89 | the forwarded family becomes its old value bumped at `(topic, op)`; the observed family is unchanged |
| Mq.Metrics.IncFlinkCdcEvent | src/mq/mod.rs:91-100 | the observed family becomes its old value bumped at `(topic, db, table, op)`; the forwarded family is unchanged |
| MqKafka.EventLabelsAreDecodedFields | src/mq/kafka.rs:125-153 | the observed key is the message topic and the decoded `source.db`, `source.table` and `op`, verbatim |
| MqKafka.HandleRecord | src/mq/kafka.rs:52-107 | the closure body returns the decision for the record and leaves the counters as one `Step` from their old value |
| MqKafka.ProcessRecords | src/mq/kafka.rs:48-109 | handling records one after another yields each record's decision, and the counters become the fold of `Step` over the records |
| MqKafka.DeleteIsDiscarded | src/mq/kafka.rs:65-68 | an `op == "d"` record is discarded whatever the rules say; only its observed counter moves |
| MqKafka.ForwardIff | src/mq/kafka.rs:69-82 | a send happens if and only if the record is not a delete, `search_topic` resolves the target and the record has a key; it carries the original key and payload |
| MqKafka.RoutedToIsSearchTopic | src/mq/kafka.rs:69-74 | a non-delete record is routed exactly to what `search_topic` returns for its source topic, database and table; `None` means no route |
| MqKafka.ForwardTargetsFirstHit | src/mq/kafka.rs:70-82 | a send goes to the target of the first rule matching the record |
| MqKafka.StepCounts | src/mq/kafka.rs:56-78 | a record raises its observed counter by one and no other; a routed record raises `(target, op)` by one, whether or not the send later succeeds; otherwise the forwarded family is untouched |
| MqKafka.StepTotals | src/mq/kafka.rs:56-78 | per record, the observed sum rises by exactly one and the forwarded sum by at most one |
| MqKafka.RunGrows | src/mq/kafka.rs:56-78 | handling records never lowers any counter |
| MqKafka.RunCountsExactly | src/mq/kafka.rs:48-78 | after a run, each counter equals its start plus the number of records that raise it: no loss, no double counting |
| MqKafka.RunTotals | src/mq/kafka.rs:48-78 | over a run, the observed sum rises by the number of records and the forwarded sum by no more than that |
| MqKafka.FreshForwardedAtMostObserved | src/mq/kafka.rs:56-78 | from a fresh `Metrics`, the forwarded sum never exceeds the observed sum |
| MqKafka.RegexTestHandling | src/mq/kafka.rs:52-82 | with the repository's test pattern: an update on a matching table is sent unchanged and counted once as forwarded; one on a non-matching table is neither sent nor counted |

## Left out

- The regex engine and `Regex::new` (src/config/transform.rs:33, 62). Matching is the `Matcher` parameter. The start-up panic on a pattern that does not compile is not modelled: `Compile` always succeeds.
- That matching is a substring search, not anchored, is a property of the engine. It is not stated about `Matcher`. Only the repository's test case enters, as a hypothesis.
- Reading and YAML-decoding the configuration file in `new` (src/config/transform.rs:15-19). `Load` starts from the decoded sections.
- JSON decoding of the payload and its `unwrap`s (src/mq/kafka.rs:53-55). A `Record` carries the raw payload and the event it decodes to. A payload that is missing or does not decode is outside the model.
- The Kafka consumer and producer: client configuration, `subscribe`, the stream, `detach` and `send_result` with its logged result (src/mq/kafka.rs:29-46, 63, 88-102, 111-113). `HandleRecord` returns the send request instead of sending it.
- `tokio::spawn` (src/mq/kafka.rs:64). The observed increment runs before the spawn and the rest inside a task. Tasks of different records may interleave; the model handles each record as one sequential step. Counter increments commute, so the final counts agree under any interleaving, but the order of sends is not modelled.
- Prometheus registration and text encoding (src/mq/mod.rs:69-80), the wiring in `metrics_registry` and `consumer_kafka` (src/mq/mod.rs:14-29), and all of src/main.rs: the HTTP server, `/version`, `/metrics` and `LocalTimer`.
- Logging (`info!`, `warn!`).
- The test `test_match_target_topic` (src/config/transform.rs:156-165). It calls `search_topic` with one argument, which does not match the function's three parameters.
- Mq.Bump: counts are unbounded `nat`; the 64-bit overflow of a Prometheus counter is not modelled.
