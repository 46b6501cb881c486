# Fluid stream graph: a Dafny model

Fluid is a Java library for reactive data pipelines built on RxJava. In Fluid:

- a `DataStream` is a node in a graph;
- each operator (`transform`, `mergeWith`, `concatWith`, `zipWith` and others) builds a new node that points back to the node it was called on with `previous`;
- `DataStream.of(clazz)` builds a *connectable* root, which waits for a producer to be attached through its `StreamConnector`;
- `broadcastTo(targets...)` walks each target's `previous` chain to its root, binds every root to one shared replay of the broadcasting stream, and only then starts the replay.

Around this graph layer the project models three smaller pieces:

- the reserved message headers of `CommonHeaders`;
- the Kafka client configurations built by the `KafkaUsage` test helper;
- the value contract of `Source` and `Message`, as the library's `DefaultSourceTest` asserts it.

## How the model is built

- **`values.dfy`**: Java generics are erased, so every value on a graph edge is one `Value` (a string, an integer, a boolean, a `Pair` or a `Tuple`). Exceptions are a datatype that carries the Java message, if any.
- **`runs.dfy`**: a finite subscription is a `Run`: the `onNext` items, then completion or a failure. The RxJava operators the library relies on are functions on runs, each with its laws:
  - `map` is `MapRun`;
  - `filter` is `FilterRun`;
  - `concatWith` is `ConcatRun` and `ConcatAll`;
  - `mergeWith` is `MergeRun`. Its timing is set by an explicit schedule `pick`;
  - `zip` is `ZipRun` and `Zip3Run`;
  - `onErrorReturn` is `OnErrorReturn`;
  - `switchIfEmpty` is `SwitchIfEmpty`.
- **`data_stream_impl.dfy`**:
  - A `Flowable` is a lazy plan, the `Flow` datatype. `Eval(flow, env, timing)` gives the run it produces. `env` says what each connector is fed; `timing` gives the schedule of every merge.
  - `DataStreamImpl` is a class. Its fields `flow`, `connectable`, `previous` and `connector` are assigned only by its constructors. The accessors `previous()` and `isConnectable()` are those fields.
  - `StreamConnector` and the replay view are classes whose state `broadcastTo` and `connect` change.
  - Every operator method states that:
    - a null argument is rejected. `mergeWith`, `concatWith`, `zipWith`, `transform`, `transformWith` and `transformFlow` use their `requireNonNull` message. `catchAndReturn`, `onData` and `broadcastTo` throw a `NullPointerException` without a message;
    - otherwise it returns a fresh node derived from the receiver;
    - that node's output is a function of the receiver's output.
  - `transformWith` and `transformFlow` call a user function while the graph is built. That function is a `FlowBuilder`: it returns a rewriting flow, returns `null`, or throws. A `null` result fails the node's constructor with its `NullPointerException` (for `transformFlow`, RxJava's `fromPublisher` check inside `compose`). An exception propagates unchanged.
  - A replay emits only once it has been started. `Feeds` says what a connector bound to a started replay receives.
  - `mergeWith` and `concatWith` keep their fold loops.
  - `broadcastTo` keeps its outer loop over the targets and its inner walk along `previous`.
- **`messages.dfy`** and **`common_headers.dfy`**: a message is a payload plus an immutable header map. The reserved keys are looked up in that map.
- **`kafka_usage.dfy`**: `KafkaUsage` is a class with a `brokers` field. The two property builders fill a `Properties` table, modelled as a map, through checked `setProperty` calls.
- **`source.dfy`**: a `Source` is a value (name, attributes, data). Its operators return new sources, including `composeFlowable`, `composePayloadFlowable` and `mergeWith`. The literal scenarios of the test class are lemmas.

## Model

| member | source | states |
|---|---|---|
| Runs.MapRun | fluid-constructs/src/main/java/me/escoffier/fluid/constructs/impl/DataStreamImpl.java:90-93 | `flow.map`: one output per input, the i-th output is the mapper applied to the i-th input, and the terminal signal passes through |
| Runs.MapItems | fluid-constructs/src/main/java/me/escoffier/fluid/constructs/impl/DataStreamImpl.java:92 | mapping a sequence keeps its length and maps each position |
| Runs.FilterItems | fluid/src/test/java/me/escoffier/fluid/models/DefaultSourceTest.java:96-130 | filtering keeps a subsequence of the input; each element occurs as often as in the input if it passes, else not at all |
| Runs.FilterRun | fluid/src/test/java/me/escoffier/fluid/models/DefaultSourceTest.java:96-130 | the filtered run is a subsequence of the input with exactly the accepted elements, and it ends like the input |
| Runs.FilterAppend | fluid/src/test/java/me/escoffier/fluid/models/DefaultSourceTest.java:96-130 | filtering distributes over concatenation: filtering `s + t` is filtering `s`, then filtering `t` |
| Runs.FilterKeepsAll | fluid/src/test/java/me/escoffier/fluid/models/DefaultSourceTest.java:96-130 | a filter that accepts every element returns its input unchanged |
| Runs.FilterKeepsNone | fluid/src/test/java/me/escoffier/fluid/models/DefaultSourceTest.java:96-130 | a filter that rejects every element returns nothing |
| Runs.FilterPartition | fluid/src/test/java/me/escoffier/fluid/models/DefaultSourceTest.java:96-130 | filtering by a predicate and by its negation splits the input: the two multisets add up to the input's |
| Runs.ConcatRun | fluid-constructs/src/main/java/me/escoffier/fluid/constructs/impl/DataStreamImpl.java:55-62 | `concatWith`: the first run's items come first; a failure of the first run is the whole result; after a completed first run come the second run's items and its terminal signal |
| Runs.ConcatAll | fluid-constructs/src/main/java/me/escoffier/fluid/constructs/impl/DataStreamImpl.java:55-62 | a chain of `concatWith` starts with the receiver's items, and a failed receiver is the whole result |
| Runs.FirstFailure | fluid-constructs/src/main/java/me/escoffier/fluid/constructs/impl/DataStreamImpl.java:55-62 | the index of the first failed run: every run before it completed, and the run at it failed |
| Runs.ConcatAllShortCircuits | fluid-constructs/src/main/java/me/escoffier/fluid/constructs/impl/DataStreamImpl.java:55-62 | a chain of `concatWith` emits the items of every run up to the first failure, in argument order, and ends with that failure; with no failure it emits all items and completes |
| Runs.ConcatAllCompleted | fluid-constructs/src/main/java/me/escoffier/fluid/constructs/impl/DataStreamImpl.java:55-62 | when every input completes, the concatenation is all items in argument order, then completion |
| Runs.InterleavesAlone | fluid-constructs/src/main/java/me/escoffier/fluid/constructs/impl/DataStreamImpl.java:44-51 | a sequence interleaved with nothing is itself |
| Runs.InterleavingMultiset | fluid-constructs/src/main/java/me/escoffier/fluid/constructs/impl/DataStreamImpl.java:44-51 | an interleaving holds exactly the multiset union of its two inputs |
| Runs.MergeRun | fluid-constructs/src/main/java/me/escoffier/fluid/constructs/impl/DataStreamImpl.java:44-51 | `flow.mergeWith` under a schedule fails if and only if one of the inputs fails |
| Runs.MergeKeepsItems | fluid-constructs/src/main/java/me/escoffier/fluid/constructs/impl/DataStreamImpl.java:44-51 | under every schedule and every outcome, a merge never invents or duplicates an item |
| Runs.MergeInterleaves | fluid-constructs/src/main/java/me/escoffier/fluid/constructs/impl/DataStreamImpl.java:44-51 | merging two completed runs emits an interleaving of their items, each input keeping its own order |
| Runs.MergeCompleted | fluid-constructs/src/main/java/me/escoffier/fluid/constructs/impl/DataStreamImpl.java:44-51 | merging two completed runs completes and emits exactly the multiset union of their items |
| Runs.EveryInterleavingIsScheduled | fluid-constructs/src/main/java/me/escoffier/fluid/constructs/impl/DataStreamImpl.java:44-51 | every interleaving of two completed runs is the output of the merge under some schedule, so the model rules out no real ordering |
| Runs.MergeSynchronous | fluid/src/test/java/me/escoffier/fluid/models/DefaultSourceTest.java:161-170 | with synchronous inputs (no timing choice) a merge is a concatenation, which is why `s1.mergeWith(s2)` yields `a, b, c, d, e, f` in order |
| Runs.ZipItems | fluid-constructs/src/main/java/me/escoffier/fluid/constructs/impl/DataStreamImpl.java:64-69 | pairing by position: the output is as long as the shorter input, and its i-th element combines the i-th inputs |
| Runs.Zip3Items | fluid-constructs/src/main/java/me/escoffier/fluid/constructs/impl/DataStreamImpl.java:71-78 | the same for three inputs, with the length of the shortest |
| Runs.ZipRun | fluid-constructs/src/main/java/me/escoffier/fluid/constructs/impl/DataStreamImpl.java:64-69 | `zipWith`: positional pairing of length min; the shorter input's terminal signal ends the zip; it fails only if an input fails and completes when both complete |
| Runs.Zip3Run | fluid-constructs/src/main/java/me/escoffier/fluid/constructs/impl/DataStreamImpl.java:71-78 | `Flowable.zip` of three: positional triples of length min; it fails only if an input fails and completes when all three complete |
| Runs.OnErrorReturn | fluid-constructs/src/main/java/me/escoffier/fluid/constructs/impl/DataStreamImpl.java:36-39 | `onErrorReturn` always completes, and a completed input passes through unchanged |
| Runs.SwitchIfEmpty | fluid/src/test/java/me/escoffier/fluid/models/DefaultSourceTest.java:59-83 | `switchIfEmpty`: an input with items or a failed input passes through; an input that completes empty is replaced by the fallback |
| Runs.OnErrorReturnRecovers | fluid-constructs/src/main/java/me/escoffier/fluid/constructs/impl/DataStreamImpl.java:36-39 | `onErrorReturn`: the result always completes, keeps every input item in order, and adds exactly one item, the handler's value for the error, when the input failed |
| Runs.OnErrorReturnIdempotent | fluid-constructs/src/main/java/me/escoffier/fluid/constructs/impl/DataStreamImpl.java:36-39 | a second recovery is never triggered: recovering twice equals recovering once |
| DataStreams.Eval | fluid-constructs/src/main/java/me/escoffier/fluid/constructs/impl/DataStreamImpl.java:22-129 | the run a subscriber of a plan observes: `map` keeps the length, `onErrorReturn` always completes, a merge fails if and only if one of its inputs fails, and a zip is as long as its shorter input |
| DataStreams.EvalConcatAll | fluid-constructs/src/main/java/me/escoffier/fluid/constructs/impl/DataStreamImpl.java:55-62 | the flow built by the `concatWith` loop evaluates to the fold of `concatWith` over the runs of the receiver and the arguments, in argument order |
| DataStreams.EvalMergeAll | fluid-constructs/src/main/java/me/escoffier/fluid/constructs/impl/DataStreamImpl.java:42-51 | the flow built by the `mergeWith` loop, under any timing, fails if and only if an input fails, and otherwise emits the multiset union of all inputs' items |
| DataStreams.MergedAllSnoc | fluid-constructs/src/main/java/me/escoffier/fluid/constructs/impl/DataStreamImpl.java:47-49 | one more `mergeWith` step keeps that property for the inputs so far plus the new one |
| DataStreams.StreamConnector.constructor | fluid-constructs/src/main/java/me/escoffier/fluid/constructs/impl/DataStreamImpl.java:30 | a new connector has no producer attached |
| DataStreams.StreamConnector.ConnectDownstream | fluid-constructs/src/main/java/me/escoffier/fluid/constructs/impl/DataStreamImpl.java:121-124 | `connectDownstream(source)` attaches `source` as the producer |
| DataStreams.ReplayView.constructor | fluid-constructs/src/main/java/me/escoffier/fluid/constructs/impl/DataStreamImpl.java:103 | a new replay view is not started |
| DataStreams.ReplayView.Connect | fluid-constructs/src/main/java/me/escoffier/fluid/constructs/impl/DataStreamImpl.java:117 | `publish.connect()` starts the replay |
| DataStreams.DataStreamImpl.constructor | fluid-constructs/src/main/java/me/escoffier/fluid/constructs/impl/DataStreamImpl.java:22-27 | the node has the given `previous` and flow, is not connectable, has no connector, and its chain is well founded |
| DataStreams.DataStreamImpl.Of | fluid-constructs/src/main/java/me/escoffier/fluid/constructs/impl/DataStreamImpl.java:29-34 | `DataStream.of(clazz)`: a root (`previous` null), connectable, reading from a fresh connector with no producer attached |
| DataStreams.DataStreamImpl.Root | fluid-constructs/src/main/java/me/escoffier/fluid/constructs/impl/DataStreamImpl.java:107-110 | the head of the `previous` chain: it has no `previous`, it is the node itself for a root and the previous node's head otherwise, and its connector is the node's head connector |
| DataStreams.DataStreamImpl.CatchAndReturn | fluid-constructs/src/main/java/me/escoffier/fluid/constructs/impl/DataStreamImpl.java:36-39 | a null handler throws `NullPointerException`; otherwise a fresh non-connectable node derived from the receiver emits the receiver's run with a failure replaced by one item |
| DataStreams.DataStreamImpl.MergeWith | fluid-constructs/src/main/java/me/escoffier/fluid/constructs/impl/DataStreamImpl.java:42-51 | null `streams` throws with the `requireNonNull` message; a null element throws `NullPointerException`; otherwise a fresh derived node whose flow is the fold over the arguments, which fails if and only if an input fails and otherwise emits the multiset union of all items |
| DataStreams.DataStreamImpl.ConcatWith | fluid-constructs/src/main/java/me/escoffier/fluid/constructs/impl/DataStreamImpl.java:53-62 | the same null checks; otherwise a fresh derived node that emits the fold of `concatWith` over the receiver and the arguments in argument order |
| DataStreams.DataStreamImpl.ZipWith | fluid-constructs/src/main/java/me/escoffier/fluid/constructs/impl/DataStreamImpl.java:64-69 | a null stream throws with the `requireNonNull` message; otherwise a fresh derived node that zips the two runs into `Pair`s |
| DataStreams.DataStreamImpl.ZipWith3 | fluid-constructs/src/main/java/me/escoffier/fluid/constructs/impl/DataStreamImpl.java:71-78 | either stream null throws with the `requireNonNull` message; otherwise a fresh derived node that zips the three runs into `Tuple`s |
| DataStreams.DataStreamImpl.TransformWith | fluid-constructs/src/main/java/me/escoffier/fluid/constructs/impl/DataStreamImpl.java:83-87 | a null transformer throws with its `requireNonNull` message; a transformer that throws propagates its exception; one that returns `null` fails the constructor with the null-flow `NullPointerException`; otherwise a fresh derived node that emits the transformer's rewriting of the receiver's run |
| DataStreams.DataStreamImpl.Transform | fluid-constructs/src/main/java/me/escoffier/fluid/constructs/impl/DataStreamImpl.java:89-93 | a null mapper throws with its message; otherwise a fresh derived node that emits the receiver's run mapped item by item |
| DataStreams.DataStreamImpl.TransformFlow | fluid-constructs/src/main/java/me/escoffier/fluid/constructs/impl/DataStreamImpl.java:95-99 | a null mapper throws with its `requireNonNull` message; a mapper that throws propagates its exception; one that returns `null` fails `compose` with `NullPointerException("publisher is null")`; otherwise a fresh derived node that emits the mapper's rewriting of the receiver's whole run |
| DataStreams.DataStreamImpl.BroadcastTo | fluid-constructs/src/main/java/me/escoffier/fluid/constructs/impl/DataStreamImpl.java:101-119 | it builds a fresh replay node derived from the receiver and replaying its flow. Null `streams` throws `NullPointerException`. The targets before the first one whose chain does not end in a connectable root are bound to the replay node. That target throws `NullPointerException` if null, else `IllegalArgumentException("The stream head is not connectable")`. The replay is started if and only if every target was bound, and only the connectors of bound targets change |
| DataStreams.DataStreamImpl.Connect | fluid-constructs/src/main/java/me/escoffier/fluid/constructs/impl/DataStreamImpl.java:121-124 | a node without a connector throws `NullPointerException`; otherwise its connector's producer becomes `source`, and nothing else changes |
| DataStreams.DataStreamImpl.OnData | fluid-constructs/src/main/java/me/escoffier/fluid/constructs/impl/DataStreamImpl.java:126-129 | a null consumer throws `NullPointerException`; otherwise a fresh derived node that emits exactly the receiver's run |
| DataStreams.WalkToHead | fluid-constructs/src/main/java/me/escoffier/fluid/constructs/impl/DataStreamImpl.java:106-110 | the `while (first.previous() != null)` walk ends at the head of the target's chain, whose connector is the target's head connector |
| DataStreams.NewDataStream | fluid-constructs/src/main/java/me/escoffier/fluid/constructs/impl/DataStreamImpl.java:22-27 | a null flow throws `NullPointerException("The flow passed to the stream cannot be `null`")`; otherwise a new non-connectable node with that previous node and flow |
| DataStreams.FirstIneligible | fluid-constructs/src/main/java/me/escoffier/fluid/constructs/impl/DataStreamImpl.java:106-116 | the index of the first target `broadcastTo` rejects: every earlier target ends in a connectable root and the one at that index does not |
| DataStreams.BroadcastReplaysSource | fluid-constructs/src/main/java/me/escoffier/fluid/constructs/impl/DataStreamImpl.java:101-119 | once a target's root is bound to the replay node, the replay is started and the root is fed by it, the root emits exactly what the broadcasting stream emits |
| DataStreams.FedByReplay | fluid-constructs/src/main/java/me/escoffier/fluid/constructs/impl/DataStreamImpl.java:112 | a connector fed by a started replay node receives the broadcasting stream's run |
| DataStreams.BroadcastThenConcat | fluid-constructs/src/test/java/me/escoffier/fluid/constructs/SimpleExample.java:199-215 | two `of` heads, one upper-casing and one replacing by `"FOO"`, are fed by a broadcast of `a, b, c` and concatenated; whatever the connectors are fed by their bound producers, the result is `A, B, C, FOO, FOO, FOO` and completes |
| DataStreams.ExampleFlows | fluid-constructs/src/test/java/me/escoffier/fluid/constructs/SimpleExample.java:204-214 | the flows of that pipeline evaluate to `A, B, C, FOO, FOO, FOO` in every environment that feeds both connectors from the replay |
| DataStreams.ToUpperCase | fluid-constructs/src/test/java/me/escoffier/fluid/constructs/SimpleExample.java:204-205 | `toUpperCase` on a string payload keeps its length, leaves no lower-case ASCII letter and keeps every other character; other payloads pass unchanged |
| DataStreams.ExamplePipeline | fluid-constructs/src/test/java/me/escoffier/fluid/constructs/SimpleExample.java:211-214 | the runs of that pipeline: upper-casing `a, b, c`, then appending three `FOO`s |
| Messages.Message.Get | fluid/src/test/java/me/escoffier/fluid/models/DefaultSourceTest.java:219-220 | `get(key)` is present if and only if the header is set, and then holds its value |
| Messages.Message.With | fluid/src/test/java/me/escoffier/fluid/models/DefaultSourceTest.java:209-228 | `with(payload)` replaces the payload and keeps every header |
| Messages.Message.WithHeader | fluid/src/test/java/me/escoffier/fluid/models/DefaultSourceTest.java:227-229 | `with(key, value)` sets one header and keeps the payload and all other headers |
| Messages.Of | fluid/src/test/java/me/escoffier/fluid/models/DefaultSourceTest.java:227-229 | `new Message<>(payload)` has that payload and no header |
| CommonHeaders.Key | fluid-constructs/src/main/java/me/escoffier/fluid/constructs/CommonHeaders.java:15-17 | `key(data)` is `null` if and only if `fluid.key` is unset, the string when it holds one, and a `ClassCastException` otherwise |
| CommonHeaders.KeyOpt | fluid-constructs/src/main/java/me/escoffier/fluid/constructs/CommonHeaders.java:20-22 | `keyOpt(data)` is present exactly when `fluid.key` is set, with its value |
| CommonHeaders.Original | fluid-constructs/src/main/java/me/escoffier/fluid/constructs/CommonHeaders.java:25-27 | `original(data)` is the `fluid.original` header, `null` if and only if it is unset |
| CommonHeaders.OriginalOpt | fluid-constructs/src/main/java/me/escoffier/fluid/constructs/CommonHeaders.java:30-32 | `originalOpt(data)` is present exactly when `fluid.original` is set, with its value |
| CommonHeaders.ReservedNamesDiffer | fluid-constructs/src/main/java/me/escoffier/fluid/constructs/CommonHeaders.java:7-9 | the two reserved names `fluid.key` and `fluid.original` are distinct |
| CommonHeaders.ReservedHeadersIndependent | fluid-constructs/src/main/java/me/escoffier/fluid/constructs/CommonHeaders.java:7-32 | setting either reserved header leaves every lookup of the other unchanged |
| CommonHeaders.KeyAfterSet | fluid-constructs/src/main/java/me/escoffier/fluid/constructs/CommonHeaders.java:15-22 | after the key header is set to a string, `key` and `keyOpt` both return it |
| Kafka.LowerCase | kafka-connector/src/test/java/me/escoffier/fluid/kafka/KafkaUsage.java:47 | `toLowerCase()` keeps the length and lower-cases exactly the upper-case ASCII letters |
| Kafka.StrategyName | kafka-connector/src/test/java/me/escoffier/fluid/kafka/KafkaUsage.java:47 | `strategy.name()` is a non-empty upper-case ASCII constant name |
| Kafka.SetProperty | kafka-connector/src/test/java/me/escoffier/fluid/kafka/KafkaUsage.java:42 | `setProperty` with a null value throws `NullPointerException`; otherwise it sets the key and keeps every other entry |
| Kafka.KafkaUsage.constructor | kafka-connector/src/test/java/me/escoffier/fluid/kafka/KafkaUsage.java:29-31 | the broker list is stored as given, null included |
| Kafka.KafkaUsage.Default | kafka-connector/src/test/java/me/escoffier/fluid/kafka/KafkaUsage.java:33-35 | the default broker list is `localhost:9092` |
| Kafka.KafkaUsage.GetConsumerProperties | kafka-connector/src/test/java/me/escoffier/fluid/kafka/KafkaUsage.java:37-56 | a null group id throws `IllegalArgumentException("The groupId is required")`, and null brokers throw `NullPointerException`. Otherwise the table has exactly these keys: `bootstrap.servers`, `group.id` and `enable.auto.commit = "false"`; `auto.offset.reset` if and only if a strategy is given, holding its lower-cased name; `client.id` if and only if one is given, holding it |
| Kafka.KafkaUsage.GetProducerProperties | kafka-connector/src/test/java/me/escoffier/fluid/kafka/KafkaUsage.java:58-67 | null brokers throw `NullPointerException`; otherwise the table has exactly `bootstrap.servers`, `acks = "1"`, and `client.id` if and only if one is given, holding it |
| Kafka.LatestValue | kafka-connector/src/test/java/me/escoffier/fluid/kafka/KafkaUsage.java:45-48 | the strategy `LATEST` is written as `latest` |
| Kafka.EarliestValue | kafka-connector/src/test/java/me/escoffier/fluid/kafka/KafkaUsage.java:45-48 | the strategy `EARLIEST` is written as `earliest` |
| Kafka.NoneValue | kafka-connector/src/test/java/me/escoffier/fluid/kafka/KafkaUsage.java:45-48 | the strategy `NONE` is written as `none` |
| Kafka.LowerCaseIdempotent | kafka-connector/src/test/java/me/escoffier/fluid/kafka/KafkaUsage.java:47 | lower-casing an already lower-cased name changes nothing |
| Sources.IsBlank | fluid/src/test/java/me/escoffier/fluid/models/DefaultSourceTest.java:33-41 | a name is blank if and only if every character is a space or a control character, as `trim().isEmpty()` decides |
| Sources.Source.Named | fluid/src/test/java/me/escoffier/fluid/models/DefaultSourceTest.java:21-41 | `named(n)` succeeds if and only if `n` is non-null and not blank; the copy has that name and the same attributes and data; otherwise `IllegalArgumentException` |
| Sources.Source.Unnamed | fluid/src/test/java/me/escoffier/fluid/models/DefaultSourceTest.java:30 | `unnamed()` has no name and the same attributes and data |
| Sources.Source.Attr | fluid/src/test/java/me/escoffier/fluid/models/DefaultSourceTest.java:48-56 | `attr(k)` is present if and only if `k` is set, with its value |
| Sources.Source.WithAttribute | fluid/src/test/java/me/escoffier/fluid/models/DefaultSourceTest.java:50-52 | `withAttribute(k, v)` sets `k` to `v` and keeps every other attribute, the name and the data |
| Sources.Source.WithoutAttribute | fluid/src/test/java/me/escoffier/fluid/models/DefaultSourceTest.java:54-56 | `withoutAttribute(k)` removes `k` only, keeping the name and the data |
| Sources.Source.OrElse | fluid/src/test/java/me/escoffier/fluid/models/DefaultSourceTest.java:59-83 | `orElse(fb)` is the source's own data when it has items or fails, and `fb`'s data when it completes empty |
| Sources.Source.Filter | fluid/src/test/java/me/escoffier/fluid/models/DefaultSourceTest.java:96-103 | `filter(p)` keeps, in order, exactly the messages `p` accepts, each as often as it occurs |
| Sources.Source.FilterNot | fluid/src/test/java/me/escoffier/fluid/models/DefaultSourceTest.java:105-112 | `filterNot(p)` keeps, in order, exactly the messages `p` rejects |
| Sources.Source.FilterPayload | fluid/src/test/java/me/escoffier/fluid/models/DefaultSourceTest.java:114-121 | `filterPayload(p)` keeps exactly the messages whose payload `p` accepts, in order, with the same name and attributes |
| Sources.Source.FilterNotPayload | fluid/src/test/java/me/escoffier/fluid/models/DefaultSourceTest.java:123-130 | `filterNotPayload(p)` keeps exactly the messages whose payload `p` rejects, in order, with the same name and attributes |
| Sources.Source.MapPayload | fluid/src/test/java/me/escoffier/fluid/models/DefaultSourceTest.java:86-94 | `mapPayload(f)` keeps length and order, maps every payload and keeps every message's headers |
| Sources.Source.ZipWith | fluid/src/test/java/me/escoffier/fluid/models/DefaultSourceTest.java:186-198 | `zipWith(s2)` pairs payloads position by position, as many as the shorter source has, and completes when both complete |
| Sources.Source.ZipWith3 | fluid/src/test/java/me/escoffier/fluid/models/DefaultSourceTest.java:200-206 | `zipWith(s2, s3)` triples payloads position by position, as many as the shortest source has |
| Sources.Source.MergeWith | fluid/src/test/java/me/escoffier/fluid/models/DefaultSourceTest.java:161-170 | `mergeWith(s2)` keeps the name and attributes, fails if and only if one source fails, and when both complete emits exactly the union of their messages |
| Sources.Source.ComposeFlowable | fluid/src/test/java/me/escoffier/fluid/models/DefaultSourceTest.java:132-140 | `composeFlowable(t)` emits what `t` makes of the message run, with the same name and attributes |
| Sources.Source.ComposePayloadFlowable | fluid/src/test/java/me/escoffier/fluid/models/DefaultSourceTest.java:142-149 | `composePayloadFlowable(t)` collects the payloads `t` makes of the payload run, as header-less messages, and ends as `t`'s run ends |
| Sources.Source.Payloads | fluid/src/test/java/me/escoffier/fluid/models/DefaultSourceTest.java:68-70 | a list sink collects the payloads in order |
| Sources.From | fluid/src/test/java/me/escoffier/fluid/models/DefaultSourceTest.java:23 | `Source.from(items)` is unnamed, has no attributes, emits one header-less message per item in order, and completes |
| Sources.Empty | fluid/src/test/java/me/escoffier/fluid/models/DefaultSourceTest.java:64 | `Source.empty()` completes without any item |
| Sources.NameRoundTrip | fluid/src/test/java/me/escoffier/fluid/models/DefaultSourceTest.java:21-31 | an accepted name is the one reported; `unnamed` undoes `named` and `named` after `unnamed` renames |
| Sources.RenameTwice | fluid/src/test/java/me/escoffier/fluid/models/DefaultSourceTest.java:26-28 | only the last `named` counts |
| Sources.BlankNamesRejected | fluid/src/test/java/me/escoffier/fluid/models/DefaultSourceTest.java:33-41 | `named(null)`, the empty name and every name made only of spaces or control characters are rejected |
| Sources.WithoutAbsentAttribute | fluid/src/test/java/me/escoffier/fluid/models/DefaultSourceTest.java:54 | removing an unset attribute (`withoutAttribute("boo")`) gives the same source |
| Sources.WithThenWithout | fluid/src/test/java/me/escoffier/fluid/models/DefaultSourceTest.java:50-55 | setting then removing a fresh attribute gives the original source back |
| Sources.FilterSplits | fluid/src/test/java/me/escoffier/fluid/models/DefaultSourceTest.java:96-130 | `filter(p)` and `filterNot(p)` partition the messages of a source |
| Sources.OrElseEmpty | fluid/src/test/java/me/escoffier/fluid/models/DefaultSourceTest.java:72-82 | `empty.orElse(fb)` is `fb`'s data, and `empty.orElse(empty)` collects nothing |
| Sources.OrElseExamples | fluid/src/test/java/me/escoffier/fluid/models/DefaultSourceTest.java:59-75 | `from(a, b, c).orElse(from(d, e, f))` and `empty.orElse(from(a, b, c))` both collect `a, b, c` |
| Sources.MapPayloadExample | fluid/src/test/java/me/escoffier/fluid/models/DefaultSourceTest.java:86-94 | `from(1..5).mapPayload(i -> i + 1)` collects `2, 3, 4, 5, 6` |
| Sources.FilterPayloadSplit | fluid/src/test/java/me/escoffier/fluid/models/DefaultSourceTest.java:114-130 | on payloads that `p` first rejects and then accepts, `filterPayload(p)` collects the accepted part and `filterNotPayload(p)` the rejected part |
| Sources.FilterExample | fluid/src/test/java/me/escoffier/fluid/models/DefaultSourceTest.java:114-121 | `from(1..5).filterPayload(i -> i >= 3)` collects `3, 4, 5` |
| Sources.FilterNotExample | fluid/src/test/java/me/escoffier/fluid/models/DefaultSourceTest.java:123-130 | `from(1..5).filterNotPayload(i -> i >= 3)` collects `1, 2` |
| Sources.ZipExample | fluid/src/test/java/me/escoffier/fluid/models/DefaultSourceTest.java:186-198 | zipping `A, B, C` with `d, e, f` collects the pairs `(A, d), (B, e), (C, f)` |
| Sources.ComposeLikeMapPayload | fluid/src/test/java/me/escoffier/fluid/models/DefaultSourceTest.java:142-149 | composing the payload run by a pointwise map collects what `mapPayload` with that map collects |
| Sources.ComposeLikeMapPayloadMessages | fluid/src/test/java/me/escoffier/fluid/models/DefaultSourceTest.java:132-140 | composing the message run by "unwrap, map, rewrap" collects what `mapPayload` with that map collects |
| Sources.ComposeExample | fluid/src/test/java/me/escoffier/fluid/models/DefaultSourceTest.java:132-140 | `from(1..5).composeFlowable(payload, i -> i + 1, new Message)` collects `2, 3, 4, 5, 6` |
| Sources.ComposePayloadExample | fluid/src/test/java/me/escoffier/fluid/models/DefaultSourceTest.java:142-149 | `from(1..5).composePayloadFlowable(flow -> flow.map(i -> i + 1))` collects `2, 3, 4, 5, 6` |
| Sources.MergeExample | fluid/src/test/java/me/escoffier/fluid/models/DefaultSourceTest.java:161-170 | with synchronous sources, `from(a, b, c).mergeWith(from(d, e, f))` collects `a, b, c, d, e, f` |
| Sources.WithKeepsHeaders | fluid/src/test/java/me/escoffier/fluid/models/DefaultSourceTest.java:209-228 | a message stamped with `X-Timestamp` and `Random` keeps both headers across `with(newPayload)` |

## Left out

- The RxJava runtime is not modelled: subscription, demand and backpressure, the replay and publish buffers, and schedulers and delays. Each operator is its effect on a finite run. The relative timing of merged inputs is the `timing` parameter, and what each connector is fed is the `env` parameter.
- Infinite streams are not modelled: a `Run` is finite.
- `broadcastTo(Sink...)` and `to(sink)` (DataStreamImpl.java:139-171) are not modelled: they subscribe sinks and print errors. `flow()` only returns the field, modelled as `flow`.
- `StreamConnector` is not part of this model beyond `connectDownstream` attaching a producer. Its behaviour when bound twice is unknown, so the connector is modelled as a plain field update.
- DataStreams.DataStreamImpl.OnData: the side effects of the consumer are not modelled, only that the items pass through unchanged.
- DataStreams.DataStreamImpl.BroadcastTo: the promise that nothing else changes is stated by its `modifies` clause, the connectors of the bound targets' roots, and not by a separate `ensures`.
- The `flow` and `connector` fields are non-final in Java but only assigned by the constructors. They are constant here.
- Runs.ZipRun, Runs.Zip3Run: RxJava forwards an input's error as soon as it arrives, which may be before the shorter input's items have all been paired, and when inputs end together the signal it reports depends on timing. The model fixes one timing: an input's terminal signal is seen only once its items are used up, and among inputs that end together the first failure in argument order wins. So `[1, 2]` then a failure, zipped with `[9]` then completion, gives `(1, 9)` then completion, although RxJava may also fail that zip. The length and the terminal signal stated for a zip hold under that timing only; "a zip fails only if an input fails" and "it completes when all inputs complete" hold under every timing.
- KafkaUsage.produce, consume and their wrappers are not modelled: they are threads and Kafka clients. Neither is `continueIfNotExpired`, which reads the wall clock. Logging is left out as well.
- `Properties` is a `Hashtable`; it is modelled by its contents, a map from string to string.
- The `DefaultSource` implementation and the `Message` and `Data` classes are not among the modelled source files. `Source` and `Message` are modelled from the assertions of `DefaultSourceTest`, under these assumptions:
  - blank means `String.trim().isEmpty()`;
  - derived sources keep the name and attributes;
  - messages built by `zipWith` carry no headers;
  - `mapPayload` keeps each message's headers;
  - `composePayloadFlowable` rebuilds messages without headers.
- Sources.Source.Named: the message of the `IllegalArgumentException` is not stated, because the implementation that throws it is not part of this model.
- Sources.Source.ZipWith, Sources.Source.ZipWith3: the outcome is stated only for inputs that all complete, as with the zip of runs.
- The second half of `testMergeWith` (DefaultSourceTest.java:172-183) is not modelled: it depends on random delays. Its claim, that all eight items arrive, follows from the `mergeWith` contract, which holds under every schedule.
- `testDataTransformation` is modelled only for its header claims. Its random doubles and clock readings are left out (floating point, clock).
- CommonHeaders.Original: the cast `(T)` is unchecked in Java, so no `ClassCastException` arises at that point. A failure at the caller's use site is not modelled.
- `toUpperCase` and `toLowerCase` are modelled on ASCII letters only; Unicode case mapping is not modelled.
- Runs.MapRun, Runs.OnErrorReturn, DataStreams.DataStreamImpl.Transform, DataStreams.DataStreamImpl.CatchAndReturn, DataStreams.DataStreamImpl.OnData: user mappers, error handlers and consumers are total functions here. A callback that throws or returns `null`, which fails the stream in RxJava, is not modelled.
- DataStreams.Feeds, DataStreams.BroadcastReplaysSource, DataStreams.FedByReplay: a replay that is never started emits nothing, not even a terminal signal. No finite `Run` represents that, so `Feeds` says nothing about connectors bound to an unstarted replay, and `Eval` of a replay is the run it emits once started.
- DataStreams.Eval: the schedule of a merge is looked up by the merge plan's value, so two structurally equal merge plans in one graph share one schedule.
- DataStreams.DataStreamImpl.TransformFlow: the `"publisher is null"` message is RxJava's `fromPublisher` check, which is not among the modelled source files.
