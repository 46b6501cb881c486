/**
 * `DataStreamImpl`: the node of a dataflow graph. A node holds a lazily evaluated flow,
 * a back-reference to the node it was derived from, and, for a connectable root built
 * by `DataStream.of(clazz)`, a `StreamConnector` through which a producer is attached
 * later by `broadcastTo`.
 *
 * A `Flowable` is lazy: building one only describes what a subscriber will receive.
 * It is modelled as a `Flow` plan, and `Eval` gives the run a subscriber observes once
 * the plan is subscribed to. What reaches a connector and how the runtime times the
 * inputs of a merge are not decided by the node, so they are parameters of `Eval`.
 */
module DataStreams {
  import opened Wrappers
  import opened Values
  import opened Runs

  /** What each connector of a connectable root is fed. */
  type Env = StreamConnector -> Run<Value>

  /** The runtime's timing decisions for each merge (see `Runs.MergeRun`). */
  type Timing = Flow -> seq<bool>

  /** The per-item side effect of `onData`; its effects are not modelled. */
  type Consumer = Value -> ()

  /** A `Flowable` as built by the node operators. */
  datatype Flow =
    | Published(run: Run<Value>)                          // Flowable.fromPublisher of an external source
    | FromConnector(connector: StreamConnector)           // fed by whatever is connected later
    | Replayed(upstream: Flow, view: ReplayView)          // flow.replay()
    | Mapped(mapper: Value -> Value, upstream: Flow)      // flow.map(f)
    | Composed(transformer: Run<Value> -> Run<Value>, upstream: Flow)  // compose / Transformer.transform
    | Peeked(upstream: Flow)                              // flow.doOnNext(consumer)
    | ErrorReturned(handler: Throwable -> Value, upstream: Flow)       // flow.onErrorReturn(h)
    | Merged(left: Flow, right: Flow)                     // left.mergeWith(right)
    | Concatenated(first: Flow, second: Flow)             // first.concatWith(second)
    | Zipped(left: Flow, right: Flow)                     // left.zipWith(right, Pair::pair)
    | Zipped3(first: Flow, second: Flow, third: Flow)     // Flowable.zip(a, b, c, Tuple::tuple)

  /**
   * What a user function that builds a `Flowable` from the stream's flow does when an
   * operator calls it: it returns a flow that rewrites the run, returns `null`, or throws.
   */
  datatype FlowBuilder =
    | Builds(rewrite: Run<Value> -> Run<Value>)
    | BuildsNull
    | Throws(error: Exception)

  function PairOf(x: Value, y: Value): Value {
    Pair(x, y)
  }

  function TupleOf(x: Value, y: Value, z: Value): Value {
    Tuple([x, y, z])
  }

  /**
   * The run a subscriber of `f` observes; for a replay, the run it observes once the
   * replay is started (before that it observes nothing, see `Emitting`).
   */
  function Eval(f: Flow, env: Env, timing: Timing): (r: Run<Value>)
    ensures f.Mapped? ==> |r.items| == |Eval(f.upstream, env, timing).items|
    ensures f.ErrorReturned? ==> r.outcome == Completed
    ensures f.Merged? ==>
      (r.outcome.Failed? <==> Eval(f.left, env, timing).outcome.Failed? || Eval(f.right, env, timing).outcome.Failed?)
    ensures f.Zipped? ==> |r.items| == Min(|Eval(f.left, env, timing).items|, |Eval(f.right, env, timing).items|)
  {
    match f
    case Published(run) => run
    case FromConnector(c) => env(c)
    case Replayed(u, _) => Eval(u, env, timing)
    case Mapped(m, u) => MapRun(Eval(u, env, timing), m)
    case Composed(t, u) => t(Eval(u, env, timing))
    case Peeked(u) => Eval(u, env, timing)
    case ErrorReturned(h, u) => OnErrorReturn(Eval(u, env, timing), h)
    case Merged(l, r) => MergeRun(Eval(l, env, timing), Eval(r, env, timing), timing(f))
    case Concatenated(a, b) => ConcatRun(Eval(a, env, timing), Eval(b, env, timing))
    case Zipped(l, r) => ZipRun(Eval(l, env, timing), Eval(r, env, timing), PairOf)
    case Zipped3(a, b, c) => Zip3Run(Eval(a, env, timing), Eval(b, env, timing), Eval(c, env, timing), TupleOf)
  }

  function EvalAll(fs: seq<Flow>, env: Env, timing: Timing): seq<Run<Value>> {
    seq(|fs|, i requires 0 <= i < |fs| => Eval(fs[i], env, timing))
  }

  lemma EvalAllSnoc(fs: seq<Flow>, env: Env, timing: Timing)
    requires fs != []
    ensures EvalAll(fs, env, timing) == EvalAll(fs[..|fs| - 1], env, timing) + [Eval(fs[|fs| - 1], env, timing)]
  {
  }

  /** The flow `mergeWith` builds: `f.mergeWith(fs[0]).mergeWith(fs[1])...`. */
  ghost function MergeAllPlan(f: Flow, fs: seq<Flow>): Flow
    decreases |fs|
  {
    if fs == [] then f else Merged(MergeAllPlan(f, fs[..|fs| - 1]), fs[|fs| - 1])
  }

  /** The flow `concatWith` builds: `f.concatWith(fs[0]).concatWith(fs[1])...`. */
  ghost function ConcatAllPlan(f: Flow, fs: seq<Flow>): Flow
    decreases |fs|
  {
    if fs == [] then f else Concatenated(ConcatAllPlan(f, fs[..|fs| - 1]), fs[|fs| - 1])
  }

  /** The multiset union of the items of all runs. */
  ghost function SumItems(rs: seq<Run<Value>>): multiset<Value>
    decreases |rs|
  {
    if rs == [] then multiset{} else SumItems(rs[..|rs| - 1]) + multiset(rs[|rs| - 1].items)
  }

  /** A chain of `concatWith` emits the concatenation of the runs of its inputs, in argument order. */
  lemma {:induction false} EvalConcatAll(f: Flow, fs: seq<Flow>, env: Env, timing: Timing)
    ensures Eval(ConcatAllPlan(f, fs), env, timing) == ConcatAll(Eval(f, env, timing), EvalAll(fs, env, timing))
    decreases |fs|
  {
    if fs != [] {
      EvalConcatAll(f, fs[..|fs| - 1], env, timing);
      assert EvalAll(fs[..|fs| - 1], env, timing) == EvalAll(fs, env, timing)[..|fs| - 1];
    }
  }

  /**
   * A chain of `mergeWith`, under any timing, fails exactly when one of its inputs
   * fails, and otherwise emits the multiset union of the items of all inputs.
   */
  lemma {:induction false} EvalMergeAll(f: Flow, fs: seq<Flow>, env: Env, timing: Timing)
    ensures MergedAll([Eval(f, env, timing)] + EvalAll(fs, env, timing), Eval(MergeAllPlan(f, fs), env, timing))
    decreases |fs|
  {
    var all := [Eval(f, env, timing)] + EvalAll(fs, env, timing);
    if fs == [] {
      assert all == [Eval(f, env, timing)];
      assert all[..0] == [];
    } else {
      var init, last := fs[..|fs| - 1], fs[|fs| - 1];
      EvalMergeAll(f, init, env, timing);
      var prev, lastRun := Eval(MergeAllPlan(f, init), env, timing), Eval(last, env, timing);
      assert Eval(MergeAllPlan(f, fs), env, timing) == MergeRun(prev, lastRun, timing(MergeAllPlan(f, fs)));
      EvalAllSnoc(fs, env, timing);
      assert all == [Eval(f, env, timing)] + EvalAll(init, env, timing) + [lastRun];
      MergedAllSnoc([Eval(f, env, timing)] + EvalAll(init, env, timing), prev, lastRun, timing(MergeAllPlan(f, fs)));
    }
  }

  /** `out` is what merging all of `all` may emit: it fails iff an input fails, else it holds every item. */
  ghost predicate MergedAll(all: seq<Run<Value>>, out: Run<Value>) {
    && (out.outcome.Failed? <==> FirstFailure(all) < |all|)
    && (FirstFailure(all) == |all| ==> out.outcome == Completed && multiset(out.items) == SumItems(all))
  }

  lemma MergedAllSnoc(all: seq<Run<Value>>, prev: Run<Value>, last: Run<Value>, pick: seq<bool>)
    requires MergedAll(all, prev)
    ensures MergedAll(all + [last], MergeRun(prev, last, pick))
  {
    FirstFailureSnoc(all, last);
    assert (all + [last])[..|all|] == all;
    if FirstFailure(all + [last]) == |all| + 1 {
      MergeCompleted(prev, last, pick);
    }
  }

  /** The registration point of a connectable root; `connectDownstream` attaches the producer. */
  class StreamConnector {
    var downstream: DataStreamImpl?

    constructor ()
      ensures downstream == null
    {
      downstream := null;
    }

    method ConnectDownstream(source: DataStreamImpl?)
      modifies this
      ensures downstream == source
    {
      downstream := source;
    }
  }

  /** The `ConnectableFlowable` of `flow.replay()`: it starts replaying once connected. */
  class ReplayView {
    var connected: bool

    constructor ()
      ensures !connected
    {
      connected := false;
    }

    method Connect()
      modifies this
      ensures connected
    {
      connected := true;
    }
  }

  const FLOW_NULL := "The flow passed to the stream cannot be `null`"
  /** The message of RxJava's own `requireNonNull` in `Flowable.fromPublisher`. */
  const PUBLISHER_NULL := "publisher is null"
  const STREAMS_NULL := "The given streams cannot be `null`"
  const STREAM_NULL := "The given stream cannot be `null`"
  const TRANSFORMER_NULL := "The given transformer must not be `null`"
  const MAPPER_NULL := "The mapper mapper cannot be `null'"
  const NOT_CONNECTABLE := "The stream head is not connectable"

  class DataStreamImpl {
    // `flow` and `connector` are only assigned by the constructors.
    const flow: Flow
    const connectable: bool
    const previous: DataStreamImpl?
    const connector: StreamConnector?
    /** The length of the `previous` chain; it makes walking the chain terminate. */
    ghost const depth: nat
    /** The connector of the head of the `previous` chain, `null` when the head is not connectable. */
    ghost const headConnector: StreamConnector?

    /**
     * Holds of every node the constructors build: the `previous` chain is finite, and
     * exactly the connectable nodes have a connector, are roots and read from it.
     */
    ghost predicate Valid()
      decreases depth
    {
      && (previous != null ==> previous.depth < depth && previous.Valid())
      && (connectable <==> connector != null)
      && (connectable ==> previous == null && flow.FromConnector? && flow.connector == connector)
      && headConnector == (if previous == null then connector else previous.headConnector)
    }

    /** A node built by an operator of `receiver`. */
    ghost predicate DerivedFrom(receiver: DataStreamImpl) {
      previous == receiver && !connectable && connector == null && Valid()
    }

    /** `DataStreamImpl(previous, flow)`: a node that is not connectable. */
    constructor (previous: DataStreamImpl?, flow: Flow)
      requires previous != null ==> previous.Valid()
      ensures this.previous == previous && this.flow == flow
      ensures !connectable && connector == null && Valid()
    {
      this.flow := flow;
      this.previous := previous;
      this.connectable := false;
      this.connector := null;
      this.depth := if previous == null then 0 else previous.depth + 1;
      this.headConnector := if previous == null then null else previous.headConnector;
    }

    /** `DataStreamImpl(clazz)`, used by `DataStream.of(clazz)`: a connectable root with a fresh connector. */
    constructor Of()
      ensures previous == null && connectable && Valid()
      ensures connector != null && fresh(connector) && connector.downstream == null
    {
      var c := new StreamConnector();
      connector := c;
      flow := FromConnector(c);
      previous := null;
      connectable := true;
      depth := 0;
      headConnector := c;
    }

    /** The head of the `previous` chain. */
    function Root(): (r: DataStreamImpl)
      requires Valid()
      ensures r.previous == null && r.Valid() && r.connector == headConnector
      ensures previous == null ==> r == this
      ensures previous != null ==> r == previous.Root()
      decreases depth
    {
      if previous == null then this else previous.Root()
    }

    /** `catchAndReturn(errorHandler)`: a failure of this stream is replaced by one item, then completion. */
    method CatchAndReturn(errorHandler: Option<Throwable -> Value>) returns (r: Result<DataStreamImpl, Exception>)
      requires Valid()
      ensures errorHandler.None? ==> r == Err(NullPointerException(None))
      ensures errorHandler.Some? ==>
        && r.Ok? && fresh(r.value) && r.value.DerivedFrom(this)
        && forall env: Env, timing: Timing :: Eval(r.value.flow, env, timing) == OnErrorReturn(Eval(flow, env, timing), errorHandler.value)
    {
      if errorHandler.None? {
        return Err(NullPointerException(None));
      }
      var node := new DataStreamImpl(this, ErrorReturned(errorHandler.value, flow));
      return Ok(node);
    }

    /** `mergeWith(streams...)`: folds `mergeWith` over the arguments. */
    method MergeWith(streams: Option<seq<DataStreamImpl?>>) returns (r: Result<DataStreamImpl, Exception>)
      requires Valid()
      ensures streams.None? ==> r == Err(NullPointerException(Some(STREAMS_NULL)))
      ensures streams.Some? && null in streams.value ==> r == Err(NullPointerException(None))
      ensures streams.Some? && null !in streams.value ==>
        && r.Ok? && fresh(r.value) && r.value.DerivedFrom(this)
        && r.value.flow == MergeAllPlan(flow, FlowsOf(streams.value))
        && forall env: Env, timing: Timing ::
             MergedAll([Eval(flow, env, timing)] + EvalAll(FlowsOf(streams.value), env, timing), Eval(r.value.flow, env, timing))
    {
      if streams.None? {
        return Err(NullPointerException(Some(STREAMS_NULL)));
      }
      var ss := streams.value;
      var merged := flow;
      for i := 0 to |ss|
        invariant null !in ss[..i]
        invariant merged == MergeAllPlan(flow, FlowsOf(ss[..i]))
      {
        if ss[i] == null {
          return Err(NullPointerException(None));
        }
        FlowsOfSnoc(ss[..i], ss[i]);
        assert ss[..i + 1] == ss[..i] + [ss[i]];
        merged := Merged(merged, ss[i].flow);
      }
      assert ss[..|ss|] == ss;
      var node := new DataStreamImpl(this, merged);
      forall env: Env, timing: Timing {
        EvalMergeAll(flow, FlowsOf(ss), env, timing);
      }
      return Ok(node);
    }

    /** `concatWith(streams...)`: folds `concatWith` over the arguments. */
    method ConcatWith(streams: Option<seq<DataStreamImpl?>>) returns (r: Result<DataStreamImpl, Exception>)
      requires Valid()
      ensures streams.None? ==> r == Err(NullPointerException(Some(STREAMS_NULL)))
      ensures streams.Some? && null in streams.value ==> r == Err(NullPointerException(None))
      ensures streams.Some? && null !in streams.value ==>
        && r.Ok? && fresh(r.value) && r.value.DerivedFrom(this)
        && r.value.flow == ConcatAllPlan(flow, FlowsOf(streams.value))
        && forall env: Env, timing: Timing :: Eval(r.value.flow, env, timing)
             == ConcatAll(Eval(flow, env, timing), EvalAll(FlowsOf(streams.value), env, timing))
    {
      if streams.None? {
        return Err(NullPointerException(Some(STREAMS_NULL)));
      }
      var ss := streams.value;
      var newFlow := flow;
      for i := 0 to |ss|
        invariant null !in ss[..i]
        invariant newFlow == ConcatAllPlan(flow, FlowsOf(ss[..i]))
      {
        if ss[i] == null {
          return Err(NullPointerException(None));
        }
        FlowsOfSnoc(ss[..i], ss[i]);
        assert ss[..i + 1] == ss[..i] + [ss[i]];
        newFlow := Concatenated(newFlow, ss[i].flow);
      }
      assert ss[..|ss|] == ss;
      var node := new DataStreamImpl(this, newFlow);
      forall env: Env, timing: Timing {
        EvalConcatAll(flow, FlowsOf(ss), env, timing);
      }
      return Ok(node);
    }

    /** `zipWith(stream)`: pairs the items of the two streams by position. */
    method ZipWith(stream: DataStreamImpl?) returns (r: Result<DataStreamImpl, Exception>)
      requires Valid()
      ensures stream == null ==> r == Err(NullPointerException(Some(STREAM_NULL)))
      ensures stream != null ==>
        && r.Ok? && fresh(r.value) && r.value.DerivedFrom(this)
        && forall env: Env, timing: Timing :: Eval(r.value.flow, env, timing)
             == ZipRun(Eval(flow, env, timing), Eval(stream.flow, env, timing), PairOf)
    {
      if stream == null {
        return Err(NullPointerException(Some(STREAM_NULL)));
      }
      var node := new DataStreamImpl(this, Zipped(flow, stream.flow));
      return Ok(node);
    }

    /** `zipWith(stream1, stream2)`: triples the items of the three streams by position. */
    method ZipWith3(stream1: DataStreamImpl?, stream2: DataStreamImpl?) returns (r: Result<DataStreamImpl, Exception>)
      requires Valid()
      ensures stream1 == null || stream2 == null ==> r == Err(NullPointerException(Some(STREAM_NULL)))
      ensures stream1 != null && stream2 != null ==>
        && r.Ok? && fresh(r.value) && r.value.DerivedFrom(this)
        && forall env: Env, timing: Timing :: Eval(r.value.flow, env, timing)
             == Zip3Run(Eval(flow, env, timing), Eval(stream1.flow, env, timing), Eval(stream2.flow, env, timing), TupleOf)
    {
      if stream1 == null {
        return Err(NullPointerException(Some(STREAM_NULL)));
      }
      if stream2 == null {
        return Err(NullPointerException(Some(STREAM_NULL)));
      }
      var node := new DataStreamImpl(this, Zipped3(flow, stream1.flow, stream2.flow));
      return Ok(node);
    }

    /**
     * `transformWith(transformer)`: the transformer is called at once on this stream's
     * flow. Whatever it throws leaves the operator, and a `null` result is refused by
     * the constructor's `requireNonNull`; otherwise the new node emits the rewritten run.
     */
    method TransformWith(transformer: Option<FlowBuilder>) returns (r: Result<DataStreamImpl, Exception>)
      requires Valid()
      ensures transformer.None? ==> r == Err(NullPointerException(Some(TRANSFORMER_NULL)))
      ensures transformer.Some? && transformer.value.Throws? ==> r == Err(transformer.value.error)
      ensures transformer.Some? && transformer.value.BuildsNull? ==> r == Err(NullPointerException(Some(FLOW_NULL)))
      ensures transformer.Some? && transformer.value.Builds? ==>
        && r.Ok? && fresh(r.value) && r.value.DerivedFrom(this)
        && forall env: Env, timing: Timing :: Eval(r.value.flow, env, timing) == transformer.value.rewrite(Eval(flow, env, timing))
    {
      if transformer.None? {
        return Err(NullPointerException(Some(TRANSFORMER_NULL)));
      }
      var b := transformer.value;
      if b.Throws? {
        return Err(b.error);
      }
      var built := if b.Builds? then Some(Composed(b.rewrite, flow)) else None;
      r := NewDataStream(this, built);
    }

    /** `transform(mapper)`: one output item per input item. */
    method Transform(mapper: Option<Value -> Value>) returns (r: Result<DataStreamImpl, Exception>)
      requires Valid()
      ensures mapper.None? ==> r == Err(NullPointerException(Some(MAPPER_NULL)))
      ensures mapper.Some? ==>
        && r.Ok? && fresh(r.value) && r.value.DerivedFrom(this)
        && forall env: Env, timing: Timing :: Eval(r.value.flow, env, timing) == MapRun(Eval(flow, env, timing), mapper.value)
    {
      if mapper.None? {
        return Err(NullPointerException(Some(MAPPER_NULL)));
      }
      var node := new DataStreamImpl(this, Mapped(mapper.value, flow));
      return Ok(node);
    }

    /**
     * `transformFlow(mapper)`: `flow.compose(mapper)` calls the mapper at once on this
     * stream's flow. Whatever it throws leaves the operator, and a `null` result is
     * refused by RxJava's `Flowable.fromPublisher` inside `compose`; otherwise the new
     * node emits the rewritten run.
     */
    method TransformFlow(mapper: Option<FlowBuilder>) returns (r: Result<DataStreamImpl, Exception>)
      requires Valid()
      ensures mapper.None? ==> r == Err(NullPointerException(Some(MAPPER_NULL)))
      ensures mapper.Some? && mapper.value.Throws? ==> r == Err(mapper.value.error)
      ensures mapper.Some? && mapper.value.BuildsNull? ==> r == Err(NullPointerException(Some(PUBLISHER_NULL)))
      ensures mapper.Some? && mapper.value.Builds? ==>
        && r.Ok? && fresh(r.value) && r.value.DerivedFrom(this)
        && forall env: Env, timing: Timing :: Eval(r.value.flow, env, timing) == mapper.value.rewrite(Eval(flow, env, timing))
    {
      if mapper.None? {
        return Err(NullPointerException(Some(MAPPER_NULL)));
      }
      var b := mapper.value;
      if b.Throws? {
        return Err(b.error);
      }
      if b.BuildsNull? {
        return Err(NullPointerException(Some(PUBLISHER_NULL)));
      }
      var node := new DataStreamImpl(this, Composed(b.rewrite, flow));
      return Ok(node);
    }

    /**
     * `broadcastTo(streams...)`: binds the root of every target to a replay of this
     * stream, then starts the replay. A target whose root is not connectable throws
     * `IllegalArgumentException` (a `null` target, `NullPointerException`); the targets
     * before it stay bound and the replay is never started. `replay` is the node built
     * for the replay, returned on success.
     */
    method BroadcastTo(streams: Option<seq<DataStreamImpl?>>) returns (r: Result<DataStreamImpl, Exception>, ghost replay: DataStreamImpl)
      requires Valid()
      requires streams.Some? ==> AllValid(streams.value)
      modifies if streams.Some? then RootConnectors(streams.value, FirstIneligible(streams.value)) else {}
      ensures fresh(replay) && replay.DerivedFrom(this)
      ensures replay.flow.Replayed? && replay.flow.upstream == flow && fresh(replay.flow.view)
      ensures replay.flow.view.connected <==> r.Ok?
      ensures streams.None? ==> r == Err(NullPointerException(None))
      ensures streams.Some? ==>
        var ss := streams.value;
        var k := FirstIneligible(ss);
        && (k == |ss| ==> r == Ok(replay))
        && (k < |ss| && ss[k] == null ==> r == Err(NullPointerException(None)))
        && (k < |ss| && ss[k] != null ==> r == Err(IllegalArgumentException(Some(NOT_CONNECTABLE))))
        && (forall i :: 0 <= i < k ==> ss[i].headConnector.downstream == replay)
    {
      var view := new ReplayView();
      var stream := new DataStreamImpl(this, Replayed(flow, view));
      replay := stream;
      if streams.None? {
        r := Err(NullPointerException(None));
        return;
      }
      var ss := streams.value;
      ghost var k := FirstIneligible(ss);
      for i := 0 to |ss|
        invariant i <= k
        invariant forall j :: 0 <= j < i ==> Eligible(ss[j]) && ss[j].headConnector.downstream == stream
        invariant !view.connected
      {
        var s := ss[i];
        if s == null {
          assert k == i;
          r := Err(NullPointerException(None));
          return;
        }
        var first := WalkToHead(s);
        if first.connectable {
          assert i < k;
          assert first.connector in RootConnectors(ss, k);
          var _ := first.Connect(stream);
        } else {
          assert !Eligible(ss[i]) && k == i;
          r := Err(IllegalArgumentException(Some(NOT_CONNECTABLE)));
          return;
        }
      }
      view.Connect();
      r := Ok(stream);
    }

    /** `connect(source)`: hands `source` to this node's connector; a node without one throws. */
    method Connect(source: DataStreamImpl?) returns (e: Option<Exception>)
      modifies if connector == null then {} else {connector}
      ensures connector == null ==> e == Some(NullPointerException(None))
      ensures connector != null ==> e == None && connector.downstream == source
    {
      if connector == null {
        return Some(NullPointerException(None));
      }
      connector.ConnectDownstream(source);
      return None;
    }

    /** `onData(consumer)`: the same items, each also handed to `consumer`. */
    method OnData(consumer: Option<Consumer>) returns (r: Result<DataStreamImpl, Exception>)
      requires Valid()
      ensures consumer.None? ==> r == Err(NullPointerException(None))
      ensures consumer.Some? ==>
        && r.Ok? && fresh(r.value) && r.value.DerivedFrom(this)
        && forall env: Env, timing: Timing :: Eval(r.value.flow, env, timing) == Eval(flow, env, timing)
    {
      if consumer.None? {
        return Err(NullPointerException(None));
      }
      var node := new DataStreamImpl(this, Peeked(flow));
      return Ok(node);
    }
  }

  /** The walk along `previous` that `broadcastTo` does to find a target's head. */
  method WalkToHead(s: DataStreamImpl) returns (first: DataStreamImpl)
    requires s.Valid()
    ensures first == s.Root() && first.connector == s.headConnector
  {
    first := s;
    while first.previous != null
      invariant first.Valid() && first.Root() == s.Root()
      decreases first.depth
    {
      first := first.previous;
    }
  }

  /** The public constructor with its `requireNonNull` check on `flow`. */
  method NewDataStream(previous: DataStreamImpl?, flow: Option<Flow>) returns (r: Result<DataStreamImpl, Exception>)
    requires previous != null ==> previous.Valid()
    ensures flow.None? ==> r == Err(NullPointerException(Some(FLOW_NULL)))
    ensures flow.Some? ==>
      && r.Ok? && fresh(r.value) && r.value.previous == previous
      && !r.value.connectable && r.value.Valid() && r.value.flow == flow.value
  {
    if flow.None? {
      return Err(NullPointerException(Some(FLOW_NULL)));
    }
    var node := new DataStreamImpl(previous, flow.value);
    return Ok(node);
  }

  ghost function FlowsOf(ss: seq<DataStreamImpl?>): seq<Flow>
    requires null !in ss
  {
    seq(|ss|, i requires 0 <= i < |ss| => ss[i].flow)
  }

  lemma FlowsOfSnoc(ss: seq<DataStreamImpl?>, s: DataStreamImpl)
    requires null !in ss
    ensures null !in ss + [s]
    ensures FlowsOf(ss + [s]) == FlowsOf(ss) + [s.flow]
    ensures FlowsOf(ss + [s])[..|ss|] == FlowsOf(ss)
  {
    assert FlowsOf(ss + [s]) == FlowsOf(ss) + [s.flow];
  }

  ghost predicate AllValid(ss: seq<DataStreamImpl?>) {
    forall i :: 0 <= i < |ss| && ss[i] != null ==> ss[i].Valid()
  }

  /** A target `broadcastTo` can bind: its chain ends in a connectable root. */
  ghost predicate Eligible(s: DataStreamImpl?)
    requires s != null ==> s.Valid()
  {
    s != null && s.headConnector != null
  }

  /** The index of the first target `broadcastTo` rejects, or `|ss|` when it binds all of them. */
  ghost function FirstIneligible(ss: seq<DataStreamImpl?>): (k: nat)
    requires AllValid(ss)
    ensures k <= |ss|
    ensures forall i :: 0 <= i < k ==> Eligible(ss[i])
    ensures k < |ss| ==> !Eligible(ss[k])
  {
    if ss == [] then 0 else if !Eligible(ss[0]) then 0 else 1 + FirstIneligible(ss[1..])
  }

  /** The connectors of the roots of the first `n` targets. */
  ghost function RootConnectors(ss: seq<DataStreamImpl?>, n: nat): set<StreamConnector>
    requires AllValid(ss) && n <= |ss|
  {
    set i | 0 <= i < n && ss[i] != null && ss[i].headConnector != null :: ss[i].headConnector
  }

  /**
   * Whether a producer emits at all: a replay node emits nothing, not even a terminal
   * signal, until its replay is started; any other producer emits once subscribed.
   */
  ghost predicate Emitting(p: DataStreamImpl)
    reads if p.flow.Replayed? then {p.flow.view} else {}
  {
    p.flow.Replayed? ==> p.flow.view.connected
  }

  /**
   * A connector whose attached producer emits is fed what that producer emits. Nothing
   * is said of a connector whose producer never emits (a run is always finite).
   */
  ghost predicate Feeds(env: Env, timing: Timing, c: StreamConnector)
    reads c, if c.downstream != null && c.downstream.flow.Replayed? then {c.downstream.flow.view} else {}
  {
    c.downstream != null && Emitting(c.downstream) ==> env(c) == Eval(c.downstream.flow, env, timing)
  }

  /**
   * Once `broadcastTo` has bound a target's root to the replay node and the connector
   * is fed by it, the root emits exactly what the broadcasting stream emits.
   */
  lemma BroadcastReplaysSource(source: DataStreamImpl, replay: DataStreamImpl, target: DataStreamImpl, env: Env, timing: Timing)
    requires target.Valid() && target.Root().connectable
    requires replay.flow.Replayed? && replay.flow.upstream == source.flow && replay.flow.view.connected
    requires target.Root().connector.downstream == replay
    requires Feeds(env, timing, target.Root().connector)
    ensures Eval(target.Root().flow, env, timing) == Eval(source.flow, env, timing)
  {
  }

  lemma FedByReplay(c: StreamConnector, replay: DataStreamImpl, env: Env, timing: Timing)
    requires c.downstream == replay && replay.flow.Replayed? && replay.flow.view.connected && Feeds(env, timing, c)
    ensures env(c) == Eval(replay.flow.upstream, env, timing)
  {
  }

  /** `String.toUpperCase()` on ASCII letters, applied to string payloads; other values are kept. */
  function ToUpperCase(v: Value): (r: Value)
    ensures !v.Str? ==> r == v
    ensures v.Str? ==> r.Str? && |r.s| == |v.s|
    ensures v.Str? ==> forall i :: 0 <= i < |v.s| ==> !('a' <= r.s[i] <= 'z')
    ensures v.Str? ==> forall i :: 0 <= i < |v.s| && !('a' <= v.s[i] <= 'z') ==> r.s[i] == v.s[i]
  {
    if v.Str? then Str(seq(|v.s|, i requires 0 <= i < |v.s| =>
      if 'a' <= v.s[i] <= 'z' then (v.s[i] as int - 32) as char else v.s[i]))
    else v
  }

  function Foo(v: Value): Value {
    Str("FOO")
  }

  /**
   * The broadcast-then-concat pipeline of the library's examples: two connectable heads,
   * one upper-casing and one replacing every item by `"FOO"`, both fed by a broadcast of
   * `a, b, c`, then concatenated. Whatever feeds the two connectors from the producers
   * bound to them, the result is `A, B, C, FOO, FOO, FOO`.
   */
  method BroadcastThenConcat() returns (r: DataStreamImpl, c1: StreamConnector, c2: StreamConnector)
    ensures forall env: Env, timing: Timing :: Feeds(env, timing, c1) && Feeds(env, timing, c2) ==>
      Eval(r.flow, env, timing) == Run([Str("A"), Str("B"), Str("C"), Str("FOO"), Str("FOO"), Str("FOO")], Completed)
  {
    var input := Run([Str("a"), Str("b"), Str("c")], Completed);
    var h1 := new DataStreamImpl.Of();
    var s1 := h1.Transform(Some(ToUpperCase));
    var h2 := new DataStreamImpl.Of();
    var s2 := h2.Transform(Some(Foo));
    var source := new DataStreamImpl(null, Published(input));
    var _, replay := source.BroadcastTo(Some([s1.value, s2.value]));
    assert Eligible(s1.value) && Eligible(s2.value);
    assert FirstIneligible([s1.value, s2.value]) == 2;
    var concat := s1.value.ConcatWith(Some([s2.value]));
    r, c1, c2 := concat.value, h1.connector, h2.connector;
    assert FlowsOf([s2.value]) == [s2.value.flow];
    assert replay.flow.upstream == Published(input);
    assert h1.flow == FromConnector(c1) && h2.flow == FromConnector(c2);
    ExampleFlows(input, c1, c2, replay, s1.value.flow, s2.value.flow, r.flow);
  }

  /** The example's flows, once every connector bound to the replay node is fed by it. */
  lemma ExampleFlows(input: Run<Value>, c1: StreamConnector, c2: StreamConnector, replay: DataStreamImpl, f1: Flow, f2: Flow, f: Flow)
    requires input == Run([Str("a"), Str("b"), Str("c")], Completed)
    requires c1.downstream == replay && c2.downstream == replay
    requires replay.flow.Replayed? && replay.flow.upstream == Published(input) && replay.flow.view.connected
    requires forall env: Env, timing: Timing :: Eval(f1, env, timing) == MapRun(env(c1), ToUpperCase)
    requires forall env: Env, timing: Timing :: Eval(f2, env, timing) == MapRun(env(c2), Foo)
    requires forall env: Env, timing: Timing :: Eval(f, env, timing) == ConcatAll(Eval(f1, env, timing), EvalAll([f2], env, timing))
    ensures forall env: Env, timing: Timing :: Feeds(env, timing, c1) && Feeds(env, timing, c2) ==>
      Eval(f, env, timing) == Run([Str("A"), Str("B"), Str("C"), Str("FOO"), Str("FOO"), Str("FOO")], Completed)
  {
    forall env: Env, timing: Timing | Feeds(env, timing, c1) && Feeds(env, timing, c2)
      ensures Eval(f, env, timing) == Run([Str("A"), Str("B"), Str("C"), Str("FOO"), Str("FOO"), Str("FOO")], Completed)
    {
      FedByReplay(c1, replay, env, timing);
      FedByReplay(c2, replay, env, timing);
      var upper, foo := Eval(f1, env, timing), Eval(f2, env, timing);
      assert EvalAll([f2], env, timing) == [foo];
      ExamplePipeline(input, env(c1), env(c2), upper, foo, Eval(f, env, timing));
    }
  }

  /** The runs the example pipeline computes when both heads are fed `a, b, c`. */
  lemma ExamplePipeline(input: Run<Value>, in1: Run<Value>, in2: Run<Value>, upper: Run<Value>, foo: Run<Value>, out: Run<Value>)
    requires input == Run([Str("a"), Str("b"), Str("c")], Completed) && in1 == input && in2 == input
    requires upper == MapRun(in1, ToUpperCase) && foo == MapRun(in2, Foo) && out == ConcatAll(upper, [foo])
    ensures out == Run([Str("A"), Str("B"), Str("C"), Str("FOO"), Str("FOO"), Str("FOO")], Completed)
  {
    UpperCaseABC();
    MapThree(Str("a"), Str("b"), Str("c"), Completed, ToUpperCase);
    MapThree(Str("a"), Str("b"), Str("c"), Completed, Foo);
    assert ConcatAll(upper, [foo]) == ConcatRun(ConcatAll(upper, []), foo);
  }

  lemma UpperCaseABC()
    ensures ToUpperCase(Str("a")) == Str("A") && ToUpperCase(Str("b")) == Str("B") && ToUpperCase(Str("c")) == Str("C")
  {
  }

  lemma MapThree(x: Value, y: Value, z: Value, o: Outcome, g: Value -> Value)
    ensures MapRun(Run([x, y, z], o), g) == Run([g(x), g(y), g(z)], o)
  {
    var r := MapRun(Run([x, y, z], o), g);
    assert r.items[0] == g(x) && r.items[1] == g(y) && r.items[2] == g(z);
  }
}
