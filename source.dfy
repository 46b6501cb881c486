/**
 * `Source`: a named, attributable entry point of a pipeline. Renaming and attribute
 * changes return a new source; the data operators return a new source over the
 * transformed sequence of messages. A source's data is one finite subscription.
 */
module Sources {
  import opened Wrappers
  import opened Values
  import opened Runs
  import opened Messages

  /** The leading characters `String.trim()` removes: those at most `' '`. */
  function TrimStart(s: string): (r: string)
    ensures |r| <= |s| && r == s[|s| - |r|..]
    ensures r != [] ==> r[0] > ' '
    ensures r == [] <==> forall i :: 0 <= i < |s| ==> s[i] <= ' '
  {
    if s != [] && s[0] <= ' ' then
      var r := TrimStart(s[1..]);
      assert forall i :: 1 <= i < |s| ==> s[i] == s[1..][i - 1];
      r
    else s
  }

  /** The trailing characters `String.trim()` removes. */
  function TrimEnd(s: string): (r: string)
    ensures |r| <= |s| && r == s[..|r|]
    ensures r == [] <==> forall i :: 0 <= i < |s| ==> s[i] <= ' '
  {
    if s != [] && s[|s| - 1] <= ' ' then
      var r := TrimEnd(s[..|s| - 1]);
      assert forall i :: 0 <= i < |s| - 1 ==> s[i] == s[..|s| - 1][i];
      r
    else s
  }

  /** `String.trim()`. */
  function Trim(s: string): string {
    TrimEnd(TrimStart(s))
  }

  /** `name.trim().isEmpty()`: exactly the strings whose every character is at most `' '`. */
  predicate IsBlank(s: string)
    ensures IsBlank(s) <==> forall i :: 0 <= i < |s| ==> s[i] <= ' '
  {
    var t := TrimStart(s);
    assert t != [] ==> t[0] > ' ' && TrimEnd(t) != [];
    Trim(s) == []
  }

  datatype Source = Source(name: Option<string>, attributes: map<string, string>, data: Run<Message<Value>>) {

    /** `named(name)`: a renamed copy; a `null` or blank name is rejected. */
    function Named(newName: Option<string>): (r: Result<Source, Exception>)
      ensures r.Ok? <==> newName.Some? && !IsBlank(newName.value)
      ensures r.Ok? ==> r.value.name == newName && r.value.attributes == attributes && r.value.data == data
      ensures r.Err? ==> r.error.IllegalArgumentException?
    {
      if newName.None? || IsBlank(newName.value) then Err(IllegalArgumentException(None))
      else Ok(this.(name := newName))
    }

    /** `unnamed()`: a copy without a name. */
    function Unnamed(): (r: Source)
      ensures r.name.None? && r.attributes == attributes && r.data == data
    {
      this.(name := None)
    }

    /** `attr(key)`: the attribute under `key`, empty when it is not set. */
    function Attr(key: string): (r: Option<string>)
      ensures r.Some? <==> key in attributes
      ensures r.Some? ==> r.value == attributes[key]
    {
      if key in attributes then Some(attributes[key]) else None
    }

    /** `withAttribute(key, value)`: a copy with one attribute set and every other one kept. */
    function WithAttribute(key: string, value: string): (r: Source)
      ensures r.Attr(key) == Some(value)
      ensures forall k :: k != key ==> r.Attr(k) == Attr(k)
      ensures r.name == name && r.data == data
    {
      this.(attributes := attributes[key := value])
    }

    /** `withoutAttribute(key)`: a copy with one attribute removed and every other one kept. */
    function WithoutAttribute(key: string): (r: Source)
      ensures r.Attr(key) == None
      ensures forall k :: k != key ==> r.Attr(k) == Attr(k)
      ensures r.name == name && r.data == data
    {
      this.(attributes := attributes - {key})
    }

    /**
     * `orElse(fallback)`: this source's data, unless it completes without any item,
     * in which case the fallback's data.
     */
    function OrElse(fallback: Source): (r: Source)
      ensures r.name == name && r.attributes == attributes
      ensures data.items != [] ==> r.data == data
      ensures data.outcome.Failed? ==> r.data == data
      ensures data == Run([], Completed) ==> r.data == fallback.data
    {
      this.(data := SwitchIfEmpty(data, fallback.data))
    }

    /** `filter(p)`: the messages `p` accepts, in order. */
    function Filter(p: Message<Value> -> bool): (r: Source)
      ensures r.name == name && r.attributes == attributes && r.data.outcome == data.outcome
      ensures IsSubsequence(r.data.items, data.items)
      ensures forall m :: multiset(r.data.items)[m] == if p(m) then multiset(data.items)[m] else 0
    {
      this.(data := FilterRun(data, p))
    }

    /** `filterNot(p)`: the messages `p` rejects, in order. */
    function FilterNot(p: Message<Value> -> bool): (r: Source)
      ensures r.name == name && r.attributes == attributes && r.data.outcome == data.outcome
      ensures IsSubsequence(r.data.items, data.items)
      ensures forall m :: multiset(r.data.items)[m] == if p(m) then 0 else multiset(data.items)[m]
    {
      Filter(Negate(p))
    }

    /** `filterPayload(p)`: `filter` on the payload of each message. */
    function FilterPayload(p: Value -> bool): (r: Source)
      ensures r.name == name && r.attributes == attributes
      ensures IsSubsequence(r.data.items, data.items) && r.data.outcome == data.outcome
      ensures forall m :: multiset(r.data.items)[m] == if p(m.payload) then multiset(data.items)[m] else 0
    {
      Filter(OnPayload(p))
    }

    /** `filterNotPayload(p)`: `filterNot` on the payload of each message. */
    function FilterNotPayload(p: Value -> bool): (r: Source)
      ensures r.name == name && r.attributes == attributes
      ensures IsSubsequence(r.data.items, data.items) && r.data.outcome == data.outcome
      ensures forall m :: multiset(r.data.items)[m] == if p(m.payload) then 0 else multiset(data.items)[m]
    {
      FilterNot(OnPayload(p))
    }

    /** `mapPayload(mapper)`: every payload mapped, headers, order and length kept. */
    function MapPayload(mapper: Value -> Value): (r: Source)
      ensures r.name == name && r.attributes == attributes && r.data.outcome == data.outcome
      ensures |r.data.items| == |data.items|
      ensures forall i :: 0 <= i < |data.items| ==>
        r.data.items[i].payload == mapper(data.items[i].payload) && r.data.items[i].headers == data.items[i].headers
    {
      this.(data := MapRun(data, (m: Message<Value>) => m.With(mapper(m.payload))))
    }

    /** `zipWith(other)`: messages carrying `Pair(a, b)` of the payloads at the same position. */
    function ZipWith(other: Source): (r: Source)
      ensures |r.data.items| == Min(|data.items|, |other.data.items|)
      ensures forall i :: 0 <= i < |r.data.items| ==>
        r.data.items[i] == Of(Pair(data.items[i].payload, other.data.items[i].payload))
      ensures data.outcome == Completed && other.data.outcome == Completed ==> r.data.outcome == Completed
    {
      this.(data := ZipRun(data, other.data, (a: Message<Value>, b: Message<Value>) => Of(Pair(a.payload, b.payload))))
    }

    /** `zipWith(other1, other2)`: messages carrying `Tuple([a, b, c])` of the payloads at the same position. */
    function ZipWith3(other1: Source, other2: Source): (r: Source)
      ensures |r.data.items| == Min(|data.items|, Min(|other1.data.items|, |other2.data.items|))
      ensures forall i :: 0 <= i < |r.data.items| ==>
        r.data.items[i] == Of(Tuple([data.items[i].payload, other1.data.items[i].payload, other2.data.items[i].payload]))
      ensures data.outcome == Completed && other1.data.outcome == Completed && other2.data.outcome == Completed ==>
        r.data.outcome == Completed
    {
      this.(data := Zip3Run(data, other1.data, other2.data,
        (a: Message<Value>, b: Message<Value>, c: Message<Value>) => Of(Tuple([a.payload, b.payload, c.payload]))))
    }

    /**
     * `mergeWith(other)` under the timing `pick`: it fails exactly when one of the two
     * fails, and two completed sources merge into all the messages of both.
     */
    function MergeWith(other: Source, pick: seq<bool>): (r: Source)
      ensures r.name == name && r.attributes == attributes
      ensures r.data.outcome.Failed? <==> data.outcome.Failed? || other.data.outcome.Failed?
      ensures data.outcome == Completed && other.data.outcome == Completed ==>
        r.data.outcome == Completed && multiset(r.data.items) == multiset(data.items) + multiset(other.data.items)
    {
      var merged := this.(data := MergeRun(data, other.data, pick));
      if data.outcome == Completed && other.data.outcome == Completed then
        MergeCompleted(data, other.data, pick);
        merged
      else merged
    }

    /** `composeFlowable(t)`: the messages are rewritten as a whole by `t`. */
    function ComposeFlowable(t: Run<Message<Value>> -> Run<Message<Value>>): (r: Source)
      ensures r.name == name && r.attributes == attributes && r.data == t(data)
    {
      this.(data := t(data))
    }

    /**
     * `composePayloadFlowable(t)`: `t` rewrites the run of payloads, and each value it
     * emits becomes the payload of a new message.
     */
    function ComposePayloadFlowable(t: Run<Value> -> Run<Value>): (r: Source)
      ensures r.name == name && r.attributes == attributes
      ensures r.Payloads() == t(Run(Payloads(), data.outcome)).items
      ensures r.data.outcome == t(Run(Payloads(), data.outcome)).outcome
    {
      this.(data := MapRun(t(Run(Payloads(), data.outcome)), (v: Value) => Of(v)))
    }

    /** What a list sink collects: the payloads, in order. */
    function Payloads(): (r: seq<Value>)
      ensures |r| == |data.items| && forall i :: 0 <= i < |r| ==> r[i] == data.items[i].payload
    {
      MapItems(data.items, (m: Message<Value>) => m.payload)
    }
  }

  /** `Source.from(items...)`: an unnamed source emitting the items, each in a message without headers. */
  function From(payloads: seq<Value>): (r: Source)
    ensures r.name.None? && r.attributes == map[] && r.data.outcome == Completed
    ensures |r.data.items| == |payloads| && forall i :: 0 <= i < |payloads| ==> r.data.items[i] == Of(payloads[i])
  {
    Source(None, map[], Run(MapItems(payloads, (v: Value) => Of(v)), Completed))
  }

  /** `Source.empty()`. */
  function Empty(): (r: Source)
    ensures r.data == Run([], Completed) && r.name.None?
  {
    From([])
  }

  // ---------------------------------------------------------------------------
  // Laws relating the operations

  /** A name accepted by `named` is the one the copy reports, and `unnamed` clears it. */
  lemma NameRoundTrip(s: Source, n: string)
    requires !IsBlank(n)
    ensures s.Named(Some(n)).Ok? && s.Named(Some(n)).value.name == Some(n)
    ensures s.Named(Some(n)).value.Unnamed() == s.Unnamed()
    ensures s.Unnamed().Named(Some(n)) == s.Named(Some(n))
  {
  }

  /** Only the last rename counts. */
  lemma RenameTwice(s: Source, a: string, b: string)
    requires !IsBlank(a)
    ensures s.Named(Some(a)).Ok?
    ensures s.Named(Some(a)).value.Named(Some(b)) == s.Named(Some(b))
  {
  }

  /** The empty name and every name made only of spaces or control characters are rejected. */
  lemma BlankNamesRejected(s: Source, n: string)
    requires forall i :: 0 <= i < |n| ==> n[i] <= ' '
    ensures s.Named(Some(n)).Err? && s.Named(None).Err?
  {
  }

  /** Removing an attribute that is not set changes nothing. */
  lemma WithoutAbsentAttribute(s: Source, key: string)
    requires s.Attr(key).None?
    ensures s.WithoutAttribute(key) == s
  {
    assert s.WithoutAttribute(key).attributes == s.attributes;
  }

  /** Setting then removing a fresh attribute gives the source back. */
  lemma WithThenWithout(s: Source, key: string, value: string)
    requires s.Attr(key).None?
    ensures s.WithAttribute(key, value).WithoutAttribute(key) == s
  {
    assert s.WithAttribute(key, value).WithoutAttribute(key).attributes == s.attributes;
  }

  /** `filter(p)` and `filterNot(p)` split the messages of a source between them. */
  lemma FilterSplits(s: Source, p: Message<Value> -> bool)
    ensures multiset(s.Filter(p).data.items) + multiset(s.FilterNot(p).data.items) == multiset(s.data.items)
  {
    FilterPartition(s.data.items, p);
  }

  /** `orElse` on a source that completes empty is the fallback's data, and `empty.orElse(empty)` is empty. */
  lemma OrElseEmpty(fallback: Source)
    ensures Empty().OrElse(fallback).data == fallback.data
    ensures Empty().OrElse(Empty()).Payloads() == []
  {
  }

  // ---------------------------------------------------------------------------
  // The expectations of the source's own test suite, on its literal inputs

  function Strs(s: seq<string>): (r: seq<Value>)
    ensures |r| == |s| && forall i :: 0 <= i < |s| ==> r[i] == Str(s[i])
  {
    MapItems(s, (x: string) => Str(x))
  }

  /** The message predicate that applies `p` to the payload. */
  function OnPayload(p: Value -> bool): Message<Value> -> bool {
    (m: Message<Value>) => p(m.payload)
  }

  function Ints(s: seq<int>): (r: seq<Value>)
    ensures |r| == |s| && forall i :: 0 <= i < |s| ==> r[i] == Int(s[i])
  {
    MapItems(s, (x: int) => Int(x))
  }

  lemma OrElseExamples()
    ensures From(Strs(["a", "b", "c"])).OrElse(From(Strs(["d", "e", "f"]))).Payloads() == Strs(["a", "b", "c"])
    ensures Empty().OrElse(From(Strs(["a", "b", "c"]))).Payloads() == Strs(["a", "b", "c"])
  {
    var abc := From(Strs(["a", "b", "c"]));
    assert abc.data.items != [];
    assert abc.OrElse(From(Strs(["d", "e", "f"]))).Payloads() == abc.Payloads();
  }

  /** The test's `i -> i + 1` on integer payloads. */
  function Inc(v: Value): Value {
    if v.Int? then Int(v.i + 1) else v
  }

  lemma MapPayloadExample()
    ensures From(Ints([1, 2, 3, 4, 5])).MapPayload(Inc).Payloads()
         == Ints([2, 3, 4, 5, 6])
  {
  }

  /** Messages whose payloads `p` first rejects and then accepts split at the boundary. */
  lemma FilterOnPayloadSplit(a: seq<Message<Value>>, b: seq<Message<Value>>, p: Value -> bool)
    requires forall i :: 0 <= i < |a| ==> !p(a[i].payload)
    requires forall i :: 0 <= i < |b| ==> p(b[i].payload)
    ensures FilterItems(a + b, OnPayload(p)) == b
    ensures FilterItems(a + b, Negate(OnPayload(p))) == a
  {
    FilterAppend(a, b, OnPayload(p));
    FilterKeepsNone(a, OnPayload(p));
    FilterKeepsAll(b, OnPayload(p));
    FilterAppend(a, b, Negate(OnPayload(p)));
    FilterKeepsAll(a, Negate(OnPayload(p)));
    FilterKeepsNone(b, Negate(OnPayload(p)));
  }

  /**
   * On payloads that `p` first rejects and then accepts, `filterPayload(p)` collects the
   * accepted ones and `filterNotPayload(p)` the rejected ones.
   */
  lemma FilterPayloadSplit(ps: seq<Value>, qs: seq<Value>, p: Value -> bool)
    requires forall i :: 0 <= i < |ps| ==> !p(ps[i])
    requires forall i :: 0 <= i < |qs| ==> p(qs[i])
    ensures From(ps + qs).FilterPayload(p).Payloads() == qs
    ensures From(ps + qs).FilterNotPayload(p).Payloads() == ps
  {
    var a, b := From(ps).data.items, From(qs).data.items;
    FromAppend(ps, qs);
    FilterOnPayloadSplit(a, b, p);
    PayloadsOfFrom(ps);
    PayloadsOfFrom(qs);
  }

  lemma FromAppend(ps: seq<Value>, qs: seq<Value>)
    ensures From(ps + qs).data.items == From(ps).data.items + From(qs).data.items
  {
  }

  lemma PayloadsOfFrom(ps: seq<Value>)
    ensures From(ps).Payloads() == ps
  {
  }

  lemma FilterExample()
    ensures From(Ints([1, 2, 3, 4, 5])).FilterPayload((v: Value) => v.Int? && v.i >= 3).Payloads() == Ints([3, 4, 5])
  {
    assert Ints([1, 2, 3, 4, 5]) == Ints([1, 2]) + Ints([3, 4, 5]);
    FilterPayloadSplit(Ints([1, 2]), Ints([3, 4, 5]), (v: Value) => v.Int? && v.i >= 3);
  }

  lemma FilterNotExample()
    ensures From(Ints([1, 2, 3, 4, 5])).FilterNotPayload((v: Value) => v.Int? && v.i >= 3).Payloads() == Ints([1, 2])
  {
    assert Ints([1, 2, 3, 4, 5]) == Ints([1, 2]) + Ints([3, 4, 5]);
    FilterPayloadSplit(Ints([1, 2]), Ints([3, 4, 5]), (v: Value) => v.Int? && v.i >= 3);
  }

  lemma ZipExample()
    ensures From(Strs(["A", "B", "C"])).ZipWith(From(Strs(["d", "e", "f"]))).Payloads()
         == [Pair(Str("A"), Str("d")), Pair(Str("B"), Str("e")), Pair(Str("C"), Str("f"))]
  {
  }

  /** Rewriting the payload run by a pointwise map collects what `mapPayload` collects. */
  lemma ComposeLikeMapPayload(s: Source, f: Value -> Value)
    ensures s.ComposePayloadFlowable((r: Run<Value>) => MapRun(r, f)).Payloads() == s.MapPayload(f).Payloads()
  {
    var a, b := s.ComposePayloadFlowable((r: Run<Value>) => MapRun(r, f)).Payloads(), s.MapPayload(f).Payloads();
    assert forall i :: 0 <= i < |a| ==> a[i] == b[i];
  }

  lemma ComposePayloadExample()
    ensures From(Ints([1, 2, 3, 4, 5])).ComposePayloadFlowable((r: Run<Value>) => MapRun(r, Inc)).Payloads()
         == Ints([2, 3, 4, 5, 6])
  {
    ComposeLikeMapPayload(From(Ints([1, 2, 3, 4, 5])), Inc);
    MapPayloadExample();
  }

  /** Unwrapping the payloads, mapping them and wrapping them again collects what `mapPayload` collects. */
  lemma ComposeLikeMapPayloadMessages(s: Source, f: Value -> Value)
    ensures s.ComposeFlowable((r: Run<Message<Value>>) => MapRun(MapRun(MapRun(r, PayloadOf), f), Of)).Payloads()
         == s.MapPayload(f).Payloads()
  {
    var a, b := s.ComposeFlowable((r: Run<Message<Value>>) => MapRun(MapRun(MapRun(r, PayloadOf), f), Of)).Payloads(),
                s.MapPayload(f).Payloads();
    assert forall i :: 0 <= i < |a| ==> a[i] == b[i];
  }

  /** `composeFlowable` by "take the payload, add one, wrap it in a new message" on `1..5` collects `2..6`. */
  lemma ComposeExample()
    ensures From(Ints([1, 2, 3, 4, 5])).ComposeFlowable((r: Run<Message<Value>>) =>
              MapRun(MapRun(MapRun(r, PayloadOf), Inc), Of)).Payloads()
         == Ints([2, 3, 4, 5, 6])
  {
    ComposeLikeMapPayloadMessages(From(Ints([1, 2, 3, 4, 5])), Inc);
    MapPayloadExample();
  }

  /** Two synchronous sources merge one after the other: `a, b, c` then `d, e, f`. */
  lemma MergeExample()
    ensures From(Strs(["a", "b", "c"])).MergeWith(From(Strs(["d", "e", "f"])), []).Payloads()
         == Strs(["a", "b", "c", "d", "e", "f"])
  {
    var abc, def := From(Strs(["a", "b", "c"])), From(Strs(["d", "e", "f"]));
    MergeSynchronous(abc.data, def.data);
    var m := abc.MergeWith(def, []);
    assert m.data.items == abc.data.items + def.data.items;
  }

  /** `data.with(newPayload)` keeps the headers set on the original message. */
  lemma WithKeepsHeaders(payload: Value, stamp: int, newPayload: Value)
    ensures var m := Of(payload).WithHeader("X-Timestamp", Int(stamp)).WithHeader("Random", Bool(true));
            && m.With(newPayload).Get("X-Timestamp") == Some(Int(stamp))
            && m.With(newPayload).Get("Random") == Some(Bool(true))
            && m.With(newPayload).payload == newPayload
  {
  }
}
