/**
 * Finite runs of a reactive stream and the stream operators the library builds on
 * (`map`, `filter`, `concatWith`, `mergeWith`, `zip`, `onErrorReturn`, `switchIfEmpty`),
 * each stated as a function from the input runs to the output run.
 */
module Runs {
  import opened Values

  /** How a finite run ends: `onComplete` or `onError`. */
  datatype Outcome = Completed | Failed(error: Throwable)

  /** All a subscriber observes of a finite stream: the `onNext` items in order, then the terminal signal. */
  datatype Run<T> = Run(items: seq<T>, outcome: Outcome)

  function Prepend<T>(x: T, r: Run<T>): Run<T> {
    Run([x] + r.items, r.outcome)
  }

  function Rest<T>(r: Run<T>): Run<T>
    requires r.items != []
  {
    Run(r.items[1..], r.outcome)
  }

  function Min(a: int, b: int): int {
    if a <= b then a else b
  }

  // ---------------------------------------------------------------------------
  // map

  function MapItems<T, U>(s: seq<T>, f: T -> U): (r: seq<U>)
    ensures |r| == |s|
    ensures forall i :: 0 <= i < |s| ==> r[i] == f(s[i])
  {
    if s == [] then [] else [f(s[0])] + MapItems(s[1..], f)
  }

  /** `Flowable.map`: one output per input, in order; the terminal signal passes through. */
  function MapRun<T, U>(a: Run<T>, f: T -> U): (r: Run<U>)
    ensures |r.items| == |a.items| && r.outcome == a.outcome
    ensures forall i :: 0 <= i < |a.items| ==> r.items[i] == f(a.items[i])
  {
    Run(MapItems(a.items, f), a.outcome)
  }

  // ---------------------------------------------------------------------------
  // filter

  /** `r` is obtained from `s` by deleting some elements. */
  ghost predicate IsSubsequence<T>(r: seq<T>, s: seq<T>)
    decreases |s|
  {
    if r == [] then true
    else if s == [] then false
    else (r[0] == s[0] && IsSubsequence(r[1..], s[1..])) || IsSubsequence(r, s[1..])
  }

  function Negate<T>(p: T -> bool): T -> bool {
    x => !p(x)
  }

  /**
   * `Flowable.filter`: keeps, in their original order, exactly the elements that satisfy
   * `p`, each as often as it occurs in `s`; no element is duplicated.
   */
  function FilterItems<T(!new)>(s: seq<T>, p: T -> bool): (r: seq<T>)
    ensures IsSubsequence(r, s)
    ensures forall x :: multiset(r)[x] == if p(x) then multiset(s)[x] else 0
  {
    if s == [] then []
    else if p(s[0]) then
      var r := FilterItems(s[1..], p);
      assert s == [s[0]] + s[1..];
      [s[0]] + r
    else
      var r := FilterItems(s[1..], p);
      assert r != [] ==> IsSubsequence(r, s[1..]);
      assert s == [s[0]] + s[1..];
      r
  }

  function FilterRun<T(!new)>(a: Run<T>, p: T -> bool): (r: Run<T>)
    ensures IsSubsequence(r.items, a.items) && r.outcome == a.outcome
    ensures forall x :: multiset(r.items)[x] == if p(x) then multiset(a.items)[x] else 0
  {
    Run(FilterItems(a.items, p), a.outcome)
  }

  /** Filtering by `p` and by its negation splits the input between the two outputs. */
  lemma FilterPartition<T(!new)>(s: seq<T>, p: T -> bool)
    ensures multiset(FilterItems(s, p)) + multiset(FilterItems(s, Negate(p))) == multiset(s)
  {
    var yes, no := FilterItems(s, p), FilterItems(s, Negate(p));
    assert forall x :: (multiset(yes) + multiset(no))[x] == multiset(s)[x];
  }

  /** Filtering distributes over concatenation: `filter` never reorders across a boundary. */
  lemma {:induction false} FilterAppend<T(!new)>(s: seq<T>, t: seq<T>, p: T -> bool)
    ensures FilterItems(s + t, p) == FilterItems(s, p) + FilterItems(t, p)
  {
    if s != [] {
      var st := s + t;
      assert st[0] == s[0] && st[1..] == s[1..] + t;
      FilterAppend(s[1..], t, p);
      if p(s[0]) {
        assert FilterItems(st, p) == [s[0]] + FilterItems(st[1..], p);
        assert FilterItems(s, p) == [s[0]] + FilterItems(s[1..], p);
      } else {
        assert FilterItems(st, p) == FilterItems(st[1..], p);
        assert FilterItems(s, p) == FilterItems(s[1..], p);
      }
    } else {
      assert s + t == t;
    }
  }

  /** A filter that accepts every element is the identity. */
  lemma {:induction false} FilterKeepsAll<T(!new)>(s: seq<T>, p: T -> bool)
    requires forall i :: 0 <= i < |s| ==> p(s[i])
    ensures FilterItems(s, p) == s
  {
    if s != [] {
      FilterKeepsAll(s[1..], p);
    }
  }

  /** A filter that rejects every element yields nothing. */
  lemma {:induction false} FilterKeepsNone<T(!new)>(s: seq<T>, p: T -> bool)
    requires forall i :: 0 <= i < |s| ==> !p(s[i])
    ensures FilterItems(s, p) == []
  {
    if s != [] {
      FilterKeepsNone(s[1..], p);
    }
  }

  // ---------------------------------------------------------------------------
  // concat

  /**
   * `Flowable.concatWith`: the second run is subscribed to only once the first completes;
   * a failure of the first ends the concatenation.
   */
  function ConcatRun<T>(a: Run<T>, b: Run<T>): (r: Run<T>)
    ensures |a.items| <= |r.items| && r.items[..|a.items|] == a.items
    ensures a.outcome.Failed? ==> r == a
    ensures a.outcome == Completed ==> r.items[|a.items|..] == b.items && r.outcome == b.outcome
  {
    if a.outcome.Failed? then a else Run(a.items + b.items, b.outcome)
  }

  /** Left fold of `ConcatRun`: `a.concatWith(rs[0]).concatWith(rs[1])...`. */
  function ConcatAll<T>(a: Run<T>, rs: seq<Run<T>>): (r: Run<T>)
    ensures |a.items| <= |r.items| && r.items[..|a.items|] == a.items
    ensures a.outcome.Failed? ==> r == a
    decreases |rs|
  {
    if rs == [] then a else ConcatRun(ConcatAll(a, rs[..|rs| - 1]), rs[|rs| - 1])
  }

  /** The index of the first failed run, or `|rs|` when none failed. */
  function FirstFailure<T>(rs: seq<Run<T>>): (k: nat)
    ensures k <= |rs|
    ensures forall i :: 0 <= i < k ==> rs[i].outcome == Completed
    ensures k < |rs| ==> rs[k].outcome.Failed?
  {
    if rs == [] then 0 else if rs[0].outcome.Failed? then 0 else 1 + FirstFailure(rs[1..])
  }

  /** The items of all runs, one run after the other. */
  function Flatten<T>(rs: seq<Run<T>>): seq<T>
    decreases |rs|
  {
    if rs == [] then [] else Flatten(rs[..|rs| - 1]) + rs[|rs| - 1].items
  }

  lemma {:induction false} FirstFailureSnoc<T>(rs: seq<Run<T>>, last: Run<T>)
    ensures FirstFailure(rs + [last]) ==
      if FirstFailure(rs) < |rs| then FirstFailure(rs)
      else if last.outcome.Failed? then |rs| else |rs| + 1
  {
    if rs != [] {
      assert (rs + [last])[1..] == rs[1..] + [last];
      FirstFailureSnoc(rs[1..], last);
    }
  }

  /**
   * Concatenating runs emits the items of every run up to and including the first
   * failed one, in order, and ends with that failure; when none fails it emits all
   * items and completes.
   */
  lemma {:induction false} ConcatAllShortCircuits<T>(a: Run<T>, rs: seq<Run<T>>)
    ensures var all := [a] + rs;
            var k := FirstFailure(all);
            ConcatAll(a, rs) ==
              if k < |all| then Run(Flatten(all[..k + 1]), all[k].outcome)
              else Run(Flatten(all), Completed)
    decreases |rs|
  {
    var all := [a] + rs;
    if rs == [] {
      assert all[..1] == all == [a];
      assert Flatten(all) == Flatten(all[..0]) + a.items;
    } else {
      var init, last := rs[..|rs| - 1], rs[|rs| - 1];
      var all' := [a] + init;
      assert all == all' + [last];
      ConcatAllShortCircuits(a, init);
      FirstFailureSnoc(all', last);
      var k' := FirstFailure(all');
      assert all[..|all| - 1] == all';
      if k' < |all'| {
        assert forall i :: 0 <= i < k' + 1 ==> all[i] == all'[i];
        assert all[..k' + 1] == all'[..k' + 1];
      } else {
        assert all[..|all|] == all && all[|all| - 1] == last;
      }
    }
  }

  /** When every run completes, the concatenation emits all items in order and completes. */
  lemma ConcatAllCompleted<T>(a: Run<T>, rs: seq<Run<T>>)
    requires a.outcome == Completed && forall i :: 0 <= i < |rs| ==> rs[i].outcome == Completed
    ensures ConcatAll(a, rs) == Run(Flatten([a] + rs), Completed)
  {
    ConcatAllShortCircuits(a, rs);
    var all := [a] + rs;
    assert forall i :: 0 <= i < |all| ==> all[i].outcome == Completed by {
      forall i | 0 <= i < |all| ensures all[i].outcome == Completed {
        if i > 0 { assert all[i] == rs[i - 1]; }
      }
    }
  }

  // ---------------------------------------------------------------------------
  // merge

  /** `s` interleaves `x` and `y`: it is made of all their elements, each keeping its own order. */
  ghost predicate Interleaves<T>(s: seq<T>, x: seq<T>, y: seq<T>)
    decreases |s|
  {
    if s == [] then x == [] && y == []
    else
      || (x != [] && x[0] == s[0] && Interleaves(s[1..], x[1..], y))
      || (y != [] && y[0] == s[0] && Interleaves(s[1..], x, y[1..]))
  }

  lemma {:induction false} InterleavesAlone<T>(s: seq<T>)
    ensures Interleaves(s, s, []) && Interleaves(s, [], s)
    decreases |s|
  {
    if s != [] {
      InterleavesAlone(s[1..]);
    }
  }

  /** An interleaving holds exactly the elements of both inputs. */
  lemma {:induction false} InterleavingMultiset<T>(s: seq<T>, x: seq<T>, y: seq<T>)
    requires Interleaves(s, x, y)
    ensures multiset(s) == multiset(x) + multiset(y)
    decreases |s|
  {
    if s != [] {
      assert s == [s[0]] + s[1..];
      if x != [] && x[0] == s[0] && Interleaves(s[1..], x[1..], y) {
        InterleavingMultiset(s[1..], x[1..], y);
        assert x == [x[0]] + x[1..];
      } else {
        InterleavingMultiset(s[1..], x, y[1..]);
        assert y == [y[0]] + y[1..];
      }
    }
  }

  /**
   * `Flowable.mergeWith`. The relative timing of the two inputs is not fixed by the
   * library, so it is a parameter: at each step `pick` says whether the next signal
   * comes from `a` (true, and also once `pick` is used up) or from `b`. A signal is an
   * item or the input's terminal signal: a completion lets the other input finish
   * alone, a failure ends the merge at once.
   */
  function MergeRun<T>(a: Run<T>, b: Run<T>, pick: seq<bool>): (r: Run<T>)
    ensures r.outcome.Failed? <==> a.outcome.Failed? || b.outcome.Failed?
    decreases |a.items| + |b.items|
  {
    var rest := if pick == [] then [] else pick[1..];
    if pick == [] || pick[0] then
      if a.items == [] then
        if a.outcome.Failed? then Run([], a.outcome) else b
      else
        Prepend(a.items[0], MergeRun(Rest(a), b, rest))
    else
      if b.items == [] then
        if b.outcome.Failed? then Run([], b.outcome) else a
      else
        Prepend(b.items[0], MergeRun(a, Rest(b), rest))
  }

  lemma ConsKeepsBound<T>(x: T, s: seq<T>, t: seq<T>, u: seq<T>)
    requires multiset(s) <= multiset(t) + multiset(u)
    ensures multiset([x] + s) <= multiset([x] + t) + multiset(u)
    ensures multiset([x] + s) <= multiset(u) + multiset([x] + t)
  {
    assert multiset([x] + s) == multiset{x} + multiset(s);
    assert multiset([x] + t) == multiset{x} + multiset(t);
  }

  /** Merging never invents or duplicates an item, whatever the timing and the outcomes. */
  lemma {:induction false} MergeKeepsItems<T>(a: Run<T>, b: Run<T>, pick: seq<bool>)
    ensures multiset(MergeRun(a, b, pick).items) <= multiset(a.items) + multiset(b.items)
    decreases |a.items| + |b.items|
  {
    var rest := if pick == [] then [] else pick[1..];
    var r := MergeRun(a, b, pick).items;
    if pick == [] || pick[0] {
      if a.items == [] {
        assert r == [] || r == b.items;
      } else {
        var r' := MergeRun(Rest(a), b, rest).items;
        assert r == [a.items[0]] + r';
        MergeKeepsItems(Rest(a), b, rest);
        ConsKeepsBound(a.items[0], r', a.items[1..], b.items);
        assert a.items == [a.items[0]] + a.items[1..];
      }
    } else {
      if b.items == [] {
        assert r == [] || r == a.items;
      } else {
        var r' := MergeRun(a, Rest(b), rest).items;
        assert r == [b.items[0]] + r';
        MergeKeepsItems(a, Rest(b), rest);
        ConsKeepsBound(b.items[0], r', b.items[1..], a.items);
        assert b.items == [b.items[0]] + b.items[1..];
      }
    }
  }

  /** Merging two completed runs emits an interleaving of their items. */
  lemma {:induction false} MergeInterleaves<T>(a: Run<T>, b: Run<T>, pick: seq<bool>)
    requires a.outcome == Completed && b.outcome == Completed
    ensures Interleaves(MergeRun(a, b, pick).items, a.items, b.items)
    decreases |a.items| + |b.items|
  {
    var rest := if pick == [] then [] else pick[1..];
    InterleavesAlone(a.items);
    InterleavesAlone(b.items);
    if pick == [] || pick[0] {
      if a.items != [] {
        MergeInterleaves(Rest(a), b, rest);
        assert ([a.items[0]] + MergeRun(Rest(a), b, rest).items)[1..] == MergeRun(Rest(a), b, rest).items;
      }
    } else if b.items != [] {
      MergeInterleaves(a, Rest(b), rest);
      assert ([b.items[0]] + MergeRun(a, Rest(b), rest).items)[1..] == MergeRun(a, Rest(b), rest).items;
    }
  }

  /**
   * Whatever the timing, merging two completed runs completes and emits exactly the
   * multiset union of their items.
   */
  lemma MergeCompleted<T>(a: Run<T>, b: Run<T>, pick: seq<bool>)
    requires a.outcome == Completed && b.outcome == Completed
    ensures MergeRun(a, b, pick).outcome == Completed
    ensures multiset(MergeRun(a, b, pick).items) == multiset(a.items) + multiset(b.items)
  {
    MergeInterleaves(a, b, pick);
    InterleavingMultiset(MergeRun(a, b, pick).items, a.items, b.items);
  }

  /** A timing under which `MergeRun` produces the interleaving `s`. */
  ghost function ScheduleOf<T>(s: seq<T>, x: seq<T>, y: seq<T>): seq<bool>
    requires Interleaves(s, x, y)
    decreases |s|
  {
    if s == [] then []
    else if x != [] && x[0] == s[0] && Interleaves(s[1..], x[1..], y) then [true] + ScheduleOf(s[1..], x[1..], y)
    else [false] + ScheduleOf(s[1..], x, y[1..])
  }

  /** Conversely, every interleaving of two completed runs is emitted under some timing. */
  lemma {:induction false} EveryInterleavingIsScheduled<T>(s: seq<T>, x: seq<T>, y: seq<T>)
    requires Interleaves(s, x, y)
    ensures MergeRun(Run(x, Completed), Run(y, Completed), ScheduleOf(s, x, y)) == Run(s, Completed)
    decreases |s|
  {
    var a, b, pick := Run(x, Completed), Run(y, Completed), ScheduleOf(s, x, y);
    if s != [] {
      assert s == [s[0]] + s[1..];
      if x != [] && x[0] == s[0] && Interleaves(s[1..], x[1..], y) {
        assert pick == [true] + ScheduleOf(s[1..], x[1..], y);
        EveryInterleavingIsScheduled(s[1..], x[1..], y);
        assert Rest(a) == Run(x[1..], Completed);
        assert MergeRun(a, b, pick) == Prepend(x[0], MergeRun(Rest(a), b, pick[1..]));
      } else {
        assert y != [] && y[0] == s[0] && Interleaves(s[1..], x, y[1..]);
        assert pick == [false] + ScheduleOf(s[1..], x, y[1..]);
        EveryInterleavingIsScheduled(s[1..], x, y[1..]);
        assert Rest(b) == Run(y[1..], Completed);
        assert MergeRun(a, b, pick) == Prepend(y[0], MergeRun(a, Rest(b), pick[1..]));
      }
    }
  }

  /**
   * With synchronous inputs the first input is drained before the second is
   * subscribed: merging without any timing choice is concatenation.
   */
  lemma {:induction false} MergeSynchronous<T>(a: Run<T>, b: Run<T>)
    ensures MergeRun(a, b, []) == ConcatRun(a, b)
    decreases |a.items|
  {
    if a.items != [] {
      assert MergeRun(a, b, []) == Prepend(a.items[0], MergeRun(Rest(a), b, []));
      MergeSynchronous(Rest(a), b);
      assert a.items == [a.items[0]] + a.items[1..];
      if a.outcome == Completed {
        assert ConcatRun(Rest(a), b).items == a.items[1..] + b.items;
        assert [a.items[0]] + (a.items[1..] + b.items) == a.items + b.items;
      }
    } else {
      assert a.items + b.items == b.items;
    }
  }

  // ---------------------------------------------------------------------------
  // zip

  function ZipItems<A, B, C>(a: seq<A>, b: seq<B>, zipper: (A, B) -> C): (r: seq<C>)
    ensures |r| == Min(|a|, |b|)
    ensures forall i :: 0 <= i < |r| ==> r[i] == zipper(a[i], b[i])
  {
    if a == [] || b == [] then [] else [zipper(a[0], b[0])] + ZipItems(a[1..], b[1..], zipper)
  }

  function Zip3Items<A, B, C, D>(a: seq<A>, b: seq<B>, c: seq<C>, zipper: (A, B, C) -> D): (r: seq<D>)
    ensures |r| == Min(|a|, Min(|b|, |c|))
    ensures forall i :: 0 <= i < |r| ==> r[i] == zipper(a[i], b[i], c[i])
  {
    if a == [] || b == [] || c == [] then []
    else [zipper(a[0], b[0], c[0])] + Zip3Items(a[1..], b[1..], c[1..], zipper)
  }

  /** The terminal signal an input has delivered once `n` of its items are consumed. */
  function EndedAfter<T>(r: Run<T>, n: nat): Outcome {
    if |r.items| == n then r.outcome else Completed
  }

  /** The first failure of the two, if any. */
  function FirstOf(o1: Outcome, o2: Outcome): Outcome {
    if o1.Failed? then o1 else o2
  }

  /**
   * `Flowable.zip` of two runs: items are paired by position, as many as the shorter
   * input has; the zip ends with the terminal signal of the input that runs out (the
   * first failure among inputs of equal length).
   */
  function ZipRun<A, B, C>(a: Run<A>, b: Run<B>, zipper: (A, B) -> C): (r: Run<C>)
    ensures |r.items| == Min(|a.items|, |b.items|)
    ensures forall i :: 0 <= i < |r.items| ==> r.items[i] == zipper(a.items[i], b.items[i])
    ensures |a.items| < |b.items| ==> r.outcome == a.outcome
    ensures |b.items| < |a.items| ==> r.outcome == b.outcome
    ensures r.outcome.Failed? ==> a.outcome.Failed? || b.outcome.Failed?
    ensures a.outcome == Completed && b.outcome == Completed ==> r.outcome == Completed
  {
    var n := Min(|a.items|, |b.items|);
    Run(ZipItems(a.items, b.items, zipper), FirstOf(EndedAfter(a, n), EndedAfter(b, n)))
  }

  /** `Flowable.zip` of three runs, by the same rules as `ZipRun`. */
  function Zip3Run<A, B, C, D>(a: Run<A>, b: Run<B>, c: Run<C>, zipper: (A, B, C) -> D): (r: Run<D>)
    ensures |r.items| == Min(|a.items|, Min(|b.items|, |c.items|))
    ensures forall i :: 0 <= i < |r.items| ==> r.items[i] == zipper(a.items[i], b.items[i], c.items[i])
    ensures r.outcome.Failed? ==> a.outcome.Failed? || b.outcome.Failed? || c.outcome.Failed?
    ensures a.outcome == Completed && b.outcome == Completed && c.outcome == Completed ==> r.outcome == Completed
  {
    var n := Min(|a.items|, Min(|b.items|, |c.items|));
    Run(Zip3Items(a.items, b.items, c.items, zipper),
        FirstOf(EndedAfter(a, n), FirstOf(EndedAfter(b, n), EndedAfter(c, n))))
  }

  // ---------------------------------------------------------------------------
  // error recovery and fallback

  /** `Flowable.onErrorReturn`: a failure is replaced by one item computed from it, then completion. */
  function OnErrorReturn<T>(a: Run<T>, handler: Throwable -> T): (r: Run<T>)
    ensures r.outcome == Completed
    ensures a.outcome == Completed ==> r == a
  {
    if a.outcome.Failed? then Run(a.items + [handler(a.outcome.error)], Completed) else a
  }

  /**
   * The recovered run never fails, starts with every item of the input, and has one
   * extra item exactly when the input failed.
   */
  lemma OnErrorReturnRecovers<T>(a: Run<T>, handler: Throwable -> T)
    ensures OnErrorReturn(a, handler).outcome == Completed
    ensures OnErrorReturn(a, handler).items[..|a.items|] == a.items
    ensures |OnErrorReturn(a, handler).items| == |a.items| + (if a.outcome.Failed? then 1 else 0)
    ensures a.outcome.Failed? ==> OnErrorReturn(a, handler).items[|a.items|] == handler(a.outcome.error)
  {
  }

  /** Recovering twice is recovering once: the second handler never sees a failure. */
  lemma OnErrorReturnIdempotent<T>(a: Run<T>, h1: Throwable -> T, h2: Throwable -> T)
    ensures OnErrorReturn(OnErrorReturn(a, h1), h2) == OnErrorReturn(a, h1)
  {
  }

  /** `Flowable.switchIfEmpty`: the fallback is subscribed only when `a` completes without any item. */
  function SwitchIfEmpty<T>(a: Run<T>, fallback: Run<T>): (r: Run<T>)
    ensures a.items != [] || a.outcome.Failed? ==> r == a
    ensures a == Run([], Completed) ==> r == fallback
  {
    if a.items == [] && a.outcome == Completed then fallback else a
  }
}
