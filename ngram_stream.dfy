/** `NGramStream`: turns a stream of sentences (lists of ids) into n-gram
    windows, each paired with the token that follows it, while consuming a
    cache of sentences in place and refilling it from upstream.

    The `get_data` loop is modelled as written. It is a `for` loop whose
    iterator walks the cache list by index while the body trims the list's
    head, pops it and extends the list, so the sentence a pass reads is
    `cache[pos]`, not necessarily the head it trims. `request - len(features)`
    counts the per-sentence lists appended so far, not windows. */
module NGrams {
  import opened Wrappers
  import opened Slices

  /** `list(sliding_window(n, s))`: every run of `n` consecutive tokens of
      `s`, in order; none when `n` is zero or exceeds `|s|`. */
  function Windows(n: nat, s: seq<int>): (r: seq<seq<int>>)
    ensures |r| == if n == 0 || |s| < n then 0 else |s| - n + 1
    ensures forall j :: 0 <= j < |r| ==> j + n <= |s| && r[j] == s[j..j + n]
    decreases |s|
  {
    if n == 0 || |s| < n then [] else [s[..n]] + Windows(n, s[1..])
  }

  /** The windows a sentence offers: those of the sentence without its last
      token (`sentence[:-1]`). */
  function SentenceWindows(n: nat, sentence: seq<int>): seq<seq<int>> {
    Windows(n, SliceTo(sentence, -1))
  }

  /** The targets a sentence offers: `sentence[n:]`. */
  function SentenceTargets(n: nat, sentence: seq<int>): seq<int> {
    SliceFrom(sentence, n)
  }

  /** For a positive order, a sentence offers as many windows as targets:
      `|s| - n` of each, none when `|s| <= n`; window `j` is the slice
      `s[j..j + n]` and target `j` is the token right after it. */
  lemma WindowsAndTargetsAlign(n: nat, s: seq<int>)
    requires n >= 1
    ensures var w, t := SentenceWindows(n, s), SentenceTargets(n, s);
      && |w| == |t|
      && |w| == (if |s| <= n then 0 else |s| - n)
      && forall j :: 0 <= j < |w| ==> j + n < |s| && w[j] == s[j..j + n] && t[j] == s[n + j]
  {
  }

  /** The same holds after both lists are cut to one bound, as `get_data`
      does with `[:request - len(features)]`. */
  lemma CutWindowsAndTargetsAlign(n: nat, s: seq<int>, k: int)
    requires n >= 1
    ensures var w, t := SliceTo(SentenceWindows(n, s), k), SliceTo(SentenceTargets(n, s), k);
      && |w| == |t|
      && forall j :: 0 <= j < |w| ==> j + n < |s| && w[j] == s[j..j + n] && t[j] == s[n + j]
  {
    WindowsAndTargetsAlign(n, s);
  }

  // --- one call of get_data, as a specification ---

  /** `Running` while the loop goes on, `Stopped` after its `break`,
      `Exhausted` once `_cache()` found the upstream empty (StopIteration). */
  datatype Status = Running | Stopped | Exhausted

  /** The state of a `get_data` call between two passes of its loop: the
      cache list, the iterator's index into it, the batches upstream has
      not yet delivered, the two output lists, the sentences the passes
      have read, and how the loop stands. */
  datatype LoopState = LoopState(
    cache: seq<seq<int>>,
    pos: nat,
    upstream: seq<seq<seq<int>>>,
    features: seq<seq<seq<int>>>,
    targets: seq<seq<int>>,
    taken: seq<seq<int>>,
    status: Status)

  function Start(cache: seq<seq<int>>, upstream: seq<seq<seq<int>>>): LoopState {
    LoopState(cache, 0, upstream, [], [], [], Running)
  }

  /** The loop runs another pass: no break, no exception, and the iterator
      has not reached the end of the list. */
  predicate Iterating(st: LoopState) {
    st.status.Running? && st.pos < |st.cache|
  }

  function Flatten(batches: seq<seq<seq<int>>>): seq<seq<int>> {
    if batches == [] then [] else batches[0] + Flatten(batches[1..])
  }

  /** Every sentence still to come: the cache, then the undelivered batches. */
  function Pending(cache: seq<seq<int>>, upstream: seq<seq<seq<int>>>): seq<seq<int>> {
    cache + Flatten(upstream)
  }

  /** What the end of a pass does to the cache and upstream: the head loses
      its first `request` tokens (`cache[0][request:]`), an emptied head is
      popped, and a cache left empty gets the next upstream batch. */
  function Consume(request: int, cache: seq<seq<int>>, upstream: seq<seq<seq<int>>>)
    : (r: (seq<seq<int>>, seq<seq<seq<int>>>))
    requires cache != []
  {
    var head := SliceFrom(cache[0], request);
    if head != [] then ([head] + cache[1..], upstream)
    else if |cache| > 1 then (cache[1..], upstream)
    else if upstream != [] then (upstream[0], upstream[1..])
    else ([], upstream)
  }

  /** `_cache()` raises StopIteration: the pass emptied the last cached
      sentence and upstream has nothing left. */
  predicate Raises(request: int, cache: seq<seq<int>>, upstream: seq<seq<seq<int>>>)
    requires cache != []
  {
    SliceFrom(cache[0], request) == [] && |cache| == 1 && upstream == []
  }

  /** One pass of the loop body. */
  function Step(n: nat, request: int, st: LoopState): (r: LoopState)
    requires Iterating(st)
    ensures |r.upstream| < |st.upstream|
         || (r.upstream == st.upstream && |r.cache| - r.pos < |st.cache| - st.pos)
  {
    var s := st.cache[st.pos];
    var features := st.features + [SliceTo(SentenceWindows(n, s), request - |st.features|)];
    var targets := st.targets + [SliceTo(SentenceTargets(n, s), request - |st.targets|)];
    var (cache, upstream) := Consume(request, st.cache, st.upstream);
    var status :=
      if Raises(request, st.cache, st.upstream) then Exhausted
      else if |features| == request then Stopped
      else Running;
    LoopState(cache, st.pos + 1, upstream, features, targets, st.taken + [s], status)
  }

  /** The loop from a state to its end. */
  function Run(n: nat, request: int, st: LoopState): (r: LoopState)
    decreases |st.upstream|, |st.cache| - st.pos
  {
    if !Iterating(st) then st else Run(n, request, Step(n, request, st))
  }

  /** The two output lists of a `get_data` call; the arrays are ragged in
      general, so they stay nested sequences. */
  datatype Batch = Batch(features: seq<seq<seq<int>>>, targets: seq<seq<int>>)

  /** What the call returns: the batch, or StopIteration when `_cache()`
      raised (the lists built so far are then lost). */
  function Outcome(st: LoopState): Result<Batch> {
    if st.status.Exhausted? then Err(StopIteration) else Ok(Batch(st.features, st.targets))
  }

  // --- properties of the loop ---

  /** A pass trims the head of the cache by `request` tokens; an emptied
      head is removed; upstream is pulled only when that leaves the cache
      empty, and its next batch then becomes the cache. No other sentence
      changes: the pending sentences lose exactly the old head, in favour
      of its trimmed rest when that is non-empty. */
  lemma ConsumeCache(request: int, cache: seq<seq<int>>, upstream: seq<seq<seq<int>>>)
    requires cache != []
    ensures var (c, u) := Consume(request, cache, upstream);
      var head := SliceFrom(cache[0], request);
      && (head != [] ==> c == [head] + cache[1..] && u == upstream)
      && (head == [] && |cache| > 1 ==> c == cache[1..] && u == upstream)
      && (head == [] && |cache| == 1 && upstream != [] ==> c == upstream[0] && u == upstream[1..])
      && (u != upstream ==> head == [] && |cache| == 1)
      && (Raises(request, cache, upstream) ==> c == [] && u == [])
      && Pending(c, u) == (if head == [] then [] else [head]) + Pending(cache, upstream)[1..]
  {
    var head := SliceFrom(cache[0], request);
    if head == [] && |cache| == 1 && upstream != [] {
      assert Pending(cache, upstream)[1..] == Flatten(upstream);
    } else {
      assert Pending(cache, upstream)[1..] == cache[1..] + Flatten(upstream);
    }
  }

  /** What the passes so far guarantee: one feature list and one target
      list per sentence read, each cut from that sentence's windows and
      targets to `request` minus the entries before it, and the count of
      entries bounded by a positive `request`, reached exactly on `break`. */
  ghost predicate Produced(n: nat, request: int, st: LoopState) {
    && |st.features| == |st.taken| && |st.targets| == |st.taken|
    && (forall j :: 0 <= j < |st.taken| ==>
          && st.features[j] == SliceTo(SentenceWindows(n, st.taken[j]), request - j)
          && st.targets[j] == SliceTo(SentenceTargets(n, st.taken[j]), request - j))
    && (st.status.Stopped? ==> |st.features| == request)
    && (request >= 1 ==> |st.features| <= request)
    && (request >= 1 && st.status.Running? ==> |st.features| < request)
  }

  lemma {:induction false} RunKeepsProduced(n: nat, request: int, st: LoopState)
    requires Produced(n, request, st)
    ensures Produced(n, request, Run(n, request, st))
    decreases |st.upstream|, |st.cache| - st.pos
  {
    if Iterating(st) {
      StepKeepsProduced(n, request, st);
      RunKeepsProduced(n, request, Step(n, request, st));
    }
  }

  lemma StepKeepsProduced(n: nat, request: int, st: LoopState)
    requires Iterating(st) && Produced(n, request, st)
    ensures Produced(n, request, Step(n, request, st))
  {
    var r := Step(n, request, st);
    var k := |st.taken|;
    assert r.taken == st.taken + [st.cache[st.pos]];
    assert r.features == st.features + [SliceTo(SentenceWindows(n, st.cache[st.pos]), request - k)];
    assert r.targets == st.targets + [SliceTo(SentenceTargets(n, st.cache[st.pos]), request - k)];
    forall j | 0 <= j < |r.taken|
      ensures r.features[j] == SliceTo(SentenceWindows(n, r.taken[j]), request - j)
      ensures r.targets[j] == SliceTo(SentenceTargets(n, r.taken[j]), request - j)
    {
      if j < k {
        assert r.taken[j] == st.taken[j] && r.features[j] == st.features[j] && r.targets[j] == st.targets[j];
      }
    }
  }

  /** `x` is what is left of `y` once some of its leading tokens are cut. */
  predicate IsSuffix(x: seq<int>, y: seq<int>) {
    |x| <= |y| && y[|y| - |x|..] == x
  }

  /** `x` is one of the sentences of `pending`, possibly with its front cut. */
  predicate FromInput(x: seq<int>, pending: seq<seq<int>>) {
    exists k :: 0 <= k < |pending| && IsSuffix(x, pending[k])
  }

  /** Every sentence the loop still holds or has read comes from `pending`. */
  ghost predicate Drawn(pending: seq<seq<int>>, st: LoopState) {
    && (forall i :: 0 <= i < |Pending(st.cache, st.upstream)| ==>
          FromInput(Pending(st.cache, st.upstream)[i], pending))
    && (forall j :: 0 <= j < |st.taken| ==> FromInput(st.taken[j], pending))
  }

  lemma SuffixOfSuffix(x: seq<int>, y: seq<int>, z: seq<int>)
    requires IsSuffix(x, y) && IsSuffix(y, z)
    ensures IsSuffix(x, z)
  {
    assert z[|z| - |x|..] == z[|z| - |y|..][|y| - |x|..];
  }

  lemma DrawnAtStart(cache: seq<seq<int>>, upstream: seq<seq<seq<int>>>)
    ensures Drawn(Pending(cache, upstream), Start(cache, upstream))
  {
    var p := Pending(cache, upstream);
    forall i | 0 <= i < |p|
      ensures FromInput(p[i], p)
    {
      assert IsSuffix(p[i], p[i]);
    }
  }

  lemma StepKeepsDrawn(n: nat, request: int, pending: seq<seq<int>>, st: LoopState)
    requires Iterating(st) && Drawn(pending, st)
    ensures Drawn(pending, Step(n, request, st))
  {
    var r := Step(n, request, st);
    var p, p' := Pending(st.cache, st.upstream), Pending(r.cache, r.upstream);
    var head := SliceFrom(st.cache[0], request);
    ConsumeCache(request, st.cache, st.upstream);
    assert (r.cache, r.upstream) == Consume(request, st.cache, st.upstream);
    assert p' == (if head == [] then [] else [head]) + p[1..];
    assert p[0] == st.cache[0] && FromInput(p[0], pending);
    forall i | 0 <= i < |p'|
      ensures FromInput(p'[i], pending)
    {
      if head != [] && i == 0 {
        var k :| 0 <= k < |pending| && IsSuffix(p[0], pending[k]);
        SuffixOfSuffix(head, p[0], pending[k]);
      } else {
        var d := if head == [] then 0 else 1;
        assert p'[i] == p[i - d + 1];
      }
    }
    assert r.taken == st.taken + [p[st.pos]];
    forall j | 0 <= j < |r.taken|
      ensures FromInput(r.taken[j], pending)
    {
      if j < |st.taken| {
        assert r.taken[j] == st.taken[j];
      }
    }
  }

  lemma {:induction false} RunKeepsDrawn(n: nat, request: int, pending: seq<seq<int>>, st: LoopState)
    requires Drawn(pending, st)
    ensures Drawn(pending, Run(n, request, st))
    decreases |st.upstream|, |st.cache| - st.pos
  {
    if Iterating(st) {
      StepKeepsDrawn(n, request, pending, st);
      RunKeepsDrawn(n, request, pending, Step(n, request, st));
    }
  }

  /** The outputs of a whole call: the two lists have one entry per pass;
      entry `j` holds the windows and the targets of the `j`-th sentence
      read, cut to `request - j`; with a positive `request` there are at
      most `request` entries, exactly `request` when the loop broke off; a
      loop that neither broke nor raised ran out of list. Every sentence
      read, and every sentence left in the cache or upstream, is a sentence
      pending at the start of the call, possibly with its front trimmed. */
  lemma GetDataOutputs(n: nat, request: int, cache: seq<seq<int>>, upstream: seq<seq<seq<int>>>)
    ensures var r := Run(n, request, Start(cache, upstream));
      && |r.features| == |r.taken| && |r.targets| == |r.taken|
      && (forall j :: 0 <= j < |r.taken| ==>
            && r.features[j] == SliceTo(SentenceWindows(n, r.taken[j]), request - j)
            && r.targets[j] == SliceTo(SentenceTargets(n, r.taken[j]), request - j))
      && (request >= 1 ==> |r.features| <= request)
      && (r.status.Stopped? ==> |r.features| == request)
      && (r.status.Running? ==> r.pos >= |r.cache|)
      && (forall j :: 0 <= j < |r.taken| ==> FromInput(r.taken[j], Pending(cache, upstream)))
      && (forall i :: 0 <= i < |Pending(r.cache, r.upstream)| ==>
            FromInput(Pending(r.cache, r.upstream)[i], Pending(cache, upstream)))
  {
    DrawnAtStart(cache, upstream);
    RunKeepsDrawn(n, request, Pending(cache, upstream), Start(cache, upstream));
    RunKeepsProduced(n, request, Start(cache, upstream));
    RunEnds(n, request, Start(cache, upstream));
  }

  lemma {:induction false} RunEnds(n: nat, request: int, st: LoopState)
    ensures !Iterating(Run(n, request, st))
    decreases |st.upstream|, |st.cache| - st.pos
  {
    if Iterating(st) {
      RunEnds(n, request, Step(n, request, st));
    }
  }

  /** For a positive order, each entry pairs as many windows as targets,
      every window is a contiguous slice of its sentence, and its target is
      the token that follows it in that sentence. */
  lemma GetDataPairsAlign(n: nat, request: int, cache: seq<seq<int>>, upstream: seq<seq<seq<int>>>, j: nat)
    requires n >= 1
    requires j < |Run(n, request, Start(cache, upstream)).features|
    ensures var r := Run(n, request, Start(cache, upstream));
      && j < |r.targets| && j < |r.taken|
      && |r.features[j]| == |r.targets[j]|
      && forall i :: 0 <= i < |r.features[j]| ==>
           && i + n < |r.taken[j]|
           && r.features[j][i] == r.taken[j][i..i + n]
           && r.targets[j][i] == r.taken[j][n + i]
  {
    GetDataOutputs(n, request, cache, upstream);
    var r := Run(n, request, Start(cache, upstream));
    CutWindowsAndTargetsAlign(n, r.taken[j], request - j);
  }

  /** On an empty cache the loop body never runs: nothing is produced and
      upstream is not pulled. */
  lemma GetDataOnEmptyCache(n: nat, request: int, upstream: seq<seq<seq<int>>>)
    ensures Run(n, request, Start([], upstream)) == Start([], upstream)
    ensures Outcome(Run(n, request, Start([], upstream))) == Ok(Batch([], []))
  {
  }

  /** A single sentence `[5, 6, 7, 8, 1]` of order 2 asked for 3 examples:
      one entry holding the windows `[5, 6]`, `[6, 7]`, `[7, 8]` with targets
      `7, 8, 1`; the head keeps `[8, 1]` and the loop ends with the list. */
  lemma SingleSentenceExample()
    ensures var r := Run(2, 3, Start([[5, 6, 7, 8, 1]], []));
      && Outcome(r) == Ok(Batch([[[5, 6], [6, 7], [7, 8]]], [[7, 8, 1]]))
      && r.cache == [[8, 1]] && r.upstream == []
  {
    var st := Start([[5, 6, 7, 8, 1]], []);
    var s1 := LoopState([[8, 1]], 1, [], [[[5, 6], [6, 7], [7, 8]]], [[7, 8, 1]], [[5, 6, 7, 8, 1]], Running);
    SingleSentencePass();
    assert Run(2, 3, st) == Run(2, 3, s1);
    assert !Iterating(s1);
  }

  lemma SingleSentenceWindows()
    ensures SliceTo(SentenceWindows(2, [5, 6, 7, 8, 1]), 3) == [[5, 6], [6, 7], [7, 8]]
  {
    var s: seq<int> := [5, 6, 7, 8];
    var w := Windows(2, s);
    assert SentenceWindows(2, [5, 6, 7, 8, 1]) == w by {
      assert SliceTo([5, 6, 7, 8, 1], -1) == s;
    }
    assert |w| == 3;
    assert w[0] == [5, 6] by { assert w[0] == s[0..2]; }
    assert w[1] == [6, 7] by { assert w[1] == s[1..3]; }
    assert w[2] == [7, 8] by { assert w[2] == s[2..4]; }
    assert SliceTo(w, 3) == w;
  }

  lemma SingleSentencePass()
    ensures Step(2, 3, Start([[5, 6, 7, 8, 1]], [])) ==
      LoopState([[8, 1]], 1, [], [[[5, 6], [6, 7], [7, 8]]], [[7, 8, 1]], [[5, 6, 7, 8, 1]], Running)
  {
    SingleSentenceWindows();
    assert SliceTo(SentenceTargets(2, [5, 6, 7, 8, 1]), 3) == [7, 8, 1];
    assert SliceFrom([5, 6, 7, 8, 1], 3) == [8, 1];
  }

  /** After a head is popped the iterator skips a sentence: from
      `[[1, 2], [3, 4, 5], [6, 7, 8]]` with order 1 and request 2, the
      second pass reads `[6, 7, 8]` but trims `[3, 4, 5]`, so `[3, 4]` never
      yields a window while `[6, 7, 8]` stays whole in the cache. */
  lemma SkippedSentenceExample()
    ensures var r := Run(1, 2, Start([[1, 2], [3, 4, 5], [6, 7, 8]], []));
      && Outcome(r) == Ok(Batch([[[1]], [[6]]], [[2], [7]]))
      && r.taken == [[1, 2], [6, 7, 8]]
      && r.cache == [[5], [6, 7, 8]]
      && r.status == Stopped
  {
    var st := Start([[1, 2], [3, 4, 5], [6, 7, 8]], []);
    SkippedSentenceFirstPass();
    SkippedSentenceSecondPass();
    var s1 := LoopState([[3, 4, 5], [6, 7, 8]], 1, [], [[[1]]], [[2]], [[1, 2]], Running);
    var s2 := LoopState([[5], [6, 7, 8]], 2, [], [[[1]], [[6]]], [[2], [7]], [[1, 2], [6, 7, 8]], Stopped);
    assert Run(1, 2, st) == Run(1, 2, s1);
    assert Run(1, 2, s1) == Run(1, 2, s2);
    assert !Iterating(s2);
  }

  lemma SkippedSentenceFirstPass()
    ensures Step(1, 2, Start([[1, 2], [3, 4, 5], [6, 7, 8]], [])) ==
      LoopState([[3, 4, 5], [6, 7, 8]], 1, [], [[[1]]], [[2]], [[1, 2]], Running)
  {
    assert SliceTo([1, 2], -1) == [1];
    assert Windows(1, [1])[0] == [1];
    assert SliceTo(SentenceWindows(1, [1, 2]), 2) == [[1]];
    assert SliceTo(SentenceTargets(1, [1, 2]), 2) == [2];
    assert SliceFrom([1, 2], 2) == [];
  }

  lemma SkippedSentenceSecondPass()
    ensures Step(1, 2, LoopState([[3, 4, 5], [6, 7, 8]], 1, [], [[[1]]], [[2]], [[1, 2]], Running)) ==
      LoopState([[5], [6, 7, 8]], 2, [], [[[1]], [[6]]], [[2], [7]], [[1, 2], [6, 7, 8]], Stopped)
  {
    assert SliceTo([6, 7, 8], -1) == [6, 7];
    var w := Windows(1, [6, 7]);
    assert |w| == 2 && w[0] == [6] && w[1] == [7];
    assert SliceTo(SentenceWindows(1, [6, 7, 8]), 1) == [[6]];
    assert SliceTo(SentenceTargets(1, [6, 7, 8]), 1) == [7];
    assert SliceFrom([3, 4, 5], 2) == [5];
  }

  // --- the stream object ---

  const DefaultTargetSource := "targets"

  /** The constructor's check on the wrapped stream's sources, and the
      sources the n-gram stream then exposes: the wrapped ones followed by
      the target source. More than one wrapped source is refused. */
  function Sources(upstreamSources: seq<string>, targetSource: string): (r: Result<seq<string>>)
    ensures r.Ok? <==> |upstreamSources| <= 1
    ensures r.Err? ==> r.error == ValueError
    ensures r.Ok? ==> r.value == upstreamSources + [targetSource] && |r.value| == |upstreamSources| + 1
  {
    if |upstreamSources| > 1 then Err(ValueError) else Ok(upstreamSources + [targetSource])
  }

  class NGramStream {
    const ngramOrder: nat
    const sources: seq<string>
    /** The cache of the single source: sentences not yet fully consumed. */
    var cache: seq<seq<int>>
    /** The batches the wrapped stream has yet to deliver. */
    var upstream: seq<seq<seq<int>>>

    /** Wraps a stream with one source; the cache starts empty. */
    constructor (ngramOrder: nat, upstreamSources: seq<string>, batches: seq<seq<seq<int>>>,
                 targetSource: string := DefaultTargetSource)
      requires |upstreamSources| == 1
      ensures this.ngramOrder == ngramOrder
      ensures Sources(upstreamSources, targetSource) == Ok(sources)
      ensures cache == [] && upstream == batches
    {
      this.ngramOrder := ngramOrder;
      sources := upstreamSources + [targetSource];
      cache := [];
      upstream := batches;
    }

    /** `_cache()`: appends the next upstream batch to the cache, or reports
        that upstream is exhausted (StopIteration) and changes nothing. */
    method Refill() returns (ok: bool)
      modifies this
      ensures ok <==> old(upstream) != []
      ensures ok ==> cache == old(cache) + old(upstream)[0] && upstream == old(upstream)[1..]
      ensures !ok ==> cache == old(cache) && upstream == old(upstream)
    {
      if upstream == [] {
        return false;
      }
      cache := cache + upstream[0];
      upstream := upstream[1..];
      return true;
    }

    /** The body of the `for` loop on the sentence the iterator yielded:
        append its windows and targets, cut to `request` minus the entries
        so far, then trim, pop and refill the cache as `Consume` says;
        `raised` reports the StopIteration of `_cache()`. */
    method Pass(request: int, sentence: seq<int>, features: seq<seq<seq<int>>>, targets: seq<seq<int>>)
      returns (features': seq<seq<seq<int>>>, targets': seq<seq<int>>, raised: bool)
      requires cache != []
      modifies this
      ensures features' == features + [SliceTo(SentenceWindows(ngramOrder, sentence), request - |features|)]
      ensures targets' == targets + [SliceTo(SentenceTargets(ngramOrder, sentence), request - |targets|)]
      ensures raised == Raises(request, old(cache), old(upstream))
      ensures (cache, upstream) == Consume(request, old(cache), old(upstream))
    {
      features' := features + [SliceTo(Windows(ngramOrder, SliceTo(sentence, -1)), request - |features|)];
      targets' := targets + [SliceTo(SliceFrom(sentence, ngramOrder), request - |targets|)];
      ghost var rest := cache[1..];
      cache := cache[0 := SliceFrom(cache[0], request)];
      assert cache == [cache[0]] + rest;
      raised := false;
      if cache[0] == [] {
        cache := cache[1..];
        if cache == [] {
          ghost var pulled := upstream;
          var ok := Refill();
          assert ok ==> cache == pulled[0];
          raised := !ok;
        }
      }
    }

    /** `get_data(request)`: returns, and leaves behind, what one run of
        the loop specified by `Run` does from the current cache. */
    method GetData(request: int) returns (r: Result<Batch>)
      modifies this
      ensures var run := Run(ngramOrder, request, Start(old(cache), old(upstream)));
        && r == Outcome(run) && cache == run.cache && upstream == run.upstream
    {
      var features: seq<seq<seq<int>>> := [];
      var targets: seq<seq<int>> := [];
      ghost var taken: seq<seq<int>> := [];
      ghost var final := Run(ngramOrder, request, Start(cache, upstream));
      var i := 0;
      while i < |cache|
        invariant Run(ngramOrder, request, LoopState(cache, i, upstream, features, targets, taken, Running)) == final
        decreases |upstream|, |cache| - i
      {
        ghost var next := Step(ngramOrder, request, LoopState(cache, i, upstream, features, targets, taken, Running));
        var sentence := cache[i];
        i := i + 1;
        var raised;
        features, targets, raised := Pass(request, sentence, features, targets);
        taken := taken + [sentence];
        if raised {
          assert next == LoopState(cache, i, upstream, features, targets, taken, Exhausted);
          return Err(StopIteration);
        }
        if |features| == request {
          assert next == LoopState(cache, i, upstream, features, targets, taken, Stopped);
          break;
        }
        assert next == LoopState(cache, i, upstream, features, targets, taken, Running);
      }
      return Ok(Batch(features, targets));
    }
  }
}
