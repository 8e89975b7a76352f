/**
 * The two query loops of `search_alignment`: forward k-mers taken straight
 * from the query sequence, and reverse-complement k-mers built into a
 * buffer, each looked up in the BWT index. At most `maxNumMatches`
 * suffix-array entries are reported per k-mer when `maxNumMatches` is not
 * negative, and all of them when it is. The BWT index and its search
 * are a parameter: `search(index, query)` gives the suffix-array interval.
 */
module Search {
  import opened Encoding
  import opened Options

  /** A suffix-array interval [lb, ub] as `BWT::search` reports it; empty when lb > ub. */
  datatype Range = Range(lb: int, ub: int)

  /** What the BWT index is built from: the text, its suffix array, the alphabet size and the sampling interval. */
  datatype BwtIndex = BwtIndex(text: seq<Int8>, sa: seq<int>, numChar: int, interval: int)

  /** An interval that is empty or lies inside a suffix array of `n` entries. */
  predicate WithinSuffixArray(r: Range, n: int)
  {
    r.lb > r.ub || (0 <= r.lb && r.ub < n)
  }

  /** The search only answers with intervals of the index's own suffix array. */
  ghost predicate SoundSearch(search: (BwtIndex, seq<Int8>) -> Range)
  {
    forall index: BwtIndex, query: seq<Int8> :: WithinSuffixArray(search(index, query), |index.sa|)
  }

  /** What one reported match writes: `output_alignment_forward/backward`, or `output_startpos` with `-s`. */
  datatype Record =
    | Alignment(queryPos: int, targetPos: int, k: int)
    | StartPos(queryPos: int, targetPos: int)

  // ---------------------------------------------------------------- windows

  /** The values a loop `for (i = from; i < bound; i += step)` takes. */
  function Positions(from: int, bound: int, step: int): (r: seq<int>)
    requires step >= 1
    decreases bound - from
  {
    if from < bound then [from] + Positions(from + step, bound, step) else []
  }

  /** Start of each forward k-mer of a query of `n` codes (sentinel included). */
  function ForwardStarts(n: int, k: int, step: int): (r: seq<int>)
    requires step >= 1
  {
    Positions(0, n - k, step)
  }

  /** End of each reverse-complement k-mer: the k-mer is read backwards from here. */
  function BackwardEnds(n: int, k: int, step: int): (r: seq<int>)
    requires step >= 1
  {
    Positions(k - 1, n - 1, step)
  }

  /** Euclidean division has one remainder: a decomposition `a == q * step + r` with `0 <= r < step` gives `a % step`. */
  lemma RemainderUnique(a: int, step: int, q: int, r: int)
    requires step >= 1 && a == q * step + r && 0 <= r < step
    ensures a % step == r
  {
    var q0 := a / step;
    var r0 := a % step;
    assert a == q0 * step + r0;
    var e := q - q0;
    assert e * step == r0 - r;
    if e >= 1 {
      assert e * step == (e - 1) * step + step;
    } else if e <= -1 {
      assert e * step == -((-e - 1) * step) - step;
    }
  }

  /** Subtracting `step` keeps the remainder, and below `step` a natural number is its own remainder. */
  lemma ModuloStep(d: int, step: int)
    requires step >= 1 && d >= 0
    ensures d % step == 0 <==> d == 0 || (d >= step && (d - step) % step == 0)
  {
    if d < step {
      RemainderUnique(d, step, 0, d);
    } else {
      var q := d / step;
      var r := d % step;
      assert d == q * step + r;
      assert d - step == (q - 1) * step + r;
      RemainderUnique(d - step, step, q - 1, r);
    }
  }

  /** The loop visits exactly the values from `from` on, below `bound`, that are `from` plus a multiple of `step`. */
  lemma {:induction false} PositionsMembers(from: int, bound: int, step: int, x: int)
    requires step >= 1
    ensures x in Positions(from, bound, step) <==> from <= x < bound && (x - from) % step == 0
    decreases bound - from
  {
    if from < bound {
      PositionsMembers(from + step, bound, step, x);
      if x >= from {
        ModuloStep(x - from, step);
        assert x - (from + step) == x - from - step;
      }
    }
  }

  /** The visited values are increasing. */
  lemma {:induction false} PositionsIncreasing(from: int, bound: int, step: int)
    requires step >= 1
    ensures forall a, b :: 0 <= a < b < |Positions(from, bound, step)| ==>
              Positions(from, bound, step)[a] < Positions(from, bound, step)[b]
    decreases bound - from
  {
    if from < bound {
      PositionsIncreasing(from + step, bound, step);
      var rest := Positions(from + step, bound, step);
      forall b | 0 <= b < |rest| ensures from < rest[b] {
        assert rest[b] in rest;
        PositionsMembers(from + step, bound, step, rest[b]);
      }
    }
  }

  /**
   * The forward starts are the multiples of the step below `n - k`, and each
   * k-mer `[i, i + k)` stays below index `n - 1`, where the sentinel is.
   */
  lemma ForwardWindowsAvoidSentinel(n: int, k: int, step: int, i: int)
    requires step >= 1
    ensures i in ForwardStarts(n, k, step) <==> 0 <= i < n - k && i % step == 0
    ensures i in ForwardStarts(n, k, step) ==> 0 <= i && i + k <= n - 1
  {
    PositionsMembers(0, n - k, step, i);
  }

  /** Every code a reverse-complement k-mer reads, `seq2[i - j]` for `0 <= j < k`, lies in `[0, n - 2]`. */
  lemma BackwardReadsAvoidSentinel(n: int, k: int, step: int, i: int, j: int)
    requires step >= 1
    requires i in BackwardEnds(n, k, step) && 0 <= j < k
    ensures 0 <= i - j <= n - 2
  {
    PositionsMembers(k - 1, n - 1, step, i);
  }

  /** Shifting the loop's start and bound by `d` shifts every visited value by `d`. */
  lemma {:induction false} PositionsShift(from: int, bound: int, step: int, d: int)
    requires step >= 1
    ensures |Positions(from + d, bound + d, step)| == |Positions(from, bound, step)|
    ensures forall t :: 0 <= t < |Positions(from, bound, step)| ==>
              Positions(from + d, bound + d, step)[t] == Positions(from, bound, step)[t] + d
    decreases bound - from
  {
    if from < bound {
      PositionsShift(from + step, bound, step, d);
      assert from + step + d == from + d + step;
    }
  }

  /**
   * For any step, the reverse-complement loop visits the same k-mers as the
   * forward loop, in the same order: the t-th backward k-mer ends at
   * `forward start + k - 1`.
   */
  lemma BackwardWindowsMatchForward(n: int, k: int, step: int)
    requires step >= 1
    ensures |BackwardEnds(n, k, step)| == |ForwardStarts(n, k, step)|
    ensures forall t :: 0 <= t < |ForwardStarts(n, k, step)| ==>
              BackwardEnds(n, k, step)[t] == ForwardStarts(n, k, step)[t] + k - 1
  {
    PositionsShift(0, n - k, step, k - 1);
    assert 0 + (k - 1) == k - 1 && n - k + (k - 1) == n - 1;
  }

  // ---------------------------------------------------------------- reverse complement

  /** `num_char_ - x`, stored into an `int8_t` cell. */
  function Complement(numChar: int, x: Int8): (r: Int8)
  {
    Narrow(numChar - x as int)
  }

  /** Complementing twice gives back the code, even through the `int8_t` narrowing. */
  lemma ComplementInvolution(numChar: int, x: Int8)
    ensures Complement(numChar, Complement(numChar, x)) == x
  {
    var once := Complement(numChar, x);
    var twice := Complement(numChar, once);
    assert (once as int - (numChar - x as int)) % 256 == 0;
    assert (twice as int - (numChar - once as int)) % 256 == 0;
    var a := (once as int - (numChar - x as int)) / 256;
    var b := (twice as int - (numChar - once as int)) / 256;
    assert once as int - (numChar - x as int) == 256 * a;
    assert twice as int - (numChar - once as int) == 256 * b;
    assert twice as int - x as int == 256 * (b - a);
    CongruentInt8Equal(twice, x);
  }

  /** A k-mer read backwards with every code complemented. */
  function ReverseComplement(numChar: int, w: seq<Int8>): (r: seq<Int8>)
  {
    seq(|w|, t requires 0 <= t < |w| => Complement(numChar, w[|w| - 1 - t]))
  }

  /** The reverse complement of the reverse complement is the k-mer itself. */
  lemma ReverseComplementInvolution(numChar: int, w: seq<Int8>)
    ensures ReverseComplement(numChar, ReverseComplement(numChar, w)) == w
  {
    var rc := ReverseComplement(numChar, w);
    forall t | 0 <= t < |w|
      ensures ReverseComplement(numChar, rc)[t] == w[t]
    {
      ComplementInvolution(numChar, w[t]);
    }
  }

  /** The query buffer for the k-mer ending at `i`: `query[j] = num_char_ - seq2[i - j]`. */
  function BackwardQuery(seq2: seq<Int8>, i: int, k: int, numChar: int): (r: seq<Int8>)
    requires 0 <= k && k - 1 <= i < |seq2|
  {
    ReverseComplement(numChar, seq2[i - k + 1..i + 1])
  }

  /** Cell `t` of the query buffer is the complement of the code `t` places before the k-mer's end. */
  lemma BackwardQueryAt(seq2: seq<Int8>, i: int, k: int, numChar: int, t: int)
    requires 0 <= k && k - 1 <= i < |seq2| && 0 <= t < k
    ensures BackwardQuery(seq2, i, k, numChar)[t] == Complement(numChar, seq2[i - t])
  {
    var w := seq2[i - k + 1..i + 1];
    assert w[k - 1 - t] == seq2[i - t];
  }

  /**
   * The inner loop of the reverse-complement search, `query[j] = num_char_ - seq2_[i-j]`
   * for `0 <= j < k`: afterwards the buffer holds the k-mer ending at `i`, reversed and complemented.
   */
  method FillBackwardQuery(query: array<Int8>, seq2: seq<Int8>, i: int, numChar: int) returns (kmer: seq<Int8>)
    requires query.Length - 1 <= i < |seq2|
    modifies query
    ensures query[..] == BackwardQuery(seq2, i, query.Length, numChar)
    ensures kmer == query[..]
  {
    ghost var target := BackwardQuery(seq2, i, query.Length, numChar);
    var j := 0;
    while j < query.Length
      invariant 0 <= j <= query.Length
      invariant forall t :: 0 <= t < j ==> query[t] == target[t]
    {
      BackwardQueryAt(seq2, i, query.Length, numChar, j);
      query[j] := Complement(numChar, seq2[i - j]);
      j := j + 1;
    }
    assert query[..] == target;
    kmer := query[..];
  }

  // ---------------------------------------------------------------- match cap

  /** The suffix-array indices reported for one k-mer: `lb, lb + 1, ...`, at most `maxNumMatches` of them unless that is negative. */
  function Reported(r: Range, maxNumMatches: int): (js: seq<int>)
  {
    var width := if r.lb <= r.ub then r.ub - r.lb + 1 else 0;
    var count := if 0 <= maxNumMatches < width then maxNumMatches else width;
    seq(count, t => r.lb + t)
  }

  /**
   * The reporting loop: `for (j = lb; j <= ub; j++) { if (j == lb + max) break; ... }`.
   * Nothing is reported for an empty interval; otherwise the indices from
   * `lb` upwards, `min(ub - lb + 1, max)` of them when `max` is not negative
   * and all `ub - lb + 1` when it is, because `j` never meets `lb + max` then.
   */
  method CappedMatches(r: Range, maxNumMatches: int) returns (js: seq<int>)
    ensures r.lb > r.ub ==> js == []
    ensures forall t :: 0 <= t < |js| ==> js[t] == r.lb + t
    ensures r.lb <= r.ub && 0 <= maxNumMatches ==>
              |js| == if maxNumMatches < r.ub - r.lb + 1 then maxNumMatches else r.ub - r.lb + 1
    ensures r.lb <= r.ub && maxNumMatches < 0 ==> |js| == r.ub - r.lb + 1
    ensures js == Reported(r, maxNumMatches)
  {
    js := [];
    if r.lb <= r.ub {
      var j := r.lb;
      while j <= r.ub
        invariant r.lb <= j <= r.ub + 1
        invariant |js| == j - r.lb
        invariant forall t :: 0 <= t < |js| ==> js[t] == r.lb + t
        invariant 0 <= maxNumMatches ==> j - r.lb <= maxNumMatches
        decreases r.ub - j
      {
        if j == r.lb + maxNumMatches {
          break;
        }
        js := js + [j];
        j := j + 1;
      }
    }
  }

  /** The records written for one k-mer whose query position is `i` and whose reported suffix-array indices are `js`. */
  function WindowRecords(i: int, js: seq<int>, sa: seq<int>, k: int, startPos: bool): (r: seq<Record>)
    requires forall t :: 0 <= t < |js| ==> 0 <= js[t] < |sa|
  {
    seq(|js|, t requires 0 <= t < |js| =>
      if startPos then StartPos(i, sa[js[t]]) else Alignment(i, sa[js[t]], k))
  }

  /** Reported indices of a sound interval are valid suffix-array indices. */
  lemma ReportedWithin(r: Range, maxNumMatches: int, n: int)
    requires WithinSuffixArray(r, n)
    ensures forall t :: 0 <= t < |Reported(r, maxNumMatches)| ==> 0 <= Reported(r, maxNumMatches)[t] < n
  {
  }

  // ---------------------------------------------------------------- the two query loops

  /** The loop over the forward k-mers from start `i` on. */
  function ForwardRecordsFrom(seq2: seq<Int8>, i: int, o: SearchOptions, index: BwtIndex,
                              search: (BwtIndex, seq<Int8>) -> Range): (r: seq<Record>)
    requires 0 <= i && 0 <= o.k && 1 <= o.slideLetters && SoundSearch(search)
    decreases |seq2| - o.k - i
  {
    if i < |seq2| - o.k then
      var r := search(index, seq2[i..i + o.k]);
      ReportedWithin(r, o.maxNumMatches, |index.sa|);
      WindowRecords(i, Reported(r, o.maxNumMatches), index.sa, o.k, o.outputsStartPos)
        + ForwardRecordsFrom(seq2, i + o.slideLetters, o, index, search)
    else []
  }

  /** The loop over the reverse-complement k-mers from end `i` on. */
  function BackwardRecordsFrom(seq2: seq<Int8>, i: int, o: SearchOptions, index: BwtIndex,
                               search: (BwtIndex, seq<Int8>) -> Range): (r: seq<Record>)
    requires 0 <= o.k && o.k - 1 <= i && 1 <= o.slideLetters && SoundSearch(search)
    decreases |seq2| - 1 - i
  {
    if i < |seq2| - 1 then
      var r := search(index, BackwardQuery(seq2, i, o.k, index.numChar));
      ReportedWithin(r, o.maxNumMatches, |index.sa|);
      WindowRecords(i, Reported(r, o.maxNumMatches), index.sa, o.k, o.outputsStartPos)
        + BackwardRecordsFrom(seq2, i + o.slideLetters, o, index, search)
    else []
  }

  /** One turn of the forward loop. */
  lemma ForwardRecordsStep(seq2: seq<Int8>, i: int, o: SearchOptions, index: BwtIndex,
                           search: (BwtIndex, seq<Int8>) -> Range)
    requires 0 <= i < |seq2| - o.k && 0 <= o.k && 1 <= o.slideLetters && SoundSearch(search)
    ensures var r := search(index, seq2[i..i + o.k]);
            ForwardRecordsFrom(seq2, i, o, index, search)
            == WindowRecords(i, Reported(r, o.maxNumMatches), index.sa, o.k, o.outputsStartPos)
               + ForwardRecordsFrom(seq2, i + o.slideLetters, o, index, search)
  {
  }

  /** One turn of the reverse-complement loop. */
  lemma BackwardRecordsStep(seq2: seq<Int8>, i: int, o: SearchOptions, index: BwtIndex,
                            search: (BwtIndex, seq<Int8>) -> Range)
    requires 0 <= o.k && o.k - 1 <= i < |seq2| - 1 && 1 <= o.slideLetters && SoundSearch(search)
    ensures var r := search(index, BackwardQuery(seq2, i, o.k, index.numChar));
            BackwardRecordsFrom(seq2, i, o, index, search)
            == WindowRecords(i, Reported(r, o.maxNumMatches), index.sa, o.k, o.outputsStartPos)
               + BackwardRecordsFrom(seq2, i + o.slideLetters, o, index, search)
  {
  }

  /** The forward loop's invariant survives one turn that appends the window's records. */
  lemma ForwardLoopStep(records: seq<Record>, found: seq<Record>, seq2: seq<Int8>, i: int, o: SearchOptions,
                        index: BwtIndex, search: (BwtIndex, seq<Int8>) -> Range)
    requires 0 <= i < |seq2| - o.k && 0 <= o.k && 1 <= o.slideLetters && SoundSearch(search)
    requires records + ForwardRecordsFrom(seq2, i, o, index, search) == ForwardRecordsFrom(seq2, 0, o, index, search)
    requires found == WindowRecords(i, Reported(search(index, seq2[i..i + o.k]), o.maxNumMatches),
                                    index.sa, o.k, o.outputsStartPos)
    ensures (records + found) + ForwardRecordsFrom(seq2, i + o.slideLetters, o, index, search)
         == ForwardRecordsFrom(seq2, 0, o, index, search)
  {
    ForwardRecordsStep(seq2, i, o, index, search);
    var rest := ForwardRecordsFrom(seq2, i + o.slideLetters, o, index, search);
    assert records + (found + rest) == (records + found) + rest;
  }

  /** The reverse-complement loop's invariant survives one turn that appends the window's records. */
  lemma BackwardLoopStep(records: seq<Record>, found: seq<Record>, seq2: seq<Int8>, i: int, o: SearchOptions,
                         index: BwtIndex, search: (BwtIndex, seq<Int8>) -> Range)
    requires 0 <= o.k && o.k - 1 <= i < |seq2| - 1 && 1 <= o.slideLetters && SoundSearch(search)
    requires records + BackwardRecordsFrom(seq2, i, o, index, search)
          == BackwardRecordsFrom(seq2, o.k - 1, o, index, search)
    requires found == WindowRecords(i, Reported(search(index, BackwardQuery(seq2, i, o.k, index.numChar)),
                                                 o.maxNumMatches), index.sa, o.k, o.outputsStartPos)
    ensures (records + found) + BackwardRecordsFrom(seq2, i + o.slideLetters, o, index, search)
         == BackwardRecordsFrom(seq2, o.k - 1, o, index, search)
  {
    BackwardRecordsStep(seq2, i, o, index, search);
    var rest := BackwardRecordsFrom(seq2, i + o.slideLetters, o, index, search);
    assert records + (found + rest) == (records + found) + rest;
  }

  /** Every forward record carries the start of a visited k-mer as its query position. */
  lemma {:induction false} ForwardRecordsAtStarts(seq2: seq<Int8>, i: int, o: SearchOptions, index: BwtIndex,
                                                  search: (BwtIndex, seq<Int8>) -> Range)
    requires 0 <= i && 0 <= o.k && 1 <= o.slideLetters && SoundSearch(search)
    ensures forall rec :: rec in ForwardRecordsFrom(seq2, i, o, index, search) ==>
              rec.queryPos in Positions(i, |seq2| - o.k, o.slideLetters)
    decreases |seq2| - o.k - i
  {
    if i < |seq2| - o.k {
      ForwardRecordsAtStarts(seq2, i + o.slideLetters, o, index, search);
    }
  }

  /** Every backward record carries the end of a visited k-mer as its query position. */
  lemma {:induction false} BackwardRecordsAtEnds(seq2: seq<Int8>, i: int, o: SearchOptions, index: BwtIndex,
                                                 search: (BwtIndex, seq<Int8>) -> Range)
    requires 0 <= o.k && o.k - 1 <= i && 1 <= o.slideLetters && SoundSearch(search)
    ensures forall rec :: rec in BackwardRecordsFrom(seq2, i, o, index, search) ==>
              rec.queryPos in Positions(i, |seq2| - 1, o.slideLetters)
    decreases |seq2| - 1 - i
  {
    if i < |seq2| - 1 {
      BackwardRecordsAtEnds(seq2, i + o.slideLetters, o, index, search);
    }
  }

  /**
   * The body shared by both query loops: `bwt.search(query, k, lb, ub)`
   * followed by the capped reporting loop, one record per reported index.
   */
  method ReportMatches(i: int, kmer: seq<Int8>, o: SearchOptions, index: BwtIndex,
                       search: (BwtIndex, seq<Int8>) -> Range) returns (found: seq<Record>)
    requires SoundSearch(search)
    ensures found == WindowRecords(i, Reported(search(index, kmer), o.maxNumMatches), index.sa, o.k, o.outputsStartPos)
  {
    var r := search(index, kmer);
    var js := CappedMatches(r, o.maxNumMatches);
    ReportedWithin(r, o.maxNumMatches, |index.sa|);
    found := WindowRecords(i, js, index.sa, o.k, o.outputsStartPos);
  }

  /** The forward loop of `search_alignment`: query each k-mer `seq2[i..i+k)` and report its capped matches. */
  method SearchForward(seq2: seq<Int8>, o: SearchOptions, index: BwtIndex,
                       search: (BwtIndex, seq<Int8>) -> Range) returns (records: seq<Record>)
    requires 0 <= o.k && 1 <= o.slideLetters && SoundSearch(search)
    ensures records == ForwardRecordsFrom(seq2, 0, o, index, search)
  {
    records := [];
    var i := 0;
    while i < |seq2| - o.k
      invariant 0 <= i
      invariant records + ForwardRecordsFrom(seq2, i, o, index, search) == ForwardRecordsFrom(seq2, 0, o, index, search)
      decreases |seq2| - o.k - i
    {
      var found := ReportMatches(i, seq2[i..i + o.k], o, index, search);
      ForwardLoopStep(records, found, seq2, i, o, index, search);
      records := records + found;
      i := i + o.slideLetters;
    }
  }

  /**
   * The reverse-complement loop of `search_alignment`: fill the query
   * buffer in place with the complemented k-mer read backwards from `i`,
   * query it and report its capped matches.
   */
  method SearchBackward(seq2: seq<Int8>, o: SearchOptions, index: BwtIndex,
                        search: (BwtIndex, seq<Int8>) -> Range) returns (records: seq<Record>)
    requires 0 <= o.k && 1 <= o.slideLetters && SoundSearch(search)
    ensures records == BackwardRecordsFrom(seq2, o.k - 1, o, index, search)
  {
    records := [];
    var query := new Int8[o.k];
    var i := o.k - 1;
    while i < |seq2| - 1
      invariant o.k - 1 <= i
      invariant records + BackwardRecordsFrom(seq2, i, o, index, search)
             == BackwardRecordsFrom(seq2, o.k - 1, o, index, search)
      decreases |seq2| - 1 - i
    {
      var kmer := FillBackwardQuery(query, seq2, i, index.numChar);
      var found := ReportMatches(i, kmer, o, index, search);
      BackwardLoopStep(records, found, seq2, i, o, index, search);
      records := records + found;
      i := i + o.slideLetters;
    }
  }
}
