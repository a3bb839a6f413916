/** CTC output segmentation (Decoder.py): the greedy decoder collapses the
    per-frame arg-max path into maximal runs of equal labels and builds words
    from them; the trie decoder's post-processing loop applies the same rule to
    the token sequence the native beam search returns. Positions are frame
    indices; timestamps, scores and confidences are not part of this model. */
module Decoder {
  import opened Wrappers
  import PyText

  /** An emitted word: its text, the frame where its first letter run begins
      and the frame where the delimiter run that closed it begins. */
  datatype Word = Word(word: string, startIdx: nat, endIdx: nat)

  /** The ways the decoders fail. */
  datatype DecodeError =
    | NoDelimiterLabel         // labels.index("|") raises ValueError
    | EmptyRow                 // np.argmax of a frame with no classes
    | LabelOutOfRange(k: nat)  // labels[k] or get_entry(k) past the end of the table
    | UnboundStart(at: nat)    // a delimiter run before any letter: start_idx is unbound
    | NoCurrentWord(at: nat)   // current_word is still None where a string is needed
    | NoWordClosed             // score is still None after the loop

  /** `GreedyDecoder(labels, blank_idx)`; `delimIdx` is the position of "|". */
  datatype GreedyDecoder = GreedyDecoder(labels: seq<string>, blankIdx: int, delimIdx: nat)

  /** `list.index`: the first position holding `x`, if any. */
  function IndexOf(s: seq<string>, x: string): (r: Option<nat>)
    ensures r.Some? <==> x in s
    ensures r.Some? ==> r.value < |s| && s[r.value] == x
    ensures r.Some? ==> forall j :: 0 <= j < r.value ==> s[j] != x
  {
    if s == [] then None
    else if s[0] == x then Some(0)
    else
      assert x in s ==> x in s[1..] by {
        if x in s { var j :| 0 <= j < |s| && s[j] == x; assert s[1..][j - 1] == x; }
      }
      match IndexOf(s[1..], x)
      case None => None
      case Some(j) => Some(j + 1)
  }

  /** The constructor succeeds exactly when "|" is a label, and then the
      delimiter is its first occurrence. */
  function NewGreedyDecoder(labels: seq<string>, blankIdx: int): (r: Result<GreedyDecoder, DecodeError>)
    ensures r.Ok? <==> "|" in labels
    ensures r.Err? ==> r.error == NoDelimiterLabel
    ensures r.Ok? ==> r.value.labels == labels && r.value.blankIdx == blankIdx
    ensures r.Ok? ==> r.value.delimIdx < |labels| && labels[r.value.delimIdx] == "|"
    ensures r.Ok? ==> forall j :: 0 <= j < r.value.delimIdx ==> labels[j] != "|"
  {
    match IndexOf(labels, "|")
    case None => Err(NoDelimiterLabel)
    case Some(j) => Ok(GreedyDecoder(labels, blankIdx, j))
  }

  // ---------------------------------------------------------------------------
  // The best path
  // ---------------------------------------------------------------------------

  /** `k` is where `row` first reaches its maximum. */
  predicate IsFirstMax(row: seq<real>, k: nat)
  {
    && k < |row|
    && (forall j :: 0 <= j < |row| ==> row[j] <= row[k])
    && (forall j :: 0 <= j < k ==> row[j] < row[k])
  }

  /** `np.argmax` of one frame. */
  function ArgMax(row: seq<real>): (r: nat)
    requires row != []
    ensures IsFirstMax(row, r)
    decreases |row|
  {
    if |row| == 1 then 0
    else
      var m := ArgMax(row[..|row| - 1]);
      if row[|row| - 1] > row[m] then |row| - 1 else m
  }

  /** `np.argmax(output, axis=1)`: one label per frame, the first maximum
      winning ties; a frame with no classes makes numpy raise. */
  function BestPath(output: seq<seq<real>>): (r: Result<seq<nat>, DecodeError>)
    ensures r.Ok? <==> forall t :: 0 <= t < |output| ==> output[t] != []
    ensures r.Err? ==> r.error == EmptyRow
    ensures r.Ok? ==> |r.value| == |output|
    ensures r.Ok? ==> forall t :: 0 <= t < |output| ==> IsFirstMax(output[t], r.value[t])
  {
    if exists t :: 0 <= t < |output| && output[t] == [] then Err(EmptyRow)
    else Ok(seq(|output|, t requires 0 <= t < |output| => ArgMax(output[t])))
  }

  // ---------------------------------------------------------------------------
  // Runs: `itertools.groupby(best_path)`
  // ---------------------------------------------------------------------------

  /** A maximal run of equal labels: the label, its first frame and its length. */
  datatype Run = Run(key: nat, start: nat, len: nat)

  /** One more frame at position `at`: a frame equal to the last run's label
      lengthens that run, any other frame starts a new one. */
  function Extend(rs: seq<Run>, x: nat, at: nat): seq<Run>
  {
    if rs != [] && rs[|rs| - 1].key == x then rs[..|rs| - 1] + [rs[|rs| - 1].(len := rs[|rs| - 1].len + 1)]
    else rs + [Run(x, at, 1)]
  }

  /** The runs of `p`, built frame by frame. */
  function Runs(p: seq<nat>): seq<Run>
    decreases |p|
  {
    if p == [] then [] else Extend(Runs(p[..|p| - 1]), p[|p| - 1], |p| - 1)
  }

  /** `rs` covers the frames from `from` up to `to` without gaps or overlap:
      each run is non-empty and starts where the one before it ends. */
  predicate Contiguous(rs: seq<Run>, from: nat, to: nat)
  {
    && (rs == [] ==> from == to)
    && (rs != [] ==> rs[0].start == from && rs[|rs| - 1].start + rs[|rs| - 1].len == to)
    && (forall k :: 0 <= k < |rs| ==> rs[k].len > 0)
    && (forall k :: 0 <= k < |rs| - 1 ==> rs[k + 1].start == rs[k].start + rs[k].len)
  }

  /** Every frame of every run carries the run's label. */
  predicate Labelled(rs: seq<Run>, p: seq<nat>)
  {
    forall k, t :: 0 <= k < |rs| && rs[k].start <= t < rs[k].start + rs[k].len && t < |p| ==> p[t] == rs[k].key
  }

  /** Neighbouring runs carry different labels. */
  predicate Distinct(rs: seq<Run>)
  {
    forall k :: 0 <= k < |rs| - 1 ==> rs[k].key != rs[k + 1].key
  }

  /** Dropping the last run of a cover leaves a cover up to where that run starts. */
  lemma {:induction false} ContiguousPrefix(rs: seq<Run>, from: nat, to: nat)
    requires Contiguous(rs, from, to) && rs != []
    ensures Contiguous(rs[..|rs| - 1], from, rs[|rs| - 1].start)
  {
    var n := |rs|;
    var pre := rs[..n - 1];
    assert forall k :: 0 <= k < n - 1 ==> pre[k] == rs[k];
    if n > 1 {
      assert pre[n - 2] == rs[n - 2];
    }
  }

  /** In a cover every run lies between `from` and `to`. */
  lemma {:induction false} ContiguousBounds(rs: seq<Run>, from: nat, to: nat)
    requires Contiguous(rs, from, to)
    ensures forall k :: 0 <= k < |rs| ==> from <= rs[k].start && rs[k].start + rs[k].len <= to
    decreases |rs|
  {
    if rs != [] {
      var n := |rs|;
      var pre := rs[..n - 1];
      ContiguousPrefix(rs, from, to);
      ContiguousBounds(pre, from, rs[n - 1].start);
      assert forall k :: 0 <= k < n - 1 ==> pre[k] == rs[k];
    }
  }

  /** In a cover a run ends no later than any later run starts. */
  lemma {:induction false} ContiguousOrdered(rs: seq<Run>, from: nat, to: nat)
    requires Contiguous(rs, from, to)
    ensures forall i, j :: 0 <= i < j < |rs| ==> rs[i].start + rs[i].len <= rs[j].start
    decreases |rs|
  {
    if rs != [] {
      var n := |rs|;
      var pre := rs[..n - 1];
      ContiguousPrefix(rs, from, to);
      ContiguousBounds(pre, from, rs[n - 1].start);
      ContiguousOrdered(pre, from, rs[n - 1].start);
      assert forall k :: 0 <= k < n - 1 ==> pre[k] == rs[k];
    }
  }

  /** A frame equal to the last run's label lengthens that run. */
  lemma {:induction false} ExtendSame(rs: seq<Run>, q: seq<nat>, x: nat)
    requires Contiguous(rs, 0, |q|) && Labelled(rs, q) && Distinct(rs)
    requires rs != [] && rs[|rs| - 1].key == x
    ensures Contiguous(Extend(rs, x, |q|), 0, |q| + 1)
    ensures Labelled(Extend(rs, x, |q|), q + [x])
    ensures Distinct(Extend(rs, x, |q|))
  {
    var p := q + [x];
    var m := |rs|;
    var out := rs[..m - 1] + [rs[m - 1].(len := rs[m - 1].len + 1)];
    assert Extend(rs, x, |q|) == out;
    assert forall k :: 0 <= k < m - 1 ==> out[k] == rs[k];
    ContiguousBounds(rs, 0, |q|);
    forall k, t | 0 <= k < m && out[k].start <= t < out[k].start + out[k].len && t < |p|
      ensures p[t] == out[k].key
    {
      if t < |q| { assert p[t] == q[t]; }
    }
  }

  /** Any other frame starts a new run of length one. */
  lemma {:induction false} ExtendNew(rs: seq<Run>, q: seq<nat>, x: nat)
    requires Contiguous(rs, 0, |q|) && Labelled(rs, q) && Distinct(rs)
    requires !(rs != [] && rs[|rs| - 1].key == x)
    ensures Contiguous(Extend(rs, x, |q|), 0, |q| + 1)
    ensures Labelled(Extend(rs, x, |q|), q + [x])
    ensures Distinct(Extend(rs, x, |q|))
  {
    assert Extend(rs, x, |q|) == rs + [Run(x, |q|, 1)];
    AppendContiguous(rs, |q|, x);
    ContiguousBounds(rs, 0, |q|);
    AppendLabelled(rs, q, x);
    AppendDistinct(rs, Run(x, |q|, 1));
  }

  lemma {:induction false} AppendDistinct(rs: seq<Run>, r: Run)
    requires Distinct(rs)
    requires rs != [] ==> rs[|rs| - 1].key != r.key
    ensures Distinct(rs + [r])
  {
    var out := rs + [r];
    assert forall k :: 0 <= k < |rs| ==> out[k] == rs[k];
  }

  lemma {:induction false} AppendContiguous(rs: seq<Run>, n: nat, x: nat)
    requires Contiguous(rs, 0, n)
    ensures Contiguous(rs + [Run(x, n, 1)], 0, n + 1)
  {
    var out := rs + [Run(x, n, 1)];
    assert forall k :: 0 <= k < |rs| ==> out[k] == rs[k];
  }

  lemma {:induction false} AppendLabelled(rs: seq<Run>, q: seq<nat>, x: nat)
    requires Labelled(rs, q)
    requires forall k :: 0 <= k < |rs| ==> rs[k].start + rs[k].len <= |q|
    ensures Labelled(rs + [Run(x, |q|, 1)], q + [x])
  {
    var p := q + [x];
    var m := |rs|;
    var out := rs + [Run(x, |q|, 1)];
    forall k, t | 0 <= k < m + 1 && out[k].start <= t < out[k].start + out[k].len && t < |p|
      ensures p[t] == out[k].key
    {
      if k < m {
        assert out[k] == rs[k];
        assert p[t] == q[t];
      }
    }
  }

  /** The runs tile the path: the first starts at frame 0, each is non-empty
      and starts where the one before it ends, the last ends with the path,
      every frame of a run carries its label, and neighbouring runs have
      different labels, so each run is maximal. */
  lemma {:induction false} RunsTile(p: seq<nat>)
    ensures Contiguous(Runs(p), 0, |p|)
    ensures Labelled(Runs(p), p)
    ensures Distinct(Runs(p))
    ensures p != [] ==> Runs(p)[|Runs(p)| - 1].key == p[|p| - 1]
    decreases |p|
  {
    if p != [] {
      var q := p[..|p| - 1];
      assert p == q + [p[|p| - 1]];
      var x := p[|p| - 1];
      RunsTile(q);
      var rs := Runs(q);
      assert Runs(p) == Extend(rs, x, |q|);
      if rs != [] && rs[|rs| - 1].key == x {
        ExtendSame(rs, q, x);
      } else {
        ExtendNew(rs, q, x);
      }
    }
  }

  function SumLens(rs: seq<Run>): nat
    decreases |rs|
  {
    if rs == [] then 0 else SumLens(rs[..|rs| - 1]) + rs[|rs| - 1].len
  }

  /** The lengths of a gap-free cover add up to the span covered. */
  lemma {:induction false} RunLensSum(rs: seq<Run>, from: nat, to: nat)
    requires Contiguous(rs, from, to)
    ensures SumLens(rs) == to - from
    decreases |rs|
  {
    if rs != [] {
      ContiguousPrefix(rs, from, to);
      RunLensSum(rs[..|rs| - 1], from, rs[|rs| - 1].start);
    }
  }

  /** In a gap-free cover each run starts after the sum of the lengths of the
      runs before it. */
  lemma {:induction false} RunStartsAreSums(rs: seq<Run>, from: nat, to: nat)
    requires Contiguous(rs, from, to)
    ensures forall k :: 0 <= k < |rs| ==> rs[k].start == from + SumLens(rs[..k])
    decreases |rs|
  {
    if rs != [] {
      var n := |rs|;
      var pre := rs[..n - 1];
      ContiguousPrefix(rs, from, to);
      RunStartsAreSums(pre, from, rs[n - 1].start);
      RunLensSum(pre, from, rs[n - 1].start);
      forall k | 0 <= k < n
        ensures rs[k].start == from + SumLens(rs[..k])
      {
        if k < n - 1 {
          assert pre[k] == rs[k];
          assert pre[..k] == rs[..k];
        } else {
          assert rs[..k] == pre;
        }
      }
    }
  }

  /** The runs lengths add up to the frame count, and run k starts at the sum
      of the lengths of the runs before it: the `i` of the groupby loop. */
  lemma {:induction false} RunsStartAtSums(p: seq<nat>)
    ensures SumLens(Runs(p)) == |p|
    ensures forall k :: 0 <= k < |Runs(p)| ==> Runs(p)[k].start == SumLens(Runs(p)[..k])
  {
    RunsTile(p);
    RunLensSum(Runs(p), 0, |p|);
    RunStartsAreSums(Runs(p), 0, |p|);
  }

  // ---------------------------------------------------------------------------
  // The greedy word-building rule, one run at a time
  // ---------------------------------------------------------------------------

  /** `current_word` and `start_idx` once a word has been opened. */
  datatype Open = Open(text: string, startIdx: nat)

  /** The loop variables of `decode` that the words depend on: `words`,
      `new_word`, `current_word`/`start_idx` (unbound until the first letter)
      and `words_len`. */
  datatype GState = GState(words: seq<Word>, newWord: bool, cur: Option<Open>, wordsLen: int)

  const Init := GState([], true, None, 0)

  /** The body of the groupby loop for one run. */
  function Step(d: GreedyDecoder, st: GState, run: Run): (r: Result<GState, DecodeError>)
    ensures r.Ok? ==> |st.words| <= |r.value.words| <= |st.words| + 1
    ensures r.Ok? ==> r.value.words[..|st.words|] == st.words
    ensures r.Ok? ==>
      (|r.value.words| == |st.words| + 1 <==> run.key == d.delimIdx && run.key as int != d.blankIdx)
  {
    var k := run.key;
    if k as int == d.blankIdx then Ok(st)
    else if st.newWord && k != d.delimIdx then
      if k < |d.labels| then Ok(st.(newWord := false, cur := Some(Open(d.labels[k], run.start))))
      else Err(LabelOutOfRange(k))
    else if k == d.delimIdx then
      match st.cur
      case None => Err(UnboundStart(run.start))
      case Some(o) =>
        assert (st.words + [Word(o.text, o.startIdx, run.start)])[..|st.words|] == st.words;
        Ok(GState(st.words + [Word(o.text, o.startIdx, run.start)], true, st.cur,
                  st.wordsLen + (run.start - o.startIdx)))
    else if k >= |d.labels| then Err(LabelOutOfRange(k))
    else
      match st.cur
      case None => Err(NoCurrentWord(run.start))
      case Some(o) => Ok(st.(cur := Some(Open(o.text + d.labels[k], o.startIdx))))
  }

  /** Feeding a run after a result: errors are final. */
  function Then(r: Result<GState, DecodeError>, d: GreedyDecoder, run: Run): Result<GState, DecodeError>
  {
    match r
    case Err(e) => Err(e)
    case Ok(s) => Step(d, s, run)
  }

  /** The groupby loop over a sequence of runs, left to right. */
  function Fold(d: GreedyDecoder, st: GState, rs: seq<Run>): Result<GState, DecodeError>
    decreases |rs|
  {
    if rs == [] then Ok(st) else Then(Fold(d, st, rs[..|rs| - 1]), d, rs[|rs| - 1])
  }

  /** One more run after `rs` is one more step of the loop. */
  lemma {:induction false} FoldSnoc(d: GreedyDecoder, st: GState, rs: seq<Run>, run: Run)
    ensures Fold(d, st, rs + [run]) == Then(Fold(d, st, rs), d, run)
  {
    assert (rs + [run])[..|rs|] == rs;
  }

  lemma {:induction false} FoldAppend(d: GreedyDecoder, st: GState, a: seq<Run>, b: seq<Run>)
    ensures Fold(d, st, a + b) ==
      match Fold(d, st, a)
      case Err(e) => Err(e)
      case Ok(s) => Fold(d, s, b)
    decreases |b|
  {
    if b == [] {
      assert a + b == a;
    } else {
      assert (a + b)[..|a + b| - 1] == a + b[..|b| - 1];
      assert (a + b)[|a + b| - 1] == b[|b| - 1];
      FoldAppend(d, st, a, b[..|b| - 1]);
    }
  }

  /** Adding one frame to a path either lengthens the last run, which leaves
      the outcome unchanged, or feeds one new run to the loop. */
  lemma {:induction false} FoldRunsSnoc(d: GreedyDecoder, st: GState, p: seq<nat>, x: nat)
    ensures Fold(d, st, Runs(p + [x])) ==
      if p != [] && p[|p| - 1] == x then Fold(d, st, Runs(p))
      else Then(Fold(d, st, Runs(p)), d, Run(x, |p|, 1))
  {
    assert (p + [x])[..|p|] == p;
    RunsTile(p);
    var rs := Runs(p);
    assert Runs(p + [x]) == Extend(rs, x, |p|);
    if p != [] && p[|p| - 1] == x {
      var m := |rs|;
      var pre := rs[..m - 1];
      var last := rs[m - 1];
      assert rs == pre + [last];
      FoldSnoc(d, st, pre, last);
      FoldSnoc(d, st, pre, last.(len := last.len + 1));
      ThenIgnoresLen(Fold(d, st, pre), d, last, last.len + 1);
    } else {
      FoldSnoc(d, st, rs, Run(x, |p|, 1));
    }
  }

  /** The loop body looks at a run's label and first frame, not its length. */
  lemma {:induction false} ThenIgnoresLen(r: Result<GState, DecodeError>, d: GreedyDecoder, run: Run, len: nat)
    ensures Then(r, d, run.(len := len)) == Then(r, d, run)
  {
  }

  /** Once the loop has failed on a prefix of the path, it fails the same way
      on the whole path. */
  lemma {:induction false} FoldRunsErrSticks(d: GreedyDecoder, st: GState, p: seq<nat>, j: nat)
    requires j <= |p|
    requires Fold(d, st, Runs(p[..j])).Err?
    ensures Fold(d, st, Runs(p)) == Fold(d, st, Runs(p[..j]))
    decreases |p| - j
  {
    if j == |p| {
      assert p[..j] == p;
    } else {
      var a := p[..j];
      var b := p[..j + 1];
      assert b == a + [p[j]];
      FoldRunsSnoc(d, st, a, p[j]);
      assert Fold(d, st, Runs(b)) == Fold(d, st, Runs(a));
      FoldRunsErrSticks(d, st, p, j + 1);
    }
  }

  /** Feeding the frames of one run, from a run boundary `i` up to `j`, feeds
      the loop that run once. */
  lemma {:induction false} FoldOneRun(d: GreedyDecoder, st: GState, p: seq<nat>, i: nat, j: nat)
    requires i < j <= |p|
    requires i > 0 ==> p[i] != p[i - 1]
    requires forall t :: i <= t < j ==> p[t] == p[i]
    ensures Fold(d, st, Runs(p[..j])) == Then(Fold(d, st, Runs(p[..i])), d, Run(p[i], i, 1))
    decreases j - i
  {
    var a := p[..j - 1];
    assert p[..j] == a + [p[j - 1]];
    FoldRunsSnoc(d, st, a, p[j - 1]);
    if j > i + 1 {
      FoldOneRun(d, st, p, i, j - 1);
    } else {
      assert a == p[..i];
    }
  }

  /** `DecodeResult` without its score: the words and `words_len`. */
  datatype DecodeResult = DecodeResult(words: seq<Word>, wordsLen: int)

  /** Total number of frames the words span, `sum(end_idx - start_idx)`. */
  function TotalSpan(ws: seq<Word>): int
    decreases |ws|
  {
    if ws == [] then 0
    else TotalSpan(ws[..|ws| - 1]) + (ws[|ws| - 1].endIdx as int - ws[|ws| - 1].startIdx as int)
  }

  /** Each word begins before it ends, ends before frame `n`, and words come
      in order of their closing delimiters. */
  predicate WordsInFrames(ws: seq<Word>, n: nat)
  {
    && (forall i :: 0 <= i < |ws| ==> ws[i].startIdx < ws[i].endIdx < n)
    && (forall i, j :: 0 <= i < j < |ws| ==> ws[i].endIdx < ws[j].endIdx)
  }

  /** What stays true of the loop variables once the runs before frame `at`
      have been fed: a word is open whenever `new_word` is false and began
      before `at`; right after a delimiter the open word is the last one
      emitted; `words_len` is the total span; the words lie inside the frames. */
  ghost predicate GInv(st: GState, at: nat)
  {
    && (!st.newWord ==> st.cur.Some?)
    && (st.cur.Some? ==> st.cur.value.startIdx < at)
    && (st.newWord && st.words != [] ==>
          st.cur == Some(Open(st.words[|st.words| - 1].word, st.words[|st.words| - 1].startIdx)))
    && st.wordsLen == TotalSpan(st.words)
    && WordsInFrames(st.words, at)
  }

  lemma {:induction false} StepKeepsInv(d: GreedyDecoder, st: GState, run: Run, at: nat)
    requires GInv(st, at)
    requires run.start == at && run.len > 0
    ensures Step(d, st, run).Ok? ==> GInv(Step(d, st, run).value, at + run.len)
  {
    var r := Step(d, st, run);
    if r.Ok? && |r.value.words| == |st.words| + 1 {
      var ws := r.value.words;
      assert ws[..|st.words|] == st.words;
    }
  }

  lemma {:induction false} FoldKeepsInv(d: GreedyDecoder, st: GState, rs: seq<Run>, from: nat, to: nat)
    requires GInv(st, from)
    requires Contiguous(rs, from, to)
    ensures Fold(d, st, rs).Ok? ==> GInv(Fold(d, st, rs).value, to)
    decreases |rs|
  {
    if rs != [] {
      var n := |rs|;
      var pre := rs[..n - 1];
      var at := rs[n - 1].start;
      ContiguousPrefix(rs, from, to);
      FoldKeepsInv(d, st, pre, from, at);
      if Fold(d, st, pre).Ok? {
        StepKeepsInv(d, Fold(d, st, pre).value, rs[n - 1], at);
      }
    }
  }

  /** `GreedyDecoder.decode` on an output matrix: the best path, the loop over
      its runs from the initial state, then the failure when no word was
      closed. Every decoded word lies inside the frames, begins before it
      ends, and `words_len` is their total span. */
  function GreedySpec(d: GreedyDecoder, output: seq<seq<real>>): (r: Result<DecodeResult, DecodeError>)
    ensures r.Ok? ==> r.value.words != []
    ensures r.Ok? ==> r.value.wordsLen == TotalSpan(r.value.words)
    ensures r.Ok? ==> WordsInFrames(r.value.words, |output|)
  {
    match BestPath(output)
    case Err(e) => Err(e)
    case Ok(path) =>
      RunsTile(path);
      FoldKeepsInv(d, Init, Runs(path), 0, |path|);
      match Fold(d, Init, Runs(path))
      case Err(e) => Err(e)
      case Ok(s) => if s.words == [] then Err(NoWordClosed) else Ok(DecodeResult(s.words, s.wordsLen))
  }

  /** The loop variables as one state. */
  function AsState(words: seq<Word>, newWord: bool, currentWord: Option<string>, startIdx: Option<nat>,
                   wordsLen: int): GState
  {
    GState(words, newWord,
           if startIdx.Some? && currentWord.Some? then Some(Open(currentWord.value, startIdx.value)) else None,
           wordsLen)
  }

  /** A failure on the runs of a prefix of the best path is the decoder's
      failure. */
  lemma {:induction false} FailsAt(d: GreedyDecoder, output: seq<seq<real>>, path: seq<nat>, j: nat)
    requires BestPath(output) == Ok(path)
    requires j <= |path|
    requires Fold(d, Init, Runs(path[..j])).Err?
    ensures GreedySpec(d, output) == Err(Fold(d, Init, Runs(path[..j])).error)
  {
    FoldRunsErrSticks(d, Init, path, j);
  }

  /** The end of the group that starts at frame `i`: `i + sum(1 for _ in g)`. */
  method GroupEnd(path: seq<nat>, i: nat) returns (j: nat)
    requires i < |path|
    ensures i < j <= |path|
    ensures forall t :: i <= t < j ==> path[t] == path[i]
    ensures j < |path| ==> path[j] != path[i]
  {
    j := i + 1;
    while j < |path| && path[j] == path[i]
      invariant i < j <= |path|
      invariant forall t :: i <= t < j ==> path[t] == path[i]
      decreases |path| - j
    {
      j := j + 1;
    }
  }

  /** The body of the groupby loop for the run of label `k` that starts at
      frame `i`, on the loop's variables. */
  method RunStep(d: GreedyDecoder, k: nat, i: nat, words: seq<Word>, newWord: bool, currentWord: Option<string>,
                 startIdx: Option<nat>, wordsLen: int)
    returns (err: Option<DecodeError>, words': seq<Word>, newWord': bool, currentWord': Option<string>,
             startIdx': Option<nat>, wordsLen': int)
    requires startIdx.Some? <==> currentWord.Some?
    ensures startIdx'.Some? <==> currentWord'.Some?
    ensures var after := Step(d, AsState(words, newWord, currentWord, startIdx, wordsLen), Run(k, i, 1));
      if err.Some? then after == Err(err.value)
      else after == Ok(AsState(words', newWord', currentWord', startIdx', wordsLen'))
  {
    err, words', newWord', currentWord', startIdx', wordsLen' := None, words, newWord, currentWord, startIdx, wordsLen;
    if k as int != d.blankIdx {
      if newWord && k != d.delimIdx {
        if k >= |d.labels| {
          err := Some(LabelOutOfRange(k));
          return;
        }
        newWord', startIdx', currentWord' := false, Some(i), Some(d.labels[k]);
      } else if k == d.delimIdx {
        if startIdx.None? {
          err := Some(UnboundStart(i));
          return;
        }
        var endIdx := i;
        newWord' := true;
        wordsLen' := wordsLen + (endIdx - startIdx.value);
        words' := words + [Word(currentWord.value, startIdx.value, endIdx)];
      } else {
        if k >= |d.labels| {
          err := Some(LabelOutOfRange(k));
          return;
        }
        if currentWord.None? {
          err := Some(NoCurrentWord(i));
          return;
        }
        currentWord' := Some(currentWord.value + d.labels[k]);
      }
    }
  }

  /** `GreedyDecoder.decode`: walks the runs of the best path, advancing `i`
      by each run's length. */
  method GreedyDecode(d: GreedyDecoder, output: seq<seq<real>>) returns (r: Result<DecodeResult, DecodeError>)
    ensures r == GreedySpec(d, output)
  {
    var bp := BestPath(output);
    if bp.Err? {
      return Err(bp.error);
    }
    var path := bp.value;
    var words: seq<Word> := [];
    var newWord := true;
    var currentWord: Option<string> := None;
    var startIdx: Option<nat> := None;
    var wordsLen := 0;
    var i := 0;
    while i < |path|
      invariant i <= |path|
      invariant 0 < i < |path| ==> path[i] != path[i - 1]
      invariant startIdx.Some? <==> currentWord.Some?
      invariant Fold(d, Init, Runs(path[..i])) == Ok(AsState(words, newWord, currentWord, startIdx, wordsLen))
      decreases |path| - i
    {
      var k := path[i];
      var j := GroupEnd(path, i);
      FoldOneRun(d, Init, path, i, j);
      var err;
      err, words, newWord, currentWord, startIdx, wordsLen :=
        RunStep(d, k, i, words, newWord, currentWord, startIdx, wordsLen);
      if err.Some? {
        FailsAt(d, output, path, j);
        return Err(err.value);
      }
      i := j;
    }
    assert path[..i] == path;
    if words == [] {
      return Err(NoWordClosed);
    }
    return Ok(DecodeResult(words, wordsLen));
  }

  // ---------------------------------------------------------------------------
  // What the greedy rule does
  // ---------------------------------------------------------------------------

  predicate IsBlankRun(d: GreedyDecoder, r: Run)
  {
    r.key as int == d.blankIdx
  }

  predicate IsLetter(d: GreedyDecoder, r: Run)
  {
    r.key as int != d.blankIdx && r.key != d.delimIdx && r.key < |d.labels|
  }

  predicate IsClosing(d: GreedyDecoder, r: Run)
  {
    r.key == d.delimIdx && r.key as int != d.blankIdx
  }

  /** The labels of the letter runs among `rs`, one label per run; blank runs
      contribute nothing. */
  function LetterText(d: GreedyDecoder, rs: seq<Run>): string
    requires forall r :: r in rs ==> IsBlankRun(d, r) || IsLetter(d, r)
    decreases |rs|
  {
    if rs == [] then ""
    else
      var last := rs[|rs| - 1];
      assert last in rs;
      assert forall r :: r in rs[..|rs| - 1] ==> r in rs;
      LetterText(d, rs[..|rs| - 1]) + (if IsBlankRun(d, last) then "" else assert IsLetter(d, last); d.labels[last.key])
  }

  /** Blank runs leave every loop variable as it was. */
  lemma {:induction false} BlankRunsChangeNothing(d: GreedyDecoder, st: GState, rs: seq<Run>)
    requires forall r :: r in rs ==> IsBlankRun(d, r)
    ensures Fold(d, st, rs) == Ok(st)
    decreases |rs|
  {
    if rs != [] {
      assert forall r :: r in rs[..|rs| - 1] ==> r in rs;
      BlankRunsChangeNothing(d, st, rs[..|rs| - 1]);
      assert rs[|rs| - 1] in rs;
    }
  }

  /** From a state waiting for a new word, letter runs (with blanks between
      them) open one word that starts at the first letter run and holds the
      letters' labels, one per run. */
  lemma {:induction false} LettersOpenWord(d: GreedyDecoder, st: GState, rs: seq<Run>)
    requires st.newWord
    requires rs != [] && IsLetter(d, rs[0])
    requires forall r :: r in rs ==> IsBlankRun(d, r) || IsLetter(d, r)
    ensures Fold(d, st, rs) == Ok(GState(st.words, false, Some(Open(LetterText(d, rs), rs[0].start)), st.wordsLen))
    decreases |rs|
  {
    var n := |rs|;
    if n == 1 {
      assert rs[..0] == [];
      assert LetterText(d, rs) == d.labels[rs[0].key];
    } else {
      var pre := rs[..n - 1];
      assert pre[0] == rs[0];
      assert forall r :: r in pre ==> r in rs;
      var last := rs[n - 1];
      assert last in rs;
      LettersOpenWord(d, st, pre);
      var text := LetterText(d, pre);
      var s := GState(st.words, false, Some(Open(text, rs[0].start)), st.wordsLen);
      assert Fold(d, st, rs) == Step(d, s, last);
      if IsBlankRun(d, last) {
        assert LetterText(d, rs) == text;
      } else {
        assert IsLetter(d, last);
        assert LetterText(d, rs) == text + d.labels[last.key];
      }
    }
  }

  /** A word is emitted when the delimiter run arrives: its text is the
      labels of the letter runs since it opened, it starts at the first of
      them and ends where the delimiter run starts. */
  lemma {:induction false} WordFromLetters(d: GreedyDecoder, st: GState, rs: seq<Run>, delim: Run)
    requires st.newWord
    requires rs != [] && IsLetter(d, rs[0])
    requires forall r :: r in rs ==> IsBlankRun(d, r) || IsLetter(d, r)
    requires IsClosing(d, delim)
    ensures Fold(d, st, rs + [delim]) ==
      var text := LetterText(d, rs);
      Ok(GState(st.words + [Word(text, rs[0].start, delim.start)], true, Some(Open(text, rs[0].start)),
                st.wordsLen + (delim.start - rs[0].start)))
  {
    LettersOpenWord(d, st, rs);
    FoldSnoc(d, st, rs, delim);
    StepCloses(d, GState(st.words, false, Some(Open(LetterText(d, rs), rs[0].start)), st.wordsLen), delim);
  }

  /** A delimiter run with no letter since the previous one emits the previous
      word again, with its old start and the new end. */
  lemma {:induction false} ReemitPrevious(d: GreedyDecoder, st: GState, blanks: seq<Run>, delim: Run)
    requires st.newWord && st.words != []
    requires st.cur == Some(Open(st.words[|st.words| - 1].word, st.words[|st.words| - 1].startIdx))
    requires forall r :: r in blanks ==> IsBlankRun(d, r)
    requires IsClosing(d, delim)
    ensures Fold(d, st, blanks + [delim]) ==
      var prev := st.words[|st.words| - 1];
      Ok(GState(st.words + [Word(prev.word, prev.startIdx, delim.start)], true, st.cur,
                st.wordsLen + (delim.start - prev.startIdx)))
  {
    BlankRunsChangeNothing(d, st, blanks);
    FoldSnoc(d, st, blanks, delim);
    StepCloses(d, st, delim);
  }

  /** A closing delimiter run with a word open emits that word, ending where
      the run starts. */
  lemma {:induction false} StepCloses(d: GreedyDecoder, st: GState, delim: Run)
    requires IsClosing(d, delim) && st.cur.Some?
    ensures Step(d, st, delim) ==
      Ok(GState(st.words + [Word(st.cur.value.text, st.cur.value.startIdx, delim.start)], true, st.cur,
                st.wordsLen + (delim.start - st.cur.value.startIdx)))
  {
  }

  /** A delimiter run before any letter fails on the unbound `start_idx`,
      whatever follows. */
  lemma {:induction false} DelimiterBeforeLetter(d: GreedyDecoder, blanks: seq<Run>, delim: Run, rest: seq<Run>)
    requires forall r :: r in blanks ==> IsBlankRun(d, r)
    requires IsClosing(d, delim)
    ensures Fold(d, Init, blanks + [delim] + rest) == Err(UnboundStart(delim.start))
  {
    BlankRunsChangeNothing(d, Init, blanks);
    assert (blanks + [delim])[..|blanks|] == blanks;
    FoldAppend(d, Init, blanks + [delim], rest);
  }

  /** Number of runs among `rs` that close a word. */
  function CountClosing(d: GreedyDecoder, rs: seq<Run>): nat
    decreases |rs|
  {
    if rs == [] then 0
    else CountClosing(d, rs[..|rs| - 1]) + (if IsClosing(d, rs[|rs| - 1]) then 1 else 0)
  }

  /** Words are only ever appended, one per closing delimiter run. */
  lemma {:induction false} WordsOnlyAtDelimiters(d: GreedyDecoder, st: GState, rs: seq<Run>)
    ensures Fold(d, st, rs).Ok? ==>
      && |Fold(d, st, rs).value.words| == |st.words| + CountClosing(d, rs)
      && Fold(d, st, rs).value.words[..|st.words|] == st.words
    decreases |rs|
  {
    if rs != [] {
      var pre := rs[..|rs| - 1];
      WordsOnlyAtDelimiters(d, st, pre);
      if Fold(d, st, rs).Ok? {
        var s := Fold(d, st, pre).value;
        var t := Fold(d, st, rs).value;
        assert t.words[..|s.words|] == s.words;
        assert t.words[..|st.words|] == s.words[..|st.words|];
      }
    }
  }

  /** Letters after the last delimiter are never emitted. */
  lemma {:induction false} TrailingLettersDropped(d: GreedyDecoder, st: GState, a: seq<Run>, b: seq<Run>)
    requires CountClosing(d, b) == 0
    requires Fold(d, st, a + b).Ok?
    ensures Fold(d, st, a).Ok?
    ensures Fold(d, st, a + b).value.words == Fold(d, st, a).value.words
  {
    FoldAppend(d, st, a, b);
    var s := Fold(d, st, a).value;
    WordsOnlyAtDelimiters(d, s, b);
    var t := Fold(d, st, a + b).value;
    assert t.words == t.words[..|s.words|];
  }

  /** A best path without a closing delimiter run decodes to an error. */
  lemma {:induction false} NoDelimiterNoResult(d: GreedyDecoder, output: seq<seq<real>>)
    requires BestPath(output).Ok?
    requires CountClosing(d, Runs(BestPath(output).value)) == 0
    ensures GreedySpec(d, output).Err?
  {
    WordsOnlyAtDelimiters(d, Init, Runs(BestPath(output).value));
  }

  // ---------------------------------------------------------------------------
  // `DecodeResult.text`
  // ---------------------------------------------------------------------------

  function Texts(ws: seq<Word>): (r: seq<string>)
    ensures |r| == |ws| && forall i :: 0 <= i < |ws| ==> r[i] == ws[i].word
  {
    seq(|ws|, i requires 0 <= i < |ws| => ws[i].word)
  }

  /** `" ".join(word["word"] for word in words)` */
  function Text(ws: seq<Word>): string
  {
    PyText.Join(Texts(ws), " ")
  }

  /** When the word texts are non-empty and hold no whitespace, splitting the
      text on whitespace gives the words back, in order. */
  lemma {:induction false} TextSplitsIntoWords(ws: seq<Word>, sp: char -> bool)
    requires sp(' ')
    requires forall i :: 0 <= i < |ws| ==> PyText.GoodWord(ws[i].word, sp)
    ensures PyText.SplitWs(Text(ws), sp) == Texts(ws)
  {
    PyText.SplitJoin(Texts(ws), sp);
  }

  // ---------------------------------------------------------------------------
  // TrieDecoder.decode: the token post-processing loop
  // ---------------------------------------------------------------------------

  /** The token dictionary's entries and the indices of silence, blank and
      delimiter tokens; `get_trie` sets silence and blank to the same index. */
  datatype TrieDecoder = TrieDecoder(entries: seq<string>, silIdx: nat, blankIdx: nat, delimIdx: nat)

  /** The loop variables, with the language model's state and the per-word
      LM scores it returned; `start_idx` starts at 0 and `current_word` at None. */
  datatype TState<S> = TState(words: seq<Word>, newWord: bool, cur: Option<string>, startIdx: nat,
                              wordsLen: int, lmState: S, lmScores: seq<real>)

  /** The loop body for token `i`; `lm` is `lm.score` composed with the word
      dictionary lookup. */
  function TrieStep<S>(t: TrieDecoder, lm: (S, string) -> (S, real), tokens: seq<nat>, i: nat,
                       st: TState<S>): Result<TState<S>, DecodeError>
    requires i < |tokens|
  {
    var k := tokens[i];
    if k == t.blankIdx then Ok(st)
    else if i > 0 && k == tokens[i - 1] then Ok(st)
    else if k == t.silIdx then Ok(st.(newWord := true))
    else if st.newWord && k != t.delimIdx then
      if k < |t.entries| then Ok(st.(newWord := false, cur := Some(t.entries[k]), startIdx := i))
      else Err(LabelOutOfRange(k))
    else if k == t.delimIdx then
      match st.cur
      case None => Err(NoCurrentWord(i))
      case Some(w) =>
        var (s', score) := lm(st.lmState, w);
        Ok(TState(st.words + [Word(w, st.startIdx, i)], true, st.cur, st.startIdx,
                  st.wordsLen + (i - st.startIdx), s', st.lmScores + [score]))
    else if k >= |t.entries| then Err(LabelOutOfRange(k))
    else
      match st.cur
      case None => Err(NoCurrentWord(i))
      case Some(w) => Ok(st.(cur := Some(w + t.entries[k])))
  }

  /** The loop over the first `n` tokens. */
  function TrieUpTo<S>(t: TrieDecoder, lm: (S, string) -> (S, real), lm0: S, tokens: seq<nat>, n: nat)
    : Result<TState<S>, DecodeError>
    requires n <= |tokens|
  {
    if n == 0 then Ok(TState([], true, None, 0, 0, lm0, []))
    else
      match TrieUpTo(t, lm, lm0, tokens, n - 1)
      case Err(e) => Err(e)
      case Ok(st) => TrieStep(t, lm, tokens, n - 1, st)
  }

  /** A failure on the first `n` tokens is the failure of the whole loop. */
  lemma {:induction false} TrieErrSticks<S>(t: TrieDecoder, lm: (S, string) -> (S, real), lm0: S,
                                             tokens: seq<nat>, n: nat, m: nat)
    requires n <= m <= |tokens|
    requires TrieUpTo(t, lm, lm0, tokens, n).Err?
    ensures TrieUpTo(t, lm, lm0, tokens, m) == TrieUpTo(t, lm, lm0, tokens, n)
    decreases m
  {
    if n < m {
      TrieErrSticks(t, lm, lm0, tokens, n, m - 1);
    }
  }

  /** The token loop of `TrieDecoder.decode`. */
  method TrieDecode<S>(t: TrieDecoder, lm: (S, string) -> (S, real), lm0: S, tokens: seq<nat>)
    returns (r: Result<TState<S>, DecodeError>)
    ensures r == TrieUpTo(t, lm, lm0, tokens, |tokens|)
  {
    var words: seq<Word> := [];
    var newWord := true;
    var currentWord: Option<string> := None;
    var startIdx: nat := 0;
    var wordsLen := 0;
    var lmState := lm0;
    var lmScores: seq<real> := [];
    for i := 0 to |tokens|
      invariant TrieUpTo(t, lm, lm0, tokens, i) ==
                Ok(TState(words, newWord, currentWord, startIdx, wordsLen, lmState, lmScores))
    {
      var k := tokens[i];
      if k != t.blankIdx {
        if i > 0 && k == tokens[i - 1] {
        } else if k == t.silIdx {
          newWord := true;
        } else if newWord && k != t.delimIdx {
          if k >= |t.entries| {
            TrieErrSticks(t, lm, lm0, tokens, i + 1, |tokens|);
            return Err(LabelOutOfRange(k));
          }
          newWord := false;
          currentWord := Some(t.entries[k]);
          startIdx := i;
        } else if k == t.delimIdx {
          if currentWord.None? {
            TrieErrSticks(t, lm, lm0, tokens, i + 1, |tokens|);
            return Err(NoCurrentWord(i));
          }
          newWord := true;
          var endIdx := i;
          var (s', score) := lm(lmState, currentWord.value);
          lmState := s';
          lmScores := lmScores + [score];
          wordsLen := wordsLen + (endIdx - startIdx);
          words := words + [Word(currentWord.value, startIdx, endIdx)];
        } else {
          if k >= |t.entries| {
            TrieErrSticks(t, lm, lm0, tokens, i + 1, |tokens|);
            return Err(LabelOutOfRange(k));
          }
          if currentWord.None? {
            TrieErrSticks(t, lm, lm0, tokens, i + 1, |tokens|);
            return Err(NoCurrentWord(i));
          }
          currentWord := Some(currentWord.value + t.entries[k]);
        }
      }
    }
    return Ok(TState(words, newWord, currentWord, startIdx, wordsLen, lmState, lmScores));
  }

  /** The greedy decoder with the trie decoder's token table. */
  function AsGreedy(t: TrieDecoder): GreedyDecoder
  {
    GreedyDecoder(t.entries, t.blankIdx, t.delimIdx)
  }

  /** The trie and greedy loop variables that the words depend on agree. */
  predicate Agrees<S>(ts: TState<S>, gs: GState)
  {
    && ts.words == gs.words
    && ts.newWord == gs.newWord
    && ts.wordsLen == gs.wordsLen
    && (ts.cur.Some? <==> gs.cur.Some?)
    && (gs.cur.Some? ==> ts.cur.value == gs.cur.value.text && ts.startIdx == gs.cur.value.startIdx)
  }

  /** With silence and blank the same token, the token loop is the greedy
      word-building rule applied to the runs of the token sequence: skipping a
      token equal to its predecessor is the run collapse, and the silence
      branch is never taken. Both fail together, and otherwise they emit the
      same words with the same frame indices and the same `words_len`. */
  lemma {:induction false} TrieMatchesGreedy<S>(t: TrieDecoder, lm: (S, string) -> (S, real), lm0: S,
                                                 tokens: seq<nat>, n: nat)
    requires t.silIdx == t.blankIdx
    requires n <= |tokens|
    ensures TrieUpTo(t, lm, lm0, tokens, n).Ok? <==> Fold(AsGreedy(t), Init, Runs(tokens[..n])).Ok?
    ensures TrieUpTo(t, lm, lm0, tokens, n).Ok? ==>
      Agrees(TrieUpTo(t, lm, lm0, tokens, n).value, Fold(AsGreedy(t), Init, Runs(tokens[..n])).value)
    decreases n
  {
    if n > 0 {
      var p := tokens[..n - 1];
      assert tokens[..n] == p + [tokens[n - 1]];
      FoldRunsSnoc(AsGreedy(t), Init, p, tokens[n - 1]);
      TrieMatchesGreedy(t, lm, lm0, tokens, n - 1);
      var tr := TrieUpTo(t, lm, lm0, tokens, n - 1);
      var gr := Fold(AsGreedy(t), Init, Runs(p));
      if tr.Ok? {
        TrieStepAgrees(t, lm, tokens, n - 1, tr.value, gr.value);
      }
    }
  }

  /** One token of the trie loop against the greedy rule: a repeated token
      leaves the greedy state alone, any other token is a new run of length one. */
  lemma {:induction false} TrieStepAgrees<S>(t: TrieDecoder, lm: (S, string) -> (S, real), tokens: seq<nat>, i: nat,
                          ts: TState<S>, gs: GState)
    requires t.silIdx == t.blankIdx
    requires i < |tokens|
    requires Agrees(ts, gs)
    ensures var a := TrieStep(t, lm, tokens, i, ts);
            var b := if i > 0 && tokens[i - 1] == tokens[i] then Ok(gs)
                     else Step(AsGreedy(t), gs, Run(tokens[i], i, 1));
            (a.Ok? <==> b.Ok?) && (a.Ok? ==> Agrees(a.value, b.value))
  {
  }

  /** The emitted words do not depend on the language model: its scores only
      feed the confidences. */
  lemma {:induction false} TrieWordsIgnoreLm<S, U>(t: TrieDecoder, lm: (S, string) -> (S, real), lm0: S,
                                                    lm': (U, string) -> (U, real), lm0': U,
                                                    tokens: seq<nat>, n: nat)
    requires n <= |tokens|
    ensures TrieUpTo(t, lm, lm0, tokens, n).Ok? <==> TrieUpTo(t, lm', lm0', tokens, n).Ok?
    ensures TrieUpTo(t, lm, lm0, tokens, n).Ok? ==>
      var a := TrieUpTo(t, lm, lm0, tokens, n).value;
      var b := TrieUpTo(t, lm', lm0', tokens, n).value;
      a.words == b.words && a.newWord == b.newWord && a.cur == b.cur && a.startIdx == b.startIdx
      && a.wordsLen == b.wordsLen && |a.lmScores| == |b.lmScores| == |a.words|
    decreases n
  {
    if n > 0 {
      TrieWordsIgnoreLm(t, lm, lm0, lm', lm0', tokens, n - 1);
    }
  }
}
