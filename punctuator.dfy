/** The sequence handling around the BERT punctuator (punctuator.py): the
    punctuation code tables, the cyclic windows of token ids given to the
    network, and the rebuilding of the text from per-token predictions. The
    network itself is not modelled; its predictions are an input. */
module Punctuator {
  import opened Wrappers
  import PyText

  // ---------------------------------------------------------------------------
  // punctuation_enc / punctuation_dec
  // ---------------------------------------------------------------------------

  /** `punctuation_enc`: the mark that follows a word, and its class code. */
  function Enc(): map<string, int>
  {
    map[" " := 0, ", " := 1, ". " := 2, "? " := 3]
  }

  /** `punctuation_dec`, built by turning `Enc` around. */
  function Dec(): (d: map<int, string>)
  {
    map k | k in Enc() :: Enc()[k] := k
  }

  /** The decoder is the inverse of the encoder, on exactly the codes 0..3. */
  lemma {:induction false} DecInvertsEnc()
    ensures Dec().Keys == {0, 1, 2, 3}
    ensures forall k :: k in Enc() ==> Enc()[k] in Dec() && Dec()[Enc()[k]] == k
    ensures forall i :: i in Dec() ==> Dec()[i] in Enc() && Enc()[Dec()[i]] == i
  {
    var e := Enc();
    assert e[" "] == 0 && e[", "] == 1 && e[". "] == 2 && e["? "] == 3;
    assert forall k :: k in e ==> k == " " || k == ", " || k == ". " || k == "? ";
    assert {0, 1, 2, 3} <= Dec().Keys;
  }

  // ---------------------------------------------------------------------------
  // segment
  // ---------------------------------------------------------------------------

  /** The number of ids copied from the end of `ids` to its front:
      `(S - 1) // 2 - 1`, floor division as in Python (Dafny's `/` agrees for
      a positive divisor). */
  function FrontLen(size: int): int
  {
    (size - 1) / 2 - 1
  }

  /** Where the 0 mask goes in each window: `(S - 1) // 2`. */
  function MaskAt(size: int): int
  {
    (size - 1) / 2
  }

  /** `x_pad = ids[-((S-1)//2 - 1):] + ids + ids[:S//2]`, with Python's slice
      rules (including `ids[-0:]`, which is all of `ids`). */
  function Padded(ids: seq<int>, size: int): seq<int>
  {
    PyText.PySliceFrom(ids, -FrontLen(size)) + ids + PyText.PySliceTo(ids, size / 2)
  }

  /** `len(range(len(x_pad) - S + 2))` */
  function SegmentCount(ids: seq<int>, size: int): nat
  {
    var n := |Padded(ids, size)| - size + 2;
    if n < 0 then 0 else n
  }

  /** Segment i: `x_pad[i:i+S-1]` with a 0 inserted at `(S-1)//2`. */
  function Window(ids: seq<int>, size: int, i: nat): seq<int>
  {
    PyText.PyInsert(PyText.PySlice(Padded(ids, size), i, i + size - 1), MaskAt(size), 0)
  }

  /** `x` holds the first n windows, in order. */
  predicate WindowsUpTo(x: seq<seq<int>>, ids: seq<int>, size: int, n: nat)
  {
    |x| == n && forall j :: 0 <= j < n ==> x[j] == Window(ids, size, j)
  }

  lemma {:induction false} WindowsSnoc(x: seq<seq<int>>, ids: seq<int>, size: int, n: nat, w: seq<int>)
    requires WindowsUpTo(x, ids, size, n)
    requires w == Window(ids, size, n)
    ensures WindowsUpTo(x + [w], ids, size, n + 1)
  {
    var x' := x + [w];
    forall j | 0 <= j < n + 1
      ensures x'[j] == Window(ids, size, j)
    {
      if j < n { assert x'[j] == x[j]; }
    }
  }

  /** `Punctuator.segment`, before the conversion to a numpy array. */
  method Segment(ids: seq<int>, size: int) returns (x: seq<seq<int>>)
    ensures |x| == SegmentCount(ids, size)
    ensures forall i :: 0 <= i < |x| ==> x[i] == Window(ids, size, i)
  {
    x := [];
    var xPad := PyText.PySliceFrom(ids, -FrontLen(size)) + ids + PyText.PySliceTo(ids, size / 2);
    assert xPad == Padded(ids, size);
    var n := |xPad| - size + 2;
    var i := 0;
    while i < n
      invariant 0 <= i && (n >= 0 ==> i <= n) && (n < 0 ==> i == 0)
      invariant WindowsUpTo(x, ids, size, i)
      decreases n - i
    {
      var segment := MakeWindow(xPad, ids, size, i);
      WindowsSnoc(x, ids, size, i, segment);
      x := x + [segment];
      i := i + 1;
    }
  }

  /** The body of the `segment` loop: the slice of the padded ids and the mask. */
  method MakeWindow(xPad: seq<int>, ids: seq<int>, size: int, i: nat) returns (segment: seq<int>)
    requires xPad == Padded(ids, size)
    ensures segment == Window(ids, size, i)
  {
    var sl := PyText.PySlice(xPad, i, i + size - 1);
    segment := PyText.PyInsert(sl, MaskAt(size), 0);
  }

  /** With a positive segment size, every window is full: S - 1 padded ids
      plus the mask. */
  lemma {:induction false} WindowFull(ids: seq<int>, size: int, i: nat)
    requires size >= 1 && i < SegmentCount(ids, size)
    ensures |Window(ids, size, i)| == size
  {
    var p := Padded(ids, size);
    assert i + size - 1 <= |p|;
    assert |PyText.PySlice(p, i, i + size - 1)| == size - 1;
  }

  /** The padding in front is exactly `FrontLen` ids long when that is
      between 1 and the number of ids, so `x_pad[a + j] == ids[j]`. */
  lemma {:induction false} PaddedHoldsIds(ids: seq<int>, size: int, j: nat)
    requires 1 <= FrontLen(size) <= |ids| && j < |ids|
    ensures |PyText.PySliceFrom(ids, -FrontLen(size))| == FrontLen(size)
    ensures FrontLen(size) + j < |Padded(ids, size)|
    ensures Padded(ids, size)[FrontLen(size) + j] == ids[j]
  {
    var a := FrontLen(size);
    var front := PyText.PySliceFrom(ids, -a);
    assert PyText.PyNorm(|ids|, -a) == |ids| - a;
    assert (front + ids)[a + j] == ids[j];
  }

  /** Segment j has `ids[j]` just before the mask, and the mask itself is 0,
      when the front padding is between 1 and `len(ids)` ids long. */
  lemma {:induction false} WindowCentre(ids: seq<int>, size: int, j: nat)
    requires 1 <= FrontLen(size) <= |ids| && j < |ids| && j < SegmentCount(ids, size)
    ensures |Window(ids, size, j)| == size
    ensures Window(ids, size, j)[FrontLen(size)] == ids[j]
    ensures Window(ids, size, j)[MaskAt(size)] == 0
  {
    var a := FrontLen(size);
    var p := Padded(ids, size);
    PaddedHoldsIds(ids, size, j);
    WindowFull(ids, size, j);
    var sl := PyText.PySlice(p, j, j + size - 1);
    assert |sl| == size - 1;
    assert sl[a] == p[j + a];
  }

  /** When the tail padding is complete (at least `S // 2` ids) and the front
      padding is between 1 and `len(ids)`, there is one segment per id. */
  lemma {:induction false} OneSegmentPerId(ids: seq<int>, size: int)
    requires 1 <= FrontLen(size) <= |ids| && size / 2 <= |ids|
    ensures SegmentCount(ids, size) == |ids|
  {
    PaddedHoldsIds(ids, size, 0);
    assert |Padded(ids, size)| == FrontLen(size) + |ids| + size / 2;
  }

  // ---------------------------------------------------------------------------
  // convert_predictions
  // ---------------------------------------------------------------------------

  /** The exceptions `convert_predictions` can raise. */
  datatype PuncError = IndexError | KeyError(code: int)

  /** One entry of `token_count`: a word and the number of its sub-tokens. */
  datatype WordCount = WordCount(word: string, count: int)

  /** `i` after the first n words: the sum of their sub-token counts. */
  function Cum(tc: seq<WordCount>, n: nat): int
    requires n <= |tc|
  {
    if n == 0 then 0 else Cum(tc, n - 1) + tc[n - 1].count
  }

  /** A full stop or a question mark. */
  predicate IsStop(p: string)
  {
    p == ". " || p == "? "
  }

  /** The mark after the word whose running count is `i`: the decoded
      prediction for its last sub-token `y[i - 1]` (Python indexing), forced
      to a full stop when `i == len(y)` and it is not already a stop. */
  function Mark(y: seq<int>, i: int): (r: Result<string, PuncError>)
    ensures PyText.PyIndex(y, i - 1).None? ==> r == Err(IndexError)
    ensures PyText.PyIndex(y, i - 1).Some? ==>
      var c := PyText.PyIndex(y, i - 1).value;
      (r.Err? <==> c !in Dec()) && (r.Err? ==> r.error == KeyError(c))
      && (r.Ok? ==> r.value in Enc() && (Enc()[r.value] == c || (i == |y| && r.value == ". ")))
    ensures r.Ok? && i == |y| ==> IsStop(r.value)
  {
    DecInvertsEnc();
    match PyText.PyIndex(y, i - 1)
    case None => Err(IndexError)
    case Some(c) =>
      if c !in Dec() then Err(KeyError(c))
      else
        var p := Dec()[c];
        if i == |y| && !IsStop(p) then Ok(". ") else Ok(p)
  }

  /** The mark after word m (counting from 0). */
  function MarkOf(tc: seq<WordCount>, y: seq<int>, m: nat): Result<string, PuncError>
    requires m < |tc|
  {
    Mark(y, Cum(tc, m + 1))
  }

  /** `s` after the first n words: each word followed by its mark; it fails
      exactly when one of those marks does. */
  function Sentence(tc: seq<WordCount>, y: seq<int>, n: nat): (r: Result<string, PuncError>)
    requires n <= |tc|
    ensures r.Ok? <==> forall m :: 0 <= m < n ==> MarkOf(tc, y, m).Ok?
  {
    if n == 0 then Ok("")
    else
      match Sentence(tc, y, n - 1)
      case Err(e) => Err(e)
      case Ok(s) =>
        match MarkOf(tc, y, n - 1)
        case Err(e) => Err(e)
        case Ok(p) => Ok(s + tc[n - 1].word + p)
  }

  /** The capitalisation pass: the first character upper-cased, and then every
      character two places after a "." or a "?". */
  function Capitals(s: string, upper: char -> char): string
  {
    seq(|s|, i requires 0 <= i < |s| =>
      if i == 0 || (i >= 2 && (s[i - 2] == '.' || s[i - 2] == '?')) then upper(s[i]) else s[i])
  }

  /** `convert_predictions`: the sentence capitalised, without its final
      character; an IndexError when it is shorter than two characters. */
  function Converted(tc: seq<WordCount>, y: seq<int>, upper: char -> char): Result<string, PuncError>
  {
    match Sentence(tc, y, |tc|)
    case Err(e) => Err(e)
    case Ok(s) => if |s| < 2 then Err(IndexError) else Ok(Capitals(s, upper)[..|s| - 1])
  }

  /** The first loop of `convert_predictions`: each word with its mark. */
  method BuildSentence(tc: seq<WordCount>, y: seq<int>) returns (r: Result<string, PuncError>)
    ensures r == Sentence(tc, y, |tc|)
  {
    var i := 0;
    var s := "";
    for n := 0 to |tc|
      invariant i == Cum(tc, n)
      invariant Sentence(tc, y, n) == Ok(s)
    {
      i := i + tc[n].count;
      var punc := MarkAfter(y, i);
      if punc.Err? {
        SentenceErrSticks(tc, y, n + 1, |tc|);
        return Err(punc.error);
      }
      s := s + tc[n].word + punc.value;
    }
    return Ok(s);
  }

  /** The mark lookup in the first loop of `convert_predictions`. */
  method MarkAfter(y: seq<int>, i: int) returns (r: Result<string, PuncError>)
    ensures r == Mark(y, i)
  {
    var iy := PyText.PyIndex(y, i - 1);
    if iy.None? {
      return Err(IndexError);
    }
    if iy.value !in Dec() {
      return Err(KeyError(iy.value));
    }
    var punc := Dec()[iy.value];
    if i == |y| && punc != ". " && punc != "? " {
      punc := ". ";
    }
    return Ok(punc);
  }

  /** `Punctuator.convert_predictions`, with `str.upper` on one character as a
      parameter. */
  method ConvertPredictions(tc: seq<WordCount>, y: seq<int>, upper: char -> char)
    returns (r: Result<string, PuncError>)
    ensures r == Converted(tc, y, upper)
  {
    var built := BuildSentence(tc, y);
    if built.Err? {
      return Err(built.error);
    }
    var s := built.value;
    if |s| < 2 {
      return Err(IndexError);
    }
    var pred := Capitalise(s, upper);
    return Ok(pred[..|s| - 1]);
  }

  /** The second loop of `convert_predictions`: the first character
      upper-cased, and every character two places after a "." or a "?". */
  method Capitalise(s: string, upper: char -> char) returns (pred: string)
    requires |s| >= 2
    ensures pred == Capitals(s, upper)
  {
    ghost var caps := Capitals(s, upper);
    pred := [upper(s[0])] + [s[1]];
    assert pred == caps[..2];
    for k := 2 to |s|
      invariant pred == caps[..k]
    {
      assert caps[..k + 1] == caps[..k] + [caps[k]];
      if s[k - 2] == '.' || s[k - 2] == '?' {
        pred := pred + [upper(s[k])];
      } else {
        pred := pred + [s[k]];
      }
    }
    assert pred == caps;
  }

  /** Once a mark fails, the sentence stays failed with the same error. */
  lemma {:induction false} SentenceErrSticks(tc: seq<WordCount>, y: seq<int>, n: nat, m: nat)
    requires n <= m <= |tc|
    requires Sentence(tc, y, n).Err?
    ensures Sentence(tc, y, m) == Sentence(tc, y, n)
    decreases m - n
  {
    if n < m {
      SentenceErrSticks(tc, y, n, m - 1);
    }
  }

  /** The first n words, each followed by its own mark. */
  function Parts(tc: seq<WordCount>, y: seq<int>, n: nat): (r: seq<string>)
    requires n <= |tc| && Sentence(tc, y, n).Ok?
    ensures |r| == n
  {
    if n == 0 then [] else Parts(tc, y, n - 1) + [tc[n - 1].word + MarkOf(tc, y, n - 1).value]
  }

  /** Part k is word k with its mark. */
  lemma {:induction false} PartAt(tc: seq<WordCount>, y: seq<int>, n: nat, k: nat)
    requires n <= |tc| && Sentence(tc, y, n).Ok? && k < n
    ensures MarkOf(tc, y, k).Ok?
    ensures Parts(tc, y, n)[k] == tc[k].word + MarkOf(tc, y, k).value
    decreases n
  {
    if k < n - 1 {
      PartAt(tc, y, n - 1, k);
    }
  }

  /** The sentence is the words in order, each followed by its own mark. */
  lemma {:induction false} SentenceWords(tc: seq<WordCount>, y: seq<int>, n: nat)
    requires n <= |tc|
    requires Sentence(tc, y, n).Ok?
    ensures Sentence(tc, y, n).value == PyText.Concat(Parts(tc, y, n))
    decreases n
  {
    if n > 0 {
      SentenceWords(tc, y, n - 1);
      var pre := Parts(tc, y, n - 1);
      var last := tc[n - 1].word + MarkOf(tc, y, n - 1).value;
      PyText.ConcatSnoc(pre, last);
      var s := Sentence(tc, y, n - 1).value;
      assert s + tc[n - 1].word + MarkOf(tc, y, n - 1).value == s + last;
    }
  }

  /** When the sub-token counts add up to the number of predictions, the text
      ends in a full stop or a question mark: the sentence ends with ". " or
      "? ", and the result keeps everything up to that final space (`upper`
      leaves "." and "?" alone, as `str.upper` does). */
  lemma {:induction false} EndsWithStop(tc: seq<WordCount>, y: seq<int>, upper: char -> char)
    requires upper('.') == '.' && upper('?') == '?'
    requires |tc| > 0 && Cum(tc, |tc|) == |y|
    requires Converted(tc, y, upper).Ok?
    ensures var s := Sentence(tc, y, |tc|).value;
      var r := Converted(tc, y, upper).value;
      |s| >= 2 && s[|s| - 1] == ' ' && (s[|s| - 2] == '.' || s[|s| - 2] == '?')
      && r[|r| - 1] == s[|s| - 2]
  {
    var n := |tc|;
    var prev := Sentence(tc, y, n - 1).value;
    var p := MarkOf(tc, y, n - 1).value;
    var s := Sentence(tc, y, n).value;
    assert s == prev + tc[n - 1].word + p;
    assert IsStop(p);
    assert s[|s| - 1] == p[1] && s[|s| - 2] == p[0];
    var r := Converted(tc, y, upper).value;
    assert r[|r| - 1] == Capitals(s, upper)[|s| - 2];
  }

  /** Which characters the capitalisation changes: the result is one shorter
      than the sentence; its first character is upper-cased, the second is
      copied, and each later one is upper-cased exactly when the character two
      places before it is "." or "?", and copied otherwise. */
  lemma {:induction false} CapitalisedAfterStops(tc: seq<WordCount>, y: seq<int>, upper: char -> char)
    requires Converted(tc, y, upper).Ok?
    ensures var s := Sentence(tc, y, |tc|).value;
      var r := Converted(tc, y, upper).value;
      && |s| >= 2 && |r| == |s| - 1
      && r[0] == upper(s[0])
      && (|r| > 1 ==> r[1] == s[1])
      && (forall i :: 2 <= i < |r| && (s[i - 2] == '.' || s[i - 2] == '?') ==> r[i] == upper(s[i]))
      && (forall i :: 2 <= i < |r| && s[i - 2] != '.' && s[i - 2] != '?' ==> r[i] == s[i])
  {
    var s := Sentence(tc, y, |tc|).value;
    var c := Capitals(s, upper);
    assert Converted(tc, y, upper).value == c[..|s| - 1];
  }
}
