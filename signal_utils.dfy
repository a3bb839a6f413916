/** The index arithmetic of the audio helpers in utils.py: choosing an explicit
    analysis window, centre-padding it, and slicing a 1-D signal into
    overlapping frames (axis -1). Samples are reals. */
module SignalUtils {
  import opened Wrappers

  /** The exceptions the helpers raise. */
  datatype UtilError =
    | WindowSizeMismatch(len: nat, nx: int)  // get_window, explicit list of the wrong length
    | TargetTooSmall(size: int, n: nat)      // pad_center, size smaller than the data
    | InputTooShort(n: nat, frameLength: int) // frame, signal shorter than one frame
    | InvalidHop(hop: int)                    // frame, hop_length < 1
    | NegativeDimensions(frameLength: int)    // frame, numpy rejects a negative frame length

  /** `get_window` given an explicit list of coefficients: it is the window
      exactly when its length is `nx`. */
  function GetWindow(window: seq<real>, nx: int): (r: Result<seq<real>, UtilError>)
    ensures r.Ok? <==> |window| == nx
    ensures r.Ok? ==> |r.value| == nx && r.value == window
    ensures r.Err? ==> r.error == WindowSizeMismatch(|window|, nx)
  {
    if |window| == nx then Ok(window) else Err(WindowSizeMismatch(|window|, nx))
  }

  function Zeros(n: nat): (z: seq<real>)
    ensures |z| == n && forall i :: 0 <= i < n ==> z[i] == 0.0
  {
    seq(n, _ => 0.0)
  }

  /** The left padding `pad_center` computes, `(size - n) // 2` (Python's floor
      division, which agrees with Dafny's for a positive divisor). */
  function LeftPad(size: int, n: nat): int
  {
    (size - n) / 2
  }

  /** `pad_center(data, size)` with constant (zero) padding: it fails exactly
      when the target is smaller than the data; otherwise the result has length
      `size`, holds the data unchanged at offset `lpad`, is zero elsewhere, and
      the two pads differ by at most one sample. */
  function PadCenter(data: seq<real>, size: int): (r: Result<seq<real>, UtilError>)
    ensures r.Err? <==> size < |data|
    ensures r.Err? ==> r.error == TargetTooSmall(size, |data|)
    ensures r.Ok? ==>
      var lpad := LeftPad(size, |data|);
      var rpad := size - |data| - lpad;
      && 0 <= lpad <= rpad <= lpad + 1
      && |r.value| == size
      && r.value[lpad..lpad + |data|] == data
      && (forall i :: 0 <= i < lpad ==> r.value[i] == 0.0)
      && (forall i :: lpad + |data| <= i < size ==> r.value[i] == 0.0)
  {
    var n := |data|;
    var lpad := LeftPad(size, n);
    if lpad < 0 then Err(TargetTooSmall(size, n))
    else
      var out := Zeros(lpad) + data + Zeros(size - n - lpad);
      assert out[lpad..lpad + n] == data;
      Ok(out)
  }

  /** `n_frames = 1 + (len - frame_length) // hop_length` */
  function NFrames(len: nat, frameLength: nat, hop: nat): nat
    requires frameLength <= len && hop >= 1
  {
    1 + (len - frameLength) / hop
  }

  /** The last frame fits inside the signal, and one more frame would not. */
  lemma {:induction false} FramesFit(len: nat, frameLength: nat, hop: nat)
    requires frameLength <= len && hop >= 1
    ensures (NFrames(len, frameLength, hop) - 1) * hop + frameLength <= len
    ensures NFrames(len, frameLength, hop) * hop + frameLength > len
  {
    var q := (len - frameLength) / hop;
    var m := (len - frameLength) % hop;
    assert len - frameLength == q * hop + m && 0 <= m < hop;
    assert NFrames(len, frameLength, hop) - 1 == q;
    assert (q + 1) * hop == q * hop + hop;
  }

  /** Frame k starts early enough for the whole frame to fit in the signal. */
  lemma {:induction false} FrameStartFits(len: nat, frameLength: nat, hop: nat, k: nat)
    requires frameLength <= len && hop >= 1
    requires k < NFrames(len, frameLength, hop)
    ensures k * hop + frameLength <= len
  {
    FramesFit(len, frameLength, hop);
    var n := NFrames(len, frameLength, hop);
    MulMonotone(k, n - 1, hop);
  }

  lemma {:induction false} MulMonotone(a: nat, b: nat, c: nat)
    requires a <= b
    ensures a * c <= b * c
    decreases b - a
  {
    if a < b {
      MulMonotone(a, b - 1, c);
      assert b * c == (b - 1) * c + c;
    }
  }

  /** `frame(x, frame_length, hop_length)` on 1-D input, axis -1: a
      `frame_length x n_frames` matrix whose column k is the k-th window. */
  function Frame(x: seq<real>, frameLength: int, hop: int): (r: Result<seq<seq<real>>, UtilError>)
    ensures r.Ok? <==> 0 <= frameLength <= |x| && hop >= 1
    ensures |x| < frameLength ==> r == Err(InputTooShort(|x|, frameLength))
    ensures frameLength <= |x| && hop < 1 ==> r == Err(InvalidHop(hop))
    ensures r.Ok? ==>
      && |r.value| == frameLength
      && forall j :: 0 <= j < frameLength ==> |r.value[j]| == NFrames(|x|, frameLength, hop)
  {
    if |x| < frameLength then Err(InputTooShort(|x|, frameLength))
    else if hop < 1 then Err(InvalidHop(hop))
    else if frameLength < 0 then Err(NegativeDimensions(frameLength))
    else
      var n := NFrames(|x|, frameLength, hop);
      Ok(seq(frameLength, j requires 0 <= j < frameLength =>
        seq(n, k requires 0 <= k < n =>
          FrameStartFits(|x|, frameLength, hop, k); x[k * hop + j])))
  }

  /** Column k of a frame matrix. */
  function Column(m: seq<seq<real>>, k: nat): seq<real>
    requires forall j :: 0 <= j < |m| ==> k < |m[j]|
  {
    seq(|m|, j requires 0 <= j < |m| => m[j][k])
  }

  /** Column k of the framed signal is the window `x[k*hop : k*hop + frame_length]`,
      so element `[j][k]` is `x[k*hop + j]`. */
  lemma {:induction false} FrameColumns(x: seq<real>, frameLength: nat, hop: nat, k: nat)
    requires frameLength <= |x| && hop >= 1
    requires k < NFrames(|x|, frameLength, hop)
    ensures Frame(x, frameLength, hop).Ok?
    ensures k * hop + frameLength <= |x|
    ensures Column(Frame(x, frameLength, hop).value, k) == x[k * hop..k * hop + frameLength]
  {
    var m := Frame(x, frameLength, hop).value;
    var b := k * hop;
    FrameStartFits(|x|, frameLength, hop, k);
    var c := Column(m, k);
    var w := x[b..b + frameLength];
    forall j | 0 <= j < frameLength ensures c[j] == w[j] {
      assert m[j][k] == x[b + j];
    }
  }
}
