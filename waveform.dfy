/**
 * The pure half of the visualiser's frame pipeline: turning one captured
 * chunk of raw bytes into the waveform that is drawn on the upper axes, and
 * the fixed sample axis that waveform is drawn against.
 *
 * Per frame the program unpacks `2 * CHUNK` bytes as unsigned 8-bit values,
 * reinterprets each of them as a two's-complement signed byte, keeps every
 * other one and adds 128.  The arithmetic is modelled on unbounded integers
 * (the intended meaning), not with NumPy's int8 overflow rules.
 */
module Waveform {

  /** Samples per frame (`CHUNK = 1024 * 2`). */
  const CHUNK: nat := 1024 * 2

  /** Raw bytes in one captured frame: the length the unpack format asks for. */
  const FRAME_BYTES: nat := 2 * CHUNK

  /** Fixed y-limits of the waveform axes. */
  const Y_MIN: int := 0
  const Y_MAX: int := 255

  datatype Error = UnpackLengthMismatch(expected: nat, actual: nat)

  datatype Result<T> = Ok(value: T) | Err(error: Error)

  /** A buffer the waveform line can display: one value per sample, inside the y-limits. */
  predicate IsWaveform(w: seq<int>)
  {
    |w| == CHUNK && forall i :: 0 <= i < |w| ==> Y_MIN <= w[i] <= Y_MAX
  }

  // ---------------------------------------------------------------------------
  // The steps of the decoder
  // ---------------------------------------------------------------------------

  /**
   * `struct.unpack(str(count) + 'B', data)`: every byte as an unsigned integer,
   * and an error when `data` does not hold exactly `count` bytes.
   */
  function Unpack(data: seq<bv8>, count: nat): (r: Result<seq<int>>)
    ensures r.Ok? <==> |data| == count
    ensures r.Err? ==> r.error == UnpackLengthMismatch(count, |data|)
    ensures r.Ok? ==> |r.value| == count
    ensures r.Ok? ==> forall i :: 0 <= i < count ==> 0 <= r.value[i] < 256
  {
    if |data| != count then Err(UnpackLengthMismatch(count, |data|))
    else Ok(seq(|data|, i requires 0 <= i < |data| => data[i] as int))
  }

  /** The inverse of `Unpack`: unsigned integers back to bytes. */
  function Pack(xs: seq<int>): (r: seq<bv8>)
    requires forall i :: 0 <= i < |xs| ==> 0 <= xs[i] < 256
    ensures |r| == |xs|
  {
    seq(|xs|, i requires 0 <= i < |xs| => xs[i] as bv8)
  }

  /**
   * `dtype='b'` applied to one unsigned byte value: the two's-complement
   * signed byte with the same bit pattern.
   */
  function ToInt8(b: int): (s: int)
    requires 0 <= b < 256
    ensures -128 <= s < 128
    ensures s % 256 == b
  {
    if b < 128 then b else b - 256
  }

  /** `np.array(ints, dtype='b')`: every unsigned byte reinterpreted as signed. */
  function AsInt8(xs: seq<int>): (r: seq<int>)
    requires forall i :: 0 <= i < |xs| ==> 0 <= xs[i] < 256
    ensures |r| == |xs|
    ensures forall i :: 0 <= i < |r| ==> -128 <= r[i] < 128 && r[i] % 256 == xs[i]
  {
    seq(|xs|, i requires 0 <= i < |xs| => ToInt8(xs[i]))
  }

  /** The slice `xs[::2]`: the elements at indices 0, 2, 4, ... */
  function EveryOther<T>(xs: seq<T>): (r: seq<T>)
    ensures |r| == (|xs| + 1) / 2
    ensures forall i :: 0 <= i < |r| ==> r[i] == xs[2 * i]
    decreases |xs|
  {
    if |xs| <= 1 then xs else [xs[0]] + EveryOther(xs[2..])
  }

  /** Adding 128 to every element, which moves signed bytes into `[0, 255]`. */
  function Recentre(xs: seq<int>): (r: seq<int>)
    requires forall i :: 0 <= i < |xs| ==> -128 <= xs[i] < 128
    ensures |r| == |xs|
    ensures forall i :: 0 <= i < |r| ==> Y_MIN <= r[i] <= Y_MAX && r[i] - 128 == xs[i]
  {
    seq(|xs|, i requires 0 <= i < |xs| => xs[i] + 128)
  }

  /**
   * Reference value of one waveform sample: a raw byte with its top bit
   * flipped, read as an unsigned integer.
   */
  function SignFlipped(b: bv8): int
  {
    (b ^ 0x80) as int
  }

  /**
   * One frame's waveform: unpack, reinterpret as signed, keep the even
   * bytes, add 128.  A frame of the wrong length is the unpack error.
   */
  function DecodeWaveform(data: seq<bv8>): (r: Result<seq<int>>)
    ensures r.Ok? <==> |data| == FRAME_BYTES
    ensures r.Err? ==> r.error == UnpackLengthMismatch(FRAME_BYTES, |data|)
    ensures r.Ok? ==> IsWaveform(r.value)
    ensures r.Ok? ==> forall i :: 0 <= i < CHUNK ==>
                        r.value[i] == if data[2 * i] < 128 then data[2 * i] as int + 128
                                      else data[2 * i] as int - 128
  {
    match Unpack(data, FRAME_BYTES)
    case Err(e) => Err(e)
    case Ok(ints) => Ok(Recentre(EveryOther(AsInt8(ints))))
  }

  // ---------------------------------------------------------------------------
  // The sample axis
  // ---------------------------------------------------------------------------

  /** `np.arange(start, stop, step)` for a positive integer step. */
  function Arange(start: int, stop: int, step: nat): (r: seq<int>)
    requires step > 0
    ensures start < stop ==> (|r| - 1) * step < stop - start <= |r| * step
    ensures stop <= start ==> r == []
    ensures forall i :: 0 <= i < |r| ==> r[i] == start + i * step
    decreases stop - start
  {
    if stop <= start then [] else [start] + Arange(start + step, stop, step)
  }

  /** The x data of the waveform line: `np.arange(0, 2 * CHUNK, 2)`. */
  function SampleAxis(): (r: seq<int>)
    ensures |r| == CHUNK
    ensures forall i :: 0 <= i < |r| ==> r[i] == 2 * i
  {
    Arange(0, 2 * CHUNK, 2)
  }

  // ---------------------------------------------------------------------------
  // Properties
  // ---------------------------------------------------------------------------

  /** Unpacking loses nothing: packing the unpacked integers gives the bytes back. */
  lemma PackUnpack(data: seq<bv8>)
    ensures Unpack(data, |data|).Ok? && Pack(Unpack(data, |data|).value) == data
  {
  }

  /** The signed reinterpretation is the only value in `[-128, 128)` congruent to the byte. */
  lemma ToInt8Unique(b: int, s: int)
    requires 0 <= b < 256
    requires -128 <= s < 128 && s % 256 == b
    ensures s == ToInt8(b)
  {
  }

  /** Flipping the sign bit of a byte moves it by 128 towards the other half of `[0, 255]`. */
  lemma SignFlipShifts(b: bv8)
    ensures SignFlipped(b) == if b < 128 then b as int + 128 else b as int - 128
  {
    if b < 128 {
      assert b ^ 0x80 == b + 0x80;
    } else {
      assert b ^ 0x80 == b - 0x80;
    }
  }

  /** Each waveform sample is its raw byte with the sign bit flipped. */
  lemma DecodeIsSignFlip(data: seq<bv8>, i: nat)
    requires |data| == FRAME_BYTES && i < CHUNK
    ensures DecodeWaveform(data).value[i] == SignFlipped(data[2 * i])
  {
  }

  /** Flipping the sign bit loses nothing: distinct bytes give distinct samples. */
  lemma SignFlippedInjective(a: bv8, b: bv8)
    requires SignFlipped(a) == SignFlipped(b)
    ensures a == b
  {
    SignFlipShifts(a);
    SignFlipShifts(b);
    assert a as int == b as int;
  }

  /** Two frames that agree on their even-indexed bytes decode alike. */
  lemma EvenBytesDetermineWaveform(d1: seq<bv8>, d2: seq<bv8>)
    requires |d1| == FRAME_BYTES && |d2| == FRAME_BYTES
    requires forall j :: 0 <= j < FRAME_BYTES && j % 2 == 0 ==> d1[j] == d2[j]
    ensures DecodeWaveform(d1) == DecodeWaveform(d2)
  {
    var w1, w2 := DecodeWaveform(d1).value, DecodeWaveform(d2).value;
    forall i | 0 <= i < CHUNK ensures w1[i] == w2[i] {
      var j := 2 * i;
      assert j % 2 == 0;
      assert d1[j] == d2[j];
    }
    assert w1 == w2;
  }

  /** Two frames that decode alike agree on their even-indexed bytes. */
  lemma WaveformDeterminesEvenBytes(d1: seq<bv8>, d2: seq<bv8>)
    requires |d1| == FRAME_BYTES && |d2| == FRAME_BYTES
    requires DecodeWaveform(d1) == DecodeWaveform(d2)
    ensures forall j :: 0 <= j < FRAME_BYTES && j % 2 == 0 ==> d1[j] == d2[j]
  {
    forall j | 0 <= j < FRAME_BYTES && j % 2 == 0 ensures d1[j] == d2[j] {
      var i := j / 2;
      DecodeIsSignFlip(d1, i);
      DecodeIsSignFlip(d2, i);
      SignFlippedInjective(d1[2 * i], d2[2 * i]);
    }
  }

  /**
   * The waveform of a frame depends on its even-indexed bytes and on
   * nothing else: two frames decode alike exactly when those bytes agree.
   */
  lemma DecodeDependsOnlyOnEvenBytes(d1: seq<bv8>, d2: seq<bv8>)
    requires |d1| == FRAME_BYTES && |d2| == FRAME_BYTES
    ensures DecodeWaveform(d1) == DecodeWaveform(d2) <==>
            forall j :: 0 <= j < FRAME_BYTES && j % 2 == 0 ==> d1[j] == d2[j]
  {
    if forall j :: 0 <= j < FRAME_BYTES && j % 2 == 0 ==> d1[j] == d2[j] {
      EvenBytesDetermineWaveform(d1, d2);
    }
    if DecodeWaveform(d1) == DecodeWaveform(d2) {
      WaveformDeterminesEvenBytes(d1, d2);
    }
  }

  /** A frame of one repeated byte decodes to a flat line at that byte's flipped value. */
  lemma DecodeConstantFrame(b: bv8)
    ensures DecodeWaveform(seq(FRAME_BYTES, _ => b)) == Ok(seq(CHUNK, _ => SignFlipped(b)))
  {
    var data := seq(FRAME_BYTES, _ => b);
    var w := DecodeWaveform(data).value;
    forall i | 0 <= i < CHUNK ensures w[i] == SignFlipped(b) {
      DecodeIsSignFlip(data, i);
    }
    assert w == seq(CHUNK, _ => SignFlipped(b));
  }

  /** The known fixed points: bytes 200, 0 and 128 become 72, 128 and 0. */
  lemma DecodeKnownFrames()
    ensures DecodeWaveform(seq(FRAME_BYTES, _ => 200)) == Ok(seq(CHUNK, _ => 72))
    ensures DecodeWaveform(seq(FRAME_BYTES, _ => 0)) == Ok(seq(CHUNK, _ => 128))
    ensures DecodeWaveform(seq(FRAME_BYTES, _ => 128)) == Ok(seq(CHUNK, _ => 0))
  {
    DecodeConstantFrame(200);
    DecodeConstantFrame(0);
    DecodeConstantFrame(128);
    assert SignFlipped(200) == 72 && SignFlipped(0) == 128 && SignFlipped(128) == 0;
    assert seq(CHUNK, _ => SignFlipped(200)) == seq(CHUNK, _ => 72);
    assert seq(CHUNK, _ => SignFlipped(0)) == seq(CHUNK, _ => 128);
    assert seq(CHUNK, _ => SignFlipped(128)) == seq(CHUNK, _ => 0);
  }

  /**
   * The sample axis has one point per waveform sample, increasing by 2 and
   * inside the x-limits `[0, 2 * CHUNK]`; point `i` is the byte offset that
   * waveform sample `i` was taken from.
   */
  lemma SampleAxisMatchesWaveform(data: seq<bv8>)
    requires |data| == FRAME_BYTES
    ensures |SampleAxis()| == |DecodeWaveform(data).value| == CHUNK
    ensures forall i :: 0 <= i < CHUNK ==> 0 <= SampleAxis()[i] < 2 * CHUNK
    ensures forall i :: 0 <= i < CHUNK - 1 ==> SampleAxis()[i + 1] == SampleAxis()[i] + 2
    ensures forall i :: 0 <= i < CHUNK ==>
              DecodeWaveform(data).value[i] == SignFlipped(data[SampleAxis()[i]])
  {
    var axis := SampleAxis();
    forall i | 0 <= i < CHUNK
      ensures DecodeWaveform(data).value[i] == SignFlipped(data[axis[i]])
    {
      assert axis[i] == 2 * i;
      DecodeIsSignFlip(data, i);
    }
  }
}
