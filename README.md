# Live audio visualiser: frame decoding and capture-loop control

The visualiser (`FinalCode.py`) reads chunks of audio from a microphone. Each
frame it draws a waveform and a spectrum, and it stops when the user clicks
the figure. This project models and proves the two parts of it that are not
I/O or drawing.

- **Waveform decoding** (`waveform.dfy`, module `Waveform`). A captured chunk
  of `2 * CHUNK` raw bytes (`CHUNK = 2048`) is unpacked as unsigned 8-bit
  values. Each value is reinterpreted as a two's-complement signed byte, every
  other value is kept, and 128 is added. The result is the `CHUNK`-sample
  waveform. It is plotted against the sample axis `np.arange(0, 2 * CHUNK, 2)`
  inside the fixed y-limits `[0, 255]`. The decoder returns an error value
  where `struct.unpack` would raise, which is a chunk of any other length.
- **Capture-loop control** (`audio_stream.dfy`, module `Control`). This is the
  `AudioStream` object, modelled as a class:
  - the pause flag, which only the click handler sets;
  - the `while not self.pause` loop of `start_plot`, which reads, decodes and
    draws one frame per pass and counts it;
  - the loop's `else` branch, which closes the stream.

  Stream reads and user clicks come from the environment. One run of the
  program sees them as a script of `Capture`s. Each `Capture` holds the bytes
  one `stream.read` returns, and whether a click is dispatched while that
  frame's canvas events are flushed (`flush_events`).

  A read whose length is wrong makes `struct.unpack` raise. The exception
  leaves the loop, so the rate report and the close never run. The model
  returns this as `Outcome.Crashed(frame)`.

The main results:
- The decoder gives exactly `CHUNK` values for a well-sized chunk and an
  error for any other length. Every value lies in `[0, 255]`.
- Waveform value `i` comes from byte `2i`. It equals that byte with its sign
  bit flipped.
- Two chunks decode alike exactly when their even-indexed bytes agree.
- The sample axis has one point per waveform value, and point `i` is the byte
  offset `2i`.
- The pause flag only ever goes from false to true.
- The loop makes one pass per frame up to and including the frame during
  which the first click arrives. It reads nothing after that frame.
- `frameCount` ends equal to the number of passes.
- When every read is well-sized the stream is closed exactly once. When a
  read fails first it is never closed.

## Model

| member | source | states |
|---|---|---|
| `Waveform.Unpack` | FinalCode.py:84 | Succeeds exactly when the data holds the requested number of bytes. Otherwise returns the length-mismatch error. On success it gives that many integers, each in `[0, 256)`. |
| `Waveform.PackUnpack` | FinalCode.py:84 | Unpacking is lossless: packing the unpacked integers gives back the original bytes. |
| `Waveform.ToInt8` | FinalCode.py:87 | Models `dtype='b'` on one byte. The result is a signed byte in `[-128, 128)` with the same bit pattern (congruent to the byte modulo 256). |
| `Waveform.ToInt8Unique` | FinalCode.py:87 | The signed reinterpretation is the only value in `[-128, 128)` congruent to the byte, so `ToInt8`'s contract determines it. |
| `Waveform.AsInt8` | FinalCode.py:87 | Models `np.array(..., dtype='b')`. Keeps the length, and every element becomes the signed byte congruent to the unsigned one. |
| `Waveform.EveryOther` | FinalCode.py:87 | Models the slice `[::2]`: the result has `ceil(n / 2)` elements and element `i` is input element `2i`. |
| `Waveform.Recentre` | FinalCode.py:87 | Models `+ 128` on the signed bytes. Keeps the length and puts every value inside the y-limits `[0, 255]`. Nothing is lost: subtracting 128 gives back the signed byte. |
| `Waveform.DecodeWaveform` | FinalCode.py:84-87 | Succeeds exactly for `2 * CHUNK` bytes and otherwise gives the unpack error. The waveform has `CHUNK` values, all within the y-limits `[0, 255]`. Value `i` is `b + 128` if byte `b = data[2i]` is below 128, else `b - 128`. |
| `Waveform.DecodeIsSignFlip` | FinalCode.py:87 | Waveform value `i` is byte `2i` with its top bit flipped (`b ^ 0x80`). This is an independent, bit-level description of reinterpreting as signed and adding 128. |
| `Waveform.EvenBytesDetermineWaveform` | FinalCode.py:87 | Chunks that agree on their even-indexed bytes decode to the same waveform: odd bytes never matter. |
| `Waveform.WaveformDeterminesEvenBytes` | FinalCode.py:87 | Chunks that decode to the same waveform agree on every even-indexed byte: no even byte is lost. |
| `Waveform.DecodeDependsOnlyOnEvenBytes` | FinalCode.py:87 | Two well-sized chunks decode alike if and only if their even-indexed bytes agree. |
| `Waveform.DecodeConstantFrame` | FinalCode.py:84-87 | A chunk of one repeated byte decodes to a flat waveform at that byte's sign-flipped value. |
| `Waveform.DecodeKnownFrames` | FinalCode.py:84-87 | Chunks of all 200, all 0 and all 128 decode to flat lines at 72, 128 and 0. |
| `Waveform.SampleAxis` | FinalCode.py:36 | `np.arange(0, 2 * CHUNK, 2)` has exactly `CHUNK` points, and point `i` is `2i`. |
| `Waveform.Arange` | FinalCode.py:36 | Models `np.arange(start, stop, step)`: element `i` is `start + i * step`, and the length is the least count that reaches `stop` (empty when `stop <= start`). |
| `Waveform.SampleAxisMatchesWaveform` | FinalCode.py:36-55 | The sample axis has `CHUNK` points, exactly as many as the waveform. Its points rise by 2 and lie in `[0, 2 * CHUNK)`, inside the x-limits `[0, 2 * CHUNK]`. Waveform value `i` is the sign-flipped byte at the offset that axis point `i` names. |
| `Control.FirstClick` | FinalCode.py:110-111 | The index of the first frame during which a click is dispatched. That frame has a click and no earlier frame has one. |
| `Control.Waveforms` | FinalCode.py:84-89 | The first `n` frames give `n` waveforms. Each one handed to `set_ydata` is a displayable buffer: `CHUNK` values, the length of the sample axis, all within the y-limits `[0, 255]`. |
| `Control.FirstClickEndsLoop` | FinalCode.py:78-99 | Starting with the flag clear, the loop's last pass is the first-click frame. It is the only clicked frame among the passes. |
| `Control.AudioStream.constructor` | FinalCode.py:12-30 | `__init__` up to, but not including, its call of `start_plot` at line 31 (`Control.Run` covers that call). The pause flag starts false. No frame has been counted, read or drawn yet, and the stream is not closed. The line's x data is the sample axis (line 36) and its y data is the `CHUNK`-long starting buffer (line 44). |
| `Control.AudioStream.OnClick` | FinalCode.py:110-111 | Sets the pause flag and changes nothing else. |
| `Control.AudioStream.ExitApp` | FinalCode.py:106-108 | Closes the stream once more and changes nothing else. |
| `Control.AudioStream.Frame` | FinalCode.py:81-98 | One pass of the loop body: exactly one read. For a well-sized chunk, the line shows its waveform, which is appended to the drawn history. The flag becomes set exactly when it was set or the frame brings a click. A chunk of the wrong length fails at the unpack error, draws nothing and leaves the flag alone. The frame count and the close count do not change. |
| `Control.AudioStream.CaptureFrames` | FinalCode.py:78-99 | The `while not self.pause` loop. Each pass counts one frame, and it stops after exactly the given number of passes, with the flag set. If a read fails first, it stops at that frame with the flag clear. Reads equal counted frames, plus one for the failed read. The drawn history gains the frames' waveforms in capture order. Nothing is closed. |
| `Control.AudioStream.StartPlot` | FinalCode.py:72-104 | `start_plot` counts from zero. With the flag clear, it ends normally exactly when every read up to the first-click frame is well-sized. Then it has counted and read exactly first-click + 1 frames, set the flag and closed the stream exactly once. Otherwise it fails at the first bad read, with nothing closed. With the flag already set, it reads nothing and closes once. The rate division before the close is assumed to succeed (see "Left out"). |
| `Control.Run` | FinalCode.py:12-31 | The whole program: construct the object, then run the capture loop. It ends normally exactly when every read up to the first click is well-sized. Then frames = reads = first-click + 1 and the stream is closed once. Otherwise it fails at the first bad read (every earlier read was well-sized), with one more read than frames and no close. |
| `Control.SilenceThenClickOnFifthFrame` | FinalCode.py:78-111 | A microphone that delivers only silent (all-zero) chunks, and a click during the fifth frame, give 5 counted frames, 5 reads and one close. |

## Left out

- The spectrum: `fft` over the unpacked bytes, its magnitude and the
  normalisation (FinalCode.py:92-94), and the frequency axis
  `np.linspace` (FinalCode.py:37). These are floating-point numerics in a
  foreign library.
- The frame-rate figure `frame_count / (time.time() - start_time)`
  (FinalCode.py:76, FinalCode.py:102): float division over wall-clock time.
  The model keeps the frame count the rate is computed from.
- Opening PyAudio and the stream (FinalCode.py:22-29) is hardware I/O. The
  reads are the script of `Capture`s. The close (FinalCode.py:108) is a
  counter, `closeCount`.
- Figure, axes, styling and event wiring (FinalCode.py:40-70), `canvas.draw`
  (FinalCode.py:97) and the spectrum line's `set_ydata` (FinalCode.py:93).
  These are drawing only. `set_ydata` on the waveform line is modelled as
  replacing the line's y data. `flush_events` (FinalCode.py:98) is modelled
  only as the point where a pending click is dispatched.
- The random starting data of the lines (FinalCode.py:44, FinalCode.py:48)
  are floats from `np.random.rand`. The waveform line's starting data is a
  parameter, `noise`, of `CHUNK` integers.
- NumPy's dtype rules at FinalCode.py:87. Depending on the NumPy version,
  converting values above 127 to `int8`, or adding 128 to an `int8` array,
  either wraps, widens the type or raises. The model uses the intended
  arithmetic: wrap-around reinterpretation, then an unbounded integer sum in
  `[0, 255]`.
- StartPlot: the rate division at FinalCode.py:102 is not modelled, so the
  model assumes it succeeds. When no measurable time has passed since
  line 76, `time.time() - start_time` is `0.0` and Python raises
  `ZeroDivisionError`. The close at line 104 is then skipped. This is most
  plausible when the flag is already set and the loop makes no pass. For that
  path the model promises `Stopped` and one close, which the source may not
  reach. The program's only call (line 31) starts with the flag clear.
- A run in which the user never clicks loops forever. `StartPlot` and `Run`
  therefore require that the script contains a click (or, for `StartPlot`,
  that the flag is already set). Runs that never terminate are not modelled.
- In the source, `frame_count` is a local of `start_plot`. The model keeps it
  in the field `frameCount`, which `StartPlot` resets to zero before the
  loop. The read and close counters and the drawn history (`shown`, a ghost
  field) exist only to state what the loop does.
- The loop body of `start_plot` is split into `Frame` (read, decode, draw,
  flush) and the counting in `CaptureFrames`. `CaptureFrames` is a method of
  its own, and `StartPlot` calls it before the `else` branch.
- Console prints (FinalCode.py:74, FinalCode.py:103, FinalCode.py:107) and
  the module-level call `AudioStream()` (FinalCode.py:115). `Control.Run`
  stands for the latter.
