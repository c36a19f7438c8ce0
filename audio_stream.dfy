/**
 * The control side of the visualiser: the `AudioStream` object, its pause
 * flag set by the click handler, the capture loop that reads, decodes and
 * draws one frame per pass, and the one-shot close of the stream.
 *
 * The microphone and the user are the environment.  A run of the program
 * sees them as a script of `Capture`s: the bytes each `stream.read` returns
 * and whether a mouse click is dispatched while that frame's canvas events
 * are flushed.
 */
module Control {
  import opened Waveform

  /** What one pass of the loop receives from outside. */
  datatype Capture = Capture(data: seq<bv8>, click: bool)

  /**
   * How `start_plot` ends: through the loop's `else` branch, which closes the
   * stream, or by the unpack error of a read of the wrong length, which
   * propagates out of the loop at the given frame and closes nothing.
   */
  datatype Outcome = Stopped | Crashed(frame: nat)

  /** The user clicks at some point of the script. */
  predicate EventuallyClicked(env: seq<Capture>)
  {
    exists k :: 0 <= k < |env| && env[k].click
  }

  /** The frame during which the first click is dispatched. */
  function FirstClick(env: seq<Capture>): (k: nat)
    requires EventuallyClicked(env)
    ensures k < |env| && env[k].click
    ensures forall j :: 0 <= j < k ==> !env[j].click
  {
    if env[0].click then 0
    else
      var k :| 0 <= k < |env| && env[k].click;
      assert env[1..][k - 1].click;
      1 + FirstClick(env[1..])
  }

  /** The first `n` reads each return a whole frame. */
  predicate WellFormedUpTo(env: seq<Capture>, n: nat)
  {
    n <= |env| && forall j :: 0 <= j < n ==> |env[j].data| == FRAME_BYTES
  }

  /**
   * The waveforms of the first `n` frames, in capture order: each is a
   * buffer the waveform line can show against the sample axis.
   */
  function Waveforms(env: seq<Capture>, n: nat): (ws: seq<seq<int>>)
    requires WellFormedUpTo(env, n)
    ensures |ws| == n
    ensures forall j :: 0 <= j < n ==> IsWaveform(ws[j])
  {
    seq(n, j requires 0 <= j < n => DecodeWaveform(env[j].data).value)
  }

  /**
   * The loop, once started, makes `passes` passes if no read fails: the
   * last of them is the only one during which a click is dispatched.
   */
  predicate ClickEndsAfter(env: seq<Capture>, passes: nat)
  {
    passes <= |env| && forall j :: 0 <= j < passes ==> (env[j].click <==> j == passes - 1)
  }

  /** Starting from a clear flag, the loop makes one pass more than the index of the first click. */
  lemma FirstClickEndsLoop(env: seq<Capture>)
    requires EventuallyClicked(env)
    ensures ClickEndsAfter(env, FirstClick(env) + 1)
  {
  }

  lemma WaveformsStep(env: seq<Capture>, n: nat)
    requires WellFormedUpTo(env, n + 1)
    ensures Waveforms(env, n + 1) == Waveforms(env, n) + [DecodeWaveform(env[n].data).value]
  {
  }

  class AudioStream {
    /** x data of the waveform line. */
    const samples: seq<int>
    /** y data of the waveform line, replaced every frame. */
    var ydata: seq<int>
    var pause: bool
    /** Passes of the capture loop completed in the current run. */
    var frameCount: nat
    /** Calls of `stream.read`. */
    var readCount: nat
    /** Calls of `p.close(stream)`. */
    var closeCount: nat
    /** Every waveform handed to the line so far, oldest first. */
    ghost var shown: seq<seq<int>>

    ghost predicate Valid()
      reads this
    {
      && |samples| == CHUNK
      && |ydata| == |samples|
      && (forall j :: 0 <= j < |shown| ==> IsWaveform(shown[j]))
    }

    /**
     * The stream constants, the pause flag and the plot lines; `noise`
     * stands for the random data the waveform line is created with.
     */
    constructor (noise: seq<int>)
      requires |noise| == CHUNK
      ensures Valid() && samples == SampleAxis()
      ensures !pause && frameCount == 0 && readCount == 0 && closeCount == 0
      ensures ydata == noise && shown == []
    {
      samples := SampleAxis();
      ydata := noise;
      pause := false;
      frameCount := 0;
      readCount := 0;
      closeCount := 0;
      shown := [];
    }

    /** The click handler: sets the pause flag and nothing else. */
    method OnClick()
      modifies this`pause
      ensures pause
    {
      pause := true;
    }

    /** Closes the stream. */
    method ExitApp()
      modifies this`closeCount
      ensures closeCount == old(closeCount) + 1
    {
      closeCount := closeCount + 1;
    }

    /**
     * One pass of the loop body: read, unpack and decode the frame, hand the
     * waveform to the line, redraw, and flush events, which dispatches a
     * pending click.  A read of the wrong length stops at the unpack error,
     * before anything is drawn.
     */
    method Frame(c: Capture) returns (ok: bool)
      requires Valid()
      modifies this
      ensures Valid()
      ensures frameCount == old(frameCount) && closeCount == old(closeCount)
      ensures readCount == old(readCount) + 1
      ensures ok <==> |c.data| == FRAME_BYTES
      ensures ok ==> ydata == DecodeWaveform(c.data).value && shown == old(shown) + [ydata]
      ensures ok ==> pause == (old(pause) || c.click)
      ensures !ok ==> ydata == old(ydata) && shown == old(shown) && pause == old(pause)
    {
      readCount := readCount + 1;
      var decoded := DecodeWaveform(c.data);
      if decoded.Err? {
        return false;
      }
      ydata := decoded.value;
      shown := shown + [ydata];
      if c.click {
        OnClick();
      }
      ok := true;
    }

    /**
     * `start_plot`: counts frames from zero through the capture loop and,
     * when the loop ends through its `else` branch, closes the stream.  A
     * read of the wrong length ends it at the unpack error instead.
     */
    method StartPlot(env: seq<Capture>) returns (outcome: Outcome)
      requires Valid()
      requires pause || EventuallyClicked(env)
      modifies this
      ensures Valid()
      ensures old(pause) ==>
                outcome == Stopped && pause && frameCount == 0 && readCount == old(readCount)
                && closeCount == old(closeCount) + 1 && shown == old(shown)
      ensures !old(pause) ==> (outcome == Stopped <==> WellFormedUpTo(env, FirstClick(env) + 1))
      ensures !old(pause) && outcome == Stopped ==>
                pause && frameCount == FirstClick(env) + 1 && readCount == old(readCount) + frameCount
                && closeCount == old(closeCount) + 1 && shown == old(shown) + Waveforms(env, frameCount)
      ensures outcome.Crashed? ==>
                var j := outcome.frame;
                !old(pause) && j <= FirstClick(env) && WellFormedUpTo(env, j)
                && |env[j].data| != FRAME_BYTES
                && !pause && frameCount == j && readCount == old(readCount) + j + 1
                && closeCount == old(closeCount) && shown == old(shown) + Waveforms(env, j)
    {
      frameCount := 0;
      ghost var passes: nat := 0;
      if !pause {
        FirstClickEndsLoop(env);
        passes := FirstClick(env) + 1;
      }
      var ok := CaptureFrames(env, passes);
      if !ok {
        return Crashed(frameCount);
      }
      ExitApp();
      outcome := Stopped;
    }

    /**
     * The `while not self.pause` loop of `start_plot`: each pass handles
     * one frame and counts it.  It ends after `passes` passes, with the
     * flag set, unless a read fails first (`ok` false).
     */
    method CaptureFrames(env: seq<Capture>, ghost passes: nat) returns (ok: bool)
      requires Valid() && frameCount == 0
      requires ClickEndsAfter(env, passes) && (pause <==> passes == 0)
      modifies this
      ensures Valid() && closeCount == old(closeCount)
      ensures frameCount <= passes && WellFormedUpTo(env, frameCount)
      ensures shown == old(shown) + Waveforms(env, frameCount)
      ensures ok ==> pause && frameCount == passes && readCount == old(readCount) + frameCount
      ensures !ok ==> !pause && frameCount < passes && |env[frameCount].data| != FRAME_BYTES
                      && readCount == old(readCount) + frameCount + 1
    {
      while !pause
        invariant Valid()
        invariant frameCount <= passes && WellFormedUpTo(env, frameCount)
        invariant pause <==> frameCount == passes
        invariant readCount == old(readCount) + frameCount
        invariant shown == old(shown) + Waveforms(env, frameCount)
        invariant closeCount == old(closeCount)
        decreases passes - frameCount
      {
        ghost var n := frameCount;
        var ok := Frame(env[frameCount]);
        if !ok {
          return false;
        }
        WaveformsStep(env, n);
        frameCount := frameCount + 1;
      }
      ok := true;
    }
  }

  /**
   * The whole program: create the stream object and run the capture loop
   * from a clear pause flag.  Returns how the loop ended, how many frames
   * were counted, and how often the stream was read and closed.
   */
  method Run(noise: seq<int>, env: seq<Capture>) returns (outcome: Outcome, frames: nat, readCount: nat, closeCount: nat)
    requires |noise| == CHUNK
    requires EventuallyClicked(env)
    ensures outcome == Stopped <==> WellFormedUpTo(env, FirstClick(env) + 1)
    ensures outcome == Stopped ==> frames == FirstClick(env) + 1 && readCount == frames && closeCount == 1
    ensures outcome.Crashed? ==>
              frames == outcome.frame <= FirstClick(env) && readCount == frames + 1 && closeCount == 0
              && WellFormedUpTo(env, frames) && |env[frames].data| != FRAME_BYTES
  {
    var stream := new AudioStream(noise);
    outcome := stream.StartPlot(env);
    frames, readCount, closeCount := stream.frameCount, stream.readCount, stream.closeCount;
  }

  /**
   * A microphone that only ever delivers silence (all-zero frames) and a
   * click during the fifth frame: five frames are counted, five reads
   * happen, and the stream is closed once.
   */
  method SilenceThenClickOnFifthFrame() returns (frames: nat, readCount: nat, closeCount: nat)
    ensures frames == 5 && readCount == 5 && closeCount == 1
  {
    var silence := seq(FRAME_BYTES, _ => 0 as bv8);
    var quiet, clicked := Capture(silence, false), Capture(silence, true);
    var env := [quiet, quiet, quiet, quiet, clicked, quiet];
    assert env[4].click;
    var outcome;
    outcome, frames, readCount, closeCount := Run(seq(CHUNK, _ => 128), env);
  }
}
