/**
 * The blink classifier of the detector backend. For every face found in a
 * video frame it compares the eye aspect ratio with a threshold: a closed
 * eye starts a blink, and the next open eye ends it and classifies it as a
 * dot or a dash by its duration. The geometry of the eye aspect ratio and the
 * face-mesh library are outside the model: each face is given as whether its
 * eyes are closed (`ear < EAR_THRESHOLD`) and the clock reading, in integer
 * milliseconds, taken when it was examined.
 */
module BlinkDetection {
  import opened Base

  /** `LONG_BLINK_DURATION`, 0.4 s, in milliseconds. */
  const LongBlinkDurationMs: int := 400

  datatype Signal = Dot | Dash

  datatype FaceReading = FaceReading(closed: bool, now: int)

  /** `blink_detected` and `blink_start_time`. */
  datatype DetectorState = DetectorState(blinkDetected: bool, blinkStartTime: int)

  datatype Detection = Detection(state: DetectorState, signal: Option<Signal>)

  /** The state built by `BlinkDetector.__init__`. */
  const InitialState: DetectorState := DetectorState(false, 0)

  /** The loop body of `detect_blink` for one face. */
  function StepFace(s: DetectorState, f: FaceReading): (r: Detection)
    ensures f.closed && !s.blinkDetected ==> r == Detection(DetectorState(true, f.now), None)
    ensures f.closed && s.blinkDetected ==> r == Detection(s, None)
    ensures !f.closed && !s.blinkDetected ==> r == Detection(s, None)
    ensures !f.closed && s.blinkDetected ==>
      r.state == DetectorState(false, s.blinkStartTime) && r.signal.Some? &&
      (r.signal == Some(Dash) <==> f.now - s.blinkStartTime >= LongBlinkDurationMs)
  {
    if f.closed then
      if !s.blinkDetected then Detection(DetectorState(true, f.now), None) else Detection(s, None)
    else if s.blinkDetected then
      var duration := f.now - s.blinkStartTime;
      Detection(s.(blinkDetected := false), Some(if duration >= LongBlinkDurationMs then Dash else Dot))
    else Detection(s, None)
  }

  /** `detect_blink` on the faces of one frame: the first signal ends the frame; no face changes nothing. */
  function DetectBlink(s: DetectorState, faces: seq<FaceReading>): (r: Detection)
    ensures faces == [] ==> r == Detection(s, None)
    ensures r.signal.Some? ==> !r.state.blinkDetected
    ensures r.signal.Some? ==> s.blinkDetected || exists i :: 0 <= i < |faces| && faces[i].closed
    ensures r.signal.None? ==> (s.blinkDetected ==> r.state == s)
    ensures faces != [] && StepFace(s, faces[0]).signal.Some? ==> r == StepFace(s, faces[0])
    ensures |faces| == 1 ==> r == StepFace(s, faces[0])
    decreases |faces|
  {
    if faces == [] then Detection(s, None)
    else
      var d := StepFace(s, faces[0]);
      if d.signal.Some? then d
      else
        var r := DetectBlink(d.state, faces[1..]);
        assert r.signal.Some? && !s.blinkDetected ==> faces[0].closed || exists i :: 0 <= i < |faces[1..]| && faces[1..][i].closed;
        r
  }

  class BlinkDetector {
    // Set once at construction and never reassigned.
    const prevBlinkTime: int := 0
    const earThreshold: real := 0.21
    const longBlinkDuration: int := LongBlinkDurationMs
    var blinkStartTime: int
    var blinkDetected: bool

    function State(): DetectorState
      reads this
    {
      DetectorState(blinkDetected, blinkStartTime)
    }

    constructor ()
      ensures State() == InitialState
    {
      blinkStartTime := 0;
      blinkDetected := false;
    }

    /** `detect_blink(frame)`, given the faces found in the frame. */
    method Detect(faces: seq<FaceReading>) returns (signal: Option<Signal>)
      modifies this
      ensures Detection(State(), signal) == DetectBlink(old(State()), faces)
    {
      var i := 0;
      while i < |faces|
        invariant 0 <= i <= |faces|
        invariant DetectBlink(old(State()), faces) == DetectBlink(State(), faces[i..])
      {
        assert faces[i..][0] == faces[i] && faces[i..][1..] == faces[i + 1..];
        var face := faces[i];
        if face.closed {
          if !blinkDetected {
            blinkStartTime := face.now;
            blinkDetected := true;
          }
        } else {
          if blinkDetected {
            var duration := face.now - blinkStartTime;
            blinkDetected := false;
            if duration >= longBlinkDuration {
              return Some(Dash);
            } else {
              return Some(Dot);
            }
          }
        }
        i := i + 1;
      }
      return None;
    }
  }

  // ---------------------------------------------------------------------
  // Runs over a stream of frames. The face mesh is built with
  // `max_num_faces=1`, so a frame holds at most one face.

  predicate SingleFaceFrames(frames: seq<seq<FaceReading>>) {
    forall i :: 0 <= i < |frames| ==> |frames[i]| <= 1
  }

  /** The final state, the number of signals emitted and the number of closures started, over a stream of frames. */
  datatype RunSummary = RunSummary(final: DetectorState, signals: nat, closures: nat)

  /** Whether the frame starts a blink, given the state before it. */
  predicate StartsClosure(s: DetectorState, frame: seq<FaceReading>) {
    frame != [] && frame[0].closed && !s.blinkDetected
  }

  function Run(s: DetectorState, frames: seq<seq<FaceReading>>): RunSummary
    decreases |frames|
  {
    if frames == [] then RunSummary(s, 0, 0)
    else
      var d := DetectBlink(s, frames[0]);
      var rest := Run(d.state, frames[1..]);
      RunSummary(rest.final, B(d.signal.Some?) + rest.signals, B(StartsClosure(s, frames[0])) + rest.closures)
  }

  /** A single-face frame emits a signal exactly on an open eye after a closed one. */
  lemma SignalOnReopening(s: DetectorState, frame: seq<FaceReading>)
    requires |frame| <= 1
    ensures DetectBlink(s, frame).signal.Some? <==> frame != [] && !frame[0].closed && s.blinkDetected
  {
    if frame != [] {
      assert frame[1..] == [];
    }
  }

  /**
   * Signals and closures alternate: over any stream of single-face frames,
   * signals emitted plus a blink still open at the end equal closures started
   * plus a blink already open at the start.
   */
  lemma {:induction false} SignalsMatchClosures(s: DetectorState, frames: seq<seq<FaceReading>>)
    requires SingleFaceFrames(frames)
    ensures Run(s, frames).signals + B(Run(s, frames).final.blinkDetected) == Run(s, frames).closures + B(s.blinkDetected)
    decreases |frames|
  {
    if frames != [] {
      var f := frames[0];
      assert |f| <= 1;
      if f != [] {
        assert f[1..] == [];
      }
      SignalsMatchClosures(DetectBlink(s, f).state, frames[1..]);
    }
  }

  /** From the initial state, each closure yields at most one signal. */
  lemma AtMostOneSignalPerClosure(frames: seq<seq<FaceReading>>)
    requires SingleFaceFrames(frames)
    ensures Run(InitialState, frames).signals <= Run(InitialState, frames).closures
  {
    SignalsMatchClosures(InitialState, frames);
  }

  /** A 500 ms closure is a dash, a 300 ms one a dot, and exactly 400 ms already counts as a dash. */
  lemma ClassificationExamples()
    ensures DetectBlink(DetectBlink(InitialState, [FaceReading(true, 1000)]).state, [FaceReading(false, 1500)]).signal == Some(Dash)
    ensures DetectBlink(DetectBlink(InitialState, [FaceReading(true, 1000)]).state, [FaceReading(false, 1300)]).signal == Some(Dot)
    ensures DetectBlink(DetectBlink(InitialState, [FaceReading(true, 1000)]).state, [FaceReading(false, 1400)]).signal == Some(Dash)
  {
  }
}
