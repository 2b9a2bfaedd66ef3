/**
 * The meter component as an immutable state record and the transitions
 * `App.tsx` performs on it: starting (begin, success, failure, the final
 * step), one animation-frame tick, stopping, and the button that chooses
 * between starting and stopping.
 */
module Meter {
  import opened Options
  import Energy
  import Estimator
  import Display
  import AcquisitionErrors

  /** What the component's stream reference holds. */
  datatype Stream =
    | NoStream   // nothing acquired yet
    | Live       // a stream whose tracks are running: the microphone is in use
    | Stopped    // a stream whose tracks were stopped

  /**
   * The component state. `stream` is the stream reference; `abandoned`
   * counts live streams whose reference was overwritten before they were
   * stopped, which nothing can stop any more.
   */
  datatype State = State(
    listening: bool,
    initializing: bool,
    decibels: int,
    peak: int,
    spectrum: Option<seq<Energy.Byte>>,
    hue: int,
    stream: Stream,
    abandoned: nat)

  /** The state on mount. */
  const Initial: State := State(false, false, 0, 0, None, Display.InitialHue, NoStream, 0)

  /** A frame as the analyser fills it: one byte per frequency bin. */
  predicate IsFrame(frame: seq<Energy.Byte>)
  {
    |frame| == Energy.BinCount
  }

  /** What a press of the single control does. */
  datatype Command = Ignore | StartListening | StopListening

  /**
   * The control is disabled while a start is in progress; otherwise it
   * stops a running meter and starts an idle one.
   */
  function Press(m: State): (c: Command)
    ensures c == Ignore <==> m.initializing
    ensures c == StopListening <==> !m.initializing && m.listening
    ensures c == StartListening <==> !m.initializing && !m.listening
  {
    if m.initializing then Ignore
    else if m.listening then StopListening
    else StartListening
  }

  /** A start has begun and its acquisition has not settled yet. */
  predicate Pending(m: State)
  {
    m.initializing && !m.listening
  }

  /** The start begins: only the initializing flag changes. */
  function BeginStart(m: State): (m': State)
    ensures m'.initializing
    ensures m'.(initializing := m.initializing) == m
  {
    m.(initializing := true)
  }

  /** The acquired stream is stored in the reference, replacing whatever it held. */
  function Acquire(m: State): (m': State)
    ensures m'.stream == Live
    ensures m'.abandoned == m.abandoned + (if m.stream == Live then 1 else 0)
    ensures m'.(stream := m.stream, abandoned := m.abandoned) == m
  {
    m.(stream := Live, abandoned := if m.stream == Live then m.abandoned + 1 else m.abandoned)
  }

  /**
   * The body of one animation-frame callback: read the frame, estimate the
   * reading, raise the peak to it and publish a copy of the frame.
   */
  function Tick(m: State, frame: seq<Energy.Byte>, cal: Estimator.Calibration): (m': State)
    requires IsFrame(frame)
    ensures m'.decibels == Estimator.Estimate(frame, cal) && m'.decibels >= Estimator.MinDb
    ensures m'.peak >= m.peak && m'.peak >= m'.decibels
    ensures m'.peak == m.peak || m'.peak == m'.decibels
    ensures m'.spectrum == Some(frame) && |m'.spectrum.value| == Energy.BinCount
    ensures m'.(decibels := m.decibels, peak := m.peak, spectrum := m.spectrum) == m
  {
    var db := Estimator.Estimate(frame, cal);
    m.(decibels := db, peak := if m.peak < db then db else m.peak, spectrum := Some(frame))
  }

  /**
   * The start succeeded: the stream is stored, the first tick runs and the
   * meter is listening.
   */
  function Succeed(m: State, frame: seq<Energy.Byte>, cal: Estimator.Calibration): (m': State)
    requires IsFrame(frame)
    ensures m'.listening && m'.stream == Live
    ensures m'.decibels == Estimator.Estimate(frame, cal)
    ensures m'.peak >= m.peak && m'.peak >= m'.decibels
    ensures m'.peak == m.peak || m'.peak == m'.decibels
    ensures m'.spectrum == Some(frame)
    ensures m'.abandoned == m.abandoned + (if m.stream == Live then 1 else 0)
    ensures m'.initializing == m.initializing && m'.hue == m.hue
  {
    Tick(Acquire(m), frame, cal).(listening := true)
  }

  /**
   * The start failed. When the stream had already been acquired when the
   * failure was thrown, it stays in the reference with its tracks running.
   * Nothing the view shows changes.
   */
  function Fail(m: State, acquired: bool): (m': State)
    ensures m'.listening == m.listening && m'.initializing == m.initializing
    ensures m'.decibels == m.decibels && m'.peak == m.peak
    ensures m'.spectrum == m.spectrum && m'.hue == m.hue
    ensures acquired ==> m'.stream == Live
    ensures acquired ==> m'.abandoned == m.abandoned + (if m.stream == Live then 1 else 0)
    ensures !acquired ==> m' == m
  {
    if acquired then Acquire(m) else m
  }

  /** Every exit from a start clears the initializing flag. */
  function Finish(m: State): (m': State)
    ensures !m'.initializing
    ensures m'.(initializing := m.initializing) == m
  {
    m.(initializing := false)
  }

  /**
   * Stop: stop the stream's tracks, leave listening, reset the peak and drop
   * the spectrum. The reading and the hue stay as they were.
   */
  function Stop(m: State): (m': State)
    ensures !m'.listening && m'.peak == 0 && m'.spectrum == None
    ensures m'.decibels == m.decibels && m'.hue == m.hue
    ensures m'.initializing == m.initializing && m'.abandoned == m.abandoned
    ensures m'.stream != Live
    ensures m.stream == NoStream <==> m'.stream == NoStream
  {
    m.(listening := false, peak := 0, spectrum := None,
       stream := if m.stream == Live then Stopped else m.stream)
  }

  /** The colour effect applied to a state after it is rendered. */
  function Settle(m: State): (m': State)
    ensures m'.(hue := m.hue) == m
    ensures m'.listening && m'.decibels > 0 ==> m'.hue == Display.HueFor(m'.decibels)
    ensures !(m.listening && m.decibels > 0) ==> m' == m
  {
    m.(hue := Display.HueEffect(m.listening, m.decibels, m.hue))
  }

  /** Things that happen to the component. */
  datatype Event =
    | Clicked                                              // the control is pressed
    | Granted(frame: seq<Energy.Byte>)                     // the microphone was opened; the first frame
    | Refused(error: AcquisitionErrors.Thrown, acquired: bool) // the start threw, after acquiring or not
    | AnimationFrame(frame: seq<Energy.Byte>)              // the host is about to repaint

  predicate WellFormed(e: Event)
  {
    match e
    case Granted(frame) => IsFrame(frame)
    case AnimationFrame(frame) => IsFrame(frame)
    case _ => true
  }

  /** The invariant every reachable state keeps. */
  predicate Valid(m: State)
  {
    && 0 <= m.hue <= Display.MaxHue
    && (m.listening && m.decibels > 0 ==> m.hue == Display.HueFor(m.decibels))
    && (m.listening ==>
          && !m.initializing
          && m.stream == Live
          && m.decibels >= Estimator.MinDb
          && m.peak >= m.decibels
          && m.spectrum.Some? && IsFrame(m.spectrum.value))
    && (!m.listening ==> m.peak == 0 && m.spectrum == None)
  }

  /**
   * One event. A press is gated by `Press`; an acquisition outcome only
   * matters while a start is pending; an animation frame is only scheduled
   * while listening, since stopping cancels the pending one.
   */
  function Step(m: State, e: Event, cal: Estimator.Calibration): (m': State)
    requires WellFormed(e)
    ensures Valid(m) ==> Valid(m')
    ensures e.AnimationFrame? && !m.listening ==> m' == m
    ensures e.AnimationFrame? && m.listening ==> m'.peak >= m.peak && m'.peak >= m'.decibels
    ensures m.listening && !m'.listening ==> m'.peak == 0 && m'.spectrum == None
  {
    match e
    case Clicked =>
      (match Press(m)
       case Ignore => m
       case StartListening => BeginStart(m)
       case StopListening => Settle(Stop(m)))
    case Granted(frame) =>
      if Pending(m) then Settle(Finish(Succeed(m, frame, cal))) else m
    case Refused(_, acquired) =>
      if Pending(m) then Settle(Finish(Fail(m, acquired))) else m
    case AnimationFrame(frame) =>
      if m.listening then Settle(Tick(m, frame, cal)) else m
  }

  /** A sequence of events, in order. */
  function Run(m: State, events: seq<Event>, cal: Estimator.Calibration): State
    requires forall i :: 0 <= i < |events| ==> WellFormed(events[i])
    decreases |events|
  {
    if |events| == 0 then m else Run(Step(m, events[0], cal), events[1..], cal)
  }

  lemma InitialIsValid()
    ensures Valid(Initial)
  {
  }

  /** Every state reachable from a valid one is valid. */
  lemma {:induction false} RunPreservesValid(m: State, events: seq<Event>, cal: Estimator.Calibration)
    requires forall i :: 0 <= i < |events| ==> WellFormed(events[i])
    requires Valid(m)
    ensures Valid(Run(m, events, cal))
    decreases |events|
  {
    if |events| > 0 {
      RunPreservesValid(Step(m, events[0], cal), events[1..], cal);
    }
  }

  /** While listening, no event acquires another stream: there is one session at a time. */
  lemma ListeningNeverReacquires(m: State, e: Event, cal: Estimator.Calibration)
    requires Valid(m) && m.listening && WellFormed(e)
    ensures Step(m, e, cal).abandoned == m.abandoned
    ensures Step(m, e, cal).listening ==> Step(m, e, cal).stream == m.stream
    ensures !Step(m, e, cal).initializing
  {
  }

  /** A press on an idle meter begins a start and changes nothing else. */
  lemma PressWhileIdleStarts(m: State, cal: Estimator.Calibration)
    requires Valid(m) && !m.listening && !m.initializing
    ensures Pending(Step(m, Clicked, cal))
    ensures Step(m, Clicked, cal) == m.(initializing := true)
  {
  }

  /**
   * A press while listening stops: the peak resets, the spectrum goes, the
   * reading and hue stay, and the next press starts afresh.
   */
  lemma PressWhileListeningStops(m: State, cal: Estimator.Calibration)
    requires Valid(m) && m.listening
    ensures var s := Step(m, Clicked, cal);
      && !s.listening && s.peak == 0 && s.spectrum == None
      && s.decibels == m.decibels && s.hue == m.hue
      && s.stream == Stopped && s.abandoned == m.abandoned
      && Press(s) == StartListening
  {
  }

  /** A successful start ends listening, with the first reading shown and its hue. */
  lemma GrantedStartListens(m: State, frame: seq<Energy.Byte>, cal: Estimator.Calibration)
    requires Valid(m) && Pending(m) && IsFrame(frame)
    ensures var s := Step(m, Granted(frame), cal);
      && s.listening && !s.initializing && s.stream == Live
      && s.decibels == Estimator.Estimate(frame, cal)
      && s.peak == s.decibels
      && s.spectrum == Some(frame)
      && s.hue == Display.HueFor(s.decibels)
  {
  }

  /** A failed start ends idle, with the view exactly as it was. */
  lemma RefusedStartStaysIdle(m: State, error: AcquisitionErrors.Thrown, acquired: bool, cal: Estimator.Calibration)
    requires Valid(m) && Pending(m)
    ensures var s := Step(m, Refused(error, acquired), cal);
      && !s.listening && !s.initializing
      && s.decibels == m.decibels && s.peak == m.peak
      && s.spectrum == m.spectrum && s.hue == m.hue
  {
  }

  /** Stopping twice is stopping once. */
  lemma StopIdempotent(m: State)
    ensures Stop(Stop(m)) == Stop(m)
  {
  }

  /** The events are all animation frames carrying analyser frames. */
  predicate AllFrames(events: seq<Event>)
  {
    forall i :: 0 <= i < |events| ==> events[i].AnimationFrame? && IsFrame(events[i].frame)
  }

  /** Once stopped, animation frames change nothing: no tick runs after a stop. */
  lemma {:induction false} QuietAfterStop(m: State, events: seq<Event>, cal: Estimator.Calibration)
    requires !m.listening && AllFrames(events)
    ensures Run(m, events, cal) == m
    decreases |events|
  {
    if |events| > 0 {
      assert Step(m, events[0], cal) == m;
      QuietAfterStop(m, events[1..], cal);
    }
  }

  /** Dropping the first of a list of animation frames leaves animation frames. */
  lemma AllFramesTail(events: seq<Event>)
    requires |events| > 0 && AllFrames(events)
    ensures AllFrames(events[1..])
  {
    var rest := events[1..];
    forall i | 0 <= i < |rest|
      ensures rest[i].AnimationFrame? && IsFrame(rest[i].frame)
    {
      assert rest[i] == events[i + 1];
    }
  }

  /** Within a session, ticks keep the meter listening, never lower the peak, and keep it above the reading. */
  lemma {:induction false} PeakNeverFalls(m: State, events: seq<Event>, cal: Estimator.Calibration)
    requires Valid(m) && m.listening && AllFrames(events)
    ensures Valid(Run(m, events, cal)) && Run(m, events, cal).listening
    ensures Run(m, events, cal).peak >= m.peak
    decreases |events|
  {
    if |events| > 0 {
      AllFramesTail(events);
      PeakNeverFalls(Step(m, events[0], cal), events[1..], cal);
    }
  }

  /** Within a session the peak stays at or above every reading published. */
  lemma {:induction false} PeakCoversReadings(m: State, events: seq<Event>, cal: Estimator.Calibration)
    requires Valid(m) && m.listening && AllFrames(events)
    ensures forall i :: 0 <= i < |events| ==> Run(m, events, cal).peak >= Estimator.Estimate(events[i].frame, cal)
    decreases |events|
  {
    if |events| > 0 {
      var m1 := Step(m, events[0], cal);
      var rest := events[1..];
      AllFramesTail(events);
      PeakCoversReadings(m1, rest, cal);
      PeakNeverFalls(m1, rest, cal);
      forall i | 0 <= i < |events|
        ensures Run(m, events, cal).peak >= Estimator.Estimate(events[i].frame, cal)
      {
        if i > 0 {
          assert events[i] == rest[i - 1];
        }
      }
    }
  }

  /** After a run of ticks the reading shown is that of the last frame. */
  lemma {:induction false} LastReadingShown(m: State, events: seq<Event>, cal: Estimator.Calibration)
    requires Valid(m) && m.listening && AllFrames(events) && |events| > 0
    ensures Run(m, events, cal).decibels == Estimator.Estimate(events[|events| - 1].frame, cal)
    decreases |events|
  {
    var m1 := Step(m, events[0], cal);
    var rest := events[1..];
    if |rest| > 0 {
      AllFramesTail(events);
      LastReadingShown(m1, rest, cal);
      assert events[|events| - 1] == rest[|rest| - 1];
    }
  }

  /**
   * A start that throws after the microphone was acquired leaves its stream
   * running while the meter is idle; a later successful start overwrites the
   * reference, so the next stop cannot reach the first stream.
   */
  lemma FailureAfterAcquisitionKeepsMicrophone(
    error: AcquisitionErrors.Thrown, frame: seq<Energy.Byte>, cal: Estimator.Calibration)
    requires IsFrame(frame)
    ensures var failed := Step(Step(Initial, Clicked, cal), Refused(error, true), cal);
      && !failed.listening && !failed.initializing && failed.stream == Live
    ensures var failed := Step(Step(Initial, Clicked, cal), Refused(error, true), cal);
      var stopped := Step(Step(Step(failed, Clicked, cal), Granted(frame), cal), Clicked, cal);
      && !stopped.listening && stopped.stream == Stopped && stopped.abandoned == 1
  {
  }
}
