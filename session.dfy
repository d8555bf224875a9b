/**
 * A capture session: starting and stopping the microphone graph, the
 * animation loop that draws the spectrum and the meter, and switching the
 * monitor (the signal played back to the listener) on and off.
 *
 * The class `Visualizer` holds the variables the source keeps at file scope
 * and in the closure `start` creates; each method is tied to a function on
 * `State`, and the properties are proved about those functions.
 */
module Session {
  import opened Basics
  import opened Decibels
  import opened Spectrum
  import opened Meter

  /** The nodes of the audio graph a session wires up. */
  datatype Stage = Source | Analyser | Gain | StreamDestination | Speakers

  /** A connection `from.connect(to)`. */
  type Edge = (Stage, Stage)

  /** The hidden `Audio` element that plays the monitor stream to a chosen output (`sinkId`, once set). */
  datatype AudioElement = AudioElement(muted: bool, playing: bool, sinkId: Option<string>)

  /** The monitor gain node: its identity and `gain.value`. */
  datatype GainNode = GainNode(id: nat, gain: real)

  /** Why `getUserMedia` refused. */
  datatype StartError = PermissionDenied | DeviceNotFound | Overconstrained | OtherError

  /** What `getUserMedia` answers. */
  datatype Acquisition = Granted | Refused(error: StartError)

  /** One animation frame: the clock and the analyser's two buffers. */
  datatype Frame = Frame(now: real, freq: seq<Db>, time: seq<real>)

  /** The analyser fills `frequencyBinCount` bins and `fftSize` samples. */
  predicate FrameFits(f: Frame) {
    |f.freq| == FrequencyBinCount && |f.time| == FftSize
  }

  /** What one frame draws: bar levels, held peaks, the meter readouts and its held peak. */
  datatype Readout = Readout(bars: seq<Db>, peaks: seq<Db>, levels: Levels, peakHold: Db)

  /** Every variable of a session. */
  datatype State = State(
    isRunning: bool,
    animationFrame: Option<nat>,
    nextRequest: nat,
    monitorEnabled: bool,
    mediaStream: Option<nat>,
    audioContext: Option<nat>,
    mediaSourceNode: Option<nat>,
    analyserNode: Option<nat>,
    monitorGainNode: Option<GainNode>,
    nextNode: nat,
    edges: set<Edge>,
    htmlAudio: Option<AudioElement>,
    deviceIdInUse: Option<string>,
    ranges: seq<BinRange>,
    barPeaks: seq<Db>,
    peakHold: Db,
    lastFrameTime: real)

  /** `new Float32Array(barCount).fill(-Infinity)`: no peak held on any bar. */
  function Unheld(): (peaks: seq<Db>)
    ensures |peaks| == BarCount && forall i :: 0 <= i < BarCount ==> peaks[i] == NegInf
  {
    seq(BarCount, _ => NegInf)
  }

  /** The page as loaded: nothing captured, monitoring on by default. */
  function Initial(): (st: State)
    ensures !st.isRunning && st.monitorEnabled
  {
    State(false, None, 1, true, None, None, None, None, None, 0, {}, None, None, [],
      Unheld(), NegInf, 0.0)
  }

  /** The monitor reaches a loudspeaker: directly, or through the playing, unmuted audio element. */
  predicate Audible(st: State) {
    (Source, Gain) in st.edges
    && ((Gain, Speakers) in st.edges
        || ((Gain, StreamDestination) in st.edges
            && st.htmlAudio.Some? && !st.htmlAudio.value.muted && st.htmlAudio.value.playing))
  }

  /** Everything a session keeps in step, but for the pending frame request. */
  predicate Wired(st: State, sinkSupported: bool) {
    && |st.barPeaks| == BarCount
    && (st.htmlAudio.Some? ==> sinkSupported)
    && (!st.isRunning ==>
          && st.animationFrame.None? && st.edges == {}
          && st.mediaStream.None? && st.audioContext.None? && st.mediaSourceNode.None?
          && st.analyserNode.None? && st.monitorGainNode.None?)
    && (st.isRunning ==>
          && st.deviceIdInUse.Some?
          && st.mediaStream.Some? && st.audioContext.Some? && st.mediaSourceNode.Some?
          && st.analyserNode.Some? && st.monitorGainNode.Some?
          && st.mediaStream.value < st.nextNode && st.audioContext.value < st.nextNode
          && st.mediaSourceNode.value < st.nextNode && st.analyserNode.value < st.nextNode
          && st.monitorGainNode.value.id < st.nextNode
          && (Source, Analyser) in st.edges && (Source, Gain) in st.edges
          && |st.ranges| == BarCount && WellFormed(st.ranges)
          && (Audible(st) <==> st.monitorEnabled))
  }

  /** Everything a session keeps in step: a running session also has a frame requested. */
  predicate Consistent(st: State, sinkSupported: bool) {
    Wired(st, sinkSupported) && (st.isRunning ==> st.animationFrame.Some?)
  }

  /** What rendering a frame needs of the state. */
  predicate Renderable(st: State) {
    |st.barPeaks| == BarCount && (st.isRunning ==> |st.ranges| == BarCount && WellFormed(st.ranges))
  }

  lemma ConsistentRenderable(st: State, sinkSupported: bool)
    requires Consistent(st, sinkSupported)
    ensures Renderable(st)
  {
  }

  // ---------------------------------------------------------------- stop

  /**
   * `stop`: not running, the frame request cancelled, every node released and
   * disconnected, and monitoring switched off. `setMonitoringEnabled(false)`
   * runs after the context is released, so it only clears the flag.
   */
  function StopSpec(st: State): State {
    st.(isRunning := false, animationFrame := None, mediaStream := None, mediaSourceNode := None,
        analyserNode := None, audioContext := None, monitorGainNode := None, edges := {},
        monitorEnabled := false)
  }

  /** After `stop` nothing runs, nothing is held and nothing is heard. */
  lemma StopClears(st: State)
    ensures var s := StopSpec(st);
      !s.isRunning && s.animationFrame.None? && !s.monitorEnabled && !Audible(s)
      && s.mediaStream.None? && s.audioContext.None? && s.mediaSourceNode.None?
      && s.analyserNode.None? && s.monitorGainNode.None? && s.edges == {}
    ensures StopSpec(st).htmlAudio == st.htmlAudio && StopSpec(st).deviceIdInUse == st.deviceIdInUse
  {
  }

  /** Stopping twice is stopping once. */
  lemma StopIdempotent(st: State)
    ensures StopSpec(StopSpec(st)) == StopSpec(st)
  {
  }

  lemma StopKeepsConsistent(st: State, sinkSupported: bool)
    requires Consistent(st, sinkSupported)
    ensures Consistent(StopSpec(st), sinkSupported)
  {
  }

  // ------------------------------------------------- setMonitoringEnabled

  /** `monitorGainNode.disconnect()`: every connection out of the gain node goes. */
  function Unplug(edges: set<Edge>): (r: set<Edge>)
    ensures forall e :: e in r <==> e in edges && e.0 != Gain
  {
    set e | e in edges && e.0 != Gain
  }

  /**
   * `setMonitoringEnabled` as intended: the flag is set; with a graph, the gain
   * node is disconnected and, when enabling, reconnected to the stream
   * destination the audio element plays (with `setSinkId`) or to the speakers
   * (without); the element is unmuted and played, or paused and muted.
   */
  function MonitorRoute(st: State, enabled: bool, sinkSupported: bool): State {
    var flagged := st.(monitorEnabled := enabled);
    if st.audioContext.None? || st.monitorGainNode.None? then flagged
    else
      var cut := Unplug(st.edges);
      if enabled then
        if st.htmlAudio.Some? && sinkSupported then
          flagged.(edges := cut + {(Gain, StreamDestination)},
                   htmlAudio := Some(st.htmlAudio.value.(muted := false, playing := true)))
        else flagged.(edges := cut + {(Gain, Speakers)})
      else if st.htmlAudio.Some? then
        flagged.(edges := cut, htmlAudio := Some(st.htmlAudio.value.(muted := true, playing := false)))
      else flagged.(edges := cut)
  }

  /**
   * `setMonitoringEnabled` as written: on the `setSinkId` path it disconnects the
   * gain node from the stream destination and never reconnects it.
   */
  function MonitorRouteAsWritten(st: State, enabled: bool, sinkSupported: bool): State {
    var flagged := st.(monitorEnabled := enabled);
    if st.audioContext.None? || st.monitorGainNode.None? then flagged
    else
      var cut := Unplug(st.edges);
      if enabled then
        if st.htmlAudio.Some? && sinkSupported then
          flagged.(edges := cut, htmlAudio := Some(st.htmlAudio.value.(muted := false, playing := true)))
        else flagged.(edges := cut + {(Gain, Speakers)})
      else if st.htmlAudio.Some? then
        flagged.(edges := cut, htmlAudio := Some(st.htmlAudio.value.(muted := true, playing := false)))
      else flagged.(edges := cut)
  }

  /** While a session runs, the monitor is heard exactly when it is enabled. */
  lemma MonitorRouteAudibleIffEnabled(st: State, enabled: bool, sinkSupported: bool)
    requires st.audioContext.Some? && st.monitorGainNode.Some? && (Source, Gain) in st.edges
    ensures Audible(MonitorRoute(st, enabled, sinkSupported)) <==> enabled
    ensures MonitorRoute(st, enabled, sinkSupported).monitorEnabled == enabled
  {
    var r := MonitorRoute(st, enabled, sinkSupported);
    assert (Source, Gain) in r.edges;
    if !enabled {
      assert (Gain, Speakers) !in r.edges && (Gain, StreamDestination) !in r.edges;
    }
  }

  lemma MonitorRouteKeepsConsistent(st: State, enabled: bool, sinkSupported: bool)
    requires Consistent(st, sinkSupported)
    ensures Consistent(MonitorRoute(st, enabled, sinkSupported), sinkSupported)
  {
    var r := MonitorRoute(st, enabled, sinkSupported);
    if st.isRunning {
      MonitorRouteAudibleIffEnabled(st, enabled, sinkSupported);
      assert (Source, Analyser) in r.edges;
    }
  }

  /** The monitor button: enable when off, disable when on. */
  function ToggleSpec(st: State, sinkSupported: bool): State {
    MonitorRoute(st, !st.monitorEnabled, sinkSupported)
  }

  /** Toggling twice restores the flag and whether the monitor is heard. */
  lemma ToggleTwice(st: State, sinkSupported: bool)
    requires Consistent(st, sinkSupported) && st.isRunning
    ensures var twice := ToggleSpec(ToggleSpec(st, sinkSupported), sinkSupported);
      twice.monitorEnabled == st.monitorEnabled && (Audible(twice) <==> Audible(st))
  {
    var once := ToggleSpec(st, sinkSupported);
    MonitorRouteKeepsConsistent(st, !st.monitorEnabled, sinkSupported);
    MonitorRouteKeepsConsistent(once, !once.monitorEnabled, sinkSupported);
  }

  // ----------------------------------------------------------- the slider

  /** `Number(monitorGainSlider?.value || 0.6)`: the gain a new session starts with. */
  function GainSetting(slider: Option<real>): real {
    if slider.Some? then slider.value else 0.6
  }

  /** The slider's `input` handler: only a live gain node takes the value. */
  function SetGainSpec(st: State, v: real): (r: State)
    ensures st.monitorGainNode.Some? ==> r.monitorGainNode == Some(st.monitorGainNode.value.(gain := v))
    ensures st.monitorGainNode.None? ==> r == st
    ensures r.(monitorGainNode := st.monitorGainNode) == st
  {
    if st.monitorGainNode.Some? then st.(monitorGainNode := Some(st.monitorGainNode.value.(gain := v))) else st
  }

  lemma SetGainKeepsConsistent(st: State, v: real, sinkSupported: bool)
    requires Consistent(st, sinkSupported)
    ensures Consistent(SetGainSpec(st, v), sinkSupported)
  {
  }

  // ------------------------------------------------- the output selector

  /**
   * `applyOutputDeviceSelection` then the status update: with an audio element
   * that can `setSinkId` and a non-empty choice the element plays to that output,
   * unless the browser rejects it; otherwise nothing changes.
   */
  function SelectOutputSpec(st: State, sinkId: string, accepted: bool, sinkSupported: bool): (r: State)
    ensures r.(htmlAudio := st.htmlAudio) == st
    ensures r.htmlAudio.Some? <==> st.htmlAudio.Some?
    ensures r != st ==> r.htmlAudio.value.sinkId == Some(sinkId) && sinkId != "" && accepted
    ensures st.htmlAudio.Some? && sinkSupported && sinkId != "" && accepted ==>
      r.htmlAudio.value.sinkId == Some(sinkId)
  {
    if st.htmlAudio.None? || !sinkSupported || sinkId == "" || !accepted then st
    else st.(htmlAudio := Some(st.htmlAudio.value.(sinkId := Some(sinkId))))
  }

  lemma SelectOutputKeepsConsistent(st: State, sinkId: string, accepted: bool, sinkSupported: bool)
    requires Consistent(st, sinkSupported)
    ensures Consistent(SelectOutputSpec(st, sinkId, accepted, sinkSupported), sinkSupported)
  {
  }

  // ---------------------------------------------------------------- render

  /** What a frame draws, from the state before it. */
  function Drawn(st: State, frame: Frame, math: Transcendentals): Readout
    requires Renderable(st) && st.isRunning && FrameFits(frame)
  {
    var tick := FrameTick(st.lastFrameTime, frame.now);
    var bars := BarLevels(frame.freq, st.ranges);
    var levels := FrameLevels(frame.time, math);
    Readout(bars, HoldAll(bars, st.barPeaks, tick.spectrumDelta), levels,
      VuPeakHold(levels.peakDb, st.peakHold, tick.meterDelta))
  }

  /**
   * `render`: nothing when not running; otherwise one frame of the spectrum
   * and the meter, on one frame clock, and the next frame requested.
   */
  function RenderSpec(st: State, frame: Frame, math: Transcendentals): State
    requires Renderable(st) && FrameFits(frame)
  {
    if !st.isRunning then st
    else
      var drawn := Drawn(st, frame, math);
      st.(barPeaks := drawn.peaks, peakHold := drawn.peakHold, lastFrameTime := frame.now,
          animationFrame := Some(st.nextRequest), nextRequest := st.nextRequest + 1)
  }

  /** Rendering an idle session changes nothing. */
  lemma RenderIdle(st: State, frame: Frame, math: Transcendentals)
    requires Renderable(st) && FrameFits(frame) && !st.isRunning
    ensures RenderSpec(st, frame, math) == st
  {
  }

  /**
   * A frame of a running session keeps every held peak at or above its bar and
   * the meter's held peak at or above the frame's peak, and asks for a new frame.
   */
  lemma RenderHolds(st: State, frame: Frame, math: Transcendentals)
    requires Renderable(st) && FrameFits(frame) && st.isRunning
    ensures var r := RenderSpec(st, frame, math);
      var drawn := Drawn(st, frame, math);
      && (forall i :: 0 <= i < BarCount ==> Le(drawn.bars[i], r.barPeaks[i]))
      && r.peakHold.Fin? && drawn.levels.peakDb <= r.peakHold.value
      && r.animationFrame == Some(st.nextRequest) && r.lastFrameTime == frame.now
  {
    var drawn := Drawn(st, frame, math);
    HoldAllAboveBars(drawn.bars, st.barPeaks, FrameTick(st.lastFrameTime, frame.now).spectrumDelta);
  }

  lemma RenderKeepsConsistent(st: State, frame: Frame, math: Transcendentals, sinkSupported: bool)
    requires Wired(st, sinkSupported) && FrameFits(frame)
    requires !st.isRunning ==> st.animationFrame.None?
    ensures Consistent(RenderSpec(st, frame, math), sinkSupported)
  {
  }

  // ----------------------------------------------------------------- start

  /** `deviceId || "default"`. */
  function DeviceIdInUse(deviceId: Option<string>): (id: string)
    ensures id != ""
    ensures deviceId.Some? && deviceId.value != "" ==> id == deviceId.value
  {
    if deviceId.Some? && deviceId.value != "" then deviceId.value else "default"
  }

  /**
   * `mediaSourceNode.connect(analyserNode)`, `mediaSourceNode.connect(monitorGainNode)`
   * and, with `setSinkId`, `monitorGainNode.connect(monitorStreamDest)`.
   */
  function LaunchEdges(sinkSupported: bool): (edges: set<Edge>)
    ensures (Source, Analyser) in edges && (Source, Gain) in edges
    ensures (Gain, StreamDestination) in edges <==> sinkSupported
    ensures (Gain, Speakers) !in edges
  {
    if sinkSupported then {(Source, Analyser), (Source, Gain), (Gain, StreamDestination)}
    else {(Source, Analyser), (Source, Gain)}
  }

  /**
   * The nodes `start` creates once the microphone is granted: a stream, a
   * context, the source, the analyser and the gain node, its gain from the slider.
   */
  function AddNodes(st: State, slider: Option<real>): State {
    var n := st.nextNode;
    st.(mediaStream := Some(n), audioContext := Some(n + 1), mediaSourceNode := Some(n + 2),
        analyserNode := Some(n + 3), monitorGainNode := Some(GainNode(n + 4, GainSetting(slider))),
        nextNode := n + 5)
  }

  /**
   * The connections `start` makes, `LaunchEdges`, and the hidden audio element,
   * created when `setSinkId` exists and there is none yet.
   */
  function Connect(st: State, sinkSupported: bool): State {
    var html := if sinkSupported && st.htmlAudio.None? then Some(AudioElement(false, false, None)) else st.htmlAudio;
    st.(edges := LaunchEdges(sinkSupported), htmlAudio := html)
  }

  /** The graph `start` builds. */
  function ConnectGraph(st: State, sinkSupported: bool, slider: Option<real>): State {
    Connect(AddNodes(st, slider), sinkSupported)
  }

  /**
   * The drawing state `start` sets up next: the bars' bin ranges, no peak held,
   * the clock read, the device in use recorded, and the session running.
   */
  function OpenDrawing(st: State, deviceId: Option<string>, ranges: seq<BinRange>, startTime: real): State {
    st.(ranges := ranges, barPeaks := Unheld(), peakHold := NegInf,
        lastFrameTime := startTime, deviceIdInUse := Some(DeviceIdInUse(deviceId)), isRunning := true)
  }

  /** Everything `start` sets up before it switches monitoring on. */
  function Launch(st: State, sinkSupported: bool, deviceId: Option<string>, slider: Option<real>,
                  ranges: seq<BinRange>, startTime: real): State
  {
    OpenDrawing(ConnectGraph(st, sinkSupported, slider), deviceId, ranges, startTime)
  }

  /**
   * `start`: nothing while running; a refused microphone ends in `stop`;
   * otherwise the graph is built, monitoring switched on and the first frame drawn.
   */
  function StartSpec(st: State, sinkSupported: bool, deviceId: Option<string>, acquisition: Acquisition,
                     slider: Option<real>, ranges: seq<BinRange>, startTime: real, frame: Frame,
                     math: Transcendentals): State
    requires |ranges| == BarCount && WellFormed(ranges) && FrameFits(frame)
  {
    if st.isRunning then st
    else if acquisition.Refused? then StopSpec(st)
    else
      var launched := Launch(st, sinkSupported, deviceId, slider, ranges, startTime);
      RenderSpec(MonitorRoute(launched, true, sinkSupported), frame, math)
  }

  /** `start` while running is a no-op. */
  lemma StartWhileRunning(st: State, sinkSupported: bool, deviceId: Option<string>, acquisition: Acquisition,
                          slider: Option<real>, ranges: seq<BinRange>, startTime: real, frame: Frame,
                          math: Transcendentals)
    requires |ranges| == BarCount && WellFormed(ranges) && FrameFits(frame)
    requires st.isRunning
    ensures StartSpec(st, sinkSupported, deviceId, acquisition, slider, ranges, startTime, frame, math) == st
  {
  }

  /** A refused microphone leaves the session stopped. */
  lemma StartRefused(st: State, sinkSupported: bool, deviceId: Option<string>, error: StartError,
                     slider: Option<real>, ranges: seq<BinRange>, startTime: real, frame: Frame,
                     math: Transcendentals)
    requires |ranges| == BarCount && WellFormed(ranges) && FrameFits(frame)
    requires !st.isRunning
    ensures var r := StartSpec(st, sinkSupported, deviceId, Refused(error), slider, ranges, startTime, frame, math);
      r == StopSpec(st) && !r.isRunning && !r.monitorEnabled
  {
  }

  /**
   * A granted start runs with monitoring on and heard, on new nodes, for the
   * chosen device; its first frame's held peaks are that frame's bar levels and
   * the meter holds that frame's peak.
   */
  lemma StartGranted(st: State, sinkSupported: bool, deviceId: Option<string>,
                     slider: Option<real>, ranges: seq<BinRange>, startTime: real, frame: Frame,
                     math: Transcendentals)
    requires |ranges| == BarCount && WellFormed(ranges) && FrameFits(frame)
    requires !st.isRunning && startTime <= frame.now
    ensures var r := StartSpec(st, sinkSupported, deviceId, Granted, slider, ranges, startTime, frame, math);
      && r.isRunning && r.monitorEnabled && Audible(r)
      && r.animationFrame.Some?
      && r.deviceIdInUse == Some(DeviceIdInUse(deviceId))
      && r.monitorGainNode == Some(GainNode(st.nextNode + 4, GainSetting(slider)))
      && r.barPeaks == BarLevels(frame.freq, ranges)
      && r.peakHold == Fin(FrameLevels(frame.time, math).peakDb)
  {
    var launched := Launch(st, sinkSupported, deviceId, slider, ranges, startTime);
    var routed := MonitorRoute(launched, true, sinkSupported);
    MonitorRouteAudibleIffEnabled(launched, true, sinkSupported);
    var drawn := Drawn(routed, frame, math);
    HoldAllAboveBars(drawn.bars, routed.barPeaks, FrameTick(startTime, frame.now).spectrumDelta);
    var r := RenderSpec(routed, frame, math);
    assert r.edges == routed.edges && r.htmlAudio == routed.htmlAudio;
  }

  lemma StartKeepsConsistent(st: State, sinkSupported: bool, deviceId: Option<string>, acquisition: Acquisition,
                             slider: Option<real>, ranges: seq<BinRange>, startTime: real, frame: Frame,
                             math: Transcendentals)
    requires |ranges| == BarCount && WellFormed(ranges) && FrameFits(frame)
    requires Consistent(st, sinkSupported)
    ensures Consistent(StartSpec(st, sinkSupported, deviceId, acquisition, slider, ranges, startTime, frame, math),
                       sinkSupported)
  {
    if !st.isRunning && acquisition.Granted? {
      var launched := Launch(st, sinkSupported, deviceId, slider, ranges, startTime);
      var routed := MonitorRoute(launched, true, sinkSupported);
      MonitorRouteAudibleIffEnabled(launched, true, sinkSupported);
      assert (Source, Analyser) in routed.edges;
      assert Wired(routed, sinkSupported);
      RenderKeepsConsistent(routed, frame, math, sinkSupported);
    }
  }

  /**
   * As written, a start that routes through `setSinkId` leaves monitoring
   * enabled but silent: the gain node is cut from the stream the element plays.
   */
  lemma StartSilentAsWritten(st: State, deviceId: Option<string>, slider: Option<real>,
                             ranges: seq<BinRange>, startTime: real)
    ensures var r := MonitorRouteAsWritten(Launch(st, true, deviceId, slider, ranges, startTime), true, true);
      r.isRunning && r.monitorEnabled && !Audible(r)
    ensures Audible(MonitorRoute(Launch(st, true, deviceId, slider, ranges, startTime), true, true))
  {
    var launched := Launch(st, true, deviceId, slider, ranges, startTime);
    var r := MonitorRouteAsWritten(launched, true, true);
    assert (Gain, Speakers) !in r.edges && (Gain, StreamDestination) !in r.edges;
    MonitorRouteAudibleIffEnabled(launched, true, true);
  }

  // ------------------------------------------------- the device selector

  /** `deviceSelect.value || undefined`. */
  function Chosen(selected: string): (c: Option<string>)
    ensures c.None? <==> selected == ""
  {
    if selected == "" then None else Some(selected)
  }

  /** The input selector's `change` handler: while running, stop then start on the new device. */
  function ChangeDeviceSpec(st: State, sinkSupported: bool, selected: string, acquisition: Acquisition,
                            slider: Option<real>, ranges: seq<BinRange>, startTime: real, frame: Frame,
                            math: Transcendentals): State
    requires |ranges| == BarCount && WellFormed(ranges) && FrameFits(frame)
  {
    if st.isRunning
    then StartSpec(StopSpec(st), sinkSupported, Chosen(selected), acquisition, slider, ranges, startTime, frame, math)
    else st
  }

  /**
   * Changing the device of an idle session does nothing; a running session that
   * is granted the new device runs again on a new stream, context, source,
   * analyser and gain node, capturing from it.
   */
  lemma ChangeDeviceRestarts(st: State, sinkSupported: bool, selected: string, acquisition: Acquisition,
                             slider: Option<real>, ranges: seq<BinRange>, startTime: real, frame: Frame,
                             math: Transcendentals)
    requires |ranges| == BarCount && WellFormed(ranges) && FrameFits(frame)
    requires Consistent(st, sinkSupported)
    ensures var r := ChangeDeviceSpec(st, sinkSupported, selected, acquisition, slider, ranges, startTime, frame, math);
      && (!st.isRunning ==> r == st)
      && (st.isRunning && acquisition.Granted? ==>
            r.isRunning && r.monitorEnabled
            && r.mediaStream.value != st.mediaStream.value && r.audioContext.value != st.audioContext.value
            && r.mediaSourceNode.value != st.mediaSourceNode.value && r.analyserNode.value != st.analyserNode.value
            && r.monitorGainNode.value.id != st.monitorGainNode.value.id
            && r.deviceIdInUse == Some(DeviceIdInUse(Chosen(selected))))
      && (st.isRunning && acquisition.Refused? ==> !r.isRunning && r == StopSpec(StopSpec(st)))
  {
    if st.isRunning && acquisition.Granted? {
      var launched := Launch(StopSpec(st), sinkSupported, Chosen(selected), slider, ranges, startTime);
      MonitorRouteAudibleIffEnabled(launched, true, sinkSupported);
    }
  }

  // ------------------------------------------------------------ the class

  /** The session's variables, and the handlers that change them. */
  class Visualizer {
    /** Whether `HTMLMediaElement.prototype.setSinkId` exists. */
    const sinkSupported: bool
    const math: Transcendentals

    var isRunning: bool
    var animationFrame: Option<nat>
    var nextRequest: nat
    var monitorEnabled: bool
    var mediaStream: Option<nat>
    var audioContext: Option<nat>
    var mediaSourceNode: Option<nat>
    var analyserNode: Option<nat>
    var monitorGainNode: Option<GainNode>
    var nextNode: nat
    var edges: set<Edge>
    var htmlAudio: Option<AudioElement>
    var deviceIdInUse: Option<string>
    var ranges: seq<BinRange>
    /** `barPeaksDb`, one held peak per bar. */
    var barPeaks: array<Db>
    var peakHold: Db
    var lastFrameTime: real

    function Snapshot(): State
      reads this, barPeaks
    {
      State(isRunning, animationFrame, nextRequest, monitorEnabled, mediaStream, audioContext,
        mediaSourceNode, analyserNode, monitorGainNode, nextNode, edges, htmlAudio, deviceIdInUse,
        ranges, barPeaks[..], peakHold, lastFrameTime)
    }

    predicate Valid()
      reads this, barPeaks
    {
      Consistent(Snapshot(), sinkSupported)
    }

    constructor(sinkSupported: bool, math: Transcendentals)
      ensures Valid() && Snapshot() == Initial()
      ensures this.sinkSupported == sinkSupported && this.math == math
    {
      this.sinkSupported := sinkSupported;
      this.math := math;
      isRunning := false;
      animationFrame := None;
      nextRequest := 1;
      monitorEnabled := true;
      mediaStream := None;
      audioContext := None;
      mediaSourceNode := None;
      analyserNode := None;
      monitorGainNode := None;
      nextNode := 0;
      edges := {};
      htmlAudio := None;
      deviceIdInUse := None;
      ranges := [];
      barPeaks := new Db[BarCount](_ => NegInf);
      peakHold := NegInf;
      lastFrameTime := 0.0;
    }

    method Stop()
      requires Valid()
      modifies this
      ensures Valid()
      ensures Snapshot() == StopSpec(old(Snapshot()))
    {
      ghost var st := Snapshot();
      StopKeepsConsistent(st, sinkSupported);
      isRunning := false;
      animationFrame := None;
      mediaStream := None;
      mediaSourceNode := None;
      analyserNode := None;
      audioContext := None;
      monitorGainNode := None;
      edges := {};
      monitorEnabled := false;
      assert barPeaks[..] == st.barPeaks;
      ghost var now := Snapshot();
      assert now == StopSpec(st);
    }

    method SetMonitoringEnabled(enabled: bool)
      modifies this
      ensures barPeaks == old(barPeaks)
      ensures Snapshot() == MonitorRoute(old(Snapshot()), enabled, sinkSupported)
    {
      monitorEnabled := enabled;
      if audioContext.None? || monitorGainNode.None? {
        return;
      }
      edges := Unplug(edges);
      if enabled {
        if htmlAudio.Some? && sinkSupported {
          edges := edges + {(Gain, StreamDestination)};
          htmlAudio := Some(htmlAudio.value.(muted := false, playing := true));
        } else {
          edges := edges + {(Gain, Speakers)};
        }
      } else if htmlAudio.Some? {
        htmlAudio := Some(htmlAudio.value.(muted := true, playing := false));
      }
    }

    /** The monitor button's `click` handler. */
    method ToggleMonitor()
      requires Valid()
      modifies this
      ensures Valid()
      ensures Snapshot() == ToggleSpec(old(Snapshot()), sinkSupported)
    {
      MonitorRouteKeepsConsistent(Snapshot(), !monitorEnabled, sinkSupported);
      SetMonitoringEnabled(!monitorEnabled);
    }

    /** The gain slider's `input` handler. */
    method SetMonitorGain(v: real)
      requires Valid()
      modifies this
      ensures Valid()
      ensures Snapshot() == SetGainSpec(old(Snapshot()), v)
    {
      SetGainKeepsConsistent(Snapshot(), v, sinkSupported);
      if monitorGainNode.Some? {
        monitorGainNode := Some(monitorGainNode.value.(gain := v));
      }
    }

    /** The output selector's `change` handler; `accepted` is whether `setSinkId` resolves. */
    method SelectOutput(sinkId: string, accepted: bool)
      requires Valid()
      modifies this
      ensures Valid()
      ensures Snapshot() == SelectOutputSpec(old(Snapshot()), sinkId, accepted, sinkSupported)
    {
      SelectOutputKeepsConsistent(Snapshot(), sinkId, accepted, sinkSupported);
      if htmlAudio.None? || !sinkSupported {
        return;
      }
      if sinkId != "" && accepted {
        htmlAudio := Some(htmlAudio.value.(sinkId := Some(sinkId)));
      }
    }

    /** `render`: draws one frame when running and answers what it drew. */
    method Render(frame: Frame) returns (drawn: Option<Readout>)
      requires Renderable(Snapshot()) && FrameFits(frame)
      modifies this, barPeaks
      ensures barPeaks == old(barPeaks)
      ensures Snapshot() == RenderSpec(old(Snapshot()), frame, math)
      ensures drawn == if old(isRunning) then Some(Drawn(old(Snapshot()), frame, math)) else None
    {
      if !isRunning {
        return None;
      }
      ghost var st := Snapshot();
      var tick := FrameTick(lastFrameTime, frame.now);
      var bars := UpdateBars(frame.freq, ranges, barPeaks, tick.spectrumDelta);
      ghost var held := barPeaks[..];
      var levels := MeasureFrame(frame.time);
      lastFrameTime := tick.lastFrameTime;
      peakHold := VuPeakHold(levels.peakDb, peakHold, tick.meterDelta);
      animationFrame := Some(nextRequest);
      nextRequest := nextRequest + 1;
      assert barPeaks[..] == held;
      drawn := Some(Readout(bars, barPeaks[..], levels, peakHold));
      assert drawn.value == Drawn(st, frame, math);
      ghost var now := Snapshot();
      assert now == RenderSpec(st, frame, math);
    }

    /** The meter's half of a frame: the RMS and peak loop, then both readouts in dBFS. */
    method MeasureFrame(time: seq<real>) returns (levels: Levels)
      requires |time| > 0
      ensures levels == FrameLevels(time, math)
    {
      var sumSquares, peakAbs := MeasureLevels(time);
      var rms := math.sqrt(sumSquares / |time| as real);
      levels := Levels(LinearToDbFS(rms, math.log10), LinearToDbFS(peakAbs, math.log10));
    }

    /** `start(deviceId)`; `acquisition` is what `getUserMedia` answers. */
    method Start(deviceId: Option<string>, acquisition: Acquisition, slider: Option<real>,
                 ranges: seq<BinRange>, startTime: real, frame: Frame)
      requires Valid() && |ranges| == BarCount && WellFormed(ranges) && FrameFits(frame)
      modifies this
      ensures Valid()
      ensures Snapshot() == StartSpec(old(Snapshot()), sinkSupported, deviceId, acquisition, slider, ranges,
                                      startTime, frame, math)
    {
      StartKeepsConsistent(Snapshot(), sinkSupported, deviceId, acquisition, slider, ranges, startTime, frame, math);
      if isRunning {
        return;
      }
      if acquisition.Refused? {
        Stop();
        return;
      }
      CreateNodes(slider);
      ConnectNodes();
      PrepareDrawing(deviceId, ranges, startTime);
      SetMonitoringEnabled(true);
      var _ := Render(frame);
    }

    /** The nodes `start` creates once `getUserMedia` resolves. */
    method CreateNodes(slider: Option<real>)
      modifies this
      ensures barPeaks == old(barPeaks)
      ensures Snapshot() == AddNodes(old(Snapshot()), slider)
    {
      ghost var st := Snapshot();
      var n := nextNode;
      mediaStream := Some(n);
      audioContext := Some(n + 1);
      mediaSourceNode := Some(n + 2);
      analyserNode := Some(n + 3);
      monitorGainNode := Some(GainNode(n + 4, GainSetting(slider)));
      nextNode := n + 5;
      assert barPeaks[..] == st.barPeaks;
      ghost var now := Snapshot();
      assert now == AddNodes(st, slider);
    }

    /** The connections `start` makes, and the hidden audio element for `setSinkId` routing. */
    method ConnectNodes()
      modifies this
      ensures barPeaks == old(barPeaks)
      ensures Snapshot() == Connect(old(Snapshot()), sinkSupported)
    {
      edges := LaunchEdges(sinkSupported);
      if sinkSupported && htmlAudio.None? {
        htmlAudio := Some(AudioElement(false, false, None));
      }
    }

    /** The buffers and clock of the drawing closure, then `isRunning = true`. */
    method PrepareDrawing(deviceId: Option<string>, ranges: seq<BinRange>, startTime: real)
      modifies this
      ensures fresh(barPeaks)
      ensures Snapshot() == OpenDrawing(old(Snapshot()), deviceId, ranges, startTime)
    {
      ghost var st := Snapshot();
      barPeaks := new Db[BarCount](_ => NegInf);
      assert barPeaks[..] == Unheld();
      this.ranges := ranges;
      lastFrameTime := startTime;
      peakHold := NegInf;
      deviceIdInUse := Some(DeviceIdInUse(deviceId));
      isRunning := true;
      assert barPeaks[..] == Unheld();
      ghost var now := Snapshot();
      assert now == OpenDrawing(st, deviceId, ranges, startTime);
    }

    /** The input selector's `change` handler. */
    method ChangeDevice(selected: string, acquisition: Acquisition, slider: Option<real>,
                        ranges: seq<BinRange>, startTime: real, frame: Frame)
      requires Valid() && |ranges| == BarCount && WellFormed(ranges) && FrameFits(frame)
      modifies this
      ensures Valid()
      ensures Snapshot() == ChangeDeviceSpec(old(Snapshot()), sinkSupported, selected, acquisition, slider,
                                             ranges, startTime, frame, math)
    {
      if isRunning {
        var chosen := Chosen(selected);
        Stop();
        Start(chosen, acquisition, slider, ranges, startTime, frame);
      }
    }
  }
}
