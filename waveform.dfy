/**
 * The legacy single-threshold detector of `useWaveformVisualizer`: an
 * `isSpeaking` flag and at most one pending silence timeout. Frames, the
 * firing of a timeout and the effect's cleanup are explicit inputs; the
 * browser's queue of pending timeouts is the set `pending`.
 */
module Waveform {
  import opened Wrappers
  import opened ExtNum
  import Signal

  /** The `thresholds` prop; only `speakingThreshold` takes part in the decision. */
  datatype Thresholds = Thresholds(speakingThreshold: real, silenceThreshold: real)

  const DefaultThresholds := Thresholds(25.0, 15.0)

  datatype Event =
    | AudioLevel(level: Num)   // onAudioLevelUpdate, when provided
    | SpeakingDetected         // onSpeakingDetected
    | SilenceDetected          // onSilenceDetected

  /** The refs, and the browser's timeout bookkeeping. */
  datatype Legacy = Legacy(
    isSpeaking: bool,            // isSpeakingRef
    silenceTimer: Option<nat>,   // silenceTimerRef
    pending: set<nat>,           // ids of timeouts scheduled and not yet run or cleared
    nextId: nat)                 // the id `setTimeout` hands out next

  const Initial := Legacy(false, None, {}, 1)

  // ---------------------------------------------------------------------------
  // Loudness of one frame

  /** A time-domain sample centred on 128, scaled to [-1, 1). */
  function Centre(b: Signal.Byte): real { (b as real - 128.0) / 128.0 }

  /**
   * `calculateRMS` of the visualiser. `root` stands for `Math.sqrt` and is not
   * modelled; an empty buffer gives NaN, which `Math.max` passes on.
   */
  function Level(data: seq<Signal.Byte>, root: real -> real): (r: Num)
    ensures r == NaN <==> |data| == 0
    ensures |data| > 0 ==>
      var scaled := (root(Signal.SquareSum(data, Centre) / |data| as real) - 0.001) * 100.0;
      r.Fin? && r.v >= 0.0 && r.v >= scaled && (r.v == 0.0 || r.v == scaled)
  {
    if |data| == 0 then NaN
    else
      var scaled := (root(Signal.SquareSum(data, Centre) / |data| as real) - 0.001) * 100.0;
      Fin(if scaled > 0.0 then scaled else 0.0)
  }

  /** `calculateRMS`: the loop over the buffer, then the floor and the scaling. */
  method CalculateRms(data: seq<Signal.Byte>, root: real -> real) returns (r: Num)
    ensures r == Level(data, root)
  {
    var sumSquares := Signal.SumSquares(data, Centre);
    if |data| == 0 {
      return NaN;
    }
    var rms := root(sumSquares / |data| as real);
    var scaled := (rms - 0.001) * 100.0;
    r := Fin(if scaled > 0.0 then scaled else 0.0);
  }

  // ---------------------------------------------------------------------------
  // The decision

  /** The per-frame decision after `onAudioLevelUpdate`. */
  function OnFrame(w: Legacy, thresholds: Thresholds, level: Num): (Legacy, seq<Event>)
  {
    if Gt(level, thresholds.speakingThreshold) then
      var pending := if w.silenceTimer.Some? then w.pending - {w.silenceTimer.value} else w.pending;
      (w.(isSpeaking := true, silenceTimer := None, pending := pending),
       if w.isSpeaking then [AudioLevel(level)] else [AudioLevel(level), SpeakingDetected])
    else if w.isSpeaking && w.silenceTimer.None? then
      (w.(silenceTimer := Some(w.nextId), pending := w.pending + {w.nextId}, nextId := w.nextId + 1),
       [AudioLevel(level)])
    else (w, [AudioLevel(level)])
  }

  /** The timeout's callback; the browser runs only timeouts still pending. */
  function OnTimer(w: Legacy, id: nat): (Legacy, seq<Event>)
  {
    if id in w.pending then
      (w.(isSpeaking := false, silenceTimer := None, pending := w.pending - {id}), [SilenceDetected])
    else (w, [])
  }

  /** The effect's cleanup: clear the pending timeout, keep `isSpeaking`. */
  function Cleanup(w: Legacy): Legacy
  {
    match w.silenceTimer
    case None => w
    case Some(id) => w.(silenceTimer := None, pending := w.pending - {id})
  }

  datatype Input =
    | Frame(thresholds: Thresholds, level: Num)
    | TimerFired(id: nat)
    | EffectCleanup   // the effect's cleanup: on unmount, and before every re-run when a dependency changes

  function Step(w: Legacy, input: Input): (Legacy, seq<Event>)
  {
    match input
    case Frame(thresholds, level) => OnFrame(w, thresholds, level)
    case TimerFired(id) => OnTimer(w, id)
    case EffectCleanup => (Cleanup(w), [])
  }

  function Run(w: Legacy, inputs: seq<Input>): (Legacy, seq<Event>)
  {
    if inputs == [] then (w, [])
    else
      var (mid, before) := Run(w, inputs[..|inputs| - 1]);
      var (next, events) := Step(mid, inputs[|inputs| - 1]);
      (next, before + events)
  }

  /** At most one timeout is pending, it is the one in the ref, and it implies `isSpeaking`. */
  predicate Valid(w: Legacy)
  {
    && (w.silenceTimer.None? ==> w.pending == {})
    && (w.silenceTimer.Some? ==>
          w.pending == {w.silenceTimer.value} && w.isSpeaking && w.silenceTimer.value < w.nextId)
  }

  // ---------------------------------------------------------------------------
  // Properties of one input

  /**
   * A loud frame marks speech and cancels a pending timeout; `onSpeakingDetected`
   * fires exactly when speech was not already marked.
   */
  lemma LoudFrame(w: Legacy, thresholds: Thresholds, level: Num)
    requires Gt(level, thresholds.speakingThreshold)
    ensures var (next, events) := OnFrame(w, thresholds, level);
      && next.isSpeaking && next.silenceTimer == None
      && (w.silenceTimer.Some? ==> next.pending == w.pending - {w.silenceTimer.value})
      && (SpeakingDetected in events <==> !w.isSpeaking)
      && SilenceDetected !in events
  {
  }

  /**
   * A quiet frame (at or below the speaking threshold, or NaN) starts one timeout
   * when speaking with none pending, and otherwise changes nothing; it never
   * fires a detection callback.
   */
  lemma QuietFrame(w: Legacy, thresholds: Thresholds, level: Num)
    requires !Gt(level, thresholds.speakingThreshold)
    ensures var (next, events) := OnFrame(w, thresholds, level);
      && events == [AudioLevel(level)]
      && next.isSpeaking == w.isSpeaking
      && (w.isSpeaking && w.silenceTimer.None? ==>
            next.silenceTimer == Some(w.nextId) && next.pending == w.pending + {w.nextId}
            && next.nextId == w.nextId + 1
            && (Valid(w) ==> next.pending == {w.nextId}))
      && (!(w.isSpeaking && w.silenceTimer.None?) ==> next == w)
  {
  }

  /** `onAudioLevelUpdate` receives the level first, whatever else happens. */
  lemma LevelReportedFirst(w: Legacy, thresholds: Thresholds, level: Num)
    ensures var events := OnFrame(w, thresholds, level).1;
      |events| > 0 && events[0] == AudioLevel(level)
      && forall i :: 0 < i < |events| ==> !events[i].AudioLevel?
  {
  }

  /** The silence threshold has no influence on the decision. */
  lemma SilenceThresholdIgnored(w: Legacy, a: Thresholds, b: Thresholds, level: Num)
    requires a.speakingThreshold == b.speakingThreshold
    ensures OnFrame(w, a, level) == OnFrame(w, b, level)
  {
  }

  /**
   * Under the default thresholds, a level in the band drawn between the
   * silence line (15) and the speaking line (25) is quiet: while speaking with
   * no timeout pending, it starts one.
   */
  lemma DefaultBandIsQuiet(w: Legacy, level: real)
    requires DefaultThresholds.silenceThreshold < level <= DefaultThresholds.speakingThreshold
    requires w.isSpeaking && w.silenceTimer.None?
    ensures var (next, events) := OnFrame(w, DefaultThresholds, Fin(level));
      && next.isSpeaking && next.silenceTimer == Some(w.nextId)
      && events == [AudioLevel(Fin(level))]
  {
  }

  /** A pending timeout firing ends speech and clears the ref and the queue. */
  lemma TimerEndsSpeech(w: Legacy, id: nat)
    requires Valid(w) && w.silenceTimer == Some(id)
    ensures OnTimer(w, id) == (w.(isSpeaking := false, silenceTimer := None, pending := {}), [SilenceDetected])
  {
    assert w.pending - {id} == {};
  }

  /** Cleanup leaves no timeout pending and `isSpeaking` as it was. */
  lemma CleanupClears(w: Legacy)
    requires Valid(w)
    ensures Cleanup(w).pending == {} && Cleanup(w).silenceTimer == None
    ensures Cleanup(w).isSpeaking == w.isSpeaking
  {
  }

  lemma StepKeepsValid(w: Legacy, input: Input)
    requires Valid(w)
    ensures Valid(Step(w, input).0)
  {
  }

  // ---------------------------------------------------------------------------
  // Runs

  /** The detection callbacks among some events. */
  function Detections(events: seq<Event>): seq<Event>
  {
    if events == [] then []
    else
      var last := events[|events| - 1];
      Detections(events[..|events| - 1]) + (if last.AudioLevel? then [] else [last])
  }

  lemma {:induction false} DetectionsDistribute(a: seq<Event>, b: seq<Event>)
    ensures Detections(a + b) == Detections(a) + Detections(b)
  {
    if b != [] {
      var b' := b[..|b| - 1];
      assert (a + b)[..|a + b| - 1] == a + b';
      assert (a + b)[|a + b| - 1] == b[|b| - 1];
      DetectionsDistribute(a, b');
    } else {
      assert a + b == a;
    }
  }

  /** The detection callback of one input: one exactly when `isSpeaking` flips. */
  lemma StepDetections(w: Legacy, input: Input)
    requires Valid(w)
    ensures var (next, events) := Step(w, input);
      Detections(events) ==
        if !w.isSpeaking && next.isSpeaking then [SpeakingDetected]
        else if w.isSpeaking && !next.isSpeaking then [SilenceDetected]
        else []
  {
    var (next, events) := Step(w, input);
    match input
    case Frame(thresholds, level) =>
      var head := [AudioLevel(level)];
      assert head[..0] == [];
      assert Detections(head) == [];
      var tail := events[1..];
      assert events == head + tail;
      DetectionsDistribute(head, tail);
      if tail != [] {
        assert tail == [SpeakingDetected];
        assert tail[..0] == [];
      }
    case TimerFired(id) =>
      if id in w.pending {
        assert events == [SilenceDetected] && events[..0] == [];
      }
    case EffectCleanup =>
  }

  /** Detection callbacks that strictly alternate, the first a speaking one unless speech is marked. */
  predicate Alternates(ds: seq<Event>, speaking: bool)
  {
    forall i :: 0 <= i < |ds| ==>
      ds[i] == (if (i % 2 == 0) != speaking then SpeakingDetected else SilenceDetected)
  }

  /** The detection callback of a step keeps the alternation and its parity. */
  lemma AlternatesStep(ds: seq<Event>, speaking: bool, before: bool, after: bool)
    requires Alternates(ds, speaking)
    requires before <==> (speaking != (|ds| % 2 == 1))
    ensures var d := if !before && after then [SpeakingDetected]
                     else if before && !after then [SilenceDetected] else [];
      && Alternates(ds + d, speaking)
      && (after <==> (speaking != (|ds + d| % 2 == 1)))
  {
    var d := if !before && after then [SpeakingDetected]
             else if before && !after then [SilenceDetected] else [];
    if d != [] {
      assert (ds + d)[|ds|] == d[0];
    }
  }

  /**
   * Over any inputs from a valid state, the invariant holds, the detection
   * callbacks alternate, and their parity says whether speech is marked.
   */
  lemma {:induction false} RunAlternates(w: Legacy, inputs: seq<Input>)
    requires Valid(w)
    ensures var (next, events) := Run(w, inputs);
      && Valid(next)
      && Alternates(Detections(events), w.isSpeaking)
      && (next.isSpeaking <==> (w.isSpeaking != (|Detections(events)| % 2 == 1)))
  {
    if inputs != [] {
      var rest := inputs[..|inputs| - 1];
      var input := inputs[|inputs| - 1];
      RunAlternates(w, rest);
      var (mid, before) := Run(w, rest);
      var (next, events) := Step(mid, input);
      StepKeepsValid(mid, input);
      StepDetections(mid, input);
      DetectionsDistribute(before, events);
      AlternatesStep(Detections(before), w.isSpeaking, mid.isSpeaking, next.isSpeaking);
    }
  }

  /** From a fresh hook, the first detection callback is `onSpeakingDetected`. */
  lemma RunFromInitial(inputs: seq<Input>)
    ensures var (next, events) := Run(Initial, inputs);
      && Valid(next)
      && Alternates(Detections(events), false)
      && (|Detections(events)| > 0 ==> Detections(events)[0] == SpeakingDetected)
      && (next.isSpeaking <==> |Detections(events)| % 2 == 1)
  {
    RunAlternates(Initial, inputs);
  }

  // ---------------------------------------------------------------------------
  // The hook instance

  class WaveformDetector {
    var isSpeaking: bool
    var silenceTimer: Option<nat>
    var pending: set<nat>
    var nextId: nat

    function Refs(): Legacy
      reads this
    {
      Legacy(isSpeaking, silenceTimer, pending, nextId)
    }

    constructor ()
      ensures Refs() == Initial
    {
      isSpeaking := false;
      silenceTimer := None;
      pending := {};
      nextId := 1;
    }

    /** `window.setTimeout`: schedules a timeout and returns its id. */
    method SetTimeout() returns (id: nat)
      modifies this
      ensures id == old(nextId) && pending == old(pending) + {id} && nextId == id + 1
      ensures isSpeaking == old(isSpeaking) && silenceTimer == old(silenceTimer)
    {
      id := nextId;
      pending := pending + {id};
      nextId := nextId + 1;
    }

    /** `clearTimeout`. */
    method ClearTimeout(id: nat)
      modifies this
      ensures pending == old(pending) - {id}
      ensures isSpeaking == old(isSpeaking) && silenceTimer == old(silenceTimer) && nextId == old(nextId)
    {
      pending := pending - {id};
    }

    /** One `drawWaveform` call, past the drawing, for the buffer it reads. */
    method DrawFrame(data: seq<Signal.Byte>, root: real -> real, thresholds: Thresholds)
      returns (events: seq<Event>)
      modifies this
      ensures (Refs(), events) == OnFrame(old(Refs()), thresholds, Level(data, root))
    {
      var rms := CalculateRms(data, root);
      events := [AudioLevel(rms)];
      if Gt(rms, thresholds.speakingThreshold) {
        if !isSpeaking {
          isSpeaking := true;
          events := events + [SpeakingDetected];
        }
        if silenceTimer != None {
          ClearTimeout(silenceTimer.value);
          silenceTimer := None;
        }
        assert events == OnFrame(old(Refs()), thresholds, rms).1;
        assert Refs() == OnFrame(old(Refs()), thresholds, rms).0;
      } else if isSpeaking && silenceTimer == None {
        var id := SetTimeout();
        silenceTimer := Some(id);
        assert Refs() == OnFrame(old(Refs()), thresholds, rms).0;
      }
    }

    /** The browser runs timeout `id`, if it is still pending. */
    method FireTimer(id: nat) returns (events: seq<Event>)
      modifies this
      ensures (Refs(), events) == OnTimer(old(Refs()), id)
    {
      if id !in pending {
        return [];
      }
      pending := pending - {id};
      isSpeaking := false;
      events := [SilenceDetected];
      silenceTimer := None;
    }

    /** The effect's cleanup. */
    method RunCleanup()
      modifies this
      ensures Refs() == Cleanup(old(Refs()))
    {
      if silenceTimer != None {
        ClearTimeout(silenceTimer.value);
        silenceTimer := None;
      }
    }
  }
}
