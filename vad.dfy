/**
 * The decibel voice-activity detector of the `useVAD` hook: a four-state
 * hysteresis machine fed one analyser frame per animation frame. The refs of
 * one hook instance are the fields of `VadEngine`; the functions `Transition`
 * and `Frame` say what one call of `updateVADState` and of `processFrame` does
 * to them, and the lemmas state what follows for any sequence of frames.
 */
module Vad {
  import opened Wrappers
  import opened ExtNum
  import Signal

  /** The detection settings (thresholds in dB, durations in ms, a factor in [0, 1]). */
  datatype Settings = Settings(
    startThreshold: real,
    stopThreshold: real,
    minSpeechDuration: real,
    minSilenceDuration: real,
    smoothingFactor: real)

  /** The hook's default settings. */
  const DefaultSettings := Settings(-35.0, -45.0, 300.0, 500.0, 0.7)

  datatype VadState = Silent | Speaking | PendingSpeech | PendingSilence

  /** One callback invocation; a frame's events are listed in the order of the calls. */
  datatype Event =
    | StateChanged(to: VadState)   // onStateChange
    | SpeechStarted                // onSpeechStart
    | SpeechEnded                  // onSpeechEnd
    | VolumeUpdated(volume: Num)   // onVolumeUpdate

  /** The refs of one hook instance. */
  datatype Detector = Detector(
    state: VadState,            // stateRef
    volume: Num,                // volumeRef: the last raw loudness
    smoothed: Num,              // smoothedVolumeRef
    speechStart: Option<int>,   // speechStartTimeRef
    silenceStart: Option<int>)  // silenceStartTimeRef

  /** The refs of a fresh hook, and of one that has just been disabled. */
  const Reset := Detector(Silent, NegInf, NegInf, None, None)

  // ---------------------------------------------------------------------------
  // Loudness of one frame

  /** A frequency magnitude scaled to [0, 1]. */
  function Normalize(b: Signal.Byte): real { b as real / 255.0 }

  /** `Math.max(-100, Math.min(0, x))`. */
  function Clamp(x: real): real
  {
    if x > 0.0 then 0.0 else if x < -100.0 then -100.0 else x
  }

  /**
   * What `calculateVolumeDB` returns. `decibels(m)` stands for
   * `20 * log10(sqrt(m))` of a positive mean square `m`; it is not modelled.
   * An empty buffer divides 0 by 0, and the NaN passes through to the result.
   */
  function VolumeDb(data: seq<Signal.Byte>, decibels: real -> real): (r: Num)
    ensures r == NaN <==> |data| == 0
    ensures r == NegInf <==> |data| > 0 && forall i :: 0 <= i < |data| ==> data[i] == 0
    ensures r.Fin? ==> -100.0 <= r.v <= 0.0
    ensures r != PosInf
  {
    if |data| == 0 then NaN
    else
      Signal.SquareSumZero(data, Normalize);
      assert forall i :: 0 <= i < |data| ==> (Normalize(data[i]) == 0.0 <==> data[i] == 0);
      var meanSquare := Signal.SquareSum(data, Normalize) / |data| as real;
      if meanSquare == 0.0 then NegInf else Fin(Clamp(decibels(meanSquare)))
  }

  /** `calculateVolumeDB`: the loop over the buffer, then the sentinel and the clamp. */
  method CalculateVolumeDb(frequencyData: seq<Signal.Byte>, decibels: real -> real) returns (r: Num)
    ensures r == VolumeDb(frequencyData, decibels)
  {
    var sum := Signal.SumSquares(frequencyData, Normalize);
    if |frequencyData| == 0 {
      return NaN;
    }
    var meanSquare := sum / |frequencyData| as real;
    if meanSquare == 0.0 {
      return NegInf;
    }
    r := Fin(Clamp(decibels(meanSquare)));
  }

  /** A raw loudness that `calculateVolumeDB` can return for a non-empty buffer. */
  predicate InRange(x: Num)
  {
    x == NegInf || (x.Fin? && -100.0 <= x.v <= 0.0)
  }

  // ---------------------------------------------------------------------------
  // Smoothing

  /** `processFrame`'s smoothing: bootstrap from the −∞ sentinel, else an exponential average. */
  function Smooth(smoothed: Num, raw: Num, factor: real): Num
  {
    if smoothed == NegInf then raw
    else Add(Scale(smoothed, factor), Scale(raw, 1.0 - factor))
  }

  /** For finite values and a factor in [0, 1], the average lies between the old value and the raw one. */
  lemma SmoothBetween(a: real, b: real, factor: real)
    requires 0.0 <= factor <= 1.0
    ensures Smooth(Fin(a), Fin(b), factor).Fin?
    ensures var c := Smooth(Fin(a), Fin(b), factor).v;
      (a <= b ==> a <= c <= b) && (b <= a ==> b <= c <= a)
  {
    var c := a * factor + b * (1.0 - factor);
    assert c - a == (b - a) * (1.0 - factor);
    assert b - c == (b - a) * factor;
    if a <= b {
      NonNegativeProduct(b - a, 1.0 - factor);
      NonNegativeProduct(b - a, factor);
    } else {
      NonNegativeProduct(a - b, 1.0 - factor);
      NonNegativeProduct(a - b, factor);
    }
  }

  lemma NonNegativeProduct(x: real, y: real)
    requires x >= 0.0 && y >= 0.0
    ensures x * y >= 0.0
  {
  }

  /** The smoothed value stays a possible raw loudness when the factor is in [0, 1). */
  lemma SmoothInRange(smoothed: Num, raw: Num, factor: real)
    requires InRange(smoothed) && InRange(raw)
    requires 0.0 <= factor < 1.0
    ensures InRange(Smooth(smoothed, raw, factor))
  {
    if smoothed != NegInf && raw != NegInf {
      SmoothBetween(smoothed.v, raw.v, factor);
    }
  }

  /**
   * A frame of digital silence after a finite value: with a factor below 1 the
   * average falls back to the sentinel, so the next frame bootstraps afresh;
   * with a factor of 1 it becomes NaN (−∞ times 0), and NaN is never replaced.
   */
  lemma SilenceAfterSignal(a: real, factor: real, next: Num)
    ensures factor < 1.0 ==> Smooth(Fin(a), NegInf, factor) == NegInf
    ensures factor < 1.0 ==> Smooth(Smooth(Fin(a), NegInf, factor), next, factor) == next
    ensures factor == 1.0 ==> Smooth(Fin(a), NegInf, factor) == NaN
    ensures factor == 1.0 ==> Smooth(NaN, next, factor) == NaN
  {
  }

  // ---------------------------------------------------------------------------
  // The state machine

  /**
   * `timestamp - (start || timestamp)`: an absent start, and a start of 0
   * (which JavaScript also reads as false), count as no time elapsed.
   */
  function Elapsed(start: Option<int>, now: int): int
  {
    match start
    case None => 0
    case Some(t) => if t == 0 then 0 else now - t
  }

  /** `updateVADState`: the new refs and the callbacks fired, in order. */
  function Transition(d: Detector, s: Settings, volume: Num, now: int): (Detector, seq<Event>)
  {
    match d.state
    case Silent =>
      if Gt(volume, s.startThreshold) then
        (d.(state := PendingSpeech, speechStart := Some(now)), [StateChanged(PendingSpeech)])
      else (d, [])
    case PendingSpeech =>
      if Gt(volume, s.startThreshold) then
        if Elapsed(d.speechStart, now) as real >= s.minSpeechDuration then
          (d.(state := Speaking), [StateChanged(Speaking), SpeechStarted])
        else (d, [])
      else (d.(state := Silent, speechStart := None), [StateChanged(Silent)])
    case Speaking =>
      if Le(volume, s.stopThreshold) then
        (d.(state := PendingSilence, silenceStart := Some(now)), [StateChanged(PendingSilence)])
      else (d, [])
    case PendingSilence =>
      if Gt(volume, s.stopThreshold) then
        (d.(state := Speaking, silenceStart := None), [StateChanged(Speaking)])
      else if Elapsed(d.silenceStart, now) as real >= s.minSilenceDuration then
        (d.(state := Silent, silenceStart := None), [StateChanged(Silent), SpeechEnded])
      else (d, [])
  }

  /** `processFrame`: smoothing, then the state update on the new value, then `onVolumeUpdate`. */
  function Frame(d: Detector, s: Settings, raw: Num, now: int): (Detector, seq<Event>)
  {
    var smoothed := Smooth(d.smoothed, raw, s.smoothingFactor);
    var (next, events) := Transition(d.(volume := raw, smoothed := smoothed), s, smoothed, now);
    (next, events + [VolumeUpdated(smoothed)])
  }

  /** The edges of the transition table. */
  predicate Edge(from: VadState, to: VadState)
  {
    || (from == Silent && to == PendingSpeech)
    || (from == PendingSpeech && (to == Speaking || to == Silent))
    || (from == Speaking && to == PendingSilence)
    || (from == PendingSilence && (to == Speaking || to == Silent))
  }

  /** Between an `onSpeechStart` and the next `onSpeechEnd`. */
  predicate InSpeech(st: VadState) { st == Speaking || st == PendingSilence }

  /** The speech callbacks an edge fires: one exactly when it crosses into or out of speech. */
  function SpeechCallbacks(from: VadState, to: VadState): seq<Event>
  {
    if !InSpeech(from) && InSpeech(to) then [SpeechStarted]
    else if InSpeech(from) && !InSpeech(to) then [SpeechEnded]
    else []
  }

  /**
   * One call moves along at most one edge; staying put changes no ref and fires
   * nothing; moving fires `onStateChange` with the new state first, then the
   * speech callback of the edge, if any.
   */
  lemma TransitionFollowsTable(d: Detector, s: Settings, volume: Num, now: int)
    ensures var (next, events) := Transition(d, s, volume, now);
      && (next.state == d.state || Edge(d.state, next.state))
      && (next.state == d.state ==> next == d && events == [])
      && (next.state != d.state ==>
            events == [StateChanged(next.state)] + SpeechCallbacks(d.state, next.state))
      && next.volume == d.volume && next.smoothed == d.smoothed
  {
  }

  /** The `silent` row: only a volume above the start threshold leaves, and it starts the speech timer. */
  lemma SilentRow(d: Detector, s: Settings, volume: Num, now: int)
    requires d.state == Silent
    ensures var (next, events) := Transition(d, s, volume, now);
      && (next.state == PendingSpeech <==> Gt(volume, s.startThreshold))
      && (next.state == PendingSpeech ==> next.speechStart == Some(now) && events == [StateChanged(PendingSpeech)])
      && (next.state == Silent ==> next == d && events == [])
  {
  }

  /**
   * The `pending_speech` row: a volume at or below the start threshold drops the
   * candidate; speech is confirmed only above it and after `minSpeechDuration`.
   */
  lemma PendingSpeechRow(d: Detector, s: Settings, volume: Num, now: int)
    requires d.state == PendingSpeech
    ensures var (next, events) := Transition(d, s, volume, now);
      && (next.state == Silent <==> !Gt(volume, s.startThreshold))
      && (next.state == Silent ==> next.speechStart == None && SpeechStarted !in events)
      && (next.state == Speaking <==>
            Gt(volume, s.startThreshold) && Elapsed(d.speechStart, now) as real >= s.minSpeechDuration)
      && (next.state == Speaking ==> next.speechStart == d.speechStart && events == [StateChanged(Speaking), SpeechStarted])
      && (next.state == PendingSpeech ==> next == d && events == [])
  {
  }

  /** The `speaking` row: only a volume at or below the stop threshold leaves, and it starts the silence timer. */
  lemma SpeakingRow(d: Detector, s: Settings, volume: Num, now: int)
    requires d.state == Speaking
    ensures var (next, events) := Transition(d, s, volume, now);
      && (next.state == PendingSilence <==> Le(volume, s.stopThreshold))
      && (next.state == PendingSilence ==> next.silenceStart == Some(now) && events == [StateChanged(PendingSilence)])
      && (next.state == Speaking ==> next == d && events == [])
  {
  }

  /**
   * The `pending_silence` row: a volume above the stop threshold resumes speech
   * without `onSpeechEnd`; otherwise speech ends once `minSilenceDuration` has passed.
   */
  lemma PendingSilenceRow(d: Detector, s: Settings, volume: Num, now: int)
    requires d.state == PendingSilence
    ensures var (next, events) := Transition(d, s, volume, now);
      && (next.state == Speaking <==> Gt(volume, s.stopThreshold))
      && (next.state == Speaking ==> next.silenceStart == None && events == [StateChanged(Speaking)])
      && (next.state == Silent <==>
            !Gt(volume, s.stopThreshold) && Elapsed(d.silenceStart, now) as real >= s.minSilenceDuration)
      && (next.state == Silent ==>
            next.silenceStart == None && next.speechStart == d.speechStart
            && events == [StateChanged(Silent), SpeechEnded])
      && (next.state == PendingSilence ==> next == d && events == [])
  {
  }

  /**
   * The timer refs: the silence start is set exactly in `pending_silence`, and
   * the speech start is set in every state reached through `pending_speech`
   * (it is not cleared on entering `speaking`, nor when speech ends).
   */
  predicate TimersConsistent(d: Detector)
  {
    && (d.silenceStart.Some? <==> d.state == PendingSilence)
    && (d.state != Silent ==> d.speechStart.Some?)
  }

  lemma TransitionKeepsTimers(d: Detector, s: Settings, volume: Num, now: int)
    requires TimersConsistent(d)
    ensures TimersConsistent(Transition(d, s, volume, now).0)
  {
  }

  /**
   * One whole frame: the table, decided on the new smoothed value rather than
   * the raw one; the timers; and `onVolumeUpdate` last with that value.
   */
  lemma FrameShape(d: Detector, s: Settings, raw: Num, now: int)
    ensures var (next, events) := Frame(d, s, raw, now);
      && next.volume == raw
      && next.smoothed == Smooth(d.smoothed, raw, s.smoothingFactor)
      && (next.state == d.state || Edge(d.state, next.state))
      && (next.state == d.state ==> events == [VolumeUpdated(next.smoothed)])
      && (next.state != d.state ==>
            events == [StateChanged(next.state)] + SpeechCallbacks(d.state, next.state) + [VolumeUpdated(next.smoothed)])
      && (TimersConsistent(d) ==> TimersConsistent(next))
      && (d.state == Silent ==> (next.state == PendingSpeech <==> Gt(next.smoothed, s.startThreshold)))
      && (d.state == PendingSpeech ==> (next.state == Silent <==> !Gt(next.smoothed, s.startThreshold)))
      && (d.state == Speaking ==> (next.state == PendingSilence <==> Le(next.smoothed, s.stopThreshold)))
      && (d.state == PendingSilence ==> (next.state == Speaking <==> Gt(next.smoothed, s.stopThreshold)))
  {
    var smoothed := Smooth(d.smoothed, raw, s.smoothingFactor);
    var d1 := d.(volume := raw, smoothed := smoothed);
    TransitionFollowsTable(d1, s, smoothed, now);
    match d.state {
      case Silent => SilentRow(d1, s, smoothed, now);
      case PendingSpeech => PendingSpeechRow(d1, s, smoothed, now);
      case Speaking => SpeakingRow(d1, s, smoothed, now);
      case PendingSilence => PendingSilenceRow(d1, s, smoothed, now);
    }
    if TimersConsistent(d) {
      TransitionKeepsTimers(d1, s, smoothed, now);
    }
  }

  // ---------------------------------------------------------------------------
  // Runs of frames

  /** One scheduled frame: the settings in force, the raw loudness and `Date.now()`. */
  datatype Tick = Tick(settings: Settings, raw: Num, now: int)

  /** The refs after a sequence of frames, and every callback fired, in order. */
  function Run(d: Detector, ticks: seq<Tick>): (Detector, seq<Event>)
  {
    if ticks == [] then (d, [])
    else
      var (mid, before) := Run(d, ticks[..|ticks| - 1]);
      var t := ticks[|ticks| - 1];
      var (next, events) := Frame(mid, t.settings, t.raw, t.now);
      (next, before + events)
  }

  /** The `onSpeechStart`/`onSpeechEnd` calls among some events. */
  function SpeechEvents(events: seq<Event>): seq<Event>
  {
    if events == [] then []
    else
      var last := events[|events| - 1];
      SpeechEvents(events[..|events| - 1]) + (if last == SpeechStarted || last == SpeechEnded then [last] else [])
  }

  /** The states announced by `onStateChange` among some events. */
  function StateChanges(events: seq<Event>): seq<VadState>
  {
    if events == [] then []
    else
      var last := events[|events| - 1];
      StateChanges(events[..|events| - 1]) + (if last.StateChanged? then [last.to] else [])
  }

  lemma {:induction false} FiltersDistribute(a: seq<Event>, b: seq<Event>)
    ensures SpeechEvents(a + b) == SpeechEvents(a) + SpeechEvents(b)
    ensures StateChanges(a + b) == StateChanges(a) + StateChanges(b)
  {
    if b != [] {
      var b' := b[..|b| - 1];
      assert (a + b)[..|a + b| - 1] == a + b';
      assert (a + b)[|a + b| - 1] == b[|b| - 1];
      FiltersDistribute(a, b');
    } else {
      assert a + b == a;
    }
  }

  /** The callbacks of one frame, filtered: the state change and speech callback of its edge, if any. */
  lemma FrameFiltered(d: Detector, s: Settings, raw: Num, now: int)
    ensures var (next, events) := Frame(d, s, raw, now);
      && SpeechEvents(events) == SpeechCallbacks(d.state, next.state)
      && StateChanges(events) == (if next.state == d.state then [] else [next.state])
  {
    var (next, events) := Frame(d, s, raw, now);
    FrameShape(d, s, raw, now);
    var volumeUpdate := [VolumeUpdated(next.smoothed)];
    SingletonFiltered(VolumeUpdated(next.smoothed));
    if next.state != d.state {
      var change := [StateChanged(next.state)];
      var speech := SpeechCallbacks(d.state, next.state);
      SingletonFiltered(StateChanged(next.state));
      if speech != [] {
        SingletonFiltered(speech[0]);
        assert speech == [speech[0]];
      }
      FiltersDistribute(change, speech);
      FiltersDistribute(change + speech, volumeUpdate);
    } else {
      assert events == volumeUpdate;
    }
  }

  lemma SingletonFiltered(e: Event)
    ensures SpeechEvents([e]) == if e == SpeechStarted || e == SpeechEnded then [e] else []
    ensures StateChanges([e]) == if e.StateChanged? then [e.to] else []
  {
    assert [e][..0] == [];
  }

  /** The callback expected at position `i` of an alternation of speech callbacks. */
  function Expected(i: nat, inSpeech: bool): Event
  {
    if (i % 2 == 0) != inSpeech then SpeechStarted else SpeechEnded
  }

  /** Speech callbacks that strictly alternate, the first being a start unless speech is under way. */
  predicate Alternates(es: seq<Event>, inSpeech: bool)
  {
    forall i :: 0 <= i < |es| ==> es[i] == Expected(i, inSpeech)
  }

  /** Appending the speech callback of one more edge keeps the alternation and its parity. */
  lemma AlternatesStep(es: seq<Event>, inSpeech: bool, from: VadState, to: VadState)
    requires Alternates(es, inSpeech)
    requires InSpeech(from) <==> (inSpeech != (|es| % 2 == 1))
    ensures Alternates(es + SpeechCallbacks(from, to), inSpeech)
    ensures InSpeech(to) <==> (inSpeech != (|es + SpeechCallbacks(from, to)| % 2 == 1))
  {
    var cb := SpeechCallbacks(from, to);
    if cb != [] {
      assert (es + cb)[|es|] == cb[0] == Expected(|es|, inSpeech);
    }
  }

  /**
   * Over any frames, with any settings, `onSpeechStart` and `onSpeechEnd`
   * strictly alternate, and an odd number of them has fired exactly when the
   * detector has crossed between outside and inside speech.
   */
  lemma {:induction false} RunAlternates(d: Detector, ticks: seq<Tick>)
    ensures var (next, events) := Run(d, ticks);
      && Alternates(SpeechEvents(events), InSpeech(d.state))
      && (InSpeech(next.state) <==> (InSpeech(d.state) != (|SpeechEvents(events)| % 2 == 1)))
  {
    if ticks != [] {
      var rest := ticks[..|ticks| - 1];
      var t := ticks[|ticks| - 1];
      var (mid, before) := Run(d, rest);
      var (next, events) := Frame(mid, t.settings, t.raw, t.now);
      RunAlternates(d, rest);
      FrameFiltered(mid, t.settings, t.raw, t.now);
      FiltersDistribute(before, events);
      AlternatesStep(SpeechEvents(before), InSpeech(d.state), mid.state, next.state);
    }
  }

  /** From a silent detector, the first speech callback is a start. */
  lemma RunFromSilenceStartsWithStart(ticks: seq<Tick>)
    ensures var sp := SpeechEvents(Run(Reset, ticks).1);
      Alternates(sp, false) && (|sp| > 0 ==> sp[0] == SpeechStarted)
  {
    RunAlternates(Reset, ticks);
  }

  /** The announced states form a walk along table edges that ends in the current state. */
  predicate Walk(from: VadState, states: seq<VadState>, to: VadState)
  {
    && (forall i :: 0 < i < |states| ==> Edge(states[i - 1], states[i]))
    && (|states| > 0 ==> Edge(from, states[0]) && states[|states| - 1] == to)
    && (|states| == 0 ==> from == to)
  }

  /** Over any frames `onStateChange` fires once per state change, always along an edge of the table. */
  lemma {:induction false} RunWalksTable(d: Detector, ticks: seq<Tick>)
    ensures var (next, events) := Run(d, ticks);
      Walk(d.state, StateChanges(events), next.state)
  {
    if ticks != [] {
      var rest := ticks[..|ticks| - 1];
      var t := ticks[|ticks| - 1];
      var (mid, before) := Run(d, rest);
      var (next, events) := Frame(mid, t.settings, t.raw, t.now);
      RunWalksTable(d, rest);
      FrameFiltered(mid, t.settings, t.raw, t.now);
      FrameShape(mid, t.settings, t.raw, t.now);
      FiltersDistribute(before, events);
    }
  }

  /** The timer refs stay consistent over any frames from a consistent state, such as `Reset`. */
  lemma {:induction false} RunKeepsTimers(d: Detector, ticks: seq<Tick>)
    requires TimersConsistent(d)
    ensures TimersConsistent(Run(d, ticks).0)
  {
    if ticks != [] {
      var rest := ticks[..|ticks| - 1];
      var t := ticks[|ticks| - 1];
      RunKeepsTimers(d, rest);
      FrameShape(Run(d, rest).0, t.settings, t.raw, t.now);
    }
  }

  /** Raw loudness from non-empty buffers under factors in [0, 1): the smoothed value is never NaN or +∞. */
  predicate WellFed(ticks: seq<Tick>)
  {
    forall i :: 0 <= i < |ticks| ==>
      InRange(ticks[i].raw) && 0.0 <= ticks[i].settings.smoothingFactor < 1.0
  }

  lemma {:induction false} RunSmoothedInRange(d: Detector, ticks: seq<Tick>)
    requires InRange(d.smoothed)
    requires WellFed(ticks)
    ensures InRange(Run(d, ticks).0.smoothed)
  {
    if ticks != [] {
      var rest := ticks[..|ticks| - 1];
      var t := ticks[|ticks| - 1];
      assert WellFed(rest) by {
        forall i | 0 <= i < |rest| ensures InRange(rest[i].raw) && 0.0 <= rest[i].settings.smoothingFactor < 1.0 {
          assert rest[i] == ticks[i];
        }
      }
      RunSmoothedInRange(d, rest);
      var mid := Run(d, rest).0;
      SmoothInRange(mid.smoothed, t.raw, t.settings.smoothingFactor);
      FrameShape(mid, t.settings, t.raw, t.now);
    }
  }

  /**
   * A hook left at its default settings (factor 0.7) keeps the smoothed value
   * in range over any frames from non-empty buffers; the default stop
   * threshold lies below the start threshold.
   */
  lemma {:induction false} DefaultsStayInRange(d: Detector, ticks: seq<Tick>)
    requires InRange(d.smoothed)
    requires forall i :: 0 <= i < |ticks| ==> ticks[i].settings == DefaultSettings && InRange(ticks[i].raw)
    ensures InRange(Run(d, ticks).0.smoothed)
    ensures DefaultSettings.stopThreshold < DefaultSettings.startThreshold
  {
    assert WellFed(ticks);
    RunSmoothedInRange(d, ticks);
  }

  /**
   * Once the smoothed value is NaN (a factor of 1 and one silent frame), a
   * detector in `speaking` never leaves it: NaN is neither above the stop
   * threshold nor at or below it, and it is never re-bootstrapped.
   */
  lemma {:induction false} RunStuckSpeaking(d: Detector, ticks: seq<Tick>)
    requires d.state == Speaking && d.smoothed == NaN
    ensures Run(d, ticks).0.state == Speaking
    ensures Run(d, ticks).0.smoothed == NaN
    ensures SpeechEvents(Run(d, ticks).1) == []
  {
    if ticks != [] {
      var rest := ticks[..|ticks| - 1];
      var t := ticks[|ticks| - 1];
      RunStuckSpeaking(d, rest);
      var (mid, before) := Run(d, rest);
      FrameFiltered(mid, t.settings, t.raw, t.now);
      FiltersDistribute(before, Frame(mid, t.settings, t.raw, t.now).1);
    }
  }

  // ---------------------------------------------------------------------------
  // The hook instance

  class VadEngine {
    var enabled: bool
    var state: VadState
    var volume: Num
    var smoothedVolume: Num
    var speechStartTime: Option<int>
    var silenceStartTime: Option<int>

    /** The refs as a value. */
    function Refs(): Detector
      reads this
    {
      Detector(state, volume, smoothedVolume, speechStartTime, silenceStartTime)
    }

    /** A hook mounted with the given `enabled` flag. */
    constructor (on: bool)
      ensures enabled == on && Refs() == Reset
    {
      enabled := on;
      state := Silent;
      volume := NegInf;
      smoothedVolume := NegInf;
      speechStartTime := None;
      silenceStartTime := None;
    }

    /** `updateVADState`. */
    method UpdateVadState(v: Num, now: int, settings: Settings) returns (events: seq<Event>)
      modifies this
      ensures enabled == old(enabled)
      ensures (Refs(), events) == Transition(old(Refs()), settings, v, now)
    {
      events := [];
      match state {
        case Silent =>
          if Gt(v, settings.startThreshold) {
            state := PendingSpeech;
            speechStartTime := Some(now);
            events := [StateChanged(PendingSpeech)];
          }
        case PendingSpeech =>
          if Gt(v, settings.startThreshold) {
            var speechDuration := Elapsed(speechStartTime, now);
            if speechDuration as real >= settings.minSpeechDuration {
              state := Speaking;
              events := [StateChanged(state), SpeechStarted];
            }
          } else {
            state := Silent;
            speechStartTime := None;
            events := [StateChanged(state)];
          }
        case Speaking =>
          if Le(v, settings.stopThreshold) {
            state := PendingSilence;
            silenceStartTime := Some(now);
            events := [StateChanged(PendingSilence)];
          }
        case PendingSilence =>
          if Gt(v, settings.stopThreshold) {
            state := Speaking;
            silenceStartTime := None;
            events := [StateChanged(state)];
          } else {
            var silenceDuration := Elapsed(silenceStartTime, now);
            if silenceDuration as real >= settings.minSilenceDuration {
              state := Silent;
              silenceStartTime := None;
              events := [StateChanged(state), SpeechEnded];
            }
          }
      }
    }

    /**
     * `processFrame` for one analyser buffer and `Date.now()`; a disabled hook
     * does nothing.
     */
    method ProcessFrame(frequencyData: seq<Signal.Byte>, decibels: real -> real, now: int, settings: Settings)
      returns (events: seq<Event>)
      modifies this
      ensures enabled == old(enabled)
      ensures old(enabled) ==>
        (Refs(), events) == Frame(old(Refs()), settings, VolumeDb(frequencyData, decibels), now)
      ensures !old(enabled) ==> Refs() == old(Refs()) && events == []
    {
      if !enabled {
        return [];
      }
      var currentVolume := CalculateVolumeDb(frequencyData, decibels);
      volume := currentVolume;
      if smoothedVolume == NegInf {
        smoothedVolume := currentVolume;
      } else {
        smoothedVolume := Add(Scale(smoothedVolume, settings.smoothingFactor),
                              Scale(currentVolume, 1.0 - settings.smoothingFactor));
      }
      events := UpdateVadState(smoothedVolume, now, settings);
      events := events + [VolumeUpdated(smoothedVolume)];
    }

    /** The start/stop effect: disabling resets every ref, whatever happened before. */
    method SetEnabled(on: bool)
      modifies this
      ensures enabled == on
      ensures on ==> Refs() == old(Refs())
      ensures !on ==> Refs() == Reset
    {
      enabled := on;
      if !on {
        state := Silent;
        volume := NegInf;
        smoothedVolume := NegInf;
        speechStartTime := None;
        silenceStartTime := None;
      }
    }

    /** `getCurrentState`. */
    function CurrentState(): (r: VadState)
      reads this
      ensures r == Refs().state
    {
      state
    }

    /** `getCurrentVolume`. */
    function CurrentVolume(): (r: Num)
      reads this
      ensures r == Refs().volume
    {
      volume
    }

    /** `getSmoothedVolume`. */
    function SmoothedVolume(): (r: Num)
      reads this
      ensures r == Refs().smoothed
    {
      smoothedVolume
    }
  }
}
