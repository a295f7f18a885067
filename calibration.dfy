/**
 * `VADCalibrationPanel`: two measuring phases that average per-frame RMS
 * levels, and the derivation of the two legacy thresholds from the averages.
 * Each analyser callback (`measureEnvironment`, the speech timeout,
 * `collectSpeechData`) is an explicit input; which of them runs is decided by
 * the browser's scheduling, not by `calibrationStep`.
 */
module Calibration {
  import opened Wrappers
  import opened ExtNum
  import opened JsValue
  import Signal
  import SettingsLoader

  datatype Step = Idle | Silence | Speaking | Complete

  /** `analyser.fftSize`, and so the length of every buffer the panel reads. */
  const FftSize: nat := 2048
  /** Samples averaged for the background level. */
  const SilenceSamples: nat := 250
  /** Samples averaged for the speech level. */
  const SpeechSamples: nat := 150

  /** `calibrationData`; a field is absent until its phase has finished. */
  datatype Levels = Levels(silenceLevel: Option<real>, speakingLevel: Option<real>)

  /** The panel's state and refs (`true` for a ref that holds its object). */
  datatype Panel = Panel(
    isCalibrating: bool,
    step: Step,
    data: Option<Levels>,
    values: seq<real>,      // calibrationValuesRef
    analyser: bool,         // analyserRef
    stream: bool,           // streamRef
    context: bool,          // audioContextRef
    timer: bool)            // calibrationTimerRef

  const Mounted := Panel(false, Idle, None, [], false, false, false, false)

  // ---------------------------------------------------------------------------
  // Loudness and averages

  /** A time-domain sample as `d / 128 - 1`. */
  function Offset(b: Signal.Byte): real { b as real / 128.0 - 1.0 }

  /** `calculateRMS` of the panel; `root` stands for `Math.sqrt`. */
  function Rms(data: seq<Signal.Byte>, root: real -> real): real
    requires |data| == FftSize
  {
    root(Signal.SquareSum(data, Offset) / |data| as real) * 100.0
  }

  /**
   * The square root is taken of a non-negative mean, and for a root that is
   * zero only at zero the loudness is zero exactly on the flat line at 128.
   */
  lemma RmsOfFlatLine(data: seq<Signal.Byte>, root: real -> real)
    requires |data| == FftSize
    ensures Signal.SquareSum(data, Offset) / |data| as real >= 0.0
    ensures (forall x :: root(x) == 0.0 <==> x == 0.0) ==>
      (Rms(data, root) == 0.0 <==> forall i :: 0 <= i < |data| ==> data[i] == 128)
  {
    Signal.SquareSumNonNegative(data, Offset);
    Signal.SquareSumZero(data, Offset);
    assert forall i :: 0 <= i < |data| ==> (Offset(data[i]) == 0.0 <==> data[i] == 128);
  }

  method CalculateRms(data: seq<Signal.Byte>, root: real -> real) returns (r: real)
    requires |data| == FftSize
    ensures r == Rms(data, root)
  {
    var sumSquares := Signal.SumSquares(data, Offset);
    r := root(sumSquares / |data| as real) * 100.0;
  }

  /** `values.reduce((a, b) => a + b, 0)`. */
  function Sum(values: seq<real>): real
  {
    if values == [] then 0.0 else Sum(values[..|values| - 1]) + values[|values| - 1]
  }

  function Mean(values: seq<real>): real
    requires |values| > 0
  {
    Sum(values) / |values| as real
  }

  lemma {:induction false} SumBounds(values: seq<real>, lo: real, hi: real)
    requires forall i :: 0 <= i < |values| ==> lo <= values[i] <= hi
    ensures |values| as real * lo <= Sum(values) <= |values| as real * hi
  {
    if values != [] {
      SumBounds(values[..|values| - 1], lo, hi);
    }
  }

  /** The mean lies between the smallest and the largest sample. */
  lemma MeanBounds(values: seq<real>, lo: real, hi: real)
    requires |values| > 0
    requires forall i :: 0 <= i < |values| ==> lo <= values[i] <= hi
    ensures lo <= Mean(values) <= hi
  {
    SumBounds(values, lo, hi);
    var n := |values| as real;
    QuotientBounds(Sum(values), n, lo);
    QuotientBounds(-Sum(values), n, -hi);
    assert -Sum(values) / n == -Mean(values);
  }

  lemma QuotientBounds(s: real, n: real, lo: real)
    requires n > 0.0 && n * lo <= s
    ensures lo <= s / n
  {
    assert s / n - lo == (s - n * lo) / n;
  }

  // ---------------------------------------------------------------------------
  // The measuring phases

  /** `setCalibrationData(prev => ({...prev, silenceLevel}))`. */
  function WithSilence(prev: Option<Levels>, level: real): Levels
  {
    match prev
    case None => Levels(Some(level), None)
    case Some(l) => l.(silenceLevel := Some(level))
  }

  /** `setCalibrationData(prev => ({...prev!, speakingLevel}))`; spreading `null` adds nothing. */
  function WithSpeech(prev: Option<Levels>, level: real): Levels
  {
    match prev
    case None => Levels(None, Some(level))
    case Some(l) => l.(speakingLevel := Some(level))
  }

  /** One `measureEnvironment` call with the RMS of the buffer it reads. */
  function EnvironmentSample(p: Panel, rms: real): Panel
  {
    if !p.analyser then p
    else
      var values := p.values + [rms];
      if |values| < SilenceSamples then p.(values := values)
      else p.(data := Some(WithSilence(p.data, Mean(values))), step := Speaking, values := [], timer := true)
  }

  /** One `collectSpeechData` call; the first one runs when the speech timeout fires. */
  function SpeechSample(p: Panel, rms: real): Panel
  {
    if !p.analyser then p
    else
      var values := p.values + [rms];
      if |values| < SpeechSamples then p.(values := values)
      else p.(data := Some(WithSpeech(p.data, Mean(values))), step := Complete, values := values)
  }

  /** `stopCalibration`: back to idle; the data and the samples are kept. */
  function Stop(p: Panel): Panel
  {
    p.(isCalibrating := false, step := Idle, timer := false, stream := false, context := false, analyser := false)
  }

  /** The synchronous start of `startCalibration`, before it awaits `getUserMedia`. */
  function Begin(p: Panel): Panel
  {
    p.(isCalibrating := true, step := Silence, data := None, values := [])
  }

  /**
   * `getUserMedia` resolves: the stream, context and analyser are attached and
   * the first `measureEnvironment` call takes a sample, whatever the step has
   * become while the prompt was open.
   */
  function Granted(p: Panel, firstRms: real): Panel
  {
    EnvironmentSample(p.(stream := true, context := true, analyser := true), firstRms)
  }

  /** `getUserMedia` rejects: the `catch` stops the panel. */
  function Denied(p: Panel): Panel
  {
    Stop(p)
  }

  /** A start whose prompt is answered before any other input arrives. */
  function Start(p: Panel, granted: bool, firstRms: real): Panel
  {
    if granted then Granted(Begin(p), firstRms) else Denied(Begin(p))
  }

  function CollectEnvironment(p: Panel, samples: seq<real>): Panel
  {
    if samples == [] then p
    else EnvironmentSample(CollectEnvironment(p, samples[..|samples| - 1]), samples[|samples| - 1])
  }

  function CollectSpeech(p: Panel, samples: seq<real>): Panel
  {
    if samples == [] then p
    else SpeechSample(CollectSpeech(p, samples[..|samples| - 1]), samples[|samples| - 1])
  }

  /**
   * While fewer than 250 samples are held, the background phase only collects;
   * the 250th sample records their mean, empties the buffer and moves to the
   * speech step with its timeout set.
   */
  lemma {:induction false} EnvironmentPhase(p: Panel, samples: seq<real>)
    requires p.analyser
    requires |p.values| + |samples| <= SilenceSamples
    ensures var q := CollectEnvironment(p, samples);
      && (|p.values| + |samples| < SilenceSamples ==> q == p.(values := p.values + samples))
      && (|p.values| + |samples| == SilenceSamples && samples != [] ==>
            q == p.(data := Some(WithSilence(p.data, Mean(p.values + samples))),
                    step := Speaking, values := [], timer := true))
  {
    if samples != [] {
      var init := samples[..|samples| - 1];
      EnvironmentPhase(p, init);
      assert p.values + init + [samples[|samples| - 1]] == p.values + samples by {
        assert init + [samples[|samples| - 1]] == samples;
      }
    } else {
      assert p.values + samples == p.values;
    }
  }

  /** The speech phase: exactly 150 samples, then their mean and the `complete` step. */
  lemma {:induction false} SpeechPhase(p: Panel, samples: seq<real>)
    requires p.analyser
    requires |p.values| + |samples| <= SpeechSamples
    ensures var q := CollectSpeech(p, samples);
      && (|p.values| + |samples| < SpeechSamples ==> q == p.(values := p.values + samples))
      && (|p.values| + |samples| == SpeechSamples && samples != [] ==>
            q == p.(data := Some(WithSpeech(p.data, Mean(p.values + samples))),
                    step := Complete, values := p.values + samples))
  {
    if samples != [] {
      var init := samples[..|samples| - 1];
      SpeechPhase(p, init);
      assert p.values + init + [samples[|samples| - 1]] == p.values + samples by {
        assert init + [samples[|samples| - 1]] == samples;
      }
    } else {
      assert p.values + samples == p.values;
    }
  }

  /**
   * The scheduled run: a granted start, 249 more background samples, the timeout
   * and 150 speech samples leave the panel complete with both means recorded.
   */
  lemma FullCalibration(p: Panel, silence: seq<real>, speech: seq<real>)
    requires |silence| == SilenceSamples && |speech| == SpeechSamples
    ensures var q := CollectSpeech(CollectEnvironment(Start(p, true, silence[0]), silence[1..]), speech);
      && q.step == Complete && q.isCalibrating
      && q.data == Some(Levels(Some(Mean(silence)), Some(Mean(speech))))
  {
    var started := p.(isCalibrating := true, step := Silence, data := None, values := [],
                      stream := true, context := true, analyser := true);
    assert Start(p, true, silence[0]) == started.(values := [silence[0]]);
    EnvironmentPhase(started.(values := [silence[0]]), silence[1..]);
    assert [silence[0]] + silence[1..] == silence;
    var mid := CollectEnvironment(Start(p, true, silence[0]), silence[1..]);
    SpeechPhase(mid, speech);
    assert mid.values + speech == speech;
  }

  /** Once stopped, no callback changes anything until the next start. */
  lemma StoppedIgnoresSamples(p: Panel, rms: real)
    ensures Stop(p).step == Idle && !Stop(p).isCalibrating
    ensures !Stop(p).timer && !Stop(p).stream && !Stop(p).context && !Stop(p).analyser
    ensures Stop(p).data == p.data && Stop(p).values == p.values
    ensures EnvironmentSample(Stop(p), rms) == Stop(p) && SpeechSample(Stop(p), rms) == Stop(p)
  {
  }

  /**
   * Cancelling (or unmounting) while the microphone prompt is open, then
   * granting it: the panel is idle and not calibrating, yet holds an open
   * stream and an analyser and keeps measuring; 249 further samples move it
   * from `idle` to `speaking` with the speech timeout set.
   */
  lemma CancelDuringPrompt(p: Panel, first: real, more: seq<real>)
    requires |more| == SilenceSamples - 1
    ensures var q := Granted(Stop(Begin(p)), first);
      && q.step == Idle && !q.isCalibrating
      && q.analyser && q.stream && q.context && q.values == [first]
    ensures var r := CollectEnvironment(Granted(Stop(Begin(p)), first), more);
      && r.step == Speaking && !r.isCalibrating && r.analyser && r.timer
      && r.data == Some(Levels(Some(Mean([first] + more)), None))
  {
    var q := Granted(Stop(Begin(p)), first);
    assert q == Stop(Begin(p)).(stream := true, context := true, analyser := true, values := [first]);
    EnvironmentPhase(q, more);
  }

  // ---------------------------------------------------------------------------
  // Applying the result

  /** `Math.max` of two numbers: NaN if either is NaN. */
  function Max(x: Num, y: Num): (r: Num)
    ensures x == NaN || y == NaN ==> r == NaN
    ensures x.Fin? && y.Fin? ==> r.Fin? && r.v >= x.v && r.v >= y.v && (r.v == x.v || r.v == y.v)
  {
    if x == NaN || y == NaN then NaN
    else if x == PosInf || y == PosInf then PosInf
    else if x == NegInf then y
    else if y == NegInf then x
    else Fin(if x.v >= y.v then x.v else y.v)
  }

  /** A field of `calibrationData` as a number: a missing one reads as `undefined`, and arithmetic on it gives NaN. */
  function AsNum(level: Option<real>): Num
  {
    match level
    case None => NaN
    case Some(v) => Fin(v)
  }

  /** The two thresholds derived from the measured levels. */
  function Derive(l: Levels): (Num, Num)
  {
    var silenceThreshold := Max(Fin(5.0), Add(AsNum(l.silenceLevel), Fin(3.0)));
    var speakingThreshold := Max(Add(silenceThreshold, Fin(5.0)), Add(AsNum(l.speakingLevel), Fin(-5.0)));
    (silenceThreshold, speakingThreshold)
  }

  /**
   * With both levels measured, the silence threshold is `max(5, silence + 3)`
   * and the speaking threshold `max(that + 5, speech - 5)`, so at least 5 above it.
   */
  lemma DeriveMargins(silence: real, speech: real)
    ensures var (st, sp) := Derive(Levels(Some(silence), Some(speech)));
      && st.Fin? && sp.Fin?
      && st.v >= 5.0 && st.v >= silence + 3.0 && (st.v == 5.0 || st.v == silence + 3.0)
      && sp.v >= st.v + 5.0 && sp.v >= speech - 5.0 && (sp.v == st.v + 5.0 || sp.v == speech - 5.0)
  {
  }

  /** A record missing a level yields NaN thresholds rather than an error. */
  lemma DeriveMissingLevel(l: Levels)
    ensures l.silenceLevel == None ==> Derive(l) == (NaN, NaN)
    ensures l.silenceLevel.Some? && l.speakingLevel == None ==> Derive(l).0.Fin? && Derive(l).1 == NaN
  {
  }

  /**
   * `applyCalibration` on `config.vadSettings`: `None` when there is no data
   * (nothing is changed or saved), else the settings with the two thresholds
   * replaced.
   */
  function Apply(vadSettings: map<string, Value>, data: Option<Levels>): Option<map<string, Value>>
  {
    match data
    case None => None
    case Some(l) =>
      var (st, sp) := Derive(l);
      Some(vadSettings["silenceThreshold" := Number(st)]["speakingThreshold" := Number(sp)])
  }

  /** Applying carries over every other field and adds or replaces exactly the two thresholds. */
  lemma ApplyKeepsOtherFields(vadSettings: map<string, Value>, l: Levels)
    ensures var r := Apply(vadSettings, Some(l));
      && r.Some?
      && r.value.Keys == vadSettings.Keys + {"silenceThreshold", "speakingThreshold"}
      && r.value["silenceThreshold"] == Number(Derive(l).0)
      && r.value["speakingThreshold"] == Number(Derive(l).1)
      && forall k :: k in vadSettings && k != "silenceThreshold" && k != "speakingThreshold" ==>
           r.value[k] == vadSettings[k]
  {
  }

  /**
   * The engine reads `startThreshold`/`stopThreshold`, which applying never
   * touches: after saving and reloading, a new-format record keeps its own
   * start threshold, and any other record becomes the fixed defaults.
   */
  lemma AppliedThresholdsNotReadBack(vadSettings: map<string, Value>, l: Levels,
                                      stringify: Value -> string, parse: string -> Option<Value>)
    requires var saved := Object(Apply(vadSettings, Some(l)).value);
      stringify(saved) != "" && parse(stringify(saved)) == Some(saved)
    ensures var saved := Object(Apply(vadSettings, Some(l)).value);
      var loaded := SettingsLoader.Load(Some(stringify(saved)), parse);
      && (SettingsLoader.Defined(Object(vadSettings), "startThreshold")
          && SettingsLoader.Defined(Object(vadSettings), "stopThreshold") ==>
            loaded.props["startThreshold"] == vadSettings["startThreshold"]
            && loaded.props["stopThreshold"] == vadSettings["stopThreshold"])
      && (!(SettingsLoader.Defined(Object(vadSettings), "startThreshold")
            && SettingsLoader.Defined(Object(vadSettings), "stopThreshold")) ==>
            loaded == SettingsLoader.Defaults)
  {
    var saved := Object(Apply(vadSettings, Some(l)).value);
    ApplyKeepsOtherFields(vadSettings, l);
    assert SettingsLoader.Defined(saved, "speakingThreshold");
  }

  // ---------------------------------------------------------------------------
  // The component instance

  class CalibrationPanel {
    var isCalibrating: bool
    var step: Step
    var data: Option<Levels>
    var values: seq<real>
    var analyser: bool
    var stream: bool
    var context: bool
    var timer: bool
    var vadSettings: map<string, Value>   // config.vadSettings

    function State(): Panel
      reads this
    {
      Panel(isCalibrating, step, data, values, analyser, stream, context, timer)
    }

    constructor (vadSettings: map<string, Value>)
      ensures State() == Mounted && this.vadSettings == vadSettings
    {
      isCalibrating := false;
      step := Idle;
      data := None;
      values := [];
      analyser := false;
      stream := false;
      context := false;
      timer := false;
      this.vadSettings := vadSettings;
    }

    method StopCalibration()
      modifies this
      ensures State() == Stop(old(State())) && vadSettings == old(vadSettings)
    {
      isCalibrating := false;
      step := Idle;
      if timer {
        timer := false;
      }
      if stream {
        stream := false;
      }
      if context {
        context := false;
      }
      analyser := false;
    }

    /** `measureEnvironment` with the buffer the analyser fills. */
    method MeasureEnvironment(buffer: seq<Signal.Byte>, root: real -> real)
      requires |buffer| == FftSize
      modifies this
      ensures State() == EnvironmentSample(old(State()), Rms(buffer, root)) && vadSettings == old(vadSettings)
    {
      if !analyser {
        return;
      }
      var rms := CalculateRms(buffer, root);
      values := values + [rms];
      if |values| >= SilenceSamples {
        var avgSilenceLevel := Mean(values);
        data := Some(WithSilence(data, avgSilenceLevel));
        step := Speaking;
        values := [];
        timer := true;
      }
    }

    /** `collectSpeechData` with the buffer the analyser fills. */
    method CollectSpeechData(buffer: seq<Signal.Byte>, root: real -> real)
      requires |buffer| == FftSize
      modifies this
      ensures State() == SpeechSample(old(State()), Rms(buffer, root)) && vadSettings == old(vadSettings)
    {
      if !analyser {
        return;
      }
      var rms := CalculateRms(buffer, root);
      values := values + [rms];
      if |values| >= SpeechSamples {
        var avgSpeakingLevel := Mean(values);
        data := Some(WithSpeech(data, avgSpeakingLevel));
        step := Complete;
      }
    }

    /** The synchronous start of `startCalibration`, up to the `await`. */
    method BeginCalibration()
      modifies this
      ensures State() == Begin(old(State())) && vadSettings == old(vadSettings)
    {
      isCalibrating := true;
      step := Silence;
      data := None;
      values := [];
    }

    /** `getUserMedia` resolves, with the first buffer the analyser fills. */
    method MicrophoneGranted(buffer: seq<Signal.Byte>, root: real -> real)
      requires |buffer| == FftSize
      modifies this
      ensures State() == Granted(old(State()), Rms(buffer, root)) && vadSettings == old(vadSettings)
    {
      stream := true;
      context := true;
      analyser := true;
      MeasureEnvironment(buffer, root);
    }

    /** `getUserMedia` rejects, and the `catch` stops. */
    method MicrophoneDenied()
      modifies this
      ensures State() == Denied(old(State())) && vadSettings == old(vadSettings)
    {
      StopCalibration();
    }

    /** `applyCalibration`: update the config, save the settings, stop. */
    method ApplyCalibration(store: SettingsLoader.KeyStore, stringify: Value -> string)
      modifies this, store
      ensures data == old(data)
      ensures Apply(old(vadSettings), old(data)) == None ==>
        State() == old(State()) && vadSettings == old(vadSettings) && store.items == old(store.items)
      ensures Apply(old(vadSettings), old(data)).Some? ==>
        var applied := Apply(old(vadSettings), old(data)).value;
        && vadSettings == applied
        && State() == Stop(old(State()))
        && store.items == old(store.items)[SettingsLoader.StorageKey := stringify(Object(applied))]
    {
      if data == None {
        return;
      }
      var thresholds := Derive(data.value);
      var newVadSettings := vadSettings["silenceThreshold" := Number(thresholds.0)]
                                       ["speakingThreshold" := Number(thresholds.1)];
      vadSettings := newVadSettings;
      store.SaveVadSettings(Object(newVadSettings), stringify);
      StopCalibration();
    }
  }
}
