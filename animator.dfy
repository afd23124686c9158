/** The "Animate from Audio File" operator: it checks that the audio has
    enough samples per keyframe, then animates up to three channels (left,
    right, subwoofer), each by de-interleaving its samples, conditioning them
    (raw decimation or envelope extraction) and keying the result onto the
    channel's target object. */
module Animator {
  import Arith
  import opened Pcm
  import opened Envelope
  import opened Names
  import opened Curves

  datatype Option<T> = None | Some(value: T)

  /** The scene settings the operator reads: the render frame rate `fps`
      and the add-on's panel properties. */
  datatype Settings = Settings(
    fps: int,
    keyframes: int,
    offset: int,
    preprocess: bool,
    bias: real,
    lObj: string, lProp: string,
    rObj: string, rProp: string,
    sObj: string, sProp: string)
  {
    /** What the host guarantees: a positive frame rate and at least one
        keyframe per video frame. */
    predicate Valid()
    {
      fps >= 1 && keyframes >= 1
    }
  }

  /** The number of audio samples that one keyframe covers. */
  function Bracket(samplerate: nat, fps: int, keyframes: int): nat
    requires fps >= 1 && keyframes >= 1
  {
    samplerate / (fps * keyframes)
  }

  /** The raw-path stride: samples per video frame, then per keyframe. Two
      floor divisions give the same number as the bracket's single one. */
  function Stepping(samplerate: nat, fps: int, keyframes: int): (step: nat)
    requires fps >= 1 && keyframes >= 1
    ensures step == Bracket(samplerate, fps, keyframes)
  {
    Arith.DivDiv(samplerate, fps, keyframes);
    var audioKeyframesPerVideoFrame := samplerate / fps;
    audioKeyframesPerVideoFrame / keyframes
  }

  /** What one channel animates: the target object, its scalar track and,
      when a second property name is given, its vector track. */
  datatype ChannelAnimation = ChannelAnimation(target: string, scalar: FloatTrack, vector: Option<VectorTrack>)

  /** The control values of one channel: the envelope when preprocessing is
      on, otherwise every `step`-th sample normalised. */
  function Conditioned(c: seq<int>, settings: Settings, samplerate: nat, step: nat): seq<real>
    requires settings.Valid() && step >= 1
    requires Bracket(samplerate, settings.fps, settings.keyframes) >= 1
  {
    if settings.preprocess then ProcessedTrack(c, Bracket(samplerate, settings.fps, settings.keyframes), settings.bias)
    else Normalized(Slice(c, 0, step))
  }

  /** What processing one channel yields: nothing for a blank target name. */
  function ChannelSpec(
    settings: Settings, samplerate: nat, nchannels: nat, signal: seq<int>, step: nat,
    target: string, property: string, channel: nat, suffix: string, noise: nat -> Vec3): Option<ChannelAnimation>
    requires settings.Valid() && nchannels >= 1 && step >= 1
    requires Bracket(samplerate, settings.fps, settings.keyframes) >= 1
  {
    if target == "" then None
    else
      var values := Conditioned(Slice(signal, channel, nchannels), settings, samplerate, step);
      var props := TargetProps(property, suffix);
      TargetPropsMeaning(property, suffix);
      var scalar := FloatTrack(DataPath(props[0]), ScalarPoints(values, settings.keyframes, settings.offset));
      var vector :=
        if |props| > 1 then
          Some(VectorTrack(DataPath(Strip(props[1])), VectorPoints(Slice(values, 0, settings.keyframes), settings.offset, noise)))
        else None;
      Some(ChannelAnimation(target, scalar, vector))
  }

  /** Animates one channel of the interleaved signal onto `target`. */
  method ProcessSignal(
    settings: Settings, samplerate: nat, nchannels: nat, signal: seq<int>, step: nat,
    target: string, property: string, channel: nat, suffix: string, noise: nat -> Vec3)
    returns (result: Option<ChannelAnimation>)
    requires settings.Valid() && nchannels >= 1 && step >= 1
    requires Bracket(samplerate, settings.fps, settings.keyframes) >= 1
    ensures result.None? <==> target == ""
    ensures result == ChannelSpec(settings, samplerate, nchannels, signal, step, target, property, channel, suffix, noise)
  {
    if target == "" {
      return None;
    }
    var cSignal := Slice(signal, channel, nchannels);
    var values: seq<real>;
    if settings.preprocess {
      values := GetProcessedSignal(cSignal, Bracket(samplerate, settings.fps, settings.keyframes), settings.bias);
    } else {
      var decimated := Slice(cSignal, 0, step);
      values := Int2Float(decimated);
      assert values == Normalized(decimated);
    }
    var targetProps := TargetProps(property, suffix);
    TargetPropsMeaning(property, suffix);
    assert values == Conditioned(cSignal, settings, samplerate, step);
    var scalar := AnimateFloatProperty(targetProps[0], values, settings.keyframes, settings.offset);
    var vector: Option<VectorTrack> := None;
    if |targetProps| > 1 {
      var track := AnimateFloatArrayProperty(Strip(targetProps[1]), Slice(values, 0, settings.keyframes), settings.offset, noise);
      vector := Some(track);
    }
    result := Some(ChannelAnimation(target, scalar, vector));
  }

  /** Which channel one call of the per-channel processing reads, and the
      target object, property string and default-name suffix it is given. */
  datatype Binding = Binding(channel: nat, target: string, property: string, suffix: string)

  /** The channel gates, in order: left while there are fewer than four
      channels, right for two or three, and a third channel, bound to the
      right speaker's target and property, for exactly three. */
  function Bindings(settings: Settings, nchannels: nat): seq<Binding>
  {
    (if nchannels < 4 then [Binding(0, settings.lObj, settings.lProp, "L")] else [])
    + (if nchannels > 1 && nchannels < 4 then [Binding(1, settings.rObj, settings.rProp, "R")] else [])
    + (if nchannels > 2 && nchannels < 4 then [Binding(2, settings.rObj, settings.rProp, "S")] else [])
  }

  /** One call of the per-channel processing: its binding and its result. */
  datatype ChannelRun = ChannelRun(binding: Binding, animation: Option<ChannelAnimation>)

  /** What processing the channel of `binding` yields. */
  function Run(
    settings: Settings, samplerate: nat, nchannels: nat, signal: seq<int>, binding: Binding, noise: nat -> nat -> Vec3): ChannelRun
    requires settings.Valid() && nchannels >= 1
    requires Bracket(samplerate, settings.fps, settings.keyframes) >= 1
  {
    var step := Stepping(samplerate, settings.fps, settings.keyframes);
    ChannelRun(binding,
      ChannelSpec(settings, samplerate, nchannels, signal, step,
        binding.target, binding.property, binding.channel, binding.suffix, noise(binding.channel)))
  }

  /** What the operator reports. */
  datatype Outcome = Canceled | Finished(runs: seq<ChannelRun>)

  /** The operator. `decoded` is what reading the selected file gives (None
      for a file that is missing or not a .wav file); `noise(c)(k)` is the
      random triple drawn for vector item k of channel c. */
  method Execute(settings: Settings, samplerate: nat, nchannels: nat, decoded: Option<seq<Sample>>, noise: nat -> nat -> Vec3)
    returns (outcome: Outcome)
    requires settings.Valid() && nchannels >= 1
    ensures outcome.Canceled? <==> (samplerate / (settings.fps * settings.keyframes) < 1 || decoded.None?)
    ensures outcome.Finished? ==>
      && Bracket(samplerate, settings.fps, settings.keyframes) >= 1
      && |outcome.runs| == |Bindings(settings, nchannels)|
      && forall i :: 0 <= i < |outcome.runs| ==>
           outcome.runs[i] == Run(settings, samplerate, nchannels, decoded.value, Bindings(settings, nchannels)[i], noise)
  {
    var signal: Option<seq<Sample>> := None;
    if samplerate / (settings.fps * settings.keyframes) >= 1 {
      signal := decoded;
    }
    if signal.Some? {
      var s := signal.value;
      var step := Stepping(samplerate, settings.fps, settings.keyframes);
      var runs: seq<ChannelRun> := [];
      if nchannels < 4 {
        var run := ProcessChannel(settings, samplerate, nchannels, s, step, Binding(0, settings.lObj, settings.lProp, "L"), noise);
        runs := runs + [run];
      }
      if nchannels > 1 && nchannels < 4 {
        var run := ProcessChannel(settings, samplerate, nchannels, s, step, Binding(1, settings.rObj, settings.rProp, "R"), noise);
        runs := runs + [run];
      }
      if nchannels > 2 && nchannels < 4 {
        var run := ProcessChannel(settings, samplerate, nchannels, s, step, Binding(2, settings.rObj, settings.rProp, "S"), noise);
        runs := runs + [run];
      }
      outcome := Finished(runs);
    } else {
      outcome := Canceled;
    }
  }

  /** One gated call of the per-channel processing, with its binding. */
  method ProcessChannel(
    settings: Settings, samplerate: nat, nchannels: nat, signal: seq<int>, step: nat, binding: Binding, noise: nat -> nat -> Vec3)
    returns (run: ChannelRun)
    requires settings.Valid() && nchannels >= 1
    requires Bracket(samplerate, settings.fps, settings.keyframes) >= 1
    requires step == Stepping(samplerate, settings.fps, settings.keyframes)
    ensures run == Run(settings, samplerate, nchannels, signal, binding, noise)
  {
    var animation := ProcessSignal(
      settings, samplerate, nchannels, signal, step, binding.target, binding.property, binding.channel, binding.suffix, noise(binding.channel));
    run := ChannelRun(binding, animation);
  }

  /** The channels that a list of bindings reads. */
  function ChannelsOf(bindings: seq<Binding>): set<nat>
  {
    set i | 0 <= i < |bindings| :: bindings[i].channel
  }

  /** Every channel of a one- to three-channel signal is processed, once, in
      channel order; a signal of four or more channels processes none. Left
      is bound to the l_ settings, the other two to the r_ settings, and the
      s_ settings are never read. */
  lemma BindingsGating(settings: Settings, nchannels: nat)
    requires nchannels >= 1
    ensures var bs := Bindings(settings, nchannels);
      && |bs| == (if nchannels < 4 then nchannels else 0)
      && (forall i :: 0 <= i < |bs| ==> bs[i].channel == i && bs[i].suffix == ["L", "R", "S"][i])
      && (forall i :: 0 <= i < |bs| ==>
            (bs[i].target, bs[i].property) == if i == 0 then (settings.lObj, settings.lProp) else (settings.rObj, settings.rProp))
    ensures forall c: nat :: c in ChannelsOf(Bindings(settings, nchannels)) <==> c < nchannels < 4
    ensures Bindings(settings, nchannels) == Bindings(settings.(sObj := "", sProp := ""), nchannels)
  {
    var bs := Bindings(settings, nchannels);
    forall c: nat ensures c in ChannelsOf(bs) <==> c < nchannels < 4 {
      if c < nchannels < 4 {
        assert bs[c].channel == c;
      }
    }
  }

  /** A channel run animates exactly when its bound target name is not blank;
      its scalar track then keys one value per keyframe, starting at the
      offset: the envelope's |c| / bracket values when preprocessing, else
      ceil(|c| / step) decimated samples, where c is the channel's samples. */
  lemma RunAnimation(settings: Settings, samplerate: nat, nchannels: nat, signal: seq<int>, binding: Binding, noise: nat -> nat -> Vec3)
    requires settings.Valid() && nchannels >= 1
    requires Bracket(samplerate, settings.fps, settings.keyframes) >= 1
    ensures var run := Run(settings, samplerate, nchannels, signal, binding, noise);
      var b := Bracket(samplerate, settings.fps, settings.keyframes);
      var c := Slice(signal, binding.channel, nchannels);
      && run.binding == binding
      && (run.animation.Some? <==> binding.target != "")
      && (run.animation.Some? ==>
            && |run.animation.value.scalar.points| == (if settings.preprocess then |c| / b else (|c| + b - 1) / b)
            && (forall k :: 0 <= k < |run.animation.value.scalar.points| ==>
                  run.animation.value.scalar.points[k].time == KeyTime(k, settings.keyframes, settings.offset)))
  {
    var b := Bracket(samplerate, settings.fps, settings.keyframes);
    var step := Stepping(samplerate, settings.fps, settings.keyframes);
    var c := Slice(signal, binding.channel, nchannels);
    ConditionedLength(c, settings, samplerate);
    if binding.target != "" {
      var values := Conditioned(c, settings, samplerate, step);
      var spec := ChannelSpec(settings, samplerate, nchannels, signal, step,
        binding.target, binding.property, binding.channel, binding.suffix, noise(binding.channel));
      assert spec.value.scalar.points == ScalarPoints(values, settings.keyframes, settings.offset);
    }
  }

  /** A conditioned channel has one value per whole bracket when
      preprocessing, and one per started step of the raw samples otherwise
      (the step equals the bracket). */
  lemma ConditionedLength(c: seq<int>, settings: Settings, samplerate: nat)
    requires settings.Valid()
    requires Bracket(samplerate, settings.fps, settings.keyframes) >= 1
    ensures var b := Bracket(samplerate, settings.fps, settings.keyframes);
      |Conditioned(c, settings, samplerate, b)| == if settings.preprocess then |c| / b else (|c| + b - 1) / b
  {
    var b := Bracket(samplerate, settings.fps, settings.keyframes);
    if !settings.preprocess {
      SliceLength(c, 0, b);
      if |c| == 0 {
        Arith.DivUnique(b - 1, b, 0, b - 1);
      }
    }
  }

  /** 44100 Hz at 30 frames per second and 2 keyframes per frame: 1470
      samples per video frame, 735 per keyframe. */
  lemma SteppingExample()
    ensures Stepping(44100, 30, 2) == 735
  {
    assert 44100 / 30 == 1470;
  }

  /** A 4000-sample, two-channel buffer at 8000 Hz, 25 frames per second and 2
      keyframes per frame: the bracket is 160 samples, each channel holds 2000
      of them, and a preprocessed channel keys 12 values. */
  lemma ExampleTrackLength(settings: Settings, signal: seq<int>, binding: Binding, noise: nat -> nat -> Vec3)
    requires settings.fps == 25 && settings.keyframes == 2 && settings.preprocess
    requires |signal| == 4000 && binding.channel < 2 && binding.target != ""
    ensures Bracket(8000, 25, 2) == 160
    ensures var run := Run(settings, 8000, 2, signal, binding, noise);
      run.animation.Some? && |run.animation.value.scalar.points| == 12
  {
    RunAnimation(settings, 8000, 2, signal, binding, noise);
    SliceLength(signal, binding.channel, 2);
  }
}
