# Stereo Speakers Auto-Animator: the audio-to-keyframe transform

This project models the core of the Blender add-on "Stereo Speakers
Auto-Animator", the operator `SPEAKERSANIM_OT_RunAction` ("Animate from Audio
File"), in Dafny, and proves properties of the model. The operator takes an
interleaved buffer of signed 16-bit PCM samples and produces animation control
points (time, value) for up to three speaker channels:

1. It refuses to run (`CANCELED`) when the sample rate gives fewer than one
   sample per keyframe, `samplerate // (fps * keyframes) < 1`, or when no
   decoded signal is available.
2. Each channel in use (left, right, subwoofer) is de-interleaved with
   `signal[channel::nchannels]`.
3. The channel is conditioned in one of two ways:
   - raw: every `step`-th sample divided by 32767;
   - preprocessed: the envelope, one value per non-overlapping window of
     `bracket` samples. That value is the peak, or the mean magnitude signed
     by the window's charge, or a `bias`-weighted blend of the two.
4. The values are keyed on a scalar custom property at times
   `offset + k / keyframes`.
5. When a second property name is given, every `keyframes`-th value is also
   keyed on a vector custom property, scaled by a random triple, at times
   `offset + k`.

Modules, following the structure of the operator:

| module | file | models |
|---|---|---|
| `Arith` | arith.dfy | facts about floor division (`//`) on non-negative integers |
| `Pcm` | pcm.dfy | 16-bit samples, `int2float`, the extended slice `s[start::step]` (`get_channel_signal` and the decimation) |
| `Envelope` | envelope.dfy | `get_signal_peaks`, `get_averaged_signal`, `get_processed_signal` |
| `Names` | names.dfy | the choice of property names in `process_signal`: `str.split(",")` and `str.strip()` |
| `Curves` | curves.dfy | the keying loops of `animate_float_property` and `animate_float_array_property` |
| `Animator` | animator.dfy | `get_stepping`, `process_signal`, `execute` |

The reducers, `int2float` and the two keying loops work step by step in the
source. They are methods with loops and loop invariants, each proved equal to
a specification function:
- `PeakTrack`, `AverageTrack`, `BlendTrack` and `ProcessedTrack` for the reducers;
- `Normalized` for `int2float`;
- `ScalarPoints` and `VectorPoints` for the keying loops.

`process_signal` and `execute` call those in sequence, without a loop of their
own. `ProcessSignal` is a method proved equal to the function `ChannelSpec`.
`Execute` is a method that calls `ProcessChannel` once per channel gate. Each
run it returns equals the function `Run` applied to the matching entry of
`Bindings`.

Lemmas then state what those functions mean. The slice and the name selection
are plain expressions in the source, so they are functions.

Python's `//` agrees with Dafny's `/` everywhere here, because every dividend
is non-negative and every divisor positive. Floating-point values are modelled
as exact reals.

The model follows the code, which:
- cancels when the file cannot be read, as well as when the resolution check fails;
- keys only every `keyframes`-th value on the vector track, not every value;
- binds the third channel to the right speaker's `r_obj`/`r_prop`, not to `s_obj`/`s_prop`.

## Model

| member | source | states |
|---|---|---|
| Pcm.Normalize | auto_stereo_speaker_animator.py:133 | a sample divided by 32767 |
| Pcm.Slice | auto_stereo_speaker_animator.py:146-147 | Python's `s[start::step]`: s[start], then onwards in strides of `step` while in range |
| Pcm.NormalizeRange | auto_stereo_speaker_animator.py:133 | a sample divided by 32767 lies in [-32768/32767, 1], is 0 exactly for 0, is negative exactly for a negative sample, and gives the sample back when multiplied by 32767 |
| Pcm.Int2Float | auto_stereo_speaker_animator.py:130-135 | the output has one value per input sample, in order; value i is sample i divided by 32767 |
| Pcm.SliceLength | auto_stereo_speaker_animator.py:146-147 | `s[start::step]` has ceil((n - start) / step) elements, and none when start >= n |
| Pcm.SliceAt | auto_stereo_speaker_animator.py:146-147 | element j of `s[start::step]` is s[start + j * step] |
| Pcm.SliceCovers | auto_stereo_speaker_animator.py:146-147 | every in-range position start + j * step appears in the slice as element j, so the slice keeps exactly those samples |
| Pcm.NormalizedSlice | auto_stereo_speaker_animator.py:88 | normalising then taking every step-th value equals taking every step-th sample then normalising |
| Envelope.Peak | auto_stereo_speaker_animator.py:183-186 | the left-to-right scan from 0 that takes a sample whose magnitude is strictly larger than the peak so far |
| Envelope.Sum | auto_stereo_speaker_animator.py:199-201 | the window's charge: the sum of its signed samples |
| Envelope.AbsSum | auto_stereo_speaker_animator.py:198-202 | the sum of the magnitudes of the window's samples |
| Envelope.AverageValue | auto_stereo_speaker_animator.py:198-206 | the averaged reducer's value for one window: sum of magnitudes / bracket / 32767, negated for a negative charge |
| Envelope.BlendValue | auto_stereo_speaker_animator.py:225-238 | the blended reducer's value for one window: ((1 - bias) * signed mean + bias * peak) / 32767 |
| Envelope.PeakIsFirstPeak | auto_stereo_speaker_animator.py:183-186 | the scan's result has magnitude at least that of every sample; unless it is 0, it is a sample with every earlier sample strictly smaller in magnitude |
| Envelope.PeakCharacterized | auto_stereo_speaker_animator.py:183-186 | in both directions, a value is the scan's result exactly when it is the first sample of largest magnitude (0 for an all-zero window) |
| Envelope.PeakOfWindow | auto_stereo_speaker_animator.py:183-186 | the peak is 0 exactly for an all-zero window, is otherwise a sample of the window, and bounds every sample's magnitude |
| Envelope.PeakTieExample | auto_stereo_speaker_animator.py:185-186 | of two samples with equal magnitude and opposite sign, the first one is the peak |
| Envelope.SumBound | auto_stereo_speaker_animator.py:199-202 | the magnitude of the charge never exceeds the sum of magnitudes |
| Envelope.AbsSumZero | auto_stereo_speaker_animator.py:202 | the sum of magnitudes is 0 exactly for an all-zero window |
| Envelope.AverageValueMeaning | auto_stereo_speaker_animator.py:198-206 | the averaged value has magnitude (sum of abs) / bracket / 32767, is negative exactly when the charge is negative, and is 0 exactly for an all-zero window |
| Envelope.AveragedExample | auto_stereo_speaker_animator.py:198-206 | the window [100, -100, 200, -50] averages to 112.5 / 32767 |
| Envelope.BlendMixesReducers | auto_stereo_speaker_animator.py:212-238 | the blend equals (1 - bias) times the averaged value plus bias times the peak value; at bias 0 it is the averaged value, and at bias 1 the peak value |
| Envelope.BlendBetween | auto_stereo_speaker_animator.py:218-238 | for a bias in [0, 1] the blended value lies between the averaged value and the peak value |
| Envelope.Windows | auto_stereo_speaker_animator.py:182 | the signal yields len(signal) // bracket windows |
| Envelope.WindowAt | auto_stereo_speaker_animator.py:181-189 | window k is signal[k * bracket .. (k + 1) * bracket] and lies inside the signal |
| Envelope.WindowsCover | auto_stereo_speaker_animator.py:182-189 | laid end to end, the windows are the signal without a trailing remainder of fewer than bracket samples |
| Envelope.TrackLengths | auto_stereo_speaker_animator.py:182-188 | for every signal, each reducer and the dispatch yield len(signal) // bracket values |
| Envelope.TracksAt | auto_stereo_speaker_animator.py:180-189 | each of the three reducers yields len(signal) // bracket values; value i is taken from window i |
| Envelope.ProcessedIsBlend | auto_stereo_speaker_animator.py:211-241 | dispatching bias 0 to the averaged reducer and bias 1 to the peak reducer gives the same track as always blending |
| Envelope.ScanPeak | auto_stereo_speaker_animator.py:183-186 | the inner loop of the peak reducer returns the window's peak |
| Envelope.GetSignalPeaks | auto_stereo_speaker_animator.py:177-190 | the output is the peak track: one normalised peak per whole window |
| Envelope.AverageWindow | auto_stereo_speaker_animator.py:198-206 | the inner loop and its post-processing return the window's averaged value |
| Envelope.GetAveragedSignal | auto_stereo_speaker_animator.py:192-209 | the output is the averaged track: one averaged value per whole window |
| Envelope.ScanWindow | auto_stereo_speaker_animator.py:225-232 | one pass over the window returns its peak, its charge and its sum of magnitudes |
| Envelope.BlendWindow | auto_stereo_speaker_animator.py:225-238 | one window of the blended branch returns the window's blended value |
| Envelope.GetBlendedSignal | auto_stereo_speaker_animator.py:217-241 | the blended branch outputs the blended track: one blended value per whole window |
| Envelope.GetProcessedSignal | auto_stereo_speaker_animator.py:211-241 | bias exactly 0 gives the averaged track, bias exactly 1 the peak track, and any other bias the blended track |
| Envelope.PeakAsWrittenNeverMin | auto_stereo_speaker_animator.py:185-186 | with numpy's int16 `abs`, the peak scan can never select a -32768 sample |
| Envelope.PeakAsWrittenMissesMin | auto_stereo_speaker_animator.py:183-186 | with numpy's int16 `abs`, the window [-32768] peaks at 0 instead of -32768, which is not the first sample of largest magnitude |
| Envelope.AverageAsWrittenFlipsSign | auto_stereo_speaker_animator.py:200-206 | with numpy's int16 `abs`, the window [-32768] has a negative charge but a positive averaged value; the intended value is negative |
| Names.Split | auto_stereo_speaker_animator.py:94 | `str.split(",")` always yields at least one piece |
| Names.SplitJoin | auto_stereo_speaker_animator.py:94 | joining the pieces with the separator gives the property string back |
| Names.SplitPieces | auto_stereo_speaker_animator.py:94 | no piece contains the separator |
| Names.JoinSplit | auto_stereo_speaker_animator.py:94 | the pieces are recovered from their join when none of them contains the separator, so split and join are inverse |
| Names.SplitMany | auto_stereo_speaker_animator.py:94-102 | a string splits into more than one piece exactly when it contains the separator |
| Names.Strip | auto_stereo_speaker_animator.py:105 | Python's `str.strip()` on ASCII white space |
| Names.TrimStartMeaning | auto_stereo_speaker_animator.py:105 | trimming the front drops a prefix of white space and stops at the first other character |
| Names.TrimEndMeaning | auto_stereo_speaker_animator.py:105 | trimming the back drops a suffix of white space and stops at the last other character |
| Names.StripEnds | auto_stereo_speaker_animator.py:105 | a stripped string is empty or starts and ends with a non-space character |
| Names.StripMeaning | auto_stereo_speaker_animator.py:105 | the stripped string is a contiguous middle of the string, with only white space on either side of it |
| Names.StripIdempotent | auto_stereo_speaker_animator.py:105 | stripping twice gives the same string as stripping once |
| Names.TargetPropsMeaning | auto_stereo_speaker_animator.py:91-102 | there is always a scalar name; a blank property gives exactly the pair `Driver_<suffix>`, `Wobble_<suffix>`; a vector name exists exactly when the property is blank or contains a comma; a non-blank property is the comma-join of its names |
| Names.TargetProps | auto_stereo_speaker_animator.py:91-94 | the default pair `Driver_<suffix>`, `Wobble_<suffix>` for a blank property string, otherwise its comma-separated parts |
| Names.DefaultVectorName | auto_stereo_speaker_animator.py:92-105 | the default vector name `Wobble_<suffix>` is unchanged by the strip applied to the second name, for any suffix ending in a non-space |
| Names.DefaultVectorNames | auto_stereo_speaker_animator.py:92-105 | for the suffixes L, R and S the stripped default vector names are `Wobble_L`, `Wobble_R` and `Wobble_S` |
| Curves.DataPath | auto_stereo_speaker_animator.py:152 | the data path `["name"]` under which a custom property is keyed |
| Curves.AnimateFloatProperty | auto_stereo_speaker_animator.py:149-158 | one control point per value, under the data path `["name"]`; value k is keyed at offset + k / keyframes |
| Curves.AnimateFloatArrayProperty | auto_stereo_speaker_animator.py:160-175 | one control point per value, under `["name"]`; item k is the k-th random triple times value k, keyed at offset + k |
| Curves.KeyTimeCadence | auto_stereo_speaker_animator.py:153-158 | scalar keys start at the offset, strictly increase 1 / keyframes apart, and every keyframes of them span one video frame |
| Curves.VectorFollowsScalar | auto_stereo_speaker_animator.py:106-175 | vector item k sits at the time of scalar value k * keyframes and scales that same value |
| Curves.ScaleBounded | auto_stereo_speaker_animator.py:168-172 | with random factors in [-1, 1], no component of a vector item exceeds the magnitude of its value |
| Animator.Bracket | auto_stereo_speaker_animator.py:179-180 | samples per keyframe: samplerate // (fps * keyframes), the quantity checked at line 44 |
| Animator.Stepping | auto_stereo_speaker_animator.py:122-128 | the raw stride (samplerate // fps) // keyframes equals the reducers' bracket samplerate // (fps * keyframes) |
| Animator.SteppingExample | auto_stereo_speaker_animator.py:122-128 | at 44100 Hz, 30 fps and 2 keyframes per frame, the stride is 735 |
| Animator.Conditioned | auto_stereo_speaker_animator.py:85-88 | the envelope when preprocessing is on, otherwise every step-th sample divided by 32767 |
| Animator.ChannelSpec | auto_stereo_speaker_animator.py:83-108 | nothing for a blank target; otherwise the scalar track of the conditioned channel under the first name and, when there is a second name, the vector track of every keyframes-th value under the stripped second name |
| Animator.ProcessSignal | auto_stereo_speaker_animator.py:82-108 | a blank target name yields nothing; otherwise the result is the scalar track of the conditioned channel and, when a second name is given, the vector track of its every keyframes-th value |
| Animator.ProcessChannel | auto_stereo_speaker_animator.py:49-77 | one gated call of process_signal yields the run its binding specifies |
| Animator.Execute | auto_stereo_speaker_animator.py:41-80 | cancels exactly when the resolution check fails or no signal is decoded; otherwise the bracket is at least 1 and there is one run per gated channel, in order, each being that channel's run |
| Animator.Bindings | auto_stereo_speaker_animator.py:48-77 | the gated calls in order: channel 0 with l_obj/l_prop and L when nchannels < 4; channel 1 with r_obj/r_prop and R when 1 < nchannels < 4; channel 2 with r_obj/r_prop and S when 2 < nchannels < 4 |
| Animator.BindingsGating | auto_stereo_speaker_animator.py:48-77 | one- to three-channel signals process every channel once, in order 0, 1, 2, with suffixes L, R, S; four or more channels process none; channel 0 uses l_obj/l_prop and channels 1 and 2 use r_obj/r_prop; the s_ settings are never read |
| Animator.RunAnimation | auto_stereo_speaker_animator.py:82-101 | a run animates exactly when its target name is non-blank; its scalar track then has len(c) // bracket values when preprocessing and ceil(len(c) / step) otherwise, keyed at offset + k / keyframes |
| Animator.ConditionedLength | auto_stereo_speaker_animator.py:85-88 | a conditioned channel has one value per whole bracket when preprocessing, and one per started step of the raw samples otherwise |
| Animator.ExampleTrackLength | auto_stereo_speaker_animator.py:44-101 | for a 4000-sample two-channel buffer at 8000 Hz, 25 fps and 2 keyframes per frame, the bracket is 160 and a preprocessed channel keys 12 values |

## Left out

- Blender glue is not modelled: the panel and property-group declarations, drawing, file validation and registration. These are host runtime.
- Writing control points is not modelled. The host calls `object[property] = ...`, `setattr` and `keyframe_insert`; the model instead returns, for each channel, the target object's name and the control points that would be written. Creating an absent custom property with a zero default is not modelled.
- Animator.ProcessSignal: assumes every non-blank target name resolves. Looking up an object that does not exist with `scene.objects[...]` raises an error in the host and aborts the whole operator. The model has no scene.
- Animator.ProcessSignal: models only the blank-string case of the `isinstance(..., str)` checks on the object and property, because the settings are strings in the model.
- Reading the audio file (`get_signal`: `wave`, `numpy.frombuffer`) is not modelled. `Execute` takes the decoded samples as its `decoded` parameter. `None` stands for a missing or non-`.wav` file.
- The random draws of `uniform(-1.0, 1.0)` are not modelled. They are the parameter `noise`, where `noise(c)(k)` is the triple for vector item k of channel c. The order of draws across channels is not modelled.
- `apply_range` is not modelled: nothing calls it.
- IEEE floating point is not modelled. Divisions by 32767, the bias products and the accumulated timestamps `t += keyframe_span` are exact reals, so rounding in the running sum `t` is not captured. `bias == 0.0` and `bias == 1.0` are exact comparisons.
- Envelope.AverageWindow, Envelope.ScanWindow, Envelope.BlendWindow: do not model numpy int16 wrap-around of the `charge`/`average` accumulators. Whether Python-int plus numpy-int16 wraps depends on the NumPy version, so the accumulators are unbounded integers.
- Envelope.Peak and Envelope.AbsSum: use the mathematical absolute value. numpy's int16 `abs(-32768)` stays -32768; that behaviour is modelled separately under "Findings".
- Names.IsSpace: covers only the ASCII characters that Python's `str.strip()` removes. Non-ASCII Unicode white space is not modelled.
- Animator.Settings.Valid: requires `fps >= 1` and `keyframes >= 1`, which the host guarantees; for 0 the source would divide by zero.
- Animator.Execute: requires `nchannels >= 1`. A decoded audio file always has at least one channel; for 0 the source's slice step would be zero.
- The inner loop of each reducer is a separate method (`ScanPeak`, `AverageWindow`, `ScanWindow`, `BlendWindow`) called from the outer loop over windows. The loop bodies and their order of updates are those of the source.

## Findings

| source | as written | input that shows it | evidently intended | confidence | as-written member | corrected member |
|---|---|---|---|---|---|---|
| auto_stereo_speaker_animator.py:185-186 | `abs(in_value) > abs(out_value)` on numpy int16 samples: `abs(-32768)` is still -32768, so such a sample never wins the peak comparison | a window holding just the sample -32768 (bracket 1): the peak comes out 0 | the peak is -32768, normalised to -32768/32767 | not executed | Envelope.PeakAsWrittenMissesMin | Envelope.PeakCharacterized |
| auto_stereo_speaker_animator.py:202-206 | `average += abs(in_value)` adds -32768 for a -32768 sample, so the magnitude sum can be negative, and negating it for a negative charge makes the value positive | a window holding just the sample -32768 (bracket 1): charge -32768, averaged value +32768/32767 | magnitude 32768/32767 with the charge's sign: -32768/32767 | not executed | Envelope.AverageAsWrittenFlipsSign | Envelope.AverageValueMeaning |
