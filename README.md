# PianoVelocity: motion window, velocity mapping and note cursor

This project models the logic of the `ViewController` of the PianoVelocity
demo app (testSounds/ViewController.swift). The accelerometer callback feeds
magnitude samples into a rolling window of the last 10 values. The
`doStuff` action reads the peak of that window and maps it to a note
velocity. It plays the note at a cyclic cursor `x` with that velocity and
then advances the cursor through the piano range 21..108.

The model has four modules:

- `MotionWindow` (motion_window.dfy) holds the capacity 10 and the default
  peak 1.2. `Recent(s)` is the window that a sequence of samples `s` leaves
  behind. `Peak` is the `max() ?? 1.2` of the source.
- `VelocityMapping` (velocity_mapping.dfy) holds the offset 0.8, the scale
  64.0, the clamp to 126 and the `UInt8(...)` conversion. The conversion
  rounds toward zero and fails (Swift traps) unless -1 < v < 256.
- `NoteCursor` (note_cursor.dfy) holds the step of the cursor (`x += 1`,
  back to 21 above 108) and its k-fold iteration `Advance`.
- `Controller` (view_controller.dfy) holds the class `ViewController` with
  the fields `history` (the `accelerationHistory` array) and `x`.
  `Append` is the body of the accelerometer closure. `Trigger` is
  `doStuff`. A ghost field `samples` records every magnitude that has
  arrived. The object invariant says that `history == Recent(samples)` and
  that `x` lies in 21..108.

Double arithmetic is modelled with exact reals. The magnitude
`fabs(x + y + z)` is taken as an input `real`.

Consequences of the code as written:

- The first clamp (lines 57-59) replaces only negative values with 1. A raw
  value in [0, 1) is left alone and truncates to 0, so peaks in
  [0.8, 0.8 + 1/64) give velocity 0. `VelocityZeroIff` proves this, and
  `VelocityNotMonotoneAtOffset` shows that peak 0.79 gives 1 while peak 0.8
  gives 0.
- `UInt8(...)` truncates. Peak 1.2 gives 25.6, which becomes 25. Peak 1.5
  gives 44.8, which becomes 44. `ScenarioVelocities` proves these values.

## Model

| member | source | states |
|---|---|---|
| `MotionWindow.Peak` | testSounds/ViewController.swift:51 | For an empty window the peak is 1.2. Otherwise it is one of the window's elements. In both cases it is at least every element. |
| `MotionWindow.Recent` | testSounds/ViewController.swift:38-41 | The window left by a sequence of arrivals: for n arrivals, the last min(n, 10) of them in arrival order, forming a suffix of the arrivals. |
| `MotionWindow.RecentBounded` | testSounds/ViewController.swift:38-41 | The window never holds more than 10 samples. While at most 10 samples have arrived it holds all of them. After that it holds exactly 10. |
| `MotionWindow.RecentSnoc` | testSounds/ViewController.swift:38-41 | Appending and then evicting index 0 when the count exceeds 10 turns the window of `s` into the window of `s + [v]`. This is why the append/evict update keeps the last-10 invariant. |
| `MotionWindow.EvictedNeverCount` | testSounds/ViewController.swift:38-51 | Once 10 newer samples have arrived, the older samples are gone from the window and do not affect the peak. |
| `VelocityMapping.Raw` | testSounds/ViewController.swift:55 | The raw velocity `(highest - 0.8) * 64` is negative exactly when the peak is below 0.8, zero exactly at 0.8, and below 1 exactly when the peak is below 0.8 + 1/64. |
| `VelocityMapping.Clamp` | testSounds/ViewController.swift:57-63 | After the two clamping steps the value lies in [0, 126]. |
| `VelocityMapping.TowardZero` | testSounds/ViewController.swift:68 | Rounds toward zero: the result has the sign of the input and is less than 1 away from it. |
| `VelocityMapping.ToUInt8` | testSounds/ViewController.swift:68 | `UInt8(v)` succeeds exactly when -1 < v < 256. It then yields the value rounded toward zero, which lies in 0..255. |
| `VelocityMapping.Velocity` | testSounds/ViewController.swift:55-68 | The velocity sent to the instrument always lies in 0..126. |
| `VelocityMapping.ClampedFitsUInt8` | testSounds/ViewController.swift:57-68 | A clamped value always converts to UInt8, so the conversion never traps. |
| `VelocityMapping.VelocityCases` | testSounds/ViewController.swift:55-68 | A raw value (peak - 0.8) * 64 below 0 gives 1. A raw value above 126 gives 126. A raw value in between gives its floor. |
| `VelocityMapping.VelocityZeroIff` | testSounds/ViewController.swift:55-68 | The velocity is 0 exactly when the peak lies in [0.8, 0.8 + 1/64). Both directions are proved. |
| `VelocityMapping.VelocityMonotoneUnclamped` | testSounds/ViewController.swift:55 | Where no clamp applies, a larger peak never gives a smaller velocity. |
| `VelocityMapping.VelocityMonotoneFromOffset` | testSounds/ViewController.swift:55-63 | For peaks from 0.8 upward the velocity is monotone, including the upper clamp at 126. |
| `VelocityMapping.VelocityNotMonotoneAtOffset` | testSounds/ViewController.swift:55-63 | Peak 0.79 gives velocity 1 and peak 0.8 gives 0, so the mapping is not monotone across the offset. |
| `VelocityMapping.ScenarioVelocities` | testSounds/ViewController.swift:51-68 | The default peak 1.2 gives 25. Peak 1.5 gives 44. Peaks 2.8 and 10.0 give 126. |
| `NoteCursor.NextNote` | testSounds/ViewController.swift:70-74 | One step of the cursor keeps it inside 21..108. |
| `NoteCursor.NextNoteSteps` | testSounds/ViewController.swift:70-74 | Inside the range a step adds 1, except that 108 is followed by 21. The step is +1 modulo 88 relative to 21. |
| `NoteCursor.Advance` | testSounds/ViewController.swift:70-74 | The cursor after k triggers. However many triggers occur, a cursor that starts in 21..108 stays there. |
| `NoteCursor.AdvanceClosedForm` | testSounds/ViewController.swift:70-74 | k triggers from note n land on 21 + (n - 21 + k) mod 88. |
| `NoteCursor.AdvanceReturnsIff` | testSounds/ViewController.swift:70-74 | The cursor returns to its start after k triggers exactly when k is a multiple of 88. So the period is exactly 88. |
| `Controller.ViewController.constructor` | testSounds/ViewController.swift:16-20 | A new controller has an empty history, no arrivals and `x == 21`. |
| `Controller.ViewController.Append` | testSounds/ViewController.swift:36-42 | The new magnitude goes last. Below capacity nothing is removed. At capacity exactly the element at index 0 is removed and the rest keep their order. The window still equals the last 10 arrivals, the cursor is unchanged and the count stays at most 10. |
| `Controller.ViewController.Trigger` | testSounds/ViewController.swift:48-75 | The note played is the cursor value from before the increment. The velocity is `Velocity(Peak(history))`, and its UInt8 conversion never traps. The cursor becomes `NextNote` of its old value and stays in 21..108. The history is unchanged. |
| `Controller.EmptyWindowScenario` | testSounds/ViewController.swift:48-75 | On a fresh controller a trigger plays note 21 with velocity 25 and moves the cursor to 22. |
| `Controller.ThreeSampleScenario` | testSounds/ViewController.swift:36-75 | After arrivals 0.9, 1.5 and 0.95, a trigger plays note 21 with velocity 44, the velocity of peak 1.5. |

## Left out

- `MidiEngine` (testSounds/ViewController.swift:80-149) is not modelled. This covers the AVAudioEngine and sampler setup, the sound-bank lookup, `setPatch` and the `MidiEngineErrors` it throws. It is a thin wrapper over AVFoundation, whose code is not part of this model. `Trigger` returns the note and velocity it hands to `playNote` instead.
- The delayed note-off is not modelled. `playNote` schedules it with `DispatchQueue.main.asyncAfter` after 0.15 seconds. It is asynchronous scheduling in a runtime the model cannot see. The note it stops is the `note` value `Trigger` returns, captured before the cursor advances.
- The optional `midiEngine?` is not modelled. When the engine is absent nothing is played, but the cursor still advances exactly as `Trigger` states.
- CoreMotion setup, the availability check, the 0.01 s update interval and the weak-self guard (testSounds/ViewController.swift:28-34) are left out. They are sensor and UI plumbing. Each delivered sample is a call to `Append`.
- The magnitude `fabs(x + y + z)` (testSounds/ViewController.swift:37) is not computed. `Append` takes it as an input `real`.
- IEEE-754 behaviour is not modelled: the rounding of 0.8, 1.2 and 64.0, NaN ordering in `max()`, and the trap of `UInt8(NaN)`. The model uses exact reals, so a velocity computed in Double can differ from `Velocity` by one where the raw value lies within rounding error of an integer.
- The diagnostic `print` calls (testSounds/ViewController.swift:53, 65) are left out.
