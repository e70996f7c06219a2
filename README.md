# Desktop page scripts: clock, equalizer and folder windows

A Dafny model of `script.js`, the script behind a desktop-style personal
page. It has three parts:

- **Clock** (`clock.dfy`). Each tick, `updateClock` zero-pads hours and
  minutes to two characters. The colon is opaque on even seconds. The
  padding ternary yields a string below ten and a number otherwise, and the
  parity test coerces a string such as `'05'` back to a number. Both
  conversions are modelled on decimal digits.
- **Equalizer** (`equalizer.dfy`, `visualizer.dfy`):
  - `computeRanges` clamps each bar's bucket estimates into a non-empty
    half-open range.
  - Every animation frame, each bar averages its buckets. It forms a target
    height that never drops below the floor (`BASE`), and moves its smoothed
    height 40% of the way toward the target.
  - `resetToBase` drops every bar back to the floor.
  - The play/pause button, the `canplay` event and `pagehide` drive the
    frame loop through a held handle, `rafId`.
  - The module-level state becomes the class `Visualizer.Visualizer`: the
    `smooth` array, `ranges`, `rafId` and the audio element's `paused` flag.
    The extra field `loopScheduled` is the host's view of the loop: whether a
    frame callback is actually queued.
- **Folder windows** (`folders.dfy`). Three windows share one z-index counter
  that starts at 1000:
  - a folder button toggles its window, and opening it raises it to the
    incremented counter;
  - a close button deactivates its window;
  - a header mousedown raises its window and attaches the drag listener;
  - a mousemove moves a window by `movementX`/`movementY` while that
    listener is attached.

  The source repeats these handlers once per window. Here they are one
  operation taking a window index.

Floating-point maths is given as inputs:

- The `log10` frequency mapping becomes `Estimate(lo, hi)`: the floored and
  ceiled raw bucket positions of each bar.
- `Math.pow(mag/255, 0.3)` becomes any `compress` function mapping
  `[0, 255]` into `[0, 1]`.
- `Math.exp` becomes any `exp` function mapping non-positive numbers into
  `(0, 1]`.

The Gaussian's exponent, the target formula, the mean and the smoothing step
are exact `real` arithmetic. The analyser's bytes (`getByteFrequencyData`)
and frame handles (`requestAnimationFrame`) are method parameters.

## Model

| member | source | states |
|---|---|---|
| Clock.PaddedField | script.js:13-15 | For 0 <= v < 100 the padded field shows exactly two decimal digits. Their value is v, and the padded value coerces back to the number v. |
| Clock.Display | script.js:9-21 | Hours and minutes show as two digits equal to the time's hours and minutes. The colon's opacity is "1" if and only if the seconds are even, and otherwise "0". |
| Clock.ParseDecimalString | script.js:17-21 | Reading back the digits that textContent shows for a number gives that number. |
| Clock.DecimalString | script.js:13-18 | A number's text is all digits with no leading zero. It has one digit exactly below 10 and two exactly for 10..99. |
| Equalizer.Clamp | script.js:108-110 | A bar's range starts at the lower estimate, raised to 0 if negative. Its end is exclusive: the upper estimate capped at binCount-1, or start+1 if that would leave the range empty. It is never empty. It equals the estimates when they already lie in range, and stays within [0, binCount) when the lower estimate does. Because of the cap, bucket binCount-1 is averaged only by a range that starts there. |
| Equalizer.ComputeRanges | script.js:98-112 | Yields one clamped range per bar, each non-empty. All lie within [0, binCount] when no lower estimate passes the last bucket. Starts never decrease when the lower estimates do not. |
| Equalizer.SumRange | script.js:119 | The summation loop returns the sum of data[a..b), which lies in [0, 255*(b-a)]. |
| Equalizer.SumBounds | script.js:119 | A sum of n bytes lies in [0, 255*n]. |
| Equalizer.Mean | script.js:120 | The magnitude times max(1, length) is the sum, so it is the mean of the range's bytes. It lies in [0, 255]. |
| Equalizer.MeanConstant | script.js:117-120 | The mean of a non-empty run of equal bytes is that byte. |
| Equalizer.Exponent | script.js:123-125 | The Gaussian exponent is never positive. It is zero exactly at the centre bar (2i+1 = barCount). |
| Equalizer.NearerCentreLargerExponent | script.js:123-125 | A bar at least as close to the centre as another has at least as large an exponent. Mirrored bars have equal exponents. |
| Equalizer.Target | script.js:127-131 | The target is always at least BASE, and at least BASE*HEIGHT_MULT for non-negative inputs. It is exactly BASE*HEIGHT_MULT in silence, at most PEAK = 11.2 for vRaw and weight in [0,1], and equal to PEAK at full signal and weight. |
| Equalizer.TargetRisesWithWeight | script.js:128-131 | The target is non-decreasing in the weight, and strictly increasing when vRaw > 0. |
| Equalizer.TargetRisesWithSignal | script.js:121-131 | The target is strictly increasing in vRaw for a non-negative weight. |
| Equalizer.Smooth | script.js:133-134 | The new height lies between the old height and the target. It is unchanged when the old height equals the target. Its signed gap to the target is 0.6 times the old gap. |
| Equalizer.SettleConverges | script.js:133-134 | After n frames under a constant target, the gap to the target is 0.6^n times the initial gap, with 0 <= 0.6^n <= 1. |
| Equalizer.PowerDecays | script.js:133-134 | 0.6^n * (1 + 2n/3) <= 1 for every n, so the factor of SettleConverges tends to zero. |
| Equalizer.SettleWithin | script.js:133-134 | Heights converge: for any eps > 0, after at least 3*abs(prev - target) / (2*eps) frames under a constant target, the bar is within eps of the target. |
| Equalizer.SettleAtTarget | script.js:133-134 | A bar already at its target stays there for any number of frames. |
| Equalizer.BarTargetBounds | script.js:117-131 | With compress and exp in their ranges, every bar's target lies in [BASE*HEIGHT_MULT, PEAK]. |
| Equalizer.SilenceTargetsFloor | script.js:117-131 | When all bytes are zero (and compress(0) = 0), every bar's target is exactly BASE*HEIGHT_MULT. This includes bars with no range, which read [0,1). |
| Equalizer.CentreBarTallest | script.js:117-131 | When all bytes are 255, the centre bar of an odd bar count aims strictly higher than every other bar. |
| Visualizer.Visualizer.constructor | script.js:63-73 | Initialisation gives barCount bars, all at BASE. There are no ranges and no handle, and the audio is paused. |
| Visualizer.Visualizer.ResetToBase | script.js:141-147 | Every bar is set to BASE. The bar count and the other state are unchanged. |
| Visualizer.Visualizer.CanPlay | script.js:94 | canplay recomputes the ranges from the estimates and changes nothing else. |
| Visualizer.Visualizer.Click | script.js:149-176 | Play computes ranges only if there are none, and schedules a frame only if no handle is held, keeping smooth as it is. Pause cancels the loop, drops the handle and resets every bar to BASE. If handle and loop tracked playback before the click, they still do after it. The handle passed in is non-zero, as every requestAnimationFrame handle is. |
| Visualizer.Visualizer.PageHide | script.js:178-182 | The loop is cancelled, the audio paused and every bar reset to BASE, but rafId keeps its old value. So a held handle no longer tracks the loop. |
| Visualizer.Visualizer.PageHideFixed | script.js:178-182 | The same, with the handle dropped as well. Handle, loop and playback agree afterwards. |
| Visualizer.Visualizer.Frame | script.js:114-138 | Each bar i becomes Smooth(old height, target of bar i). Its range falls back to [0,1) when missing. Heights stay in [BASE, PEAK]. A new non-zero handle is stored and the loop stays scheduled. |
| Visualizer.StaleHandleAfterPageHide | script.js:153-181 | After play, pagehide, play, the audio plays while no frame loop is scheduled. |
| Visualizer.LoopRestartsAfterFixedPageHide | script.js:153-181 | The same sequence with the corrected pagehide ends with both the audio and the frame loop running. |
| Folders.Desktop.constructor | script.js:187-201 | Three closed windows at their initial positions, none with a z-index, and the counter at 1000. |
| Folders.Desktop.FolderClick | script.js:265-304 | On an open window: only active is cleared, and z-index and counter are kept. On a closed window: the counter rises by one, and the window becomes active with the new counter as z-index, in front of every other window. Other windows are untouched. |
| Folders.Desktop.CloseClick | script.js:276-278 | Only active is cleared, and only on that window. |
| Folders.Desktop.HeaderMouseDown | script.js:214-217 | The counter rises by one. The window takes it as z-index, ending in front of all others, and starts dragging. Other windows are untouched. |
| Folders.Desktop.HeaderMouseUp | script.js:219-221 | The window stops dragging and nothing else changes. |
| Folders.Desktop.HeaderMouseMove | script.js:205-212 | A dragged window's left and top grow by movementX and movementY. A window not being dragged is unchanged, and so are all other windows. |
| Folders.RaiseOnGrab | script.js:214-304 | Software, hardware and personal opened in that order, then the software header grabbed: personal is above hardware, and software ends above both with z-index 1004. |

## Findings

| source | as written | input that shows it | evidently intended | confidence | as-written member | corrected member |
|---|---|---|---|---|---|---|
| script.js:178-181 | `pagehide` cancels the pending frame but leaves `rafId` set | press play, leave the page while it stays in the back/forward cache, return and press play: the audio plays, `if (!rafId)` skips scheduling, and the bars stay at the floor | drop the handle as the pause branch does at line 166 | medium, not executed | Visualizer.StaleHandleAfterPageHide | Visualizer.LoopRestartsAfterFixedPageHide |

## Left out

- Floating-point maths:
  - the `log10` / `10 **` frequency mapping is given as integer estimates;
  - `Math.pow(…, 0.3)` is the `compress` parameter;
  - `Math.exp` is the `exp` parameter.

  Exact real arithmetic stands for JavaScript doubles.
- Equalizer estimates: the model assumes every lower estimate is at most the
  last bucket. The real mapping guarantees this for sample rates above 40 Hz,
  since each bar's lower frequency is below Nyquist.
- Web Audio: the AudioContext, the analyser settings (FFT size 2048, so 1024
  buckets), the media element and the FFT are platform calls. Each frame's
  analyser bytes are a parameter, and initAudio is reduced to the flag
  `audioReady`.
- Scheduling: `requestAnimationFrame` / `cancelAnimationFrame` become handle
  parameters and the `loopScheduled` flag.
- Concurrency: the click handler's `await` on `resume()` and `play()` is not
  modelled, so clicks cannot interleave inside it.
  - A rejected `play()` is the `playResolved` parameter.
  - A rejected `resume()` is not modelled.
- DOM and presentation are not modelled:
  - the `scaleY(…toFixed(3))` transforms;
  - the icons, `aria-label` and `title`;
  - the `paused` CSS class on the equalizer;
  - the audio error listener;
  - `toLocaleDateString`;
  - the `setInterval` timer.
- Reading `--bar-count` with `getComputedStyle` / `parseInt` (default 41) is
  not modelled. The bar count is a constructor parameter, and
  `DEFAULT_BAR_COUNT` is 41.
- Window state read from the page is not modelled:
  - Left/top come from `getComputedStyle` + `parseInt`. They are integers
    here, so the truncation of fractional pixel values is not modelled.
  - A stylesheet z-index is not modelled. A window's z-index is None until a
    handler sets one.
  - Windows start inactive.
- The ignored argument of `resetToBase(true)` has no effect and is not
  modelled.
- Clock.ToNumber: only strings of decimal digits coerce to numbers. Other
  strings count as NaN. The padding only ever produces digit strings.
- Clock.Display: requires an hour below 24 and minutes and seconds below 60,
  which is what `Date` returns.
