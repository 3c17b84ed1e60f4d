# Exercise repetition counter and hand-gesture classifier, in Dafny

This project models the decision logic of two webcam demos built on an
external landmark detector.

* **Repetition counter** (`job-4-praktik-d6.py`). Each frame with a detected
  person yields one reading: the mean of the two knee angles in squat mode, or
  the shoulder-wrist / shoulder-hip ratio in push-up mode. Two thresholds turn
  it into a flag: down (below 80 degrees or 0.85), up (above 160 degrees or
  1.00), or `None` in between, boundaries included. The flag goes into a
  `deque(maxlen=6)`. A two-phase machine starts in phase up with count 0. It
  goes down when the window holds at least 4 downs. It goes back up, counting
  one repetition, when the window holds at least 4 ups.
* **Gesture classifier** (`classify_gesture` in `job-4-praktik-d5.py`). This is
  an ordered decision list over fingertip-to-wrist distances: OK, THUMBS_UP,
  ROCK, PAPER, SCISSORS, then UNKNOWN.

Files:

* `options.dfy`: `Option`, standing for Python's `None` flag and for a frame
  with no detected person.
* `frame_flags.dfy` (module `FrameFlags`): phases, flags, modes, the threshold
  constants and the per-frame classifier.
* `debounce.dfy` (module `Debounce`): the bounded window. `Append` and
  `Occurrences` specify it on sequences. The class `Window` implements it as a
  ring buffer over a six-slot array, with `Push` (`append`) and `CountOf`
  (`count`).
* `rep_counter.dfy` (module `RepCounter`): the state machine. `Step` is one
  observed flag, `Frame` one camera frame, `Run` and `Session` many of them.
  It also holds the invariants and lemmas. The class `Counter` keeps the
  window, the phase and the count as fields, and its `Observe` is proved to
  implement `Step`. `CountReps` is the frame loop over a finite list of frames.
* `scenarios.dfy` (module `Scenarios`): concrete runs, derived from the
  general lemmas about runs of equal flags. `TooFewDowns` shows that three
  downs do not switch the phase. `DebounceScenario` shows the debounce
  switching down and back up. `UpDownUp` shows that `a` ups, `b` downs and `c`
  ups, each at least 4, count one repetition. `SquatScenario` is a squat
  session of knee angles 170 x4, 70 x4, 170 x4, which counts exactly one
  repetition.
* `gesture.dfy` (module `Gesture`): `Classify`. Its contract says the result
  is the first rule in precedence order whose condition holds.

The source's two checks at `job-4-praktik-d6.py:100` and `:104` are written as
two sequential `if`s, not as `if`/`elif`. `Step` models them that way: the
second check sees the phase the first one may have just set.
`AtMostOneChange` proves that both can never fire in the same frame, because
4 downs and 4 ups cannot fit in a window of 6.

The state invariant `Consistent` says three things: the window holds at most
6 entries, phase up means fewer than 4 downs, and phase down means fewer than
4 ups. It holds after every frame, from any state (`StepConsistent`). Some
properties only hold from such a state: a `None` flag never changes the phase
or the count, and a phase change is always triggered by a flag of the new phase.

Frames in which the detector finds no person are skipped entirely: nothing is
appended to the window (`job-4-praktik-d6.py:53`). Appending `None` for
undetected frames would be a different policy; the code does not do it.

## Model

| member | source | states |
|---|---|---|
| `FrameFlags.Classify` | job-4-praktik-d6.py:74-78 | Down iff the reading is strictly below the down threshold, Up iff not below it and strictly above the up threshold, `None` iff it lies between them, boundaries included |
| `FrameFlags.KneeAngle` | job-4-praktik-d6.py:71-72 | the squat reading is the mean of the two knee angles: it lies between them, equally far from both |
| `FrameFlags.SquatFlag` | job-4-praktik-d6.py:75-78 | squat mode: Down iff mean angle < 80, Up iff > 160, `None` from 80 to 160 inclusive |
| `FrameFlags.PushupFlag` | job-4-praktik-d6.py:88-91 | push-up mode: Down iff ratio < 0.85, Up iff > 1.00, `None` from 0.85 to 1.00 inclusive |
| `FrameFlags.FlagOf` | job-4-praktik-d6.py:54-91 | the flag of one detected frame: in squat mode the knee-angle mean against 80 and 160, in push-up mode the ratio against 0.85 and 1.00; Down, Up and `None` each iff the reading is below, above or between the thresholds (also stated per mode by `SquatFlag` and `PushupFlag`) |
| `FrameFlags.ClassifyMonotone` | job-4-praktik-d6.py:75-78 | with ordered thresholds, a larger reading never gets a lower flag (Down, then `None`, then Up) |
| `Debounce.Append` | job-4-praktik-d6.py:97 | the window after an append has at most 6 entries, ends with the new flag, and the rest are the most recent earlier entries in order |
| `Debounce.AppendToFull` | job-4-praktik-d6.py:97 | appending to a full window evicts the oldest entry and keeps the other five, then the new flag |
| `Debounce.AppendWithRoom` | job-4-praktik-d6.py:97 | appending to a window with room keeps every entry |
| `Debounce.Occurrences` | job-4-praktik-d6.py:100-104 | the deque's `count`: the number of entries equal to a flag, never more than the window's length; `OccurrencesSnoc`, `DisjointOccurrences` and `AppendOccurrences` state how it changes |
| `Debounce.DisjointOccurrences` | job-4-praktik-d6.py:100-104 | the counts of two different flags add up to at most the window's length |
| `Debounce.AppendOccurrences` | job-4-praktik-d6.py:97-104 | an append adds at most one occurrence of the appended flag and none of any other flag |
| `Debounce.Window.constructor` | job-4-praktik-d6.py:25 | a new window is empty |
| `Debounce.Window.Push` | job-4-praktik-d6.py:97 | the ring buffer's contents become `Append` of the old contents and the flag |
| `Debounce.Window.CountOf` | job-4-praktik-d6.py:100-104 | returns the number of entries equal to the flag |
| `RepCounter.Step` | job-4-praktik-d6.py:97-106 | one observed flag: the window becomes `Append` of the old window and the flag; the count stays, or rises by exactly 1 on a down-to-up change; a change into a phase needs at least 4 flags of that phase in the new window (`FromUp`, `FromDown`, `StepConsistent` and `AtMostOneChange` state the rest) |
| `RepCounter.Frame` | job-4-praktik-d6.py:51-106 | one camera frame: with no detected person the state is unchanged; otherwise the frame's flag is appended and the count stays or rises by 1 on a down-to-up change |
| `RepCounter.Run` | job-4-praktik-d6.py:41-106 | the state after a sequence of flags: the count never decreases and rises by at most the number of flags (`RunCountBounds` bounds it by the up flags, `RunConsistent` keeps the invariant) |
| `RepCounter.Session` | job-4-praktik-d6.py:41-106 | the state after a sequence of frames: the count never decreases and rises by at most the number of frames; `SessionSkipsUndetected` reduces it to the run of the detected flags |
| `RepCounter.InitialConsistent` | job-4-praktik-d6.py:23-25 | the initial state (empty window, phase up, count 0) satisfies the invariant |
| `RepCounter.NoConflictingMajorities` | job-4-praktik-d6.py:100-104 | a window of at most 6 cannot hold 4 downs and 4 ups |
| `RepCounter.StepConsistent` | job-4-praktik-d6.py:97-106 | after any frame, the window is bounded, phase up has fewer than 4 downs, and phase down has fewer than 4 ups |
| `RepCounter.AtMostOneChange` | job-4-praktik-d6.py:100-106 | if the up-to-down check fires, the down-to-up check cannot fire in the same frame; an unchanged phase means an unchanged count |
| `RepCounter.FromUp` | job-4-praktik-d6.py:100-101 | from phase up, the phase goes down iff the new window holds at least 4 downs, and the count is unchanged |
| `RepCounter.FromDown` | job-4-praktik-d6.py:104-106 | from phase down, the phase goes up iff the new window holds at least 4 ups, and then the count rises by exactly 1 |
| `RepCounter.CountStep` | job-4-praktik-d6.py:100-106 | the count rises by 1 on a down-to-up change and is unchanged otherwise |
| `RepCounter.ChangeNeedsMatchingFlag` | job-4-praktik-d6.py:97-106 | from a consistent state, a phase change happens only on a flag of the new phase, and a `None` flag changes neither phase nor count |
| `RepCounter.RunConsistent` | job-4-praktik-d6.py:41-106 | the invariant holds after any sequence of flags |
| `RepCounter.RunCountBounds` | job-4-praktik-d6.py:104-106 | from a consistent state (the initial one, or any state after a frame), over any run, the count never decreases and rises by at most the number of up flags observed |
| `RepCounter.NoneRunKeepsPhaseAndCount` | job-4-praktik-d6.py:97-106 | from a consistent state (the initial one, or any state after a frame), observing only `None` flags, any number of times, leaves phase and count unchanged |
| `RepCounter.SameFlagRunPhase` | job-4-praktik-d6.py:97-106 | during a run of equal flags of one phase, the invariant holds, the window's tail of that flag grows up to 6, the counter never leaves that phase once there, and reaches it once the window ends with 4 of them |
| `RepCounter.SameFlagRun` | job-4-praktik-d6.py:97-106 | during a run of equal flags of one phase, the counter never leaves that phase once there, reaches it once the window ends with 4 of them, stays consistent, and counts one repetition exactly when it goes from down to up |
| `RepCounter.FewOpposingFlags` | job-4-praktik-d6.py:100-106 | from a consistent state (the initial one, or any state after a frame), fewer than 4 flags of the opposite phase, counting those already in the window, change neither phase nor count |
| `RepCounter.SessionSkipsUndetected` | job-4-praktik-d6.py:51-53 | a session is exactly the run of its detected frames' flags; undetected frames leave no trace, not even in the window |
| `RepCounter.Counter.constructor` | job-4-praktik-d6.py:23-25 | a new counter has an empty window, phase up and count 0 |
| `RepCounter.Counter.Observe` | job-4-praktik-d6.py:97-106 | the counter's new state is `Step` of its old state; the count either stays or rises by 1 on a down-to-up change; the invariant is kept |
| `RepCounter.Counter.ProcessFrame` | job-4-praktik-d6.py:51-106 | the new state is `Frame` of the old state; a frame with no detected person changes nothing |
| `RepCounter.CountReps` | job-4-praktik-d6.py:41-106 | the frame loop ends with the count and phase of `Session` from the initial state; the count is at most the number of detected up flags |
| `Scenarios.TooFewDowns` | job-4-praktik-d6.py:100-101 | three downs from the initial state leave the phase up and the count 0 |
| `Scenarios.DebounceScenario` | job-4-praktik-d6.py:97-106 | four downs and two `None` flags switch the phase down with count 0; four ups after that switch it up with count 1; two more downs leave the count at 1 |
| `Scenarios.SquatSessionFlags` | job-4-praktik-d6.py:72-78 | knee angles 170 and 70 flag up and down |
| `Scenarios.UpDownUp` | job-4-praktik-d6.py:97-106 | from the initial state, `a` ups, then `b` downs, then `c` ups, each at least 4, give count 1 and phase up |
| `Scenarios.SquatScenario` | job-4-praktik-d6.py:41-106 | knee angles 170 x4, 70 x4, 170 x4 give count 1 and phase up |
| `Gesture.MeanReach` | job-4-praktik-d5.py:23-29 | `r_mean` is the arithmetic mean of the five fingertip-to-wrist distances |
| `Gesture.Classify` | job-4-praktik-d5.py:9-56 | the label's rule fires, and no rule earlier in precedence order fires |
| `Gesture.FirstFiringIsUnique` | job-4-praktik-d5.py:36-56 | the first firing rule is unique, so the two properties of `Classify` determine its result |
| `Gesture.OkFirst` | job-4-praktik-d5.py:36-37 | OK iff thumb-tip to index-tip distance < 35, whatever the other distances |
| `Gesture.ThumbsUpOnlyIf` | job-4-praktik-d5.py:40-41 | THUMBS_UP iff not OK, thumb y < wrist y - 40, and thumb-wrist > 0.8 x index-wrist |
| `Gesture.RockOrPaper` | job-4-praktik-d5.py:44-49 | ROCK iff the earlier rules fail and the mean < 120; PAPER iff they fail and the mean > 200; the two conditions never hold together |
| `Gesture.ClosedHandIsRock` | job-4-praktik-d5.py:44-45 | if the first two rules fail and all five tips are within 120 of the wrist, the label is ROCK |
| `Gesture.ScissorsOnlyIf` | job-4-praktik-d5.py:52-54 | SCISSORS iff the earlier rules fail, index and middle > 180, and ring and pinky < 160 |
| `Gesture.UnknownIsFallback` | job-4-praktik-d5.py:56 | UNKNOWN iff none of the five rules fires |

## Left out

- Camera capture, drawing of text and landmarks, windows and key polling (`job-4-praktik-d6.py:13-15,108-125`, `job-4-praktik-d5.py:58-94`): I/O and user interface.
- The mode toggle on key `m` (`job-4-praktik-d6.py:120-121`): keyboard policy. The mode is a parameter of `FrameFlags.FlagOf`, `Frame` and `CountReps`. The source does not reset phase, count or window on a toggle, so nothing else is affected.
- `PoseDetector.findPose`, `findPosition`, `findAngle` and `HandDetector.findHands`: calls into the external detector, whose code is not part of this model. Their outputs (the two knee angles and the landmark positions) are inputs here.
- The numeric internals of `ratio_pushup` and `dist` (`job-4-praktik-d6.py:28-38`, `job-4-praktik-d5.py:5-7`): square roots, `np.linalg.norm` and the `1e-8` guard are floating point. The push-up ratio is an input reading. `dist` is a function parameter of `Gesture.Classify`, and no proved property depends on its values.
- Floating point in general: readings, thresholds and distances are Dafny `real`s, so rounding is not modelled.
- The endless frame loop is modelled over a finite sequence of frames (`Session`, `CountReps`).
- `job-4-praktik-d4.py`: it only sums the list returned by the detector library's `fingersUp`.
