# Adaptive quality controller — Dafny model

This project models `SimpleAdaptiveQuality`, the adaptive quality controller of the
UnityMRHMDLife sample. Once per frame the controller does four things:

- It averages the recent frame rate.
- It decides whether the rendering quality level should go down, hold or go up.
- It waits until that wish has been stable for a set time.
- It then asks Unity's `QualitySettings` to move one step.

Along the way it learns a floor and a ceiling: a level below which a decrease had
no effect, and a level above which an increase had no effect. It also limits how
many times it climbs. It persists the level in `PlayerPrefs` and allows only one
working instance at a time.

The model is functional:

- `Controller.Tick` is `LateUpdate` as a pure step function over an explicit
  `State` record.
- Unity's `QualitySettings` is an oracle, the `Quality` datatype. It gives the
  level reached after `DecreaseLevel`, after `IncreaseLevel`, and after
  `SetQualityLevel(n)`.
- `Runs` chains ticks over a sequence of frames and proves what holds across them.
- `Lifecycle` models `OnEnable`, `OnDisable` and `Start` over an `Engine` record.
  That record holds the current level, `PlayerPrefs` as a map, and whether the
  static instance slot is taken.

Times and frame rates are `real`. Directions (-1, 0, +1 in the code) are the
datatype `Dir` with values `Down`, `Hold` and `Up`. For the last applied change,
`Hold` stands for the code's initial 0, meaning "none yet".

Modules: `Base` (Option, Dir), `Smoothing` (the frame-rate window),
`Controller` (configuration, state, tick), `Runs` (tick sequences), `Lifecycle`,
and `Scenario` (an end-to-end example with the default settings).

## Behaviour of the code worth knowing

- The window holds at most 29 samples after a frame. `GetFramerate` enqueues first and dequeues only when the count equals 30.
- Only a successful decrease resets `previousChange`. A hold, a failed attempt, a skipped tick or a re-enable leaves it as it was. So after a successful increase, the next successful increase costs no try until a successful decrease intervenes.
- `OnEnable` leaves the floor, the ceiling, `previousChange`, `previousResult`, `rateChangeStart` and the window as they were. `OnDisable` resets only `triedToGoUp`.
- `GetFramerate` divides by the frame duration without checking it.
- Nothing validates the configuration at run time. The `Range` attributes are inspector hints only.
- `maximumTriesToGoUp` is a float, and the integer counter is compared against it. With a fractional budget the counter can reach the next integer above it.
- After an attempt, `rateChangeStart` is set to `float.MaxValue`, but that value is never compared. The same assignment resets the direction to hold, so the next non-hold direction is a flip and restamps the clock first.
- The floor and ceiling start at the sentinels -100 and 100. Whether the level stays between them depends on `QualitySettings` moving at most one step per call; `Runs.LevelStaysInBand` proves that it then does.

## Model

| member | source | states |
|---|---|---|
| Smoothing.Push | Assets/MRLife/SimpleAdaptiveQuality.cs:253-256 | The new sample is the last element of the window. The window is a suffix of the old window plus the sample, so eviction is oldest-first. Exactly one sample is dropped when the count reaches 30, none otherwise. A window shorter than 30 stays shorter than 30. |
| Smoothing.Sample | Assets/MRLife/SimpleAdaptiveQuality.cs:249-269 | The window gains 1/deltaTime. The returned rate is the arithmetic mean of the window in both branches of the code: with one sample the raw rate is that mean. |
| Smoothing.GetFramerate | Assets/MRLife/SimpleAdaptiveQuality.cs:249-269 | The enqueue, the count test and the foreach accumulation compute the window and rate of Sample. The rate is the sum divided by the count when the count is above 1, and 1/deltaTime otherwise. |
| Smoothing.SumBelow | Assets/MRLife/SimpleAdaptiveQuality.cs:260-264 | If every sample is below b, the accumulated sum is below count times b. |
| Smoothing.SumAbove | Assets/MRLife/SimpleAdaptiveQuality.cs:260-264 | If every sample is above b, the accumulated sum is above count times b. |
| Smoothing.MeanBelow | Assets/MRLife/SimpleAdaptiveQuality.cs:258-266 | If every sample in the window is below b, the smoothed rate is below b. |
| Smoothing.MeanAbove | Assets/MRLife/SimpleAdaptiveQuality.cs:258-266 | If every sample in the window is above b, the smoothed rate is above b. |
| Controller.Classify | Assets/MRLife/SimpleAdaptiveQuality.cs:170-181 | Down iff rate < target - downThreshold. Up iff the rate is not below that and rate > target - upThreshold. Hold iff the rate lies in the closed band between the two. The down test wins when the bands overlap. |
| Controller.ClassifyMonotone | Assets/MRLife/SimpleAdaptiveQuality.cs:170-181 | A higher smoothed rate never asks for lower quality than a lower rate does. |
| Controller.LowWindowWantsDown | Assets/MRLife/SimpleAdaptiveQuality.cs:170-176 | If every sample in the window is below target - downThreshold, the tick asks to go down. |
| Controller.HighWindowWantsUp | Assets/MRLife/SimpleAdaptiveQuality.cs:170-181 | If upThreshold <= downThreshold and every sample in the window is above target - upThreshold, the tick asks to go up. |
| Controller.Attempt | Assets/MRLife/SimpleAdaptiveQuality.cs:200-246 | A change is requested iff the direction has lasted secondsBeforeChangingQuality and passes its guard: down needs level > floor; up needs level < ceiling and tries < budget. A request resets the direction to Hold and the stamp to float.MaxValue. An unchanged answer sets the floor or ceiling to the level. A changed answer raises the event (old, new) and records the direction. The up counter grows only on a successful increase that does not follow one. No request means nothing changes. |
| Controller.Tick | Assets/MRLife/SimpleAdaptiveQuality.cs:160-247 | A tick of a non-working instance, or one inside startupTime, changes nothing. Any other tick pushes one sample and classifies the window mean. A direction flip restamps the clock. A request is made iff the direction is non-hold, settled and allowed; at most one per tick. The level changes only through a request. The event fires exactly when the level changed. Floor, ceiling and budget are updated as in Attempt. |
| Runs.Run | Assets/MRLife/SimpleAdaptiveQuality.cs:160-247 | Driving the controller through frames yields one step per frame. Each step is a tick from the state and level the previous one left. |
| Runs.WindowStaysBounded | Assets/MRLife/SimpleAdaptiveQuality.cs:253-256 | A window that starts with at most 29 samples holds at most 29 at every point of a run. |
| Runs.InertStaysInert | Assets/MRLife/SimpleAdaptiveQuality.cs:162-163 | A non-working instance makes no sample, direction, request, event or level change on any tick. |
| Runs.BoundsTighten | Assets/MRLife/SimpleAdaptiveQuality.cs:209-233 | Over a run the discovered floor never falls and the discovered ceiling never rises. |
| Runs.FloorSticks | Assets/MRLife/SimpleAdaptiveQuality.cs:202-212 | After a decrease leaves the level at L, no later tick requests a decrease from any level at or below L. |
| Runs.CeilingSticks | Assets/MRLife/SimpleAdaptiveQuality.cs:222-233 | After an increase leaves the level at L, no later tick requests an increase from any level at or above L. |
| Runs.BudgetNeverExceeded | Assets/MRLife/SimpleAdaptiveQuality.cs:222-239 | With a budget of at most n tries, an up counter that starts at most n stays at most n throughout a run. |
| Runs.SpentBudgetBlocksUp | Assets/MRLife/SimpleAdaptiveQuality.cs:222 | Once the counter has reached the budget, no tick requests an increase, and the counter never moves, whatever the frame rate. |
| Runs.UpStreakCostsOneTry | Assets/MRLife/SimpleAdaptiveQuality.cs:213-239 | After a successful increase, the up counter stays put and the last change stays Up until a successful decrease. Holds, failed attempts, skipped ticks and further increases do not end the streak. |
| Runs.PendingDirectionOrigin | Assets/MRLife/SimpleAdaptiveQuality.cs:191-195 | A pending non-hold direction was first seen at some earlier tick k. rateChangeStart is the time of tick k. Every tick since then desired that direction or was skipped, and none made a request. |
| Runs.RequestFollowsStablePeriod | Assets/MRLife/SimpleAdaptiveQuality.cs:191-205 | Every request is preceded by ticks spanning at least secondsBeforeChangingQuality. In those ticks the requested direction was steadily desired and nothing was requested. |
| Runs.SettledDirectionIsRequested | Assets/MRLife/SimpleAdaptiveQuality.cs:191-225 | A tick that again desires the pending non-hold direction makes that request if the direction's stamp is at least secondsBeforeChangingQuality old and the floor, ceiling or budget guard passes. |
| Runs.SteadyDirectionStaysPending | Assets/MRLife/SimpleAdaptiveQuality.cs:191-195 | A direction that flips in at tick k and is then steadily desired without a request stays pending, with tick k's time as its stamp. |
| Runs.StablePeriodTriggersRequest | Assets/MRLife/SimpleAdaptiveQuality.cs:191-225 | The converse of RequestFollowsStablePeriod. Suppose a non-hold direction flips in at tick k, is steadily desired up to tick j with no request before j, and tick j comes at least secondsBeforeChangingQuality after tick k. If the guard passes at j, tick j requests that direction. |
| Runs.NoBackToBackRequests | Assets/MRLife/SimpleAdaptiveQuality.cs:200-225 | With a positive stability delay, the tick after a request never requests. |
| Runs.StepKeepsBand | Assets/MRLife/SimpleAdaptiveQuality.cs:202-233 | With a QualitySettings that moves at most one step in the requested direction, a tick keeps minimumLevel <= level <= maximumLevel. |
| Runs.LevelStaysInBand | Assets/MRLife/SimpleAdaptiveQuality.cs:202-233 | Under the same assumption, a run that starts with the level between the floor and the ceiling keeps it there at every point. |
| Lifecycle.ResolveTargetFramerate | Assets/MRLife/SimpleAdaptiveQuality.cs:105-122 | An XR refresh rate of at least 30 becomes the target. Otherwise a positive application cap below the configured target replaces it, and with no such cap the configured target is kept. The result is always one of the three inputs, and it is positive when the configured target is. |
| Lifecycle.GetInt | Assets/MRLife/SimpleAdaptiveQuality.cs:73 | PlayerPrefs.GetInt returns the stored value when the key is present and the default otherwise. |
| Lifecycle.Enable | Assets/MRLife/SimpleAdaptiveQuality.cs:45-74 | With the slot taken, the instance is marked not working and the engine is untouched. Otherwise the instance claims the slot and works. It stamps startTime, resolves the target, records the level it found, and applies the persisted level, or the current one if none is saved. The window, direction, floor, ceiling, counter and last change are kept. |
| Lifecycle.Disable | Assets/MRLife/SimpleAdaptiveQuality.cs:126-145 | A non-working instance changes nothing: it does not free the slot it never held. A working one saves the current level under MRQualityLevel, keeps the other saved keys, writes no other key, frees the slot and resets only the up counter. |
| Lifecycle.Start | Assets/MRLife/SimpleAdaptiveQuality.cs:147-157 | A working instance restarts the warm-up clock. It raises the event (found level, current level) exactly when the restore moved the level. |
| Lifecycle.StartAnnouncesRestore | Assets/MRLife/SimpleAdaptiveQuality.cs:147-157 | After a successful OnEnable, Start raises the event (found level, restored level) exactly when restoring the persisted level moved the engine away from the level OnEnable found. |
| Lifecycle.PersistRoundTrip | Assets/MRLife/SimpleAdaptiveQuality.cs:136-137 | The level saved by OnDisable is restored exactly by the next OnEnable when QualitySettings accepts it unchanged. |
| Lifecycle.SecondInstanceStaysInert | Assets/MRLife/SimpleAdaptiveQuality.cs:51-57 | An instance enabled while another holds the slot makes no request, raises no event and changes no level or state on any frame. |
| Lifecycle.ReenableKeepsLearning | Assets/MRLife/SimpleAdaptiveQuality.cs:126-145 | Disabling and re-enabling keeps the floor, the ceiling and the last applied change, and gives the whole up budget back. |
| Scenario.SustainedLowRateDecreasesOnce | Assets/MRLife/SimpleAdaptiveQuality.cs:160-219 | With default settings and a 90 fps target, 60 fps frames from the end of warm-up make no request for 2 s. Then exactly one decrease is made; it moves the level down by one, raises the event and resets the direction to Hold. |

## Left out

- The Windows Holographic build branch (lines 82-103), which reads the holographic display's refresh rate. It is platform code behind compile-time switches. The XR flag, the XR device refresh rate and `Application.targetFrameRate` are inputs (`Platform`).
- The `System.Threading.Mutex` around the instance slot. It only serialises OnEnable and OnDisable, which the model runs one after the other on an explicit `slotTaken` flag.
- `PlayerPrefs.Save()` and disk I/O. `PlayerPrefs` is an in-memory map from key to integer.
- Unity's `QualitySettings` internals: how many levels exist and how `SetQualityLevel` clamps. The `Quality` oracle answers these.
- `this.enabled = false` and Unity's rule that disabled components get no `LateUpdate`. The host decides which frames reach `Tick`.
- The debug `TextMesh` text (lines 185-188). It is display only.
- Event subscribers. The event is the `Notice` value a step returns. Subscriber lists and their failures belong to the host.
- IEEE single-precision rounding. All arithmetic is exact over `real`, and `float.MaxValue` is the real constant `FloatMax`.
- Controller.Tick: requires deltaTime > 0 on every tick that samples, because 1/0 is +Infinity in C# and `real` has no infinity. Skipped ticks never read the delta and carry no such requirement.
- Runs.Run: asks every frame of a run for a positive deltaTime (`PositiveDeltas`), skipped frames included. This is a modelling convenience so that the run lemmas need not track which frames are skipped; Unity reports a positive delta on every frame.
- Runs.RequestFollowsStablePeriod: assumes the run starts with no pending direction (`Hold`), as after construction. A re-enabled instance can carry an older pending direction whose start lies before the run.
- Runs.PendingDirectionOrigin: the same assumption as RequestFollowsStablePeriod.
- Runs.LevelStaysInBand: assumes QualitySettings moves at most one step per DecreaseLevel or IncreaseLevel call, in the requested direction (`OneStep`), and that the run starts inside the band. Unity behaves this way, but its internals are not part of this model.
- Runs.StepKeepsBand: the same one-step assumption as LevelStaysInBand.
- `Assets/MRLife/XRHMDConnectivityHandler.cs`: headset detection, toggling XR, scene loading and restarting the app are engine and OS glue.
- `Assets/ObjectGenerator.cs`: random object spawning; its only link to the controller is a subscriber that stops spawning at level 0.
