# Crossfade playlist scheduler — a Dafny model

This project models the two crossfade schedulers of the AudioMixing app. Both play a
looping playlist of audio files. Near the end of each file they start the next one,
so the two overlap: the next file fades in while the current one fades out.

- **Graph-based scheduler** (`AudioPlayer`, module `AudioGraph`).
  - It keeps a fixed pool of two player nodes on an audio engine.
  - The flag `playingCopy` picks the current node; the other is the previous node.
  - A position poll fires once a second. When the playhead of the current file is
    within `duration` seconds of its end, the poll:
    - removes itself;
    - advances `index`, wrapping after the last file;
    - swaps the two nodes' roles;
    - restarts.
  - Each restart attaches and schedules the new current node, plays it at volume 0.1,
    schedules a new poll and starts a volume ramp.
  - The ramp timer also fires once a second. Each tick moves the current node one
    step of `1/duration` up, capped at 1, and the previous node one step down,
    floored at 0.
  - When the current node reaches full volume, the ramp timer invalidates itself and
    the previous node is stopped and detached.
  - `stop` stops both nodes and the engine, and invalidates the timers that the
    fields still refer to.
- **Media-item scheduler** (`CrossFadePlayer`, module `CrossFade`).
  - It builds one player per track whose bundle resource exists.
  - It installs an audio mix on every item: a fade-in over the first
    `crossFadeDuration` seconds and a fade-out over the last ones.
  - A periodic observer watches the current player. Once strictly less than
    `crossFadeDuration` seconds remain, it moves the observer to the next player and
    plays that player from the top.
  - In a queue of two or more players, the old player keeps playing through its own
    fade-out. A queue of one restarts its only player instead.

How the model is built:

- Module `Playlist` holds the wrap rule for the index, which both schedulers use.
- Module `VolumeRamp` holds the ramp arithmetic and what it implies:
  - the ramp ends after `ceil(0.9 * duration)` ticks, never more than `duration`;
  - when it ends, the outgoing node still has volume `(duration - ticks) / duration`;
  - that volume is zero only for durations below 10 seconds.
- `AudioGraph` models the class with `PlayerNode` objects and fields that its methods
  update in place.
  - Every method is proved against a pure transition function over `EngineState`,
    which is the value of all the fields.
  - The scheduler's properties are proved about those functions: wrap-around, slot
    alternation, volumes in [0, 1], ramp termination, idempotent stop, and timers
    left over.
  - A timer is a presence flag (`timer`) or a reference (`volumeTimer`: none,
    scheduled or invalidated).
  - A ghost count `rampTimers` holds the ramp timers still scheduled on the run loop.
  - A timer firing is a method call: `PollTick` or `RampTick`.
    - `PollTick` takes the playhead the poll reads and whether the engine starts.
    - `RampTick` takes `firing`: whether the referenced ramp timer or a stray fires.
- `CrossFade` models the queue, the observer token and the players as objects.
  - The ramp windows of `addFadeInOut` are a pure function.
  - Their meaning comes from a gain function that follows AVFoundation's documented
    rule for volume ramps. That rule is an assumption about the library, not code of
    this repository.
  - With it the model proves fade-in, full volume, fade-out, silence after the end
    and gains within [0, 1].
  - It also proves what the overlap sounds like in a queue of two or more players.
    The next item starts `lag` seconds
    after the current one enters its fade-out, and throughout the overlap the two
    gains add up to 1 - lag / crossFadeDuration. Because the trigger is strict, the
    lag is always positive, so the sum is always below full volume.

Behaviour of the code that the model keeps as written:

- The incoming node starts at volume 0.1, not 0, so with `duration` 5 the ramp takes
  5 ticks (0.1, 0.3, 0.5, 0.7, 0.9, then 1.0).
- A track whose resource is missing is skipped, not reported as an error.
- If the engine fails to start, `start` prints the error and leaves the current node
  attached, with the file queued on it, without starting it. It does not stop the
  session.
  - A node reused before its clean-up is still playing its old file, and nothing
    stops it.
  - The ramp that is still running keeps its timer referenced. With the slots
    flipped, its next tick raises the reused node and lowers the node that had just
    started fading in, so the fade runs backwards
    (`FailedTransitionReversesRunningRamp`).
- The media-item trigger is strict (`>`); the graph poll's is not (`>=`).
- In a queue of two or more players, the media-item crossfade never starts exactly
  at the start of the fade-out window.
  The observer ticks once a second, so the next item starts up to one second late.
  During the overlap the combined gain then dips by up to 1 / crossFadeDuration,
  e.g. by 20% for a 5-second fade (`CrossFadeOverlapDips`).
- With only one resolvable track, `handleCrossFade` moves the index back to 0 and
  seeks the same, still playing, player to the top. Nothing overlaps: the fade-out
  is cut while still audible and the item restarts silent
  (`SinglePlayerRestartCutsFadeOut`, and `HandleCrossFade` keeps the same current
  player exactly when the queue has one player).
- `scheduleFile` queues a file behind those already scheduled on a node. A
  transition that fires before the last ramp has cleaned up the reused node
  therefore queues the new file behind the rest of the old one
  (`TransitionQueuesBehindOldFile`).
- `stop` invalidates only the ramp timer that `volumeTimer` refers to. A transition
  that happens while a ramp is still running overwrites that reference, and the
  timer it referred to keeps running (`TransitionDuringRampLeavesStrayTimer`).

## Model

| member | source | states |
|---|---|---|
| Playlist.NextIndex | AudioMixing/AudioMixing/AudioPlayer.swift:140-144 | The next index is in range, equals (i + 1) mod count, and is 0 exactly when i is the last index. `handleCrossFade` uses the same rule (CrossFadePlayer.swift, lines 105-110). |
| VolumeRamp.Step | AudioMixing/AudioMixing/AudioPlayer.swift:105 | The step of a ramp over a positive duration is positive and at most 1. |
| VolumeRamp.StepsMakeFullRange | AudioMixing/AudioMixing/AudioPlayer.swift:105 | `duration` steps cover exactly the full range 0 to 1. |
| VolumeRamp.FadeUp | AudioMixing/AudioMixing/AudioPlayer.swift:112-114 | The incoming volume never decreases and never exceeds 1. It is 1 exactly when one more step would reach or pass 1; otherwise it is the old volume plus one step. |
| VolumeRamp.FadeDown | AudioMixing/AudioMixing/AudioPlayer.swift:107-111 | The outgoing volume never increases and never drops below 0. It is 0 exactly when the old volume is at most one step; otherwise it is the old volume minus one step. |
| VolumeRamp.VolumeUpAfter | AudioMixing/AudioMixing/AudioPlayer.swift:103-114 | After any number of ticks the incoming volume is between its start and 1. |
| VolumeRamp.VolumeDownAfter | AudioMixing/AudioMixing/AudioPlayer.swift:103-111 | After any number of ticks the outgoing volume is between 0 and its start. |
| VolumeRamp.TravelOfStep | AudioMixing/AudioMixing/AudioPlayer.swift:105 | k steps of a `duration`-second ramp add up to k / duration. |
| VolumeRamp.VolumeUpAfterIsLinear | AudioMixing/AudioMixing/AudioPlayer.swift:112-114 | The capped ramp up equals the straight line from the start volume, cut at 1. |
| VolumeRamp.VolumeDownAfterIsLinear | AudioMixing/AudioMixing/AudioPlayer.swift:107-111 | The floored ramp down equals the straight line from the start volume, cut at 0. |
| VolumeRamp.RampTicks | AudioMixing/AudioMixing/AudioPlayer.swift:100-115 | The number of ticks from 0.1 to full volume is between 1 and `duration`. It is the least k with 10k >= 9 * duration. |
| VolumeRamp.TravelReachesNineTenths | AudioMixing/AudioMixing/AudioPlayer.swift:100-115 | After k ticks the steps add up to at least 0.9 exactly when 10k >= 9 * duration. |
| VolumeRamp.IncomingFullAfter | AudioMixing/AudioMixing/AudioPlayer.swift:100-115 | A ramp from 0.1 has reached full volume after k ticks exactly when 10k >= 9 * duration. |
| VolumeRamp.RampReachesFullVolume | AudioMixing/AudioMixing/AudioPlayer.swift:100-115 | A ramp from 0.1 is at full volume after RampTicks(duration) ticks and below full volume at every earlier tick. |
| VolumeRamp.TravelWithinRange | AudioMixing/AudioMixing/AudioPlayer.swift:105-111 | Within `duration` ticks the steps add up to at most 1. What is left of the range, times the duration, is the number of ticks left. |
| VolumeRamp.OutgoingVolumeScaled | AudioMixing/AudioMixing/AudioPlayer.swift:101-115 | When the ramp completes, the outgoing volume times the duration equals duration - RampTicks(duration). |
| VolumeRamp.RampTicksIsDuration | AudioMixing/AudioMixing/AudioPlayer.swift:100-115 | The ramp takes all `duration` ticks exactly when duration < 10. |
| VolumeRamp.OutgoingVolumeAtCompletion | AudioMixing/AudioMixing/AudioPlayer.swift:100-118 | When the ramp completes, the outgoing node's volume is (duration - RampTicks) / duration. It is silent exactly when duration < 10, so longer fades stop an audible node. |
| AudioGraph.Duration | AudioMixing/AudioMixing/AudioPlayer.swift:201-206 | A file's duration is non-negative, and duration times sample rate is its length in frames. |
| AudioGraph.CurrentSlot | AudioMixing/AudioMixing/AudioPlayer.swift:28-30 | The current node is one of the two slots of the pool, and it is the last one exactly when `playingCopy`. |
| AudioGraph.PreviousSlot | AudioMixing/AudioMixing/AudioPlayer.swift:35-37 | The previous node is the other slot, never the current one, and it becomes current when `playingCopy` flips. |
| AudioGraph.StartObserverSpec | AudioMixing/AudioMixing/AudioPlayer.swift:125-126 | Scheduling the poll makes it live and changes neither the nodes nor the ramp timers. |
| AudioGraph.RemoveObserverSpec | AudioMixing/AudioMixing/AudioPlayer.swift:156-160 | Removing a live poll leaves no poll and changes neither the nodes, the index nor the slot. |
| AudioGraph.FadeInOutSpec | AudioMixing/AudioMixing/AudioPlayer.swift:99-103 | Starting a ramp sets the current node to 0.1 and the previous node to 1.0. It schedules a new ramp timer, and every ramp timer scheduled before it becomes a stray. |
| AudioGraph.CleanUpSpec | AudioMixing/AudioMixing/AudioPlayer.swift:165-171 | Clean-up stops the previous node, which clears the files scheduled on it, and detaches it. Nothing else changes. |
| AudioGraph.FadeStepSpec | AudioMixing/AudioMixing/AudioPlayer.swift:105-114 | The volume half of a ramp tick keeps every volume in [0, 1] and changes nothing but the nodes. |
| AudioGraph.CompleteRampSpec | AudioMixing/AudioMixing/AudioPlayer.swift:115-118 | Completing a ramp removes one scheduled ramp timer. The field is marked invalidated only when the referenced timer fired. The previous node is stopped, detached and cleared, the current node is unchanged, and nothing else changes. |
| AudioGraph.RampTickSpec | AudioMixing/AudioMixing/AudioPlayer.swift:103-119 | Any ramp tick, of the referenced timer or a stray, keeps the state valid, with both volumes in [0, 1]. |
| AudioGraph.RampTickMovesVolumes | AudioMixing/AudioMixing/AudioPlayer.swift:105-118 | See the ramp tick row below. |
| AudioGraph.StartSpec | AudioMixing/AudioMixing/AudioPlayer.swift:71-94 | See the start row below. |
| AudioGraph.PollFires | AudioMixing/AudioMixing/AudioPlayer.swift:128-135 | A poll fires exactly when the playhead is known and at most `duration` seconds of the current file remain. |
| AudioGraph.PollSpec | AudioMixing/AudioMixing/AudioPlayer.swift:126-149 | See the poll row below. |
| AudioGraph.StopSpec | AudioMixing/AudioMixing/AudioPlayer.swift:177-193 | See the stop row below. |
| AudioGraph.StopIsIdempotent | AudioMixing/AudioMixing/AudioPlayer.swift:177-193 | Stopping twice gives the same state as stopping once. |
| AudioGraph.RampRun | AudioMixing/AudioMixing/AudioPlayer.swift:103-119 | Repeated ticks of the referenced ramp timer keep the state valid and do not change the index, the slot or the poll. |
| AudioGraph.RampRunBeforeCompletion | AudioMixing/AudioMixing/AudioPlayer.swift:103-119 | While the incoming volume stays below 1, k ticks keep the timer scheduled. The nodes are then at VolumeUpAfter and VolumeDownAfter of their start volumes, with their other fields unchanged. |
| AudioGraph.RampRunShift | AudioMixing/AudioMixing/AudioPlayer.swift:103-119 | Running k + 1 ticks is running k ticks and then one more. |
| AudioGraph.RampTerminates | AudioMixing/AudioMixing/AudioPlayer.swift:99-119 | See the ramp termination row below. |
| AudioGraph.TransitionQueuesBehindOldFile | AudioMixing/AudioMixing/AudioPlayer.swift:79 | A transition queues the new file behind whatever is still scheduled on the reused node. The new file is all that node holds exactly when the node was cleaned up since it last played. |
| AudioGraph.FailedTransitionReversesRunningRamp | AudioMixing/AudioMixing/AudioPlayer.swift:79-118 | A transition whose engine start fails while the last ramp runs leaves the reused node playing if it was, and the last ramp's timer referenced. Its next tick moves the reused node one step up and the node that just started fading in one step down. |
| AudioGraph.TransitionDuringRampLeavesStrayTimer | AudioMixing/AudioMixing/AudioPlayer.swift:99-103 | See the stray timer row below. |
| AudioGraph.PlayerNode.constructor | AudioMixing/AudioMixing/AudioPlayer.swift:18 | A new node is at full volume, stopped, detached, with nothing scheduled. |
| AudioGraph.AudioPlayer.constructor | AudioMixing/AudioMixing/AudioPlayer.swift:47-54 | init keeps all files and the duration and starts at index 0 with `playingCopy` false. There are two fresh nodes, no timers, and the engine is not running. |
| AudioGraph.AudioPlayer.CurrentPlayer | AudioMixing/AudioMixing/AudioPlayer.swift:28-30 | currentPlayer is the pool node in the current slot. |
| AudioGraph.AudioPlayer.PreviousPlayer | AudioMixing/AudioMixing/AudioPlayer.swift:35-37 | previousPlayer is the pool node in the other slot. |
| AudioGraph.AudioPlayer.Start | AudioMixing/AudioMixing/AudioPlayer.swift:71-94 | start changes the fields as StartSpec says, and the class invariant holds. |
| AudioGraph.AudioPlayer.FadeInOutAudio | AudioMixing/AudioMixing/AudioPlayer.swift:99-103 | fadeInOutAudio changes the fields as FadeInOutSpec says. |
| AudioGraph.AudioPlayer.RampTick | AudioMixing/AudioMixing/AudioPlayer.swift:103-119 | A ramp tick changes the fields as RampTickSpec says. It reports completion exactly when the current node is at full volume. |
| AudioGraph.AudioPlayer.FadeStep | AudioMixing/AudioMixing/AudioPlayer.swift:105-114 | The volume updates of the ramp closure change the nodes as FadeStepSpec says. |
| AudioGraph.AudioPlayer.CompleteRamp | AudioMixing/AudioMixing/AudioPlayer.swift:115-118 | The completing branch of the ramp closure changes the fields as CompleteRampSpec says. |
| AudioGraph.AudioPlayer.StartObserver | AudioMixing/AudioMixing/AudioPlayer.swift:125-126 | startObserver changes the fields as StartObserverSpec says. |
| AudioGraph.AudioPlayer.PollTick | AudioMixing/AudioMixing/AudioPlayer.swift:126-149 | A poll tick fires exactly as PollFires says and changes the fields as PollSpec says. |
| AudioGraph.AudioPlayer.RemoveObserver | AudioMixing/AudioMixing/AudioPlayer.swift:156-160 | removeObserver changes the fields as RemoveObserverSpec says. |
| AudioGraph.AudioPlayer.CleanUpAndDetachPlayerNode | AudioMixing/AudioMixing/AudioPlayer.swift:165-171 | Clean-up changes the nodes as CleanUpSpec says. |
| AudioGraph.AudioPlayer.Stop | AudioMixing/AudioMixing/AudioPlayer.swift:177-193 | stop changes the fields as StopSpec says. |
| CrossFade.Kept | AudioMixing/AudioMixing/CrossFadePlayer.swift:44-48 | A track contributes one player, with the found asset, when its resource exists, and none otherwise. |
| CrossFade.Resolved | AudioMixing/AudioMixing/CrossFadePlayer.swift:43-49 | The queue never has more entries than the playlist. |
| CrossFade.ResolvedStep | AudioMixing/AudioMixing/CrossFadePlayer.swift:43-49 | Handling one more track appends what that track contributes. |
| CrossFade.ResolvedAppend | AudioMixing/AudioMixing/CrossFadePlayer.swift:43-49 | Building the queue from two parts of a playlist gives the two parts' queues in order. |
| CrossFade.ResolvedMembers | AudioMixing/AudioMixing/CrossFadePlayer.swift:43-49 | An asset is in the queue exactly when some track resolves to it. |
| CrossFade.ResolvedKeepsAll | AudioMixing/AudioMixing/CrossFadePlayer.swift:43-49 | The queue is as long as the playlist exactly when every track resolves, so any missing resource is skipped. |
| CrossFade.FadeInOut | AudioMixing/AudioMixing/CrossFadePlayer.swift:131-142 | addFadeInOut installs two ramps: 0 to 1 starting at 0, and 1 to 0. Both have length d, and the fade-out ends exactly at the asset's end. |
| CrossFade.GainFromInRange | AudioMixing/AudioMixing/CrossFadePlayer.swift:140-142 | Ramps between volumes in [0, 1] give a gain in [0, 1] at every time. |
| CrossFade.FadeInOutGainInRange | AudioMixing/AudioMixing/CrossFadePlayer.swift:131-147 | The installed mix keeps the gain in [0, 1] at every time. |
| CrossFade.FadeInGain | AudioMixing/AudioMixing/CrossFadePlayer.swift:135-141 | When the windows do not overlap, the gain during the first d seconds is t / d. |
| CrossFade.FullVolumeBetweenFades | AudioMixing/AudioMixing/CrossFadePlayer.swift:135-142 | When the windows do not overlap, the gain is 1 between them. |
| CrossFade.FadeOutGain | AudioMixing/AudioMixing/CrossFadePlayer.swift:138-142 | During the last d seconds the gain is (assetDuration - t) / d. |
| CrossFade.SilentAfterEnd | AudioMixing/AudioMixing/CrossFadePlayer.swift:138-142 | From the asset's end on, the gain is 0. |
| CrossFade.OverlapGain | AudioMixing/AudioMixing/CrossFadePlayer.swift:131-142 | Suppose the next item, on another player, starts from the top `lag` seconds after the current one enters its fade-out. Then throughout the overlap the two gains add up to 1 - lag / d. Only a lag of 0 gives full volume. |
| CrossFade.CrossFadeDue | AudioMixing/AudioMixing/CrossFadePlayer.swift:81-88 | A tick starts a crossfade exactly when the item is ready and strictly less than `crossFadeDuration` seconds remain. |
| CrossFade.CrossFadeStartsInFadeOut | AudioMixing/AudioMixing/CrossFadePlayer.swift:88 | With a ready item, a crossfade is due exactly when the current time is past the start of the item's fade-out window. It is never due at that start itself. |
| CrossFade.SinglePlayerRestartCutsFadeOut | AudioMixing/AudioMixing/CrossFadePlayer.swift:98-117 | With one player, the crossfade cuts the item's fade-out while its gain is still (assetDuration - currentTime) / d > 0. The item restarts at gain 0. |
| CrossFade.CrossFadeOverlapDips | AudioMixing/AudioMixing/CrossFadePlayer.swift:77-88 | In a queue of two or more players, a tick at `currentTime` that starts a crossfade is lag = currentTime - (assetDuration - d) seconds into the fade-out. Throughout the overlap the two gains then add up to 1 - lag / d. The sum is strictly below 1. If the tick one second earlier was not yet due, it is at least 1 - 1 / d. |
| CrossFade.Player.constructor | AudioMixing/AudioMixing/CrossFadePlayer.swift:47 | A new player holds its asset and has no mix and no observer. It is not playing and its seek position is 0. |
| CrossFade.BuildQueue | AudioMixing/AudioMixing/CrossFadePlayer.swift:43-49 | The loop builds distinct, fresh, idle players whose assets are exactly Resolved(items), in playlist order. |
| CrossFade.CrossFadePlayer.CurrentPlayer | AudioMixing/AudioMixing/CrossFadePlayer.swift:30-32 | currentPlayer is the queue entry at `index`. |
| CrossFade.CrossFadePlayer.constructor | AudioMixing/AudioMixing/CrossFadePlayer.swift:34-67 | See the init row below. |
| CrossFade.CrossFadePlayer.AddVolumeRamps | AudioMixing/AudioMixing/CrossFadePlayer.swift:70-74 | Every queued item gets the fade-in/fade-out mix for its own asset duration. No player's playback or observers change. |
| CrossFade.CrossFadePlayer.AddPeriodicTimeObserver | AudioMixing/AudioMixing/CrossFadePlayer.swift:77-78 | With no observer registered, exactly one observer is then registered, on the current player, and the token refers to it. Mixes and playback are unchanged. |
| CrossFade.CrossFadePlayer.RemovePeriodicTimeObserver | AudioMixing/AudioMixing/CrossFadePlayer.swift:120-125 | Afterwards no observer is registered and the token is empty. With no token it changes nothing, so it is idempotent. |
| CrossFade.CrossFadePlayer.HandleCrossFade | AudioMixing/AudioMixing/CrossFadePlayer.swift:98-117 | See the handleCrossFade row below. |
| CrossFade.CrossFadePlayer.ObserverTick | AudioMixing/AudioMixing/CrossFadePlayer.swift:78-94 | See the observer tick row below. |

The rows above that say "see below" state these properties:

- **Ramp tick** (`AudioGraph.RampTickMovesVolumes`):
  - the current node moves one step up and the previous node one step down;
  - the tick that brings the current node to full volume removes one scheduled ramp
    timer, marks the referenced one invalidated, and stops and detaches the previous
    node, whose scheduled file is cleared;
  - any other tick leaves the timers and the nodes' other fields unchanged.
- **Start** (`AudioGraph.StartSpec`):
  - start attaches the current node and queues the current file behind the files
    already scheduled on it;
  - if the engine starts, the engine runs, the current node plays at 0.1, the
    previous node is at 1.0, a poll is live and a new ramp timer is referenced;
  - if the engine fails, nothing else changes.
- **Poll** (`AudioGraph.PollSpec`):
  - a poll that does not fire changes nothing;
  - a poll that fires moves the index to (index + 1) mod N and flips `playingCopy`;
  - the old current node becomes the previous one, still in the same playing state;
  - the new file is queued on the new current node behind whatever is still
    scheduled on it;
  - a poll is live again only if the engine started.
- **Stop** (`AudioGraph.StopSpec`):
  - stop leaves both nodes stopped with nothing scheduled on them, the engine
    stopped, no poll and no ramp timer referenced;
  - it retires only the referenced ramp timer;
  - the index, the slot and both volumes are unchanged.
- **Ramp termination** (`AudioGraph.RampTerminates`):
  - a ramp started from 0.1 / 1.0 keeps its timer scheduled for the first
    RampTicks(duration) - 1 ticks, with RampTicks(duration) <= duration;
  - on the next tick the timer is invalidated and one fewer ramp timer is scheduled;
  - the current node is then at 1, and the previous node is stopped, detached and
    has nothing scheduled, at the volume VolumeDownAfter gives.
- **Stray timer** (`AudioGraph.TransitionDuringRampLeavesStrayTimer`):
  - a transition that fires while a ramp timer is still scheduled leaves two ramp
    timers scheduled, one of them a stray;
  - stop afterwards still leaves one running.
- **init** (`CrossFade.CrossFadePlayer.constructor`):
  - the queue holds one new player per resolvable track, in playlist order;
  - every item has its fade mix before anything plays;
  - exactly one observer is registered, on the player at `index`;
  - only that player plays.
- **handleCrossFade** (`CrossFade.CrossFadePlayer.HandleCrossFade`):
  - the index moves to (index + 1) mod the queue length, and is 0 exactly after the
    last player;
  - the new current player is another player exactly when the queue has two or
    more; with one, the same player is restarted;
  - exactly one observer is registered, on the new current player;
  - that player plays from position 0;
  - every other player keeps its playback state and position, and all mixes are
    unchanged.
- **Observer tick** (`CrossFade.CrossFadePlayer.ObserverTick`):
  - a tick of the registered observer fires exactly when CrossFadeDue holds for the
    current item;
  - when it fires, it hands over to the next player, which plays from position 0;
    every other player keeps its playback state and position;
  - otherwise no player's playback state or position changes;
  - every mix is unchanged either way;
  - one observer, on the current player, stays registered either way.

## Left out

- **AVFoundation plumbing is abstract.**
  - Left out: engine attach and connect of the mixer, the start time and completion handler of
    `scheduleFile`, the
    `AVAudioSession` category and activation, `AVMutableAudioMix` construction and
    `CMTime` conversions.
  - A node or player keeps only a volume, whether it plays, whether it is attached,
    the files scheduled on it, its item's audio mix, the position it was last sought
    to and its observers.
  - A node's `scheduled` list only grows by `scheduleFile` and is cleared by `stop`.
    A file that has played to its end stays in it, because playback progress is not
    modelled.
  - A media player's `playing` records that `play()` was called on it. The pause an
    AVPlayer makes at the end of its item is not modelled, so after several
    handovers every player that was ever started still counts as playing.
  - Whether the session and the engine start is the input `engineOk`.
  - Bundle lookup is the function `resolve`.
- **Timers and observers are not real.**
  - The run loop, real timers and the main-queue observer callback are not modelled.
  - Each firing is an explicit method call.
  - The interleaving of poll and ramp ticks is the caller's choice.
- **The playhead is an input.**
  - The conversion of render time to seconds (`sampleTime / sampleRate`) is left out.
  - The playhead is an input: `None` when the node has no render time yet.
  - For the media-item player, the observer's current time and the item's readiness
    are inputs.
- **Floating point is not modelled.**
  - Volumes and seconds are exact reals.
  - The `Float` rounding of node volumes, the `Double` arithmetic of the ramp and the
    nanosecond rounding of `CMTimeMakeWithSeconds` are left out.
  - The exact test `newValue == 1.0` is reliable in the model because the cap returns
    exactly 1.0.
- **Crashing paths are preconditions.**
  - In `AudioPlayer.init`, a file that does not load crashes (`try!`). The constructor
    requires at least one file and positive sample rates.
- **AudioGraph.AudioPlayer.constructor requires a positive duration.** Duration 0 does
  not crash: the step `1.0 / Double(0)` is infinite. Every caller passes a duration
  from 1 to 20 (RootViewController.swift, lines 26-37, default 5), so the model
  leaves duration 0 out.
  - `CrossFadePlayer` crashes on its first use of `currentPlayer` when `index` is
    outside the queue, so its constructor requires a valid index.
  - `asset.tracks.first!` crashes for an asset without an audio track; that case is
    left out.
- **AudioGraph.AudioPlayer.Start requires that no poll is live.** Both callers
  guarantee it: `PollTick` removes its poll first, and a fresh player has none.
  Calling `start` twice would leak a poll timer, and the model does not cover that.
- **CrossFade.CrossFadePlayer.AddPeriodicTimeObserver requires that no token is
  kept.** Both callers (init and `handleCrossFade`) guarantee it. The source would
  otherwise overwrite the token and leak the observer.
- **CrossFade.CrossFadePlayer.RemovePeriodicTimeObserver requires that the player
  passed is the current player.** The only caller guarantees it. Removing a token from
  a player that does not hold it raises an exception in AVFoundation.
- **setupPlayer is not modelled.** It would grow the node pool, but it is never
  called: its only call site is commented out. The pool is therefore a constant pair
  of nodes.
- **CrossFade.Gain assumes AVFoundation's ramp rule.**
  - The rule: 1.0 before the first ramp, linear within a ramp, the ramp's end volume
    after it.
  - The fade lemmas that use it (FadeInGain, FullVolumeBetweenFades, FadeOutGain,
    SilentAfterEnd, OverlapGain, CrossFadeOverlapDips) require that the two windows
    do not overlap (2 * crossFadeDuration <= asset duration). The library's
    behaviour for overlapping ramps is not modelled.
- **Files outside the scheduler are not part of this model.**
  - RootViewController.swift: UI and plist loading.
  - AudioViewController.swift: a fixed engine graph with varispeed and pitch units.
  - Looper.swift: it only constructs a `CrossFadePlayer`, and its `stop` calls a
    method the class does not define.
- **CrossFadePlayer has no stop.** The class defines no stop operation, so the media
  players and their observer are never torn down.
