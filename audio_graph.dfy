/** The graph-based crossfade scheduler (class AudioPlayer in AudioPlayer.swift).

    A fixed pool of two player nodes is shared by the whole playlist; the flag
    `playingCopy` says which of the two is the current one. A once-per-second
    poll timer watches the playhead of the current node and, once it is within
    `duration` seconds of the end of the file, advances the index, swaps the
    nodes and restarts; a once-per-second ramp timer raises the current node's
    volume and lowers the previous node's volume until the current one is at
    full volume, then stops and detaches the previous node.

    The class is proved against pure transition functions over `EngineState`,
    the value of all its fields; the properties of the scheduler are proved
    about those functions. */
module AudioGraph {
  import opened Playlist
  import opened VolumeRamp

  // ---------------------------------------------------------------------------
  // Audio files
  // ---------------------------------------------------------------------------

  /** An audio file as the scheduler sees it: its length in sample frames and
      the sample rate of its processing format. */
  datatype AudioFile = AudioFile(length: nat, sampleRate: real)

  /** Playing time of a file in seconds (the `duration` extension of AVAudioFile). */
  function Duration(f: AudioFile): (secs: real)
    requires f.sampleRate > 0.0
    ensures secs >= 0.0
    ensures secs * f.sampleRate == f.length as real
  {
    f.length as real / f.sampleRate
  }

  // ---------------------------------------------------------------------------
  // Scheduler state
  // ---------------------------------------------------------------------------

  /** What a Timer! field refers to: nothing, a timer still scheduled on the run
      loop, or a timer already invalidated. */
  datatype TimerRef = NoTimer | Scheduled | Invalidated

  /** Which ramp timer fires: the one `volumeTimer` refers to, or an older one
      that was overwritten while still scheduled. */
  datatype Firing = Referenced | Stray

  /** A player node: its volume, whether it plays, whether it is attached to the
      engine, and the indices of the files scheduled on it since it was last
      stopped, in the order they play: scheduling a file queues it behind those
      already there, and stopping the node clears them. */
  datatype NodeState = NodeState(volume: real, playing: bool, attached: bool, scheduled: seq<nat>)

  /** Every field of an AudioPlayer, plus `rampTimers`, the number of ramp timers
      the run loop still has scheduled (including the one `volumeTimer` refers to). */
  datatype EngineState = EngineState(
    audioFile: seq<AudioFile>,
    duration: int,
    index: int,
    playingCopy: bool,
    nodes: seq<NodeState>,
    timer: bool,
    volumeTimer: TimerRef,
    rampTimers: nat,
    engineRunning: bool)

  predicate ValidState(s: EngineState) {
    && |s.audioFile| > 0
    && 0 <= s.index < |s.audioFile|
    && s.duration > 0
    && (forall i :: 0 <= i < |s.audioFile| ==> s.audioFile[i].sampleRate > 0.0)
    && |s.nodes| == 2
    && 0.0 <= s.nodes[0].volume <= 1.0 && 0.0 <= s.nodes[1].volume <= 1.0
    && (s.volumeTimer == Scheduled ==> s.rampTimers >= 1)
  }

  /** Slot of the current node in the pool of two: the last one when `playingCopy`. */
  function CurrentSlot(playingCopy: bool): (slot: nat)
    ensures slot < 2
    ensures slot == 1 <==> playingCopy
  {
    if playingCopy then 1 else 0
  }

  /** Slot of the previous node: always the other slot of the pool, and the one that
      becomes current when `playingCopy` flips. */
  function PreviousSlot(playingCopy: bool): (slot: nat)
    ensures slot < 2 && slot != CurrentSlot(playingCopy)
    ensures slot == CurrentSlot(!playingCopy)
  {
    if playingCopy then 0 else 1
  }

  function Current(s: EngineState): (node: NodeState)
    requires |s.nodes| == 2
  {
    s.nodes[CurrentSlot(s.playingCopy)]
  }

  function Previous(s: EngineState): (node: NodeState)
    requires |s.nodes| == 2
  {
    s.nodes[PreviousSlot(s.playingCopy)]
  }

  /** Ramp timers still scheduled that no field refers to any more. */
  function StrayRampTimers(s: EngineState): (strays: nat)
    requires ValidState(s)
  {
    if s.volumeTimer == Scheduled then s.rampTimers - 1 else s.rampTimers
  }

  /** A ramp timer can fire only while it is scheduled. */
  predicate CanFire(s: EngineState, firing: Firing)
    requires ValidState(s)
  {
    match firing
    case Referenced => s.volumeTimer == Scheduled
    case Stray => StrayRampTimers(s) > 0
  }

  // ---------------------------------------------------------------------------
  // Transition functions, one per operation of AudioPlayer
  // ---------------------------------------------------------------------------

  /** startObserver: schedule the position poll. */
  function StartObserverSpec(s: EngineState): (r: EngineState)
    requires ValidState(s)
    ensures ValidState(r) && r.timer
    ensures r.nodes == s.nodes && r.volumeTimer == s.volumeTimer && r.rampTimers == s.rampTimers
  {
    s.(timer := true)
  }

  /** removeObserver: invalidate the position poll and drop the reference to it. */
  function RemoveObserverSpec(s: EngineState): (r: EngineState)
    requires ValidState(s) && s.timer
    ensures ValidState(r) && !r.timer
    ensures r.nodes == s.nodes && r.index == s.index && r.playingCopy == s.playingCopy
  {
    s.(timer := false)
  }

  /** fadeInOutAudio: set the ramp's start volumes and schedule a ramp timer.
      The timer `volumeTimer` referred to before is overwritten, not invalidated,
      so every ramp timer scheduled before is now a stray. */
  function FadeInOutSpec(s: EngineState): (r: EngineState)
    requires ValidState(s)
    ensures ValidState(r)
    ensures Current(r) == Current(s).(volume := IncomingStartVolume)
    ensures Previous(r) == Previous(s).(volume := OutgoingStartVolume)
    ensures r.volumeTimer == Scheduled && StrayRampTimers(r) == s.rampTimers
  {
    var c, p := CurrentSlot(s.playingCopy), PreviousSlot(s.playingCopy);
    s.(nodes := s.nodes[c := s.nodes[c].(volume := IncomingStartVolume)]
                       [p := s.nodes[p].(volume := OutgoingStartVolume)],
       volumeTimer := Scheduled,
       rampTimers := s.rampTimers + 1)
  }

  /** cleanUpAndDetachPlayerNode: stop the previous node, which clears the file
      scheduled on it, and detach it. */
  function CleanUpSpec(s: EngineState): (r: EngineState)
    requires ValidState(s)
    ensures ValidState(r)
    ensures r == s.(nodes := r.nodes)
    ensures Current(r) == Current(s)
    ensures Previous(r) == Previous(s).(playing := false, attached := false, scheduled := [])
  {
    var p := PreviousSlot(s.playingCopy);
    s.(nodes := s.nodes[p := s.nodes[p].(playing := false, attached := false, scheduled := [])])
  }

  /** The volume half of a ramp tick: the previous node goes one step down and the
      current node one step up; nothing else changes. */
  function FadeStepSpec(s: EngineState): (r: EngineState)
    requires ValidState(s)
    ensures ValidState(r)
    ensures r == s.(nodes := r.nodes)
  {
    var step := Step(s.duration);
    var c, p := CurrentSlot(s.playingCopy), PreviousSlot(s.playingCopy);
    s.(nodes := s.nodes[p := s.nodes[p].(volume := FadeDown(s.nodes[p].volume, step))]
                       [c := s.nodes[c].(volume := FadeUp(s.nodes[c].volume, step))])
  }

  /** The completing half of a ramp tick: the firing timer invalidates itself (the
      field keeps referring to it when it is the referenced one) and the previous
      node is stopped and detached. */
  function CompleteRampSpec(s: EngineState, firing: Firing): (r: EngineState)
    requires ValidState(s) && CanFire(s, firing)
    ensures ValidState(r)
    ensures r.rampTimers == s.rampTimers - 1
    ensures r.volumeTimer == (if firing == Referenced then Invalidated else s.volumeTimer)
    ensures Current(r) == Current(s)
    ensures Previous(r) == Previous(s).(playing := false, attached := false, scheduled := [])
    ensures r == s.(nodes := r.nodes, volumeTimer := r.volumeTimer, rampTimers := r.rampTimers)
  {
    CleanUpSpec(s.(volumeTimer := if firing == Referenced then Invalidated else s.volumeTimer,
                   rampTimers := s.rampTimers - 1))
  }

  /** One tick of a ramp timer: the volumes move one step, and the tick on which the
      current node reaches full volume completes the ramp. */
  function RampTickSpec(s: EngineState, firing: Firing): (r: EngineState)
    requires ValidState(s) && CanFire(s, firing)
    ensures ValidState(r)
  {
    var moved := FadeStepSpec(s);
    if Current(moved).volume == 1.0 then CompleteRampSpec(moved, firing) else moved
  }

  /** What one tick of a ramp timer does: the current node moves one step up and
      the previous one one step down; the tick that brings the current node to full
      volume retires the firing timer and stops and detaches the previous node,
      any other tick leaves the timers and the previous node's other fields alone. */
  lemma RampTickMovesVolumes(s: EngineState, firing: Firing)
    requires ValidState(s) && CanFire(s, firing)
    ensures var r := RampTickSpec(s, firing);
            && r.index == s.index && r.playingCopy == s.playingCopy && r.timer == s.timer
            && r.engineRunning == s.engineRunning && r.audioFile == s.audioFile && r.duration == s.duration
            && Current(r) == Current(s).(volume := FadeUp(Current(s).volume, Step(s.duration)))
            && Previous(r).volume == FadeDown(Previous(s).volume, Step(s.duration))
    ensures var r := RampTickSpec(s, firing);
            Current(r).volume == 1.0 ==>
              && Previous(r) == Previous(s).(volume := Previous(r).volume, playing := false, attached := false,
                                             scheduled := [])
              && r.rampTimers == s.rampTimers - 1
              && r.volumeTimer == (if firing == Referenced then Invalidated else s.volumeTimer)
    ensures var r := RampTickSpec(s, firing);
            Current(r).volume < 1.0 ==>
              && Previous(r) == Previous(s).(volume := Previous(r).volume)
              && r.rampTimers == s.rampTimers && r.volumeTimer == s.volumeTimer
  {
  }

  /** start: attach the current node and schedule the current file on it; if the
      audio session and the engine start, play it at volume 0.1, schedule the
      position poll and start a ramp. A failure to start is only printed. */
  function StartSpec(s: EngineState, engineOk: bool): (r: EngineState)
    requires ValidState(s) && !s.timer
    ensures ValidState(r)
    ensures r.index == s.index && r.playingCopy == s.playingCopy && r.audioFile == s.audioFile
    ensures Current(r).attached && Current(r).scheduled == Current(s).scheduled + [s.index]
    ensures Previous(r).playing == Previous(s).playing && Previous(r).attached == Previous(s).attached
    ensures engineOk ==>
              && r.engineRunning && Current(r).playing
              && Current(r).volume == IncomingStartVolume && Previous(r).volume == OutgoingStartVolume
              && r.timer && r.volumeTimer == Scheduled && StrayRampTimers(r) == s.rampTimers
    ensures !engineOk ==>
              && r == s.(nodes := r.nodes)
              && Current(r) == Current(s).(attached := true, scheduled := Current(s).scheduled + [s.index])
              && Previous(r) == Previous(s)
  {
    var c := CurrentSlot(s.playingCopy);
    var bound := s.(nodes := s.nodes[c := s.nodes[c].(attached := true, scheduled := s.nodes[c].scheduled + [s.index])]);
    if !engineOk then
      bound
    else
      var started := bound.(engineRunning := true,
                            nodes := bound.nodes[c := bound.nodes[c].(volume := IncomingStartVolume, playing := true)]);
      FadeInOutSpec(StartObserverSpec(started))
  }

  /** Whether a poll at playhead `position` starts a transition: the playhead is
      known and at most `duration` seconds remain of the current file. */
  function PollFires(s: EngineState, position: Option<real>): (fires: bool)
    requires ValidState(s)
    ensures fires <==>
              position.Some? && Duration(s.audioFile[s.index]) - position.value <= s.duration as real
  {
    position.Some? && position.value >= Duration(s.audioFile[s.index]) - s.duration as real
  }

  /** One tick of the position poll (the closure of startObserver). `position` is
      None when the node has no render time yet; the poll then does nothing. */
  function PollSpec(s: EngineState, position: Option<real>, engineOk: bool): (r: EngineState)
    requires ValidState(s) && s.timer
    ensures ValidState(r)
    ensures !PollFires(s, position) ==> r == s
    ensures PollFires(s, position) ==>
              // the index moves on, wrapping after the last file
              && r.index == (s.index + 1) % |s.audioFile|
              // the nodes swap roles: the old current node is now the previous one
              && r.playingCopy == !s.playingCopy
              && PreviousSlot(r.playingCopy) == CurrentSlot(s.playingCopy)
              && Previous(r).playing == Current(s).playing
              && Current(r).scheduled == Previous(s).scheduled + [r.index]
              // the poll that fired is gone; a new one exists only if start succeeded
              && r.timer == engineOk
  {
    if PollFires(s, position) then
      var advanced := RemoveObserverSpec(s).(index := NextIndex(s.index, |s.audioFile|),
                                             playingCopy := !s.playingCopy);
      StartSpec(advanced, engineOk)
    else
      s
  }

  /** stop: stop both nodes, which clears the files scheduled on them, and the
      engine; invalidate the timers the fields refer to and clear both fields. */
  function StopSpec(s: EngineState): (r: EngineState)
    requires ValidState(s)
    ensures ValidState(r)
    ensures !r.nodes[0].playing && !r.nodes[1].playing && !r.engineRunning
    ensures r.nodes[0].scheduled == [] && r.nodes[1].scheduled == []
    ensures !r.timer && r.volumeTimer == NoTimer && r.rampTimers == StrayRampTimers(s)
    ensures r.index == s.index && r.playingCopy == s.playingCopy
    ensures r.nodes[0].volume == s.nodes[0].volume && r.nodes[1].volume == s.nodes[1].volume
  {
    var c, p := CurrentSlot(s.playingCopy), PreviousSlot(s.playingCopy);
    s.(nodes := s.nodes[c := s.nodes[c].(playing := false, scheduled := [])]
                       [p := s.nodes[p].(playing := false, scheduled := [])],
       engineRunning := false,
       volumeTimer := NoTimer,
       rampTimers := StrayRampTimers(s),
       timer := false)
  }

  // ---------------------------------------------------------------------------
  // Properties of the transitions
  // ---------------------------------------------------------------------------

  /** Calling stop a second time changes nothing. */
  lemma StopIsIdempotent(s: EngineState)
    requires ValidState(s)
    ensures StopSpec(StopSpec(s)) == StopSpec(s)
  {
  }

  /** Ticks of the referenced ramp timer, `ticks` times or until it has invalidated itself. */
  function RampRun(s: EngineState, ticks: nat): (r: EngineState)
    requires ValidState(s)
    ensures ValidState(r)
    ensures r.index == s.index && r.playingCopy == s.playingCopy && r.timer == s.timer
    ensures r.duration == s.duration && r.audioFile == s.audioFile
    decreases ticks
  {
    if ticks == 0 || s.volumeTimer != Scheduled then s
    else RampRun(RampTickSpec(s, Referenced), ticks - 1)
  }

  /** While the incoming volume has not reached full volume, `ticks` ticks move both
      volumes along their ramps and leave the ramp timer scheduled. */
  lemma {:induction false} RampRunBeforeCompletion(s: EngineState, ticks: nat)
    requires ValidState(s) && s.volumeTimer == Scheduled
    requires VolumeUpAfter(Current(s).volume, Step(s.duration), ticks) < 1.0
    ensures RampRun(s, ticks).volumeTimer == Scheduled
    ensures RampRun(s, ticks).rampTimers == s.rampTimers
    ensures Current(RampRun(s, ticks)) ==
              Current(s).(volume := VolumeUpAfter(Current(s).volume, Step(s.duration), ticks))
    ensures Previous(RampRun(s, ticks)) ==
              Previous(s).(volume := VolumeDownAfter(Previous(s).volume, Step(s.duration), ticks))
  {
    if ticks > 0 {
      var step := Step(s.duration);
      RampRunBeforeCompletion(s, ticks - 1);
      var before := RampRun(s, ticks - 1);
      RampRunShift(s, ticks - 1);
      RampTickMovesVolumes(before, Referenced);
      var after := RampTickSpec(before, Referenced);
      assert Current(after).volume == VolumeUpAfter(Current(s).volume, step, ticks);
      assert after.volumeTimer == Scheduled;
    }
  }

  /** Running one more tick at the end is the same as running one more tick at the start. */
  lemma {:induction false} RampRunShift(s: EngineState, ticks: nat)
    requires ValidState(s)
    requires RampRun(s, ticks).volumeTimer == Scheduled
    ensures RampRun(s, ticks + 1) == RampTickSpec(RampRun(s, ticks), Referenced)
    decreases ticks
  {
    if ticks > 0 {
      assert s.volumeTimer == Scheduled;
      RampRunShift(RampTickSpec(s, Referenced), ticks - 1);
    }
  }

  /** A ramp that fadeInOutAudio starts, with no other ramp timer running, ends after
      exactly RampTicks(duration) <= duration ticks: until then its timer stays
      scheduled; on that tick the current node reaches full volume, the timer
      invalidates itself and the previous node is stopped and detached. */
  lemma RampTerminates(s: EngineState)
    requires ValidState(s) && s.volumeTimer == Scheduled
    requires Current(s).volume == IncomingStartVolume && Previous(s).volume == OutgoingStartVolume
    ensures RampTicks(s.duration) <= s.duration
    ensures forall j: nat :: j < RampTicks(s.duration) ==> RampRun(s, j).volumeTimer == Scheduled
    ensures var r := RampRun(s, RampTicks(s.duration));
            && r.volumeTimer == Invalidated && r.rampTimers == s.rampTimers - 1
            && Current(r).volume == 1.0
            && !Previous(r).playing && !Previous(r).attached && Previous(r).scheduled == []
            && Previous(r).volume == VolumeDownAfter(OutgoingStartVolume, Step(s.duration), RampTicks(s.duration))
  {
    var k := RampTicks(s.duration);
    var step := Step(s.duration);
    RampReachesFullVolume(s.duration);
    forall j: nat | j < k
      ensures RampRun(s, j).volumeTimer == Scheduled
    {
      RampRunBeforeCompletion(s, j);
    }
    RampRunBeforeCompletion(s, k - 1);
    RampRunShift(s, k - 1);
    assert VolumeUpAfter(IncomingStartVolume, step, k) == FadeUp(VolumeUpAfter(IncomingStartVolume, step, k - 1), step);
  }

  /** A transition reuses the node that was previous and queues the new file behind
      whatever is still scheduled on it: the new file is all the node holds exactly
      when the node was cleaned up (stopped) since it last played. */
  lemma TransitionQueuesBehindOldFile(s: EngineState, position: Option<real>, engineOk: bool)
    requires ValidState(s) && s.timer && PollFires(s, position)
    ensures var r := PollSpec(s, position, engineOk);
            && Current(r).scheduled[..|Previous(s).scheduled|] == Previous(s).scheduled
            && Current(r).scheduled[|Current(r).scheduled| - 1] == r.index
            && (Current(r).scheduled == [r.index] <==> Previous(s).scheduled == [])
  {
    var r := PollSpec(s, position, engineOk);
    if Current(r).scheduled == [r.index] {
      assert |Previous(s).scheduled| == 0;
    }
  }

  /** A transition whose engine start fails, fired while the last ramp still runs,
      leaves the reused node playing its old file (nothing stops it) and the last
      ramp's timer still referenced; with the slots flipped, that timer's next tick
      raises the reused node and lowers the node that had just started fading in,
      so the fade runs backwards. */
  lemma FailedTransitionReversesRunningRamp(s: EngineState, position: Option<real>)
    requires ValidState(s) && s.timer && PollFires(s, position) && s.volumeTimer == Scheduled
    ensures var r := PollSpec(s, position, false);
            && (Previous(s).playing ==> Current(r).playing)
            && r.volumeTimer == Scheduled && CanFire(r, Referenced)
            && Current(RampTickSpec(r, Referenced)).volume == FadeUp(Previous(s).volume, Step(s.duration))
            && Previous(RampTickSpec(r, Referenced)).volume == FadeDown(Current(s).volume, Step(s.duration))
  {
    var r := PollSpec(s, position, false);
    RampTickMovesVolumes(r, Referenced);
  }

  /** A transition that fires while the ramp of the last one still runs overwrites
      its timer reference: two ramp timers are then scheduled, and stop invalidates
      only the one the field refers to. */
  lemma TransitionDuringRampLeavesStrayTimer(s: EngineState, position: Option<real>)
    requires ValidState(s) && s.timer && s.volumeTimer == Scheduled && s.rampTimers == 1
    requires PollFires(s, position)
    ensures PollSpec(s, position, true).rampTimers == 2
    ensures StrayRampTimers(PollSpec(s, position, true)) == 1
    ensures StopSpec(PollSpec(s, position, true)).rampTimers == 1
  {
  }

  // ---------------------------------------------------------------------------
  // The class
  // ---------------------------------------------------------------------------

  /** An AVAudioPlayerNode reduced to what the scheduler changes on it. */
  class PlayerNode {
    var volume: real
    var playing: bool
    var attached: bool
    var scheduled: seq<nat>

    /** A fresh node: full volume, stopped, detached, nothing scheduled. */
    constructor ()
      ensures volume == 1.0 && !playing && !attached && scheduled == []
    {
      volume, playing, attached, scheduled := 1.0, false, false, [];
    }

    function Snapshot(): NodeState
      reads this
    {
      NodeState(volume, playing, attached, scheduled)
    }
  }

  class AudioPlayer {
    var audioFile: seq<AudioFile>
    /** The pool of two nodes; nothing ever adds a node to it. */
    const playerNodes: seq<PlayerNode>
    /** The position poll: true while `timer` refers to a scheduled timer. */
    var timer: bool
    var volumeTimer: TimerRef
    /** Ramp timers the run loop still has scheduled; the source has no such field. */
    ghost var rampTimers: nat
    var engineRunning: bool
    var index: int
    var playingCopy: bool
    var duration: int

    ghost function State(): EngineState
      reads this, playerNodes
      requires |playerNodes| == 2
    {
      EngineState(audioFile, duration, index, playingCopy,
                  [playerNodes[0].Snapshot(), playerNodes[1].Snapshot()],
                  timer, volumeTimer, rampTimers, engineRunning)
    }

    ghost predicate Valid()
      reads this, playerNodes
    {
      |playerNodes| == 2 && playerNodes[0] != playerNodes[1] && ValidState(State())
    }

    /** init: load every file; the pool starts with two fresh nodes. */
    constructor (files: seq<AudioFile>, duration: int)
      requires |files| > 0 && duration > 0
      requires forall i :: 0 <= i < |files| ==> files[i].sampleRate > 0.0
      ensures Valid() && fresh(playerNodes[0]) && fresh(playerNodes[1])
      ensures State() == EngineState(files, duration, 0, false,
                                     [NodeState(1.0, false, false, []), NodeState(1.0, false, false, [])],
                                     false, NoTimer, 0, false)
    {
      var first := new PlayerNode();
      var second := new PlayerNode();
      audioFile := files;
      playerNodes := [first, second];
      timer, volumeTimer, rampTimers, engineRunning := false, NoTimer, 0, false;
      index, playingCopy := 0, false;
      this.duration := duration;
    }

    function CurrentPlayer(): (node: PlayerNode)
      reads this
      requires |playerNodes| == 2
      ensures node == playerNodes[CurrentSlot(playingCopy)]
    {
      if playingCopy then playerNodes[1] else playerNodes[0]
    }

    function PreviousPlayer(): (node: PlayerNode)
      reads this
      requires |playerNodes| == 2
      ensures node == playerNodes[PreviousSlot(playingCopy)]
    {
      if playingCopy then playerNodes[0] else playerNodes[1]
    }

    method Start(engineOk: bool)
      requires Valid() && !timer
      modifies this, playerNodes
      ensures Valid()
      ensures State() == StartSpec(old(State()), engineOk)
    {
      ghost var s := State();
      ghost var c := CurrentSlot(playingCopy);
      var current := CurrentPlayer();
      current.attached := true;
      current.scheduled := current.scheduled + [index];
      ghost var bound := s.(nodes := s.nodes[c := s.nodes[c].(attached := true, scheduled := s.nodes[c].scheduled + [s.index])]);
      assert State() == bound;
      if engineOk {
        engineRunning := true;
        current.volume := IncomingStartVolume;
        current.playing := true;
        assert State() == bound.(engineRunning := true,
                                 nodes := bound.nodes[c := bound.nodes[c].(volume := IncomingStartVolume, playing := true)]);
        StartObserver();
        FadeInOutAudio();
      }
    }

    method FadeInOutAudio()
      requires Valid()
      modifies this, playerNodes
      ensures Valid()
      ensures State() == FadeInOutSpec(old(State()))
    {
      CurrentPlayer().volume := IncomingStartVolume;
      PreviousPlayer().volume := OutgoingStartVolume;
      volumeTimer := Scheduled;
      rampTimers := rampTimers + 1;
    }

    /** One firing of a ramp timer; `completed` tells whether this tick ended the ramp. */
    method RampTick(firing: Firing) returns (completed: bool)
      requires Valid() && CanFire(State(), firing)
      modifies this, playerNodes
      ensures Valid()
      ensures State() == RampTickSpec(old(State()), firing)
      ensures completed <==> Current(State()).volume == 1.0
    {
      completed := FadeStep();
      if completed {
        CompleteRamp(firing);
      }
    }

    /** The volume half of the ramp closure. */
    method FadeStep() returns (completed: bool)
      requires Valid()
      modifies playerNodes
      ensures Valid()
      ensures State() == FadeStepSpec(old(State()))
      ensures completed <==> Current(State()).volume == 1.0
    {
      var step := Step(duration);
      var previous := PreviousPlayer();
      var current := CurrentPlayer();
      previous.volume := FadeDown(previous.volume, step);
      current.volume := FadeUp(current.volume, step);
      completed := current.volume == 1.0;
    }

    /** The completing half of the ramp closure: the firing timer invalidates itself
        and the previous node is cleaned up. */
    method CompleteRamp(firing: Firing)
      requires Valid() && CanFire(State(), firing)
      modifies this, playerNodes
      ensures Valid()
      ensures State() == CompleteRampSpec(old(State()), firing)
    {
      if firing == Referenced {
        volumeTimer := Invalidated;
      }
      rampTimers := rampTimers - 1;
      CleanUpAndDetachPlayerNode();
    }

    method StartObserver()
      requires Valid()
      modifies this
      ensures Valid()
      ensures State() == StartObserverSpec(old(State()))
    {
      timer := true;
    }

    /** One firing of the position poll; `fired` tells whether it started a transition. */
    method PollTick(position: Option<real>, engineOk: bool) returns (fired: bool)
      requires Valid() && timer
      modifies this, playerNodes
      ensures Valid()
      ensures fired == PollFires(old(State()), position)
      ensures State() == PollSpec(old(State()), position, engineOk)
    {
      if position.None? {
        return false;
      }
      var secs := position.value;
      var length := Duration(audioFile[index]);
      fired := secs >= length - duration as real;
      if fired {
        RemoveObserver();
        index := NextIndex(index, |audioFile|);
        playingCopy := !playingCopy;
        Start(engineOk);
      }
    }

    method RemoveObserver()
      requires Valid() && timer
      modifies this
      ensures Valid()
      ensures State() == RemoveObserverSpec(old(State()))
    {
      timer := false;
    }

    method CleanUpAndDetachPlayerNode()
      requires Valid()
      modifies this, playerNodes
      ensures Valid()
      ensures State() == CleanUpSpec(old(State()))
    {
      var previous := PreviousPlayer();
      previous.playing := false;
      previous.scheduled := [];
      previous.attached := false;
    }

    method Stop()
      requires Valid()
      modifies this, playerNodes
      ensures Valid()
      ensures State() == StopSpec(old(State()))
    {
      var current, previous := CurrentPlayer(), PreviousPlayer();
      current.playing, current.scheduled := false, [];
      previous.playing, previous.scheduled := false, [];
      engineRunning := false;
      if volumeTimer == Scheduled {
        rampTimers := rampTimers - 1;
      }
      volumeTimer := NoTimer;
      timer := false;
    }
  }
}
