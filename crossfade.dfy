/** The media-item crossfade scheduler (class CrossFadePlayer and the extension
    AVPlayerItem.addFadeInOut in CrossFadePlayer.swift).

    One player is built per playlist track whose resource can be found; every
    player's item carries an audio mix that fades in over the first
    `crossFadeDuration` seconds and fades out over the last ones. A periodic
    observer on the current player starts the next player, from the top, once
    the current one is within `crossFadeDuration` seconds of its end; in a queue
    of two or more players the previous player keeps playing through its own
    fade-out, so the two overlap, while a queue of one restarts its only player. */
module CrossFade {
  import opened Playlist

  // ---------------------------------------------------------------------------
  // Tracks and the queue built from them
  // ---------------------------------------------------------------------------

  /** A playlist entry: a display name and the bundle resource it is stored in. */
  datatype Track = Track(name: string, fileName: string, kind: string)

  /** The part of a player item's asset the scheduler reads: its duration in seconds. */
  datatype Asset = Asset(duration: real)

  /** What looking a track up yields: one asset when the resource exists, none otherwise. */
  function Kept(found: Option<Asset>): (assets: seq<Asset>)
    ensures |assets| == (if found.Some? then 1 else 0)
    ensures found.Some? ==> assets[0] == found.value
  {
    match found
    case Some(a) => [a]
    case None => []
  }

  /** The assets of the tracks whose resource `resolve` finds, in playlist order.
      `resolve` stands for the bundle lookup of a track's file name and type. */
  function Resolved(items: seq<Track>, resolve: Track -> Option<Asset>): (assets: seq<Asset>)
    ensures |assets| <= |items|
  {
    if items == [] then []
    else Resolved(items[..|items| - 1], resolve) + Kept(resolve(items[|items| - 1]))
  }

  /** Resolving one more track of the playlist appends what it resolves to. */
  lemma ResolvedStep(items: seq<Track>, k: nat, resolve: Track -> Option<Asset>)
    requires k < |items|
    ensures Resolved(items[..k + 1], resolve) == Resolved(items[..k], resolve) + Kept(resolve(items[k]))
  {
    assert items[..k + 1][..k] == items[..k];
  }

  /** Resolving a concatenation resolves each part and keeps their order. */
  lemma {:induction false} ResolvedAppend(front: seq<Track>, back: seq<Track>, resolve: Track -> Option<Asset>)
    ensures Resolved(front + back, resolve) == Resolved(front, resolve) + Resolved(back, resolve)
    decreases |back|
  {
    if back == [] {
      assert front + back == front;
    } else {
      var last := |back| - 1;
      assert (front + back)[..|front + back| - 1] == front + back[..last];
      assert (front + back)[|front + back| - 1] == back[last];
      ResolvedAppend(front, back[..last], resolve);
      var tail := Kept(resolve(back[last]));
      calc {
        Resolved(front + back, resolve);
        Resolved(front + back[..last], resolve) + tail;
        Resolved(front, resolve) + Resolved(back[..last], resolve) + tail;
        Resolved(front, resolve) + (Resolved(back[..last], resolve) + tail);
        Resolved(front, resolve) + Resolved(back, resolve);
      }
    }
  }

  /** Exactly the tracks that resolve contribute an asset, each the one it resolves to. */
  lemma {:induction false} ResolvedMembers(items: seq<Track>, resolve: Track -> Option<Asset>, a: Asset)
    ensures a in Resolved(items, resolve) <==> exists j :: 0 <= j < |items| && resolve(items[j]) == Some(a)
  {
    if items != [] {
      var init := items[..|items| - 1];
      ResolvedMembers(init, resolve, a);
      if a in Resolved(items, resolve) && a !in Resolved(init, resolve) {
        assert resolve(items[|items| - 1]) == Some(a);
      }
      if j :| 0 <= j < |items| && resolve(items[j]) == Some(a) {
        if j < |items| - 1 {
          assert init[j] == items[j];
        }
      }
    }
  }

  /** No track is dropped exactly when every track resolves. */
  lemma {:induction false} ResolvedKeepsAll(items: seq<Track>, resolve: Track -> Option<Asset>)
    ensures |Resolved(items, resolve)| == |items| <==> forall j :: 0 <= j < |items| ==> resolve(items[j]).Some?
  {
    if items != [] {
      var init := items[..|items| - 1];
      ResolvedKeepsAll(init, resolve);
      if forall j :: 0 <= j < |items| ==> resolve(items[j]).Some? {
        forall j | 0 <= j < |init|
          ensures resolve(init[j]).Some?
        {
          assert init[j] == items[j];
        }
      } else {
        var j :| 0 <= j < |items| && resolve(items[j]).None?;
        if j < |items| - 1 {
          assert init[j] == items[j];
        }
      }
    }
  }

  // ---------------------------------------------------------------------------
  // Volume ramps of an item's audio mix
  // ---------------------------------------------------------------------------

  /** A volume ramp of an audio mix: from `startVolume` to `endVolume` across the
      time range that begins at `start` seconds and lasts `length` seconds. */
  datatype MixRamp = MixRamp(startVolume: real, endVolume: real, start: real, length: real)

  /** addFadeInOut: the two ramps installed on an item whose asset lasts
      `assetDuration` seconds, a fade-in from silence over the first `d` seconds
      and a fade-out to silence over the last `d` seconds. */
  function FadeInOut(assetDuration: real, d: real): (ramps: seq<MixRamp>)
    ensures |ramps| == 2
    ensures ramps[0].startVolume == 0.0 && ramps[0].endVolume == 1.0 && ramps[0].start == 0.0
    ensures ramps[1].startVolume == 1.0 && ramps[1].endVolume == 0.0
    ensures ramps[0].length == d && ramps[1].length == d
    ensures ramps[1].start + ramps[1].length == assetDuration
  {
    [MixRamp(0.0, 1.0, 0.0, d), MixRamp(1.0, 0.0, assetDuration - d, d)]
  }

  /** Gain applied at time `t` by ramps taken in time order, following the rule
      AVFoundation documents for the volume ramps of an input's mix parameters:
      until a ramp starts, the gain is `held` (1.0 before the first ramp); across a
      ramp's time range it goes linearly from the start volume to the end volume;
      after the range it stays at the end volume. */
  function GainFrom(ramps: seq<MixRamp>, t: real, held: real): (gain: real)
  {
    if ramps == [] then held
    else
      var r := ramps[0];
      if t < r.start then held
      else if t < r.start + r.length then
        r.startVolume + (r.endVolume - r.startVolume) * ((t - r.start) / r.length)
      else GainFrom(ramps[1..], t, r.endVolume)
  }

  /** Gain at time `t` of an item whose audio mix has `ramps`. */
  function Gain(ramps: seq<MixRamp>, t: real): (gain: real) {
    GainFrom(ramps, t, 1.0)
  }

  predicate VolumesInRange(ramps: seq<MixRamp>) {
    forall i :: 0 <= i < |ramps| ==> 0.0 <= ramps[i].startVolume <= 1.0 && 0.0 <= ramps[i].endVolume <= 1.0
  }

  /** A point on the line between two volumes in [0, 1] is in [0, 1]. */
  lemma BetweenVolumes(a: real, b: real, f: real)
    requires 0.0 <= a <= 1.0 && 0.0 <= b <= 1.0 && 0.0 <= f <= 1.0
    ensures 0.0 <= a + (b - a) * f <= 1.0
  {
    var g := 1.0 - f;
    assert a + (b - a) * f == a * g + b * f;
    ProductNonNegative(a, g);
    ProductNonNegative(1.0 - a, g);
    ProductNonNegative(b, f);
    ProductNonNegative(1.0 - b, f);
  }

  lemma ProductNonNegative(x: real, y: real)
    requires x >= 0.0 && y >= 0.0
    ensures x * y >= 0.0
  {
  }

  /** The part of a ramp's range already covered at `t` is in [0, 1). */
  lemma FractionInRange(x: real, length: real)
    requires 0.0 <= x < length
    ensures 0.0 <= x / length < 1.0
  {
    assert x / length * length == x;
  }

  /** Ramps between volumes in [0, 1] never take the gain out of [0, 1]. */
  lemma {:induction false} GainFromInRange(ramps: seq<MixRamp>, t: real, held: real)
    requires VolumesInRange(ramps) && 0.0 <= held <= 1.0
    ensures 0.0 <= GainFrom(ramps, t, held) <= 1.0
  {
    if ramps != [] {
      var r := ramps[0];
      if r.start <= t < r.start + r.length {
        FractionInRange(t - r.start, r.length);
        BetweenVolumes(r.startVolume, r.endVolume, (t - r.start) / r.length);
      } else if t >= r.start {
        assert VolumesInRange(ramps[1..]) by {
          forall i | 0 <= i < |ramps[1..]|
            ensures 0.0 <= ramps[1..][i].startVolume <= 1.0 && 0.0 <= ramps[1..][i].endVolume <= 1.0
          {
            assert ramps[1..][i] == ramps[i + 1];
          }
        }
        GainFromInRange(ramps[1..], t, r.endVolume);
      }
    }
  }

  /** The mix addFadeInOut installs keeps the gain within [0, 1] at every time. */
  lemma FadeInOutGainInRange(assetDuration: real, d: real, t: real)
    ensures 0.0 <= Gain(FadeInOut(assetDuration, d), t) <= 1.0
  {
    GainFromInRange(FadeInOut(assetDuration, d), t, 1.0);
  }

  /** Over the first `d` seconds the item fades in linearly from silence, provided
      the windows do not overlap. */
  lemma FadeInGain(assetDuration: real, d: real, t: real)
    requires 2.0 * d <= assetDuration
    requires 0.0 <= t < d
    ensures Gain(FadeInOut(assetDuration, d), t) == t / d
  {
  }

  /** Between the two windows the item plays at full volume, provided the windows
      do not overlap. */
  lemma FullVolumeBetweenFades(assetDuration: real, d: real, t: real)
    requires 0.0 < d && 2.0 * d <= assetDuration
    requires d <= t < assetDuration - d
    ensures Gain(FadeInOut(assetDuration, d), t) == 1.0
  {
    var ramps := FadeInOut(assetDuration, d);
    assert ramps[1..] == [ramps[1]];
    assert GainFrom(ramps, t, 1.0) == GainFrom([ramps[1]], t, 1.0);
  }

  /** Over the last `d` seconds the item fades out linearly to silence. */
  lemma FadeOutGain(assetDuration: real, d: real, t: real)
    requires 0.0 < d && 2.0 * d <= assetDuration
    requires assetDuration - d <= t < assetDuration
    ensures Gain(FadeInOut(assetDuration, d), t) == (assetDuration - t) / d
  {
    var ramps := FadeInOut(assetDuration, d);
    assert ramps[1..] == [ramps[1]];
    var x := t - (assetDuration - d);
    assert GainFrom(ramps, t, 1.0) == GainFrom([ramps[1]], t, 1.0);
    assert Gain(ramps, t) == 1.0 + (0.0 - 1.0) * (x / d);
    assert x / d * d == x;
    assert (assetDuration - t) / d * d == assetDuration - t;
  }

  /** From the asset's end on, the item is silent. */
  lemma SilentAfterEnd(assetDuration: real, d: real, t: real)
    requires 0.0 < d && 2.0 * d <= assetDuration
    requires t >= assetDuration
    ensures Gain(FadeInOut(assetDuration, d), t) == 0.0
  {
    var ramps := FadeInOut(assetDuration, d);
    assert ramps[1..] == [ramps[1]];
    assert GainFrom(ramps, t, 1.0) == GainFrom([ramps[1]], t, 1.0);
    assert GainFrom([ramps[1]], t, 1.0) == GainFrom([], t, 0.0);
  }

  /** An item that is `lag` seconds into its fade-out when the next item, played by
      another player, starts from the top overlaps that item's fade-in; for every instant of the overlap
      the two gains add up to 1 - lag / d, so only an item started exactly at the
      start of the fade-out window would be complemented to full volume. */
  lemma OverlapGain(outgoing: real, incoming: real, d: real, lag: real, p: real)
    requires 2.0 * d <= outgoing && 2.0 * d <= incoming
    requires 0.0 <= lag && 0.0 <= p && lag + p < d
    ensures Gain(FadeInOut(outgoing, d), outgoing - d + lag + p) + Gain(FadeInOut(incoming, d), p) == 1.0 - lag / d
  {
    FadeOutGain(outgoing, d, outgoing - d + lag + p);
    FadeInGain(incoming, d, p);
    assert outgoing - (outgoing - d + lag + p) == d - lag - p;
    FractionsAddUp(d - lag - p, p, lag, d);
  }

  lemma FractionsAddUp(x: real, y: real, z: real, d: real)
    requires d > 0.0 && x + y + z == d
    ensures x / d + y / d == 1.0 - z / d
  {
    var qx, qy, qz := x / d, y / d, z / d;
    assert qx * d == x && qy * d == y && qz * d == z;
    assert (qx + qy + qz) * d == qx * d + qy * d + qz * d;
    var w := qx + qy + qz - 1.0;
    assert w * d == 0.0;
    assert w == 0.0;
  }

  // ---------------------------------------------------------------------------
  // The crossfade trigger
  // ---------------------------------------------------------------------------

  /** Whether a tick of the periodic observer at `currentTime` starts a crossfade:
      the current item is ready to play and strictly less than `d` seconds of it
      remain. */
  function CrossFadeDue(ready: bool, currentTime: real, assetDuration: real, d: real): (due: bool)
    ensures due <==> ready && assetDuration - currentTime < d
  {
    ready && currentTime > assetDuration - d
  }

  /** A crossfade starts only once the current item is past the start of its own
      fade-out window, never at that start itself. */
  lemma CrossFadeStartsInFadeOut(currentTime: real, assetDuration: real, d: real)
    ensures CrossFadeDue(true, currentTime, assetDuration, d) <==> currentTime > FadeInOut(assetDuration, d)[1].start
    ensures !CrossFadeDue(true, FadeInOut(assetDuration, d)[1].start, assetDuration, d)
  {
  }

  /** In a queue of two or more players, the crossfade that a tick at `currentTime`
      starts overlaps the two fades with
      a lag of `currentTime` minus the start of the fade-out window: throughout the
      overlap the gains add up to strictly less than 1. When the tick one second
      earlier was not yet due, the lag is at most one second and the dip at most 1 / d. */
  lemma CrossFadeOverlapDips(currentTime: real, outgoing: real, incoming: real, d: real, p: real)
    requires 2.0 * d <= outgoing && 2.0 * d <= incoming
    requires CrossFadeDue(true, currentTime, outgoing, d)
    requires 0.0 <= p && currentTime + p < outgoing
    ensures var sum := Gain(FadeInOut(outgoing, d), currentTime + p) + Gain(FadeInOut(incoming, d), p);
            && sum == 1.0 - (currentTime - (outgoing - d)) / d
            && sum < 1.0
            && (!CrossFadeDue(true, currentTime - 1.0, outgoing, d) ==> sum >= 1.0 - 1.0 / d)
  {
    var lag := currentTime - (outgoing - d);
    assert outgoing - d + lag + p == currentTime + p;
    OverlapGain(outgoing, incoming, d, lag, p);
    var q := lag / d;
    assert q * d == lag;
    assert q > 0.0;
    if !CrossFadeDue(true, currentTime - 1.0, outgoing, d) {
      assert lag <= 1.0;
      assert (1.0 / d - q) * d == 1.0 - lag;
      assert 1.0 / d - q >= 0.0;
    }
  }

  /** In a queue of one player the crossfade seeks that player back to the top: its
      fade-out is cut while still audible, and it restarts silent, so nothing
      overlaps. */
  lemma SinglePlayerRestartCutsFadeOut(currentTime: real, assetDuration: real, d: real)
    requires 2.0 * d <= assetDuration
    requires CrossFadeDue(true, currentTime, assetDuration, d) && currentTime < assetDuration
    ensures Gain(FadeInOut(assetDuration, d), currentTime) == (assetDuration - currentTime) / d
    ensures Gain(FadeInOut(assetDuration, d), currentTime) > 0.0
    ensures Gain(FadeInOut(assetDuration, d), 0.0) == 0.0
  {
    FadeOutGain(assetDuration, d, currentTime);
    FadeInGain(assetDuration, d, 0.0);
    var q := (assetDuration - currentTime) / d;
    assert q * d == assetDuration - currentTime;
  }

  // ---------------------------------------------------------------------------
  // The classes
  // ---------------------------------------------------------------------------

  /** An AVPlayer with its single item, reduced to what the scheduler changes. */
  class Player {
    const asset: Asset
    /** The item's audio mix: the ramps installed on it, if any. */
    var mix: Option<seq<MixRamp>>
    /** Whether play() has been called on it; the pause at the end of its item is
        not part of the model. */
    var playing: bool
    /** Position, in seconds, of the last seek; the playhead the observer reads is an
        input of ObserverTick. */
    var position: real
    /** Periodic time observers registered on this player. */
    var observers: nat

    constructor (asset: Asset)
      ensures this.asset == asset && mix == None && !playing && position == 0.0 && observers == 0
    {
      this.asset := asset;
      mix, playing, position, observers := None, false, 0.0, 0;
    }

    /** Not playing, no mix installed and no observer registered. */
    predicate Idle()
      reads this
    {
      mix == None && !playing && observers == 0
    }
  }

  /** The assets of a queue of players. */
  function AssetsOf(players: seq<Player>): (assets: seq<Asset>)
    ensures |assets| == |players|
    ensures forall k :: 0 <= k < |players| ==> assets[k] == players[k].asset
  {
    seq(|players|, k requires 0 <= k < |players| => players[k].asset)
  }

  lemma AssetsOfAppend(players: seq<Player>, player: Player)
    ensures AssetsOf(players + [player]) == AssetsOf(players) + [player.asset]
  {
  }

  predicate Distinct(players: seq<Player>) {
    forall i, j :: 0 <= i < j < |players| ==> players[i] != players[j]
  }

  /** The queue-building loop of init: one new, silent, unobserved player per track
      whose resource is found, appended in playlist order. */
  method BuildQueue(items: seq<Track>, resolve: Track -> Option<Asset>) returns (queue: seq<Player>)
    ensures AssetsOf(queue) == Resolved(items, resolve)
    ensures Distinct(queue)
    ensures forall j :: 0 <= j < |queue| ==> fresh(queue[j]) && queue[j].Idle()
  {
    queue := [];
    for k := 0 to |items|
      invariant AssetsOf(queue) == Resolved(items[..k], resolve)
      invariant Distinct(queue)
      invariant forall j :: 0 <= j < |queue| ==> fresh(queue[j]) && queue[j].Idle()
    {
      ResolvedStep(items, k, resolve);
      match resolve(items[k])
      case Some(asset) =>
        var player := new Player(asset);
        AssetsOfAppend(queue, player);
        queue := queue + [player];
      case None =>
    }
    assert items[..|items|] == items;
  }

  class CrossFadePlayer {
    /** One player per resolvable track, in playlist order; never changed after init. */
    const playerQueue: seq<Player>
    const items: seq<Track>
    var index: int
    const crossFadeDuration: real
    /** The registered periodic observer, as the player it was registered on. */
    var timeObserverToken: Option<Player>

    ghost predicate Valid()
      reads this, playerQueue
    {
      && 0 <= index < |playerQueue|
      && Distinct(playerQueue)
      && (timeObserverToken.Some? ==> ObserverOnCurrent())
      && (timeObserverToken.None? ==> NoObserver())
    }

    /** Exactly one observer is registered, on the current player, and the token is it. */
    ghost predicate ObserverOnCurrent()
      reads this, playerQueue
      requires 0 <= index < |playerQueue|
    {
      && timeObserverToken == Some(playerQueue[index])
      && forall k :: 0 <= k < |playerQueue| ==> playerQueue[k].observers == (if k == index then 1 else 0)
    }

    /** No observer is registered on any player. */
    ghost predicate NoObserver()
      reads this, playerQueue
    {
      && timeObserverToken == None
      && forall k :: 0 <= k < |playerQueue| ==> playerQueue[k].observers == 0
    }

    function CurrentPlayer(): (player: Player)
      reads this
      requires 0 <= index < |playerQueue|
      ensures player == playerQueue[index]
    {
      playerQueue[index]
    }

    /** init: queue one player per resolvable track, install the fades on every
        item, observe the player at `index` and play it. An `index` outside the
        queue makes the source crash on its first use of the current player. */
    constructor (items: seq<Track>, fadeDuration: real, index: int, resolve: Track -> Option<Asset>)
      requires 0 <= index < |Resolved(items, resolve)|
      ensures Valid() && ObserverOnCurrent()
      ensures AssetsOf(playerQueue) == Resolved(items, resolve)
      ensures this.items == items && this.index == index && crossFadeDuration == fadeDuration
      ensures forall k :: 0 <= k < |playerQueue| ==> fresh(playerQueue[k])
      ensures forall k :: 0 <= k < |playerQueue| ==>
                playerQueue[k].mix == Some(FadeInOut(playerQueue[k].asset.duration, fadeDuration))
      ensures forall k :: 0 <= k < |playerQueue| ==> (playerQueue[k].playing <==> k == index)
    {
      var queue := BuildQueue(items, resolve);
      crossFadeDuration := fadeDuration;
      this.items := items;
      this.index := index;
      playerQueue := queue;
      timeObserverToken := None;
      new;
      AddVolumeRamps(crossFadeDuration);
      AddPeriodicTimeObserver();
      var current := CurrentPlayer();
      current.playing := true;
    }

    /** addVolumeRamps: install the fade-in and fade-out on every queued item. */
    method AddVolumeRamps(duration: real)
      requires Valid()
      modifies playerQueue
      ensures Valid()
      ensures forall k :: 0 <= k < |playerQueue| ==>
                playerQueue[k].mix == Some(FadeInOut(playerQueue[k].asset.duration, duration))
      ensures forall k :: 0 <= k < |playerQueue| ==>
                && playerQueue[k].playing == old(playerQueue[k].playing)
                && playerQueue[k].position == old(playerQueue[k].position)
                && playerQueue[k].observers == old(playerQueue[k].observers)
    {
      for k := 0 to |playerQueue|
        invariant forall j :: 0 <= j < k ==>
                    playerQueue[j].mix == Some(FadeInOut(playerQueue[j].asset.duration, duration))
        invariant forall j :: 0 <= j < |playerQueue| ==>
                    && playerQueue[j].playing == old(playerQueue[j].playing)
                    && playerQueue[j].position == old(playerQueue[j].position)
                    && playerQueue[j].observers == old(playerQueue[j].observers)
      {
        var player := playerQueue[k];
        player.mix := Some(FadeInOut(player.asset.duration, duration));
      }
    }

    /** addPeriodicTimeObserver: register an observer on the current player and keep
        its token. Both callers first make sure no observer is registered. */
    method AddPeriodicTimeObserver()
      requires Valid() && timeObserverToken.None?
      modifies this, playerQueue
      ensures Valid() && ObserverOnCurrent()
      ensures index == old(index)
      ensures forall k :: 0 <= k < |playerQueue| ==>
                && playerQueue[k].mix == old(playerQueue[k].mix)
                && playerQueue[k].playing == old(playerQueue[k].playing)
                && playerQueue[k].position == old(playerQueue[k].position)
    {
      var current := CurrentPlayer();
      current.observers := current.observers + 1;
      timeObserverToken := Some(current);
    }

    /** removePeriodicTimeObserver: when a token is kept, remove its observer from
        `player` and drop the token; otherwise do nothing. The one caller passes
        the current player. */
    method RemovePeriodicTimeObserver(player: Player)
      requires Valid() && player == CurrentPlayer()
      modifies this, playerQueue
      ensures Valid() && NoObserver()
      ensures index == old(index)
      ensures old(timeObserverToken).None? ==> timeObserverToken == old(timeObserverToken)
      ensures forall k :: 0 <= k < |playerQueue| ==>
                && playerQueue[k].mix == old(playerQueue[k].mix)
                && playerQueue[k].playing == old(playerQueue[k].playing)
                && playerQueue[k].position == old(playerQueue[k].position)
                && playerQueue[k].observers == 0
    {
      if timeObserverToken.Some? {
        player.observers := player.observers - 1;
        timeObserverToken := None;
      }
    }

    /** handleCrossFade: move the observer to the next player in the queue, looping
        after the last one, and play that player from the top. In a queue of two or
        more players the player that was current keeps playing through its
        fade-out; in a queue of one, the same player is sought back to the top. */
    method HandleCrossFade()
      requires Valid()
      modifies this, playerQueue
      ensures Valid() && ObserverOnCurrent()
      ensures index == (old(index) + 1) % |playerQueue|
      ensures index == 0 <==> old(index) == |playerQueue| - 1
      ensures |playerQueue| >= 2 ==> CurrentPlayer() != old(CurrentPlayer())
      ensures |playerQueue| == 1 ==> CurrentPlayer() == old(CurrentPlayer())
      ensures CurrentPlayer().playing && CurrentPlayer().position == 0.0
      ensures forall k :: 0 <= k < |playerQueue| && k != index ==>
                && playerQueue[k].playing == old(playerQueue[k].playing)
                && playerQueue[k].position == old(playerQueue[k].position)
      ensures forall k :: 0 <= k < |playerQueue| ==> playerQueue[k].mix == old(playerQueue[k].mix)
    {
      RemovePeriodicTimeObserver(CurrentPlayer());
      index := NextIndex(index, |playerQueue|);
      AddPeriodicTimeObserver();
      var current := CurrentPlayer();
      current.position := 0.0;
      current.playing := true;
    }

    /** One tick of the periodic observer, at the current item's time `currentTime`;
        `ready` tells whether the item is ready to play. Only a registered observer
        ticks. `fired` tells whether the tick started a crossfade. */
    method ObserverTick(currentTime: real, ready: bool) returns (fired: bool)
      requires Valid() && timeObserverToken.Some?
      modifies this, playerQueue
      ensures Valid() && ObserverOnCurrent()
      ensures fired == CrossFadeDue(ready, currentTime, old(CurrentPlayer().asset.duration), crossFadeDuration)
      ensures !fired ==> index == old(index)
      ensures fired ==> index == (old(index) + 1) % |playerQueue|
      ensures fired ==> CurrentPlayer().playing && CurrentPlayer().position == 0.0
      ensures fired ==> forall k :: 0 <= k < |playerQueue| && k != index ==>
                && playerQueue[k].playing == old(playerQueue[k].playing)
                && playerQueue[k].position == old(playerQueue[k].position)
      ensures !fired ==> forall k :: 0 <= k < |playerQueue| ==>
                && playerQueue[k].playing == old(playerQueue[k].playing)
                && playerQueue[k].position == old(playerQueue[k].position)
      ensures forall k :: 0 <= k < |playerQueue| ==> playerQueue[k].mix == old(playerQueue[k].mix)
    {
      var totalDuration := CurrentPlayer().asset.duration;
      fired := ready && currentTime > totalDuration - crossFadeDuration;
      if fired {
        HandleCrossFade();
      }
    }
  }
}
