/** Pieces shared by both crossfade schedulers: an optional value and the
    rule by which the play index moves to the next entry of a looping playlist. */
module Playlist {

  datatype Option<T> = None | Some(value: T)

  /** The index after `i` in a playlist of `count` entries: past the last entry
      playback loops back to the first. Both schedulers write this rule as an
      if/else on `count - 1`; the contract states it as arithmetic modulo `count`. */
  function NextIndex(i: int, count: int): (next: int)
    requires 0 <= i < count
    ensures 0 <= next < count
    ensures next == (i + 1) % count
    ensures next == 0 <==> i == count - 1
  {
    if i >= count - 1 then 0 else i + 1
  }
}
