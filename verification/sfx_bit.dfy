/**
  The bit's voice and the tile counter: saying "yes" (clip 1) counts a reached tile,
  saying "no" (clip 0) takes one off, and the counter is shown on the HUD. A call
  whose clip is already playing does nothing.
 */
module SfxBit {
  import opened Common

  /**
    `clips` are the clip identities (references may repeat), `clip` and `playing`
    the audio source, `nr` the counter and `text` the HUD text as the number it
    shows (`None` before the first write).
   */
  datatype SfxBit = SfxBit(clips: seq<nat>, clip: Option<nat>, playing: bool, nr: int, text: Option<int>)

  /** The call's outcome; `thrown` when `clips[index]` was out of range and the call aborted there. */
  datatype Talk = Talk(sfx: SfxBit, thrown: bool)

  function Init(clips: seq<nat>): (s: SfxBit)
    ensures s.nr == 0 && !s.playing && s.clips == clips
  {
    SfxBit(clips, None, false, 0, None)
  }

  predicate InRange(clips: seq<nat>, index: int) {
    0 <= index < |clips|
  }

  /** Whether the call is skipped because the same clip is already playing. */
  predicate SameClipPlaying(s: SfxBit, index: int)
    requires InRange(s.clips, index)
  {
    s.playing && s.clip == Some(s.clips[index])
  }

  /** The counter change of a non-skipped call: +1 for index 1, -1 for index 0. */
  function Delta(index: int): (d: int)
    ensures index == 1 ==> d == 1
    ensures index == 0 ==> d == -1
    ensures index != 0 && index != 1 ==> d == 0
  {
    if index == 1 then 1 else if index == 0 then -1 else 0
  }

  /**
    One call. An out-of-range index aborts: at the clip comparison when audio is
    playing (nothing changed yet), otherwise after the counter update and the stop.
   */
  function BitTalk(s: SfxBit, index: int): (r: Talk)
    ensures r.sfx.clips == s.clips
    ensures r.thrown <==> !InRange(s.clips, index)
    ensures r.thrown && s.playing ==> r.sfx == s
    ensures r.thrown && !s.playing ==> r.sfx == s.(nr := s.nr + Delta(index))
    ensures !r.thrown && SameClipPlaying(s, index) ==> r.sfx == s
    ensures !r.thrown && !SameClipPlaying(s, index) ==>
      && r.sfx.nr == s.nr + Delta(index)
      && r.sfx.clip == Some(s.clips[index]) && r.sfx.playing
      && r.sfx.text == Some(r.sfx.nr)
  {
    if s.playing && !InRange(s.clips, index) then Talk(s, true)
    else if s.playing && s.clip == Some(s.clips[index]) then Talk(s, false)
    else
      var counted := s.(nr := s.nr + Delta(index));
      var stopped := counted.(playing := false);
      if !InRange(s.clips, index) then Talk(stopped, true)
      else
        var played := stopped.(clip := Some(s.clips[index]), playing := true);
        Talk(played.(text := Some(played.nr)), false)
  }

  /**
    The transition routine calls the voice every frame; while its clip still plays,
    a repeated call changes nothing.
   */
  lemma RepeatedTalkCountsOnce(s: SfxBit, index: int)
    requires InRange(s.clips, index)
    ensures var once := BitTalk(s, index).sfx;
      BitTalk(once, index) == Talk(once, false)
  {
  }

  /** Saying yes and then no returns the counter to where it was. */
  lemma YesThenNoCancels(s: SfxBit)
    requires InRange(s.clips, 1) && s.clips[0] != s.clips[1]
    requires !SameClipPlaying(s, 1)
    ensures BitTalk(BitTalk(s, 1).sfx, 0).sfx.nr == s.nr
  {
  }
}
