/**
  The music player. Clip 0 is the boot sound, played after the intro wait and when
  the bike boots; once the bike has phased in, every frame in which nothing plays
  starts a random clip other than clip 0. The end of a clip is an event of the
  audio engine and appears as its own operation.
 */
module Music {
  import opened Common

  /**
    `clips` are the clip identities, `clip` and `playing` the audio source,
    `booted` whether the bike has phased in and random music may play.
   */
  datatype Music = Music(clips: seq<nat>, clip: Option<nat>, playing: bool, booted: bool)

  /** An operation's outcome; `thrown` when the clip index was out of range. */
  datatype Played = Played(music: Music, thrown: bool)

  /** Start: music is not yet allowed; the audio source keeps its state. */
  function Start(m: Music): (r: Music)
    ensures !r.booted
    ensures r.clips == m.clips && r.clip == m.clip && r.playing == m.playing
  {
    m.(booted := false)
  }

  /** The random clip index: uniform over 1 .. n-1, never the boot sound. */
  function RandomIndex(n: int, roll: nat): (i: int)
    ensures n >= 2 ==> 1 <= i < n
    ensures n < 2 ==> i == 1
  {
    RandomRange(1, n, roll)
  }

  /**
    Stops the source, then plays `clips[index]`. An out-of-range index aborts after
    the stop, leaving the source silent with its old clip.
   */
  function PlayNextClip(m: Music, index: int): (r: Played)
    ensures r.music.clips == m.clips && r.music.booted == m.booted
    ensures r.thrown <==> !(0 <= index < |m.clips|)
    ensures r.thrown ==> r.music == m.(playing := false)
    ensures !r.thrown ==> r.music.playing && r.music.clip == Some(m.clips[index])
  {
    var stopped := m.(playing := false);
    if 0 <= index < |m.clips| then Played(stopped.(clip := Some(m.clips[index]), playing := true), false)
    else Played(stopped, true)
  }

  /**
    A frame: when nothing plays and the bike has booted, a random clip other than the
    boot sound starts; otherwise nothing changes. With fewer than two clips there is
    no such clip and the frame aborts.
   */
  function Update(m: Music, roll: nat): (r: Played)
    ensures m.playing || !m.booted ==> r == Played(m, false)
    ensures !m.playing && m.booted ==>
      && (r.thrown <==> |m.clips| < 2)
      && (!r.thrown ==> r.music.playing && r.music.clip == Some(m.clips[RandomIndex(|m.clips|, roll)]))
      && (r.thrown ==> r.music == m)
  {
    if m.playing then Played(m, false)
    else if !m.booted then Played(m, false)
    else PlayNextClip(m, RandomIndex(|m.clips|, roll))
  }

  /**
    The boot sound plays: at the end of the intro wait after Start, and again when
    the bike boots.
   */
  function PlayBootSound(m: Music): (r: Played)
    ensures r.thrown <==> |m.clips| == 0
    ensures !r.thrown ==> r.music.playing && r.music.clip == Some(m.clips[0])
    ensures r.music.booted == m.booted
  {
    PlayNextClip(m, 0)
  }

  /** The phase-in is complete: random music may play from now on. */
  function PlayMusic(m: Music): (r: Music)
    ensures r.booted
    ensures r == m.(booted := true)
  {
    m.(booted := true)
  }

  datatype Op = Frame(roll: nat) | ClipEnds | Intro | Boot | PhasedIn

  function Step(m: Music, op: Op): Music {
    match op
    case Frame(roll) => Update(m, roll).music
    case ClipEnds => m.(playing := false)
    case Intro => PlayBootSound(m).music
    case Boot => PlayBootSound(m).music
    case PhasedIn => PlayMusic(m)
  }

  function Run(m: Music, ops: seq<Op>): Music
    decreases |ops|
  {
    if |ops| == 0 then m else Run(Step(m, ops[0]), ops[1..])
  }

  /**
    Until the phase-in completes, only the boot sound is ever put on the source: the
    clip is the one it had before or clip 0.
   */
  lemma {:induction false} OnlyBootSoundBeforePhaseIn(m: Music, ops: seq<Op>)
    requires !m.booted
    requires forall i :: 0 <= i < |ops| ==> ops[i] != PhasedIn
    ensures var r := Run(m, ops);
      && !r.booted && r.clips == m.clips
      && (r.clip == m.clip || (|m.clips| > 0 && r.clip == Some(m.clips[0])))
    decreases |ops|
  {
    if |ops| > 0 {
      var s := Step(m, ops[0]);
      assert ops[0] != PhasedIn;
      assert !s.booted && s.clips == m.clips;
      assert s.clip == m.clip || (|m.clips| > 0 && s.clip == Some(m.clips[0]));
      forall i | 0 <= i < |ops[1..]| ensures ops[1..][i] != PhasedIn {
        assert ops[1..][i] == ops[i + 1];
      }
      OnlyBootSoundBeforePhaseIn(s, ops[1..]);
    }
  }

  /** Once booted, the music stays allowed whatever happens. */
  lemma {:induction false} BootedStaysBooted(m: Music, ops: seq<Op>)
    requires m.booted
    ensures Run(m, ops).booted && Run(m, ops).clips == m.clips
    decreases |ops|
  {
    if |ops| > 0 {
      BootedStaysBooted(Step(m, ops[0]), ops[1..]);
    }
  }
}
