// The player bar of src/components/MusicPlayer.tsx: its state, the audio
// element's time and metadata events, seeking with the progress slider, the
// metronome tempo that follows the song, and the time labels. The audio
// element itself is left out: its events are the functions' arguments and a
// seek is the new playback time returned.

module MusicPlayer {
  import opened Wrappers
  import opened Numeric
  import opened Strings
  import opened Songs
  import Clock

  /** A number the audio element reports, which is NaN until metadata has loaded. */
  datatype Time = NaN | At(seconds: real)

  /** `x > 0`, which is false for NaN. */
  predicate Positive(x: Time)
  {
    x.At? && x.seconds > 0.0
  }

  /** The component's state. */
  datatype View = View(progress: real, volume: real, metronomeActive: bool, metronomeTempo: real,
                       currentTime: real, duration: Time, minimized: bool)

  /** `song.tempo || 120`. */
  function TempoOr120(tempo: Option<real>): (r: real)
    ensures TruthyNumber(tempo) ==> r == tempo.value
    ensures !TruthyNumber(tempo) ==> r == 120.0
  {
    if TruthyNumber(tempo) then tempo.value else 120.0
  }

  /** The state of a freshly mounted player. */
  function Initial(song: Song): (r: View)
    ensures r.progress == 0.0 && r.volume == 75.0 && !r.metronomeActive && !r.minimized
    ensures r.metronomeTempo == TempoOr120(song.tempo)
    ensures r.currentTime == 0.0 && r.duration == At(0.0)
  {
    View(0.0, 75.0, false, TempoOr120(song.tempo), 0.0, At(0.0), false)
  }

  /** The effect on song.tempo: a truthy tempo becomes the metronome's. */
  function SongTempoChanged(s: View, song: Song): (r: View)
  {
    if TruthyNumber(song.tempo) then s.(metronomeTempo := song.tempo.value) else s
  }

  /**
   * After the effect the metronome follows a song that has a tempo and
   * otherwise keeps the tempo it had, which after a song change is the
   * previous song's; nothing else changes.
   */
  lemma MetronomeFollowsSong(s: View, song: Song)
    ensures var r := SongTempoChanged(s, song);
            r.(metronomeTempo := s.metronomeTempo) == s &&
            (TruthyNumber(song.tempo) ==> r.metronomeTempo == song.tempo.value) &&
            (!TruthyNumber(song.tempo) ==> r.metronomeTempo == s.metronomeTempo)
  {
  }

  /** On mount the effect agrees with the initial state: the metronome runs at the song's tempo or 120. */
  lemma MountedTempo(song: Song)
    ensures SongTempoChanged(Initial(song), song).metronomeTempo == TempoOr120(song.tempo)
  {
  }

  /** The element volume for a slider value: volume / 100. */
  function ElementVolume(volume: real): (r: real)
    ensures 0.0 <= volume <= 100.0 ==> 0.0 <= r <= 1.0
    ensures r * 100.0 == volume
  {
    volume / 100.0
  }

  /** handleTimeUpdate: the time is shown; the progress moves only for a positive duration. */
  function TimeUpdate(s: View, current: real, total: Time): (r: View)
    ensures r.(currentTime := s.currentTime, progress := s.progress) == s
    ensures r.currentTime == current
    ensures !Positive(total) ==> r.progress == s.progress
    ensures Positive(total) ==> r.progress * total.seconds == current * 100.0
    ensures Positive(total) && 0.0 <= current <= total.seconds ==> 0.0 <= r.progress <= 100.0
  {
    if Positive(total) then
      var p := (current / total.seconds) * 100.0;
      assert p * total.seconds == current * 100.0;
      s.(currentTime := current, progress := p)
    else s.(currentTime := current)
  }

  /** handleLoadedMetadata: the element's duration, NaN included. */
  function LoadedMetadata(s: View, duration: Time): (r: View)
    ensures r.duration == duration && r.(duration := s.duration) == s
  {
    s.(duration := duration)
  }

  /** The time a slider value points at: progress / 100 * duration. */
  function SeekTime(progress: real, duration: real): (t: real)
    requires duration > 0.0
    ensures t * 100.0 == progress * duration
    ensures 0.0 <= progress <= 100.0 ==> 0.0 <= t <= duration
  {
    var t := (progress / 100.0) * duration;
    assert t * 100.0 == progress * duration;
    assert 0.0 <= progress <= 100.0 ==> 0.0 <= t <= duration by {
      if 0.0 <= progress <= 100.0 {
        PercentOf(progress, duration);
      }
    }
    t
  }

  /**
   * handleProgressChange: with a positive duration the element seeks to
   * the slider's time and the slider takes the new value; otherwise
   * nothing happens.
   */
  function ProgressChange(s: View, progress: real): (r: (Option<real>, View))
    ensures r.0.None? <==> !Positive(s.duration)
    ensures r.0.None? ==> r.1 == s
    ensures r.0.Some? ==> r.0.value == SeekTime(progress, s.duration.seconds) && r.1 == s.(progress := progress)
  {
    if Positive(s.duration) then (Some(SeekTime(progress, s.duration.seconds)), s.(progress := progress))
    else (None, s)
  }

  /** A percentage in 0..100 of a positive length lies between 0 and that length. */
  lemma PercentOf(p: real, d: real)
    requires 0.0 <= p <= 100.0 && d > 0.0
    ensures 0.0 <= (p / 100.0) * d <= d
  {
    var q := p / 100.0;
    assert q * 100.0 == p;
    assert 0.0 <= q <= 1.0;
    assert (1.0 - q) * d >= 0.0;
  }

  /** Seeking and the time update the seek causes agree: the slider stays where it was put. */
  lemma SeekThenUpdateKeepsProgress(s: View, progress: real)
    requires Positive(s.duration)
    ensures var (newTime, next) := ProgressChange(s, progress);
            newTime.Some? && TimeUpdate(next, newTime.value, s.duration).progress == progress
  {
    var (newTime, next) := ProgressChange(s, progress);
    var d := s.duration.seconds;
    var p := TimeUpdate(next, newTime.value, s.duration).progress;
    assert p * d == newTime.value * 100.0 == progress * d;
  }

  /** Putting the slider where a time update left it seeks back to that time. */
  lemma UpdateThenSeekKeepsTime(s: View, current: real)
    requires Positive(s.duration)
    ensures var u := TimeUpdate(s, current, s.duration);
            ProgressChange(u, u.progress).0 == Some(current)
  {
    var u := TimeUpdate(s, current, s.duration);
    var d := s.duration.seconds;
    var t := ProgressChange(u, u.progress).0.value;
    assert t * 100.0 == u.progress * d == current * 100.0;
  }

  /** formatTime: NaN shows as 0:00, any other time as minutes and two-digit seconds. */
  function FormatTime(time: Time): (r: string)
  {
    match time
    case NaN => "0:00"
    case At(t) => Clock.FormatClock(t)
  }

  /**
   * Before metadata the labels read 0:00 whether the element reports NaN or
   * 0; a non-negative time reads as its whole minutes, a colon and two
   * digits giving the remaining whole seconds.
   */
  lemma FormatTimeReads(t: real)
    ensures FormatTime(NaN) == "0:00" && FormatTime(At(0.0)) == "0:00"
    ensures t >= 0.0 ==> var r := FormatTime(At(t));
                         var m := NatToString(Floor(t) / 60);
                         |r| == |m| + 3 && r[..|m|] == m && r[|m|] == ':' &&
                         (forall i :: |m| < i < |r| ==> '0' <= r[i] <= '9') &&
                         DigitsValue(r[|m| + 1..]) == Floor(t) % 60
  {
    Clock.ZeroIsZeroClock();
    if t >= 0.0 {
      Clock.FormatClockReadsBack(t);
    }
  }
}
