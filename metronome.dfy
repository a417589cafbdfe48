// The metronome of src/components/Metronome.tsx: the beat counter its
// interval advances, the click it plays, the interval and gain it uses, and
// the tempo description. The timer and the Web Audio calls are left out:
// an interval tick is a method call, and a click is the frequency returned.

module Metronome {
  import opened Wrappers

  /** The click frequency of each beat, accenting beat 1. */
  const Frequencies: seq<int> := [1200, 800, 900, 800]

  /** The interval between clicks in milliseconds: 60000 / tempo. */
  function IntervalMs(tempo: real): (r: real)
    requires tempo > 0.0
    ensures r > 0.0
    ensures r * tempo == 60000.0
  {
    60000.0 / tempo
  }

  /** The click gain for a volume slider value: volume / 100 * 0.1. */
  function ClickGain(volume: real): (r: real)
    ensures 0.0 <= volume <= 100.0 ==> 0.0 <= r <= 0.1
    ensures r == volume / 1000.0
  {
    (volume / 100.0) * 0.1
  }

  /** getTempoDescription. */
  function TempoDescription(bpm: real): (r: string)
    ensures bpm < 60.0 ==> r == "Very Slow"
    ensures 60.0 <= bpm < 90.0 ==> r == "Slow"
    ensures 90.0 <= bpm < 120.0 ==> r == "Medium"
    ensures 120.0 <= bpm < 150.0 ==> r == "Fast"
    ensures 150.0 <= bpm < 180.0 ==> r == "Very Fast"
    ensures 180.0 <= bpm ==> r == "Extreme"
  {
    if bpm < 60.0 then "Very Slow"
    else if bpm < 90.0 then "Slow"
    else if bpm < 120.0 then "Medium"
    else if bpm < 150.0 then "Fast"
    else if bpm < 180.0 then "Very Fast"
    else "Extreme"
  }

  /** The place of a description on the scale from slowest to fastest. */
  function DescriptionRank(d: string): (n: nat)
  {
    if d == "Very Slow" then 0
    else if d == "Slow" then 1
    else if d == "Medium" then 2
    else if d == "Fast" then 3
    else if d == "Very Fast" then 4
    else 5
  }

  /** A faster tempo never gets a slower description. */
  lemma TempoDescriptionMonotone(a: real, b: real)
    requires a <= b
    ensures DescriptionRank(TempoDescription(a)) <= DescriptionRank(TempoDescription(b))
  {
  }

  /** The dot colour of getBeatColor, by kind: off, lit, or idle. */
  datatype Dot = Off | Lit(accent: bool) | Idle(accent: bool)

  function BeatDot(isActive: bool, beat: nat, index: nat): (r: Dot)
  {
    if !isActive then Off
    else if beat == index then Lit(index == 0)
    else Idle(index == 0)
  }

  /** While running exactly the current beat's dot is lit, and only the first dot is accented. */
  lemma OneDotLit(beat: nat, index: nat)
    requires beat < 4 && index < 4
    ensures BeatDot(true, beat, index).Lit? <==> index == beat
    ensures BeatDot(true, beat, index) != Off && BeatDot(true, beat, index).accent == (index == 0)
    ensures BeatDot(false, beat, index) == Off
  {
  }

  /** The metronome component's state. */
  class Metronome {
    /** The beat shown, 0..3. */
    var beat: nat
    var currentTempo: real
    var volume: real
    /** The running interval's period, if an interval is running. */
    var interval: Option<real>
    /** The beat of the render whose playClick the running interval calls. */
    var startBeat: nat

    /** The beats are always valid indices into the frequencies. */
    predicate Valid()
      reads this
    {
      beat < |Frequencies| && startBeat < |Frequencies| && (interval.Some? ==> currentTempo > 0.0)
    }

    /** useState(0), useState(tempo), useState([50]), no interval. */
    constructor(tempo: real)
      ensures Valid()
      ensures beat == 0 && currentTempo == tempo && volume == 50.0 && interval == None && startBeat == 0
    {
      beat := 0;
      startBeat := 0;
      currentTempo := tempo;
      volume := 50.0;
      interval := None;
    }

    /**
     * The effect on [tempo], resetToSongTempo and handleTempoChange: the
     * tempo is set; a tempo that is not positive also stops the interval, as
     * the effect that then runs again does.
     */
    method SetTempo(tempo: real)
      requires Valid()
      modifies this
      ensures Valid()
      ensures currentTempo == tempo && beat == old(beat) && volume == old(volume) && startBeat == old(startBeat)
      ensures interval == if tempo > 0.0 then old(interval) else None
    {
      currentTempo := tempo;
      if tempo <= 0.0 {
        interval := None;
      }
    }

    /**
     * The effect on [isActive, currentTempo, volume]: an interval of
     * 60000 / tempo ms runs when active with a positive tempo, calling the
     * playClick of this render and so the current beat; otherwise no
     * interval runs and the beat goes back to 0.
     */
    method Restart(isActive: bool)
      requires Valid()
      modifies this
      ensures Valid()
      ensures currentTempo == old(currentTempo) && volume == old(volume)
      ensures isActive && currentTempo > 0.0 ==>
                interval == Some(IntervalMs(currentTempo)) && beat == old(beat) && startBeat == old(beat)
      ensures !(isActive && currentTempo > 0.0) ==> interval == None && beat == 0 && startBeat == old(startBeat)
    {
      if isActive && currentTempo > 0.0 {
        interval := Some(60000.0 / currentTempo);
        startBeat := beat;
      } else {
        interval := None;
        beat := 0;
      }
    }

    /**
     * One interval tick as written: the beat advances modulo 4, and the
     * playClick the interval holds plays the pitch of the beat the
     * interval started on.
     */
    method Tick() returns (frequency: int)
      requires Valid() && interval.Some?
      modifies this
      ensures Valid()
      ensures beat == (old(beat) + 1) % 4 && frequency == Frequencies[startBeat]
      ensures currentTempo == old(currentTempo) && volume == old(volume) && interval == old(interval)
      ensures startBeat == old(startBeat)
    {
      beat := (beat + 1) % 4;
      frequency := Frequencies[startBeat];
    }

    /** The intended tick: the beat advances modulo 4 and the click for the new beat is played. */
    method IntendedTick() returns (frequency: int)
      requires Valid() && interval.Some?
      modifies this
      ensures Valid()
      ensures beat == (old(beat) + 1) % 4 && frequency == Frequencies[beat]
      ensures currentTempo == old(currentTempo) && volume == old(volume) && interval == old(interval)
      ensures startBeat == old(startBeat)
    {
      var nextBeat := (beat + 1) % 4;
      beat := nextBeat;
      frequency := Frequencies[nextBeat];
    }
  }

  /**
   * The clicks of n ticks as written: the interval callback calls the
   * playClick of the render that started the interval, which reads that
   * render's beat, so every click has the pitch of the beat the interval
   * started on.
   */
  function ClicksAsWritten(startBeat: nat, n: nat): (r: seq<int>)
    requires startBeat < 4
    ensures |r| == n && forall k :: 0 <= k < n ==> r[k] == Frequencies[startBeat]
  {
    seq(n, k => Frequencies[startBeat])
  }

  /** The clicks of n ticks from a beat, each with the pitch of the beat it moves to (what IntendedTick plays). */
  function Clicks(startBeat: nat, n: nat): (r: seq<int>)
    ensures |r| == n && forall k :: 0 <= k < n ==> r[k] == Frequencies[(startBeat + k + 1) % 4]
  {
    seq(n, k => Frequencies[(startBeat + k + 1) % 4])
  }

  /** n ticks of a running interval as written play ClicksAsWritten from the beat it started on. */
  method RunTicks(m: Metronome, n: nat) returns (clicks: seq<int>)
    requires m.Valid() && m.interval.Some?
    modifies m
    ensures m.Valid() && m.startBeat == old(m.startBeat) && m.beat == (old(m.beat) + n) % 4
    ensures clicks == ClicksAsWritten(old(m.startBeat), n)
  {
    clicks := [];
    var i := 0;
    while i < n
      invariant 0 <= i <= n
      invariant m.Valid() && m.interval == old(m.interval) && m.startBeat == old(m.startBeat)
      invariant m.beat == (old(m.beat) + i) % 4
      invariant clicks == ClicksAsWritten(old(m.startBeat), i)
    {
      var f := m.Tick();
      clicks := clicks + [f];
      i := i + 1;
    }
  }

  /** n intended ticks play Clicks from the current beat. */
  method RunIntendedTicks(m: Metronome, n: nat) returns (clicks: seq<int>)
    requires m.Valid() && m.interval.Some?
    modifies m
    ensures m.Valid() && m.beat == (old(m.beat) + n) % 4
    ensures clicks == Clicks(old(m.beat), n)
  {
    clicks := [];
    var i := 0;
    while i < n
      invariant 0 <= i <= n
      invariant m.Valid() && m.interval == old(m.interval)
      invariant m.beat == (old(m.beat) + i) % 4
      invariant clicks == Clicks(old(m.beat), i)
    {
      var f := m.IntendedTick();
      clicks := clicks + [f];
      i := i + 1;
    }
  }

  /** Started from beat 0, the four clicks as written are all accents; the intended bar accents once. */
  lemma ClicksAsWrittenNeverVary()
    ensures ClicksAsWritten(0, 4) == [1200, 1200, 1200, 1200]
    ensures Clicks(0, 4) == [800, 900, 800, 1200]
  {
  }

  /** Any four consecutive ticks play exactly one accent, on the tick that returns to beat 0. */
  lemma OneAccentPerBar(startBeat: nat)
    ensures var bar := Clicks(startBeat, 4);
            (forall k :: 0 <= k < 4 && bar[k] == 1200 ==> (startBeat + k + 1) % 4 == 0) &&
            (exists k :: 0 <= k < 4 && bar[k] == 1200)
  {
    var bar := Clicks(startBeat, 4);
    var k := 3 - startBeat % 4;
    assert (startBeat + k + 1) % 4 == 0;
    assert bar[k] == 1200;
  }
}
