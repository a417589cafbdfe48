// The fast estimators of src/hooks/audioAnalysis/simpleAudioProcessor.ts:
// detectTempoFast (mean-square energy of non-overlapping 100 ms windows over
// the first 5 seconds, peaks above 1.5 times the mean, the median of the
// first inter-peak intervals folded into [80, 160]) and detectKeyFast (up to
// five 2048-sample chunks, their averaged magnitude spectrum binned into
// pitch classes by semitone offset from 440 Hz, the dominant class named
// as a major key).

module SimpleAudioProcessor {
  import opened Numeric
  import opened Sorting
  import opened Wrappers
  import opened Argmax
  import opened Peaks
  import opened Folding
  import opened LagScan
  import opened Averaging
  import KeyProfiles
  import TempoAnalysis
  import MeydaProcessor

  /** The tempo reported when too few peaks or intervals are found, or the energy reduce throws. */
  const DefaultTempo: real := 120.0

  // --------------------------------------------------------------- tempo

  /** Math.min(data.length, sampleRate * 5): the first five seconds. */
  function TempoSamples(dataLength: nat, sampleRate: nat): nat
  {
    Min(dataLength, sampleRate * 5)
  }

  /** Math.floor(sampleRate * 0.1): 100 ms of samples, also the step between windows. */
  function WindowSize(sampleRate: nat): nat
  {
    Floor(sampleRate as real * 0.1)
  }

  /** From 10 Hz on the window holds a sample, so the window loop advances. */
  lemma WindowSizePositive(sampleRate: nat)
    requires sampleRate >= 10
    ensures WindowSize(sampleRate) >= 1
  {
  }

  /** energy / windowSize with energy the window's sum of squares: one mean square per window. */
  function MeanSquares(data: seq<real>, windowSize: nat): (e: seq<real>)
    requires windowSize > 0
    ensures |e| == TempoAnalysis.WindowCount(|data|, windowSize, windowSize)
  {
    var n := TempoAnalysis.WindowCount(|data|, windowSize, windowSize);
    seq(n, k requires 0 <= k < n => SumSq(TempoAnalysis.WindowAt(data, windowSize, windowSize, k)) / windowSize as real)
  }

  /** Every window energy is a mean square, hence non-negative. */
  lemma MeanSquaresNonNeg(data: seq<real>, windowSize: nat)
    requires windowSize > 0
    ensures AllNonNeg(MeanSquares(data, windowSize))
  {
    var e := MeanSquares(data, windowSize);
    forall k | 0 <= k < |e| ensures e[k] >= 0.0 {
      var w := TempoAnalysis.WindowAt(data, windowSize, windowSize, k);
      SumSqNonNeg(w);
      QuotientNonNeg(SumSq(w), windowSize as real);
    }
  }

  /** The windows do not overlap: window k starts k windows in and ends before the analysed length. */
  lemma WindowsDisjoint(dataLength: nat, windowSize: nat, k: nat)
    requires windowSize > 0 && k < TempoAnalysis.WindowCount(dataLength, windowSize, windowSize)
    ensures (k + 1) * windowSize < dataLength
  {
    CountFromBound(windowSize, 0, dataLength as int - windowSize, k);
  }

  /** `for (let i = 0; i < analysisData.length - windowSize; i += windowSize)` pushing energy / windowSize. */
  method EnergyWindows(data: seq<real>, windowSize: nat) returns (energies: seq<real>)
    requires windowSize > 0
    ensures energies == MeanSquares(data, windowSize)
  {
    energies := [];
    var limit: int := |data| as int - windowSize;
    var i := 0;
    while i < limit
      invariant Windowing(data, windowSize, limit, i, energies)
      decreases limit - i
    {
      WindowingStep(data, windowSize, limit, i, energies);
      var energy := TempoAnalysis.WindowEnergy(data, i, windowSize);
      energies := energies + [energy / windowSize as real];
      i := i + windowSize;
    }
    WindowingDone(data, windowSize, limit, i, energies);
  }

  /** The loop of EnergyWindows after the windows before sample i: one mean square per window, each at its place. */
  ghost predicate Windowing(data: seq<real>, windowSize: nat, limit: int, i: nat, energies: seq<real>)
  {
    windowSize > 0 && limit == |data| as int - windowSize && i == |energies| * windowSize &&
    |energies| + CountFrom(windowSize, i, limit) == TempoAnalysis.WindowCount(|data|, windowSize, windowSize) &&
    forall k :: 0 <= k < |energies| ==>
      energies[k] == SumSq(TempoAnalysis.WindowAt(data, windowSize, windowSize, k)) / windowSize as real
  }

  lemma WindowingStep(data: seq<real>, windowSize: nat, limit: int, i: nat, energies: seq<real>)
    requires Windowing(data, windowSize, limit, i, energies) && i < limit
    ensures i + windowSize <= |data|
    ensures Windowing(data, windowSize, limit, i + windowSize,
                      energies + [SumSq(data[i..i + windowSize]) / windowSize as real])
  {
    var n := |energies|;
    assert (n + 1) * windowSize == n * windowSize + windowSize;
    assert data[i..i + windowSize] == TempoAnalysis.WindowAt(data, windowSize, windowSize, n);
  }

  lemma WindowingDone(data: seq<real>, windowSize: nat, limit: int, i: nat, energies: seq<real>)
    requires Windowing(data, windowSize, limit, i, energies) && i >= limit
    ensures energies == MeanSquares(data, windowSize)
  {
  }


  /**
   * `while (bpm < 80) bpm *= 2; while (bpm > 160) bpm /= 2;` and the clamp
   * to [80, 160], which never acts: the tempo is the reference fold of
   * the start into [80, 160], in range, an octave move of the start, and a
   * start in range is returned unchanged.
   */
  method FoldTempo(bpm: int) returns (tempo: real)
    requires bpm > 0
    ensures tempo == Fold(bpm as real, 80.0, 160.0)
    ensures 80.0 <= tempo <= 160.0
    ensures OctaveOf(tempo, bpm as real)
    ensures 80 <= bpm <= 160 ==> tempo == bpm as real
  {
    var up, ku := FoldUp(bpm as real, 80.0);
    var down, kd := FoldDown(up, 160.0);
    Folded(bpm as real, 80.0, 160.0, up, ku, down, kd);
    tempo := Clamp(down, 80.0, 160.0);
    assert tempo == down;
  }

  /** How detectTempoFast ends. */
  datatype FastRoute =
    | NoWindows     // no window ran: reduce without an initial value throws, caught as 120
    | FewPeaks      // fewer than 3 peaks
    | NoIntervals   // no usable interval among the first 10 peaks
    | FromMedian    // the median interval

  /**
   * The facts about a run with at least one window: the peaks are picked
   * from the energies in [1, n - 1) above 1.5 times their mean, the
   * intervals are the usable gaps between the first 10 peak times, the
   * route is what their counts select, and the tempo is 120 or the folded
   * median tempo accordingly.
   */
  ghost predicate FastOutcome(energies: seq<real>, sampleRate: nat, windowSize: nat, tempo: real,
                              route: FastRoute, peaks: seq<int>, intervals: seq<real>)
    requires sampleRate > 0 && |energies| > 0
  {
    PeakPicking(energies, 1, 1, Mean(energies) * 1.5, 0, peaks) &&
    (|peaks| >= 3 ==> intervals == Within(Gaps(Times(peaks, windowSize, sampleRate), 10), 0.3, 2.0)) &&
    (route == FewPeaks <==> |peaks| < 3) &&
    (route == NoIntervals <==> |peaks| >= 3 && |intervals| == 0) &&
    route != NoWindows &&
    (route != FromMedian ==> tempo == DefaultTempo) &&
    (route == FromMedian ==>
       |intervals| > 0 &&
       30 <= Round(60.0 / Median(intervals)) <= 200 &&
       tempo == Fold(Round(60.0 / Median(intervals)) as real, 80.0, 160.0) &&
       80.0 <= tempo <= 160.0 && OctaveOf(tempo, Round(60.0 / Median(intervals)) as real))
  }

  /** Threshold, peaks, intervals and median once the energies exist. */
  method TempoFromEnergies(energies: seq<real>, sampleRate: nat, windowSize: nat)
    returns (tempo: real, ghost route: FastRoute, ghost peaks: seq<int>, ghost intervals: seq<real>)
    requires sampleRate > 0 && |energies| > 0
    ensures FastOutcome(energies, sampleRate, windowSize, tempo, route, peaks, intervals)
  {
    var threshold := Sum(energies) / |energies| as real * 1.5;
    var found := PickPeaks(energies, 1, 1, threshold, 0);
    peaks := found;
    intervals := [];
    if |found| < 3 {
      return DefaultTempo, FewPeaks, peaks, intervals;
    }
    var peakTimes := Times(found, windowSize, sampleRate);
    var usable := CollectIntervals(peakTimes, 10, 0.3, 2.0);
    intervals := usable;
    if |usable| == 0 {
      return DefaultTempo, NoIntervals, peaks, intervals;
    }
    MedianWithin(usable, 0.3, 2.0);
    var medianInterval := Median(usable);
    MeydaProcessor.MedianBpmRange(medianInterval);
    var bpm := Round(60.0 / medianInterval);
    tempo := FoldTempo(bpm);
    route := FromMedian;
  }

  /**
   * detectTempoFast. The source needs a sample rate of at least 10 Hz:
   * below it the window is empty and the window loop never advances.
   */
  method DetectTempoFast(data: seq<real>, sampleRate: nat)
    returns (tempo: real, ghost energies: seq<real>, ghost route: FastRoute, ghost peaks: seq<int>, ghost intervals: seq<real>)
    requires sampleRate >= 10
    ensures WindowSize(sampleRate) > 0
    ensures energies == MeanSquares(data[..TempoSamples(|data|, sampleRate)], WindowSize(sampleRate))
    ensures route == NoWindows <==> |energies| == 0
    ensures route == NoWindows ==> tempo == DefaultTempo
    ensures |energies| > 0 ==> FastOutcome(energies, sampleRate, WindowSize(sampleRate), tempo, route, peaks, intervals)
    ensures 80.0 <= tempo <= 160.0
  {
    var maxSamples := TempoSamples(|data|, sampleRate);
    var analysisData := data[..maxSamples];
    var windowSize := WindowSize(sampleRate);
    WindowSizePositive(sampleRate);
    var e := EnergyWindows(analysisData, windowSize);
    energies := e;
    if |e| == 0 {
      return DefaultTempo, energies, NoWindows, [], [];
    }
    tempo, route, peaks, intervals := TempoFromEnergies(e, sampleRate, windowSize);
  }

  // ----------------------------------------------------------------- key

  const FftSize: nat := 2048
  /** The spectrum's length, fftSize / 2. */
  const SpectrumLength: nat := 1024
  /** One chunk every fftSize * 2 samples. */
  const ChunkStep: nat := 4096
  const MaxChunks: nat := 5

  /** Math.min(data.length, sampleRate * 3): the first three seconds. */
  function KeySamples(dataLength: nat, sampleRate: nat): nat
  {
    Min(dataLength, sampleRate * 3)
  }

  /** Chunks that start below length - fftSize, every 4096 samples, at most 5 of them. */
  function ChunkCount(dataLength: nat): (n: nat)
    ensures n <= MaxChunks
  {
    Min(MaxChunks, CountFrom(ChunkStep, 0, dataLength as int - FftSize))
  }

  /** No chunk is taken from fewer than 2049 samples; otherwise at least one is. */
  lemma NoChunkWhenShort(dataLength: nat)
    ensures ChunkCount(dataLength) == 0 <==> dataLength <= FftSize
  {
  }

  /** The samples of chunk k: a full fftSize chunk. */
  function Chunk(data: seq<real>, k: nat): (c: seq<real>)
    requires k < ChunkCount(|data|)
    ensures |c| == FftSize
  {
    CountFromBound(ChunkStep, 0, |data| as int - FftSize, k);
    data[k * ChunkStep..k * ChunkStep + FftSize]
  }

  /**
   * The magnitude spectrum of every chunk. `fft` stands for simpleFFT,
   * whose sine and cosine sums are not modelled; it yields fftSize / 2 bins.
   */
  function Spectra(data: seq<real>, fft: seq<real> -> seq<real>): (s: seq<seq<real>>)
    ensures |s| == ChunkCount(|data|)
  {
    seq(ChunkCount(|data|), k requires 0 <= k < ChunkCount(|data|) => fft(Chunk(data, k)))
  }

  /** The chunk loop with its `if (frequencies.length >= 5) break`. */
  method CollectSpectra(data: seq<real>, fft: seq<real> -> seq<real>) returns (frequencies: seq<seq<real>>)
    ensures frequencies == Spectra(data, fft)
  {
    frequencies := [];
    var limit: int := |data| as int - FftSize;
    var total := CountFrom(ChunkStep, 0, limit);
    var i := 0;
    while i < limit
      invariant i == |frequencies| * ChunkStep && |frequencies| < MaxChunks
      invariant |frequencies| + CountFrom(ChunkStep, i, limit) == total
      invariant forall k :: 0 <= k < |frequencies| ==> k < ChunkCount(|data|) && frequencies[k] == fft(Chunk(data, k))
      decreases limit - i
    {
      assert data[i..i + FftSize] == Chunk(data, |frequencies|);
      frequencies := frequencies + [fft(data[i..i + FftSize])];
      if |frequencies| >= MaxChunks {
        break;
      }
      i := i + ChunkStep;
    }
  }

  /** The nested loops building avgSpectrum, each spectrum divided by the number of spectra. */
  method AverageSpectrum(spectra: seq<seq<real>>) returns (avg: seq<real>)
    requires |spectra| > 0 && forall j :: 0 <= j < |spectra| ==> |spectra[j]| == SpectrumLength
    ensures avg == Average(spectra, |spectra|, SpectrumLength)
  {
    avg := seq(SpectrumLength, _ => 0.0);
    var k := 0;
    while k < |spectra|
      invariant 0 <= k <= |spectra| && avg == Average(spectra, k, SpectrumLength)
    {
      var spectrum := spectra[k];
      var next := avg;
      var i := 0;
      while i < SpectrumLength
        invariant 0 <= i <= SpectrumLength && |next| == SpectrumLength
        invariant forall j :: 0 <= j < i ==> next[j] == avg[j] + spectrum[j] / |spectra| as real
        invariant forall j :: i <= j < SpectrumLength ==> next[j] == avg[j]
      {
        next := next[i := next[i] + spectrum[i] / |spectra| as real];
        i := i + 1;
      }
      assert next == AddFrame(avg, spectrum, |spectra|);
      avg := next;
      k := k + 1;
    }
  }

  /** (i * sampleRate) / (2 * fftSize): the frequency in Hz of spectrum bin i. */
  function BinFrequency(i: nat, sampleRate: nat): real
  {
    (i * sampleRate) as real / (2 * FftSize) as real
  }

  /** JavaScript's `%` by 12: the remainder takes the dividend's sign. */
  function JsRem12(a: int): (r: int)
    ensures a >= 0 ==> r == a % 12
    ensures a < 0 ==> r == -((-a) % 12)
  {
    if a >= 0 then a % 12 else -((-a) % 12)
  }

  /**
   * The remainder is non-negative exactly when the dividend is, or when it
   * is a multiple of 12 (JavaScript's -0 passes `>= 0`), and then it is the
   * dividend's Euclidean residue; it always lies in (-12, 12).
   */
  lemma JsRem12Range(a: int)
    ensures -12 < JsRem12(a) < 12
    ensures JsRem12(a) >= 0 <==> a >= 0 || a % 12 == 0
    ensures JsRem12(a) >= 0 ==> JsRem12(a) == a % 12
  {
  }

  /**
   * The pitch class bin i accumulates into: Math.round(12 log2(f / 440)) % 12
   * for a frequency in (80, 2000) Hz, kept only when it is in [0, 12).
   * `log2` stands for Math.log2.
   */
  function PitchIndex(i: nat, sampleRate: nat, log2: real -> real): (p: Option<nat>)
    ensures p.Some? ==> p.value < 12
  {
    var freq := BinFrequency(i, sampleRate);
    if 80.0 < freq < 2000.0 then
      var noteIndex := JsRem12(Round(12.0 * log2(freq / 440.0)));
      if 0 <= noteIndex < 12 then Some(noteIndex as nat) else None
    else None
  }

  /**
   * A bin reaches the chroma exactly when its frequency is in band and its
   * semitone offset from 440 Hz is non-negative or a multiple of 12, and
   * then at that offset's residue mod 12.
   */
  lemma PitchIndexCharacterized(i: nat, sampleRate: nat, log2: real -> real)
    ensures var freq := BinFrequency(i, sampleRate);
            var semitones := Round(12.0 * log2(freq / 440.0));
            PitchIndex(i, sampleRate, log2).Some? <==>
              80.0 < freq < 2000.0 && (semitones >= 0 || semitones % 12 == 0)
    ensures var freq := BinFrequency(i, sampleRate);
            var semitones := Round(12.0 * log2(freq / 440.0));
            PitchIndex(i, sampleRate, log2).Some? ==> PitchIndex(i, sampleRate, log2).value == semitones % 12
  {
    var freq := BinFrequency(i, sampleRate);
    JsRem12Range(Round(12.0 * log2(freq / 440.0)));
  }

  /** The chroma after bins 1 .. n - 1: each kept bin adds its average magnitude to its class. */
  function BinChroma(avg: seq<real>, sampleRate: nat, log2: real -> real, n: nat): (c: seq<real>)
    requires n <= |avg|
    ensures |c| == 12
  {
    if n <= 1 then seq(12, _ => 0.0)
    else
      var c := BinChroma(avg, sampleRate, log2, n - 1);
      var p := PitchIndex(n - 1, sampleRate, log2);
      if p.Some? then c[p.value := c[p.value] + avg[n - 1]] else c
  }

  /** The magnitude of bin i that class p receives: all of it when bin i maps to p, none otherwise. */
  function Share(avg: seq<real>, sampleRate: nat, log2: real -> real, p: nat, i: nat): real
    requires i < |avg|
  {
    if 1 <= i && PitchIndex(i, sampleRate, log2) == Some(p) then avg[i] else 0.0
  }

  /** Every bin's share of class p, in bin order. */
  function Shares(avg: seq<real>, sampleRate: nat, log2: real -> real, p: nat, n: nat): (s: seq<real>)
    requires n <= |avg|
    ensures |s| == n
  {
    seq(n, i requires 0 <= i < n => Share(avg, sampleRate, log2, p, i))
  }

  /** Class p holds the sum of the magnitudes of exactly the bins in [1, n) that map to p. */
  lemma {:induction false} BinChromaIsClassSum(avg: seq<real>, sampleRate: nat, log2: real -> real, n: nat, p: nat)
    requires n <= |avg| && p < 12
    ensures BinChroma(avg, sampleRate, log2, n)[p] == Sum(Shares(avg, sampleRate, log2, p, n))
  {
    var s := Shares(avg, sampleRate, log2, p, n);
    if n == 0 {
    } else if n == 1 {
      assert s[..0] == [];
    } else {
      BinChromaIsClassSum(avg, sampleRate, log2, n - 1, p);
      assert s[..n - 1] == Shares(avg, sampleRate, log2, p, n - 1);
    }
  }

  /** Non-negative magnitudes give a non-negative chroma. */
  lemma {:induction false} BinChromaNonNeg(avg: seq<real>, sampleRate: nat, log2: real -> real, n: nat)
    requires n <= |avg| && AllNonNeg(avg)
    ensures AllNonNeg(BinChroma(avg, sampleRate, log2, n))
  {
    if n > 1 {
      BinChromaNonNeg(avg, sampleRate, log2, n - 1);
    }
  }

  /** The bin loop `for (let i = 1; i < avgSpectrum.length; i++)` filling the 12 classes. */
  method MapToChroma(avg: seq<real>, sampleRate: nat, log2: real -> real) returns (chroma: seq<real>)
    ensures chroma == BinChroma(avg, sampleRate, log2, |avg|)
  {
    chroma := seq(12, _ => 0.0);
    var i := 1;
    if |avg| == 0 {
      return;
    }
    while i < |avg|
      invariant 1 <= i <= |avg| && chroma == BinChroma(avg, sampleRate, log2, i)
    {
      var freq := (i * sampleRate) as real / (2 * FftSize) as real;
      if freq > 80.0 && freq < 2000.0 {
        var noteIndex := JsRem12(Round(12.0 * log2(freq / 440.0)));
        if noteIndex >= 0 && noteIndex < 12 {
          chroma := chroma[noteIndex := chroma[noteIndex] + avg[i]];
        }
      }
      i := i + 1;
    }
  }

  /** The dominant class: the first strictly greatest entry above 0, or 0 if none is positive. */
  function DominantOf(w: Option<nat>): nat
  {
    if w.None? then 0 else w.value
  }

  /** `let maxChroma = 0, dominantNote = 0; if (chroma[i] > maxChroma) ...` over the 12 classes. */
  method DominantNote(chroma: seq<real>) returns (dominantNote: nat, ghost w: Option<nat>)
    requires |chroma| == 12
    ensures FirstStrictMax(chroma, Finite(0.0), w)
    ensures dominantNote == DominantOf(w) && dominantNote < 12
  {
    var maxChroma := 0.0;
    dominantNote := 0;
    w := None;
    var i := 0;
    while i < 12
      invariant 0 <= i <= 12
      invariant FirstStrictMax(chroma[..i], Finite(0.0), w)
      invariant Finite(maxChroma) == BestSoFar(chroma[..i], Finite(0.0), w)
      invariant dominantNote == DominantOf(w) && dominantNote < 12
    {
      FirstStrictMaxStep(chroma[..i], Finite(0.0), w, chroma[i]);
      assert chroma[..i + 1] == chroma[..i] + [chroma[i]];
      if chroma[i] > maxChroma {
        maxChroma := chroma[i];
        dominantNote := i;
        w := Some(i);
      }
      i := i + 1;
    }
    assert chroma[..12] == chroma;
  }

  /** A chroma with no positive class names C: the scan keeps its initial note. */
  lemma NoPositiveClassIsC(chroma: seq<real>, w: Option<nat>)
    requires FirstStrictMax(chroma, Finite(0.0), w)
    requires forall p :: 0 <= p < |chroma| ==> chroma[p] <= 0.0
    ensures DominantOf(w) == 0
  {
  }

  /** The strings detectKeyFast can produce: a note name followed by " Major". */
  ghost predicate IsMajorKeyName(s: string)
  {
    exists root: nat :: root < 12 && s == KeyProfiles.KeyName(KeyProfiles.Key(root, KeyProfiles.Major))
  }

  /**
   * detectKeyFast over the first three seconds. No chunk gives "C Major";
   * otherwise the key is the dominant pitch class of the binned average
   * spectrum, always as a major key.
   */
  method DetectKeyFast(data: seq<real>, sampleRate: nat, fft: seq<real> -> seq<real>, log2: real -> real)
    returns (key: string, ghost spectra: seq<seq<real>>, ghost chroma: seq<real>, ghost w: Option<nat>)
    requires forall c: seq<real> :: |c| == FftSize ==> |fft(c)| == SpectrumLength
    ensures spectra == Spectra(data[..KeySamples(|data|, sampleRate)], fft)
    ensures |spectra| == 0 ==> key == "C Major"
    ensures |spectra| > 0 ==>
              chroma == BinChroma(Average(spectra, |spectra|, SpectrumLength), sampleRate, log2, SpectrumLength) &&
              FirstStrictMax(chroma, Finite(0.0), w) &&
              key == KeyProfiles.KeyName(KeyProfiles.Key(DominantOf(w), KeyProfiles.Major))
    ensures IsMajorKeyName(key)
  {
    var maxSamples := KeySamples(|data|, sampleRate);
    var analysisData := data[..maxSamples];
    var frequencies := CollectSpectra(analysisData, fft);
    spectra := frequencies;
    if |frequencies| == 0 {
      assert "C Major" == KeyProfiles.KeyName(KeyProfiles.CMajor);
      return "C Major", spectra, [], None;
    }
    forall j | 0 <= j < |frequencies| ensures |frequencies[j]| == SpectrumLength {
      assert frequencies[j] == fft(Chunk(analysisData, j));
    }
    var avgSpectrum := AverageSpectrum(frequencies);
    var c := MapToChroma(avgSpectrum, sampleRate, log2);
    chroma := c;
    var dominantNote;
    dominantNote, w := DominantNote(c);
    key := KeyProfiles.NoteNames[dominantNote] + " Major";
    assert key == KeyProfiles.KeyName(KeyProfiles.Key(dominantNote, KeyProfiles.Major));
  }
}
