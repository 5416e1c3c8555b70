/** The audio analyzer hook (src/app/hooks/useAudioAnalyzer.ts): reduces a
    byte frequency spectrum to four band energies, and tracks whether a file
    is playing, the microphone is listening, or nothing is active. */
module AudioAnalyzer {

  /** One bin of the analyser's byte frequency data. */
  type Byte = x: int | 0 <= x <= 255

  /** The four band energies, each meant to lie in [0, 1]. */
  datatype AudioData = AudioData(bass: real, mids: real, treble: real, overall: real)

  const InitialAudioData: AudioData := AudioData(0.0, 0.0, 0.0, 0.0)

  predicate InUnitRange(d: AudioData)
  {
    && 0.0 <= d.bass <= 1.0 && 0.0 <= d.mids <= 1.0
    && 0.0 <= d.treble <= 1.0 && 0.0 <= d.overall <= 1.0
  }

  /** The analyser's FFT size, set when a source is connected. */
  const FFT_SIZE: nat := 256

  /** An analyser reports half as many frequency bins as its FFT size
      (section 1.8 of the W3C Web Audio API, the AnalyserNode interface). */
  function FrequencyBinCount(fftSize: nat): nat
  {
    fftSize / 2
  }

  /** The exclusive ends of the bass, mids and treble bands, in bins. */
  datatype BandEnds = BandEnds(bassEnd: nat, midsEnd: nat, trebleEnd: nat)

  /** `floor(n * (f / 22050))` for the cut-offs f = 250, 2000 and 14000 Hz. */
  function Ends(n: nat): (e: BandEnds)
    ensures 0 <= e.bassEnd <= e.midsEnd <= e.trebleEnd <= n
  {
    DivMonotone(n * 250, n * 2000, 22050);
    DivMonotone(n * 2000, n * 14000, 22050);
    DivMonotone(n * 14000, n * 22050, 22050);
    BandEnds(n * 250 / 22050, n * 2000 / 22050, n * 14000 / 22050)
  }

  lemma DivMonotone(a: nat, b: nat, d: nat)
    requires a <= b && 0 < d
    ensures a / d <= b / d
  {
    var qa, qb := a / d, b / d;
    assert d * qa <= a && b < d * qb + d;
    assert d * qa < d * (qb + 1);
  }

  /** `reduce((a, b) => a + b, 0)`: the left-to-right sum of the bins. */
  function Sum(s: seq<Byte>): (t: int)
    ensures 0 <= t <= 255 * |s|
    decreases |s|
  {
    if s == [] then 0 else Sum(s[..|s| - 1]) + s[|s| - 1]
  }

  lemma {:induction false} SumConcat(a: seq<Byte>, b: seq<Byte>)
    ensures Sum(a + b) == Sum(a) + Sum(b)
    decreases |b|
  {
    if b == [] {
      assert a + b == a;
    } else {
      assert (a + b)[..|a + b| - 1] == a + b[..|b| - 1];
      SumConcat(a, b[..|b| - 1]);
    }
  }

  lemma {:induction false} SumOfSilence(s: seq<Byte>)
    requires forall i :: 0 <= i < |s| ==> s[i] == 0
    ensures Sum(s) == 0
    decreases |s|
  {
    if s != [] {
      SumOfSilence(s[..|s| - 1]);
    }
  }

  /** A band's mean normalised by 255. A band with no bins divides 0 by 0,
      whose NaN is reported as 0. */
  function BandLevel(band: seq<Byte>): (v: real)
    ensures 0.0 <= v <= 1.0
    ensures |band| == 0 ==> v == 0.0
    ensures Sum(band) == 0 ==> v == 0.0
    ensures |band| > 0 ==> v * 255.0 * (|band| as real) == Sum(band) as real
  {
    if |band| == 0 then 0.0
    else
      var m := 255.0 * (|band| as real);
      var t := Sum(band) as real;
      QuotientAtMostOne(t, m);
      t / m
  }

  /** A sum bounded by its band's maximum gives a level of at most 1. */
  lemma QuotientAtMostOne(t: real, m: real)
    requires 0.0 <= t <= m && 0.0 < m
    ensures 0.0 <= t / m <= 1.0
    ensures t / m * m == t
  {
    var q := t / m;
    assert q * m == t;
    assert (1.0 - q) * m == m - t;
    NonNegativeFactor(1.0 - q, m);
    NonNegativeFactor(q, m);
  }

  lemma NonNegativeFactor(x: real, m: real)
    requires 0.0 < m && 0.0 <= x * m
    ensures 0.0 <= x
  {
  }

  /** The band energies of one spectrum: bass, mids and treble are the
      contiguous ranges between the band ends, overall is every bin. */
  function Analyze(spectrum: seq<Byte>): (d: AudioData)
    ensures InUnitRange(d)
  {
    var e := Ends(|spectrum|);
    AudioData(
      BandLevel(spectrum[..e.bassEnd]),
      BandLevel(spectrum[e.bassEnd..e.midsEnd]),
      BandLevel(spectrum[e.midsEnd..e.trebleEnd]),
      BandLevel(spectrum))
  }

  lemma SplitOnce(s: seq<Byte>, b: nat)
    requires b <= |s|
    ensures Sum(s) == Sum(s[..b]) + Sum(s[b..])
  {
    assert s[..b] + s[b..] == s;
    SumConcat(s[..b], s[b..]);
  }

  /** Cutting a spectrum at three ordered points splits both it and its sum. */
  lemma SplitAt(s: seq<Byte>, b: nat, m: nat, t: nat)
    requires b <= m <= t <= |s|
    ensures s[..b] + s[b..m] + s[m..t] + s[t..] == s
    ensures Sum(s) == Sum(s[..b]) + Sum(s[b..m]) + Sum(s[m..t]) + Sum(s[t..])
  {
    var p, q, r, u := s[..b], s[b..m], s[m..t], s[t..];
    assert p + q == s[..m];
    assert p + q + r == s[..t];
    calc {
      p + q + r + u;
      s[..t] + u;
      s;
    }
    SplitOnce(s, t);
    SplitOnce(s[..t], m);
    SplitOnce(s[..m], b);
    assert s[..t][..m] == s[..m] && s[..t][m..] == r;
    assert s[..m][..b] == p && s[..m][b..] == q;
  }

  /** The three bands are disjoint and contiguous: together with the bins
      above the treble cut-off they make up the spectrum, and the overall sum
      is the sum of the parts. */
  lemma BandsPartition(spectrum: seq<Byte>)
    ensures var e := Ends(|spectrum|);
      && spectrum[..e.bassEnd] + spectrum[e.bassEnd..e.midsEnd]
           + spectrum[e.midsEnd..e.trebleEnd] + spectrum[e.trebleEnd..] == spectrum
      && Sum(spectrum) == Sum(spectrum[..e.bassEnd]) + Sum(spectrum[e.bassEnd..e.midsEnd])
           + Sum(spectrum[e.midsEnd..e.trebleEnd]) + Sum(spectrum[e.trebleEnd..])
  {
    var e := Ends(|spectrum|);
    SplitAt(spectrum, e.bassEnd, e.midsEnd, e.trebleEnd);
  }

  /** An all-silent spectrum reports exactly zero in every band. */
  lemma SilenceIsZero(spectrum: seq<Byte>)
    requires forall i :: 0 <= i < |spectrum| ==> spectrum[i] == 0
    ensures Analyze(spectrum) == InitialAudioData
  {
    var e := Ends(|spectrum|);
    SumOfSilence(spectrum[..e.bassEnd]);
    SumOfSilence(spectrum[e.bassEnd..e.midsEnd]);
    SumOfSilence(spectrum[e.midsEnd..e.trebleEnd]);
    SumOfSilence(spectrum);
  }

  /** With an FFT size of 256 the analyser has 128 bins and the band ends
      are 1, 11 and 81, so every band has at least one bin. */
  lemma StandardBands()
    ensures FrequencyBinCount(FFT_SIZE) == 128
    ensures Ends(FrequencyBinCount(FFT_SIZE)) == BandEnds(1, 11, 81)
  {
  }

  /** Which source, if any, feeds the analyser. */
  datatype Status = Inactive | Playing | Listening

  /** A source node together with the audio context it was created in: the
      two browser objects the analyzer must release on cleanup. */
  class AudioSource {
    var connected: bool
    var contextClosed: bool

    constructor ()
      ensures connected && !contextClosed
    {
      connected := true;
      contextClosed := false;
    }
  }

  /** The hook's state: the reported status and data, the file name shown,
      the source (with its context) and analyser references, and whether an
      analysis frame is scheduled. */
  class Analyzer {
    var status: Status
    var audioData: AudioData
    var fileName: string
    var source: AudioSource?
    var hasAnalyser: bool
    var frameScheduled: bool

    /** A source and an analyser are held together, exactly while a file is
        playing or the microphone is listening, and a held source is connected
        and its context open; an inactive analyzer reports zeros; reported
        values stay in [0, 1]. */
    ghost predicate Valid()
      reads this, source
    {
      && (source != null <==> hasAnalyser)
      && (source != null ==> source.connected && !source.contextClosed)
      && (status != Inactive <==> hasAnalyser)
      && (frameScheduled ==> hasAnalyser)
      && (status == Inactive ==> audioData == InitialAudioData)
      && InUnitRange(audioData)
    }

    /** Nothing is held: the state `cleanup` always leaves behind. */
    ghost predicate Stopped()
      reads this
    {
      && status == Inactive && audioData == InitialAudioData && fileName == ""
      && source == null && !hasAnalyser && !frameScheduled
    }

    constructor ()
      ensures Valid() && Stopped()
    {
      status := Inactive;
      audioData := InitialAudioData;
      fileName := "";
      source := null;
      hasAnalyser, frameScheduled := false, false;
    }

    /** Cancels the pending frame, disconnects the source, closes its context
        unless already closed, drops the references, zeroes the data and goes
        inactive. The end state does not depend on the start state, so
        stopping twice is the same as stopping once. */
    method Cleanup()
      modifies this, source
      ensures Valid() && Stopped()
      ensures old(source) != null ==> !old(source).connected && old(source).contextClosed
    {
      frameScheduled := false;
      if source != null {
        source.connected := false;
        if !source.contextClosed {
          source.contextClosed := true;
        }
        source := null;
      }
      hasAnalyser := false;
      audioData := InitialAudioData;
      status := Inactive;
      fileName := "";
    }

    /** The exposed file-name setter. */
    method SetFileName(name: string)
      requires Valid()
      modifies this
      ensures Valid() && fileName == name
      ensures status == old(status) && audioData == old(audioData) && source == old(source)
      ensures hasAnalyser == old(hasAnalyser) && frameScheduled == old(frameScheduled)
    {
      fileName := name;
    }

    /** One analysis frame: without an analyser nothing happens; otherwise the
        data becomes the band energies of the current spectrum and the next
        frame is scheduled. */
    method AnalyzeFrame(spectrum: seq<Byte>)
      requires Valid()
      requires |spectrum| == FrequencyBinCount(FFT_SIZE)
      modifies this
      ensures Valid()
      ensures old(hasAnalyser) ==> audioData == Analyze(spectrum) && frameScheduled
      ensures !old(hasAnalyser) ==> audioData == old(audioData) && frameScheduled == old(frameScheduled)
      ensures status == old(status) && fileName == old(fileName)
      ensures hasAnalyser == old(hasAnalyser) && source == old(source)
    {
      if !hasAnalyser {
        return;
      }
      audioData := Analyze(spectrum);
      frameScheduled := true;
    }

    /** Connects a new source through an analyser and runs the first frame. */
    method Setup(src: AudioSource, spectrum: seq<Byte>)
      requires Stopped() && src.connected && !src.contextClosed
      requires |spectrum| == FrequencyBinCount(FFT_SIZE)
      modifies this
      ensures source == src && hasAnalyser && frameScheduled
      ensures audioData == Analyze(spectrum)
      ensures status == Inactive && fileName == ""
    {
      hasAnalyser := true;
      source := src;
      audioData := Analyze(spectrum);
      frameScheduled := true;
    }

    /** Plays an audio element: releases whatever was active first, then ends
        `playing` on a new source with the first frame's data. `created` says
        whether the browser made the context and the element's source node; when
        it throws instead (a second source node for the same element, say), the
        exception escapes after the cleanup and the hook stays stopped. */
    method StartFromFile(created: bool, spectrum: seq<Byte>)
      requires |spectrum| == FrequencyBinCount(FFT_SIZE)
      modifies this, source
      ensures Valid()
      ensures old(source) != null ==> !old(source).connected && old(source).contextClosed
      ensures created ==> fresh(source) && status == Playing && audioData == Analyze(spectrum)
      ensures created ==> hasAnalyser && frameScheduled && fileName == ""
      ensures !created ==> Stopped()
    {
      Cleanup();
      if created {
        var src := new AudioSource();
        Setup(src, spectrum);
        status := Playing;
      }
    }

    /** Opens the microphone: releases whatever was active first; on success
        ends `listening` on a new source, and when access is denied ends
        stopped with zeroed data. */
    method StartFromMic(granted: bool, spectrum: seq<Byte>)
      requires |spectrum| == FrequencyBinCount(FFT_SIZE)
      modifies this, source
      ensures Valid()
      ensures old(source) != null ==> !old(source).connected && old(source).contextClosed
      ensures granted ==> fresh(source) && status == Listening && audioData == Analyze(spectrum)
      ensures granted ==> hasAnalyser && frameScheduled && fileName == ""
      ensures !granted ==> Stopped()
    {
      Cleanup();
      if granted {
        var src := new AudioSource();
        Setup(src, spectrum);
        status := Listening;
      } else {
        Cleanup();
      }
    }

    /** The file input's change handler as written: it sets the chosen name and
        then starts playback, whose cleanup clears the name again. */
    method HandleFileChange(name: string, created: bool, spectrum: seq<Byte>)
      requires Valid()
      requires |spectrum| == FrequencyBinCount(FFT_SIZE)
      modifies this, source
      ensures Valid() && fileName == ""
      ensures created ==> status == Playing && audioData == Analyze(spectrum)
      ensures !created ==> Stopped()
    {
      SetFileName(name);
      StartFromFile(created, spectrum);
    }

    /** The handler as evidently intended: playback starts and the chosen
        name is what the controls then show. */
    method HandleFileChangeKeepingName(name: string, created: bool, spectrum: seq<Byte>)
      requires Valid()
      requires |spectrum| == FrequencyBinCount(FFT_SIZE)
      modifies this, source
      ensures Valid()
      ensures created ==> status == Playing && audioData == Analyze(spectrum) && fileName == name
      ensures !created ==> Stopped()
    {
      StartFromFile(created, spectrum);
      if created {
        SetFileName(name);
      }
    }
  }

  /** The as-written handler loses every non-empty file name. */
  method FileNameIsLost(name: string, created: bool, spectrum: seq<Byte>) returns (shown: string)
    requires name != ""
    requires |spectrum| == FrequencyBinCount(FFT_SIZE)
    ensures shown != name && shown == ""
  {
    var a := new Analyzer();
    a.HandleFileChange(name, created, spectrum);
    shown := a.fileName;
  }
}
