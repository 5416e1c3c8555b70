/** The video export dialog (src/app/components/shared/VideoExportDialog.tsx):
    its option record, the recording format it picks, and the progress ticker
    that stops the recorder once the chosen duration has elapsed. The recorder,
    the canvas stream and the download are browser objects; the model keeps
    only what the dialog decides about them. */
module VideoExport {
  import opened Wrappers

  datatype Quality = Low | Medium | High

  /** Export options. The dialog starts from a record with only a duration and
      a frame rate, so bitrate and quality are absent until a quality is chosen. */
  datatype VideoOptions = VideoOptions(duration: real, fps: real, bitrate: Option<int>, quality: Option<Quality>)

  const DefaultVideoOptions: VideoOptions := VideoOptions(10.0, 120.0, None, None)

  /** The bitrate in bits per second for each quality. */
  function BitrateFor(q: Quality): (b: int)
    ensures q == Low ==> b == 1000000
    ensures q == Medium ==> b == 4000000
    ensures q == High ==> b == 8000000
  {
    match q
    case Low => 1000000
    case Medium => 4000000
    case High => 8000000
  }

  /** A better quality never gets a lower bitrate, and distinct qualities get distinct bitrates. */
  lemma BitrateIncreasesWithQuality(p: Quality, q: Quality)
    ensures Rank(p) < Rank(q) ==> BitrateFor(p) < BitrateFor(q)
    ensures BitrateFor(p) == BitrateFor(q) ==> p == q
  {
  }

  function Rank(q: Quality): nat
  {
    match q
    case Low => 0
    case Medium => 1
    case High => 2
  }

  /** A quality change sets the quality and its bitrate and nothing else. */
  function HandleQualityChange(o: VideoOptions, q: Quality): (r: VideoOptions)
    ensures r.quality == Some(q) && r.bitrate == Some(BitrateFor(q))
    ensures r.duration == o.duration && r.fps == o.fps
  {
    o.(quality := Some(q), bitrate := Some(BitrateFor(q)))
  }

  /** A frame-rate change sets only the frame rate. */
  function HandleFpsChange(o: VideoOptions, fps: real): (r: VideoOptions)
    ensures r.fps == fps
    ensures r.duration == o.duration && r.bitrate == o.bitrate && r.quality == o.quality
  {
    o.(fps := fps)
  }

  /** A duration change sets only the duration. */
  function HandleDurationChange(o: VideoOptions, duration: real): (r: VideoOptions)
    ensures r.duration == duration
    ensures r.fps == o.fps && r.bitrate == o.bitrate && r.quality == o.quality
  {
    o.(duration := duration)
  }

  /** The recording formats, most preferred first. */
  const MimeTypes: seq<string> := ["video/webm;codecs=vp9", "video/webm;codecs=vp8", "video/webm"]

  /** The first format from position `from` on that the browser supports, or
      "" when it supports none of them. */
  function FirstSupported(isSupported: string -> bool, from: nat): (m: string)
    ensures m == "" <==> forall i :: from <= i < |MimeTypes| ==> !isSupported(MimeTypes[i])
    ensures m != "" ==>
      exists i :: from <= i < |MimeTypes| && m == MimeTypes[i] && isSupported(MimeTypes[i])
        && forall j :: from <= j < i ==> !isSupported(MimeTypes[j])
    decreases |MimeTypes| - from
  {
    if from >= |MimeTypes| then ""
    else if isSupported(MimeTypes[from]) then MimeTypes[from]
    else FirstSupported(isSupported, from + 1)
  }

  /** The `for` loop with `break` that picks the recording format. */
  method SelectMimeType(isSupported: string -> bool) returns (selected: string)
    ensures selected == FirstSupported(isSupported, 0)
  {
    selected := "";
    for i := 0 to |MimeTypes|
      invariant selected == ""
      invariant FirstSupported(isSupported, i) == FirstSupported(isSupported, 0)
    {
      if isSupported(MimeTypes[i]) {
        selected := MimeTypes[i];
        break;
      }
    }
  }

  /** Progress in percent, `elapsed / duration * 100`; `None` is the
      non-finite value of a division by a zero duration. */
  function ProgressPercent(elapsedMs: int, durationMs: real): (p: Option<real>)
    ensures p.None? <==> durationMs == 0.0
    ensures durationMs > 0.0 && elapsedMs as real >= durationMs ==> p.Some? && p.value >= 100.0
  {
    if durationMs == 0.0 then None else Some((elapsedMs as real) / durationMs * 100.0)
  }

  /** The number of 100 ms ticks after which the recorder is stopped: the first
      tick at which the elapsed time reaches the duration. */
  function TicksUntilStop(durationMs: real): (n: nat)
    ensures n >= 1 && 100.0 * (n as real) >= durationMs
    ensures n == 1 || 100.0 * ((n - 1) as real) < durationMs
  {
    if durationMs <= 100.0 then 1
    else
      -((-durationMs / 100.0).Floor)
  }

  /** For a whole number of seconds d, the recorder stops after exactly 10·d ticks. */
  lemma WholeSecondsTicks(d: nat)
    requires d >= 1
    ensures TicksUntilStop((d as real) * 1000.0) == 10 * d
  {
  }

  /** The recorder as the dialog sees it: none created, recording in a format
      at a bitrate, or stopped. */
  datatype Recorder = NoRecorder | Recording(mimeType: string, bitrate: Option<int>) | StoppedRecorder

  class ExportDialog {
    var options: VideoOptions
    var isExporting: bool
    var progress: Option<real>
    var recorder: Recorder
    var chunks: seq<nat>
    var durationMs: real
    var elapsedMs: int
    var ticking: bool

    /** The ticker runs only while a recorder is recording, and has not yet
        reached the duration; collected chunks are never empty. */
    ghost predicate Valid()
      reads this
    {
      && (ticking ==> recorder.Recording? && isExporting && elapsedMs >= 0 && (elapsedMs == 0 || (elapsedMs as real) < durationMs))
      && (forall i :: 0 <= i < |chunks| ==> chunks[i] > 0)
    }

    constructor ()
      ensures Valid()
      ensures options == DefaultVideoOptions && !isExporting && progress == Some(0.0)
      ensures recorder == NoRecorder && chunks == [] && !ticking
    {
      options := DefaultVideoOptions;
      isExporting := false;
      progress := Some(0.0);
      recorder := NoRecorder;
      chunks := [];
      durationMs := 0.0;
      elapsedMs := 0;
      ticking := false;
    }

    /** Starts an export. Without a canvas nothing happens. When no format is
        supported, or the recorder cannot be created, the export is abandoned
        with `isExporting` false. Otherwise a recorder is created in the chosen
        format and bitrate and the ticker starts from zero. */
    method ExportVideo(hasCanvas: bool, isSupported: string -> bool, recorderFails: bool)
      requires Valid() && !ticking
      modifies this
      ensures Valid()
      ensures !hasCanvas ==> unchanged(this)
      ensures options == old(options)
      ensures hasCanvas ==> progress == Some(0.0)
      ensures hasCanvas && (forall i :: 0 <= i < |MimeTypes| ==> !isSupported(MimeTypes[i])) ==>
        !isExporting && recorder == old(recorder) && !ticking
      ensures hasCanvas && recorderFails ==> !isExporting && recorder == old(recorder) && !ticking
      ensures ticking <==> hasCanvas && !recorderFails && exists i :: 0 <= i < |MimeTypes| && isSupported(MimeTypes[i])
      ensures ticking ==>
        && isExporting && recorder.Recording? && recorder.mimeType == FirstSupported(isSupported, 0)
        && recorder.bitrate == options.bitrate && chunks == [] && elapsedMs == 0
        && durationMs == options.duration * 1000.0
    {
      if !hasCanvas {
        return;
      }
      isExporting := true;
      progress := Some(0.0);
      var mimeType := SelectMimeType(isSupported);
      if mimeType == "" {
        isExporting := false;
        return;
      }
      if recorderFails {
        isExporting := false;
        return;
      }
      recorder := Recording(mimeType, options.bitrate);
      chunks := [];
      durationMs := options.duration * 1000.0;
      elapsedMs := 0;
      ticking := true;
    }

    /** A data chunk from the recorder is kept only when it is non-empty. */
    method OnDataAvailable(size: int)
      requires Valid()
      modifies this
      ensures Valid()
      ensures chunks == if size > 0 then old(chunks) + [size] else old(chunks)
      ensures ticking == old(ticking) && elapsedMs == old(elapsedMs) && recorder == old(recorder)
      ensures options == old(options) && isExporting == old(isExporting)
      ensures progress == old(progress) && durationMs == old(durationMs)
    {
      if size > 0 {
        chunks := chunks + [size];
      }
    }

    /** One 100 ms tick: advances the elapsed time and the progress, and stops
        the ticker and the recorder once the elapsed time reaches the duration. */
    method Tick()
      requires Valid() && ticking
      modifies this
      ensures Valid()
      ensures elapsedMs == old(elapsedMs) + 100
      ensures progress == ProgressPercent(elapsedMs, durationMs)
      ensures ticking <==> (elapsedMs as real) < durationMs
      ensures !ticking ==> recorder == StoppedRecorder
      ensures ticking ==> recorder == old(recorder)
      ensures durationMs == old(durationMs) && chunks == old(chunks) && isExporting == old(isExporting)
      ensures options == old(options)
    {
      elapsedMs := elapsedMs + 100;
      progress := ProgressPercent(elapsedMs, durationMs);
      if (elapsedMs as real) >= durationMs {
        ticking := false;
        recorder := StoppedRecorder;
      }
    }

    /** The recorder's stop handler (after the download): the export is over
        and the progress is reset. */
    method OnStop()
      requires Valid() && !ticking
      modifies this
      ensures Valid()
      ensures !isExporting && progress == Some(0.0)
      ensures chunks == old(chunks) && recorder == old(recorder) && ticking == old(ticking)
      ensures options == old(options) && elapsedMs == old(elapsedMs) && durationMs == old(durationMs)
    {
      isExporting := false;
      progress := Some(0.0);
    }

    /** Runs the ticker from the start of a recording until it stops itself:
        that takes `TicksUntilStop` ticks, and for a positive duration the last
        progress shown is at least 100 percent. */
    method RunTicker() returns (ticks: nat)
      requires Valid() && ticking && elapsedMs == 0
      modifies this
      ensures Valid() && !ticking && recorder == StoppedRecorder
      ensures ticks == TicksUntilStop(old(durationMs)) && elapsedMs == 100 * ticks
      ensures durationMs == old(durationMs) && options == old(options) && isExporting == old(isExporting)
      ensures old(durationMs) > 0.0 ==> progress.Some? && progress.value >= 100.0
      ensures chunks == old(chunks)
    {
      ticks := 0;
      var bound := TicksUntilStop(durationMs);
      while ticking
        invariant Valid() && durationMs == old(durationMs) && chunks == old(chunks)
        invariant options == old(options) && isExporting == old(isExporting)
        invariant elapsedMs == 100 * ticks && ticks <= bound
        invariant ticking ==> ticks < bound
        invariant !ticking ==> ticks == bound && recorder == StoppedRecorder
        invariant !ticking ==> progress == ProgressPercent(elapsedMs, durationMs)
        decreases bound - ticks
      {
        Tick();
        ticks := ticks + 1;
      }
    }
  }

  /** An export with the default options, once a format is supported: the
      ticker runs 100 ticks (10 s) and the last progress shown is at least 100
      percent. */
  method DefaultExportReachesFullProgress(isSupported: string -> bool) returns (ticks: nat, shown: Option<real>)
    requires exists i :: 0 <= i < |MimeTypes| && isSupported(MimeTypes[i])
    ensures ticks == 100
    ensures shown.Some? && shown.value >= 100.0
  {
    var d := new ExportDialog();
    d.ExportVideo(true, isSupported, false);
    WholeSecondsTicks(10);
    ticks := d.RunTicker();
    shown := d.progress;
  }
}
