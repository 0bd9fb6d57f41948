/**
 * The capture state machine and animation loop of public/script.js.
 *
 * The module-level variables `audioContext`, `micSource`, `analyser`,
 * `isRecording` and `waveforms` become the fields of one `Session`. The Web
 * Audio and media APIs are an oracle: `startMic` is told how microphone setup
 * went (`MicSetup`), and every read of the analyser is handed the bytes the
 * analyser currently holds. `Math.random()` draws are parameters as well.
 */
module Visualizer {
  import opened Wrappers
  import opened Waveform
  import opened Http
  import DataUrl

  /** `analyser.fftSize`: the analysis window set by `startMic`. */
  const FftSize: nat := 256

  /** Radius of the first stored ring, and the step between consecutive rings. */
  const BaseRadius: nat := 50
  const RadiusStep: nat := 30

  const MicAlertPrefix := "Microphone permission denied or error: "
  const EmailAlert := "Please enter your email address."

  /** The fixed colours of the live (in-progress) ring. */
  const LiveColor1 := Hsl(200.0, 100, 70)
  const LiveColor2 := Hsl(340.0, 100, 70)

  /** An `AnalyserNode`; it exposes half as many frequency bins as its window size. */
  datatype Analyser = Analyser(fftSize: nat)
  {
    function FrequencyBinCount(): nat
    {
      fftSize / 2
    }
  }

  /** A `MediaStreamAudioSourceNode`: are its stream's tracks live, is it connected to the analyser? */
  datatype MicSource = MicSource(tracksLive: bool, connected: bool)

  /** The steps of microphone setup inside `startMic`'s `try`, in order. */
  datatype SetupStep = GetUserMedia | CreateSource | CreateAnalyser | Connect

  /** How microphone setup went: every step succeeded, or `at` threw with `message`. */
  datatype MicSetup = Granted | Failed(at: SetupStep, message: string)

  /** The radius `stopMic` gives to the ring stored at index `n`. */
  function StoredRadius(n: nat): nat
  {
    BaseRadius + n * RadiusStep
  }

  /**
   * What `getByteFrequencyData` leaves in a fresh `Uint8Array(binCount)`:
   * the analyser's bytes, excess ones dropped, missing ones left at zero.
   */
  function FrequencyData(binCount: nat, reading: seq<byte>): (data: seq<byte>)
    ensures |data| == binCount
  {
    seq(binCount, i requires 0 <= i < binCount => if i < |reading| then reading[i] else 0)
  }

  /** `new Uint8Array(binCount)` filled by `analyser.getByteFrequencyData`. */
  method ReadFrequencyData(binCount: nat, reading: seq<byte>) returns (data: seq<byte>)
    ensures |data| == binCount
    ensures forall i :: 0 <= i < binCount && i < |reading| ==> data[i] == reading[i]
    ensures forall i :: |reading| <= i < binCount ==> data[i] == 0
  {
    var buffer := new byte[binCount];
    var i := 0;
    while i < binCount
      invariant 0 <= i <= binCount
      invariant forall k :: 0 <= k < i ==> buffer[k] == (if k < |reading| then reading[k] else 0)
    {
      buffer[i] := if i < |reading| then reading[i] else 0;
      i := i + 1;
    }
    data := buffer[..];
  }

  /** The ring `stopMic` stores as the `n`-th waveform, with hues drawn from `random1`, `random2`. */
  function StoredWaveform(n: nat, binCount: nat, reading: seq<byte>, random1: real, random2: real): CircularWaveform
  {
    CircularWaveform(FrequencyData(binCount, reading), StoredRadius(n),
      Hsl(random1 * 360.0, 100, 70), Hsl(random2 * 360.0, 100, 40))
  }

  /** The transient ring `animate` draws while recording, with `n` rings stored. */
  function LiveWaveform(n: nat, binCount: nat, reading: seq<byte>): CircularWaveform
  {
    CircularWaveform(FrequencyData(binCount, reading), StoredRadius(n), LiveColor1, LiveColor2)
  }

  /** The calls that draw the stored rings, in array order. */
  function StoredOps(ws: seq<CircularWaveform>): seq<DrawOp>
  {
    if ws == [] then [] else StoredOps(ws[..|ws| - 1]) + ws[|ws| - 1].DrawOps()
  }

  /**
   * How many streams one `startMic` attempt leaves open and unreachable: the
   * new stream when `createMediaStreamSource` throws, or the previous source
   * when it still had live tracks and a new source replaces it.
   */
  function LeakedBy(setup: MicSetup, previous: Option<MicSource>): (n: nat)
    ensures n <= 1
    ensures setup.Failed? && setup.at == GetUserMedia ==> n == 0
    ensures setup.Failed? && setup.at == CreateSource ==> n == 1
    ensures (setup.Granted? || setup.at in {CreateAnalyser, Connect}) ==>
      (n == 1 <==> previous.Some? && previous.value.tracksLive)
  {
    match setup
    case Failed(GetUserMedia, _) => 0
    case Failed(CreateSource, _) => 1
    case _ => if previous.Some? && previous.value.tracksLive then 1 else 0
  }

  class Session {
    const width: int
    const height: int
    var audioContext: bool
    var micSource: Option<MicSource>
    var analyser: Option<Analyser>
    var isRecording: bool
    var waveforms: seq<CircularWaveform>
    /** Microphone streams left with live tracks that no variable refers to any more. */
    ghost var leakedStreams: nat

    /**
     * Recording means a live, connected source and an analyser exist; every
     * analyser has the fixed window; ring `n` has radius `50 + 30n` and one
     * byte per frequency bin.
     */
    ghost predicate Valid()
      reads this
    {
      && (isRecording ==> audioContext && micSource == Some(MicSource(true, true)) && analyser.Some?)
      && (analyser.Some? ==> analyser.value == Analyser(FftSize))
      && (forall n :: 0 <= n < |waveforms| ==>
            waveforms[n].radius == StoredRadius(n) && |waveforms[n].dataArray| == FftSize / 2)
    }

    /** Page load: idle, nothing captured. */
    constructor (width: int, height: int)
      ensures Valid()
      ensures this.width == width && this.height == height
      ensures !audioContext && micSource.None? && analyser.None?
      ensures !isRecording && waveforms == []
      ensures leakedStreams == 0
    {
      this.width := width;
      this.height := height;
      audioContext := false;
      micSource := None;
      analyser := None;
      isRecording := false;
      waveforms := [];
      leakedStreams := 0;
    }

    /**
     * `startMic`. A no-op while recording. Otherwise creates the audio context
     * if needed and runs setup; only when every step succeeds does the session
     * start recording. A failing step raises the alert it returns, and keeps
     * what the steps before it had already assigned. A stream is leaked when
     * `createMediaStreamSource` throws, or when a new source overwrites one
     * whose tracks are still live.
     */
    method StartMic(setup: MicSetup) returns (alert: Option<string>)
      requires Valid()
      modifies this
      ensures Valid()
      ensures old(isRecording) ==> alert.None? && unchanged(this)
      ensures !old(isRecording) ==> audioContext && waveforms == old(waveforms)
      ensures !old(isRecording) ==> (isRecording <==> setup.Granted?)
      ensures !old(isRecording) && setup.Granted? ==>
        && alert.None?
        && micSource == Some(MicSource(true, true))
        && analyser == Some(Analyser(FftSize))
      ensures !old(isRecording) && setup.Failed? ==>
        && alert == Some(MicAlertPrefix + setup.message)
        && micSource == (if setup.at in {CreateAnalyser, Connect} then Some(MicSource(true, false)) else old(micSource))
        && analyser == (if setup.at == Connect then Some(Analyser(FftSize)) else old(analyser))
      ensures !old(isRecording) ==> leakedStreams == old(leakedStreams) + LeakedBy(setup, old(micSource))
    {
      if isRecording {
        return None;
      }
      if !audioContext {
        audioContext := true;
      }
      alert := None;
      leakedStreams := leakedStreams + LeakedBy(setup, micSource);
      match setup {
        case Granted =>
          micSource := Some(MicSource(true, false));
          analyser := Some(Analyser(FftSize));
          micSource := Some(MicSource(true, true));
          isRecording := true;
        case Failed(at, message) =>
          if at == CreateAnalyser || at == Connect {
            micSource := Some(MicSource(true, false));
          }
          if at == Connect {
            analyser := Some(Analyser(FftSize));
          }
          alert := Some(MicAlertPrefix + message);
      }
    }

    /**
     * `stopMic`. A no-op unless recording. Otherwise snapshots the analyser,
     * appends exactly one ring at radius `50 + 30 * waveforms.length`, stops
     * the tracks, disconnects the source and stops recording.
     */
    method StopMic(reading: seq<byte>, random1: real, random2: real)
      requires Valid()
      requires 0.0 <= random1 < 1.0 && 0.0 <= random2 < 1.0
      modifies this
      ensures Valid()
      ensures !old(isRecording) ==> unchanged(this)
      ensures old(isRecording) ==>
        && !isRecording
        && waveforms == old(waveforms) + [StoredWaveform(|old(waveforms)|, FftSize / 2, reading, random1, random2)]
        && micSource == Some(MicSource(false, false))
        && analyser == old(analyser)
        && audioContext == old(audioContext)
        && leakedStreams == old(leakedStreams)
    {
      if !isRecording {
        return;
      }
      var dataArray := ReadFrequencyData(analyser.value.FrequencyBinCount(), reading);
      assert dataArray == FrequencyData(FftSize / 2, reading);
      var radius := BaseRadius + |waveforms| * RadiusStep;
      var color1 := Hsl(random1 * 360.0, 100, 70);
      var color2 := Hsl(random2 * 360.0, 100, 40);
      waveforms := waveforms + [CircularWaveform(dataArray, radius, color1, color2)];
      micSource := Some(micSource.value.(tracksLive := false));
      micSource := Some(micSource.value.(connected := false));
      isRecording := false;
    }

    /** The live ring of this frame, if `isRecording && analyser`. */
    function LiveOps(liveReading: seq<byte>): seq<DrawOp>
      reads this
    {
      if isRecording && analyser.Some? then
        LiveWaveform(|waveforms|, analyser.value.FrequencyBinCount(), liveReading).DrawOps()
      else
        []
    }

    /** One frame: clear, then the live ring, then every stored ring in order. */
    function FrameOps(liveReading: seq<byte>): seq<DrawOp>
      reads this
    {
      [FillRect(Background, width, height)] + LiveOps(liveReading) + StoredOps(waveforms)
    }

    /** One invocation of `animate` (its rescheduling left to the platform). */
    method Animate(ctx: Canvas, liveReading: seq<byte>)
      requires Valid()
      modifies ctx
      ensures ctx.ops == old(ctx.ops) + FrameOps(liveReading)
    {
      ctx.Apply(FillRect(Background, width, height));
      DrawLive(ctx, liveReading);
      DrawStored(ctx);
      AppendAssoc(old(ctx.ops), [FillRect(Background, width, height)], LiveOps(liveReading), StoredOps(waveforms));
    }

    /** The live ring, drawn only when `isRecording && analyser`. */
    method DrawLive(ctx: Canvas, liveReading: seq<byte>)
      modifies ctx
      ensures ctx.ops == old(ctx.ops) + LiveOps(liveReading)
    {
      if isRecording && analyser.Some? {
        var liveData := ReadFrequencyData(analyser.value.FrequencyBinCount(), liveReading);
        assert liveData == FrequencyData(analyser.value.FrequencyBinCount(), liveReading);
        var liveRadius := BaseRadius + |waveforms| * RadiusStep;
        var live := CircularWaveform(liveData, liveRadius, LiveColor1, LiveColor2);
        live.Draw(ctx);
      }
    }

    /** `for (let wf of waveforms) wf.draw()`. */
    method DrawStored(ctx: Canvas)
      modifies ctx
      ensures ctx.ops == old(ctx.ops) + StoredOps(waveforms)
    {
      for k := 0 to |waveforms|
        invariant ctx.ops == old(ctx.ops) + StoredOps(waveforms[..k])
      {
        assert waveforms[..k + 1][..k] == waveforms[..k];
        waveforms[k].Draw(ctx);
      }
      assert waveforms[..|waveforms|] == waveforms;
    }
  }

  /**
   * A setup that fails at `connect`, a successful retry and a stop: the stop
   * ends recording and stores a ring, yet the first attempt's source, still
   * live, was overwritten by the retry and stays open.
   */
  method LeakAfterFailedConnect(width: int, height: int, message: string, reading: seq<byte>) returns (s: Session)
    ensures s.Valid() && !s.isRecording && |s.waveforms| == 1
    ensures s.micSource == Some(MicSource(false, false))
    ensures s.leakedStreams == 1
  {
    s := new Session(width, height);
    var failed := s.StartMic(Failed(Connect, message));
    assert s.micSource == Some(MicSource(true, false));
    var started := s.StartMic(Granted);
    s.StopMic(reading, 0.0, 0.0);
  }

  /** Stored rings nest outward: each ring is exactly 30 units outside the one before. */
  lemma ConsecutiveRadii(s: Session, n: nat)
    requires s.Valid() && n + 1 < |s.waveforms|
    ensures s.waveforms[n + 1].radius == s.waveforms[n].radius + RadiusStep
  {
  }

  /**
   * The live ring sits where the next stop stores its snapshot: same radius,
   * and the same bytes when the analyser has not moved on in between.
   */
  lemma LiveRingBecomesStored(n: nat, reading: seq<byte>, random1: real, random2: real)
    ensures LiveWaveform(n, FftSize / 2, reading).radius == StoredWaveform(n, FftSize / 2, reading, random1, random2).radius
    ensures LiveWaveform(n, FftSize / 2, reading).dataArray == StoredWaveform(n, FftSize / 2, reading, random1, random2).dataArray
  {
  }

  /**
   * The 30-unit step is smaller than the 100-unit amplitude range, so
   * neighbouring rings can cross: a full-scale bin of ring `n` lies outside
   * the same bin of a silent ring `n + 1`.
   */
  lemma RingsCanCross(n: nat, bins: nat, random1: real, random2: real)
    requires bins > 0
    ensures var loud := StoredWaveform(n, bins, seq(bins, _ => 255 as byte), random1, random2);
      var quiet := StoredWaveform(n + 1, bins, [], random1, random2);
      loud.VertexAt(0).distance > quiet.VertexAt(0).distance
  {
    var loud := StoredWaveform(n, bins, seq(bins, _ => 255 as byte), random1, random2);
    var quiet := StoredWaveform(n + 1, bins, [], random1, random2);
    assert loud.dataArray[0] == 255;
    assert quiet.dataArray[0] == 0;
  }

  /** Drawing stored rings one list after another is drawing the joined list. */
  lemma {:induction false} StoredOpsAppend(a: seq<CircularWaveform>, b: seq<CircularWaveform>)
    ensures StoredOps(a + b) == StoredOps(a) + StoredOps(b)
    decreases |b|
  {
    if b != [] {
      var b' := b[..|b| - 1];
      assert (a + b)[..|a + b| - 1] == a + b';
      StoredOpsAppend(a, b');
    } else {
      assert a + b == a;
    }
  }

  /** Ring `k` is drawn after every earlier ring and before every later one. */
  lemma StoredOrder(ws: seq<CircularWaveform>, k: nat)
    requires k < |ws|
    ensures StoredOps(ws) == StoredOps(ws[..k]) + ws[k].DrawOps() + StoredOps(ws[k + 1..])
  {
    PickOut(ws, k);
    StoredOpsAppend(ws[..k] + [ws[k]], ws[k + 1..]);
    StoredOpsAppend(ws[..k], [ws[k]]);
    assert StoredOps([ws[k]]) == ws[k].DrawOps();
  }

  lemma AppendAssoc<T>(a: seq<T>, b: seq<T>, c: seq<T>, d: seq<T>)
    ensures a + b + c + d == a + (b + c + d)
  {
  }

  lemma MulSucc(a: nat, b: nat)
    ensures (a + 1) * b == a * b + b
  {
  }

  lemma PickOut<T>(s: seq<T>, k: nat)
    requires k < |s|
    ensures s == s[..k] + [s[k]] + s[k + 1..]
  {
  }

  /** With every snapshot `bins` long, the calls for ring `k` start at `k * (bins + 3)`. */
  lemma {:induction false} StoredOpsLength(ws: seq<CircularWaveform>, bins: nat)
    requires forall n :: 0 <= n < |ws| ==> |ws[n].dataArray| == bins
    ensures |StoredOps(ws)| == |ws| * (bins + 3)
    ensures forall k :: 0 <= k <= |ws| ==> |StoredOps(ws[..k])| == k * (bins + 3)
  {
    if ws != [] {
      var init, last := ws[..|ws| - 1], ws[|ws| - 1];
      StoredOpsLength(init, bins);
      DrawShape(last);
      assert |StoredOps(ws)| == |StoredOps(init)| + |last.DrawOps()|;
      MulSucc(|init|, bins + 3);
      forall k | 0 <= k <= |ws|
        ensures |StoredOps(ws[..k])| == k * (bins + 3)
      {
        if k < |ws| {
          assert ws[..k] == init[..k];
        } else {
          assert ws[..k] == ws;
        }
      }
    }
  }

  /** What a click on the save or send button leads to. */
  datatype ClientAction =
    | Alert(message: string)
    | Post(route: string, body: RequestBody)

  const SaveRoute := "/api/save-waveform"
  const SendRoute := "/api/send-waveform"

  /**
   * `canvas.toDataURL('image/png')` for a canvas of `width` by `height`
   * pixels whose PNG has the base64 text `png`. The HTML standard makes a
   * canvas with no pixels return the bare `"data:,"`.
   */
  function CanvasDataUrl(width: nat, height: nat, png: string): string
  {
    if width == 0 || height == 0 then "data:," else DataUrl.Base64DataUrl("image/png", png)
  }

  /**
   * The canvas export always yields a non-empty, hence truthy, string, and
   * it carries a `base64,` attachment exactly when the canvas has pixels;
   * for a base64 PNG that attachment is the PNG's text.
   */
  lemma CanvasAttachment(width: nat, height: nat, png: string)
    ensures CanvasDataUrl(width, height, png) != ""
    ensures DataUrl.Attachment(CanvasDataUrl(width, height, png)).None? <==> width == 0 || height == 0
    ensures width > 0 && height > 0 && (forall k :: 0 <= k < |png| ==> DataUrl.IsBase64Char(png[k])) ==>
      DataUrl.Attachment(CanvasDataUrl(width, height, png)) == Some(png)
  {
    if width == 0 || height == 0 {
      EmptyCanvasNoAttachment();
    } else {
      PngCanvasHasAttachment(png);
      if forall k :: 0 <= k < |png| ==> DataUrl.IsBase64Char(png[k]) {
        DataUrl.AttachmentOfDataUrl("image/png", png);
      }
    }
  }

  /** `"data:,"` is shorter than the marker, so the split has one piece. */
  lemma EmptyCanvasNoAttachment()
    ensures DataUrl.Attachment("data:,") == None
  {
    assert DataUrl.IndexOf("data:,", DataUrl.Marker, 0) == None;
  }

  /** A PNG data URL holds the marker right after its media type. */
  lemma PngCanvasHasAttachment(png: string)
    ensures DataUrl.Attachment(DataUrl.Base64DataUrl("image/png", png)).Some?
  {
    var u := DataUrl.Base64DataUrl("image/png", png);
    var p := |"data:image/png;"|;
    assert DataUrl.OccursAt(u, DataUrl.Marker, p) by {
      assert u[p..p + |DataUrl.Marker|] == DataUrl.Marker;
    }
  }

  /** `saveWaveform`: posts whatever the email field holds, empty or not. */
  function SaveWaveform(email: string, width: nat, height: nat, png: string): (a: ClientAction)
    ensures a.Post? && a.route == SaveRoute
    ensures a.body.email == Text(email)
    ensures Truthy(a.body.imageData) && a.body.imageData.s == CanvasDataUrl(width, height, png)
  {
    Post(SaveRoute, RequestBody(Text(email), Text(CanvasDataUrl(width, height, png))))
  }

  /** `sendWaveformToEmail`: an empty email alerts and makes no request. */
  function SendWaveformToEmail(email: string, width: nat, height: nat, png: string): (a: ClientAction)
    ensures a.Alert? <==> email == ""
    ensures a.Alert? ==> a.message == EmailAlert
    ensures a.Post? ==> a.route == SendRoute && Truthy(a.body.email) && a.body.email.s == email
    ensures a.Post? ==> Truthy(a.body.imageData) && a.body.imageData.s == CanvasDataUrl(width, height, png)
  {
    if email == "" then Alert(EmailAlert)
    else Post(SendRoute, RequestBody(Text(email), Text(CanvasDataUrl(width, height, png))))
  }
}
