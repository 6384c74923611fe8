/** ui/waveform_widget.py without its painting: the downsampled display
    data, the clamped playback cursor, the trim markers and their dragging,
    and the mapping between widget x coordinates and seconds. Times are
    exact reals; torchaudio and the averaging of channels to mono are
    inputs, and the widget's width is passed to the handlers that read it. */
module Waveform {
  import opened Common

  function RMin(a: real, b: real): real
  {
    if a <= b then a else b
  }

  function RMax(a: real, b: real): real
  {
    if a >= b then a else b
  }

  function Abs(a: real): real
  {
    if a >= 0.0 then a else -a
  }

  // ----- The display data -----

  /** The downsampling factor for `frames` frames: `max(1, frames // 4000)`. */
  function Stride(frames: nat): (k: nat)
    ensures k >= 1
  {
    if frames / 4000 >= 1 then frames / 4000 else 1
  }

  /** `samples[::k]`: every `k`-th sample, starting with the first. */
  function Downsample(samples: seq<real>, k: nat): (r: seq<real>)
    requires k >= 1
    ensures |r| == (|samples| + k - 1) / k
    ensures forall i :: 0 <= i < |r| ==> i * k < |samples| && r[i] == samples[i * k]
  {
    var n := (|samples| + k - 1) / k;
    assert forall i :: 0 <= i < n ==> i * k < |samples| by {
      forall i | 0 <= i < n ensures i * k < |samples| {
        StepInRange(|samples|, k, i);
      }
    }
    seq(n, i requires 0 <= i < n => samples[i * k])
  }

  /** Index `i * k` is in range for every `i` below the number of steps. */
  lemma StepInRange(len: nat, k: nat, i: nat)
    requires k >= 1 && i < (len + k - 1) / k
    ensures i * k < len
  {
    var n := (len + k - 1) / k;
    assert n * k <= len + k - 1;
    assert (i + 1) * k <= n * k by {
      MulMonotone(i + 1, n, k);
    }
  }

  lemma MulMonotone(a: nat, b: nat, k: nat)
    requires a <= b
    ensures a * k <= b * k
  {
  }

  /** However long the file, the display holds fewer than 8000 points. */
  lemma DisplayIsBounded(samples: seq<real>)
    ensures |Downsample(samples, Stride(|samples|))| < 8000
  {
    var n, k := |samples|, Stride(|samples|);
    var c := (n + k - 1) / k;
    if n >= 8000 {
      assert k == n / 4000 && k >= 2;
      assert n < 4000 * k + 4000;
      assert c * k <= n + k - 1;
      if c >= 8000 {
        MulMonotone(8000, c, k);
        assert false;
      }
    }
  }

  // ----- Coordinates -----

  /** `x_to_time`: the plot spans the width less 40 pixels on each side. */
  function XToTime(x: real, width: int, duration: real): real
    requires width != 80
  {
    (x - 40.0) / (width as real - 80.0) * duration
  }

  /** `time_to_x`. */
  function TimeToX(t: real, width: int, duration: real): real
    requires duration != 0.0
  {
    40.0 + t / duration * (width as real - 80.0)
  }

  /** Mapping an x coordinate to a time and back gives the coordinate. */
  lemma XTimeRoundTrip(x: real, width: int, duration: real)
    requires width != 80 && duration != 0.0
    ensures TimeToX(XToTime(x, width, duration), width, duration) == x
  {
    var w := width as real - 80.0;
    var t := (x - 40.0) / w * duration;
    assert t / duration == (x - 40.0) / w;
    assert (x - 40.0) / w * w == x - 40.0;
  }

  /** Mapping a time to an x coordinate and back gives the time. */
  lemma TimeXRoundTrip(t: real, width: int, duration: real)
    requires width != 80 && duration != 0.0
    ensures XToTime(TimeToX(t, width, duration), width, duration) == t
  {
    var w := width as real - 80.0;
    var q := t / duration;
    var x := 40.0 + q * w;
    assert x - 40.0 == q * w;
    assert (q * w) / w == q;
    assert q * duration == t;
  }

  // ----- Markers -----

  /** `dragging_marker`. */
  datatype Marker = NoMarker | StartMarker | EndMarker

  /** The minimal gap kept between the markers while dragging, in seconds. */
  const MinGap: real := 0.1
  /** How close to a marker a click grabs it, in seconds. */
  const GrabDistance: real := 0.5

  /** Where dragging the start marker to `t` puts it. */
  function DragStart(t: real, trimEnd: real): (r: real)
    ensures 0.0 <= r && (r <= trimEnd - MinGap || r == 0.0)
  {
    RMax(0.0, RMin(t, trimEnd - MinGap))
  }

  /** Where dragging the end marker to `t` puts it. */
  function DragEnd(t: real, trimStart: real, duration: real): (r: real)
    ensures r <= duration && (r >= trimStart + MinGap || r == duration)
  {
    RMin(duration, RMax(t, trimStart + MinGap))
  }

  /** Markers within the file, at least `MinGap` apart when the file is
      that long; a shorter file keeps them at its two ends. */
  predicate TrimsOk(trimStart: real, trimEnd: real, duration: real)
  {
    0.0 <= trimStart && trimEnd <= duration &&
    if duration >= MinGap then trimStart + MinGap <= trimEnd else trimStart == 0.0 && trimEnd == duration
  }

  /** Dragging either marker anywhere keeps the markers in order, within
      the file and apart. */
  lemma DragKeepsTrims(t: real, trimStart: real, trimEnd: real, duration: real)
    requires TrimsOk(trimStart, trimEnd, duration)
    ensures TrimsOk(DragStart(t, trimEnd), trimEnd, duration)
    ensures TrimsOk(trimStart, DragEnd(t, trimStart, duration), duration)
  {
  }

  /** Dragging the start marker follows the pointer as far as it may: to
      `t` itself when that keeps the gap and stays in the file. */
  lemma DragStartFollows(t: real, trimEnd: real)
    ensures 0.0 <= t <= trimEnd - MinGap ==> DragStart(t, trimEnd) == t
    ensures t > trimEnd - MinGap && trimEnd - MinGap >= 0.0 ==> DragStart(t, trimEnd) == trimEnd - MinGap
    ensures t < 0.0 ==> DragStart(t, trimEnd) == 0.0
  {
  }

  /** What `torchaudio.load` returns once averaged to one channel. */
  datatype Decoded = Decoded(mono: seq<real>, rate: int)

  class WaveformWidget {
    var waveformData: Option<seq<real>>
    var sampleRate: int
    var duration: real
    var playbackPosition: real
    var trimStart: Option<real>
    var trimEnd: Option<real>
    var dragging: Marker

    /** The markers exist exactly when audio is loaded and lie as
        `TrimsOk` says; a marker is dragged only over loaded audio. */
    predicate Valid()
      reads this
    {
      && duration >= 0.0
      && (waveformData.Some? <==> trimStart.Some?)
      && (trimStart.Some? <==> trimEnd.Some?)
      && (dragging != NoMarker ==> waveformData.Some?)
      && (trimStart.Some? ==> TrimsOk(trimStart.value, trimEnd.value, duration))
    }

    constructor()
      ensures Valid()
      ensures waveformData.None? && sampleRate == 44100 && duration == 0.0 && playbackPosition == 0.0
      ensures dragging == NoMarker
    {
      waveformData := None;
      sampleRate := 44100;
      duration := 0.0;
      playbackPosition := 0.0;
      trimStart := None;
      trimEnd := None;
      dragging := NoMarker;
    }

    /** `load_audio`: on success the duration is frames / rate, the
        display holds every `Stride`-th sample and the markers span the
        whole file. A failed load changes nothing, except that a zero rate
        is stored before the division by it fails. */
    method LoadAudio(load: Result<Decoded>) returns (ok: bool)
      requires Valid()
      requires load.Ok? ==> load.value.rate >= 0
      modifies this
      ensures Valid()
      ensures ok <==> load.Ok? && load.value.rate > 0
      ensures playbackPosition == old(playbackPosition) && dragging == old(dragging)
      ensures ok ==> var d := load.value;
        && sampleRate == d.rate
        && duration == |d.mono| as real / d.rate as real
        && waveformData == Some(Downsample(d.mono, Stride(|d.mono|)))
        && trimStart == Some(0.0) && trimEnd == Some(duration)
      ensures !ok ==> (waveformData == old(waveformData) && duration == old(duration)
        && trimStart == old(trimStart) && trimEnd == old(trimEnd)
        && sampleRate == (if load.Ok? then load.value.rate else old(sampleRate)))
    {
      if load.Err? {
        return false;
      }
      var d := load.value;
      sampleRate := d.rate;
      if d.rate == 0 {
        return false;
      }
      duration := |d.mono| as real / d.rate as real;
      var k := Stride(|d.mono|);
      waveformData := Some(Downsample(d.mono, k));
      trimStart := Some(0.0);
      trimEnd := Some(duration);
      ok := true;
    }

    /** `set_playback_position`: the cursor is clamped into the file. */
    method SetPlaybackPosition(seconds: real)
      requires Valid()
      modifies this
      ensures Valid()
      ensures playbackPosition == RMax(0.0, RMin(duration, seconds))
      ensures 0.0 <= playbackPosition <= duration
      ensures 0.0 <= seconds <= duration ==> playbackPosition == seconds
      ensures waveformData == old(waveformData) && duration == old(duration) && trimStart == old(trimStart)
        && trimEnd == old(trimEnd) && dragging == old(dragging) && sampleRate == old(sampleRate)
    {
      playbackPosition := RMax(0.0, RMin(duration, seconds));
    }

    /** `mousePressEvent` at `x`: a click near the start marker grabs it,
        else one near the end marker grabs that, else the clicked time is
        asked for as a seek. Nothing happens without audio. */
    method MousePress(x: real, width: int) returns (seek: Option<real>)
      requires Valid()
      requires waveformData.Some? ==> width != 80
      modifies this
      ensures Valid()
      ensures waveformData == old(waveformData) && duration == old(duration) && trimStart == old(trimStart)
        && trimEnd == old(trimEnd) && playbackPosition == old(playbackPosition) && sampleRate == old(sampleRate)
      ensures waveformData.None? ==> seek.None? && dragging == old(dragging)
      ensures waveformData.Some? ==> var t := XToTime(x, width, duration);
        if Abs(t - trimStart.value) < GrabDistance then dragging == StartMarker && seek.None?
        else if Abs(t - trimEnd.value) < GrabDistance then dragging == EndMarker && seek.None?
        else dragging == old(dragging) && seek == Some(t)
    {
      if waveformData.None? {
        return None;
      }
      var t := XToTime(x, width, duration);
      seek := None;
      if Abs(t - trimStart.value) < GrabDistance {
        dragging := StartMarker;
      } else if Abs(t - trimEnd.value) < GrabDistance {
        dragging := EndMarker;
      } else {
        seek := Some(t);
      }
    }

    /** `mouseMoveEvent` at `x`: the grabbed marker follows the pointer,
        clamped by `DragStart` or `DragEnd`; nothing moves otherwise. */
    method MouseMove(x: real, width: int)
      requires Valid()
      requires dragging != NoMarker ==> width != 80
      modifies this
      ensures Valid()
      ensures waveformData == old(waveformData) && duration == old(duration) && dragging == old(dragging)
        && playbackPosition == old(playbackPosition) && sampleRate == old(sampleRate)
      ensures dragging == NoMarker ==> trimStart == old(trimStart) && trimEnd == old(trimEnd)
      ensures dragging == StartMarker ==>
        trimStart == Some(DragStart(XToTime(x, width, duration), trimEnd.value)) && trimEnd == old(trimEnd)
      ensures dragging == EndMarker ==>
        trimEnd == Some(DragEnd(XToTime(x, width, duration), trimStart.value, duration)) && trimStart == old(trimStart)
    {
      if dragging != NoMarker {
        var t := XToTime(x, width, duration);
        DragKeepsTrims(t, trimStart.value, trimEnd.value, duration);
        if dragging == StartMarker {
          trimStart := Some(DragStart(t, trimEnd.value));
        } else {
          trimEnd := Some(DragEnd(t, trimStart.value, duration));
        }
      }
    }

    /** `mouseReleaseEvent`: lets go of the marker. */
    method MouseRelease()
      requires Valid()
      modifies this
      ensures Valid()
      ensures dragging == NoMarker
      ensures waveformData == old(waveformData) && duration == old(duration) && trimStart == old(trimStart)
        && trimEnd == old(trimEnd) && playbackPosition == old(playbackPosition) && sampleRate == old(sampleRate)
    {
      dragging := NoMarker;
    }
  }
}
