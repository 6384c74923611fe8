/** The playback cursor engine (`AudioPlayer` in audio/player.py): a frame
    cursor over a loaded frames x channels buffer, the per-block output
    callback, and the play / pause / stop / seek state machine. The output
    device, its stream and the driver that calls back are inputs. */
module Player {
  import opened Common

  /** `self.stream`: no stream, or an output stream that is active (running)
      or not, opened with `channels` channels. */
  datatype Stream = NoStream | OutputStream(active: bool, channels: nat)

  /** How opening the output stream in `play` ends: querying the device or
      constructing the stream raises, `start()` raises, or it starts. */
  datatype OpenOutcome = OpenFailed | StartFailed | Started

  /** What one callback produces: the output block, the cursor afterwards and
      whether it asks the driver to stop (`CallbackStop`). */
  datatype Block = Block(frames: seq<Frame>, next: nat, stop: bool)

  /** The block the callback emits for a cursor at `pos` when the driver asks
      for `frames` frames of `data`. */
  function PlayBlock(data: seq<Frame>, width: nat, pos: nat, frames: nat): (b: Block)
    requires HasWidth(data, width)
    ensures |b.frames| == frames && HasWidth(b.frames, width)
    ensures forall i :: 0 <= i < frames ==>
              b.frames[i] == if pos + i < |data| then data[pos + i] else ZeroFrame(width)
    ensures b.stop <==> pos >= |data|
    ensures b.next == if pos >= |data| then pos else Min(pos + frames, |data|)
  {
    if pos >= |data| then
      Block(Silence(frames, width), pos, true)
    else
      var end := Min(pos + frames, |data|);
      Block(data[pos..end] + Silence(frames - (end - pos), width), end, false)
  }

  /** The concatenated output of `n` consecutive callbacks starting at `pos`. */
  function Playback(data: seq<Frame>, width: nat, pos: nat, frames: nat, n: nat): seq<Frame>
    requires HasWidth(data, width) && pos <= |data|
    decreases n
  {
    if n == 0 then []
    else
      var b := PlayBlock(data, width, pos, frames);
      b.frames + Playback(data, width, b.next, frames, n - 1)
  }

  /** The first `m` frames of `s` followed by silence. */
  function Padded(s: seq<Frame>, width: nat, m: nat): seq<Frame>
  {
    seq(m, i requires 0 <= i < m => if i < |s| then s[i] else ZeroFrame(width))
  }

  /** Consecutive callbacks stream the buffer from the cursor in order, with
      no frame skipped or repeated, and silence once it is exhausted. */
  lemma {:induction false} PlaybackIsPaddedData(data: seq<Frame>, width: nat, pos: nat, frames: nat, n: nat)
    requires HasWidth(data, width) && pos <= |data|
    ensures Playback(data, width, pos, frames, n) == Padded(data[pos..], width, n * frames)
    decreases n
  {
    if n > 0 {
      var b := PlayBlock(data, width, pos, frames);
      PlaybackIsPaddedData(data, width, b.next, frames, n - 1);
      var rest := Padded(data[b.next..], width, (n - 1) * frames);
      var whole := Padded(data[pos..], width, n * frames);
      assert n * frames == frames + (n - 1) * frames;
      forall i | 0 <= i < n * frames
        ensures (b.frames + rest)[i] == whole[i]
      {
        if i >= frames {
          assert (b.frames + rest)[i] == rest[i - frames];
        }
      }
      assert b.frames + rest == whole;
    }
  }

  /** Where `seek` puts the cursor for a requested frame `int(seconds * sr)`. */
  function SeekTarget(frame: int, len: nat): (p: nat)
    ensures p <= len
    ensures 0 <= frame <= len ==> p == frame
    ensures frame < 0 ==> p == 0
    ensures frame > len ==> p == len
  {
    Max(0, Min(frame, len))
  }

  class AudioPlayer {
    /** `self.data is not None` */
    var loaded: bool
    var data: seq<Frame>
    var channels: nat
    var samplerate: int
    var position: nat
    var isPlaying: bool
    var stream: Stream

    /** The cursor stays inside the loaded buffer; with nothing loaded
        nothing plays and the cursor is at 0. */
    ghost predicate Valid()
      reads this
    {
      && samplerate > 0
      && (loaded ==> channels >= 1 && HasWidth(data, channels) && position <= |data|)
      && (!loaded ==> position == 0 && !isPlaying && stream == NoStream)
    }

    constructor()
      ensures Valid()
      ensures !loaded && samplerate == 44100 && position == 0 && !isPlaying && stream == NoStream
    {
      loaded, data, channels := false, [], 0;
      samplerate, position := 44100, 0;
      isPlaying, stream := false, NoStream;
    }

    /** `load`: the decoded file becomes a frames x channels buffer and the
        cursor returns to 0; an open stream is left as it is. */
    method Load(file: SoundFile)
      requires Valid() && file.Valid()
      modifies this
      ensures Valid()
      ensures loaded && data == file.AsColumns() && channels == file.Channels()
      ensures samplerate == file.rate && position == 0
      ensures isPlaying == old(isPlaying) && stream == old(stream)
    {
      data := file.AsColumns();
      channels := file.Channels();
      samplerate := file.rate;
      loaded := true;
      position := 0;
    }

    /** `_callback`: fills the driver's `outdata` (one row per frame) and
        advances the cursor; once the buffer is exhausted it emits silence,
        asks the driver to stop and leaves the cursor where it is. */
    method Callback(outdata: array<Frame>) returns (stop: bool)
      requires Valid() && loaded
      modifies this`position, outdata
      ensures Valid()
      ensures var b := PlayBlock(data, channels, old(position), outdata.Length);
              outdata[..] == b.frames && position == b.next && stop == b.stop
    {
      var frames := outdata.Length;
      if position >= |data| {
        forall i | 0 <= i < frames {
          outdata[i] := ZeroFrame(channels);
        }
        stop := true;
      } else {
        var end := Min(position + frames, |data|);
        var chunk := data[position..end];
        if |chunk| < frames {
          chunk := chunk + Silence(frames - |chunk|, channels);
        }
        forall i | 0 <= i < frames {
          outdata[i] := chunk[i];
        }
        position := end;
        stop := false;
      }
      ghost var b := PlayBlock(data, channels, old(position), frames);
      assert outdata[..] == b.frames;
    }

    /** `play`: nothing without data; otherwise stop first (so playback
        restarts at frame 0), then open a stream with
        `min(buffer channels, device channels)` channels and start it. */
    method Play(maxOutputChannels: nat, outcome: OpenOutcome)
      requires Valid()
      requires loaded ==> channels <= maxOutputChannels
      modifies this
      ensures Valid()
      ensures !old(loaded) ==> unchanged(this)
      ensures old(loaded) ==> loaded && data == old(data) && channels == old(channels)
      ensures old(loaded) ==> samplerate == old(samplerate) && position == 0
      ensures old(loaded) ==> match outcome
                case OpenFailed => stream == NoStream && !isPlaying
                case StartFailed => stream == OutputStream(false, channels) && !isPlaying
                case Started => stream == OutputStream(true, channels) && isPlaying
    {
      if !loaded {
        return;
      }
      Stop();
      var streamChannels := Min(channels, maxOutputChannels);
      match outcome {
        case OpenFailed =>
          isPlaying := false;
        case StartFailed =>
          stream := OutputStream(false, streamChannels);
          isPlaying := false;
        case Started =>
          stream := OutputStream(true, streamChannels);
          isPlaying := true;
      }
    }

    /** `_on_finished`, run when the stream becomes inactive: the driver
        marks the stream inactive, and the hook clears the playing flag and
        rewinds the cursor. */
    method OnFinished()
      requires Valid()
      modifies this`isPlaying, this`position, this`stream
      ensures Valid()
      ensures !isPlaying && position == 0
      ensures stream == match old(stream)
                case NoStream => NoStream
                case OutputStream(_, ch) => OutputStream(false, ch)
    {
      if stream.OutputStream? {
        stream := OutputStream(false, stream.channels);
      }
      isPlaying := false;
      position := 0;
    }

    /** `pause`: acts only on an active stream, which it stops; the cursor
        is kept. */
    method Pause()
      requires Valid()
      modifies this`isPlaying, this`stream
      ensures Valid()
      ensures old(stream).OutputStream? && old(stream).active ==>
                stream == OutputStream(false, old(stream).channels) && !isPlaying
      ensures !(old(stream).OutputStream? && old(stream).active) ==>
                stream == old(stream) && isPlaying == old(isPlaying)
    {
      if stream.OutputStream? && stream.active {
        stream := OutputStream(false, stream.channels);
        isPlaying := false;
      }
    }

    /** `stop`: closes any stream (errors while closing are ignored), clears
        the playing flag and rewinds; a second call finds the same state. */
    method Stop()
      requires Valid()
      modifies this`stream, this`isPlaying, this`position
      ensures Valid()
      ensures stream == NoStream && !isPlaying && position == 0
    {
      if stream.OutputStream? {
        stream := NoStream;
      }
      isPlaying := false;
      position := 0;
    }

    /** `seek` with the requested frame `int(seconds * samplerate)`: a no-op
        without data, otherwise the frame clamped to `[0, len(data)]`. */
    method Seek(frame: int)
      requires Valid()
      modifies this`position
      ensures Valid()
      ensures !loaded ==> position == old(position)
      ensures loaded ==> position == SeekTarget(frame, |data|)
    {
      if !loaded {
        return;
      }
      position := Max(0, Min(frame, |data|));
    }

    /** `get_duration`: the buffer length in seconds, 0 without data. */
    function Duration(): (d: real)
      reads this
      requires Valid()
      ensures d >= 0.0
      ensures loaded ==> d * samplerate as real == |data| as real
      ensures !loaded ==> d == 0.0
    {
      if loaded then |data| as real / samplerate as real else 0.0
    }

    /** `get_position`: the cursor in seconds, 0 without data; it never
        exceeds the duration. */
    function Position(): (t: real)
      reads this
      requires Valid()
      ensures loaded ==> t * samplerate as real == position as real
      ensures !loaded ==> t == 0.0
      ensures 0.0 <= t <= Duration()
    {
      if loaded then position as real / samplerate as real else 0.0
    }
  }
}
