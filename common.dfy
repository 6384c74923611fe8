/** Values shared by every part of the model: optional values, results of
    operations that can raise, multichannel frames and decoded sound files. */
module Common {

  /** Python's `None` or a value. */
  datatype Option<T> = None | Some(value: T)

  /** The outcome of an operation that either returns a value or raises an
      exception whose message is `error`. */
  datatype Result<T> = Ok(value: T) | Err(error: string)

  function Min(a: int, b: int): int
  {
    if a <= b then a else b
  }

  function Max(a: int, b: int): int
  {
    if a >= b then a else b
  }

  /** One frame of a frames x channels buffer: one sample per channel. */
  type Frame = seq<real>

  /** Every frame of `frames` has exactly `width` channels. */
  predicate HasWidth(frames: seq<Frame>, width: nat)
  {
    forall i :: 0 <= i < |frames| ==> |frames[i]| == width
  }

  /** A frame of silence with `width` channels. */
  function ZeroFrame(width: nat): (f: Frame)
    ensures |f| == width
    ensures forall c :: 0 <= c < width ==> f[c] == 0.0
  {
    seq(width, _ => 0.0)
  }

  /** `n` frames of silence, each with `width` channels (numpy's `zeros((n, width))`). */
  function Silence(n: nat, width: nat): (s: seq<Frame>)
    ensures |s| == n && HasWidth(s, width)
    ensures forall i :: 0 <= i < n ==> s[i] == ZeroFrame(width)
  {
    seq(n, _ => ZeroFrame(width))
  }

  /** What `soundfile.read` hands back: a 1-D array for a one-channel file,
      a frames x channels array otherwise, and the file's sample rate. */
  datatype SoundFile =
    | MonoFile(samples: seq<real>, rate: int)
    | FrameFile(frames: seq<Frame>, channels: nat, rate: int)
  {
    /** The shape guarantees of a successfully decoded file. */
    predicate Valid()
    {
      rate > 0 && (FrameFile? ==> channels >= 1 && HasWidth(frames, channels))
    }

    /** The channel count of the buffer once it is two-dimensional. */
    function Channels(): nat
    {
      if MonoFile? then 1 else channels
    }

    /** The file as a frames x channels buffer: a 1-D array becomes a single
        column (`np.expand_dims(data, axis=1)`), a 2-D array is kept. */
    function AsColumns(): (r: seq<Frame>)
      requires Valid()
      ensures HasWidth(r, Channels())
      ensures MonoFile? ==> |r| == |samples| && forall i :: 0 <= i < |r| ==> r[i] == [samples[i]]
      ensures FrameFile? ==> r == frames
    {
      if MonoFile? then seq(|samples|, i requires 0 <= i < |samples| => [samples[i]]) else frames
    }
  }
}
