/** The overdub engine (`OverdubRecorder` in audio/overdub.py): a fixed-size
    take buffer filled block by block from the input while the backing track
    is played back, then mixed into the backing. The duplex stream is
    replaced by the sequence of input blocks the driver delivers. */
module Overdub {
  import opened Common

  /** `n` zero samples. */
  function Zeros(n: nat): (z: seq<real>)
    ensures |z| == n && forall i :: 0 <= i < n ==> z[i] == 0.0
  {
    seq(n, _ => 0.0)
  }

  /** The input blocks laid end to end. */
  function Concat(blocks: seq<seq<real>>): seq<real>
  {
    if blocks == [] then [] else Concat(blocks[..|blocks| - 1]) + blocks[|blocks| - 1]
  }

  /** Laying out two runs of blocks one after the other. */
  lemma {:induction false} ConcatAppend(a: seq<seq<real>>, b: seq<seq<real>>)
    ensures Concat(a + b) == Concat(a) + Concat(b)
    decreases |b|
  {
    if b == [] {
      assert a + b == a;
    } else {
      var init := b[..|b| - 1];
      assert (a + b)[..|a + b| - 1] == a + init;
      assert (a + b)[|a + b| - 1] == b[|b| - 1];
      ConcatAppend(a, init);
      assert Concat(b) == Concat(init) + b[|b| - 1];
    }
  }

  /** Scanning from block `i` on, the number of leading blocks that fit into
      a take of `n` frames: the first block that would overrun stops the stream. */
  function AcceptedFrom(n: nat, blocks: seq<seq<real>>, i: nat): (k: nat)
    requires i <= |blocks|
    ensures i <= k <= |blocks|
    ensures |Concat(blocks[..i])| <= n ==> |Concat(blocks[..k])| <= n
    ensures k < |blocks| ==> |Concat(blocks[..k])| + |blocks[k]| > n
    decreases |blocks| - i
  {
    if i == |blocks| || |Concat(blocks[..i])| + |blocks[i]| > n then i
    else
      assert blocks[..i + 1][..i] == blocks[..i];
      AcceptedFrom(n, blocks, i + 1)
  }

  /** How many blocks the callback copies into the take before it stops the stream. */
  function Accepted(n: nat, blocks: seq<seq<real>>): (k: nat)
    ensures k <= |blocks| && |Concat(blocks[..k])| <= n
    ensures k < |blocks| ==> |Concat(blocks[..k])| + |blocks[k]| > n
  {
    AcceptedFrom(n, blocks, 0)
  }

  /** The take: the accepted blocks' channel-0 samples in order, then the
      zeros the buffer was allocated with. */
  function RecordedTake(n: nat, blocks: seq<seq<real>>): (take: seq<real>)
    ensures |take| == n
    ensures forall i :: |Concat(blocks[..Accepted(n, blocks)])| <= i < n ==> take[i] == 0.0
  {
    var written := Concat(blocks[..Accepted(n, blocks)]);
    written + Zeros(n - |written|)
  }

  /** The take while block `i` is due: the blocks before it, then zeros. */
  function TakeSoFar(n: nat, blocks: seq<seq<real>>, i: nat): seq<real>
    requires i <= |blocks| && |Concat(blocks[..i])| <= n
  {
    Concat(blocks[..i]) + Zeros(n - |Concat(blocks[..i])|)
  }

  /** Within the take, sample `t` of accepted block `j` sits right after
      the blocks before it. */
  lemma TakeHoldsBlocksInOrder(n: nat, blocks: seq<seq<real>>, j: nat, t: nat)
    requires j < Accepted(n, blocks) && t < |blocks[j]|
    ensures |Concat(blocks[..j])| + t < n
    ensures RecordedTake(n, blocks)[|Concat(blocks[..j])| + t] == blocks[j][t]
  {
    var k := Accepted(n, blocks);
    assert blocks[..k] == blocks[..j] + [blocks[j]] + blocks[j + 1..k];
    ConcatAppend(blocks[..j] + [blocks[j]], blocks[j + 1..k]);
    ConcatAppend(blocks[..j], [blocks[j]]);
    assert Concat([blocks[j]]) == blocks[j] by {
      assert [blocks[j]][..0] == [];
    }
  }

  /** The output block for a cursor at `idx`: the backing from `idx`,
      zero-filled beyond the backing's end (the stream is one channel). */
  function OutBlock(backing: seq<Frame>, idx: nat, frames: nat): (out: seq<Frame>)
    ensures |out| == frames
    ensures forall i :: 0 <= i < frames ==>
              out[i] == if idx + i < |backing| then backing[idx + i] else ZeroFrame(1)
  {
    if idx < |backing| then
      var chunk := backing[idx..Min(idx + frames, |backing|)];
      chunk + Silence(frames - |chunk|, 1)
    else
      Silence(frames, 1)
  }

  /** The output blocks for the first `k` accepted input blocks. */
  function PlayedPrefix(backing: seq<Frame>, blocks: seq<seq<real>>, k: nat): seq<seq<Frame>>
    requires k <= |blocks|
  {
    seq(k, j requires 0 <= j < k => OutBlock(backing, |Concat(blocks[..j])|, |blocks[j]|))
  }

  /** Everything sent to the output: one backing slice per accepted block
      and, if a block overran, one block of silence, after which the stream
      stops. */
  function Played(n: nat, backing: seq<Frame>, blocks: seq<seq<real>>): (out: seq<seq<Frame>>)
    ensures |out| == Accepted(n, blocks) + (if Accepted(n, blocks) < |blocks| then 1 else 0)
  {
    var k := Accepted(n, blocks);
    PlayedPrefix(backing, blocks, k) + (if k < |blocks| then [Silence(|blocks[k]|, 1)] else [])
  }

  /** The mix: the backing with the take added, sample by sample without
      clipping, to channel 0 of its first `|take|` frames. */
  function Mix(backing: seq<Frame>, take: seq<real>): (mix: seq<Frame>)
    requires |take| <= |backing|
    requires forall i :: 0 <= i < |take| ==> |backing[i]| >= 1
    ensures |mix| == |backing|
    ensures forall i :: 0 <= i < |take| ==> |mix[i]| == |backing[i]| && mix[i][0] == backing[i][0] + take[i]
    ensures forall i, c :: 0 <= i < |take| && 1 <= c < |backing[i]| ==> mix[i][c] == backing[i][c]
    ensures forall i :: |take| <= i < |backing| ==> mix[i] == backing[i]
  {
    seq(|backing|, i requires 0 <= i < |backing| =>
      if i < |take| then backing[i][0 := backing[i][0] + take[i]] else backing[i])
  }

  /** The inner `callback`: if the block would overrun the take it writes
      silence, leaves the take and the cursor alone and stops; otherwise it
      copies input channel 0 into the take at the cursor, emits the
      matching backing slice and advances the cursor by the block size. */
  method Callback(recorded: array<real>, backing: seq<Frame>, idx: nat, indata: seq<real>,
                  outdata: array<Frame>) returns (next: nat, stop: bool)
    requires outdata.Length == |indata| && idx <= recorded.Length
    modifies recorded, outdata
    ensures stop <==> idx + |indata| > recorded.Length
    ensures stop ==> next == idx && recorded[..] == old(recorded[..])
    ensures stop ==> outdata[..] == Silence(|indata|, 1)
    ensures !stop ==> next == idx + |indata|
    ensures !stop ==> recorded[..] == old(recorded[..idx]) + indata + old(recorded[idx + |indata|..])
    ensures !stop ==> outdata[..] == OutBlock(backing, idx, |indata|)
  {
    var frames := |indata|;
    var end := idx + frames;
    if end > recorded.Length {
      forall i | 0 <= i < frames {
        outdata[i] := ZeroFrame(1);
      }
      return idx, true;
    }
    forall i | idx <= i < end {
      recorded[i] := indata[i - idx];
    }
    var outChunk := if idx < |backing| then backing[idx..Min(end, |backing|)] else Silence(frames, 1);
    forall i | 0 <= i < |outChunk| {
      outdata[i] := outChunk[i];
    }
    forall i | |outChunk| <= i < frames {
      outdata[i] := ZeroFrame(1);
    }
    assert recorded[..] == old(recorded[..idx]) + indata + old(recorded[end..]);
    assert outdata[..] == OutBlock(backing, idx, frames);
    next, stop := end, false;
  }

  /** Accepting block `i` extends the written part of the take by that block. */
  lemma TakeStep(blocks: seq<seq<real>>, i: nat, n: nat, before: seq<real>, after: seq<real>)
    requires i < |blocks|
    requires |Concat(blocks[..i])| + |blocks[i]| <= n
    requires before == Concat(blocks[..i]) + Zeros(n - |Concat(blocks[..i])|)
    requires after == before[..|Concat(blocks[..i])|] + blocks[i] + before[|Concat(blocks[..i])| + |blocks[i]|..]
    ensures Concat(blocks[..i + 1]) == Concat(blocks[..i]) + blocks[i]
    ensures after == Concat(blocks[..i + 1]) + Zeros(n - |Concat(blocks[..i + 1])|)
  {
    assert blocks[..i + 1][..i] == blocks[..i];
    var w := Concat(blocks[..i]);
    assert before[..|w|] == w;
    assert before[|w| + |blocks[i]|..] == Zeros(n - |w| - |blocks[i]|);
  }

  /** A block that fits leaves the number of accepted blocks unchanged when
      the scan moves past it. */
  lemma AcceptedStep(n: nat, blocks: seq<seq<real>>, i: nat)
    requires i < |blocks| && |Concat(blocks[..i])| + |blocks[i]| <= n
    ensures AcceptedFrom(n, blocks, i + 1) == AcceptedFrom(n, blocks, i)
  {
  }

  /** Accepting block `i` appends its output block to what was played. */
  lemma PlayedStep(backing: seq<Frame>, blocks: seq<seq<real>>, i: nat)
    requires i < |blocks|
    ensures PlayedPrefix(backing, blocks, i + 1)
            == PlayedPrefix(backing, blocks, i) + [OutBlock(backing, |Concat(blocks[..i])|, |blocks[i]|)]
  {
  }

  /** When block `i` is the first that overruns the take, the session so
      far is the whole session. */
  lemma StoppedSession(n: nat, backing: seq<Frame>, blocks: seq<seq<real>>, i: nat,
                       take: seq<real>, played: seq<seq<Frame>>, out: seq<Frame>)
    requires i < |blocks| && AcceptedFrom(n, blocks, i) == Accepted(n, blocks)
    requires |Concat(blocks[..i])| + |blocks[i]| > n && |Concat(blocks[..i])| <= n
    requires take == TakeSoFar(n, blocks, i)
    requires played == PlayedPrefix(backing, blocks, i) && out == Silence(|blocks[i]|, 1)
    ensures take == RecordedTake(n, blocks)
    ensures played + [out] == Played(n, backing, blocks)
  {
  }

  /** When every block fits, the session so far is the whole session. */
  lemma CompletedSession(n: nat, backing: seq<Frame>, blocks: seq<seq<real>>,
                         take: seq<real>, played: seq<seq<Frame>>)
    requires AcceptedFrom(n, blocks, |blocks|) == Accepted(n, blocks)
    requires |Concat(blocks)| <= n
    requires take == TakeSoFar(n, blocks, |blocks|)
    requires played == PlayedPrefix(backing, blocks, |blocks|)
    ensures take == RecordedTake(n, blocks)
    ensures played == Played(n, backing, blocks)
  {
    assert blocks[..|blocks|] == blocks;
  }

  /** Accepting block `i` keeps the loop's account of the session: the
      take, the cursor and the played blocks all move past block `i`. */
  lemma AcceptBlock(n: nat, backing: seq<Frame>, blocks: seq<seq<real>>, i: nat, k: nat,
                    before: seq<real>, after: seq<real>, played: seq<seq<Frame>>, out: seq<Frame>)
    requires i < |blocks| && AcceptedFrom(n, blocks, i) == k
    requires |Concat(blocks[..i])| + |blocks[i]| <= n
    requires before == TakeSoFar(n, blocks, i)
    requires after == before[..|Concat(blocks[..i])|] + blocks[i] + before[|Concat(blocks[..i])| + |blocks[i]|..]
    requires played == PlayedPrefix(backing, blocks, i)
    requires out == OutBlock(backing, |Concat(blocks[..i])|, |blocks[i]|)
    ensures AcceptedFrom(n, blocks, i + 1) == k
    ensures |Concat(blocks[..i + 1])| == |Concat(blocks[..i])| + |blocks[i]| <= n
    ensures after == TakeSoFar(n, blocks, i + 1)
    ensures played + [out] == PlayedPrefix(backing, blocks, i + 1)
  {
    TakeStep(blocks, i, n, before, after);
    PlayedStep(backing, blocks, i);
    AcceptedStep(n, blocks, i);
  }

  /** The duplex session of `record_overdub`: a zeroed take of `n` frames,
      the callback run on each delivered input block until it stops the
      stream, and the output blocks it produced. */
  method Capture(n: nat, backing: seq<Frame>, blocks: seq<seq<real>>) returns (take: seq<real>, played: seq<seq<Frame>>)
    ensures take == RecordedTake(n, blocks)
    ensures played == Played(n, backing, blocks)
  {
    var recorded := new real[n](_ => 0.0);
    ghost var k := Accepted(n, blocks);
    var idx: nat := 0;
    var i := 0;
    played := [];
    while i < |blocks|
      invariant 0 <= i <= |blocks| && recorded.Length == n
      invariant AcceptedFrom(n, blocks, i) == k
      invariant idx == |Concat(blocks[..i])| <= n
      invariant recorded[..] == TakeSoFar(n, blocks, i)
      invariant played == PlayedPrefix(backing, blocks, i)
    {
      var outdata := new Frame[|blocks[i]|];
      ghost var before := recorded[..];
      var next, stop := Callback(recorded, backing, idx, blocks[i], outdata);
      if stop {
        StoppedSession(n, backing, blocks, i, recorded[..], played, outdata[..]);
        played := played + [outdata[..]];
        take := recorded[..];
        return;
      }
      AcceptBlock(n, backing, blocks, i, k, before, recorded[..], played, outdata[..]);
      played := played + [outdata[..]];
      idx := next;
      i := i + 1;
    }
    assert blocks[..i] == blocks;
    CompletedSession(n, backing, blocks, recorded[..], played);
    take := recorded[..];
  }

  /** The mixdown of `record_overdub`: a copy of the backing whose channel 0
      gets the take added in place, frame by frame. */
  method MixDown(backing: seq<Frame>, take: seq<real>) returns (mix: seq<Frame>)
    requires |take| <= |backing|
    requires forall i :: 0 <= i < |take| ==> |backing[i]| >= 1
    ensures mix == Mix(backing, take)
  {
    var n := |backing|;
    var mixed := new Frame[n](j requires 0 <= j < n => backing[j]);
    var m := 0;
    while m < |take|
      invariant 0 <= m <= |take|
      invariant forall j :: 0 <= j < m ==> mixed[j] == backing[j][0 := backing[j][0] + take[j]]
      invariant forall j :: m <= j < n ==> mixed[j] == backing[j]
    {
      mixed[m] := mixed[m][0 := mixed[m][0] + take[m]];
      m := m + 1;
    }
    mix := mixed[..];
  }

  /** A finished overdub: the take, the blocks sent to the output, the mix
      and the path it is written to. */
  datatype Take = Take(recorded: seq<real>, played: seq<seq<Frame>>, mix: seq<Frame>, path: string)

  class OverdubRecorder {
    /** `self.backing_data is not None` */
    var backingLoaded: bool
    var backingData: seq<Frame>
    var backingChannels: nat
    var samplerate: int

    ghost predicate Valid()
      reads this
    {
      samplerate > 0 && (backingLoaded ==> backingChannels >= 1 && HasWidth(backingData, backingChannels))
    }

    constructor()
      ensures Valid() && !backingLoaded && samplerate == 44100
    {
      backingLoaded, backingData, backingChannels := false, [], 0;
      samplerate := 44100;
    }

    /** `load_backing`: the decoded file, a 1-D one as a single column. */
    method LoadBacking(file: SoundFile)
      requires file.Valid()
      modifies this
      ensures Valid()
      ensures backingLoaded && backingData == file.AsColumns()
      ensures backingChannels == file.Channels() && samplerate == file.rate
    {
      backingData := file.AsColumns();
      backingChannels := file.Channels();
      samplerate := file.rate;
      backingLoaded := true;
    }

    /** `record_overdub` for a take of `n = int(duration * samplerate)`
        frames, with `blocks` the channel-0 input blocks the driver delivers.
        The stream is one channel and the mix indexes the first `n` backing
        frames, so the backing must be mono and at least `n` frames long. */
    method RecordOverdub(n: nat, blocks: seq<seq<real>>, outPath: string) returns (r: Result<Take>)
      requires Valid()
      requires backingLoaded ==> backingChannels == 1 && n <= |backingData|
      ensures !backingLoaded ==> r == Err("No backing loaded for overdub")
      ensures backingLoaded ==> r.Ok?
      ensures backingLoaded ==> r.value.recorded == RecordedTake(n, blocks)
      ensures backingLoaded ==> r.value.played == Played(n, backingData[..n], blocks)
      ensures backingLoaded ==> r.value.mix == Mix(backingData[..n], RecordedTake(n, blocks))
      ensures backingLoaded ==> r.value.path == outPath
    {
      if !backingLoaded {
        return Err("No backing loaded for overdub");
      }
      var backing := backingData[..n];
      var take, played := Capture(n, backing, blocks);
      var mix := MixDown(backing, take);
      r := Ok(Take(take, played, mix, outPath));
    }
  }
}
