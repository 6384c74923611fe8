/** ui/record.py: the level monitor and the live recorder. Modelled here:
    the search for a loopback input device, the start guard, the ordered
    accumulation of the chunks read, the elapsed-time text, and the
    decoding of the captured 16-bit interleaved stereo into two channels.
    PyAudio, the clock, the chunks the stream delivers and torchaudio are inputs; the
    thread that runs the read loop is modelled as one sequential call. */
module Record {
  import opened Common
  import opened Text
  import opened Paths

  type byte = x: int | 0 <= x < 256

  // ----- Choosing the input device -----

  /** What `get_device_info_by_index` reports of a device. */
  datatype DeviceInfo = DeviceInfo(name: string, maxInputChannels: int)

  /** The name suggests a device that captures the system's output. */
  predicate LoopbackName(name: string)
  {
    var low := Lower(name);
    IsInfix("stereo mix", low) || IsInfix("loopback", low) || IsInfix("blackhole", low)
  }

  /** A loopback device with at least two input channels. */
  predicate Usable(d: DeviceInfo)
  {
    LoopbackName(d.name) && d.maxInputChannels >= 2
  }

  /** The index of the first usable device, if any. */
  function FirstUsable(devices: seq<DeviceInfo>): (r: Option<nat>)
    ensures r.None? <==> forall i :: 0 <= i < |devices| ==> !Usable(devices[i])
    ensures r.Some? ==> (r.value < |devices| && Usable(devices[r.value])
      && forall j :: 0 <= j < r.value ==> !Usable(devices[j]))
    decreases |devices|
  {
    if devices == [] then None
    else if Usable(devices[0]) then Some(0)
    else
      var rest := FirstUsable(devices[1..]);
      assert forall j :: 1 <= j < |devices| ==> devices[j] == devices[1..][j - 1];
      if rest.None? then None else Some(rest.value + 1)
  }

  /** The device search of both `run` methods: the first usable device,
      skipping loopback devices with fewer than two input channels, or
      else the default input device. */
  method FindInputDevice(devices: seq<DeviceInfo>, defaultIndex: int) returns (index: int)
    ensures index == if FirstUsable(devices).Some? then FirstUsable(devices).value as int else defaultIndex
  {
    var found: Option<nat> := None;
    var i := 0;
    while i < |devices|
      invariant 0 <= i <= |devices|
      invariant forall j :: 0 <= j < i ==> !Usable(devices[j])
    {
      var info := devices[i];
      if LoopbackName(info.name) {
        if info.maxInputChannels >= 2 {
          found := Some(i);
          break;
        }
      }
      i := i + 1;
    }
    if found.None? {
      index := defaultIndex;
    } else {
      index := found.value;
    }
  }

  // ----- The elapsed-time text -----

  /** Python's `int(x)`: truncation toward zero. */
  function Trunc(x: real): int
  {
    if x >= 0.0 then x.Floor else -((-x).Floor)
  }

  /** `f"{n:02d}"`: at least two characters, zero-padded. */
  function Pad2(n: int): (r: string)
    ensures |r| >= 2
  {
    NatLemma(n);
    if 0 <= n < 10 then "0" + NatToString(n)
    else if n >= 10 then NatToString(n)
    else "-" + NatToString(-n)
  }

  /** A padded non-negative number reads back as itself. */
  lemma Pad2Value(n: int)
    requires 0 <= n
    ensures AllDigits(Pad2(n)) && DigitsValue(Pad2(n)) == n
  {
    NatLemma(n);
    if n < 10 {
      var r := Pad2(n);
      assert r[..|r| - 1] == "0";
    }
  }

  /** Facts about printing a number that `Pad2` needs. */
  lemma NatLemma(n: int)
    ensures 0 <= n ==> AllDigits(NatToString(n)) && DigitsValue(NatToString(n)) == n
    ensures 0 <= n < 10 ==> NatToString(n) == [DigitChar(n)]
    ensures n >= 10 ==> |NatToString(n)| >= 2
  {
    if 0 <= n {
      NatToStringRoundTrip(n);
    }
  }

  /** The `recording_time_updated` text for `elapsed` seconds:
      `divmod(int(elapsed), 60)` printed as `mm:ss`. */
  function ElapsedText(elapsed: real): string
  {
    var n := Trunc(elapsed);
    Pad2(n / 60) + ":" + Pad2(n % 60)
  }

  /** For a non-negative time the text reads back as whole minutes and
      seconds: the seconds part is two digits below 60, and minutes * 60 +
      seconds is the elapsed time truncated to whole seconds. */
  lemma ElapsedTextRoundTrip(elapsed: real)
    requires elapsed >= 0.0
    ensures var t := ElapsedText(elapsed);
      exists k :: 2 <= k < |t| - 2 && t[k] == ':' && |t| == k + 3 &&
        AllDigits(t[..k]) && AllDigits(t[k + 1..]) &&
        DigitsValue(t[k + 1..]) < 60 &&
        DigitsValue(t[..k]) * 60 + DigitsValue(t[k + 1..]) == elapsed.Floor
  {
    var n := Trunc(elapsed);
    var m, s := Pad2(n / 60), Pad2(n % 60);
    var t := m + ":" + s;
    assert |s| == 2 by {
      if n % 60 >= 10 {
        NatToStringTwoDigits(n % 60);
      }
    }
    assert t[..|m|] == m && t[|m| + 1..] == s;
    assert t[|m|] == ':';
    Pad2Value(n / 60);
    Pad2Value(n % 60);
    assert DigitsValue(m) * 60 + DigitsValue(s) == n;
    var k := |m|;
    assert 2 <= k < |t| - 2 && t[k] == ':' && |t| == k + 3;
    assert AllDigits(t[..k]) && AllDigits(t[k + 1..]) && DigitsValue(t[k + 1..]) < 60;
    assert t == ElapsedText(elapsed) && n == elapsed.Floor;
    assert DigitsValue(t[..k]) * 60 + DigitsValue(t[k + 1..]) == elapsed.Floor;
  }

  /** Numbers from 10 to 99 print with two digits. */
  lemma NatToStringTwoDigits(n: nat)
    requires 10 <= n < 100
    ensures |NatToString(n)| == 2
  {
  }

  // ----- Decoding the capture -----

  /** The signed 16-bit little-endian sample at sample index `i`. */
  function Int16At(bytes: seq<byte>, i: nat): (v: int)
    requires 2 * i + 1 < |bytes|
    ensures -32768 <= v < 32768
  {
    var u: int := bytes[2 * i] as int + 256 * bytes[2 * i + 1] as int;
    if u >= 32768 then u - 65536 else u
  }

  /** The two bytes storing sample `v`, low byte first, in two's complement. */
  function EncodeInt16(v: int): (b: seq<byte>)
    requires -32768 <= v < 32768
    ensures |b| == 2
  {
    var u := if v < 0 then v + 65536 else v;
    [u % 256, u / 256]
  }

  /** Decoding a sample's bytes gives the sample back. */
  lemma Int16RoundTrip(v: int)
    requires -32768 <= v < 32768
    ensures Int16At(EncodeInt16(v), 0) == v
  {
  }

  /** `np.frombuffer(bytes, dtype=np.int16)`. */
  function Samples(bytes: seq<byte>): (r: seq<int>)
    requires |bytes| % 2 == 0
    ensures |r| == |bytes| / 2
  {
    seq(|bytes| / 2, i requires 0 <= i < |bytes| / 2 => Int16At(bytes, i))
  }

  /** `b''.join(chunks)`. */
  function JoinChunks(chunks: seq<seq<byte>>): seq<byte>
    decreases |chunks|
  {
    if chunks == [] then [] else JoinChunks(chunks[..|chunks| - 1]) + chunks[|chunks| - 1]
  }

  /** `reshape(-1, 2)`, the division by 32768 and the transpose: channel
      `c` holds the samples at the positions of parity `c`. */
  function Deinterleave(samples: seq<int>): (r: seq<seq<real>>)
    requires |samples| % 2 == 0
    ensures |r| == 2 && |r[0]| == |samples| / 2 && |r[1]| == |samples| / 2
  {
    var half := |samples| / 2;
    [seq(half, t requires 0 <= t < half => samples[2 * t] as real / 32768.0),
     seq(half, t requires 0 <= t < half => samples[2 * t + 1] as real / 32768.0)]
  }

  /** Every sample of the capture appears in the decoded channels at its
      frame and channel: sample `k` is frame `k / 2` of channel `k % 2`,
      divided by 32768. */
  lemma DecodeIsFaithful(bytes: seq<byte>)
    requires |bytes| % 4 == 0
    ensures var r := Deinterleave(Samples(bytes));
      && |r[0]| == |bytes| / 4
      && forall k :: 0 <= k < |bytes| / 2 ==> r[k % 2][k / 2] * 32768.0 == Int16At(bytes, k) as real
  {
    var s := Samples(bytes);
    var r := Deinterleave(s);
    forall k | 0 <= k < |bytes| / 2
      ensures r[k % 2][k / 2] * 32768.0 == Int16At(bytes, k) as real
    {
      var t, c := k / 2, k % 2;
      assert 2 * t + c == k;
      SampleAt(s, t, c);
      ScaleBack(s[k]);
    }
  }

  /** Decoded values lie in [-1, 1). */
  lemma DecodedInRange(bytes: seq<byte>)
    requires |bytes| % 4 == 0
    ensures var r := Deinterleave(Samples(bytes));
      forall c, t :: 0 <= c < 2 && 0 <= t < |r[c]| ==> -1.0 <= r[c][t] < 1.0
  {
    var s := Samples(bytes);
    var r := Deinterleave(s);
    forall c, t | 0 <= c < 2 && 0 <= t < |r[c]|
      ensures -1.0 <= r[c][t] < 1.0
    {
      SampleAt(s, t, c);
      ScaleRange(s[2 * t + c]);
    }
  }

  /** Frame `t` of channel `c` is sample `2 * t + c`, scaled. */
  lemma SampleAt(s: seq<int>, t: nat, c: nat)
    requires |s| % 2 == 0 && c < 2 && t < |s| / 2
    ensures Deinterleave(s)[c][t] == s[2 * t + c] as real / 32768.0
  {
  }

  lemma ScaleBack(v: int)
    ensures (v as real / 32768.0) * 32768.0 == v as real
  {
  }

  /** A 16-bit sample divided by 32768 lies in [-1, 1). */
  lemma ScaleRange(v: int)
    requires -32768 <= v < 32768
    ensures -1.0 <= v as real / 32768.0 < 1.0
  {
  }

  // ----- The level monitor -----

  /** A signal of the monitor or the recorder. */
  datatype Event =
    | RecordingStarted
    | RecordingStopped(path: string)
    | TimeUpdated(text: string)
    | LevelUpdated(data: seq<byte>)
    | ErrorOccurred(message: string)

  /** One `audio_level_updated` signal per chunk, in order. */
  function Levels(chunks: seq<seq<byte>>): (r: seq<Event>)
    ensures |r| == |chunks| && forall i :: 0 <= i < |r| ==> r[i] == LevelUpdated(chunks[i])
  {
    seq(|chunks|, i requires 0 <= i < |chunks| => LevelUpdated(chunks[i]))
  }

  class LiveLevelMonitor {
    var isMonitoring: bool

    constructor()
      ensures !isMonitoring
    {
      isMonitoring := false;
    }

    method StartMonitoring()
      modifies this
      ensures isMonitoring
    {
      isMonitoring := true;
    }

    method StopMonitoring()
      modifies this
      ensures !isMonitoring
    {
      isMonitoring := false;
    }

    /** `run`: opens the chosen device (an exception being `openError`)
        and echoes every chunk read before monitoring stops. */
    method Run(devices: seq<DeviceInfo>, defaultIndex: int, openError: Option<string>, chunks: seq<seq<byte>>)
      returns (device: int, events: seq<Event>)
      ensures device == if FirstUsable(devices).Some? then FirstUsable(devices).value as int else defaultIndex
      ensures openError.Some? ==> events == [ErrorOccurred("Failed to start monitoring: " + openError.value)]
      ensures openError.None? ==> events == Levels(chunks)
    {
      device := FindInputDevice(devices, defaultIndex);
      if openError.Some? {
        return device, [ErrorOccurred("Failed to start monitoring: " + openError.value)];
      }
      events := [];
      var i := 0;
      while i < |chunks|
        invariant 0 <= i <= |chunks|
        invariant events == Levels(chunks[..i])
      {
        events := events + [LevelUpdated(chunks[i])];
        i := i + 1;
      }
      assert chunks[..i] == chunks;
    }
  }

  // ----- The live recorder -----

  /** One iteration of the read loop: the chunk read and the clock right
      after it. */
  datatype Read = Read(chunk: seq<byte>, clock: real)

  /** The chunks of `captured`, in order. */
  function Chunks(captured: seq<Read>): (r: seq<seq<byte>>)
    ensures |r| == |captured| && forall i :: 0 <= i < |r| ==> r[i] == captured[i].chunk
  {
    seq(|captured|, i requires 0 <= i < |captured| => captured[i].chunk)
  }

  /** The time texts of the read loop, one per chunk. */
  function TimeTexts(captured: seq<Read>, start: real): (r: seq<string>)
    ensures |r| == |captured|
  {
    seq(|captured|, i requires 0 <= i < |captured| => ElapsedText(captured[i].clock - start))
  }

  /** Each chunk echoed, followed by its time text. */
  function Ticks(captured: seq<Read>, texts: seq<string>): seq<Event>
    requires |texts| == |captured|
    decreases |captured|
  {
    if captured == [] then []
    else
      var n := |captured| - 1;
      Ticks(captured[..n], texts[..n]) + [LevelUpdated(captured[n].chunk), TimeUpdated(texts[n])]
  }

  /** The signals of the read loop: each chunk is echoed, then the
      elapsed time since `start` is shown. */
  function LoopEvents(captured: seq<Read>, start: real): seq<Event>
  {
    Ticks(captured, TimeTexts(captured, start))
  }

  /** The level signals of the read loop are the chunks, unchanged and in
      order, each followed by its time text. */
  lemma {:induction false} TicksInterleave(captured: seq<Read>, texts: seq<string>)
    requires |texts| == |captured|
    ensures |Ticks(captured, texts)| == 2 * |captured|
    ensures forall i :: 0 <= i < |captured| ==>
      Ticks(captured, texts)[2 * i] == LevelUpdated(captured[i].chunk) &&
      Ticks(captured, texts)[2 * i + 1] == TimeUpdated(texts[i])
    decreases |captured|
  {
    if captured != [] {
      var n := |captured| - 1;
      TicksInterleave(captured[..n], texts[..n]);
      var e, pre := Ticks(captured, texts), Ticks(captured[..n], texts[..n]);
      forall i | 0 <= i < n
        ensures e[2 * i] == LevelUpdated(captured[i].chunk) && e[2 * i + 1] == TimeUpdated(texts[i])
      {
        assert captured[..n][i] == captured[i] && texts[..n][i] == texts[i];
        assert e[2 * i] == pre[2 * i] && e[2 * i + 1] == pre[2 * i + 1];
      }
    }
  }

  /** The signals of the read loop are the chunks, unchanged and in
      order, each followed by the time text for its clock. */
  lemma LoopEventsEchoChunks(captured: seq<Read>, start: real)
    ensures |LoopEvents(captured, start)| == 2 * |captured|
    ensures forall i :: 0 <= i < |captured| ==>
      LoopEvents(captured, start)[2 * i] == LevelUpdated(captured[i].chunk) &&
      LoopEvents(captured, start)[2 * i + 1] == TimeUpdated(ElapsedText(captured[i].clock - start))
  {
    TicksInterleave(captured, TimeTexts(captured, start));
  }

  /** One more iteration of the read loop. */
  lemma LoopStep(captured: seq<Read>, start: real, i: nat)
    requires i < |captured|
    ensures Chunks(captured[..i + 1]) == Chunks(captured[..i]) + [captured[i].chunk]
    ensures LoopEvents(captured[..i + 1], start) == LoopEvents(captured[..i], start)
      + [LevelUpdated(captured[i].chunk), TimeUpdated(ElapsedText(captured[i].clock - start))]
  {
    var c := captured[..i + 1];
    assert c[..i] == captured[..i];
    var t := TimeTexts(c, start);
    assert t[..i] == TimeTexts(captured[..i], start);
  }

  const RecordingPrefix := "muteone_recording_"

  /** The temporary file of a recording started when the clock read `now`. */
  function TempPath(tempDir: string, now: real): (r: string)
    ensures tempDir <= r && Paths.EndsWith(r, ".wav")
  {
    var name := RecordingPrefix + IntToString(Trunc(now)) + ".wav";
    Paths.JoinShape(tempDir, name);
    Paths.EndsWithAppend(RecordingPrefix + IntToString(Trunc(now)), ".wav");
    Paths.EndsWithTransitive(Paths.Join(tempDir, name), name, ".wav");
    Paths.Join(tempDir, name)
  }

  /** A recording is named after the whole second it started at: the
      temporary directory joined with `muteone_recording_<digits>.wav`,
      the digits reading back as `int(now)`. */
  lemma TempPathNamesStart(tempDir: string, now: real)
    requires Trunc(now) >= 0
    ensures exists digits :: (AllDigits(digits) && DigitsValue(digits) == Trunc(now) &&
      TempPath(tempDir, now) == Paths.Join(tempDir, RecordingPrefix + digits + ".wav"))
  {
    NatToStringRoundTrip(Trunc(now));
    assert TempPath(tempDir, now) == Paths.Join(tempDir, RecordingPrefix + NatToString(Trunc(now)) + ".wav");
  }

  /** Recordings started in different whole seconds get different
      temporary files. */
  lemma TempPathDistinct(tempDir: string, a: real, b: real)
    requires Trunc(a) >= 0 && Trunc(b) >= 0 && Trunc(a) != Trunc(b)
    ensures TempPath(tempDir, a) != TempPath(tempDir, b)
  {
    var da, db := NatToString(Trunc(a)), NatToString(Trunc(b));
    var na, nb := RecordingPrefix + da + ".wav", RecordingPrefix + db + ".wav";
    if TempPath(tempDir, a) == TempPath(tempDir, b) {
      Paths.JoinInjective(tempDir, na, nb);
      assert da == na[|RecordingPrefix|..|na| - 4];
      assert db == nb[|RecordingPrefix|..|nb| - 4];
      NatToStringInjective(Trunc(a), Trunc(b));
    }
  }

  /** A saved recording: the path and the two decoded channels. */
  datatype Saved = Saved(path: string, channels: seq<seq<real>>)

  class LiveRecorder {
    var isRecording: bool
    /** `audio_data`: the chunks captured, in order. */
    var audioData: seq<seq<byte>>
    var tempFilePath: Option<string>
    var startTime: real

    constructor()
      ensures !isRecording && audioData == [] && tempFilePath.None? && startTime == 0.0
    {
      isRecording := false;
      audioData := [];
      tempFilePath := None;
      startTime := 0.0;
    }

    /** `start_recording`: ignored while recording; otherwise starts a new
        capture. The clock is read twice, for the start time (`now`) and
        for the file name (`nameClock`). */
    method StartRecording(tempDir: string, now: real, nameClock: real)
      modifies this
      ensures old(isRecording) ==> (isRecording && audioData == old(audioData)
        && tempFilePath == old(tempFilePath) && startTime == old(startTime))
      ensures !old(isRecording) ==> (isRecording && audioData == []
        && tempFilePath == Some(TempPath(tempDir, nameClock)) && startTime == now)
    {
      if isRecording {
        return;
      }
      isRecording := true;
      audioData := [];
      startTime := now;
      tempFilePath := Some(TempPath(tempDir, nameClock));
    }

    method StopRecording()
      modifies this
      ensures !isRecording && audioData == old(audioData) && tempFilePath == old(tempFilePath)
      ensures startTime == old(startTime)
    {
      isRecording := false;
    }

    /** The read loop: every chunk is appended to `audio_data`, then
        echoed together with the elapsed time. */
    method ReadLoop(captured: seq<Read>) returns (ticks: seq<Event>)
      modifies this
      ensures audioData == old(audioData) + Chunks(captured)
      ensures ticks == LoopEvents(captured, startTime)
      ensures isRecording == old(isRecording) && tempFilePath == old(tempFilePath) && startTime == old(startTime)
    {
      ticks := [];
      var start := startTime;
      var i := 0;
      while i < |captured|
        invariant 0 <= i <= |captured|
        invariant audioData == old(audioData) + Chunks(captured[..i])
        invariant ticks == LoopEvents(captured[..i], start)
        invariant isRecording == old(isRecording) && tempFilePath == old(tempFilePath) && startTime == start
      {
        var chunk := captured[i].chunk;
        var text := ElapsedText(captured[i].clock - start);
        LoopStep(captured, start, i);
        audioData := audioData + [chunk];
        ticks := ticks + [LevelUpdated(chunk), TimeUpdated(text)];
        i := i + 1;
      }
      assert captured[..i] == captured;
    }

    /** `run`: opens the chosen device (an exception being `openError`),
        announces the start, appends every chunk read to `audio_data`
        while echoing it and the elapsed time, and saves the capture when
        there is one. */
    method Run(devices: seq<DeviceInfo>, defaultIndex: int, openError: Option<string>, captured: seq<Read>,
               formatError: string, saveError: Option<string>)
      returns (device: int, events: seq<Event>, saved: Option<Saved>)
      modifies this
      ensures device == if FirstUsable(devices).Some? then FirstUsable(devices).value as int else defaultIndex
      ensures isRecording == old(isRecording) && tempFilePath == old(tempFilePath) && startTime == old(startTime)
      ensures openError.Some? ==> (audioData == old(audioData) && saved.None?
        && events == [ErrorOccurred("Recording failed: " + openError.value)])
      ensures openError.None? ==>
        && audioData == old(audioData) + Chunks(captured)
        && var (saveEvents, s) := SaveOutcome(audioData, tempFilePath, formatError, saveError);
           events == [RecordingStarted] + LoopEvents(captured, startTime) + saveEvents && saved == s
    {
      device := FindInputDevice(devices, defaultIndex);
      if openError.Some? {
        return device, [ErrorOccurred("Recording failed: " + openError.value)], None;
      }
      var ticks := ReadLoop(captured);
      events := [RecordingStarted] + ticks;
      var (saveEvents, s) := SaveOutcome(audioData, tempFilePath, formatError, saveError);
      events := events + saveEvents;
      saved := s;
    }
  }

  /** What happens after the read loop: nothing without a chunk or a path;
      otherwise `save_recording`. Data that does not split into whole
      stereo frames makes numpy raise `formatError`; a failing save raises
      `saveError`. */
  function SaveOutcome(chunks: seq<seq<byte>>, path: Option<string>, formatError: string, saveError: Option<string>)
    : (r: (seq<Event>, Option<Saved>))
    ensures r.1.Some? <==> path.Some? && r.0 == [RecordingStopped(path.value)]
    ensures (|chunks| == 0 || path.None?) ==> r == ([], None)
    ensures r.1.Some? ==> |JoinChunks(chunks)| % 4 == 0 && r.1.value == Saved(path.value, Deinterleave(Samples(JoinChunks(chunks))))
    ensures |chunks| > 0 && path.Some? && |JoinChunks(chunks)| % 4 == 0 && saveError.None? ==> r.1.Some?
    ensures |chunks| > 0 && path.Some? && |JoinChunks(chunks)| % 4 != 0 ==>
              r == ([ErrorOccurred("Failed to save: " + formatError)], None)
    ensures |chunks| > 0 && path.Some? && |JoinChunks(chunks)| % 4 == 0 && saveError.Some? ==>
              r == ([ErrorOccurred("Failed to save: " + saveError.value)], None)
  {
    if |chunks| == 0 || path.None? then ([], None)
    else
      var bytes := JoinChunks(chunks);
      if |bytes| % 4 != 0 then ([ErrorOccurred("Failed to save: " + formatError)], None)
      else if saveError.Some? then ([ErrorOccurred("Failed to save: " + saveError.value)], None)
      else ([RecordingStopped(path.value)], Some(Saved(path.value, Deinterleave(Samples(bytes)))))
  }

  /** A saved recording is the whole capture: sample `k` of the joined
      chunks is frame `k / 2` of channel `k % 2` of the saved file, and it
      holds one frame per four bytes captured. */
  lemma SavedIsCapture(chunks: seq<seq<byte>>, path: Option<string>, formatError: string, saveError: Option<string>)
    requires SaveOutcome(chunks, path, formatError, saveError).1.Some?
    ensures var bytes := JoinChunks(chunks);
      var saved := SaveOutcome(chunks, path, formatError, saveError).1.value;
      && |bytes| % 4 == 0
      && |saved.channels| == 2 && |saved.channels[0]| == |saved.channels[1]| == |bytes| / 4
      && forall k :: 0 <= k < |bytes| / 2 ==> saved.channels[k % 2][k / 2] * 32768.0 == Int16At(bytes, k) as real
  {
    DecodeIsFaithful(JoinChunks(chunks));
  }
}
