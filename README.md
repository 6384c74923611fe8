# muteone-desktop, modelled in Dafny

muteone-desktop is a desktop tool that removes an instrument (by default
the vocals) from a song with Demucs or an MDX separator. It also plays
files back, records system audio and overdubs, and offers a small
waveform editor. Its thin Qt and PyAudio layers sit on a few pieces of
deterministic logic, and this project models those pieces and proves what
they do:

- `Player` (audio/player.py): the playback cursor. It covers the per-block output callback
  and the play / pause / stop / seek state machine over a frames x channels
  buffer.
- `Overdub` (audio/overdub.py): the overdub session. A zeroed take of N frames
  fills block by block from input channel 0 until a block would overrun it.
  Each accepted block plays the matching backing slice, and the mixdown adds
  the take into channel 0 of the backing.
- `Separation` (audio/processor.py): the Demucs job.
  - the accelerator priority, the task → model routing and the MDX name test;
  - the quarantine of models that failed to load;
  - the normalisation of the input to two channels and the sum of the kept stems;
  - the collision-free output naming (`base.wav`, `base_1.wav`, ...);
  - the order of the progress signals.
- `AltProcessor` (processor.py): the second processor.
  - `_fix_tensor` on shapes;
  - the MDX wrapper's classification of the separator output, with its fallback scan;
  - the instrument default and the routing to MDX or Demucs;
  - the `~/Downloads/<stem>_no_<instrument>.wav` naming;
  - the Demucs save loop, where every kept stem goes to the same path, modelled as written, each save able to raise its own error;
  - the signals of a run.
- `DemucsManager` (model_manager.py): the device choice and the MDX passthrough of
  `load_model_safely`.
- `Record` (ui/record.py):
  - the loopback-device search and the start guard;
  - the ordered accumulation and echo of the chunks;
  - the `MM:SS` elapsed text;
  - the decision to save only a non-empty capture;
  - the decoding of 16-bit interleaved stereo into two channels scaled to [-1, 1).
- `Waveform` (ui/waveform_widget.py): the editor state.
  - the downsampling stride;
  - the clamped playback cursor;
  - the trim-marker press / move / release state machine;
  - the x ↔ time mapping.
- `VocalChainFx` (audio/vocal_chain.py): the partial parameter update and the
  pass-through `process`.
- Shared modules:
  - `Common`: Option/Result, frames and silence;
  - `Text`: ASCII lower-casing, substring test, decimal printing;
  - `Paths`: POSIX `join`, `basename`, `splitext`;
  - `Signals`: the Qt signals of the processors and their progress values.

Samples and times are exact `real`s. The file system is a set or a map of
existing paths. Device probes, the clock and everything a foreign library
returns (torchaudio, soundfile, PyAudio, sounddevice, Demucs, audio_separator)
are inputs: a value, or a `Result` that says how the call raised.
Exceptions become error outcomes with the message the source would carry.

Where this model departs from the English descriptions of the program, it
follows the code:

- `_fix_tensor` uses `squeeze(0)`, which drops the first dimension only when
  its size is 1.
- audio/processor.py's `run` always uses "htdemucs_ft", whatever the task and
  quality.
- In processor.py, the vocals route can never hit its "Vocal removal failed"
  branch, because the wrapper returns two stems or raises
  (`MdxWrapper.Call`).
- processor.py's wrapper leaves its temporary directory behind when the
  temporary save raises, because that save comes before the `try/finally` that
  removes it (`MdxWrapper.Call`, `tempLeft`).
- processor.py's `run` ignores its `output_path` argument and never consults
  `is_cancelled`.

## Model

| member | source | states |
|---|---|---|
| Player.PlayBlock | audio/player.py:24-37 | The block has exactly `frames` frames of the buffer's width. Frame i is `data[pos+i]` while that exists, else silence. The callback stops iff the cursor is at or past the end. The cursor then moves to `min(pos+frames, len)`, or stays where it is when stopping. |
| Player.PlaybackIsPaddedData | audio/player.py:27-37 | n consecutive callbacks from cursor `pos` emit `data[pos..]` in order, padded with silence to n·frames frames. |
| Player.SeekTarget | audio/player.py:83-84 | The stored frame always lies in [0, len]. It is the requested frame when that is in range, 0 below and len above. |
| Player.AudioPlayer.constructor | audio/player.py:9-15 | Nothing loaded, rate 44100, cursor 0, not playing, no stream. |
| Player.AudioPlayer.Load | audio/player.py:17-22 | The buffer becomes the file as frames x channels (a 1-D file as one column). The rate is the file's, the cursor is reset to 0 and the stream is untouched. |
| Player.AudioPlayer.Callback | audio/player.py:24-37 | `outdata` gets exactly `PlayBlock`'s frames; the cursor and the stop request are `PlayBlock`'s. |
| Player.AudioPlayer.Play | audio/player.py:39-57 | Without data nothing changes. Otherwise it stops first, so the cursor is 0 and any seek or pause position is lost. It then opens a stream with the buffer's channels, which is active and playing only when `start()` succeeds; a failure leaves `is_playing` false. |
| Player.AudioPlayer.OnFinished | audio/player.py:59-61 | Not playing, cursor rewound to 0, the stream inactive. |
| Player.AudioPlayer.Pause | audio/player.py:63-66 | An active stream is stopped and playing cleared. Otherwise nothing changes. Pause itself does not move the cursor. The rewind that follows when the stream's finished callback runs is `OnFinished`. |
| Player.AudioPlayer.Stop | audio/player.py:68-78 | No stream, not playing, cursor 0, whatever the state before (so it is idempotent). |
| Player.AudioPlayer.Seek | audio/player.py:80-84 | A no-op without data; otherwise the cursor is `SeekTarget(frame, len)`, so it stays within the buffer. |
| Player.AudioPlayer.Duration | audio/player.py:89-90 | `len / rate` (as `d·rate == len`) when loaded, else 0; never negative. |
| Player.AudioPlayer.Position | audio/player.py:86-87 | `position / rate` when loaded, else 0; always between 0 and the duration. |
| Overdub.Zeros | audio/overdub.py:27 | n zero samples. |
| Overdub.ConcatAppend | audio/overdub.py:31-42 | Laying out two runs of blocks gives the concatenation of their layouts. |
| Overdub.AcceptedFrom | audio/overdub.py:33-36 | The scan from block i stops at the first block that would overrun n frames, or at the end. |
| Overdub.Accepted | audio/overdub.py:33-37 | The accepted blocks fit into the take. The block after them, if any, would overrun it. |
| Overdub.RecordedTake | audio/overdub.py:27-37 | The take has exactly n samples. Every sample after the accepted blocks is zero. |
| Overdub.TakeHoldsBlocksInOrder | audio/overdub.py:37-42 | Sample t of accepted block j sits in the take right after the samples of blocks 0..j-1. |
| Overdub.OutBlock | audio/overdub.py:38-41 | An output block of `frames` frames: the backing from `idx` where it exists, mono silence beyond. |
| Overdub.Played | audio/overdub.py:33-41 | One output block per accepted block, plus one block of silence when a block overran. |
| Overdub.Mix | audio/overdub.py:54-55 | Same length as the backing. Over the take's frames, channel 0 is backing + take. The other channels and the later frames are the backing's, unclipped. |
| Overdub.Callback | audio/overdub.py:31-42 | Stops iff idx+frames > N. When stopping it emits silence and writes nothing, with idx unchanged. Otherwise `recorded[idx:idx+frames]` becomes the input, idx advances by frames and the output is `OutBlock`. |
| Overdub.TakeStep | audio/overdub.py:37 | Accepting a block extends the written prefix of the take by that block and keeps the zero tail. |
| Overdub.AcceptedStep | audio/overdub.py:33-36 | A block that fits does not change where the scan stops. |
| Overdub.PlayedStep | audio/overdub.py:38-41 | Accepting a block appends its output block to what was played. |
| Overdub.StoppedSession | audio/overdub.py:33-36 | Once the first overrunning block arrives, the take and the output are final. |
| Overdub.CompletedSession | audio/overdub.py:33-42 | When every block fits, the take and the output are final once the blocks run out. |
| Overdub.AcceptBlock | audio/overdub.py:33-42 | Accepting a block that fits moves the take, the cursor and the played blocks past it, without changing where the scan stops. |
| Overdub.Capture | audio/overdub.py:27-42 | The loop over the driver's blocks yields exactly `RecordedTake` and `Played`. |
| Overdub.MixDown | audio/overdub.py:54-55 | The copy-and-add loop yields exactly `Mix`. |
| Overdub.OverdubRecorder.constructor | audio/overdub.py:7-11 | No backing, rate 44100. |
| Overdub.OverdubRecorder.LoadBacking | audio/overdub.py:17-20 | The backing is the file as frames x channels, a 1-D file as one column, with the file's rate. |
| Overdub.OverdubRecorder.RecordOverdub | audio/overdub.py:22-57 | Without a backing it fails with "No backing loaded for overdub". Otherwise the take, the output and the mix are those of the backing cut to N frames, and the out path is returned. |
| Separation.ChooseDevice | audio/processor.py:13-22 | "cuda" iff CUDA. "mps" iff no CUDA and the MPS probe answered yes (a raising probe counts as no). "cpu" otherwise. |
| Separation.ModelsForTask | audio/processor.py:24-27 | One model. The MDX vocal model iff the task is "vocals" with high quality; "htdemucs_ft" otherwise. |
| Separation.IsMdxModel | audio/processor.py:29-30 | No contract of its own: a name is an MDX model when it contains "MDX" or "UVR", case-sensitively. What it decides is stated by `RoutingPicksBackend` and `DemucsIsNotMdx`. |
| Separation.RoutingPicksBackend | audio/processor.py:24-30 | The chosen model is an MDX model iff the task is "vocals" with high quality. |
| Separation.DemucsIsNotMdx | audio/processor.py:29-30 | "htdemucs_ft", the model chosen at audio/processor.py:97, is not taken for an MDX model. |
| Separation.FailedAfter | audio/processor.py:33-54 | The quarantine only grows, by at most the name asked for. The name is in it afterwards iff it was before or its load failed. |
| Separation.QuarantineIsPermanent | audio/processor.py:33-54 | Over any sequence of requests the quarantine only grows. A name is in it iff it was at the start or one of its requests failed. |
| Separation.ModelManager.constructor | audio/processor.py:11-22 | An empty quarantine and the device of `ChooseDevice`. |
| Separation.ModelManager.LoadModelSafely | audio/processor.py:32-54 | A quarantined name fails with "Model … previously failed", without a load or a status. For an MDX name a failing package import comes first: it sends no status, adds the name and fails with "Failed to load …". Otherwise the loading status is sent (with a callback), and a load failure adds the name and fails with "Failed to load …". A success returns the model and leaves the set alone. |
| Separation.NormalizeChannels | audio/processor.py:90-94 | 1 channel is duplicated, more than 2 are cut to the first 2; any non-empty input gives exactly 2 channels. |
| Separation.RemovedStemsIgnored | audio/processor.py:110-113 | The mix does not depend on the content of a removed stem. |
| Separation.KeptSumStep | audio/processor.py:111-113 | One more stem adds its sample exactly when its label differs from the removed instrument. |
| Separation.Add | audio/processor.py:113 | Sample-wise sum of two signals of the same shape. |
| Separation.ZeroSignal | audio/processor.py:110 | `zeros_like`: the shape, all zeros. |
| Separation.MixKept | audio/processor.py:110-113 | The accumulation loop gives, at every sample, the sum over the stems whose label is not exactly the removed instrument. |
| Separation.BaseName | audio/processor.py:123-125 | `"{stem}_muteone_no_{instrument}"`, never empty. |
| Separation.Candidate | audio/processor.py:126-131 | Every candidate is a ".wav" path ending in its counter's suffix (none for 0, `_k` otherwise), and lies inside the output directory when the base name is relative. `CandidateInjective` states that counters never collide. |
| Separation.CandidateInjective | audio/processor.py:126-131 | Different counters give different candidate paths. |
| Separation.CandidateSetSize | audio/processor.py:128-131 | The first k candidates are k distinct paths, none of them candidate k, so the search terminates within the existing paths. |
| Separation.CandidateSetMembers | audio/processor.py:128-131 | Every path among the first k candidates is candidate j for some j < k. |
| Separation.ChooseOutputPath | audio/processor.py:123-131 | The path is the first candidate that does not exist: it is free, and every earlier candidate exists. |
| Separation.FirstFree | audio/processor.py:128-131 | The `while exists` loop returns a free candidate, and every earlier candidate exists. |
| Separation.AudioProcessor.constructor | audio/processor.py:75-81 | Stores the job and creates a fresh manager with an empty quarantine. |
| Separation.AudioProcessor.SaveOutput | audio/processor.py:120-135 | A failing save fails with its error. Otherwise it writes the mix at the input's rate, to the first free candidate. |
| Separation.AudioProcessor.Run | audio/processor.py:83-118 | The events are the trace of the outcome. A failed load, or an empty instrument list ("list index out of range"), ends early. The separator gets the two-channel input. Otherwise the outcome follows the model load, the separation and the save, with the quarantine as `FailedAfter`. A save writes the kept stems' sum to the first free path. |
| Separation.TraceEndsOnce | audio/processor.py:84-135 | Every run starts with "Loading audio..." at 10 and ends with exactly one terminal signal. That signal is `processing_complete` for a save, else `error_occurred`. |
| Separation.TraceSteps | audio/processor.py:87-134 | The progress values are 10, then 40, 70 and 100 as far as the run got. |
| Separation.EarlyErrorSteps | audio/processor.py:87 | A run failing before the model load reports only 10. |
| Separation.AfterProcessingSteps | audio/processor.py:87-108 | After the model load the progress is 10 and 40 followed by that of the rest. |
| Separation.ProcessingSteps | audio/processor.py:86-102 | Up to the model load a run reports 10 and 40. |
| Separation.TraceProgress | audio/processor.py:87-134 | Progress is always a prefix of 10, 40, 70, 100. It reaches 100 iff the output was saved. |
| Signals.StatusEvents | audio/processor.py:102 | One status signal per message, in order. |
| Signals.ProgressValuesAppend | processor.py:148-149 | The progress values of two signal runs in sequence are theirs concatenated. |
| Signals.StatusesHaveNoProgress | processor.py:146-147 | Status signals carry no progress value. |
| AltProcessor.FixShape | processor.py:24-30 | The non-unit dimensions and the element count are kept. With `batch`, 1- to 3-D shapes become 3-D, and a 2-D shape gains exactly a leading 1. A 3-D shape with `batch` is unchanged. Without `batch`, a 1-D shape becomes 2-D and `[1,a,b]` becomes exactly `[a,b]`, while 2-D shapes and 3-D shapes not starting with 1 are unchanged. Other ranks are unchanged. |
| AltProcessor.FixTensor | processor.py:18-33 | None stays None. A tensor keeps its samples and takes `FixShape`'s shape. |
| AltProcessor.FixShapeIdempotent | processor.py:18-33 | Fixing twice is fixing once. |
| AltProcessor.FixShapeVector | processor.py:24-30 | `[n]` becomes `[1,n]`, or `[1,1,n]` with `batch`. |
| AltProcessor.NoVocalsIsVocal | processor.py:80-84 | A listed file named "…no_vocals…" is classified as vocals, because the vocal test comes first. |
| AltProcessor.LastHit | processor.py:70-84 | The first scan keeps, for a slot, the last existing entry of that slot, and None iff there is none. |
| AltProcessor.PrimaryScan | processor.py:65-84 | The loop over the separator output ends with `LastHit` for both slots. |
| AltProcessor.FallbackKeeps | processor.py:86-96 | The fallback scan never replaces a stem already found. |
| AltProcessor.FallbackFirstVocal | processor.py:86-94 | With the vocal slot empty, the fallback fills it from the first ".wav" listing whose name contains "vocal", and leaves it empty iff there is none. |
| AltProcessor.FallbackScan | processor.py:87-96 | The loop over the listing gives exactly `Fallback`. |
| AltProcessor.FallbackFirstInstrumental | processor.py:86-96 | With the instrumental slot empty, the fallback fills it from the first ".wav" listing with an "instrumental", "music" or "no_vocals" tag that is not taken for the vocals. It leaves the slot empty iff there is none. |
| AltProcessor.FallbackParts | processor.py:86-96 | The two fallback lemmas, for whichever slots are empty. |
| AltProcessor.Classify | processor.py:65-101 | The two files found exist, and the only error is "Output missing vocal/instrumental stems". Which files are chosen is stated by `ClassifyChoosesFirst` and `AfterFallbackChoosesFirst`. |
| AltProcessor.AfterFallbackChoosesFirst | processor.py:86-96 | A stem from the first scan is kept. A missing vocal stem becomes the first vocal ".wav" listed, and a missing instrumental stem the first listing that takes that slot. Both slots end up filled exactly when each was found first or has such a listing. |
| AltProcessor.ClassifyChoosesFirst | processor.py:65-101 | The result is the two stems left after both scans, and "Output missing vocal/instrumental stems" exactly when one of them is still missing. |
| AltProcessor.FallbackFound | processor.py:88-96 | Stems found by the fallback scan exist. |
| AltProcessor.ScanOutput | processor.py:65-101 | The two scans, as run, give `Classify`. |
| AltProcessor.MdxResult | processor.py:45-104 | A successful call names two existing stem files. |
| AltProcessor.StemsResult | processor.py:59-104 | Once the separator exists, a successful call names two existing stem files. Otherwise it fails with the temporary save's, the separator's or the classification's error. |
| AltProcessor.FixedStems | processor.py:104 | Exactly two stems, vocals first. Each keeps its samples and takes the shape `_fix_tensor` gives without a batch dimension. |
| AltProcessor.StatusesInOrder | processor.py:45-109 | The statuses come in the order they are sent. The engine message comes on first use. A failed setup sends its error alone after it; otherwise "Separating vocals..." follows, then the error if there is one. |
| AltProcessor.MdxWrapper.constructor | processor.py:40-43 | Stores the model path, with no separator. |
| AltProcessor.MdxWrapper.Call | processor.py:45-109 | The separator is created lazily and kept unless its construction raised. The statuses are "Loading vocal removal engine..." (on first use), "Separating vocals..." and, on failure, "Vocal removal error: …". It fails with `MdxResult`'s error, or returns exactly the two stems `[vocals, instrumental]` passed through `_fix_tensor`, so the caller's `sources[1]` always exists. The temporary directory is left behind exactly when the temporary save raised. |
| AltProcessor.SeparateStems | processor.py:59-104 | What is found is `StemsResult`. A failing temporary save leaves the temporary directory behind. The call fails exactly when nothing was found, with that error. On success it returns `FixedStems` of the two files. |
| AltProcessor.MdxWrapper.Cleanup | processor.py:111-117 | The separator is dropped. |
| AltProcessor.Instrument | processor.py:157 | The first instrument, lower-cased; "vocals" for an empty list. |
| AltProcessor.RouteFor | processor.py:160-191 | The MDX route iff the instrument is "vocals". |
| AltProcessor.OutputPath | processor.py:204-207 | The output lies inside `~/Downloads` and ends in `_no_<instrument>.wav`. The vocals route at processor.py:179-182 is the case instrument = "vocals". |
| AltProcessor.OutputPathNamesInput | processor.py:204-207 | The output is `~/Downloads` joined with a name made of a slash-free prefix of the input's file name, then `_no_<instrument>.wav`: it lies directly in `~/Downloads` and is named after the input. |
| AltProcessor.LastKeptIndex | processor.py:208-211 | The last of the first k stems whose label, lower-cased, differs from the instrument. It is None iff there is none, and no later stem among the k is kept. |
| AltProcessor.LastKept | processor.py:208-211 | The file ends up holding the last stem whose label, lower-cased, differs from the instrument; None iff there is none. |
| AltProcessor.FirstFailedSave | processor.py:208-211 | The first kept stem whose save raises, if any: None iff no kept stem's save raises. |
| AltProcessor.FirstFailedSaveAt | processor.py:208-211 | When stem i is kept, its save raises and no earlier save raised, stem i is the first failing save of the whole loop. |
| AltProcessor.SaveKept | processor.py:208-211 | Each stem may raise its own save error. The loop fails with the error of the first kept stem whose save raises, and the file then holds the last kept stem before it. Without a failing save, the file holds `LastKept`. |
| AltProcessor.AudioProcessor.constructor | processor.py:127-132 | The manager's device is replaced by `PreferredDevice`; not cancelled, no wrapper. |
| AltProcessor.AudioProcessor.Cancel | processor.py:134-140 | The flag is raised and the current wrapper, if any, is cleaned up. |
| AltProcessor.AudioProcessor.RemoveVocals | processor.py:160-187 | A fresh wrapper for "UVR-MDX-NET-Inst_HQ_1.onnx" is used and always cleaned up. The instrumental stem is saved to the path, or the run fails with the wrapper's or the save's error. |
| AltProcessor.AudioProcessor.RemoveWithDemucs | processor.py:190-216 | Loads "htdemucs_ft" with its statuses and separates the batch-fixed input. The save loop leaves `LastKept` at the path. Otherwise the run fails with the load's or the separation's error, or with the first failing save's error, the file then holding what the earlier saves wrote. |
| AltProcessor.AudioProcessor.Run | processor.py:143-222 | The signals are the outcome's trace, and the return value is the path on success, else None. The flag is lowered. A failed load fails at once; otherwise the route is chosen by the instrument and the output is named from the input. |
| AltProcessor.TraceEndsOnce | processor.py:153-222 | Every run starts with "Loading audio file..." and ends with exactly one `processing_finished`: the path on success, "" otherwise. |
| AltProcessor.TraceSteps | processor.py:162-213 | The progress is nothing for a failed load, 30 for a failure after routing, and 30 then 100 for a success. |
| AltProcessor.LoadFailedSteps | processor.py:155-222 | A run whose audio cannot be loaded reports no progress. |
| AltProcessor.FailedSteps | processor.py:161-222 | A run that fails after choosing its route reports 30 only. |
| AltProcessor.DoneSteps | processor.py:161-216 | A run that saves its output reports 30, then 100. |
| AltProcessor.RoutedSteps | processor.py:161-192 | Choosing a route reports 30. |
| DemucsManager.PreferredDevice | model_manager.py:16-21 | "mps" iff MPS; "cuda" iff CUDA without MPS; "cpu" iff neither. This is also the priority of `get_best_device` at processor.py:11-16, which the constructor of `AltProcessor.AudioProcessor` uses. |
| DemucsManager.ModelManager.constructor | model_manager.py:14-21 | A non-empty device given is used as is, else the preferred one. |
| DemucsManager.ModelManager.LoadModelSafely | model_manager.py:25-40 | A name starting with "mdx" is returned itself. Others return the loaded model, or fail with the loader's error. With a callback the loading status comes first, and on a failure the error status follows. |
| DemucsManager.RetryAfterFailure | model_manager.py:25-40 | No failure is remembered: after a failed load, the same name loads as soon as the loader succeeds. |
| Text.Lower | processor.py:157 | `str.lower()` on ASCII, character by character. |
| Text.NatToStringRoundTrip | ui/record.py:93 | The decimal text of n consists of digits only, and reading it back gives n. |
| Text.NatToStringInjective | ui/record.py:93 | Different numbers give different `str` texts. `Record.TempPathDistinct` uses this to show that different seconds give different file names. |
| Paths.Basename | processor.py:181 | `os.path.basename`, also used at processor.py:80: no slash in the result. |
| Paths.SplitextRoot | processor.py:181 | `os.path.splitext(p)[0]`, also used at processor.py:206, is a prefix of p. |
| Paths.Join | processor.py:91 | No contract of its own: POSIX `os.path.join` of two parts. `JoinShape` and `JoinInjective` state its properties. |
| Paths.JoinShape | audio/processor.py:126-131 | A joined path ends with the name. An absolute name replaces the directory. A relative one is appended to the directory with at most one separator between them. |
| Paths.PathName | audio/processor.py:123-125 | `Path(p).name` holds no slash. |
| Paths.PathStem | audio/processor.py:123-125 | `Path(p).stem` is a prefix of the name without a slash, and it is empty exactly when the name is. |
| Paths.JoinInjective | processor.py:204-207 | Joining one directory with two relative names gives equal paths only when the names are equal. |
| Record.FirstUsable | ui/record.py:36-42 | The same search is repeated at lines 104-110. None iff no device is usable. Otherwise the index is usable (a loopback name with ≥ 2 inputs) and no earlier device is. |
| Record.FindInputDevice | ui/record.py:35-44 | As repeated at lines 103-112, the loop with `break` picks `FirstUsable`, else the default input. |
| Record.Pad2 | ui/record.py:132 | `:02d` gives at least two characters. |
| Record.Pad2Value | ui/record.py:132 | The padded text of n ≥ 0 reads back as n. |
| Record.ElapsedText | ui/record.py:130-132 | No contract of its own: `mm:ss` of `divmod(int(elapsed), 60)`. `ElapsedTextRoundTrip` states how its minutes and seconds read back. |
| Record.ElapsedTextRoundTrip | ui/record.py:130-132 | For elapsed ≥ 0 the text is `<minutes>:<ss>`. The seconds part has two digits below 60, and minutes·60 + seconds is `int(elapsed)`. |
| Record.NatToStringTwoDigits | ui/record.py:132 | 10..99 print with two digits. |
| Record.Int16At | ui/record.py:146 | A little-endian int16 sample lies in [-32768, 32768). |
| Record.EncodeInt16 | ui/record.py:146 | A sample is stored in two bytes. |
| Record.Int16RoundTrip | ui/record.py:146 | Decoding the bytes of a sample gives it back. |
| Record.Samples | ui/record.py:146 | `frombuffer(int16)` gives half as many samples as bytes. |
| Record.Deinterleave | ui/record.py:147-151 | Two channels, each of half the samples. |
| Record.DecodeIsFaithful | ui/record.py:145-151 | Sample k of the capture is `32768 · channel[k mod 2][k div 2]`: even samples go to channel 0 and odd to channel 1. |
| Record.DecodedInRange | ui/record.py:149 | Every decoded value lies in [-1, 1). |
| Record.SampleAt | ui/record.py:147-151 | Frame t of channel c is sample 2t+c scaled by 1/32768. |
| Record.ScaleRange | ui/record.py:149 | An int16 divided by 32768 lies in [-1, 1). |
| Record.Levels | ui/record.py:55-57 | One level signal per chunk, unchanged and in order. |
| Record.LiveLevelMonitor.constructor | ui/record.py:17-23 | Not monitoring. |
| Record.LiveLevelMonitor.StartMonitoring | ui/record.py:25-27 | Monitoring. |
| Record.LiveLevelMonitor.StopMonitoring | ui/record.py:29-30 | Not monitoring. |
| Record.LiveLevelMonitor.Run | ui/record.py:32-63 | Picks the input device as `FindInputDevice` does. A failing open emits only "Failed to start monitoring: …". Otherwise every chunk read is echoed in order. |
| Record.Chunks | ui/record.py:126-127 | The chunks read, in order. |
| Record.TimeTexts | ui/record.py:130-132 | One time text per chunk. |
| Record.TicksInterleave | ui/record.py:125-132 | Each chunk's level signal is followed by its time signal. |
| Record.LoopEventsEchoChunks | ui/record.py:125-132 | The loop emits two signals per chunk: the chunk unchanged, then the elapsed text since the start. |
| Record.LoopStep | ui/record.py:125-132 | One more iteration appends one chunk and its two signals. |
| Record.LiveRecorder.constructor | ui/record.py:74-83 | Not recording, no data, no temp path, start time 0. |
| Record.TempPath | ui/record.py:91-94 | The temporary path lies inside the temporary directory and ends in ".wav". |
| Record.TempPathNamesStart | ui/record.py:91-94 | For a start time of at least 0, the path is the temporary directory joined with `muteone_recording_<digits>.wav`, where the digits read back as `int(time.time())`. |
| Record.TempPathDistinct | ui/record.py:91-94 | Recordings started in different whole seconds get different temporary paths. |
| Record.LiveRecorder.StartRecording | ui/record.py:85-95 | Ignored while recording. Otherwise recording starts with empty data, the clock as start time and `<tmp>/muteone_recording_<int(time)>.wav` as the path. |
| Record.LiveRecorder.StopRecording | ui/record.py:97-98 | Recording is cleared; nothing else changes. |
| Record.LiveRecorder.ReadLoop | ui/record.py:125-132 | `audio_data` grows by the chunks read, in order, and the signals are `LoopEvents`. |
| Record.LiveRecorder.Run | ui/record.py:100-141 | Picks the device as `FindInputDevice` does. A failing open emits only "Recording failed: …". Otherwise it emits `recording_started`, then the loop's signals, then what the save gives. |
| Record.SaveOutcome | ui/record.py:138-156 | Nothing happens without chunks or a path. `recording_stopped` is emitted iff the file is saved, and it then holds the decoded two channels of the whole capture. With chunks and a path, the file is saved exactly when the bytes split into whole stereo frames and the save does not raise. Otherwise the one event is `error_occurred` with "Failed to save: " and numpy's or the save's error. |
| Record.SavedIsCapture | ui/record.py:143-156 | A saved file holds one frame per four bytes captured, and every 16-bit sample of the joined chunks is at its frame and channel, scaled by 1/32768. |
| Waveform.Stride | ui/waveform_widget.py:40 | `max(1, frames // 4000)`, at least 1. |
| Waveform.Downsample | ui/waveform_widget.py:41 | `samples[::k]`: ⌈n/k⌉ points, point i being sample i·k. |
| Waveform.DisplayIsBounded | ui/waveform_widget.py:40-41 | However long the file, the display holds fewer than 8000 points. |
| Waveform.XToTime | ui/waveform_widget.py:80-82 | No contract of its own: the pixel-to-time map. `XTimeRoundTrip` and `TimeXRoundTrip` state that it is the inverse of `TimeToX`. |
| Waveform.TimeToX | ui/waveform_widget.py:84-86 | No contract of its own: the time-to-pixel map. `XTimeRoundTrip` and `TimeXRoundTrip` state that it is the inverse of `XToTime`. |
| Waveform.XTimeRoundTrip | ui/waveform_widget.py:80-86 | `time_to_x(x_to_time(x)) == x` when width ≠ 80 and duration ≠ 0. |
| Waveform.TimeXRoundTrip | ui/waveform_widget.py:80-86 | `x_to_time(time_to_x(t)) == t` under the same conditions. |
| Waveform.DragStart | ui/waveform_widget.py:72 | The start marker never goes below 0, and it stays at least 0.1 s before the end marker unless it is held at 0. |
| Waveform.DragEnd | ui/waveform_widget.py:74 | The end marker never goes past the duration, and it stays at least 0.1 s after the start marker unless it is held at the duration. |
| Waveform.DragKeepsTrims | ui/waveform_widget.py:68-75 | Dragging either marker anywhere keeps both within [0, duration] and at least 0.1 s apart. A file shorter than 0.1 s keeps them at its two ends. |
| Waveform.DragStartFollows | ui/waveform_widget.py:72 | The start marker goes to the pointer when that keeps the gap. It is held at end − 0.1 to the right of that, and at 0 left of the file. |
| Waveform.WaveformWidget.constructor | ui/waveform_widget.py:13-23 | Nothing loaded, rate 44100, duration and cursor 0, no marker dragged. |
| Waveform.WaveformWidget.LoadAudio | ui/waveform_widget.py:32-49 | A successful load sets duration = frames/rate, the `Downsample` display and markers at 0 and the duration. A failed load returns false and changes nothing, except a zero rate, which is stored before the division raises. |
| Waveform.WaveformWidget.SetPlaybackPosition | ui/waveform_widget.py:51-52 | The cursor is clamped into [0, duration], and equals the request when that is inside. |
| Waveform.WaveformWidget.MousePress | ui/waveform_widget.py:55-66 | Nothing without audio. Within 0.5 s of the start marker it grabs start, taking priority over end. Else, within 0.5 s of the end marker, it grabs end. Else it requests a seek to the clicked time. |
| Waveform.WaveformWidget.MouseMove | ui/waveform_widget.py:68-75 | The grabbed marker moves as `DragStart` / `DragEnd` say, and with no marker grabbed nothing moves. The markers stay valid. |
| Waveform.WaveformWidget.MouseRelease | ui/waveform_widget.py:77-78 | No marker is grabbed. |
| VocalChainFx.Apply | audio/vocal_chain.py:19-31 | Each setting given is taken; each one not given is kept. |
| VocalChainFx.NoChangeIsIdentity | audio/vocal_chain.py:19-31 | `set_params()` with no arguments changes nothing. |
| VocalChainFx.ApplyIdempotent | audio/vocal_chain.py:19-31 | Repeating the same call has no further effect. |
| VocalChainFx.FullUpdateOverwrites | audio/vocal_chain.py:19-31 | A call giving every setting forgets the old ones. |
| VocalChainFx.VocalChain.constructor | audio/vocal_chain.py:6-17 | Enabled, EQ 0.0 dB, threshold -12.0, ratio 2.0, reverb 0.2. |
| VocalChainFx.VocalChain.SetParams | audio/vocal_chain.py:19-31 | The settings become `Apply` of the old ones. |
| VocalChainFx.VocalChain.Process | audio/vocal_chain.py:33-43 | The audio comes back unchanged, enabled or not, and the chain is untouched. |

## Left out

- Audio I/O and timing are not modelled. This covers the PortAudio and
  sounddevice streams, device queries, `sd.sleep`, and the driver thread that
  calls the callbacks. The callbacks are applied to a given sequence of blocks.
- Threads are not modelled: QThread start/wait and the cross-thread
  `is_recording` / `is_monitoring` flags. Each read loop runs sequentially over
  a finite list of chunks.
- Foreign libraries are inputs, not models: torchaudio and soundfile load/save,
  the audio_separator `Separator`, demucs `get_model` / `apply_model`, the torch
  device probes, and `cleanup_torch`'s garbage collection and cache emptying.
- Float numerics are left out. Samples and times are exact reals, and seconds
  are turned into frame counts (`int(seconds * sr)`, `int(duration * sr)`)
  before the model sees them.
- Averaging to mono (`torch.mean`) in the waveform widget is left out: the mono
  samples are the input of `LoadAudio`.
- Waveform.WaveformWidget.MousePress and Waveform.WaveformWidget.MouseMove:
  require width ≠ 80 while a time is computed. The source divides by zero there
  and raises out of the Qt handler, which is not modelled.
- Waveform.WaveformWidget.LoadAudio: requires a non-negative sample rate,
  which torchaudio guarantees.
- Painting is left out: every `paintEvent`. All of ui/level_meter.py is left
  out too, being float dBFS conversion and painting.
- main.py and ui/recording_booth.py (Qt glue) are not part of this model.
- `Recorder.record_to_file` in ui/record.py is not modelled: it is a blocking
  fixed-duration capture, all of it I/O.
- Devices are not modelled: moving models and tensors to a device, and the
  float conversion in `_fix_tensor`. A tensor is its shape and samples.
- processor.py's wrapper assumes that `torchaudio.load` succeeds on a
  classified stem that exists, and `os.makedirs` on its output directory is
  left out.
- Overdub.OverdubRecorder.RecordOverdub: requires a mono backing of at least N
  frames. It does not model the numpy errors the code raises otherwise.
- Player.AudioPlayer.Pause: sounddevice runs the stream's
  `finished_callback` once `stream.stop()` has stopped it, and that callback
  rewinds the cursor to 0. The model keeps the driver's callback as the
  separate event `OnFinished`, so Pause followed by OnFinished is what a
  pause does to the cursor.
- Player.AudioPlayer.Play: requires the buffer's channels to be at most the
  device's, as the stream the code opens assumes.
- AltProcessor.MdxWrapper.Call: the status callback is always present, as the
  only caller (`run`) passes one.
- AltProcessor.AudioProcessor.Run: the `output_path`, `progress_callback`,
  `status_callback` and `cancelled` arguments are left out. When the callbacks
  are given (processor.py:146-149), statuses and progress go to them instead of
  to the signals. The model is a call with only the slot's three arguments,
  where neither callback is given. The code never reads `output_path` or
  `is_cancelled`.
- Record.SaveOutcome: the temporary path is an `Option`. The empty string,
  which Python would also treat as no path, never arises from `TempPath`.
- Text.Lower: only ASCII letters are lower-cased; Unicode case folding is left
  out.
