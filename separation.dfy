/** The separation job of audio/processor.py: the accelerator choice, the
    task-to-model routing, the quarantine of models that failed to load,
    the channel normalisation of the input, the sum of the stems that are
    kept, and the collision-free naming of the output file. Torch, the
    Demucs and MDX models, torchaudio and the file system are inputs. */
module Separation {
  import opened Common
  import opened Text
  import opened Paths
  import opened Signals

  /** What probing for Apple's MPS backend gives: available, unavailable,
      or an exception (which counts as unavailable). */
  datatype MpsProbe = MpsAvailable | MpsUnavailable | MpsProbeRaised

  /** The device `ModelManager.__init__` picks. */
  function ChooseDevice(cuda: bool, mps: MpsProbe): (d: string)
    ensures d == "cuda" <==> cuda
    ensures d == "mps" <==> !cuda && mps == MpsAvailable
    ensures d == "cpu" <==> !cuda && mps != MpsAvailable
  {
    if cuda then "cuda" else if mps == MpsAvailable then "mps" else "cpu"
  }

  const MdxVocalModel := "UVR-MDX-NET-Voc_FT.onnx"
  const DemucsModel := "htdemucs_ft"

  /** `get_models_for_task`. */
  function ModelsForTask(task: string, highQuality: bool): (r: seq<string>)
    ensures |r| == 1
    ensures r[0] == MdxVocalModel <==> task == "vocals" && highQuality
    ensures r[0] == DemucsModel <==> !(task == "vocals" && highQuality)
  {
    if task == "vocals" && highQuality then [MdxVocalModel] else [DemucsModel]
  }

  /** `is_mdx_model`: the name mentions MDX or UVR (case-sensitively). */
  predicate IsMdxModel(name: string)
  {
    IsInfix("MDX", name) || IsInfix("UVR", name)
  }

  /** The model chosen for a task is loaded by the MDX separator exactly for
      high-quality vocal removal, and by Demucs otherwise. */
  lemma RoutingPicksBackend(task: string, highQuality: bool)
    ensures IsMdxModel(ModelsForTask(task, highQuality)[0]) <==> task == "vocals" && highQuality
  {
    if task == "vocals" && highQuality {
      assert OccursAt("MDX", MdxVocalModel, 4);
    } else {
      DemucsIsNotMdx();
    }
  }

  /** "htdemucs_ft" goes to Demucs. */
  lemma DemucsIsNotMdx()
    ensures !IsMdxModel(DemucsModel)
  {
    NotInfixWithoutFirstChar("MDX", DemucsModel);
    NotInfixWithoutFirstChar("UVR", DemucsModel);
  }

  /** A loaded model: an MDX separator, or a Demucs model with its source labels. */
  datatype Model = MdxSeparator(name: string) | Demucs(name: string, sources: seq<string>)

  /** The status message sent before a load. */
  function LoadingMessage(name: string): string
  {
    if IsMdxModel(name) then "Loading MDX " + name + "..." else "Loading Demucs " + name + "..."
  }

  /** The message of the exception raised for a quarantined model. */
  function PreviouslyFailed(name: string): string
  {
    "Model " + name + " previously failed"
  }

  /** The message of the exception raised when loading fails with `cause`. */
  function LoadFailure(name: string, cause: string): string
  {
    "Failed to load " + name + ": " + cause
  }

  /** The quarantine set after asking for `name`, when attempting its load
      would fail (`loadFails`). */
  function FailedAfter(failed: set<string>, name: string, loadFails: bool): (f: set<string>)
    ensures failed <= f && f - failed <= {name}
    ensures name in f <==> name in failed || loadFails
  {
    if name in failed || !loadFails then failed else failed + {name}
  }

  /** Whether an attempted load of `name` fails: the MDX package import
      fails (only MDX models import it), or the load itself does. */
  predicate LoadFails(name: string, importError: Option<string>, loadError: Option<string>)
  {
    (IsMdxModel(name) && importError.Some?) || loadError.Some?
  }

  /** One request to `load_model_safely`: the model name and whether its
      load would fail if attempted. */
  datatype Request = Request(name: string, fails: bool)

  /** The quarantine set after a sequence of requests. */
  function FailedAfterAll(failed: set<string>, requests: seq<Request>): set<string>
    decreases |requests|
  {
    if requests == [] then failed
    else
      var last := requests[|requests| - 1];
      FailedAfter(FailedAfterAll(failed, requests[..|requests| - 1]), last.name, last.fails)
  }

  /** Over any run of requests the quarantine only grows, and a name is in
      it exactly when it was there from the start or some request for it
      failed to load: a failure is remembered for the manager's lifetime. */
  lemma {:induction false} QuarantineIsPermanent(failed: set<string>, requests: seq<Request>, name: string)
    ensures failed <= FailedAfterAll(failed, requests)
    ensures name in FailedAfterAll(failed, requests) <==>
            name in failed || exists i :: 0 <= i < |requests| && requests[i] == Request(name, true)
    decreases |requests|
  {
    if requests != [] {
      var m := |requests| - 1;
      var front := requests[..m];
      QuarantineIsPermanent(failed, front, name);
      if exists i :: 0 <= i < m && front[i] == Request(name, true) {
        var i :| 0 <= i < m && front[i] == Request(name, true);
        assert requests[i] == Request(name, true);
      }
      if exists i :: 0 <= i < |requests| && requests[i] == Request(name, true) {
        var i :| 0 <= i < |requests| && requests[i] == Request(name, true);
        if i < m {
          assert front[i] == Request(name, true);
        }
      }
    }
  }

  class ModelManager {
    /** `self.failed_models` */
    var failedModels: set<string>
    var device: string

    constructor(cuda: bool, mps: MpsProbe)
      ensures failedModels == {} && device == ChooseDevice(cuda, mps)
    {
      failedModels := {};
      device := ChooseDevice(cuda, mps);
    }

    /** `load_model_safely`. The loader is foreign: `importError` is the
        exception importing the MDX separator package would raise (it is
        imported before the MDX status is sent), `loadError` the exception
        loading would raise, `sources` the labels of a Demucs model that
        loads. `hasCallback` says whether a status callback is given; the
        messages it receives are returned in `statuses`. */
    method LoadModelSafely(name: string, importError: Option<string>, loadError: Option<string>,
                           sources: seq<string>, hasCallback: bool)
      returns (r: Result<Model>, statuses: seq<string>)
      modifies this
      ensures device == old(device)
      ensures failedModels == FailedAfter(old(failedModels), name, LoadFails(name, importError, loadError))
      ensures name in old(failedModels) ==>
                r == Err(PreviouslyFailed(name)) && statuses == []
      ensures name !in old(failedModels) && IsMdxModel(name) && importError.Some? ==>
                r == Err(LoadFailure(name, importError.value)) && statuses == []
      ensures name !in old(failedModels) && !(IsMdxModel(name) && importError.Some?) ==>
                statuses == (if hasCallback then [LoadingMessage(name)] else [])
      ensures name !in old(failedModels) && !(IsMdxModel(name) && importError.Some?) && loadError.Some? ==>
                r == Err(LoadFailure(name, loadError.value))
      ensures name !in old(failedModels) && !LoadFails(name, importError, loadError) ==>
                r == Ok(if IsMdxModel(name) then MdxSeparator(name) else Demucs(name, sources))
    {
      if name in failedModels {
        return Err(PreviouslyFailed(name)), [];
      }
      if IsMdxModel(name) && importError.Some? {
        failedModels := failedModels + {name};
        return Err(LoadFailure(name, importError.value)), [];
      }
      statuses := if hasCallback then [LoadingMessage(name)] else [];
      if loadError.Some? {
        failedModels := failedModels + {name};
        return Err(LoadFailure(name, loadError.value)), statuses;
      }
      r := Ok(if IsMdxModel(name) then MdxSeparator(name) else Demucs(name, sources));
    }
  }

  /** A waveform, channel-major: `s[c][t]` is sample `t` of channel `c`. */
  type Signal = seq<seq<real>>

  /** `s` has `channels` channels of `len` samples each. */
  predicate Shaped(s: Signal, channels: nat, len: nat)
  {
    |s| == channels && forall c :: 0 <= c < channels ==> |s[c]| == len
  }

  /** The number of samples of the first channel (0 without channels). */
  function Width(s: Signal): nat
  {
    if |s| == 0 then 0 else |s[0]|
  }

  /** The input normalisation of `run`: a mono file is duplicated into two
      channels and a file with more than two keeps its first two. */
  function NormalizeChannels(w: Signal): (r: Signal)
    ensures |w| >= 1 ==> |r| == 2
    ensures |w| == 1 ==> r == [w[0], w[0]]
    ensures |w| >= 2 ==> r == w[..2]
    ensures |w| == 0 ==> r == w
  {
    if |w| == 1 then [w[0], w[0]] else if |w| > 2 then w[..2] else w
  }

  /** Sample `(c, t)` summed over the stems whose label is not `removed`
      (an exact, case-sensitive comparison). */
  function KeptSum(labels: seq<string>, stems: seq<Signal>, removed: string, c: nat, t: nat): real
    requires |labels| == |stems|
    requires forall i :: 0 <= i < |stems| ==> c < |stems[i]| && t < |stems[i][c]|
    decreases |stems|
  {
    if stems == [] then 0.0
    else
      var m := |stems| - 1;
      KeptSum(labels[..m], stems[..m], removed, c, t) + (if labels[m] != removed then stems[m][c][t] else 0.0)
  }

  /** The content of a removed stem does not reach the mix: two stem lists
      that agree on the kept stems have the same kept sum. */
  lemma {:induction false} RemovedStemsIgnored(labels: seq<string>, stems: seq<Signal>, other: seq<Signal>,
                                               removed: string, c: nat, t: nat)
    requires |labels| == |stems| == |other|
    requires forall i :: 0 <= i < |stems| ==> c < |stems[i]| && t < |stems[i][c]|
    requires forall i :: 0 <= i < |other| ==> c < |other[i]| && t < |other[i][c]|
    requires forall i :: 0 <= i < |stems| && labels[i] != removed ==> stems[i][c][t] == other[i][c][t]
    ensures KeptSum(labels, stems, removed, c, t) == KeptSum(labels, other, removed, c, t)
    decreases |stems|
  {
    if stems != [] {
      var m := |stems| - 1;
      RemovedStemsIgnored(labels[..m], stems[..m], other[..m], removed, c, t);
    }
  }

  /** Growing the stem list by one adds that stem's sample when it is kept. */
  lemma KeptSumStep(labels: seq<string>, stems: seq<Signal>, removed: string, c: nat, t: nat, i: nat)
    requires |labels| == |stems| && i < |stems|
    requires forall j :: 0 <= j < |stems| ==> c < |stems[j]| && t < |stems[j][c]|
    ensures KeptSum(labels[..i + 1], stems[..i + 1], removed, c, t)
            == KeptSum(labels[..i], stems[..i], removed, c, t) + (if labels[i] != removed then stems[i][c][t] else 0.0)
  {
    assert labels[..i + 1][..i] == labels[..i];
    assert stems[..i + 1][..i] == stems[..i];
  }

  /** The sum of two signals of the same shape, sample by sample. */
  function Add(a: Signal, b: Signal): (r: Signal)
    requires Shaped(b, |a|, Width(a)) && Shaped(a, |a|, Width(a))
    ensures Shaped(r, |a|, Width(a))
    ensures forall c, t :: 0 <= c < |a| && 0 <= t < Width(a) ==> r[c][t] == a[c][t] + b[c][t]
  {
    seq(|a|, c requires 0 <= c < |a| => seq(Width(a), t requires 0 <= t < Width(a) => a[c][t] + b[c][t]))
  }

  /** `torch.zeros_like` for a shape. */
  function ZeroSignal(channels: nat, len: nat): (r: Signal)
    ensures Shaped(r, channels, len)
    ensures forall c, t :: 0 <= c < channels && 0 <= t < len ==> r[c][t] == 0.0
  {
    seq(channels, c => seq(len, t => 0.0))
  }

  /** The accumulation loop of `run`: starting from zeros shaped like the
      first stem, add every stem whose label differs from the removed
      instrument. */
  method MixKept(labels: seq<string>, stems: seq<Signal>, removed: string) returns (mix: Signal)
    requires |labels| == |stems| >= 1
    requires forall i :: 0 <= i < |stems| ==> |stems[i]| == |stems[0]|
    requires forall i, c :: 0 <= i < |stems| && 0 <= c < |stems[i]| ==> |stems[i][c]| == Width(stems[0])
    ensures Shaped(mix, |stems[0]|, Width(stems[0]))
    ensures forall c, t :: 0 <= c < |stems[0]| && 0 <= t < Width(stems[0]) ==>
              mix[c][t] == KeptSum(labels, stems, removed, c, t)
  {
    var channels, len := |stems[0]|, Width(stems[0]);
    mix := ZeroSignal(channels, len);
    var i := 0;
    while i < |stems|
      invariant 0 <= i <= |stems|
      invariant Shaped(mix, channels, len)
      invariant forall c, t :: 0 <= c < channels && 0 <= t < len ==>
                  mix[c][t] == KeptSum(labels[..i], stems[..i], removed, c, t)
    {
      var before := mix;
      if labels[i] != removed {
        mix := Add(mix, stems[i]);
      }
      forall c, t | 0 <= c < channels && 0 <= t < len
        ensures mix[c][t] == KeptSum(labels[..i + 1], stems[..i + 1], removed, c, t)
      {
        KeptSumStep(labels, stems, removed, c, t, i);
      }
      i := i + 1;
    }
    assert labels[..i] == labels && stems[..i] == stems;
  }

  /** The instrument named in the output file. */
  function InstrumentName(instruments: seq<string>): string
  {
    if |instruments| > 0 then instruments[0] else "unknown"
  }

  /** `"{stem}_muteone_no_{instrument}"` */
  function BaseName(inputFile: string, instruments: seq<string>): (r: string)
    ensures |r| > 0
  {
    PathStem(inputFile) + "_muteone_no_" + InstrumentName(instruments)
  }

  /** The counter suffix: none for the first candidate, `_k` after it. */
  function Suffix(k: nat): string
  {
    if k == 0 then "" else "_" + NatToString(k)
  }

  /** Candidate `k` for the output path: `base.wav`, `base_1.wav`, `base_2.wav`, ... */
  function Candidate(dir: string, base: string, k: nat): (r: string)
    ensures EndsWith(r, ".wav") && EndsWith(r, Suffix(k) + ".wav")
    ensures (|base| == 0 || base[0] != '/') ==> dir <= r
  {
    var name := base + Suffix(k) + ".wav";
    JoinShape(dir, name);
    assert name == base + (Suffix(k) + ".wav");
    EndsWithAppend(base, Suffix(k) + ".wav");
    EndsWithAppend(Suffix(k), ".wav");
    EndsWithTransitive(Join(dir, name), name, Suffix(k) + ".wav");
    EndsWithTransitive(Join(dir, name), Suffix(k) + ".wav", ".wav");
    Join(dir, name)
  }

  /** Different counters give different candidates, so the search makes progress. */
  lemma CandidateInjective(dir: string, base: string, a: nat, b: nat)
    requires |base| > 0 && Candidate(dir, base, a) == Candidate(dir, base, b)
    ensures a == b
  {
    var na, nb := base + Suffix(a) + ".wav", base + Suffix(b) + ".wav";
    if na[0] == '/' {
      assert Join(dir, na) == na && Join(dir, nb) == nb;
    } else {
      JoinInjective(dir, na, nb);
    }
    assert Suffix(a) == na[|base|..|na| - 4];
    assert Suffix(b) == nb[|base|..|nb| - 4];
    if a != 0 && b != 0 {
      assert NatToString(a) == Suffix(a)[1..];
      NatToStringInjective(a, b);
    }
  }

  /** The first `k` candidates, as a set. */
  function CandidateSet(dir: string, base: string, k: nat): set<string>
  {
    if k == 0 then {} else CandidateSet(dir, base, k - 1) + {Candidate(dir, base, k - 1)}
  }

  /** The first `k` candidates are `k` different paths, none of them candidate `k`. */
  lemma {:induction false} CandidateSetSize(dir: string, base: string, k: nat)
    requires |base| > 0
    ensures Candidate(dir, base, k) !in CandidateSet(dir, base, k)
    ensures |CandidateSet(dir, base, k)| == k
  {
    if k > 0 {
      CandidateSetSize(dir, base, k - 1);
      if Candidate(dir, base, k) in CandidateSet(dir, base, k) {
        if Candidate(dir, base, k) == Candidate(dir, base, k - 1) {
          CandidateInjective(dir, base, k, k - 1);
        } else {
          CandidateSetMembers(dir, base, k - 1, Candidate(dir, base, k));
          var j :| 0 <= j < k - 1 && Candidate(dir, base, k) == Candidate(dir, base, j);
          CandidateInjective(dir, base, k, j);
        }
      }
    }
  }

  /** Every member of the first `k` candidates is one of them. */
  lemma {:induction false} CandidateSetMembers(dir: string, base: string, k: nat, p: string)
    requires p in CandidateSet(dir, base, k)
    ensures exists j :: 0 <= j < k && p == Candidate(dir, base, j)
  {
    if p != Candidate(dir, base, k - 1) {
      CandidateSetMembers(dir, base, k - 1, p);
    }
  }

  /** The path search of `save_output`: it returns the first candidate that
      is not in `existing` and the counter that names it; every earlier
      candidate exists, so an existing file is never chosen or overwritten. */
  method ChooseOutputPath(dir: string, inputFile: string, instruments: seq<string>, existing: set<string>)
    returns (path: string, counter: nat)
    ensures path == Candidate(dir, BaseName(inputFile, instruments), counter)
    ensures path !in existing
    ensures forall j :: 0 <= j < counter ==> Candidate(dir, BaseName(inputFile, instruments), j) in existing
  {
    path, counter := FirstFree(dir, BaseName(inputFile, instruments), existing);
  }

  /** The `while os.path.exists(output_path)` loop for a given base name. */
  method FirstFree(dir: string, base: string, existing: set<string>) returns (path: string, counter: nat)
    requires |base| > 0
    ensures path == Candidate(dir, base, counter) && path !in existing
    ensures forall j :: 0 <= j < counter ==> Candidate(dir, base, j) in existing
  {
    counter := 0;
    path := Candidate(dir, base, 0);
    while path in existing
      invariant path == Candidate(dir, base, counter)
      invariant CandidateSet(dir, base, counter) <= existing
      invariant forall j :: 0 <= j < counter ==> Candidate(dir, base, j) in existing
      decreases |existing| - counter
    {
      CandidateSetSize(dir, base, counter + 1);
      SubsetNoLarger(CandidateSet(dir, base, counter + 1), existing);
      counter := counter + 1;
      path := Candidate(dir, base, counter);
    }
  }

  /** A subset is no larger than its superset. */
  lemma SubsetNoLarger(a: set<string>, b: set<string>)
    requires a <= b
    ensures |a| <= |b|
  {
    assert b == a + (b - a);
  }

  /** The first free candidate for `base`, as `FirstFree` finds it. */
  ghost predicate IsFirstFree(dir: string, base: string, existing: set<string>, path: string)
  {
    exists k: nat :: path == Candidate(dir, base, k) && path !in existing &&
      forall j :: 0 <= j < k ==> Candidate(dir, base, j) in existing
  }

  /** What `torchaudio.load` returns. */
  datatype Decoded = Decoded(wave: Signal, rate: int)

  /** What `torchaudio.save` writes. */
  datatype Written = Written(path: string, mix: Signal, rate: int)

  /** The separator's outputs for a Demucs model with labels `sources`: one
      stem per label, all shaped like the first. */
  predicate SeparatorOutput(sources: seq<string>, stems: seq<Signal>)
  {
    && |stems| == |sources| >= 1
    && (forall i :: 0 <= i < |stems| ==> |stems[i]| == |stems[0]|)
    && (forall i, c :: 0 <= i < |stems| && 0 <= c < |stems[i]| ==> |stems[i][c]| == Width(stems[0]))
  }

  class AudioProcessor {
    var inputFile: string
    var outputDir: string
    var instruments: seq<string>
    var highQuality: bool
    var modelManager: ModelManager

    constructor(inputFile: string, outputDir: string, instruments: seq<string>, highQuality: bool,
                cuda: bool, mps: MpsProbe)
      ensures this.inputFile == inputFile && this.outputDir == outputDir
      ensures this.instruments == instruments && this.highQuality == highQuality
      ensures fresh(modelManager)
      ensures modelManager.failedModels == {} && modelManager.device == ChooseDevice(cuda, mps)
    {
      this.inputFile := inputFile;
      this.outputDir := outputDir;
      this.instruments := instruments;
      this.highQuality := highQuality;
      modelManager := new ModelManager(cuda, mps);
    }

    /** `save_output`: write the mix to the first free candidate path (the
        signals for progress 100 and the path follow in `Trace`).
        `saveError` is the exception `torchaudio.save` would raise; it
        propagates to the caller. */
    method SaveOutput(mix: Signal, rate: int, existing: set<string>, saveError: Option<string>)
      returns (r: Result<Written>)
      ensures saveError.Some? ==> r == Err(saveError.value)
      ensures saveError.None? ==> r.Ok? && r.value.mix == mix && r.value.rate == rate
      ensures saveError.None? ==> IsFirstFree(outputDir, BaseName(inputFile, instruments), existing, r.value.path)
    {
      var path, counter := ChooseOutputPath(outputDir, inputFile, instruments, existing);
      if saveError.Some? {
        return Err(saveError.value);
      }
      r := Ok(Written(path, mix, rate));
    }

    /** `run`, with the foreign steps as inputs: `load` is what
        `torchaudio.load` gives, `modelLoadError` and `modelSources` what
        loading the Demucs model gives, `separate` what `apply_model` gives
        and `saveError` what saving raises. It returns the signals emitted
        (the trace of how far it got), what was written and the waveform
        handed to the separator. Any exception ends the run with
        `error_occurred`. */
    method Run(load: Result<Decoded>, modelLoadError: Option<string>, modelSources: seq<string>,
               separate: Result<seq<Signal>>, existing: set<string>, saveError: Option<string>)
      returns (events: seq<Event>, outcome: Outcome, written: Option<Written>, separatorInput: Signal)
      requires separate.Ok? ==> SeparatorOutput(modelSources, separate.value)
      modifies modelManager
      ensures events == Trace(outcome)
      ensures outcome.EarlyError? <==> load.Err? || |instruments| == 0
      ensures load.Err? ==> outcome == EarlyError(load.error)
      ensures load.Ok? && |instruments| == 0 ==> outcome == EarlyError("list index out of range")
      ensures load.Ok? && |instruments| > 0 ==> separatorInput == NormalizeChannels(load.value.wave)
      ensures load.Ok? && |instruments| > 0 ==>
                outcome.statuses == if DemucsModel in old(modelManager.failedModels) then [] else [LoadingMessage(DemucsModel)]
      ensures load.Ok? && |instruments| > 0 && DemucsModel in old(modelManager.failedModels) ==>
                outcome == ModelError([], PreviouslyFailed(DemucsModel))
      ensures load.Ok? && |instruments| > 0 && DemucsModel !in old(modelManager.failedModels) && modelLoadError.Some? ==>
                outcome.ModelError? && outcome.message == LoadFailure(DemucsModel, modelLoadError.value)
      ensures load.Ok? && |instruments| > 0 && DemucsModel !in old(modelManager.failedModels) && modelLoadError.None? ==>
                if separate.Err? then outcome.ModelError? && outcome.message == separate.error
                else if saveError.Some? then outcome.SaveError? && outcome.message == saveError.value
                else outcome.Saved?
      ensures outcome.Saved? <==> written.Some?
      ensures written.Some? ==>
                && outcome.path == written.value.path
                && SavedMix(written.value, outputDir, BaseName(inputFile, instruments), existing,
                            load.value.rate, modelSources, separate.value, instruments[0])
      ensures modelManager.failedModels ==
                if load.Ok? && |instruments| > 0
                then FailedAfter(old(modelManager.failedModels), DemucsModel, modelLoadError.Some?)
                else old(modelManager.failedModels)
    {
      written, separatorInput := None, [];
      if load.Err? {
        outcome := EarlyError(load.error);
      } else {
        separatorInput := NormalizeChannels(load.value.wave);
        if |instruments| == 0 {
          outcome := EarlyError("list index out of range");
        } else {
          var model, statuses := modelManager.LoadModelSafely(DemucsModel, None, modelLoadError, modelSources, true);
          if model.Err? {
            outcome := ModelError(statuses, model.error);
          } else if separate.Err? {
            outcome := ModelError(statuses, separate.error);
          } else {
            DemucsIsNotMdx();
            var mix := MixKept(model.value.sources, separate.value, instruments[0]);
            var saved := SaveOutput(mix, load.value.rate, existing, saveError);
            if saved.Err? {
              outcome := SaveError(statuses, saved.error);
            } else {
              written := Some(saved.value);
              outcome := Saved(statuses, saved.value.path);
            }
          }
        }
      }
      events := Trace(outcome);
    }
  }

  /** What a successful run writes: the kept stems' sum, sample by sample,
      at the first free candidate path, with the input's sample rate. */
  ghost predicate SavedMix(w: Written, dir: string, base: string, existing: set<string>, rate: int,
                           labels: seq<string>, stems: seq<Signal>, removed: string)
  {
    && SeparatorOutput(labels, stems)
    && IsFirstFree(dir, base, existing, w.path)
    && w.rate == rate
    && Shaped(w.mix, |stems[0]|, Width(stems[0]))
    && forall c, t :: 0 <= c < |stems[0]| && 0 <= t < Width(stems[0]) ==>
         w.mix[c][t] == KeptSum(labels, stems, removed, c, t)
  }

  /** The first two status messages of `run`. */
  const LoadingAudio := "Loading audio..."
  const ProcessingModel := "Processing with " + DemucsModel + "..."

  /** How far `run` gets before it ends: an exception before the model is
      loaded, an exception from loading or applying the model, an exception
      from saving, or a saved result. All but the first forward the status
      messages of the model load. */
  datatype Outcome =
    | EarlyError(message: string)
    | ModelError(statuses: seq<string>, message: string)
    | SaveError(statuses: seq<string>, message: string)
    | Saved(statuses: seq<string>, path: string)

  /** The signals `run` emits up to the model load. */
  function Processing(statuses: seq<string>): seq<Event>
  {
    [Status(LoadingAudio), Progress(10), Status(ProcessingModel), Progress(40)]
      + StatusEvents(statuses)
  }

  /** The signals `run` emits for each outcome. */
  function Trace(o: Outcome): seq<Event>
  {
    match o
    case EarlyError(m) => [Status(LoadingAudio), Progress(10), ErrorOccurred(m)]
    case ModelError(st, m) => Processing(st) + [ErrorOccurred(m)]
    case SaveError(st, m) => Processing(st) + [Progress(70), ErrorOccurred(m)]
    case Saved(st, p) => Processing(st) + [Progress(70), Progress(100), Complete(p)]
  }

  /** Every run starts by announcing the load at 10%, and ends with exactly
      one terminal signal, its last: the output path on success, the
      message of the exception otherwise. */
  lemma TraceEndsOnce(o: Outcome)
    ensures |Trace(o)| >= 3 && Trace(o)[..2] == [Status(LoadingAudio), Progress(10)]
    ensures forall i :: 0 <= i < |Trace(o)| - 1 ==> !Terminal(Trace(o)[i])
    ensures Trace(o)[|Trace(o)| - 1] == if o.Saved? then Complete(o.path) else ErrorOccurred(o.message)
  {
    if !o.EarlyError? {
      var t := Trace(o);
      var p := Processing(o.statuses);
      assert t[..|p|] == p;
      forall i | 0 <= i < |t| - 1
        ensures !Terminal(t[i])
      {
        if i < |p| {
          assert t[i] == p[i];
          if i >= 4 {
            assert p[i] == StatusEvents(o.statuses)[i - 4];
          }
        }
      }
    }
  }

  /** The progress steps each outcome reports. */
  function Steps(o: Outcome): seq<int>
  {
    match o
    case EarlyError(_) => [10]
    case ModelError(_, _) => [10, 40]
    case SaveError(_, _) => [10, 40, 70]
    case Saved(_, _) => [10, 40, 70, 100]
  }

  /** The progress signals of a run are its outcome's steps. */
  lemma TraceSteps(o: Outcome)
    ensures ProgressValues(Trace(o)) == Steps(o)
  {
    match o
    case EarlyError(m) => EarlyErrorSteps(m);
    case ModelError(st, m) => AfterProcessingSteps(st, [ErrorOccurred(m)], []);
    case SaveError(st, m) =>
      Snoc([Progress(70)], ErrorOccurred(m));
      assert [Progress(70)] + [ErrorOccurred(m)] == [Progress(70), ErrorOccurred(m)];
      AfterProcessingSteps(st, [Progress(70), ErrorOccurred(m)], [70]);
    case Saved(st, path) =>
      Snoc([Progress(70)], Progress(100));
      assert [Progress(70)] + [Progress(100)] == [Progress(70), Progress(100)];
      Snoc([Progress(70), Progress(100)], Complete(path));
      assert [Progress(70), Progress(100)] + [Complete(path)] == [Progress(70), Progress(100), Complete(path)];
      AfterProcessingSteps(st, [Progress(70), Progress(100), Complete(path)], [70, 100]);
  }

  /** A run that fails before the model load reports only 10. */
  lemma EarlyErrorSteps(m: string)
    ensures ProgressValues(Trace(EarlyError(m))) == [10]
  {
    var s0 := Status(LoadingAudio);
    Snoc([], s0);
    assert [] + [s0] == [s0];
    Snoc([s0], Progress(10));
    assert [s0] + [Progress(10)] == [s0, Progress(10)];
    Snoc([s0, Progress(10)], ErrorOccurred(m));
    assert [s0, Progress(10)] + [ErrorOccurred(m)] == Trace(EarlyError(m));
  }

  /** The signals after the model load add their own progress values to 10 and 40. */
  lemma AfterProcessingSteps(st: seq<string>, tail: seq<Event>, values: seq<int>)
    requires ProgressValues(tail) == values
    ensures ProgressValues(Processing(st) + tail) == [10, 40] + values
  {
    ProcessingSteps(st);
    ProgressValuesAppend(Processing(st), tail);
  }

  /** Up to the model load, a run reports 10 and 40. */
  lemma ProcessingSteps(statuses: seq<string>)
    ensures ProgressValues(Processing(statuses)) == [10, 40]
  {
    var s0, s1 := Status(LoadingAudio), Status(ProcessingModel);
    Snoc([], s0);
    Snoc([s0], Progress(10));
    Snoc([s0, Progress(10)], s1);
    Snoc([s0, Progress(10), s1], Progress(40));
    assert [] + [s0] == [s0] && [s0] + [Progress(10)] == [s0, Progress(10)];
    assert [s0, Progress(10)] + [s1] == [s0, Progress(10), s1];
    assert [s0, Progress(10), s1] + [Progress(40)] == [s0, Progress(10), s1, Progress(40)];
    var head := [s0, Progress(10), s1, Progress(40)];
    assert ProgressValues(head) == [10, 40];
    StatusesHaveNoProgress(StatusEvents(statuses));
    ProgressValuesAppend(head, StatusEvents(statuses));
  }

  /** Progress only moves forward through 10, 40, 70 and 100, and reaches
      100 exactly when the result was saved. */
  lemma TraceProgress(o: Outcome)
    ensures ProgressValues(Trace(o)) <= [10, 40, 70, 100]
    ensures 100 in ProgressValues(Trace(o)) <==> o.Saved?
  {
    TraceSteps(o);
  }

  /** Whether `e` ends a run. */
  predicate Terminal(e: Event)
  {
    e.Complete? || e.ErrorOccurred?
  }
}
